# RedSnow blueprint layer in Dafny

RedSnow is the Ruby binding of the snowcrash API Blueprint parser. The
native engine parses the Markdown. The Ruby side then turns the result into
a tree of blueprint nodes (`Blueprint`, `ResourceGroup`, `Resource`,
`Action`, `TransactionExample`, `Payload`, `Parameters`, `Parameter`, and
the `Metadata`/`Headers` key-value collections), and can write such a tree
back out as API Blueprint Markdown. This project models that Ruby layer and
proves what it guarantees.

- `ruby_object.dfy` (module `RubyObject`): Ruby values as the layer sees them (nil, booleans, integers, Strings, Symbols, Arrays, ordered Hashes). It holds `blank?` and `deep_symbolize_keys` from lib/redsnow/object.rb, with Hash assignment and the `reduce` fold behind them.
- `text.dfy` (module `Text`): the string operations the serialiser uses: `ONE_INDENTATION_LEVEL` indentation, `String#each_line`, joining with `", "` and ASCII `downcase`. It also proves that indenting a block can be undone.
- `ast_loader.dfy` (module `AstLoader`): every `load_ast!` of lib/red_snow/blueprint.rb. It builds the node tree from a symbolised JSON hash. The `each` loops are methods proved equal to functions. Their contracts state when a node loads, tie each field to its key in the input hash and each child list to one loaded node per element, in order, and give the `Resource` URI-template check.
- `ast_serializer.dfy` (module `AstSerializer`): every `serialize` of lib/red_snow/blueprint.rb. Each function gives the Markdown text a node produces. Each method builds the `buffer` the way the Ruby code does (`times`, `each_line` and `each` loops) and is proved to produce exactly that text. Lemmas state the shape of that text: headings, filtered key-value lines, the abbreviated body form, recoverable bodies and the blank line after descriptions.
- `handle_tree.dfy` (module `HandleTree`): the node classes of lib/redsnow/blueprint.rb. They read the engine's result through handles with `for index in 0..size-1` loops. A handle is modelled as the value the engine answers with, so each constructor is an order-preserving copy. The module also covers the collection accessors `[]`, `get_item`, `filter_collection` and `content_type`, and `ensure_description_newlines`.
- `sourcemap.dfy` (module `Sourcemap`): the source-map decoder of lib/redsnow/sourcemap.rb, from a JSON tree to typed nodes of position lists.
- `wrappers.dfy` (module `Wrappers`): `Option` and `Result`.

Ruby exceptions raised on an ill-formed input are the error `Malformed`. These include indexing a non-Hash, calling `each` on nil, and a text field that is neither nil nor a String. The `abort` in `Resource#load_ast!` is the error `InvalidUriTemplate(message)`. The node trees are immutable values, because Ruby assigns their fields only while it constructs them.

In two places the code does not do what its comments or its shape suggest; the model follows the code.
- The comment on `ensure_description_newlines` promises that the buffer ends with two newlines. The code leaves the description `"\n"` alone, and the model does the same (`AstSerializer.DescriptionTerminatorEndsBlock`).
- `Parameters#serialize` tests the Symbol `:collection` rather than the collection. The `+ Parameters` line is therefore always written (`AstSerializer.ParametersHeaderAlways`).

## Model

| member | source | states |
|---|---|---|
| RubyObject.Blank | lib/redsnow/object.rb:14-16 | `blank?` holds exactly for nil, false and the empty String, Symbol, Array and Hash |
| RubyObject.ToSym | lib/redsnow/object.rb:8 | `to_sym` gives the Symbol with the same text |
| RubyObject.Lookup | lib/redsnow/object.rb:8 | reading a Hash finds nothing exactly when no entry has the key |
| RubyObject.LookupFirstMatch | lib/redsnow/object.rb:8 | a Hash read returns the value of the first entry with that key |
| RubyObject.Fetch | lib/redsnow/object.rb:8 | `hash[k]` is nil for an absent key and the stored value otherwise |
| RubyObject.Store | lib/redsnow/object.rb:8 | `memo[k] = v` appends a new key and keeps the size for an existing one; no other entry appears |
| RubyObject.StoreLookup | lib/redsnow/object.rb:8 | after `memo[k] = v`, `memo[k]` is `v` and every other key reads as before |
| RubyObject.StoreUnique | lib/redsnow/object.rb:8 | assignment keeps a Hash's keys distinct |
| RubyObject.StoreAll | lib/redsnow/object.rb:8 | the `reduce` fold keeps keys distinct and adds only entries it was given |
| RubyObject.StoreAllLookup | lib/redsnow/object.rb:8 | after the fold, a key holds the value of its last assignment, or its earlier value if it was never assigned |
| RubyObject.StoreAllFresh | lib/redsnow/object.rb:8 | assigning only new keys appends them in order |
| RubyObject.LastLookupAt | lib/redsnow/object.rb:8 | the last entry with a key is the one the fold leaves behind |
| RubyObject.LastLookupAbsent | lib/redsnow/object.rb:8 | a key that no entry has is never assigned |
| RubyObject.LastLookupPresent | lib/redsnow/object.rb:8 | a key is assigned exactly when some entry has it |
| RubyObject.DeepSymbolizeKeys | lib/redsnow/object.rb:7-11 | the result's Hashes all have distinct Symbol keys; Hashes stay Hashes and Arrays stay Arrays of the same length, each element converted in order; any other value is returned unchanged |
| RubyObject.SymbolizedFixed | lib/redsnow/object.rb:7-11 | a tree whose keys are already distinct Symbols is unchanged |
| RubyObject.DeepSymbolizeKeysIdempotent | lib/redsnow/object.rb:7-11 | applying `deep_symbolize_keys` twice gives what applying it once gives |
| RubyObject.DeepSymbolizeKeysLaterWins | lib/redsnow/object.rb:8 | when several keys map to one Symbol, the converted value of the last one is kept |
| RubyObject.DeepSymbolizeKeysKeys | lib/redsnow/object.rb:8 | the result's keys are exactly the `to_sym` of the original keys |
| Text.Indent | lib/red_snow/blueprint.rb:13 | `level` units are `4 * level` spaces |
| Text.AppendIndent | lib/red_snow/blueprint.rb:90 | the `level.times` loop appends exactly `level` indentation units |
| Text.NewlineIndex | lib/red_snow/blueprint.rb:212 | the first newline of a text, or its length when it has none |
| Text.LinesSplit | lib/red_snow/blueprint.rb:212 | `each_line` pieces glue back to the text; each is one line; all but the last end in a newline; the last ends in one exactly when the text does |
| Text.LineOf | lib/red_snow/blueprint.rb:444-448 | text without a newline, ended by one, is a whole line |
| Text.FirstLine | lib/red_snow/blueprint.rb:444-448 | a text that starts with a whole line has it as its first `each_line` piece |
| Text.LinesCons | lib/red_snow/blueprint.rb:212 | a leading whole line is split off as the first piece |
| Text.IndentBlockEnds | lib/red_snow/blueprint.rb:313-314 | an indented block ends in a newline exactly when the text does |
| Text.IndentBlockRoundTrip | lib/red_snow/blueprint.rb:212-214 | removing `level` units from each line of an indented block gives the text back |
| Text.IndentedLinesRoundTrip | lib/red_snow/blueprint.rb:212-214 | the same round trip, line by line |
| Text.JoinEmpty | lib/red_snow/blueprint.rb:176-199 | a join of non-empty pieces is empty only when there are no pieces |
| Text.JoinHead | lib/red_snow/blueprint.rb:176-199 | a join starts with its first piece |
| Text.FirstKeyed | lib/red_snow/blueprint.rb:130-133 | the index of the first element whose key is the one sought, or the length when none has it; both `content_type` lookups use it |
| AstLoader.HashEntries | lib/red_snow/blueprint.rb:47-50 | `ast[:key]` succeeds exactly on a Hash and reads its entries |
| AstLoader.TextOf | lib/red_snow/blueprint.rb:47-50 | a text field is unset for nil, the String for a String, and an error otherwise |
| AstLoader.EachOf | lib/red_snow/blueprint.rb:78-80 | `each` yields an Array's elements, or a Hash's pairs one per entry; any other value raises |
| AstLoader.LoadEach | lib/red_snow/blueprint.rb:78-80 | loading a collection succeeds exactly when every element loads; it then gives one node per element in order; otherwise it fails with the first failing element's error |
| AstLoader.LoadEachFailurePrefix | lib/red_snow/blueprint.rb:78-80 | once a prefix of the collection fails, the whole collection fails the same way |
| AstLoader.LoadEachFailsAt | lib/red_snow/blueprint.rb:78-80 | the first element that fails decides the error |
| AstLoader.UnlessBlank | lib/red_snow/blueprint.rb:282 | a blank child is left unset; otherwise the child is loaded |
| AstLoader.EachUnlessBlank | lib/red_snow/blueprint.rb:436-439 | a blank child list is unset; otherwise one node per element `each` yields, in order (`LoadedFrom`), and never an empty list |
| AstLoader.KeyValueOf | lib/red_snow/blueprint.rb:79 | an item loads exactly when it is a Hash whose `:name` is a String or Symbol and whose `:value` is a text; it then becomes the single pair of that name and that text |
| AstLoader.KeyValuesOf | lib/red_snow/blueprint.rb:75-81 | a value without `empty?` raises, and so does a non-empty String, Symbol or Hash; an empty input leaves the collection unset; a non-empty Array loads exactly when every item loads, and then gives exactly one pair per item, in input order |
| AstLoader.NewKeyValues | lib/red_snow/blueprint.rb:18-20 | `load_ast!` runs only for a truthy argument |
| AstLoader.ValueOf | lib/red_snow/blueprint.rb:163-164 | a `+ Values` entry is a Hash, and on a Hash the result is exactly its `:value` text |
| AstLoader.IfTruthy | lib/red_snow/blueprint.rb:156-159 | `@x = ast[:x] if ast[:x]` leaves a falsy field unset |
| AstLoader.UseOf | lib/red_snow/blueprint.rb:157 | `use` is `:required` exactly when `ast[:required] == true` |
| AstLoader.ParameterOf | lib/red_snow/blueprint.rb:153-167 | loads exactly when the input is a Hash whose fields load; name and description are their texts; type, default and example are set only when truthy; `use` is set, and is required exactly when `:required` is true; `values` is unset exactly when blank, and otherwise holds one value per element, in order |
| AstLoader.NewParameter | lib/red_snow/blueprint.rb:153-167 | a falsy input gives an empty parameter; otherwise `load_ast!` |
| AstLoader.ParametersOf | lib/red_snow/blueprint.rb:242-249 | a value without `empty?` raises, and so does a non-empty String, Symbol or Hash; an empty input leaves the collection unset; a non-empty Array loads exactly when every element loads as `Parameter.new`, and then gives one parameter per element, in order |
| AstLoader.PayloadOf | lib/red_snow/blueprint.rb:279-285 | loads exactly when the input is a Hash whose name and description are texts, whose headers load, and whose body and schema are blank or Strings; name and description are those texts; headers are unset exactly when blank, and otherwise the loaded collection, which is set and non-empty; a body or schema is unset exactly when blank, and otherwise the non-empty String given |
| AstLoader.NewPayload | lib/red_snow/blueprint.rb:279-285 | a falsy input gives an empty payload; otherwise `load_ast!`; the headers of a loaded payload are set and non-empty when present |
| AstLoader.TransactionExampleOf | lib/red_snow/blueprint.rb:396-408 | loads exactly when the input is a Hash whose name, description, requests and responses load; name and description are their texts; requests and responses are unset exactly when blank, and otherwise hold one `Payload.new(item)` per element, in order |
| AstLoader.NewTransactionExample | lib/red_snow/blueprint.rb:396-408 | a falsy input gives an empty example; otherwise `load_ast!` |
| AstLoader.ActionOf | lib/red_snow/blueprint.rb:430-441 | loads exactly when the input is a Hash whose fields and children load; name, description and method are their texts; parameters are unset when blank, and otherwise `Parameters.new(ast[:parameters])`, set and non-empty; examples are unset when blank, and otherwise hold one `TransactionExample.new(item)` per element, in order |
| AstLoader.NewAction | lib/red_snow/blueprint.rb:430-441 | a falsy input gives an empty action; otherwise `load_ast!` |
| AstLoader.UriTemplateFailure | lib/red_snow/blueprint.rb:477-479 | the abort message is the base message for a blank name, and names the resource for a non-empty String name |
| AstLoader.ResourceOf | lib/red_snow/blueprint.rb:474-491 | a resource loads exactly when it is a Hash whose name and description are texts, whose URI template is a String starting with "/", and whose model, parameters and actions load; when the name and description load and the template is not `true`, loading aborts exactly when the template is blank (nil or absent, false, an empty String, Array or Hash) or does not start with "/"; the abort message is as above; a loaded resource has the name and description texts and the input's String URI template; its model is `Payload.new(ast[:model])` and its parameters `Parameters.new(ast[:parameters])`, each unset when blank; its actions are unset when blank, and otherwise one `Action.new(item)` per element, in order |
| AstLoader.ResourceChildrenOf | lib/red_snow/blueprint.rb:483-490 | after the URI check, loading fails only as `Malformed`, and exactly when the model, parameters or actions fail; the result keeps the name, description and URI template, and holds the model, parameters and actions read from the Hash as in `ResourceOf` |
| AstLoader.NewResource | lib/red_snow/blueprint.rb:474-491 | a falsy input gives an empty resource; otherwise `load_ast!` |
| AstLoader.ResourceGroupOf | lib/red_snow/blueprint.rb:520-527 | loads exactly when the input is a Hash whose name, description and resources load; name and description are their texts; resources are unset when blank, and otherwise hold one `Resource.new(item)` per element, in order |
| AstLoader.NewResourceGroup | lib/red_snow/blueprint.rb:520-527 | a falsy input gives an empty group; otherwise `load_ast!` |
| AstLoader.BlueprintOf | lib/red_snow/blueprint.rb:554-567 | loads exactly when the input is a Hash whose fields and children load; name and description are their texts; metadata is unset when blank, and otherwise the loaded collection, set and non-empty; resource groups are unset when blank, and otherwise hold one `ResourceGroup.new(item)` per element, in order |
| AstLoader.NewBlueprint | lib/red_snow/blueprint.rb:554-567 | a falsy input gives an empty blueprint; otherwise `load_ast!` |
| AstLoader.LoadItems | lib/red_snow/blueprint.rb:78-80 | the `each` loop loads the elements in order and stops at the first failure, as `LoadEach` |
| AstLoader.LoadKeyValues | lib/red_snow/blueprint.rb:75-81 | the loop builds exactly the collection `KeyValuesOf` states |
| AstLoader.LoadParameter | lib/red_snow/blueprint.rb:153-167 | the loop builds exactly the parameter `ParameterOf` states |
| AstLoader.LoadParameters | lib/red_snow/blueprint.rb:242-249 | the loop builds exactly the list `ParametersOf` states |
| AstLoader.LoadPayload | lib/red_snow/blueprint.rb:279-285 | builds exactly the payload `PayloadOf` states |
| AstLoader.LoadPayloads | lib/red_snow/blueprint.rb:399-407 | the requests or responses loop, as `EachUnlessBlank` |
| AstLoader.LoadTransactionExample | lib/red_snow/blueprint.rb:396-408 | builds exactly the example `TransactionExampleOf` states |
| AstLoader.LoadExamples | lib/red_snow/blueprint.rb:436-439 | the examples loop, as `EachUnlessBlank` |
| AstLoader.LoadAction | lib/red_snow/blueprint.rb:430-441 | builds exactly the action `ActionOf` states |
| AstLoader.LoadActions | lib/red_snow/blueprint.rb:487-490 | the actions loop, as `EachUnlessBlank` |
| AstLoader.LoadResource | lib/red_snow/blueprint.rb:474-491 | builds exactly the resource `ResourceOf` states, including the abort |
| AstLoader.LoadResources | lib/red_snow/blueprint.rb:523-526 | the resources loop, as `EachUnlessBlank` |
| AstLoader.LoadResourceGroup | lib/red_snow/blueprint.rb:520-527 | builds exactly the group `ResourceGroupOf` states |
| AstLoader.LoadResourceGroups | lib/red_snow/blueprint.rb:563-566 | the groups loop, as `EachUnlessBlank` |
| AstLoader.LoadBlueprint | lib/red_snow/blueprint.rb:554-567 | builds exactly the blueprint `BlueprintOf` states |
| AstSerializer.LoadedBlueprintIsReady | lib/red_snow/blueprint.rb:554-589 | every tree `load_ast!` builds has the collections `serialize` iterates without a nil check |
| AstSerializer.DescriptionTerminatorEndsBlock | lib/red_snow/blueprint.rb:56-64 | nothing is added for a blank description; otherwise at most two newlines, exactly enough to end with a blank line, except after the description "\n" |
| AstSerializer.FilterKeeps | lib/red_snow/blueprint.rb:102-105 | exactly the entries whose key is not ignored are kept, and all of them when nothing is ignored |
| AstSerializer.FilterAppend | lib/red_snow/blueprint.rb:102-105 | filtering keeps the entries' order |
| AstSerializer.KeyValueLinesEmpty | lib/red_snow/blueprint.rb:86-97 | a line is written exactly when some entry is not ignored, and the text then ends a line |
| AstSerializer.KeyValueLinesFiltered | lib/red_snow/blueprint.rb:86-97 | the serialiser writes exactly one line per kept entry, in order |
| AstSerializer.KeyValuesMarkdownEmpty | lib/red_snow/blueprint.rb:86-97 | a collection writes nothing when every entry is ignored, and otherwise ends with a blank line |
| AstSerializer.KeyValuesMarkdownLines | lib/red_snow/blueprint.rb:86-97 | one "key: value" line per unignored entry at `level` units, in order, and one more newline exactly when a line was written |
| AstSerializer.HeadersMarkdownShape | lib/red_snow/blueprint.rb:120-127 | headers write nothing when blank or all ignored; otherwise "+ Headers" at `level`, a blank line, and the entries at `level + 2` |
| AstSerializer.DetectFirst | lib/red_snow/blueprint.rb:131 | `detect` finds the first entry with the key, or nothing when no entry has it |
| AstSerializer.ContentTypeFirst | lib/red_snow/blueprint.rb:130-133 | `content_type` is the value of the first Content-Type entry, or nil |
| AstSerializer.AttributeParts | lib/red_snow/blueprint.rb:176-199 | every attribute piece is non-empty |
| AstSerializer.JoinSnocs | lib/red_snow/blueprint.rb:186-195 | appending a piece after ", " extends the join |
| AstSerializer.AttributeBufferJoins | lib/red_snow/blueprint.rb:176-199 | the attribute list is the present attributes joined by ", "; it is omitted exactly for a required parameter with no type and no example |
| AstSerializer.ParametersHeaderAlways | lib/red_snow/blueprint.rb:251-261 | "+ Parameters" is always written first, and alone for an empty collection |
| AstSerializer.AssetRecoverable | lib/red_snow/blueprint.rb:312-334 | dropping the closing newlines and unindenting gives the body or schema back; the text ends with a blank line |
| AstSerializer.PayloadMarkdown | lib/red_snow/blueprint.rb:287-340 | a payload never serialises to the empty text |
| AstSerializer.AbbreviatedAlone | lib/red_snow/blueprint.rb:302-309 | the abbreviated form is used exactly when there is no description, no header besides Content-Type and no schema; it then starts with a blank line rather than "+ Body" |
| AstSerializer.HeadingIsLine | lib/red_snow/blueprint.rb:444-448 | a heading built from one-line pieces is one whole line |
| AstSerializer.ActionHeadingFirst | lib/red_snow/blueprint.rb:444-448 | the first line is "### METHOD" for a blank name and "### name [METHOD]" otherwise |
| AstSerializer.ResourceHeadingFirst | lib/red_snow/blueprint.rb:495-499 | the first line is "## URI" for a blank name and "## name [URI]" otherwise |
| AstSerializer.GroupHeadingFirst | lib/red_snow/blueprint.rb:529-531 | a named group's first line is "# Group name" |
| AstSerializer.BlueprintLeadInLines | lib/red_snow/blueprint.rb:569-581 | with `set_blueprint_format`, "FORMAT: 1A" followed by the metadata lines except FORMAT (a blank line without metadata); without it, every metadata line |
| AstSerializer.IndentedLines | lib/red_snow/blueprint.rb:212-214 | the `each_line` loop writes every line after `level` units |
| AstSerializer.AssetLines | lib/red_snow/blueprint.rb:312-334 | the body or schema loop and its `got_new_line` flag give the recoverable asset text |
| AstSerializer.SerializeKeyValues | lib/red_snow/blueprint.rb:86-97 | the loop writes the filtered "key: value" lines |
| AstSerializer.SerializeHeaders | lib/red_snow/blueprint.rb:120-127 | writes the headers block of `HeadersMarkdownShape` |
| AstSerializer.SerializeAttributes | lib/red_snow/blueprint.rb:176-199 | builds the attribute list of `AttributeBufferJoins` |
| AstSerializer.SerializeParameterDescription | lib/red_snow/blueprint.rb:201-217 | writes " ... text" for one line, the lines indented by two units otherwise |
| AstSerializer.SerializeValues | lib/red_snow/blueprint.rb:219-228 | writes one "+ `value`" line per value |
| AstSerializer.SerializeParameter | lib/red_snow/blueprint.rb:169-231 | writes the parameter's Markdown |
| AstSerializer.SerializeParameters | lib/red_snow/blueprint.rb:251-261 | writes "+ Parameters" and each parameter in order |
| AstSerializer.SerializePayload | lib/red_snow/blueprint.rb:287-340 | writes the payload's Markdown, abbreviated exactly as `AbbreviatedAlone` says |
| AstSerializer.SerializeSection | lib/red_snow/blueprint.rb:347-385 | writes "+ Section name (content type)" and the payload |
| AstSerializer.SerializeSections | lib/red_snow/blueprint.rb:412-413 | writes each request or response in order |
| AstSerializer.SerializeExample | lib/red_snow/blueprint.rb:410-415 | writes the requests, then the responses |
| AstSerializer.SerializeExamples | lib/red_snow/blueprint.rb:455 | writes each example in order |
| AstSerializer.SerializeAction | lib/red_snow/blueprint.rb:442-457 | writes the action whose first line `ActionHeadingFirst` gives |
| AstSerializer.SerializeActions | lib/red_snow/blueprint.rb:507 | writes each action in order |
| AstSerializer.SerializeResource | lib/red_snow/blueprint.rb:493-509 | writes the resource whose first line `ResourceHeadingFirst` gives |
| AstSerializer.SerializeResources | lib/red_snow/blueprint.rb:535 | writes each resource in order |
| AstSerializer.SerializeGroup | lib/red_snow/blueprint.rb:529-537 | writes the group whose first line `GroupHeadingFirst` gives |
| AstSerializer.SerializeGroups | lib/red_snow/blueprint.rb:587 | writes each group in order |
| AstSerializer.SerializeBlueprint | lib/red_snow/blueprint.rb:569-589 | writes the lead-in of `BlueprintLeadInLines`, the name, the description and the groups |
| HandleTree.Map | lib/redsnow/blueprint.rb:182-186 | a conversion keeps the length and converts each element at its own index |
| HandleTree.CollectionOfEntries | lib/redsnow/blueprint.rb:79-91 | no collection exactly when the size is 0; otherwise one `{name, value}` entry per handle, in index order |
| HandleTree.NewKeyValueCollection | lib/redsnow/blueprint.rb:108-120 | the `for index` loop builds the collection of `CollectionOfEntries` |
| HandleTree.NewParameter | lib/redsnow/blueprint.rb:141-162 | the values are read in index order, all of them |
| HandleTree.NewParameters | lib/redsnow/blueprint.rb:175-188 | one parameter per handle, in index order, and an array even for none |
| HandleTree.NewPayload | lib/redsnow/blueprint.rb:208-216 | the headers collection of the payload, as `CollectionOfEntries` |
| HandleTree.NewPayloads | lib/redsnow/blueprint.rb:236-258 | one payload per handle, in index order |
| HandleTree.NewTransactionExample | lib/redsnow/blueprint.rb:230-260 | the requests and responses, each in index order |
| HandleTree.NewAction | lib/redsnow/blueprint.rb:277-297 | the parameters and examples, each in index order |
| HandleTree.NewResource | lib/redsnow/blueprint.rb:316-337 | the model, the actions and the parameters, each in index order |
| HandleTree.NewResourceGroup | lib/redsnow/blueprint.rb:350-366 | the resources in index order |
| HandleTree.NewBlueprint | lib/redsnow/blueprint.rb:388-410 | the metadata and the resource groups in index order |
| HandleTree.FirstMatch | lib/redsnow/blueprint.rb:69-71 | the index of the first item whose name matches ignoring case, or the length |
| HandleTree.GetItemFirst | lib/redsnow/blueprint.rb:69-71 | `get_item` finds the first item whose name matches ignoring case, and nothing when none does |
| HandleTree.LookupFirst | lib/redsnow/blueprint.rb:53-56 | `[]` is nil for a nil collection or no match, and otherwise the first match's value |
| HandleTree.MatchingIgnoresCase | lib/redsnow/blueprint.rb:69-71 | keys equal up to case select the same items |
| HandleTree.LookupIgnoresCase | lib/redsnow/blueprint.rb:65-71 | keys equal up to case look up the same value |
| HandleTree.SampleMetadataFormat | test/redsnow_test.rb:196 | `metadata['FORMAT']` is "1A" |
| HandleTree.SampleMetadataB | test/redsnow_test.rb:198 | `metadata['B']` is "2" |
| HandleTree.SampleMetadataMissing | test/redsnow_test.rb:200 | `metadata['D']` is nil |
| HandleTree.SampleHeadersLookup | test/redsnow_test.rb:148-149 | `headers['content-type']` and `headers['Content-Type']` are both "text/plain" |
| HandleTree.SelectByFirstKeyAllOrNothing | lib/redsnow/blueprint.rb:60-63 | as written, every item is kept unless `:name` itself is ignored, and then none |
| HandleTree.FilterCollectionAsWrittenKeepsIgnored | lib/redsnow/blueprint.rb:60-63 | as written, ignoring "FORMAT" keeps the FORMAT entry |
| HandleTree.UnignoredKeeps | lib/redsnow/blueprint.rb:60-63 | exactly the items with an unignored name are kept, in order |
| HandleTree.UnignoredAppend | lib/redsnow/blueprint.rb:60-63 | filtering keeps the items' order |
| HandleTree.FilterCollectionKeeps | lib/redsnow/blueprint.rb:60-63 | intended: the collection itself for no ignored keys; otherwise an error for a nil collection, else exactly the items with an unignored name |
| HandleTree.FilterCollectionDropsIgnored | lib/redsnow/blueprint.rb:60-63 | intended: ignoring "FORMAT" keeps A, B and C in order |
| HandleTree.DetectByKeyNeverFinds | lib/redsnow/blueprint.rb:102-105 | as written, no item has the key `:'Content-Type'` |
| HandleTree.ContentTypeAsWrittenMissesHeader | lib/redsnow/blueprint.rb:102-105 | as written, a "Content-Type: text/plain" message has content type nil |
| HandleTree.DetectByNameFirst | lib/redsnow/blueprint.rb:103 | intended `detect` finds the first item with the name, or nothing |
| HandleTree.ContentTypeFindsHeader | lib/redsnow/blueprint.rb:102-105 | intended: the content type of that message is "text/plain" |
| HandleTree.ContentTypeFirst | lib/redsnow/blueprint.rb:102-105 | intended: the value of the first Content-Type header, or nil |
| HandleTree.DescriptionNewlinesEndBlock | lib/redsnow/blueprint.rb:29-37 | the same rule as the serialiser's: nothing for an empty description, otherwise enough newlines to end with a blank line, except after "\n" |
| Sourcemap.EachIfKey | lib/redsnow/sourcemap.rb:155-163 | nothing when the key is absent; otherwise one node per array element, in order, and the decoding succeeds exactly when every element decodes; a key that is present but nil raises; a present value that is neither an Array nor a Hash raises |
| Sourcemap.SourceMapOf | lib/redsnow/sourcemap.rb:26-32 | empty for nil; otherwise the positions in order |
| Sourcemap.NodeOf | lib/redsnow/sourcemap.rb:12-20 | empty for nil; otherwise one position list per entry, in order; any other non-Array, non-Hash value raises |
| Sourcemap.ParameterOf | lib/redsnow/sourcemap.rb:85-97 | decodes exactly when the input is a Hash whose parts decode; name, description, type, default and example are the position lists under their keys, and `use` is the list under 'required'; `values` holds one list per entry's 'value', and is empty without 'values'; nil raises |
| Sourcemap.ParametersOf | lib/redsnow/sourcemap.rb:105-113 | empty for nil; otherwise one parameter per element, in order; any other non-Array, non-Hash value raises |
| Sourcemap.PayloadOf | lib/redsnow/sourcemap.rb:131-140 | every field is unset for nil; otherwise the payload decodes exactly when the input is a Hash whose parts decode, and then each field is set to the position list under its key, and the headers to the node under 'headers' |
| Sourcemap.TransactionExampleOf | lib/redsnow/sourcemap.rb:152-164 | decodes exactly when the input is a Hash whose parts decode; name and description are the position lists under their keys; requests and responses have the JSON arrays' lengths and order, and are empty when the key is absent; nil raises |
| Sourcemap.ActionOf | lib/redsnow/sourcemap.rb:178-190 | every field is unset for nil; otherwise the action decodes exactly when the input is a Hash whose parts decode, and then name, description and method are the position lists under their keys, the parameters are decoded from 'parameters', and the examples are one per element, in order |
| Sourcemap.ResourceOf | lib/redsnow/sourcemap.rb:206-218 | every field is unset for nil; otherwise the resource decodes exactly when the input is a Hash whose parts decode, and then name, description and URI template are the position lists under their keys, the model is decoded from 'model', the parameters from 'parameters', and the actions one per element, in order |
| Sourcemap.ResourceGroupOf | lib/redsnow/sourcemap.rb:228-235 | decodes exactly when the input is a Hash whose parts decode; name and description are the position lists under their keys; the resources are one per element, in order; nil raises |
| Sourcemap.BlueprintOf | lib/redsnow/sourcemap.rb:247-258 | every field is unset for nil; otherwise the blueprint decodes exactly when the input is a Hash whose parts decode, and then name and description are the position lists under their keys, the metadata is the node under 'metadata', and the groups are one per element, in order |
| Sourcemap.AbsentPartIsEmpty | lib/redsnow/sourcemap.rb:49-50 | an absent key gives an empty position list, never nil |
| Sourcemap.UnnamedBlueprint | test/redsnow_sourcemap_test.rb:26 | an unnamed blueprint's name positions are `[]` |
| Sourcemap.SampleNamedBlueprint | test/redsnow_sourcemap_test.rb:7-13 | for a tree holding only the name's positions, the name spans `[[0, 8]]`; the parts the tree leaves out are empty lists, which follows from the input rather than from the test |
| Sourcemap.NewSourceMap | lib/redsnow/sourcemap.rb:26-32 | the `self << position` loop copies the positions of `SourceMapOf` |
| Sourcemap.NewSourceMaps | lib/redsnow/sourcemap.rb:17-19 | the loop decodes one list per entry, stopping at the first error |
| Sourcemap.NewNode | lib/redsnow/sourcemap.rb:12-20 | builds the node of `NodeOf` |
| Sourcemap.NewValueSourceMap | lib/redsnow/sourcemap.rb:95 | reads the 'value' list of one values entry |
| Sourcemap.NewParameter | lib/redsnow/sourcemap.rb:85-97 | builds the parameter of `ParameterOf` |
| Sourcemap.NewParameters | lib/redsnow/sourcemap.rb:105-113 | builds the list of `ParametersOf` |
| Sourcemap.NewPayload | lib/redsnow/sourcemap.rb:131-140 | builds the payload of `PayloadOf` |
| Sourcemap.NewPayloads | lib/redsnow/sourcemap.rb:155-163 | the requests or responses loop of `EachIfKey` |
| Sourcemap.NewTransactionExample | lib/redsnow/sourcemap.rb:152-164 | builds the example of `TransactionExampleOf` |
| Sourcemap.NewAction | lib/redsnow/sourcemap.rb:178-190 | builds the action of `ActionOf` |
| Sourcemap.NewActions | lib/redsnow/sourcemap.rb:214-217 | the actions loop of `EachIfKey` |
| Sourcemap.NewResource | lib/redsnow/sourcemap.rb:206-218 | builds the resource of `ResourceOf` |
| Sourcemap.NewResourceGroup | lib/redsnow/sourcemap.rb:228-235 | builds the group of `ResourceGroupOf` |
| Sourcemap.NewBlueprint | lib/redsnow/sourcemap.rb:247-258 | builds the blueprint of `BlueprintOf` |

## Left out

- The native snowcrash engine and its FFI binding (lib/redsnow/binding.rb, lib/redsnow.rb, lib/red_snow.rb) are not part of this model. A handle is the value it would answer with, so strings read through it are never nil and sizes are never negative.
- lib/redsnow/parseresult.rb is not part of this model: it only reads warnings, errors and source locations through handles.
- `abort` in `Resource#load_ast!` ends the process; it is the error `InvalidUriTemplate(message)` here.
- Ruby exceptions are one error, `Malformed`, without the exception's class or message.
- A text field of `load_ast!` that is neither nil nor a String (a Symbol, a number) is `Malformed`, although Ruby would store it and fail only later, or print it on interpolation.
- `AstLoader.UriTemplateFailure`: Ruby interpolates any non-blank name into the abort message; the model names only a String name and gives the base message otherwise. A name that is not a String never reaches the abort, since it is `Malformed` as a text field first.
- `HandleTree.NewParameter`: lib/redsnow/blueprint.rb:158 reads each value with `sc_value_string`, but lib/redsnow/binding.rb:85 attaches that reader only as `sc_value`, so the code as written raises for a parameter that has values. The model assumes the reader returns the value's text, as the values listed in test/redsnow_test.rb:235-240 expect.
- A Symbol URI template is `Malformed`, although `Symbol#[]` would let it pass the check.
- Hash keys are Strings or Symbols only: the JSON parser and `deep_symbolize_keys` produce nothing else.
- `downcase` folds ASCII letters only; Ruby 2.4 and later also fold other Unicode letters.
- `RubyObject.Blank`: `blank?` and `deep_symbolize_keys` are defined on the binding's own `RedSnow::Object`; the model gives them to every value, as the blueprint code uses them.
- A nil `ignore_keys` list ignores nothing, exactly like the empty list, and is modelled as it.
- The `attr_accessor` setters, which only assign one field, are not modelled.
- The `@collection` that `Sourcemap::NamedNode` subclasses inherit but never set is not modelled.
- `Sourcemap.PayloadOf`, `Sourcemap.ValueSourceMapOf` and the other decoders: on a String node Ruby's `String#[]` returns nil for a key the text does not contain (and the key itself when it does), so such a node can decode to empty lists where the model says `Malformed`. An Array node raises in Ruby as well, because `Array#[]` rejects a String index.
- The parse-option bitmask and the Markdown grammar itself live in the engine and are not part of this model.

## Findings

| source | as written | input that shows it | evidently intended | confidence | as-written member | corrected member |
|---|---|---|---|---|---|---|
| lib/redsnow/blueprint.rb:102-105 | `content_type` looks for an item with the key `:'Content-Type'`, but every item has the keys `:name` and `:value` | headers holding the one item `{name: "Content-Type", value: "text/plain"}`: the result is nil | the value of the first header named Content-Type, here "text/plain", as lib/red_snow/blueprint.rb:130-133 does on its own items | not executed | HandleTree.ContentTypeAsWritten (HandleTree.DetectByKeyNeverFinds, HandleTree.ContentTypeAsWrittenMissesHeader) | HandleTree.ContentType (HandleTree.ContentTypeFirst, HandleTree.ContentTypeFindsHeader) |
| lib/redsnow/blueprint.rb:60-63 | `filter_collection` tests each item's first key, which is always `:name`, so an ignored name is never dropped | metadata FORMAT: 1A, A: 1, B: 2, C: 3 with ignore list ["FORMAT"]: all four entries are kept | the entries whose name is not ignored: A, B and C | not executed | HandleTree.FilterCollectionAsWritten (HandleTree.SelectByFirstKeyAllOrNothing, HandleTree.FilterCollectionAsWrittenKeepsIgnored) | HandleTree.FilterCollection (HandleTree.FilterCollectionKeeps, HandleTree.FilterCollectionDropsIgnored) |
