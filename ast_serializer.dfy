/**
  The Markdown serialiser of lib/red_snow/blueprint.rb: every node's
  `serialize` appends API Blueprint Markdown to a `buffer` string.

  Each `serialize` is specified by a function `<Node>Markdown` that gives
  the whole text it produces; the `Serialize<Node>` methods build the buffer
  the way the Ruby code does (`times` loops for indentation, `each_line`
  loops for multi-line text, `each` loops over child nodes) and are proved to
  produce exactly that text.  Collections Ruby iterates without a `nil`
  check must be set: the `...Ready` predicates say so, and every loaded tree
  satisfies them (`LoadedBlueprintIsReady`).
 */
module AstSerializer {
  import opened Wrappers
  import opened Text
  import opened AstLoader

  // ---------------------------------------------------------------------
  // Preconditions: the collections `serialize` iterates or searches

  predicate HeadersReady(h: Option<KeyValueCollection>) {
    h.Some? ==> h.value.collection.Some?
  }

  predicate ParametersReady(ps: Option<Parameters>) {
    ps.Some? ==> ps.value.collection.Some?
  }

  predicate PayloadReady(p: Payload) {
    HeadersReady(p.headers)
  }

  predicate PayloadsReady(ps: seq<Payload>) {
    forall i | 0 <= i < |ps| :: PayloadReady(ps[i])
  }

  predicate ExampleReady(e: TransactionExample) {
    && (e.requests.Some? ==> PayloadsReady(e.requests.value))
    && (e.responses.Some? ==> PayloadsReady(e.responses.value))
  }

  predicate ExamplesReady(es: seq<TransactionExample>) {
    forall i | 0 <= i < |es| :: ExampleReady(es[i])
  }

  predicate ActionReady(a: Action) {
    ParametersReady(a.parameters) && (a.examples.Some? ==> ExamplesReady(a.examples.value))
  }

  predicate ActionsReady(acts: seq<Action>) {
    forall i | 0 <= i < |acts| :: ActionReady(acts[i])
  }

  predicate ResourceReady(r: Resource) {
    && (r.model.Some? ==> PayloadReady(r.model.value))
    && ParametersReady(r.parameters)
    && (r.actions.Some? ==> ActionsReady(r.actions.value))
  }

  predicate ResourcesReady(rs: seq<Resource>) {
    forall i | 0 <= i < |rs| :: ResourceReady(rs[i])
  }

  predicate GroupReady(g: ResourceGroup) {
    g.resources.Some? ==> ResourcesReady(g.resources.value)
  }

  predicate GroupsReady(gs: seq<ResourceGroup>) {
    forall i | 0 <= i < |gs| :: GroupReady(gs[i])
  }

  predicate BlueprintReady(b: Blueprint) {
    HeadersReady(b.metadata) && (b.resourceGroups.Some? ==> GroupsReady(b.resourceGroups.value))
  }

  /** A tree built by `load_ast!` can be serialised. */
  lemma LoadedBlueprintIsReady(b: Blueprint)
    requires BlueprintComplete(b)
    ensures BlueprintReady(b)
  {
  }

  // ---------------------------------------------------------------------
  // Text fields

  /** `x.blank?` for a text field. */
  predicate BlankText(t: Option<string>) {
    t.None? || t.value == ""
  }

  /** `"#{x}"` for a text field: `nil` interpolates as "". */
  function Interp(t: Option<string>): string {
    if t.Some? then t.value else ""
  }

  predicate EndsWithBlankLine(s: string) {
    |s| >= 2 && s[|s| - 2..] == "\n\n"
  }

  /**
    What `ensure_description_newlines` appends after a description: nothing
    for a blank one, and otherwise just enough newlines for the text to end
    with a blank line.  The one exception is the description "\n", which is
    left alone.
   */
  function DescriptionTerminator(description: Option<string>): string {
    if BlankText(description) then ""
    else
      var d := description.value;
      if d[|d| - 1] != '\n' then "\n\n"
      else if |d| > 1 && d[|d| - 2] != '\n' then "\n"
      else ""
  }

  lemma DescriptionTerminatorEndsBlock(description: Option<string>)
    ensures var t := DescriptionTerminator(description);
      && (BlankText(description) ==> t == "")
      && (!BlankText(description) ==> EndsWithBlankLine(description.value + t) || description.value == "\n")
      && (t == "" <==> BlankText(description) || EndsWithBlankLine(description.value) || description.value == "\n")
      && t in {"", "\n", "\n\n"}
  {
    if !BlankText(description) {
      var d, t := description.value, DescriptionTerminator(description);
      if d[|d| - 1] != '\n' {
        assert !EndsWithBlankLine(d);
        assert (d + t)[|d + t| - 2..] == t;
      } else if |d| > 1 && d[|d| - 2] != '\n' {
        assert !EndsWithBlankLine(d);
        assert (d + t)[|d + t| - 2..] == [d[|d| - 1]] + t;
      } else if |d| > 1 {
        assert d[|d| - 2..] == [d[|d| - 2], d[|d| - 1]];
      }
    }
  }

  /** `buffer << "#{@description}" unless @description.blank?; ensure_description_newlines(buffer)` */
  function DescriptionBlock(description: Option<string>): (s: string) {
    (if BlankText(description) then "" else description.value) + DescriptionTerminator(description)
  }

  // ---------------------------------------------------------------------
  // KeyValueCollection, Metadata and Headers

  /** `ignore_keys.include?(key)`; a `nil` list ignores nothing, like the empty one. */
  predicate Ignored(key: string, ignoreKeys: seq<string>) {
    key in ignoreKeys
  }

  /** The entries whose key is not ignored, in their order. */
  function Filter(items: seq<KeyValue>, ignoreKeys: seq<string>): seq<KeyValue> {
    if items == [] then []
    else
      var rest := Filter(items[1..], ignoreKeys);
      if Ignored(items[0].key, ignoreKeys) then rest else [items[0]] + rest
  }

  /** Exactly the entries whose key is not ignored survive, and nothing is dropped when none is ignored. */
  lemma {:induction false} FilterKeeps(items: seq<KeyValue>, ignoreKeys: seq<string>)
    ensures |Filter(items, ignoreKeys)| <= |items|
    ensures forall e :: e in Filter(items, ignoreKeys) <==> e in items && !Ignored(e.key, ignoreKeys)
    ensures ignoreKeys == [] ==> Filter(items, ignoreKeys) == items
  {
    if items != [] {
      FilterKeeps(items[1..], ignoreKeys);
      assert forall e :: e in items <==> e == items[0] || e in items[1..];
      assert items == [items[0]] + items[1..];
    }
  }

  /** Filtering distributes over concatenation: it keeps the entries' order. */
  lemma {:induction false} FilterAppend(a: seq<KeyValue>, b: seq<KeyValue>, ignoreKeys: seq<string>)
    ensures Filter(a + b, ignoreKeys) == Filter(a, ignoreKeys) + Filter(b, ignoreKeys)
  {
    if a != [] {
      assert (a + b)[1..] == a[1..] + b;
      FilterAppend(a[1..], b, ignoreKeys);
    } else {
      assert a + b == b;
    }
  }

  /** `filter_collection(ignore_keys)`: the collection itself for no ignored keys. */
  function FilterCollection(kv: KeyValueCollection, ignoreKeys: seq<string>): Option<seq<KeyValue>>
    requires ignoreKeys != [] ==> kv.collection.Some?
  {
    if ignoreKeys == [] then kv.collection
    else Some(Filter(kv.collection.value, ignoreKeys))
  }

  /** `"#{hash.keys.first}: #{hash.values.first}\n"` */
  function EntryText(kv: KeyValue): string {
    kv.key + ": " + Interp(kv.value) + "\n"
  }

  /** One entry's line after `level` indentation units. */
  function KeyValueLine(level: nat, kv: KeyValue): string {
    Indent(level) + EntryText(kv)
  }

  /** The lines `serialize` writes for `items`, skipping the ignored keys. */
  function KeyValueLines(level: nat, items: seq<KeyValue>, ignoreKeys: seq<string>): string {
    if items == [] then ""
    else
      var last := items[|items| - 1];
      var before := KeyValueLines(level, items[..|items| - 1], ignoreKeys);
      if Ignored(last.key, ignoreKeys) then before else before + Indent(level) + EntryText(last)
  }

  /** Some line is written exactly when some entry survives the filter, and the text then ends a line. */
  lemma {:induction false} KeyValueLinesEmpty(level: nat, items: seq<KeyValue>, ignoreKeys: seq<string>)
    ensures KeyValueLines(level, items, ignoreKeys) == "" <==> Filter(items, ignoreKeys) == []
    ensures KeyValueLines(level, items, ignoreKeys) != "" ==> EndsWithNewline(KeyValueLines(level, items, ignoreKeys))
    decreases |items|
  {
    if items != [] {
      var init := items[..|items| - 1];
      var last := items[|items| - 1];
      KeyValueLinesEmpty(level, init, ignoreKeys);
      FilterAppend(init, [last], ignoreKeys);
      assert init + [last] == items;
    }
  }

  /** One line per entry of `kvs`, in order: the reference the serialiser is measured against. */
  function EntryLines(level: nat, kvs: seq<KeyValue>): string {
    if kvs == [] then "" else EntryLines(level, kvs[..|kvs| - 1]) + KeyValueLine(level, kvs[|kvs| - 1])
  }

  /** The serialiser writes exactly the lines of the entries the filter keeps, in their order. */
  lemma {:induction false} KeyValueLinesFiltered(level: nat, items: seq<KeyValue>, ignoreKeys: seq<string>)
    ensures KeyValueLines(level, items, ignoreKeys) == EntryLines(level, Filter(items, ignoreKeys))
    decreases |items|
  {
    if items != [] {
      var init := items[..|items| - 1];
      var last := items[|items| - 1];
      KeyValueLinesFiltered(level, init, ignoreKeys);
      FilterAppend(init, [last], ignoreKeys);
      assert init + [last] == items;
      var f := Filter(init, ignoreKeys);
      if Ignored(last.key, ignoreKeys) {
        assert Filter([last], ignoreKeys) == [];
        assert f + [] == f;
      } else {
        assert Filter([last], ignoreKeys) == [last];
        assert (f + [last])[..|f|] == f;
        AppendAssoc(EntryLines(level, f), Indent(level), EntryText(last));
      }
    }
  }

  /** `KeyValueCollection#serialize(level, ignore_keys)` */
  function KeyValuesMarkdown(kv: KeyValueCollection, level: nat, ignoreKeys: seq<string>): string
    requires kv.collection.Some?
  {
    var lines := KeyValueLines(level, kv.collection.value, ignoreKeys);
    if lines == "" then "" else lines + "\n"
  }

  /**
    A collection writes nothing when every entry is ignored, and otherwise
    its lines followed by one blank line.
   */
  lemma KeyValuesMarkdownEmpty(kv: KeyValueCollection, level: nat, ignoreKeys: seq<string>)
    requires kv.collection.Some?
    ensures KeyValuesMarkdown(kv, level, ignoreKeys) == "" <==> Filter(kv.collection.value, ignoreKeys) == []
    ensures KeyValuesMarkdown(kv, level, ignoreKeys) != "" ==> EndsWithBlankLine(KeyValuesMarkdown(kv, level, ignoreKeys))
  {
    var lines := KeyValueLines(level, kv.collection.value, ignoreKeys);
    KeyValueLinesEmpty(level, kv.collection.value, ignoreKeys);
    if lines != "" {
      assert (lines + "\n")[|lines| - 1..] == "\n\n";
    }
  }

  /**
    `serialize` writes one "key: value" line per entry whose key is not
    ignored, in order, and one more newline exactly when it wrote a line.
   */
  lemma KeyValuesMarkdownLines(kv: KeyValueCollection, level: nat, ignoreKeys: seq<string>)
    requires kv.collection.Some?
    ensures var kept := Filter(kv.collection.value, ignoreKeys);
      KeyValuesMarkdown(kv, level, ignoreKeys) == if kept == [] then "" else EntryLines(level, kept) + "\n"
    ensures forall e | e in Filter(kv.collection.value, ignoreKeys) :: e in kv.collection.value && e.key !in ignoreKeys
  {
    KeyValueLinesFiltered(level, kv.collection.value, ignoreKeys);
    KeyValueLinesEmpty(level, kv.collection.value, ignoreKeys);
    FilterKeeps(kv.collection.value, ignoreKeys);
  }

  /** `Headers#serialize(level, ignore_keys)` */
  function HeadersMarkdown(kv: KeyValueCollection, level: nat, ignoreKeys: seq<string>): string {
    if kv.collection.None? || kv.collection.value == [] then ""
    else if FilterCollection(kv, ignoreKeys) == Some([]) then ""
    else Indent(level) + "+ Headers\n\n" + KeyValuesMarkdown(kv, level + 2, ignoreKeys)
  }

  /**
    Headers write nothing when the collection is blank or every entry is
    ignored; otherwise a "+ Headers" line at `level`, a blank line, and the
    entries two levels deeper.
   */
  lemma HeadersMarkdownShape(kv: KeyValueCollection, level: nat, ignoreKeys: seq<string>)
    ensures var s := HeadersMarkdown(kv, level, ignoreKeys);
      s == "" <==> kv.collection.None? || kv.collection.value == [] || Filter(kv.collection.value, ignoreKeys) == []
    ensures var s := HeadersMarkdown(kv, level, ignoreKeys);
      s != "" ==> s == Indent(level) + "+ Headers\n\n" + KeyValuesMarkdown(kv, level + 2, ignoreKeys)
  {
    if kv.collection.Some? {
      FilterKeeps(kv.collection.value, ignoreKeys);
    }
  }

  /** `Headers::CONTENT_TYPE_HEADER_KEY` */
  const ContentTypeKey: string := "Content-Type"

  /** `@collection.detect { |header| header.has_key?(key) }` */
  function Detect(items: seq<KeyValue>, key: string): Option<KeyValue> {
    if items == [] then None
    else if items[0].key == key then Some(items[0])
    else Detect(items[1..], key)
  }

  /** `Headers#content_type`: the value of the first `Content-Type` header, or nil. */
  function ContentType(h: KeyValueCollection): Option<string>
    requires h.collection.Some?
  {
    var header := Detect(h.collection.value, ContentTypeKey);
    if header.None? then None else header.value.value
  }

  /** `detect` finds the first entry with the key, or nothing when no entry has it. */
  lemma {:induction false} DetectFirst(items: seq<KeyValue>, key: string)
    ensures Detect(items, key).None? <==> forall j | 0 <= j < |items| :: items[j].key != key
    ensures Detect(items, key).Some? ==> Detect(items, key).value == items[FirstKeyed(items, (kv: KeyValue) => kv.key, key)]
  {
    if items != [] && items[0].key != key {
      DetectFirst(items[1..], key);
      assert forall j | 1 <= j < |items| :: items[j] == items[1..][j - 1];
    }
  }

  /** `content_type` is the value of the first Content-Type header, or nil without one. */
  lemma ContentTypeFirst(h: KeyValueCollection)
    requires h.collection.Some?
    ensures var i := FirstKeyed(h.collection.value, (kv: KeyValue) => kv.key, ContentTypeKey);
      ContentType(h) == if i < |h.collection.value| then h.collection.value[i].value else None
  {
    DetectFirst(h.collection.value, ContentTypeKey);
  }

  // ---------------------------------------------------------------------
  // Parameter and Parameters

  /** The pieces of the attribute list, in the order `serialize` writes them. */
  function AttributeParts(p: Parameter): (parts: seq<string>)
    ensures forall i | 0 <= i < |parts| :: parts[i] != ""
  {
    (if BlankText(p.paramType) then [] else [p.paramType.value])
    + (if p.use == Some(Optional) then ["optional"] else [])
    + (if BlankText(p.exampleValue) then [] else ["`" + p.exampleValue.value + "`"])
  }

  /** `attribute_buffer << ", " unless attribute_buffer.empty?` before each piece. */
  function AppendAttribute(buffer: string, piece: string): string {
    (if buffer == "" then buffer else buffer + ", ") + piece
  }

  /** Appending at most one non-empty piece to a join of non-empty pieces. */
  lemma JoinSnocs(parts: seq<string>, more: seq<string>, sep: string)
    requires sep == ", " && |more| <= 1
    requires forall i | 0 <= i < |parts| :: parts[i] != ""
    requires forall i | 0 <= i < |more| :: more[i] != ""
    ensures Join(parts + more, sep) == if more == [] then Join(parts, sep) else AppendAttribute(Join(parts, sep), more[0])
  {
    if more == [] {
      assert parts + more == parts;
    } else {
      assert more == [more[0]];
      JoinSnoc(parts, more[0], sep);
      JoinEmpty(parts, sep);
    }
  }

  /** The `attribute_buffer` as `serialize` builds it. */
  function AttributeBuffer(p: Parameter): string {
    var withType := if BlankText(p.paramType) then "" else p.paramType.value;
    var withUse := if p.use == Some(Optional) then AppendAttribute(withType, "optional") else withType;
    if BlankText(p.exampleValue) then withUse else AppendAttribute(withUse, "`" + p.exampleValue.value + "`")
  }

  /** The attribute list is the present attributes joined by ", ". */
  lemma AttributeBufferJoins(p: Parameter)
    ensures AttributeBuffer(p) == Join(AttributeParts(p), ", ")
    ensures var s := ParameterAttributes(p);
      && (s == "" <==> BlankText(p.paramType) && BlankText(p.exampleValue) && p.use == Some(Required))
      && (s != "" ==> s == " (" + Join(AttributeParts(p), ", ") + ")")
  {
    var t := if BlankText(p.paramType) then [] else [p.paramType.value];
    var u := if p.use == Some(Optional) then ["optional"] else [];
    var x := if BlankText(p.exampleValue) then [] else ["`" + p.exampleValue.value + "`"];
    JoinSnocs(t, u, ", ");
    JoinSnocs(t + u, x, ", ");
    assert t + u + x == AttributeParts(p);
  }

  /** `" (...)"` unless the parameter is a required one with no type and no example. */
  function ParameterAttributes(p: Parameter): string {
    if BlankText(p.paramType) && BlankText(p.exampleValue) && p.use == Some(Required) then ""
    else " (" + AttributeBuffer(p) + ")"
  }

  /**
    The description of a parameter: a line end for none, ` ... text` for a
    one-line description, and the lines indented by two units after a blank
    line otherwise.
   */
  function ParameterDescription(description: Option<string>): string {
    if BlankText(description) then "\n"
    else
      var d := description.value;
      if |Lines(d)| == 1 then (if d[|d| - 1] != '\n' then " ... " + d + "\n" else " ... " + d)
      else "\n\n" + IndentBlock(2, d)
  }

  /** One "+ `value`" line per value, at three indentation units. */
  function ValueLines(values: seq<Option<string>>): string {
    if values == [] then ""
    else ValueLines(values[..|values| - 1]) + Indent(3) + ("+ `" + Interp(values[|values| - 1]) + "`\n")
  }

  function ParameterValues(values: Option<seq<Option<string>>>): string {
    if values.None? || values.value == [] then ""
    else "\n" + Indent(2) + "+ Values\n" + ValueLines(values.value)
  }

  function DefaultValueText(p: Parameter): string {
    if p.defaultValue.Some? then " = `" + p.defaultValue.value + "`" else ""
  }

  /** `Parameter#serialize` */
  function ParameterMarkdown(p: Parameter): string {
    IndentUnit + "+ " + Interp(p.name)
    + DefaultValueText(p)
    + ParameterAttributes(p)
    + ParameterDescription(p.description)
    + ParameterValues(p.values)
  }

  function ParameterList(ps: seq<Parameter>): string {
    if ps == [] then "" else ParameterList(ps[..|ps| - 1]) + ParameterMarkdown(ps[|ps| - 1])
  }

  lemma ParameterListStep(ps: seq<Parameter>, i: nat)
    requires i < |ps|
    ensures ParameterList(ps[..i + 1]) == ParameterList(ps[..i]) + ParameterMarkdown(ps[i])
  {
    assert ps[..i + 1][..i] == ps[..i];
  }

  /**
    `Parameters#serialize`.  Its guard tests the Symbol `:collection`, which
    is never blank, so the "+ Parameters" line is always written.
   */
  function ParametersMarkdown(ps: Parameters): string
    requires ps.collection.Some?
  {
    var c := ps.collection.value;
    var text := "+ Parameters\n" + ParameterList(c);
    if c == [] then text else text + "\n"
  }

  /** The "+ Parameters" line is always written, and alone for an empty collection. */
  lemma ParametersHeaderAlways(ps: Parameters)
    requires ps.collection.Some?
    ensures var s := ParametersMarkdown(ps);
      |s| >= |"+ Parameters\n"| && s[..|"+ Parameters\n"|] == "+ Parameters\n"
    ensures ps.collection.value == [] ==> ParametersMarkdown(ps) == "+ Parameters\n"
  {
  }

  // ---------------------------------------------------------------------
  // Payload, Model, Request and Response

  /**
    A body or schema: its lines at `level` indentation units, a newline if
    the last line had none, and a blank line.
   */
  function AssetMarkdown(level: nat, asset: string): string {
    (if EndsWithNewline(asset) then IndentBlock(level, asset) else IndentBlock(level, asset) + "\n") + "\n"
  }

  /**
    A body or schema can be read back from its text: dropping the closing
    newlines and removing `level` indentation units from every line gives the
    asset again, and the text ends with a blank line.
   */
  lemma AssetRecoverable(level: nat, asset: string)
    requires asset != ""
    ensures var t := AssetMarkdown(level, asset);
      var k := if EndsWithNewline(asset) then 1 else 2;
      |t| >= k && Unindent(level, t[..|t| - k]) == asset && EndsWithBlankLine(t)
  {
    var b := IndentBlock(level, asset);
    IndentBlockRoundTrip(level, asset);
    var t := AssetMarkdown(level, asset);
    if EndsWithNewline(asset) {
      IndentBlockEnds(level, asset);
      assert t == b + "\n" && t[..|t| - 1] == b;
      assert t[|t| - 2..] == [b[|b| - 1], '\n'];
    } else {
      assert t == b + "\n" + "\n" && t[..|t| - 2] == b;
    }
  }

  /** `abbreviated_synax`: no headers besides Content-Type, no description, no schema. */
  predicate Abbreviated(p: Payload)
    requires PayloadReady(p)
  {
    && (p.headers.None? || FilterCollection(p.headers.value, [ContentTypeKey]) == Some([]))
    && BlankText(p.description)
    && BlankText(p.schema)
  }

  function PayloadDescription(p: Payload): (s: string) {
    if BlankText(p.description) then "" else "\n" + IndentBlock(1, p.description.value) + "\n"
  }

  function PayloadHeaders(p: Payload): string {
    if p.headers.None? then "" else HeadersMarkdown(p.headers.value, 1, [ContentTypeKey])
  }

  function PayloadBody(p: Payload): (s: string)
    requires PayloadReady(p)
  {
    if BlankText(p.body) then ""
    else if Abbreviated(p) then "\n" + AssetMarkdown(2, p.body.value)
    else IndentUnit + "+ Body\n" + "\n" + AssetMarkdown(3, p.body.value)
  }

  function PayloadSchema(p: Payload): string {
    if BlankText(p.schema) then "" else IndentUnit + "+ Schema\n\n" + AssetMarkdown(3, p.schema.value)
  }

  /** `Payload#serialize`: an empty payload is written as a single newline. */
  function PayloadMarkdown(p: Payload): (s: string)
    requires PayloadReady(p)
    ensures s != ""
  {
    var parts := PayloadDescription(p) + PayloadHeaders(p) + PayloadBody(p) + PayloadSchema(p);
    if parts == "" then "\n" else parts
  }

  /**
    The short body form is used exactly when the payload writes nothing but
    its body: no description, no headers besides Content-Type, no schema.
    It then starts with the blank line; the full form with "+ Body".
   */
  lemma AbbreviatedAlone(p: Payload)
    requires PayloadReady(p)
    ensures Abbreviated(p) <==> PayloadDescription(p) + PayloadHeaders(p) + PayloadSchema(p) == ""
    ensures !BlankText(p.body) ==> (Abbreviated(p) <==> PayloadBody(p)[0] == '\n')
  {
    if p.headers.Some? {
      HeadersMarkdownShape(p.headers.value, 1, [ContentTypeKey]);
    }
  }

  /** `serialize_definition(section, ignore_name)`: "+ Section name (content type)". */
  function DefinitionMarkdown(p: Payload, section: string, ignoreName: bool): (s: string)
    requires PayloadReady(p)
  {
    "+ " + section
    + (if ignoreName || BlankText(p.name) then "" else " " + p.name.value)
    + (if p.headers.None? || BlankText(ContentType(p.headers.value)) then ""
       else " (" + ContentType(p.headers.value).value + ")")
    + "\n"
  }

  /** `Model#serialize`, `Request#serialize` and `Response#serialize`. */
  function SectionMarkdown(p: Payload, section: string): (s: string)
    requires PayloadReady(p)
  {
    DefinitionMarkdown(p, section, section == "Model") + PayloadMarkdown(p)
  }

  function SectionList(ps: seq<Payload>, section: string): string
    requires PayloadsReady(ps)
  {
    if ps == [] then "" else SectionList(ps[..|ps| - 1], section) + SectionMarkdown(ps[|ps| - 1], section)
  }

  lemma SectionListStep(ps: seq<Payload>, section: string, i: nat)
    requires PayloadsReady(ps) && i < |ps|
    ensures SectionList(ps[..i + 1], section) == SectionList(ps[..i], section) + SectionMarkdown(ps[i], section)
  {
    assert ps[..i + 1][..i] == ps[..i];
  }

  // ---------------------------------------------------------------------
  // TransactionExample, Action, Resource, ResourceGroup and Blueprint

  /** `TransactionExample#serialize`: the requests, then the responses. */
  function ExampleMarkdown(e: TransactionExample): string
    requires ExampleReady(e)
  {
    (if e.requests.None? then "" else SectionList(e.requests.value, "Request"))
    + (if e.responses.None? then "" else SectionList(e.responses.value, "Response"))
  }

  function ExampleList(es: seq<TransactionExample>): string
    requires ExamplesReady(es)
  {
    if es == [] then "" else ExampleList(es[..|es| - 1]) + ExampleMarkdown(es[|es| - 1])
  }

  lemma ExampleListStep(es: seq<TransactionExample>, i: nat)
    requires ExamplesReady(es) && i < |es|
    ensures ExampleList(es[..i + 1]) == ExampleList(es[..i]) + ExampleMarkdown(es[i])
  {
    assert es[..i + 1][..i] == es[..i];
  }

  /** "<marks> target" for a blank name, "<marks> name [target]" otherwise. */
  function Heading(marks: string, name: Option<string>, target: string): string {
    if BlankText(name) then marks + " " + target + "\n"
    else marks + " " + name.value + " [" + target + "]\n"
  }

  /** A heading built from one-line pieces is one whole line. */
  lemma HeadingIsLine(marks: string, name: Option<string>, target: string)
    requires NoNewline(marks) && NoNewline(Interp(name)) && NoNewline(target)
    ensures IsLine(Heading(marks, name, target)) && EndsWithNewline(Heading(marks, name, target))
  {
    var k := |marks| + 1;
    var l := if BlankText(name) then marks + " " + target else marks + " " + name.value + " [" + target + "]";
    assert Heading(marks, name, target) == l + "\n";
    forall j | 0 <= j < |l| ensures l[j] != '\n' {
      if j < |marks| {
        assert l[j] == marks[j];
      } else if !BlankText(name) {
        var n := name.value;
        if k <= j < k + |n| {
          assert l[j] == n[j - k];
        } else if k + |n| + 2 <= j < k + |n| + 2 + |target| {
          assert l[j] == target[j - k - |n| - 2];
        }
      } else if k <= j {
        assert l[j] == target[j - k];
      }
    }
    LineOf(l);
  }

  /** `Action#serialize`'s heading: "### METHOD" unnamed, "### name [METHOD]" named. */
  function ActionHeading(a: Action): string {
    Heading("###", a.name, Interp(a.httpMethod))
  }

  /** `Action#serialize` */
  function ActionMarkdown(a: Action): string
    requires ActionReady(a)
  {
    ActionHeading(a)
    + DescriptionBlock(a.description)
    + (if a.parameters.None? then "" else ParametersMarkdown(a.parameters.value))
    + (if a.examples.None? then "" else ExampleList(a.examples.value))
  }

  /** A heading whose name and method fit on one line is the first line of the action's text. */
  lemma ActionHeadingFirst(a: Action)
    requires ActionReady(a)
    requires NoNewline(Interp(a.name)) && NoNewline(Interp(a.httpMethod))
    ensures Lines(ActionMarkdown(a)) != [] && Lines(ActionMarkdown(a))[0] == ActionHeading(a)
  {
    HeadingIsLine("###", a.name, Interp(a.httpMethod));
    FirstLine(ActionHeading(a), ActionMarkdown(a));
  }

  function ActionList(acts: seq<Action>): string
    requires ActionsReady(acts)
  {
    if acts == [] then "" else ActionList(acts[..|acts| - 1]) + ActionMarkdown(acts[|acts| - 1])
  }

  lemma ActionListStep(acts: seq<Action>, i: nat)
    requires ActionsReady(acts) && i < |acts|
    ensures ActionList(acts[..i + 1]) == ActionList(acts[..i]) + ActionMarkdown(acts[i])
  {
    assert acts[..i + 1][..i] == acts[..i];
  }

  /** `Resource#serialize`'s heading: "## URI" unnamed, "## name [URI]" named. */
  function ResourceHeading(r: Resource): string {
    Heading("##", r.name, Interp(r.uriTemplate))
  }

  /** `Resource#serialize` */
  function ResourceMarkdown(r: Resource): string
    requires ResourceReady(r)
  {
    ResourceHeading(r)
    + DescriptionBlock(r.description)
    + (if r.model.None? then "" else SectionMarkdown(r.model.value, "Model"))
    + (if r.parameters.None? then "" else ParametersMarkdown(r.parameters.value))
    + (if r.actions.None? then "" else ActionList(r.actions.value))
  }

  /** A heading whose name and URI template fit on one line is the first line of the resource's text. */
  lemma ResourceHeadingFirst(r: Resource)
    requires ResourceReady(r)
    requires NoNewline(Interp(r.name)) && NoNewline(Interp(r.uriTemplate))
    ensures Lines(ResourceMarkdown(r)) != [] && Lines(ResourceMarkdown(r))[0] == ResourceHeading(r)
  {
    HeadingIsLine("##", r.name, Interp(r.uriTemplate));
    FirstLine(ResourceHeading(r), ResourceMarkdown(r));
  }

  function ResourceList(rs: seq<Resource>): string
    requires ResourcesReady(rs)
  {
    if rs == [] then "" else ResourceList(rs[..|rs| - 1]) + ResourceMarkdown(rs[|rs| - 1])
  }

  lemma ResourceListStep(rs: seq<Resource>, i: nat)
    requires ResourcesReady(rs) && i < |rs|
    ensures ResourceList(rs[..i + 1]) == ResourceList(rs[..i]) + ResourceMarkdown(rs[i])
  {
    assert rs[..i + 1][..i] == rs[..i];
  }

  /** `ResourceGroup#serialize` */
  function GroupMarkdown(g: ResourceGroup): string
    requires GroupReady(g)
  {
    (if BlankText(g.name) then "" else "# Group " + g.name.value + "\n")
    + DescriptionBlock(g.description)
    + (if g.resources.None? then "" else ResourceList(g.resources.value))
  }

  /** A named group's text starts with the line "# Group name". */
  lemma GroupHeadingFirst(g: ResourceGroup)
    requires GroupReady(g)
    requires !BlankText(g.name) && NoNewline(g.name.value)
    ensures Lines(GroupMarkdown(g)) != [] && Lines(GroupMarkdown(g))[0] == "# Group " + g.name.value + "\n"
  {
    var l := "# Group " + g.name.value;
    forall j | 0 <= j < |l| ensures l[j] != '\n' {
      if j >= 8 {
        assert l[j] == g.name.value[j - 8];
      }
    }
    LineOf(l);
    FirstLine(l + "\n", GroupMarkdown(g));
  }

  function GroupList(gs: seq<ResourceGroup>): string
    requires GroupsReady(gs)
  {
    if gs == [] then "" else GroupList(gs[..|gs| - 1]) + GroupMarkdown(gs[|gs| - 1])
  }

  lemma GroupListStep(gs: seq<ResourceGroup>, i: nat)
    requires GroupsReady(gs) && i < |gs|
    ensures GroupList(gs[..i + 1]) == GroupList(gs[..i]) + GroupMarkdown(gs[i])
  {
    assert gs[..i + 1][..i] == gs[..i];
  }

  /** The metadata key `serialize(true)` leaves out: it writes its own FORMAT line. */
  const FormatKey: string := "FORMAT"

  /** The lead-in of `Blueprint#serialize(set_blueprint_format)`. */
  function BlueprintLeadIn(b: Blueprint, setFormat: bool): string
    requires HeadersReady(b.metadata)
  {
    if setFormat then
      "FORMAT: 1A\n" + (if b.metadata.Some? then KeyValuesMarkdown(b.metadata.value, 0, [FormatKey]) else "\n")
    else if b.metadata.Some? then KeyValuesMarkdown(b.metadata.value, 0, [])
    else ""
  }

  /**
    With `set_blueprint_format` the text starts with "FORMAT: 1A" followed
    by every metadata line except a FORMAT one (or a blank line without
    metadata); without it, by every metadata line.
   */
  lemma BlueprintLeadInLines(b: Blueprint, setFormat: bool)
    requires HeadersReady(b.metadata)
    ensures setFormat && b.metadata.None? ==> BlueprintLeadIn(b, setFormat) == "FORMAT: 1A\n\n"
    ensures b.metadata.Some? ==>
      var c := b.metadata.value.collection.value;
      var kept := if setFormat then Filter(c, [FormatKey]) else c;
      && (forall e | e in kept :: e in c && (setFormat ==> e.key != FormatKey))
      && BlueprintLeadIn(b, setFormat)
         == (if setFormat then "FORMAT: 1A\n" else "") + (if kept == [] then "" else EntryLines(0, kept) + "\n")
  {
    if b.metadata.Some? {
      var m := b.metadata.value;
      KeyValuesMarkdownLines(m, 0, [FormatKey]);
      KeyValuesMarkdownLines(m, 0, []);
      FilterKeeps(m.collection.value, []);
      if !setFormat {
        assert "" + KeyValuesMarkdown(m, 0, []) == KeyValuesMarkdown(m, 0, []);
      }
    }
  }

  /** `Blueprint#serialize(set_blueprint_format)` */
  function BlueprintMarkdown(b: Blueprint, setFormat: bool): string
    requires BlueprintReady(b)
  {
    BlueprintLeadIn(b, setFormat)
    + (if BlankText(b.name) then "" else "# " + b.name.value + "\n")
    + DescriptionBlock(b.description)
    + (if b.resourceGroups.None? then "" else GroupList(b.resourceGroups.value))
  }

  // ---------------------------------------------------------------------
  // The serialize methods, building the buffer as the Ruby code does

  /** `s.each_line { |line| level.times { buffer << ONE_INDENTATION_LEVEL }; buffer << line }` */
  method IndentedLines(level: nat, s: string) returns (r: string)
    ensures r == IndentBlock(level, s)
  {
    var ls := Lines(s);
    r := "";
    var i := 0;
    while i < |ls|
      invariant 0 <= i <= |ls|
      invariant r == IndentLines(level, ls[..i])
    {
      r := AppendIndent(r, level);
      r := r + ls[i];
      assert ls[..i + 1][..i] == ls[..i];
      i := i + 1;
    }
    assert ls[..i] == ls;
  }

  /**
    A body or schema: the indented lines, remembering in `got_new_line`
    whether the last line ended with a newline, then the closing newlines.
   */
  method AssetLines(level: nat, asset: string) returns (r: string)
    ensures r == AssetMarkdown(level, asset)
  {
    var ls := Lines(asset);
    LinesSplit(asset);
    r := "";
    var gotNewLine := false;
    var i := 0;
    while i < |ls|
      invariant 0 <= i <= |ls|
      invariant r == IndentLines(level, ls[..i])
      invariant gotNewLine <==> i > 0 && EndsWithNewline(ls[i - 1])
    {
      r := AppendIndent(r, level);
      r := r + ls[i];
      gotNewLine := ls[i][|ls[i]| - 1] == '\n';
      assert ls[..i + 1][..i] == ls[..i];
      i := i + 1;
    }
    assert ls[..i] == ls;
    if !gotNewLine {
      r := r + "\n";
    }
    r := r + "\n";
  }

  method SerializeKeyValues(kv: KeyValueCollection, level: nat, ignoreKeys: seq<string>) returns (buffer: string)
    requires kv.collection.Some?
    ensures buffer == KeyValuesMarkdown(kv, level, ignoreKeys)
  {
    var items := kv.collection.value;
    buffer := "";
    var i := 0;
    while i < |items|
      invariant 0 <= i <= |items|
      invariant buffer == KeyValueLines(level, items[..i], ignoreKeys)
    {
      if !Ignored(items[i].key, ignoreKeys) {
        buffer := AppendIndent(buffer, level);
        buffer := buffer + EntryText(items[i]);
      }
      assert items[..i + 1][..i] == items[..i];
      i := i + 1;
    }
    assert items[..i] == items;
    if buffer != "" {
      buffer := buffer + "\n";
    }
  }

  method SerializeHeaders(kv: KeyValueCollection, level: nat, ignoreKeys: seq<string>) returns (buffer: string)
    ensures buffer == HeadersMarkdown(kv, level, ignoreKeys)
  {
    if kv.collection.None? || kv.collection.value == [] || FilterCollection(kv, ignoreKeys) == Some([]) {
      return "";
    }
    buffer := AppendIndent("", level);
    assert buffer == Indent(level);
    buffer := buffer + "+ Headers\n\n";
    var entries := SerializeKeyValues(kv, level + 2, ignoreKeys);
    buffer := buffer + entries;
  }

  /** The `attribute_buffer` and its parentheses. */
  method SerializeAttributes(p: Parameter) returns (attributes: string)
    ensures attributes == ParameterAttributes(p)
  {
    attributes := "";
    if !(BlankText(p.paramType) && BlankText(p.exampleValue) && p.use == Some(Required)) {
      var attributeBuffer := if BlankText(p.paramType) then "" else p.paramType.value;
      if p.use == Some(Optional) {
        if attributeBuffer != "" {
          attributeBuffer := attributeBuffer + ", ";
        }
        attributeBuffer := attributeBuffer + "optional";
      }
      if !BlankText(p.exampleValue) {
        if attributeBuffer != "" {
          attributeBuffer := attributeBuffer + ", ";
        }
        attributeBuffer := attributeBuffer + ("`" + p.exampleValue.value + "`");
      }
      attributes := " (" + attributeBuffer + ")";
    }
  }

  method SerializeParameterDescription(description: Option<string>) returns (text: string)
    ensures text == ParameterDescription(description)
  {
    text := "\n";
    if !BlankText(description) {
      var d := description.value;
      if |Lines(d)| == 1 {
        text := " ... " + d;
        if d[|d| - 1] != '\n' {
          text := text + "\n";
        }
      } else {
        var block := IndentedLines(2, d);
        text := "\n\n" + block;
      }
    }
  }

  method SerializeValues(values: Option<seq<Option<string>>>) returns (text: string)
    ensures text == ParameterValues(values)
  {
    text := "";
    if !(values.None? || values.value == []) {
      var vs := values.value;
      text := "\n";
      text := AppendIndent(text, 2);
      text := text + "+ Values\n";
      var lines := "";
      var i := 0;
      while i < |vs|
        invariant 0 <= i <= |vs|
        invariant lines == ValueLines(vs[..i])
      {
        lines := AppendIndent(lines, 3);
        lines := lines + ("+ `" + Interp(vs[i]) + "`\n");
        assert vs[..i + 1][..i] == vs[..i];
        i := i + 1;
      }
      assert vs[..i] == vs;
      text := text + lines;
    }
  }

  method SerializeParameter(p: Parameter) returns (buffer: string)
    ensures buffer == ParameterMarkdown(p)
  {
    buffer := IndentUnit + "+ " + Interp(p.name);
    var defaultValue := "";
    if p.defaultValue.Some? {
      defaultValue := " = `" + p.defaultValue.value + "`";
    }
    buffer := buffer + defaultValue;
    var attributes := SerializeAttributes(p);
    buffer := buffer + attributes;
    var description := SerializeParameterDescription(p.description);
    buffer := buffer + description;
    var values := SerializeValues(p.values);
    buffer := buffer + values;
  }

  method SerializeParameters(ps: Parameters) returns (buffer: string)
    requires ps.collection.Some?
    ensures buffer == ParametersMarkdown(ps)
  {
    var c := ps.collection.value;
    var list := "";
    var i := 0;
    while i < |c|
      invariant 0 <= i <= |c|
      invariant list == ParameterList(c[..i])
    {
      var text := SerializeParameter(c[i]);
      ParameterListStep(c, i);
      list := list + text;
      i := i + 1;
    }
    assert c[..i] == c;
    buffer := "+ Parameters\n" + list;
    if c != [] {
      buffer := buffer + "\n";
    }
  }

  method SerializePayload(p: Payload) returns (buffer: string)
    requires PayloadReady(p)
    ensures buffer == PayloadMarkdown(p)
  {
    var description := "";
    if !BlankText(p.description) {
      var block := IndentedLines(1, p.description.value);
      description := "\n" + block + "\n";
    }
    var headers := "";
    if p.headers.Some? {
      headers := SerializeHeaders(p.headers.value, 1, [ContentTypeKey]);
    }
    var body := "";
    if !BlankText(p.body) {
      var abbreviated := Abbreviated(p);
      if abbreviated {
        var asset := AssetLines(2, p.body.value);
        body := "\n" + asset;
      } else {
        var asset := AssetLines(3, p.body.value);
        body := IndentUnit + "+ Body\n" + "\n" + asset;
      }
    }
    var schema := "";
    if !BlankText(p.schema) {
      var asset := AssetLines(3, p.schema.value);
      schema := IndentUnit + "+ Schema\n\n" + asset;
    }
    buffer := description + headers + body + schema;
    if buffer == "" {
      buffer := "\n";
    }
  }

  /** `Model#serialize`, `Request#serialize` or `Response#serialize`. */
  method SerializeSection(p: Payload, section: string) returns (buffer: string)
    requires PayloadReady(p)
    ensures buffer == SectionMarkdown(p, section)
  {
    buffer := DefinitionMarkdown(p, section, section == "Model");
    var payload := SerializePayload(p);
    buffer := buffer + payload;
  }

  /** `@requests.each { |request| buffer << request.serialize }`, and the same for responses. */
  method SerializeSections(ps: seq<Payload>, section: string) returns (r: string)
    requires PayloadsReady(ps)
    ensures r == SectionList(ps, section)
  {
    r := "";
    var i := 0;
    while i < |ps|
      invariant 0 <= i <= |ps|
      invariant r == SectionList(ps[..i], section)
    {
      var text := SerializeSection(ps[i], section);
      SectionListStep(ps, section, i);
      r := r + text;
      i := i + 1;
    }
    assert ps[..i] == ps;
  }

  method SerializeExample(e: TransactionExample) returns (buffer: string)
    requires ExampleReady(e)
    ensures buffer == ExampleMarkdown(e)
  {
    var requests := "";
    if e.requests.Some? {
      requests := SerializeSections(e.requests.value, "Request");
    }
    var responses := "";
    if e.responses.Some? {
      responses := SerializeSections(e.responses.value, "Response");
    }
    buffer := requests + responses;
  }

  method SerializeExamples(es: seq<TransactionExample>) returns (r: string)
    requires ExamplesReady(es)
    ensures r == ExampleList(es)
  {
    r := "";
    var i := 0;
    while i < |es|
      invariant 0 <= i <= |es|
      invariant r == ExampleList(es[..i])
    {
      var text := SerializeExample(es[i]);
      ExampleListStep(es, i);
      r := r + text;
      i := i + 1;
    }
    assert es[..i] == es;
  }

  method SerializeAction(a: Action) returns (buffer: string)
    requires ActionReady(a)
    ensures buffer == ActionMarkdown(a)
  {
    buffer := ActionHeading(a) + DescriptionBlock(a.description);
    var parameters := "";
    if a.parameters.Some? {
      parameters := SerializeParameters(a.parameters.value);
    }
    buffer := buffer + parameters;
    var examples := "";
    if a.examples.Some? {
      examples := SerializeExamples(a.examples.value);
    }
    buffer := buffer + examples;
  }

  method SerializeActions(acts: seq<Action>) returns (r: string)
    requires ActionsReady(acts)
    ensures r == ActionList(acts)
  {
    r := "";
    var i := 0;
    while i < |acts|
      invariant 0 <= i <= |acts|
      invariant r == ActionList(acts[..i])
    {
      var text := SerializeAction(acts[i]);
      r := r + text;
      ActionListStep(acts, i);
      i := i + 1;
    }
    assert acts[..i] == acts;
  }

  method SerializeResource(r: Resource) returns (buffer: string)
    requires ResourceReady(r)
    ensures buffer == ResourceMarkdown(r)
  {
    buffer := ResourceHeading(r) + DescriptionBlock(r.description);
    var model := "";
    if r.model.Some? {
      model := SerializeSection(r.model.value, "Model");
    }
    buffer := buffer + model;
    var parameters := "";
    if r.parameters.Some? {
      parameters := SerializeParameters(r.parameters.value);
    }
    buffer := buffer + parameters;
    var actions := "";
    if r.actions.Some? {
      actions := SerializeActions(r.actions.value);
    }
    buffer := buffer + actions;
  }

  method SerializeResources(rs: seq<Resource>) returns (r: string)
    requires ResourcesReady(rs)
    ensures r == ResourceList(rs)
  {
    r := "";
    var i := 0;
    while i < |rs|
      invariant 0 <= i <= |rs|
      invariant r == ResourceList(rs[..i])
    {
      var text := SerializeResource(rs[i]);
      r := r + text;
      ResourceListStep(rs, i);
      i := i + 1;
    }
    assert rs[..i] == rs;
  }

  method SerializeGroup(g: ResourceGroup) returns (buffer: string)
    requires GroupReady(g)
    ensures buffer == GroupMarkdown(g)
  {
    var heading := "";
    if !BlankText(g.name) {
      heading := "# Group " + g.name.value + "\n";
    }
    buffer := heading + DescriptionBlock(g.description);
    var resources := "";
    if g.resources.Some? {
      resources := SerializeResources(g.resources.value);
    }
    buffer := buffer + resources;
  }

  method SerializeGroups(gs: seq<ResourceGroup>) returns (r: string)
    requires GroupsReady(gs)
    ensures r == GroupList(gs)
  {
    r := "";
    var i := 0;
    while i < |gs|
      invariant 0 <= i <= |gs|
      invariant r == GroupList(gs[..i])
    {
      var text := SerializeGroup(gs[i]);
      GroupListStep(gs, i);
      r := r + text;
      i := i + 1;
    }
    assert gs[..i] == gs;
  }

  method SerializeBlueprint(b: Blueprint, setFormat: bool) returns (buffer: string)
    requires BlueprintReady(b)
    ensures buffer == BlueprintMarkdown(b, setFormat)
  {
    buffer := "";
    if setFormat {
      var metadata := "\n";
      if b.metadata.Some? {
        metadata := SerializeKeyValues(b.metadata.value, 0, [FormatKey]);
      }
      buffer := "FORMAT: 1A\n" + metadata;
    } else if b.metadata.Some? {
      buffer := SerializeKeyValues(b.metadata.value, 0, []);
    }
    var heading := "";
    if !BlankText(b.name) {
      heading := "# " + b.name.value + "\n";
    }
    buffer := buffer + heading + DescriptionBlock(b.description);
    var groups := "";
    if b.resourceGroups.Some? {
      groups := SerializeGroups(b.resourceGroups.value);
    }
    buffer := buffer + groups;
  }
}
