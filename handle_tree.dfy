/**
  The node classes of lib/redsnow/blueprint.rb.  Their constructors read a
  parse result through handles into the native engine: a size, then one
  handle per index.  Here a handle is the value the engine would answer
  with, and every collection behind a handle is a sequence, so "size" is its
  length and "the handle at index i" is its i-th element.

  Each constructor is a method that copies the collections in a `for index`
  loop, proved equal to a function `<Node>Of` that states the copy as an
  order-preserving `Map`.  The collection accessors (`[]`, `get_item`,
  `filter_collection`, `content_type`) are functions with lemmas; two of
  them do not do what their comments say, and both the code as written and
  the evidently intended version are modelled.
 */
module HandleTree {
  import opened Wrappers
  import opened Text
  import AstSerializer

  // ---------------------------------------------------------------------
  // What the native engine answers, handle by handle

  /** `sc_metadata_key`/`sc_metadata_value`, or `sc_header_key`/`sc_header_value`. */
  datatype KeyValueHandle = KeyValueHandle(key: string, value: string)

  /** The `parameter_use` enumeration of the binding. */
  datatype ParameterUse = Undefined | Optional | Required

  datatype ParameterHandle = ParameterHandle(
    name: string, description: string, paramType: string, use: ParameterUse,
    defaultValue: string, exampleValue: string, values: seq<string>)

  datatype PayloadHandle = PayloadHandle(
    name: string, description: string, body: string, schema: string, headers: seq<KeyValueHandle>)

  datatype TransactionExampleHandle = TransactionExampleHandle(
    name: string, description: string, requests: seq<PayloadHandle>, responses: seq<PayloadHandle>)

  datatype ActionHandle = ActionHandle(
    name: string, description: string, httpMethod: string,
    parameters: seq<ParameterHandle>, examples: seq<TransactionExampleHandle>)

  datatype ResourceHandle = ResourceHandle(
    name: string, description: string, uriTemplate: string, model: PayloadHandle,
    actions: seq<ActionHandle>, parameters: seq<ParameterHandle>)

  datatype ResourceGroupHandle = ResourceGroupHandle(name: string, description: string, resources: seq<ResourceHandle>)

  datatype BlueprintHandle = BlueprintHandle(
    name: string, description: string, metadata: seq<KeyValueHandle>, resourceGroups: seq<ResourceGroupHandle>)

  // ---------------------------------------------------------------------
  // The nodes

  /** `Hash[:name => key, :value => value]` */
  datatype Item = Item(name: string, value: string)

  /** `Metadata` and `Headers`: the collection stays `nil` when there is no entry. */
  datatype KeyValueCollection = KeyValueCollection(collection: Option<seq<Item>>)

  datatype Parameter = Parameter(
    name: string, description: string, paramType: string, use: ParameterUse,
    defaultValue: string, exampleValue: string, values: seq<string>)

  datatype Parameters = Parameters(collection: seq<Parameter>)

  datatype Payload = Payload(name: string, description: string, body: string, schema: string, headers: KeyValueCollection)

  datatype TransactionExample = TransactionExample(
    name: string, description: string, requests: seq<Payload>, responses: seq<Payload>)

  datatype Action = Action(
    name: string, description: string, httpMethod: string, parameters: Parameters, examples: seq<TransactionExample>)

  datatype Resource = Resource(
    name: string, description: string, uriTemplate: string, model: Payload,
    actions: seq<Action>, parameters: Parameters)

  datatype ResourceGroup = ResourceGroup(name: string, description: string, resources: seq<Resource>)

  datatype Blueprint = Blueprint(
    name: string, description: string, metadata: KeyValueCollection, resourceGroups: seq<ResourceGroup>)

  /** Ruby errors the accessors raise on a collection left `nil`. */
  datatype NodeError = NoMethodError

  // ---------------------------------------------------------------------
  // The constructors, stated as conversions

  /** Converting every element, in order. */
  function Map<A, B>(xs: seq<A>, f: A -> B): (r: seq<B>)
    ensures |r| == |xs|
    ensures forall i | 0 <= i < |xs| :: r[i] == f(xs[i])
  {
    if xs == [] then [] else Map(xs[..|xs| - 1], f) + [f(xs[|xs| - 1])]
  }

  function ItemOf(h: KeyValueHandle): Item {
    Item(h.key, h.value)
  }

  /** `Metadata.new` and `Headers.new`: `size` entries when `size > 0`, and `nil` otherwise. */
  function CollectionOf(hs: seq<KeyValueHandle>): KeyValueCollection {
    if |hs| > 0 then KeyValueCollection(Some(Map(hs, ItemOf))) else KeyValueCollection(None)
  }

  function ParameterOf(h: ParameterHandle): Parameter {
    Parameter(h.name, h.description, h.paramType, h.use, h.defaultValue, h.exampleValue, h.values)
  }

  function ParametersOf(hs: seq<ParameterHandle>): Parameters {
    Parameters(Map(hs, ParameterOf))
  }

  function PayloadOf(h: PayloadHandle): Payload {
    Payload(h.name, h.description, h.body, h.schema, CollectionOf(h.headers))
  }

  function TransactionExampleOf(h: TransactionExampleHandle): TransactionExample {
    TransactionExample(h.name, h.description, Map(h.requests, PayloadOf), Map(h.responses, PayloadOf))
  }

  function ActionOf(h: ActionHandle): Action {
    Action(h.name, h.description, h.httpMethod, ParametersOf(h.parameters), Map(h.examples, TransactionExampleOf))
  }

  function ResourceOf(h: ResourceHandle): Resource {
    Resource(h.name, h.description, h.uriTemplate, PayloadOf(h.model), Map(h.actions, ActionOf), ParametersOf(h.parameters))
  }

  function ResourceGroupOf(h: ResourceGroupHandle): ResourceGroup {
    ResourceGroup(h.name, h.description, Map(h.resources, ResourceOf))
  }

  function BlueprintOf(h: BlueprintHandle): Blueprint {
    Blueprint(h.name, h.description, CollectionOf(h.metadata), Map(h.resourceGroups, ResourceGroupOf))
  }

  /**
    The metadata and headers collections: exactly one `{name, value}` entry
    per handle, in index order, and no collection at all for none.
   */
  lemma CollectionOfEntries(hs: seq<KeyValueHandle>)
    ensures CollectionOf(hs).collection.None? <==> |hs| == 0
    ensures CollectionOf(hs).collection.Some? ==>
      var c := CollectionOf(hs).collection.value;
      |c| == |hs| && forall i | 0 <= i < |hs| :: c[i].name == hs[i].key && c[i].value == hs[i].value
  {
  }

  // ---------------------------------------------------------------------
  // The constructors as the Ruby code runs them

  /** `Metadata#initialize` and `Headers#initialize` */
  method NewKeyValueCollection(hs: seq<KeyValueHandle>) returns (kv: KeyValueCollection)
    ensures kv == CollectionOf(hs)
  {
    kv := KeyValueCollection(None);
    var size := |hs|;
    if size > 0 {
      var collection: seq<Item> := [];
      for index := 0 to size
        invariant collection == Map(hs[..index], ItemOf)
      {
        collection := collection + [Item(hs[index].key, hs[index].value)];
        assert hs[..index + 1][..index] == hs[..index];
      }
      assert hs[..size] == hs;
      kv := KeyValueCollection(Some(collection));
    }
  }

  /**
    `Parameter#initialize`: the values are read in index order.  Each value
    handle is taken to answer with its text, although the binding attaches
    its reader as `sc_value` and the loop calls `sc_value_string`.
   */
  method NewParameter(h: ParameterHandle) returns (p: Parameter)
    ensures p == ParameterOf(h)
  {
    var values: seq<string> := [];
    var size := |h.values|;
    if size > 0 {
      for valueIndex := 0 to size
        invariant values == h.values[..valueIndex]
      {
        values := values + [h.values[valueIndex]];
      }
    }
    assert h.values[..size] == h.values;
    p := Parameter(h.name, h.description, h.paramType, h.use, h.defaultValue, h.exampleValue, values);
  }

  /** `Parameters#initialize`: an array even when there are no parameters. */
  method NewParameters(hs: seq<ParameterHandle>) returns (ps: Parameters)
    ensures ps == ParametersOf(hs)
  {
    var collection: seq<Parameter> := [];
    var size := |hs|;
    if size > 0 {
      for index := 0 to size
        invariant collection == Map(hs[..index], ParameterOf)
      {
        var parameter := NewParameter(hs[index]);
        collection := collection + [parameter];
        assert hs[..index + 1][..index] == hs[..index];
      }
    }
    assert hs[..size] == hs;
    ps := Parameters(collection);
  }

  /** `Payload#initialize` */
  method NewPayload(h: PayloadHandle) returns (p: Payload)
    ensures p == PayloadOf(h)
  {
    var headers := NewKeyValueCollection(h.headers);
    p := Payload(h.name, h.description, h.body, h.schema, headers);
  }

  /** The `for index in 0..size-1` loop that reads a payload collection. */
  method NewPayloads(hs: seq<PayloadHandle>) returns (payloads: seq<Payload>)
    ensures payloads == Map(hs, PayloadOf)
  {
    payloads := [];
    var size := |hs|;
    if size > 0 {
      for index := 0 to size
        invariant payloads == Map(hs[..index], PayloadOf)
      {
        var payload := NewPayload(hs[index]);
        payloads := payloads + [payload];
        assert hs[..index + 1][..index] == hs[..index];
      }
    }
    assert hs[..size] == hs;
  }

  /** `TransactionExample#initialize`: the requests, then the responses. */
  method NewTransactionExample(h: TransactionExampleHandle) returns (e: TransactionExample)
    ensures e == TransactionExampleOf(h)
  {
    var requests := NewPayloads(h.requests);
    var responses := NewPayloads(h.responses);
    e := TransactionExample(h.name, h.description, requests, responses);
  }

  /** `Action#initialize` */
  method NewAction(h: ActionHandle) returns (a: Action)
    ensures a == ActionOf(h)
  {
    var parameters := NewParameters(h.parameters);
    var examples: seq<TransactionExample> := [];
    var size := |h.examples|;
    if size > 0 {
      for index := 0 to size
        invariant examples == Map(h.examples[..index], TransactionExampleOf)
      {
        var example := NewTransactionExample(h.examples[index]);
        examples := examples + [example];
        assert h.examples[..index + 1][..index] == h.examples[..index];
      }
    }
    assert h.examples[..size] == h.examples;
    a := Action(h.name, h.description, h.httpMethod, parameters, examples);
  }

  /** `Resource#initialize`: the model is always a payload, possibly an empty one. */
  method NewResource(h: ResourceHandle) returns (r: Resource)
    ensures r == ResourceOf(h)
  {
    var model := NewPayload(h.model);
    var actions: seq<Action> := [];
    var size := |h.actions|;
    if size > 0 {
      for index := 0 to size
        invariant actions == Map(h.actions[..index], ActionOf)
      {
        var action := NewAction(h.actions[index]);
        actions := actions + [action];
        assert h.actions[..index + 1][..index] == h.actions[..index];
      }
    }
    assert h.actions[..size] == h.actions;
    var parameters := NewParameters(h.parameters);
    r := Resource(h.name, h.description, h.uriTemplate, model, actions, parameters);
  }

  /** `ResourceGroup#initialize` */
  method NewResourceGroup(h: ResourceGroupHandle) returns (g: ResourceGroup)
    ensures g == ResourceGroupOf(h)
  {
    var resources: seq<Resource> := [];
    var size := |h.resources|;
    if size > 0 {
      for index := 0 to size
        invariant resources == Map(h.resources[..index], ResourceOf)
      {
        var resource := NewResource(h.resources[index]);
        resources := resources + [resource];
        assert h.resources[..index + 1][..index] == h.resources[..index];
      }
    }
    assert h.resources[..size] == h.resources;
    g := ResourceGroup(h.name, h.description, resources);
  }

  /** `Blueprint#initialize` */
  method NewBlueprint(h: BlueprintHandle) returns (b: Blueprint)
    ensures b == BlueprintOf(h)
  {
    var metadata := NewKeyValueCollection(h.metadata);
    var groups: seq<ResourceGroup> := [];
    var size := |h.resourceGroups|;
    if size > 0 {
      for index := 0 to size
        invariant groups == Map(h.resourceGroups[..index], ResourceGroupOf)
      {
        var group := NewResourceGroup(h.resourceGroups[index]);
        groups := groups + [group];
        assert h.resourceGroups[..index + 1][..index] == h.resourceGroups[..index];
      }
    }
    assert h.resourceGroups[..size] == h.resourceGroups;
    b := Blueprint(h.name, h.description, metadata, groups);
  }

  // ---------------------------------------------------------------------
  // `KeyValueCollection#[]` and `get_item`

  /** `item[:name].downcase == key.downcase` */
  predicate NameMatches(item: Item, key: string) {
    Downcase(item.name) == Downcase(key)
  }

  /** `@collection.select { |item| item[:name].downcase == key.downcase }` */
  function Matching(items: seq<Item>, key: string): seq<Item> {
    if items == [] then []
    else if NameMatches(items[0], key) then [items[0]] + Matching(items[1..], key)
    else Matching(items[1..], key)
  }

  /** `get_item(key)`: the first of the matching items, or `nil`. */
  function GetItem(items: seq<Item>, key: string): Option<Item> {
    var matching := Matching(items, key);
    if matching == [] then None else Some(matching[0])
  }

  /** `collection[key]`: `nil` without a collection or a match, else the matching item's value. */
  function Lookup(kv: KeyValueCollection, key: string): Option<string> {
    if kv.collection.None? then None
    else
      var item := GetItem(kv.collection.value, key);
      if item.None? then None else Some(item.value.value)
  }

  /** The index of the first item whose name matches `key` ignoring case, or `|items|`. */
  function FirstMatch(items: seq<Item>, key: string): (i: nat)
    ensures i <= |items|
    ensures forall j | 0 <= j < i :: !NameMatches(items[j], key)
    ensures i < |items| ==> NameMatches(items[i], key)
  {
    if items == [] || NameMatches(items[0], key) then 0 else 1 + FirstMatch(items[1..], key)
  }

  /** `get_item` finds the first item whose name equals the key ignoring case, and nothing when none does. */
  lemma {:induction false} GetItemFirst(items: seq<Item>, key: string)
    ensures GetItem(items, key).None? <==> forall j | 0 <= j < |items| :: !NameMatches(items[j], key)
    ensures GetItem(items, key).Some? ==> GetItem(items, key).value == items[FirstMatch(items, key)]
  {
    if items != [] && !NameMatches(items[0], key) {
      GetItemFirst(items[1..], key);
      assert forall j | 1 <= j < |items| :: items[j] == items[1..][j - 1];
    }
  }

  /**
    `collection[key]` is `nil` for a `nil` collection or when no name
    matches, and otherwise the value of the first item whose name equals
    `key` ignoring case.
   */
  lemma LookupFirst(kv: KeyValueCollection, key: string)
    ensures kv.collection.None? ==> Lookup(kv, key).None?
    ensures kv.collection.Some? ==>
      var items := kv.collection.value;
      var i := FirstMatch(items, key);
      Lookup(kv, key) == if i < |items| then Some(items[i].value) else None
  {
    if kv.collection.Some? {
      GetItemFirst(kv.collection.value, key);
    }
  }

  /** Keys that differ only in the case of their letters select the same items. */
  lemma {:induction false} MatchingIgnoresCase(items: seq<Item>, key1: string, key2: string)
    requires Downcase(key1) == Downcase(key2)
    ensures Matching(items, key1) == Matching(items, key2)
  {
    if items != [] {
      MatchingIgnoresCase(items[1..], key1, key2);
    }
  }

  /** `headers['content-type']` and `headers['Content-Type']` are the same value. */
  lemma LookupIgnoresCase(kv: KeyValueCollection, key1: string, key2: string)
    requires Downcase(key1) == Downcase(key2)
    ensures Lookup(kv, key1) == Lookup(kv, key2)
  {
    if kv.collection.Some? {
      MatchingIgnoresCase(kv.collection.value, key1, key2);
    }
  }

  /** The metadata of "FORMAT: 1A", "A: 1", "B: 2", "C: 3". */
  function SampleMetadata(): KeyValueCollection {
    KeyValueCollection(Some([Item("FORMAT", "1A"), Item("A", "1"), Item("B", "2"), Item("C", "3")]))
  }

  /** The value of "FORMAT" is "1A". */
  lemma SampleMetadataFormat()
    ensures Lookup(SampleMetadata(), "FORMAT") == Some("1A")
  {
    var items := SampleMetadata().collection.value;
    assert NameMatches(items[0], "FORMAT");
  }

  /** The value of "B" is "2": the entries before it do not match. */
  lemma SampleMetadataB()
    ensures Lookup(SampleMetadata(), "B") == Some("2")
  {
    var items := SampleMetadata().collection.value;
    assert Downcase("B") == "b" && Downcase("A") == "a";
    assert !NameMatches(items[0], "B") && !NameMatches(items[1], "B") && NameMatches(items[2], "B");
    assert Matching(items[2..], "B")[0] == Item("B", "2");
    assert Matching(items[1..], "B") == Matching(items[2..], "B");
  }

  /** No entry is named "D", so its value is `nil`. */
  lemma SampleMetadataMissing()
    ensures Lookup(SampleMetadata(), "D") == None
  {
    var items := SampleMetadata().collection.value;
    assert Downcase("D") == "d";
    assert Downcase("A") == "a" && Downcase("B") == "b" && Downcase("C") == "c";
    assert Matching(items[3..], "D") == [] by {
      assert items[3..][1..] == [];
    }
    assert Matching(items[2..], "D") == [] by {
      assert items[2..][1..] == items[3..];
    }
    assert Matching(items[1..], "D") == [] by {
      assert items[1..][1..] == items[2..];
    }
  }

  // ---------------------------------------------------------------------
  // `filter_collection`

  /** The keys of an item hash, in insertion order: `[:name, :value]`. */
  function ItemKeys(item: Item): (keys: seq<string>)
    ensures |keys| == 2
  {
    ["name", "value"]
  }

  /**
    `@collection.select { |kv_item| !ignore_keys.include?(kv_item.keys.first) }`.
    Here `ignoreKeys` is read as a list of Symbols, each written by its
    name: `"name"` stands for `:name`.  A list of Strings never contains the
    Symbol `:name`, so with one every item is kept.
   */
  function SelectByFirstKey(items: seq<Item>, ignoreKeys: seq<string>): seq<Item> {
    if items == [] then []
    else
      var rest := SelectByFirstKey(items[1..], ignoreKeys);
      if ItemKeys(items[0])[0] in ignoreKeys then rest else [items[0]] + rest
  }

  /**
    `filter_collection` as written: a blank (`nil` or empty) list returns the
    collection itself; otherwise a `nil` collection raises, and the test is
    made on each item's first hash key.
   */
  function FilterCollectionAsWritten(kv: KeyValueCollection, ignoreKeys: seq<string>): Result<Option<seq<Item>>, NodeError> {
    if ignoreKeys == [] then Success(kv.collection)
    else if kv.collection.None? then Failure(NoMethodError)
    else Success(Some(SelectByFirstKey(kv.collection.value, ignoreKeys)))
  }

  /**
    Every item's first key is `:name`, so the code as written keeps every
    item unless `:name` itself is ignored, and then none: no entry's own
    name is ever compared.
   */
  lemma {:induction false} SelectByFirstKeyAllOrNothing(items: seq<Item>, ignoreKeys: seq<string>)
    ensures SelectByFirstKey(items, ignoreKeys) == if "name" in ignoreKeys then [] else items
  {
    if items != [] {
      SelectByFirstKeyAllOrNothing(items[1..], ignoreKeys);
      assert [items[0]] + items[1..] == items;
    }
  }

  /** Ignoring the key "FORMAT" keeps the FORMAT entry. */
  lemma FilterCollectionAsWrittenKeepsIgnored()
    ensures FilterCollectionAsWritten(SampleMetadata(), ["FORMAT"]) == Success(SampleMetadata().collection)
    ensures Item("FORMAT", "1A") in FilterCollectionAsWritten(SampleMetadata(), ["FORMAT"]).value.value
  {
    SelectByFirstKeyAllOrNothing(SampleMetadata().collection.value, ["FORMAT"]);
  }

  /** The items whose name is not ignored, in their order. */
  function Unignored(items: seq<Item>, ignoreKeys: seq<string>): seq<Item> {
    if items == [] then []
    else
      var rest := Unignored(items[1..], ignoreKeys);
      if items[0].name in ignoreKeys then rest else [items[0]] + rest
  }

  /**
    `filter_collection` as intended: compare each item's name.  Here
    `ignoreKeys` is read as a list of Strings, compared with the String
    item names.
   */
  function FilterCollection(kv: KeyValueCollection, ignoreKeys: seq<string>): Result<Option<seq<Item>>, NodeError> {
    if ignoreKeys == [] then Success(kv.collection)
    else if kv.collection.None? then Failure(NoMethodError)
    else Success(Some(Unignored(kv.collection.value, ignoreKeys)))
  }

  /** Exactly the items whose name is not ignored are kept, and the order of the kept ones is theirs. */
  lemma {:induction false} UnignoredKeeps(items: seq<Item>, ignoreKeys: seq<string>)
    ensures |Unignored(items, ignoreKeys)| <= |items|
    ensures forall e :: e in Unignored(items, ignoreKeys) <==> e in items && e.name !in ignoreKeys
    ensures forall a, b :: Unignored(a + b, ignoreKeys) == Unignored(a, ignoreKeys) + Unignored(b, ignoreKeys)
  {
    if items != [] {
      UnignoredKeeps(items[1..], ignoreKeys);
      assert forall e :: e in items <==> e == items[0] || e in items[1..];
    }
    forall a, b ensures Unignored(a + b, ignoreKeys) == Unignored(a, ignoreKeys) + Unignored(b, ignoreKeys) {
      UnignoredAppend(a, b, ignoreKeys);
    }
  }

  lemma {:induction false} UnignoredAppend(a: seq<Item>, b: seq<Item>, ignoreKeys: seq<string>)
    ensures Unignored(a + b, ignoreKeys) == Unignored(a, ignoreKeys) + Unignored(b, ignoreKeys)
  {
    if a != [] {
      assert (a + b)[1..] == a[1..] + b;
      UnignoredAppend(a[1..], b, ignoreKeys);
    } else {
      assert a + b == b;
    }
  }

  /**
    `filter_collection` as intended returns the collection itself for no
    ignored keys, and otherwise exactly the entries with an unignored name.
   */
  lemma FilterCollectionKeeps(kv: KeyValueCollection, ignoreKeys: seq<string>)
    ensures ignoreKeys == [] ==> FilterCollection(kv, ignoreKeys) == Success(kv.collection)
    ensures ignoreKeys != [] ==> (FilterCollection(kv, ignoreKeys).Failure? <==> kv.collection.None?)
    ensures FilterCollection(kv, ignoreKeys).Success? && FilterCollection(kv, ignoreKeys).value.Some? ==>
      forall e :: e in FilterCollection(kv, ignoreKeys).value.value <==> e in kv.collection.value && (ignoreKeys == [] || e.name !in ignoreKeys)
  {
    if kv.collection.Some? {
      UnignoredKeeps(kv.collection.value, ignoreKeys);
    }
  }

  /** Ignoring the key "FORMAT" drops the FORMAT entry and keeps the others. */
  lemma FilterCollectionDropsIgnored()
    ensures FilterCollection(SampleMetadata(), ["FORMAT"]) == Success(Some([Item("A", "1"), Item("B", "2"), Item("C", "3")]))
  {
    var items := SampleMetadata().collection.value;
    var ignore := ["FORMAT"];
    assert Unignored(items[3..], ignore) == [Item("C", "3")] by {
      assert items[3..][1..] == [];
    }
    assert Unignored(items[2..], ignore) == [Item("B", "2"), Item("C", "3")] by {
      assert items[2..][1..] == items[3..];
    }
    assert Unignored(items[1..], ignore) == [Item("A", "1"), Item("B", "2"), Item("C", "3")] by {
      assert items[1..][1..] == items[2..];
    }
  }

  // ---------------------------------------------------------------------
  // `Headers#content_type`

  /** `Headers::CONTENT_TYPE_HEADER_KEY` */
  const ContentTypeHeaderKey: string := "Content-Type"

  /** `item[key]` for a key of the item hash, `nil` for any other key. */
  function ItemField(item: Item, key: string): Option<string> {
    if key == "name" then Some(item.name) else if key == "value" then Some(item.value) else None
  }

  /** `@collection.detect { |header| header.has_key?(key) }` */
  function DetectByKey(items: seq<Item>, key: string): Option<Item> {
    if items == [] then None
    else if key in ItemKeys(items[0]) then Some(items[0])
    else DetectByKey(items[1..], key)
  }

  /**
    `content_type` as written: it looks for an item hash that has the key
    `:'Content-Type'`, and raises on a `nil` collection.
   */
  function ContentTypeAsWritten(h: KeyValueCollection): Result<Option<string>, NodeError> {
    if h.collection.None? then Failure(NoMethodError)
    else
      var header := DetectByKey(h.collection.value, ContentTypeHeaderKey);
      Success(if header.None? then None else ItemField(header.value, ContentTypeHeaderKey))
  }

  /** No item hash has the key `:'Content-Type'`, so the code as written never finds one. */
  lemma {:induction false} DetectByKeyNeverFinds(items: seq<Item>)
    ensures DetectByKey(items, ContentTypeHeaderKey) == None
  {
    if items != [] {
      assert ContentTypeHeaderKey !in ItemKeys(items[0]);
      DetectByKeyNeverFinds(items[1..]);
    }
  }

  /** The headers of a "Content-Type: text/plain" message. */
  function SampleHeaders(): KeyValueCollection {
    KeyValueCollection(Some([Item("Content-Type", "text/plain")]))
  }

  /** As written, the content type of a message that has one is `nil`. */
  lemma ContentTypeAsWrittenMissesHeader()
    ensures ContentTypeAsWritten(SampleHeaders()) == Success(None)
  {
    DetectByKeyNeverFinds(SampleHeaders().collection.value);
  }

  /** The header is found by its name in either case. */
  lemma SampleHeadersLookup()
    ensures Lookup(SampleHeaders(), "Content-Type") == Some("text/plain")
    ensures Lookup(SampleHeaders(), "content-type") == Some("text/plain")
  {
    var items := SampleHeaders().collection.value;
    assert NameMatches(items[0], "Content-Type");
    var lower, upper := "content-type", "Content-Type";
    assert Downcase(lower) == Downcase(upper);
    LookupIgnoresCase(SampleHeaders(), lower, upper);
  }

  /** `@collection.detect { |header| header[:name] == name }` */
  function DetectByName(items: seq<Item>, name: string): Option<Item> {
    if items == [] then None
    else if items[0].name == name then Some(items[0])
    else DetectByName(items[1..], name)
  }

  /** `content_type` as intended: the value of the first header named Content-Type. */
  function ContentType(h: KeyValueCollection): Result<Option<string>, NodeError> {
    if h.collection.None? then Failure(NoMethodError)
    else
      var header := DetectByName(h.collection.value, ContentTypeHeaderKey);
      Success(if header.None? then None else Some(header.value.value))
  }

  lemma {:induction false} DetectByNameFirst(items: seq<Item>, name: string)
    ensures DetectByName(items, name).None? <==> forall j | 0 <= j < |items| :: items[j].name != name
    ensures DetectByName(items, name).Some? ==> DetectByName(items, name).value == items[FirstKeyed(items, (item: Item) => item.name, name)]
  {
    if items != [] && items[0].name != name {
      DetectByNameFirst(items[1..], name);
      assert forall j | 1 <= j < |items| :: items[j] == items[1..][j - 1];
    }
  }

  /** As intended, the content type of the "Content-Type: text/plain" message is "text/plain". */
  lemma ContentTypeFindsHeader()
    ensures ContentType(SampleHeaders()) == Success(Some("text/plain"))
  {
  }

  /** The intended content type is the value of the first Content-Type header, or `nil` without one. */
  lemma ContentTypeFirst(h: KeyValueCollection)
    requires h.collection.Some?
    ensures var items := h.collection.value;
      var i := FirstKeyed(items, (item: Item) => item.name, ContentTypeHeaderKey);
      ContentType(h) == Success(if i < |items| then Some(items[i].value) else None)
  {
    DetectByNameFirst(h.collection.value, ContentTypeHeaderKey);
  }

  // ---------------------------------------------------------------------
  // `ensure_description_newlines`

  /** What `ensure_description_newlines` appends after a description string. */
  function DescriptionNewlines(description: string): string {
    if description == "" then ""
    else if description[|description| - 1] != '\n' then "\n\n"
    else if |description| > 1 && description[|description| - 2] != '\n' then "\n"
    else ""
  }

  /**
    The same rule as in the serialiser: nothing for an empty description,
    otherwise just enough newlines to end with a blank line, except after
    the description "\n".
   */
  lemma DescriptionNewlinesEndBlock(description: string)
    ensures DescriptionNewlines(description) == AstSerializer.DescriptionTerminator(Some(description))
    ensures description == "" ==> DescriptionNewlines(description) == ""
    ensures description != "" ==>
      AstSerializer.EndsWithBlankLine(description + DescriptionNewlines(description)) || description == "\n"
  {
    AstSerializer.DescriptionTerminatorEndsBlock(Some(description));
  }
}
