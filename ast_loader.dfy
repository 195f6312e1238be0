/**
  The AST loader of lib/red_snow/blueprint.rb: every node's `initialize`
  calls `load_ast!` on a Hash with Symbol keys (the parser's JSON after
  `deep_symbolize_keys`) and fills the node's fields from it.

  Nodes are immutable values here: Ruby assigns their fields only while
  constructing them.  A field Ruby leaves unset is `None`.  Where Ruby would
  raise on an ill-typed input (indexing a non-Hash, calling `each` or `to_sym`
  on a value without it) the loader returns `Failure(Malformed)`; where
  `Resource#load_ast!` aborts the process it returns
  `Failure(InvalidUriTemplate(message))`.
 */
module AstLoader {
  import opened Wrappers
  import opened RubyObject

  datatype LoadError = Malformed | InvalidUriTemplate(message: string)

  /** `Parameter#use`: `:required` or `:optional`. */
  datatype Use = Required | Optional

  /** One collection item: the single-key Hash `{name.to_sym => value}`. */
  datatype KeyValue = KeyValue(key: string, value: Option<string>)

  /** `Metadata` and `Headers`. */
  datatype KeyValueCollection = KeyValueCollection(collection: Option<seq<KeyValue>>)

  datatype Parameter = Parameter(
    name: Option<string>,
    description: Option<string>,
    paramType: Option<string>,
    use: Option<Use>,
    defaultValue: Option<string>,
    exampleValue: Option<string>,
    values: Option<seq<Option<string>>>)

  datatype Parameters = Parameters(collection: Option<seq<Parameter>>)

  /** `Payload` and its `Model`, `Request` and `Response` subclasses, which load alike. */
  datatype Payload = Payload(
    name: Option<string>,
    description: Option<string>,
    headers: Option<KeyValueCollection>,
    body: Option<string>,
    schema: Option<string>)

  datatype TransactionExample = TransactionExample(
    name: Option<string>,
    description: Option<string>,
    requests: Option<seq<Payload>>,
    responses: Option<seq<Payload>>)

  datatype Action = Action(
    name: Option<string>,
    description: Option<string>,
    httpMethod: Option<string>,
    parameters: Option<Parameters>,
    examples: Option<seq<TransactionExample>>)

  datatype Resource = Resource(
    name: Option<string>,
    description: Option<string>,
    uriTemplate: Option<string>,
    model: Option<Payload>,
    parameters: Option<Parameters>,
    actions: Option<seq<Action>>)

  datatype ResourceGroup = ResourceGroup(
    name: Option<string>,
    description: Option<string>,
    resources: Option<seq<Resource>>)

  datatype Blueprint = Blueprint(
    name: Option<string>,
    description: Option<string>,
    metadata: Option<KeyValueCollection>,
    resourceGroups: Option<seq<ResourceGroup>>)

  // ---------------------------------------------------------------------
  // Reading the input Hash

  /** `ast[:key]` needs `ast` to be a Hash. */
  function HashEntries(ast: Value): (r: Result<seq<Entry>, LoadError>)
    ensures r.Failure? ==> r.error == Malformed
    ensures r.Success? <==> ast.Hash?
    ensures ast.Hash? ==> r.value == ast.entries
  {
    if ast.Hash? then Success(ast.entries) else Failure(Malformed)
  }

  /** `ast[:key]`. */
  function Field(es: seq<Entry>, key: string): Value {
    Fetch(es, SymKey(key))
  }

  /** A text field: `nil` or a String. */
  function TextOf(v: Value): (r: Result<Option<string>, LoadError>)
    ensures r.Failure? ==> r.error == Malformed
    ensures r == Success(None) <==> v == Nil
    ensures v.Str? <==> r.Success? && r.value.Some?
    ensures v.Str? ==> r.value == Some(v.s)
  {
    match v
    case Nil => Success(None)
    case Str(s) => Success(Some(s))
    case _ => Failure(Malformed)
  }

  /** What `v.each` yields: the elements of an Array, the `[key, value]` pairs of a Hash. */
  function EachOf(v: Value): (r: Result<seq<Value>, LoadError>)
    ensures r.Failure? ==> r.error == Malformed
    ensures v.Arr? ==> r == Success(v.items)
    ensures r.Success? <==> v.Arr? || v.Hash?
    ensures v.Hash? ==> r.Success? && |r.value| == |v.entries|
    ensures v.Hash? ==> forall i | 0 <= i < |r.value| :: r.value[i].Arr? && |r.value[i].items| == 2
  {
    match v
    case Arr(xs) => Success(xs)
    case Hash(es) => Success(seq(|es|, i requires 0 <= i < |es| => Arr([KeyAsValue(es[i].key), es[i].val])))
    case _ => Failure(Malformed)
  }

  /** A Hash key as the value `each` yields for it. */
  function KeyAsValue(k: Key): Value {
    match k
    case StrKey(n) => Str(n)
    case SymKey(n) => Sym(n)
  }

  /**
    Loading every element of a collection in order, stopping at the first
    element that fails: the result lists one loaded node per element, in the
    elements' order.
   */
  function LoadEach<T>(xs: seq<Value>, load: Value -> Result<T, LoadError>): (r: Result<seq<T>, LoadError>)
    ensures r.Success? <==> forall i | 0 <= i < |xs| :: load(xs[i]).Success?
    ensures r.Success? ==> (|r.value| == |xs| &&
      forall i | 0 <= i < |xs| :: load(xs[i]) == Success(r.value[i]))
    ensures r.Failure? ==> exists i | 0 <= i < |xs| ::
      load(xs[i]) == Failure(r.error) && forall j | 0 <= j < i :: load(xs[j]).Success?
    decreases |xs|
  {
    if xs == [] then Success([])
    else
      var init :- LoadEach(xs[..|xs| - 1], load);
      var last :- load(xs[|xs| - 1]);
      Success(init + [last])
  }

  lemma LoadEachSnoc<T>(xs: seq<Value>, i: nat, load: Value -> Result<T, LoadError>, acc: seq<T>, y: T)
    requires i < |xs|
    requires LoadEach(xs[..i], load) == Success(acc)
    requires load(xs[i]) == Success(y)
    ensures LoadEach(xs[..i + 1], load) == Success(acc + [y])
  {
    assert xs[..i + 1][..i] == xs[..i];
  }

  /** Once a prefix fails, the whole collection fails the same way. */
  lemma {:induction false} LoadEachFailurePrefix<T>(xs: seq<Value>, i: nat, load: Value -> Result<T, LoadError>)
    requires i <= |xs|
    requires LoadEach(xs[..i], load).Failure?
    ensures LoadEach(xs, load) == LoadEach(xs[..i], load)
    decreases |xs| - i
  {
    if i < |xs| {
      var init := xs[..|xs| - 1];
      assert init[..i] == xs[..i];
      LoadEachFailurePrefix(init, i, load);
    } else {
      assert xs[..i] == xs;
    }
  }

  /** The first element that fails decides the failure of the collection. */
  lemma LoadEachFailsAt<T>(xs: seq<Value>, i: nat, load: Value -> Result<T, LoadError>)
    requires i < |xs|
    requires LoadEach(xs[..i], load).Success?
    requires load(xs[i]).Failure?
    ensures LoadEach(xs, load) == Failure(load(xs[i]).error)
  {
    assert xs[..i + 1][..i] == xs[..i];
    LoadEachFailurePrefix(xs, i + 1, load);
  }

  /** `unless ast[:key].blank?` around a single child node. */
  function UnlessBlank<T>(v: Value, load: Value -> Result<T, LoadError>): (r: Result<Option<T>, LoadError>)
    ensures Blank(v) ==> r == Success(None)
    ensures !Blank(v) ==> (r.Success? <==> load(v).Success?)
    ensures !Blank(v) && r.Success? ==> r.value == Some(load(v).value)
  {
    if Blank(v) then Success(None)
    else
      var x :- load(v);
      Success(Some(x))
  }

  /**
    `ys` is what `unless ast[:key].blank?` around
    `ast[:key].each { |item| @list << Node.new(item) }` leaves in the
    attribute for `v = ast[:key]`: nothing when `v` is blank, otherwise one
    loaded node per element `each` yields, in order.
   */
  ghost predicate LoadedFrom<T>(v: Value, load: Value -> Result<T, LoadError>, ys: Option<seq<T>>) {
    if Blank(v) then ys.None?
    else
      EachOf(v).Success? && ys.Some? && |ys.value| == |EachOf(v).value| &&
      forall i | 0 <= i < |ys.value| :: load(EachOf(v).value[i]) == Success(ys.value[i])
  }

  /** `unless ast[:key].blank?` around `ast[:key].each { |item| @list << Node.new(item) }`. */
  function EachUnlessBlank<T>(v: Value, load: Value -> Result<T, LoadError>): (r: Result<Option<seq<T>>, LoadError>)
    ensures Blank(v) ==> r == Success(None)
    ensures !Blank(v) && v.Arr? ==> r == (match LoadEach(v.items, load)
                                           case Success(ys) => Success(Some(ys))
                                           case Failure(e) => Failure(e))
    ensures r.Success? ==> LoadedFrom(v, load, r.value)
    ensures r.Success? && r.value.Some? ==> r.value.value != []
  {
    if Blank(v) then Success(None)
    else
      var xs :- EachOf(v);
      var ys :- LoadEach(xs, load);
      Success(Some(ys))
  }

  // ---------------------------------------------------------------------
  // Well-formedness the serialiser relies on

  /** Every key-value and parameter collection present in the tree is set and non-empty. */
  predicate KeyValuesComplete(kv: KeyValueCollection) {
    kv.collection.Some? && kv.collection.value != []
  }

  predicate ParametersComplete(ps: Parameters) {
    ps.collection.Some? && ps.collection.value != []
  }

  predicate PayloadComplete(p: Payload) {
    p.headers.Some? ==> KeyValuesComplete(p.headers.value)
  }

  predicate PayloadsComplete(ps: Option<seq<Payload>>) {
    ps.Some? ==> forall i | 0 <= i < |ps.value| :: PayloadComplete(ps.value[i])
  }

  predicate ExampleComplete(e: TransactionExample) {
    PayloadsComplete(e.requests) && PayloadsComplete(e.responses)
  }

  predicate ActionComplete(a: Action) {
    && (a.parameters.Some? ==> ParametersComplete(a.parameters.value))
    && (a.examples.Some? ==> forall i | 0 <= i < |a.examples.value| :: ExampleComplete(a.examples.value[i]))
  }

  predicate ResourceComplete(r: Resource) {
    && (r.model.Some? ==> PayloadComplete(r.model.value))
    && (r.parameters.Some? ==> ParametersComplete(r.parameters.value))
    && (r.actions.Some? ==> forall i | 0 <= i < |r.actions.value| :: ActionComplete(r.actions.value[i]))
  }

  predicate GroupComplete(g: ResourceGroup) {
    g.resources.Some? ==> forall i | 0 <= i < |g.resources.value| :: ResourceComplete(g.resources.value[i])
  }

  predicate BlueprintComplete(b: Blueprint) {
    && (b.metadata.Some? ==> KeyValuesComplete(b.metadata.value))
    && (b.resourceGroups.Some? ==> forall i | 0 <= i < |b.resourceGroups.value| :: GroupComplete(b.resourceGroups.value[i]))
  }

  // ---------------------------------------------------------------------
  // The load_ast! of each node, as specification functions

  /** `Hash[item[:name].to_sym, item[:value]]`. */
  function KeyValueOf(item: Value): (r: Result<KeyValue, LoadError>)
    ensures r.Failure? ==> r.error == Malformed
    ensures r.Success? <==> (item.Hash? &&
      (Field(item.entries, "name").Str? || Field(item.entries, "name").Sym?) &&
      TextOf(Field(item.entries, "value")).Success?)
    ensures r.Success? ==> (item.Hash? &&
      Field(item.entries, "name") in {Str(r.value.key), Sym(r.value.key)} &&
      TextOf(Field(item.entries, "value")) == Success(r.value.value))
  {
    var es :- HashEntries(item);
    var name := Field(es, "name");
    if !(name.Str? || name.Sym?) then Failure(Malformed)
    else
      var value :- TextOf(Field(es, "value"));
      Success(KeyValue(name.s, value))
  }

  /** `KeyValueCollection#load_ast!`: nothing for an empty input, one item per element otherwise. */
  function KeyValuesOf(ast: Value): (r: Result<KeyValueCollection, LoadError>)
    ensures r.Failure? ==> r.error == Malformed
    ensures !RespondsToEmpty(ast) ==> r.Failure?
    ensures RespondsToEmpty(ast) && !IsEmpty(ast) && !ast.Arr? ==> r.Failure?
    ensures ast in {Arr([]), Hash([]), Str(""), Sym("")} ==> r == Success(KeyValueCollection(None))
    ensures ast.Arr? && ast.items != [] ==>
      (r.Success? <==> forall i | 0 <= i < |ast.items| :: KeyValueOf(ast.items[i]).Success?)
    ensures r.Success? && r.value.collection.Some? ==>
      var items := r.value.collection.value;
      items != [] && ast.Arr? && |items| == |ast.items| &&
      forall i | 0 <= i < |items| :: KeyValueOf(ast.items[i]) == Success(items[i])
    ensures r.Success? && ast.Arr? && ast.items != [] ==> KeyValuesComplete(r.value)
  {
    if !RespondsToEmpty(ast) then Failure(Malformed)
    else if IsEmpty(ast) then Success(KeyValueCollection(None))
    else
      var xs :- EachOf(ast);
      var items :- LoadEach(xs, KeyValueOf);
      Success(KeyValueCollection(Some(items)))
  }

  /** `initialize(ast = nil)`: `load_ast!` only runs for a truthy argument. */
  function NewKeyValues(ast: Value): (r: Result<KeyValueCollection, LoadError>)
    ensures r.Failure? ==> r.error == Malformed
    ensures !Truthy(ast) ==> r == Success(KeyValueCollection(None))
    ensures Truthy(ast) ==> r == KeyValuesOf(ast)
  {
    if Truthy(ast) then KeyValuesOf(ast) else Success(KeyValueCollection(None))
  }

  /** `item[:value]` of a `+ Values` entry. */
  function ValueOf(item: Value): (r: Result<Option<string>, LoadError>)
    ensures r.Failure? ==> r.error == Malformed
    ensures r.Success? ==> item.Hash?
    ensures item.Hash? ==> r == TextOf(Field(item.entries, "value"))
  {
    var es :- HashEntries(item);
    TextOf(Field(es, "value"))
  }

  /** `@x = ast[:x] if ast[:x]`. */
  function IfTruthy(v: Value): (r: Result<Option<string>, LoadError>)
    ensures r.Failure? ==> r.error == Malformed
    ensures !Truthy(v) ==> r == Success(None)
    ensures Truthy(v) ==> r == TextOf(v)
  {
    if Truthy(v) then TextOf(v) else Success(None)
  }

  /** `(ast[:required] && ast[:required] == true) ? :required : :optional`. */
  function UseOf(required: Value): (r: Use)
    ensures r == Required <==> required == Bool(true)
  {
    if Truthy(required) && required == Bool(true) then Required else Optional
  }

  function ParameterOf(ast: Value): (r: Result<Parameter, LoadError>)
    ensures r.Failure? ==> r.error == Malformed
    ensures r.Success? <==> (ast.Hash? &&
      TextOf(Field(ast.entries, "name")).Success? && TextOf(Field(ast.entries, "description")).Success? &&
      IfTruthy(Field(ast.entries, "type")).Success? && IfTruthy(Field(ast.entries, "default")).Success? &&
      IfTruthy(Field(ast.entries, "example")).Success? &&
      EachUnlessBlank(Field(ast.entries, "values"), ValueOf).Success?)
    ensures r.Success? ==> ast.Hash? && r.value.use.Some?
    ensures r.Success? ==>
      TextOf(Field(ast.entries, "name")) == Success(r.value.name) &&
      TextOf(Field(ast.entries, "description")) == Success(r.value.description) &&
      IfTruthy(Field(ast.entries, "type")) == Success(r.value.paramType) &&
      IfTruthy(Field(ast.entries, "default")) == Success(r.value.defaultValue) &&
      IfTruthy(Field(ast.entries, "example")) == Success(r.value.exampleValue)
    ensures r.Success? ==> (r.value.use == Some(Required) <==> Field(ast.entries, "required") == Bool(true))
    ensures r.Success? ==> (r.value.values.None? <==> Blank(Field(ast.entries, "values")))
    ensures r.Success? && r.value.values.Some? ==>
      var xs := Field(ast.entries, "values");
      var vs := r.value.values.value;
      xs.Arr? && |vs| == |xs.items| && forall i | 0 <= i < |vs| :: ValueOf(xs.items[i]) == Success(vs[i])
  {
    var es :- HashEntries(ast);
    var name :- TextOf(Field(es, "name"));
    var description :- TextOf(Field(es, "description"));
    var paramType :- IfTruthy(Field(es, "type"));
    var defaultValue :- IfTruthy(Field(es, "default"));
    var exampleValue :- IfTruthy(Field(es, "example"));
    var values :- EachUnlessBlank(Field(es, "values"), ValueOf);
    Success(Parameter(name, description, paramType, Some(UseOf(Field(es, "required"))),
                      defaultValue, exampleValue, values))
  }

  function NewParameter(ast: Value): (r: Result<Parameter, LoadError>)
    ensures r.Failure? ==> r.error == Malformed
    ensures !Truthy(ast) ==> r == Success(Parameter(None, None, None, None, None, None, None))
    ensures Truthy(ast) ==> r == ParameterOf(ast)
  {
    if Truthy(ast) then ParameterOf(ast) else Success(Parameter(None, None, None, None, None, None, None))
  }

  /** `Parameters#load_ast!`: nothing for an empty input, one `Parameter` per element otherwise. */
  function ParametersOf(ast: Value): (r: Result<Parameters, LoadError>)
    ensures r.Failure? ==> r.error == Malformed
    ensures !RespondsToEmpty(ast) ==> r.Failure?
    ensures RespondsToEmpty(ast) && !IsEmpty(ast) && !ast.Arr? ==> r.Failure?
    ensures ast in {Arr([]), Hash([]), Str(""), Sym("")} ==> r == Success(Parameters(None))
    ensures ast.Arr? && ast.items != [] ==>
      (r.Success? <==> forall i | 0 <= i < |ast.items| :: NewParameter(ast.items[i]).Success?)
    ensures r.Success? && r.value.collection.Some? ==>
      var ps := r.value.collection.value;
      ps != [] && ast.Arr? && |ps| == |ast.items| &&
      forall i | 0 <= i < |ps| :: NewParameter(ast.items[i]) == Success(ps[i])
    ensures r.Success? && ast.Arr? && ast.items != [] ==> ParametersComplete(r.value)
  {
    if !RespondsToEmpty(ast) then Failure(Malformed)
    else if IsEmpty(ast) then Success(Parameters(None))
    else
      var xs :- EachOf(ast);
      var ps :- LoadEach(xs, NewParameter);
      Success(Parameters(Some(ps)))
  }

  function PayloadOf(ast: Value): (r: Result<Payload, LoadError>)
    ensures r.Failure? ==> r.error == Malformed
    ensures r.Success? <==> (ast.Hash? &&
      TextOf(Field(ast.entries, "name")).Success? && TextOf(Field(ast.entries, "description")).Success? &&
      UnlessBlank(Field(ast.entries, "headers"), NewKeyValues).Success? &&
      (Blank(Field(ast.entries, "body")) || Field(ast.entries, "body").Str?) &&
      (Blank(Field(ast.entries, "schema")) || Field(ast.entries, "schema").Str?))
    ensures r.Success? ==> ast.Hash? && PayloadComplete(r.value)
    ensures r.Success? ==>
      TextOf(Field(ast.entries, "name")) == Success(r.value.name) &&
      TextOf(Field(ast.entries, "description")) == Success(r.value.description)
    ensures r.Success? ==> (r.value.headers.None? <==> Blank(Field(ast.entries, "headers")))
    ensures r.Success? ==> UnlessBlank(Field(ast.entries, "headers"), NewKeyValues) == Success(r.value.headers)
    ensures r.Success? ==> (r.value.body.None? <==> Blank(Field(ast.entries, "body")))
    ensures r.Success? && r.value.body.Some? ==>
      Field(ast.entries, "body") == Str(r.value.body.value) && r.value.body.value != ""
    ensures r.Success? ==> (r.value.schema.None? <==> Blank(Field(ast.entries, "schema")))
    ensures r.Success? && r.value.schema.Some? ==>
      Field(ast.entries, "schema") == Str(r.value.schema.value) && r.value.schema.value != ""
  {
    var es :- HashEntries(ast);
    var name :- TextOf(Field(es, "name"));
    var description :- TextOf(Field(es, "description"));
    var headers :- UnlessBlank(Field(es, "headers"), NewKeyValues);
    var body :- if Blank(Field(es, "body")) then Success(None) else TextOf(Field(es, "body"));
    var schema :- if Blank(Field(es, "schema")) then Success(None) else TextOf(Field(es, "schema"));
    Success(Payload(name, description, headers, body, schema))
  }

  function NewPayload(ast: Value): (r: Result<Payload, LoadError>)
    ensures r.Failure? ==> r.error == Malformed
    ensures !Truthy(ast) ==> r == Success(Payload(None, None, None, None, None))
    ensures Truthy(ast) ==> r == PayloadOf(ast)
    ensures r.Success? ==> PayloadComplete(r.value)
  {
    if Truthy(ast) then PayloadOf(ast) else Success(Payload(None, None, None, None, None))
  }

  function TransactionExampleOf(ast: Value): (r: Result<TransactionExample, LoadError>)
    ensures r.Failure? ==> r.error == Malformed
    ensures r.Success? <==> (ast.Hash? &&
      TextOf(Field(ast.entries, "name")).Success? && TextOf(Field(ast.entries, "description")).Success? &&
      EachUnlessBlank(Field(ast.entries, "requests"), NewPayload).Success? &&
      EachUnlessBlank(Field(ast.entries, "responses"), NewPayload).Success?)
    ensures r.Success? ==> ast.Hash? && ExampleComplete(r.value)
    ensures r.Success? ==>
      TextOf(Field(ast.entries, "name")) == Success(r.value.name) &&
      TextOf(Field(ast.entries, "description")) == Success(r.value.description)
    ensures r.Success? ==> LoadedFrom(Field(ast.entries, "requests"), NewPayload, r.value.requests)
    ensures r.Success? ==> LoadedFrom(Field(ast.entries, "responses"), NewPayload, r.value.responses)
  {
    var es :- HashEntries(ast);
    var name :- TextOf(Field(es, "name"));
    var description :- TextOf(Field(es, "description"));
    var requests :- EachUnlessBlank(Field(es, "requests"), NewPayload);
    var responses :- EachUnlessBlank(Field(es, "responses"), NewPayload);
    Success(TransactionExample(name, description, requests, responses))
  }

  function NewTransactionExample(ast: Value): (r: Result<TransactionExample, LoadError>)
    ensures r.Failure? ==> r.error == Malformed
    ensures !Truthy(ast) ==> r == Success(TransactionExample(None, None, None, None))
    ensures Truthy(ast) ==> r == TransactionExampleOf(ast)
    ensures r.Success? ==> ExampleComplete(r.value)
  {
    if Truthy(ast) then TransactionExampleOf(ast) else Success(TransactionExample(None, None, None, None))
  }

  function ActionOf(ast: Value): (r: Result<Action, LoadError>)
    ensures r.Failure? ==> r.error == Malformed
    ensures r.Success? <==> (ast.Hash? &&
      TextOf(Field(ast.entries, "name")).Success? && TextOf(Field(ast.entries, "description")).Success? &&
      TextOf(Field(ast.entries, "method")).Success? &&
      UnlessBlank(Field(ast.entries, "parameters"), ParametersOf).Success? &&
      EachUnlessBlank(Field(ast.entries, "examples"), NewTransactionExample).Success?)
    ensures r.Success? ==> ast.Hash? && ActionComplete(r.value)
    ensures r.Success? ==>
      TextOf(Field(ast.entries, "name")) == Success(r.value.name) &&
      TextOf(Field(ast.entries, "description")) == Success(r.value.description) &&
      TextOf(Field(ast.entries, "method")) == Success(r.value.httpMethod)
    ensures r.Success? ==> UnlessBlank(Field(ast.entries, "parameters"), ParametersOf) == Success(r.value.parameters)
    ensures r.Success? ==> LoadedFrom(Field(ast.entries, "examples"), NewTransactionExample, r.value.examples)
  {
    var es :- HashEntries(ast);
    var name :- TextOf(Field(es, "name"));
    var description :- TextOf(Field(es, "description"));
    var httpMethod :- TextOf(Field(es, "method"));
    var parameters :- UnlessBlank(Field(es, "parameters"), ParametersOf);
    var examples :- EachUnlessBlank(Field(es, "examples"), NewTransactionExample);
    Success(Action(name, description, httpMethod, parameters, examples))
  }

  function NewAction(ast: Value): (r: Result<Action, LoadError>)
    ensures r.Failure? ==> r.error == Malformed
    ensures !Truthy(ast) ==> r == Success(Action(None, None, None, None, None))
    ensures Truthy(ast) ==> r == ActionOf(ast)
    ensures r.Success? ==> ActionComplete(r.value)
  {
    if Truthy(ast) then ActionOf(ast) else Success(Action(None, None, None, None, None))
  }

  /**
    `ast[:uriTemplate].blank? || ast[:uriTemplate][0] != '/'` is false: a
    String or Symbol starting with "/", or an Array whose first element is
    the String "/".  (`true[0]` raises; every other value is rejected.)
   */
  predicate UriTemplatePasses(v: Value) {
    match v
    case Str(s) => s != "" && s[0] == '/'
    case Sym(s) => s != "" && s[0] == '/'
    case Arr(xs) => xs != [] && xs[0] == Str("/")
    case _ => false
  }

  const MissingUriTemplateMessage: string := "Invalid input: A resource is missing URI template"

  /** The abort message, naming the resource when its name is not blank. */
  function UriTemplateFailure(name: Value): (message: string)
    ensures Blank(name) ==> message == MissingUriTemplateMessage
    ensures name.Str? && name.s != "" ==>
      message == MissingUriTemplateMessage + " ('" + name.s + "' resource)"
  {
    if Blank(name) || !name.Str? then MissingUriTemplateMessage
    else MissingUriTemplateMessage + " ('" + name.s + "' resource)"
  }

  /**
    For a resource whose name and description load, `load_ast!` aborts
    exactly when its String URI template is empty or does not start with "/",
    and the message names the resource unless its name is blank.  No other
    failure is an abort.
   */
  function ResourceOf(ast: Value): (r: Result<Resource, LoadError>)
    ensures ast.Hash? && Field(ast.entries, "uriTemplate").Str? &&
            TextOf(Field(ast.entries, "name")).Success? && TextOf(Field(ast.entries, "description")).Success? ==>
      var u := Field(ast.entries, "uriTemplate").s;
      (r.Failure? && r.error.InvalidUriTemplate? <==> u == "" || u[0] != '/')
    ensures ast.Hash? && Field(ast.entries, "uriTemplate") != Bool(true) &&
            TextOf(Field(ast.entries, "name")).Success? && TextOf(Field(ast.entries, "description")).Success? ==>
      (r.Failure? && r.error.InvalidUriTemplate? <==> !UriTemplatePasses(Field(ast.entries, "uriTemplate")))
    ensures r.Failure? && r.error.InvalidUriTemplate? ==> (ast.Hash? &&
      var name := Field(ast.entries, "name");
      r.error.message ==
        if name.Str? && name.s != "" then MissingUriTemplateMessage + " ('" + name.s + "' resource)"
        else MissingUriTemplateMessage)
    ensures r.Success? <==> (ast.Hash? &&
      TextOf(Field(ast.entries, "name")).Success? && TextOf(Field(ast.entries, "description")).Success? &&
      Field(ast.entries, "uriTemplate").Str? && UriTemplatePasses(Field(ast.entries, "uriTemplate")) &&
      UnlessBlank(Field(ast.entries, "model"), NewPayload).Success? &&
      UnlessBlank(Field(ast.entries, "parameters"), ParametersOf).Success? &&
      EachUnlessBlank(Field(ast.entries, "actions"), NewAction).Success?)
    ensures r.Success? ==> ast.Hash? && ResourceComplete(r.value)
    ensures r.Success? ==> (r.value.uriTemplate.Some? &&
      var u := r.value.uriTemplate.value; u != "" && u[0] == '/')
    ensures r.Success? ==>
      TextOf(Field(ast.entries, "name")) == Success(r.value.name) &&
      TextOf(Field(ast.entries, "description")) == Success(r.value.description) &&
      Field(ast.entries, "uriTemplate") == Str(r.value.uriTemplate.value)
    ensures r.Success? ==> ResourceChildrenLoaded(ast.entries, r.value)
  {
    var es :- HashEntries(ast);
    var name :- TextOf(Field(es, "name"));
    var description :- TextOf(Field(es, "description"));
    var uri := Field(es, "uriTemplate");
    if uri == Bool(true) then Failure(Malformed)
    else if !UriTemplatePasses(uri) then Failure(InvalidUriTemplate(UriTemplateFailure(Field(es, "name"))))
    else if !uri.Str? then Failure(Malformed)
    else ResourceChildrenOf(es, name, description, uri.s)
  }

  /** The model, parameters and actions of `res` are those of the Hash `es`. */
  ghost predicate ResourceChildrenLoaded(es: seq<Entry>, res: Resource) {
    UnlessBlank(Field(es, "model"), NewPayload) == Success(res.model) &&
    UnlessBlank(Field(es, "parameters"), ParametersOf) == Success(res.parameters) &&
    LoadedFrom(Field(es, "actions"), NewAction, res.actions)
  }

  /** The model, parameters and actions `load_ast!` reads once the URI template has passed. */
  function ResourceChildrenOf(es: seq<Entry>, name: Option<string>, description: Option<string>, uri: string)
    : (r: Result<Resource, LoadError>)
    ensures r.Failure? ==> r.error == Malformed
    ensures r.Success? ==> ResourceComplete(r.value) && r.value.uriTemplate == Some(uri)
    ensures r.Success? <==>
      (UnlessBlank(Field(es, "model"), NewPayload).Success? &&
      UnlessBlank(Field(es, "parameters"), ParametersOf).Success? &&
      EachUnlessBlank(Field(es, "actions"), NewAction).Success?)
    ensures r.Success? ==> r.value.name == name && r.value.description == description
    ensures r.Success? ==> ResourceChildrenLoaded(es, r.value)
  {
    var model :- UnlessBlank(Field(es, "model"), NewPayload);
    var parameters :- UnlessBlank(Field(es, "parameters"), ParametersOf);
    var actions :- EachUnlessBlank(Field(es, "actions"), NewAction);
    Success(Resource(name, description, Some(uri), model, parameters, actions))
  }

  function NewResource(ast: Value): (r: Result<Resource, LoadError>)
    ensures !Truthy(ast) ==> r == Success(Resource(None, None, None, None, None, None))
    ensures Truthy(ast) ==> r == ResourceOf(ast)
    ensures r.Success? ==> ResourceComplete(r.value)
  {
    if Truthy(ast) then ResourceOf(ast) else Success(Resource(None, None, None, None, None, None))
  }

  function ResourceGroupOf(ast: Value): (r: Result<ResourceGroup, LoadError>)
    ensures r.Success? <==> (ast.Hash? &&
      TextOf(Field(ast.entries, "name")).Success? && TextOf(Field(ast.entries, "description")).Success? &&
      EachUnlessBlank(Field(ast.entries, "resources"), NewResource).Success?)
    ensures r.Success? ==> ast.Hash? && GroupComplete(r.value)
    ensures r.Success? ==>
      TextOf(Field(ast.entries, "name")) == Success(r.value.name) &&
      TextOf(Field(ast.entries, "description")) == Success(r.value.description)
    ensures r.Success? ==> LoadedFrom(Field(ast.entries, "resources"), NewResource, r.value.resources)
  {
    var es :- HashEntries(ast);
    var name :- TextOf(Field(es, "name"));
    var description :- TextOf(Field(es, "description"));
    var resources :- EachUnlessBlank(Field(es, "resources"), NewResource);
    Success(ResourceGroup(name, description, resources))
  }

  function NewResourceGroup(ast: Value): (r: Result<ResourceGroup, LoadError>)
    ensures !Truthy(ast) ==> r == Success(ResourceGroup(None, None, None))
    ensures Truthy(ast) ==> r == ResourceGroupOf(ast)
    ensures r.Success? ==> GroupComplete(r.value)
  {
    if Truthy(ast) then ResourceGroupOf(ast) else Success(ResourceGroup(None, None, None))
  }

  function BlueprintOf(ast: Value): (r: Result<Blueprint, LoadError>)
    ensures r.Success? <==> (ast.Hash? &&
      TextOf(Field(ast.entries, "name")).Success? && TextOf(Field(ast.entries, "description")).Success? &&
      UnlessBlank(Field(ast.entries, "metadata"), NewKeyValues).Success? &&
      EachUnlessBlank(Field(ast.entries, "resourceGroups"), NewResourceGroup).Success?)
    ensures r.Success? ==> ast.Hash? && BlueprintComplete(r.value)
    ensures r.Success? ==>
      TextOf(Field(ast.entries, "name")) == Success(r.value.name) &&
      TextOf(Field(ast.entries, "description")) == Success(r.value.description)
    ensures r.Success? ==> UnlessBlank(Field(ast.entries, "metadata"), NewKeyValues) == Success(r.value.metadata)
    ensures r.Success? ==> LoadedFrom(Field(ast.entries, "resourceGroups"), NewResourceGroup, r.value.resourceGroups)
  {
    var es :- HashEntries(ast);
    var name :- TextOf(Field(es, "name"));
    var description :- TextOf(Field(es, "description"));
    var metadata :- UnlessBlank(Field(es, "metadata"), NewKeyValues);
    var groups :- EachUnlessBlank(Field(es, "resourceGroups"), NewResourceGroup);
    Success(Blueprint(name, description, metadata, groups))
  }

  function NewBlueprint(ast: Value): (r: Result<Blueprint, LoadError>)
    ensures !Truthy(ast) ==> r == Success(Blueprint(None, None, None, None))
    ensures Truthy(ast) ==> r == BlueprintOf(ast)
    ensures r.Success? ==> BlueprintComplete(r.value)
  {
    if Truthy(ast) then BlueprintOf(ast) else Success(Blueprint(None, None, None, None))
  }

  // ---------------------------------------------------------------------
  // The load_ast! methods: `each` loops that append one node per element

  /** `xs.each { |item| list << load(item) }` for items that are plain Hashes. */
  method LoadItems<T>(xs: seq<Value>, load: Value -> Result<T, LoadError>) returns (r: Result<seq<T>, LoadError>)
    ensures r == LoadEach(xs, load)
  {
    var acc: seq<T> := [];
    var i := 0;
    while i < |xs|
      invariant 0 <= i <= |xs|
      invariant LoadEach(xs[..i], load) == Success(acc)
    {
      var item := load(xs[i]);
      if item.Failure? {
        LoadEachFailsAt(xs, i, load);
        return Failure(item.error);
      }
      LoadEachSnoc(xs, i, load, acc, item.value);
      acc := acc + [item.value];
      i := i + 1;
    }
    assert xs[..i] == xs;
    return Success(acc);
  }

  method LoadKeyValues(ast: Value) returns (r: Result<KeyValueCollection, LoadError>)
    ensures r == NewKeyValues(ast)
  {
    if !Truthy(ast) {
      return Success(KeyValueCollection(None));
    }
    if !RespondsToEmpty(ast) {
      return Failure(Malformed);
    }
    if IsEmpty(ast) {
      return Success(KeyValueCollection(None));
    }
    var xs :- EachOf(ast);
    var items :- LoadItems(xs, KeyValueOf);
    return Success(KeyValueCollection(Some(items)));
  }

  method LoadParameter(ast: Value) returns (r: Result<Parameter, LoadError>)
    ensures r == NewParameter(ast)
  {
    if !Truthy(ast) {
      return Success(Parameter(None, None, None, None, None, None, None));
    }
    var es :- HashEntries(ast);
    var name :- TextOf(Field(es, "name"));
    var description :- TextOf(Field(es, "description"));
    var paramType :- IfTruthy(Field(es, "type"));
    var defaultValue :- IfTruthy(Field(es, "default"));
    var exampleValue :- IfTruthy(Field(es, "example"));
    var values: Option<seq<Option<string>>> := None;
    var v := Field(es, "values");
    if !Blank(v) {
      var xs :- EachOf(v);
      var vs :- LoadItems(xs, ValueOf);
      values := Some(vs);
    }
    return Success(Parameter(name, description, paramType, Some(UseOf(Field(es, "required"))),
                             defaultValue, exampleValue, values));
  }

  method LoadParameters(ast: Value) returns (r: Result<Parameters, LoadError>)
    ensures r == ParametersOf(ast)
  {
    if !RespondsToEmpty(ast) {
      return Failure(Malformed);
    }
    if IsEmpty(ast) {
      return Success(Parameters(None));
    }
    var xs :- EachOf(ast);
    var ps: seq<Parameter> := [];
    var i := 0;
    while i < |xs|
      invariant 0 <= i <= |xs|
      invariant LoadEach(xs[..i], NewParameter) == Success(ps)
    {
      var p := LoadParameter(xs[i]);
      if p.Failure? {
        LoadEachFailsAt(xs, i, NewParameter);
        return Failure(p.error);
      }
      LoadEachSnoc(xs, i, NewParameter, ps, p.value);
      ps := ps + [p.value];
      i := i + 1;
    }
    assert xs[..i] == xs;
    return Success(Parameters(Some(ps)));
  }

  method LoadPayload(ast: Value) returns (r: Result<Payload, LoadError>)
    ensures r == NewPayload(ast)
  {
    if !Truthy(ast) {
      return Success(Payload(None, None, None, None, None));
    }
    var es :- HashEntries(ast);
    var name :- TextOf(Field(es, "name"));
    var description :- TextOf(Field(es, "description"));
    var headers: Option<KeyValueCollection> := None;
    if !Blank(Field(es, "headers")) {
      var h :- LoadKeyValues(Field(es, "headers"));
      headers := Some(h);
    }
    var body: Option<string> := None;
    if !Blank(Field(es, "body")) {
      body :- TextOf(Field(es, "body"));
    }
    var schema: Option<string> := None;
    if !Blank(Field(es, "schema")) {
      schema :- TextOf(Field(es, "schema"));
    }
    return Success(Payload(name, description, headers, body, schema));
  }

  /** `ast[:requests]` or `ast[:responses]`: `each { |item| list << Request.new(item) }` unless blank. */
  method LoadPayloads(v: Value) returns (r: Result<Option<seq<Payload>>, LoadError>)
    ensures r == EachUnlessBlank(v, NewPayload)
  {
    if Blank(v) {
      return Success(None);
    }
    var xs :- EachOf(v);
    var ps: seq<Payload> := [];
    var i := 0;
    while i < |xs|
      invariant 0 <= i <= |xs|
      invariant LoadEach(xs[..i], NewPayload) == Success(ps)
    {
      var p := LoadPayload(xs[i]);
      if p.Failure? {
        LoadEachFailsAt(xs, i, NewPayload);
        return Failure(p.error);
      }
      LoadEachSnoc(xs, i, NewPayload, ps, p.value);
      ps := ps + [p.value];
      i := i + 1;
    }
    assert xs[..i] == xs;
    return Success(Some(ps));
  }

  method LoadTransactionExample(ast: Value) returns (r: Result<TransactionExample, LoadError>)
    ensures r == NewTransactionExample(ast)
  {
    if !Truthy(ast) {
      return Success(TransactionExample(None, None, None, None));
    }
    var es :- HashEntries(ast);
    var name :- TextOf(Field(es, "name"));
    var description :- TextOf(Field(es, "description"));
    var requests :- LoadPayloads(Field(es, "requests"));
    var responses :- LoadPayloads(Field(es, "responses"));
    return Success(TransactionExample(name, description, requests, responses));
  }

  /** `ast[:examples].each { |item| list << TransactionExample.new(item) } unless ast[:examples].blank?` */
  method LoadExamples(v: Value) returns (r: Result<Option<seq<TransactionExample>>, LoadError>)
    ensures r == EachUnlessBlank(v, NewTransactionExample)
  {
    if Blank(v) {
      return Success(None);
    }
    var xs :- EachOf(v);
    var acc: seq<TransactionExample> := [];
    var i := 0;
    while i < |xs|
      invariant 0 <= i <= |xs|
      invariant LoadEach(xs[..i], NewTransactionExample) == Success(acc)
    {
      var e := LoadTransactionExample(xs[i]);
      if e.Failure? {
        LoadEachFailsAt(xs, i, NewTransactionExample);
        return Failure(e.error);
      }
      LoadEachSnoc(xs, i, NewTransactionExample, acc, e.value);
      acc := acc + [e.value];
      i := i + 1;
    }
    assert xs[..i] == xs;
    return Success(Some(acc));
  }

  method LoadAction(ast: Value) returns (r: Result<Action, LoadError>)
    ensures r == NewAction(ast)
  {
    if !Truthy(ast) {
      return Success(Action(None, None, None, None, None));
    }
    var es :- HashEntries(ast);
    var name :- TextOf(Field(es, "name"));
    var description :- TextOf(Field(es, "description"));
    var httpMethod :- TextOf(Field(es, "method"));
    var parameters: Option<Parameters> := None;
    if !Blank(Field(es, "parameters")) {
      var ps :- LoadParameters(Field(es, "parameters"));
      parameters := Some(ps);
    }
    var examples :- LoadExamples(Field(es, "examples"));
    return Success(Action(name, description, httpMethod, parameters, examples));
  }

  /** `ast[:actions].each { |item| list << Action.new(item) } unless ast[:actions].blank?` */
  method LoadActions(v: Value) returns (r: Result<Option<seq<Action>>, LoadError>)
    ensures r == EachUnlessBlank(v, NewAction)
  {
    if Blank(v) {
      return Success(None);
    }
    var xs :- EachOf(v);
    var acc: seq<Action> := [];
    var i := 0;
    while i < |xs|
      invariant 0 <= i <= |xs|
      invariant LoadEach(xs[..i], NewAction) == Success(acc)
    {
      var a := LoadAction(xs[i]);
      if a.Failure? {
        LoadEachFailsAt(xs, i, NewAction);
        return Failure(a.error);
      }
      LoadEachSnoc(xs, i, NewAction, acc, a.value);
      acc := acc + [a.value];
      i := i + 1;
    }
    assert xs[..i] == xs;
    return Success(Some(acc));
  }

  method LoadResource(ast: Value) returns (r: Result<Resource, LoadError>)
    ensures r == NewResource(ast)
  {
    if !Truthy(ast) {
      return Success(Resource(None, None, None, None, None, None));
    }
    var es :- HashEntries(ast);
    var name :- TextOf(Field(es, "name"));
    var description :- TextOf(Field(es, "description"));
    var uri := Field(es, "uriTemplate");
    if uri == Bool(true) {
      return Failure(Malformed);
    }
    if !UriTemplatePasses(uri) {
      return Failure(InvalidUriTemplate(UriTemplateFailure(Field(es, "name"))));
    }
    if !uri.Str? {
      return Failure(Malformed);
    }
    var model: Option<Payload> := None;
    if !Blank(Field(es, "model")) {
      var m :- LoadPayload(Field(es, "model"));
      model := Some(m);
    }
    var parameters: Option<Parameters> := None;
    if !Blank(Field(es, "parameters")) {
      var ps :- LoadParameters(Field(es, "parameters"));
      parameters := Some(ps);
    }
    var actions :- LoadActions(Field(es, "actions"));
    return Success(Resource(name, description, Some(uri.s), model, parameters, actions));
  }

  /** `ast[:resources].each { |item| list << Resource.new(item) } unless ast[:resources].blank?` */
  method LoadResources(v: Value) returns (r: Result<Option<seq<Resource>>, LoadError>)
    ensures r == EachUnlessBlank(v, NewResource)
  {
    if Blank(v) {
      return Success(None);
    }
    var xs :- EachOf(v);
    var acc: seq<Resource> := [];
    var i := 0;
    while i < |xs|
      invariant 0 <= i <= |xs|
      invariant LoadEach(xs[..i], NewResource) == Success(acc)
    {
      var res := LoadResource(xs[i]);
      if res.Failure? {
        LoadEachFailsAt(xs, i, NewResource);
        return Failure(res.error);
      }
      LoadEachSnoc(xs, i, NewResource, acc, res.value);
      acc := acc + [res.value];
      i := i + 1;
    }
    assert xs[..i] == xs;
    return Success(Some(acc));
  }

  method LoadResourceGroup(ast: Value) returns (r: Result<ResourceGroup, LoadError>)
    ensures r == NewResourceGroup(ast)
  {
    if !Truthy(ast) {
      return Success(ResourceGroup(None, None, None));
    }
    var es :- HashEntries(ast);
    var name :- TextOf(Field(es, "name"));
    var description :- TextOf(Field(es, "description"));
    var resources :- LoadResources(Field(es, "resources"));
    return Success(ResourceGroup(name, description, resources));
  }

  /** `ast[:resourceGroups].each { |item| list << ResourceGroup.new(item) } unless ast[:resourceGroups].blank?` */
  method LoadResourceGroups(v: Value) returns (r: Result<Option<seq<ResourceGroup>>, LoadError>)
    ensures r == EachUnlessBlank(v, NewResourceGroup)
  {
    if Blank(v) {
      return Success(None);
    }
    var xs :- EachOf(v);
    var acc: seq<ResourceGroup> := [];
    var i := 0;
    while i < |xs|
      invariant 0 <= i <= |xs|
      invariant LoadEach(xs[..i], NewResourceGroup) == Success(acc)
    {
      var g := LoadResourceGroup(xs[i]);
      if g.Failure? {
        LoadEachFailsAt(xs, i, NewResourceGroup);
        return Failure(g.error);
      }
      LoadEachSnoc(xs, i, NewResourceGroup, acc, g.value);
      acc := acc + [g.value];
      i := i + 1;
    }
    assert xs[..i] == xs;
    return Success(Some(acc));
  }

  method LoadBlueprint(ast: Value) returns (r: Result<Blueprint, LoadError>)
    ensures r == NewBlueprint(ast)
  {
    if !Truthy(ast) {
      return Success(Blueprint(None, None, None, None));
    }
    var es :- HashEntries(ast);
    var name :- TextOf(Field(es, "name"));
    var description :- TextOf(Field(es, "description"));
    var metadata: Option<KeyValueCollection> := None;
    if !Blank(Field(es, "metadata")) {
      var m :- LoadKeyValues(Field(es, "metadata"));
      metadata := Some(m);
    }
    var groups :- LoadResourceGroups(Field(es, "resourceGroups"));
    return Success(Blueprint(name, description, metadata, groups));
  }
}
