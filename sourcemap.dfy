/**
  The source-map decoder of lib/redsnow/sourcemap.rb.  The engine reports,
  for every node of the parsed blueprint, where in the source text each of
  its parts came from: a JSON tree whose leaves are arrays of positions.
  Each `RedSnow::Sourcemap` class turns one level of that tree into typed
  fields, copying every position list into a `SourceMap` (an Array of
  positions) and every child array into an Array of nodes.

  The JSON tree is a `Value` whose Hash keys are Strings.  A field left unset
  by an early `return` is `None`.  A Ruby error on an ill-formed tree (a
  String where a Hash is expected, `nil.each`, `nil['key']`) is the error
  `Malformed`.  Each constructor is a method whose loops are proved equal to
  a function `<Node>Of`; the functions' contracts state when a node decodes,
  the key each part is read from, and the lengths, orders and defaults the
  decoder guarantees.
 */
module Sourcemap {
  import opened Wrappers
  import opened RubyObject
  import AstLoader

  type Error = AstLoader.LoadError

  /** `SourceMap < Array`: the positions of one part of a node, in order. */
  type SourceMap = seq<Value>

  /** `Node`, `Metadata` and `Headers`: one position list per entry. */
  datatype Node = Node(collection: seq<SourceMap>)

  datatype Parameter = Parameter(
    name: SourceMap, description: SourceMap, paramType: SourceMap, use: SourceMap,
    defaultValue: SourceMap, exampleValue: SourceMap, values: seq<SourceMap>)

  datatype Parameters = Parameters(collection: seq<Parameter>)

  datatype Payload = Payload(
    name: Option<SourceMap>, description: Option<SourceMap>, headers: Option<Node>,
    body: Option<SourceMap>, schema: Option<SourceMap>, reference: Option<SourceMap>)

  datatype TransactionExample = TransactionExample(
    name: SourceMap, description: SourceMap, requests: seq<Payload>, responses: seq<Payload>)

  datatype Action = Action(
    name: Option<SourceMap>, description: Option<SourceMap>, httpMethod: Option<SourceMap>,
    parameters: Option<Parameters>, examples: Option<seq<TransactionExample>>)

  datatype Resource = Resource(
    name: Option<SourceMap>, description: Option<SourceMap>, uriTemplate: Option<SourceMap>,
    model: Option<Payload>, parameters: Option<Parameters>, actions: Option<seq<Action>>)

  datatype ResourceGroup = ResourceGroup(name: SourceMap, description: SourceMap, resources: seq<Resource>)

  datatype Blueprint = Blueprint(
    name: Option<SourceMap>, description: Option<SourceMap>, metadata: Option<Node>,
    resourceGroups: Option<seq<ResourceGroup>>)

  // ---------------------------------------------------------------------
  // Reading the JSON tree

  /** `sourcemap['key']`: `nil` when the key is absent. */
  function Get(es: seq<Entry>, key: string): Value {
    Fetch(es, StrKey(key))
  }

  predicate Has(es: seq<Entry>, key: string) {
    HasKey(es, StrKey(key))
  }

  /**
    `ys` holds one node per element of the array under `key`, decoded by
    `load` and in the array's order, and nothing when the key is absent.
   */
  ghost predicate DecodedFrom<T>(es: seq<Entry>, key: string, load: Value -> Result<T, Error>, ys: seq<T>) {
    && (!Has(es, key) ==> ys == [])
    && (Has(es, key) && Get(es, key).Arr? ==>
          |ys| == |Get(es, key).items| && forall i | 0 <= i < |ys| :: load(Get(es, key).items[i]) == Success(ys[i]))
  }

  /** `sourcemap.key?('key') && sourcemap['key'].each { |x| list << Node.new(x) }` */
  function EachIfKey<T>(es: seq<Entry>, key: string, load: Value -> Result<T, Error>): (r: Result<seq<T>, Error>)
    ensures !Has(es, key) ==> r == Success([])
    ensures r.Success? ==> DecodedFrom(es, key, load, r.value)
    ensures Has(es, key) && Get(es, key).Arr? ==>
      (r.Success? <==> forall i | 0 <= i < |Get(es, key).items| :: load(Get(es, key).items[i]).Success?)
    ensures Has(es, key) && Get(es, key) == Nil ==> r.Failure?
    ensures Has(es, key) && !(Get(es, key).Arr? || Get(es, key).Hash?) ==> r.Failure?
  {
    if !Has(es, key) then Success([])
    else
      var xs :- AstLoader.EachOf(Get(es, key));
      AstLoader.LoadEach(xs, load)
  }

  // ---------------------------------------------------------------------
  // The constructors, stated as functions

  /** `SourceMap.new(sourcemap)`: empty for `nil`, else the positions in order. */
  function SourceMapOf(v: Value): (r: Result<SourceMap, Error>)
    ensures v == Nil ==> r == Success([])
    ensures v.Arr? ==> r == Success(v.items)
    ensures r.Success? <==> v == Nil || v.Arr? || v.Hash?
  {
    if v == Nil then Success([])
    else AstLoader.EachOf(v)
  }

  /** `Node.new(sourcemap)` (and `Metadata`, `Headers`): one `SourceMap` per entry, in order. */
  function NodeOf(v: Value): (r: Result<Node, Error>)
    ensures v == Nil ==> r == Success(Node([]))
    ensures v != Nil && !(v.Arr? || v.Hash?) ==> r.Failure?
    ensures v.Arr? ==> (r.Success? <==> forall i | 0 <= i < |v.items| :: SourceMapOf(v.items[i]).Success?)
    ensures v.Arr? && r.Success? ==>
      |r.value.collection| == |v.items| &&
      forall i | 0 <= i < |v.items| :: SourceMapOf(v.items[i]) == Success(r.value.collection[i])
  {
    if v == Nil then Success(Node([]))
    else
      var xs :- AstLoader.EachOf(v);
      var maps :- AstLoader.LoadEach(xs, SourceMapOf);
      Success(Node(maps))
  }

  /** `SourceMap.new(value['value'])` for one entry of a parameter's `values`. */
  function ValueSourceMapOf(v: Value): Result<SourceMap, Error> {
    var es :- AstLoader.HashEntries(v);
    SourceMapOf(Get(es, "value"))
  }

  /**
    `Parameter.new(sourcemap)`.  Its `super` returns early for `nil`, but
    the next line indexes `nil`, so a `nil` parameter is an error.
   */
  function ParameterOf(v: Value): (r: Result<Parameter, Error>)
    ensures v == Nil ==> r.Failure?
    ensures r.Success? <==>
      (v.Hash? &&
         SourceMapOf(Get(v.entries, "name")).Success? &&
         SourceMapOf(Get(v.entries, "description")).Success? &&
         SourceMapOf(Get(v.entries, "type")).Success? &&
         SourceMapOf(Get(v.entries, "required")).Success? &&
         SourceMapOf(Get(v.entries, "default")).Success? &&
         SourceMapOf(Get(v.entries, "example")).Success? &&
         EachIfKey(v.entries, "values", ValueSourceMapOf).Success?)
    ensures r.Success? ==> v.Hash?
    ensures r.Success? ==>
      && SourceMapOf(Get(v.entries, "name")) == Success(r.value.name)
      && SourceMapOf(Get(v.entries, "description")) == Success(r.value.description)
      && SourceMapOf(Get(v.entries, "type")) == Success(r.value.paramType)
      && SourceMapOf(Get(v.entries, "required")) == Success(r.value.use)
      && SourceMapOf(Get(v.entries, "default")) == Success(r.value.defaultValue)
      && SourceMapOf(Get(v.entries, "example")) == Success(r.value.exampleValue)
    ensures r.Success? ==> DecodedFrom(v.entries, "values", ValueSourceMapOf, r.value.values)
  {
    var es :- AstLoader.HashEntries(v);
    var name :- SourceMapOf(Get(es, "name"));
    var description :- SourceMapOf(Get(es, "description"));
    var paramType :- SourceMapOf(Get(es, "type"));
    var use :- SourceMapOf(Get(es, "required"));
    var defaultValue :- SourceMapOf(Get(es, "default"));
    var exampleValue :- SourceMapOf(Get(es, "example"));
    var values :- EachIfKey(es, "values", ValueSourceMapOf);
    Success(Parameter(name, description, paramType, use, defaultValue, exampleValue, values))
  }

  /** `Parameters.new(sourcemap)`: empty for `nil`, else one `Parameter` per element, in order. */
  function ParametersOf(v: Value): (r: Result<Parameters, Error>)
    ensures v == Nil ==> r == Success(Parameters([]))
    ensures v != Nil && !(v.Arr? || v.Hash?) ==> r.Failure?
    ensures v.Arr? ==> (r.Success? <==> forall i | 0 <= i < |v.items| :: ParameterOf(v.items[i]).Success?)
    ensures v.Arr? && r.Success? ==>
      |r.value.collection| == |v.items| &&
      forall i | 0 <= i < |v.items| :: ParameterOf(v.items[i]) == Success(r.value.collection[i])
  {
    if v == Nil then Success(Parameters([]))
    else
      var xs :- AstLoader.EachOf(v);
      var ps :- AstLoader.LoadEach(xs, ParameterOf);
      Success(Parameters(ps))
  }

  /** `Payload.new(sourcemap)`: every field unset for `nil`, every field set otherwise. */
  function PayloadOf(v: Value): (r: Result<Payload, Error>)
    ensures v == Nil ==> r == Success(Payload(None, None, None, None, None, None))
    ensures r.Success? && v != Nil ==>
      && v.Hash?
      && r.value.name.Some? && r.value.description.Some? && r.value.headers.Some?
      && r.value.body.Some? && r.value.schema.Some? && r.value.reference.Some?
    ensures v != Nil ==>
      (r.Success? <==> (v.Hash? &&
         SourceMapOf(Get(v.entries, "name")).Success? &&
         SourceMapOf(Get(v.entries, "description")).Success? &&
         SourceMapOf(Get(v.entries, "body")).Success? &&
         SourceMapOf(Get(v.entries, "schema")).Success? &&
         SourceMapOf(Get(v.entries, "reference")).Success? &&
         NodeOf(Get(v.entries, "headers")).Success?))
    ensures r.Success? && v != Nil ==>
      && SourceMapOf(Get(v.entries, "name")) == Success(r.value.name.value)
      && SourceMapOf(Get(v.entries, "description")) == Success(r.value.description.value)
      && SourceMapOf(Get(v.entries, "body")) == Success(r.value.body.value)
      && SourceMapOf(Get(v.entries, "schema")) == Success(r.value.schema.value)
      && SourceMapOf(Get(v.entries, "reference")) == Success(r.value.reference.value)
      && NodeOf(Get(v.entries, "headers")) == Success(r.value.headers.value)
  {
    if v == Nil then Success(Payload(None, None, None, None, None, None))
    else
      var es :- AstLoader.HashEntries(v);
      var name :- SourceMapOf(Get(es, "name"));
      var description :- SourceMapOf(Get(es, "description"));
      var body :- SourceMapOf(Get(es, "body"));
      var schema :- SourceMapOf(Get(es, "schema"));
      var reference :- SourceMapOf(Get(es, "reference"));
      var headers :- NodeOf(Get(es, "headers"));
      Success(Payload(Some(name), Some(description), Some(headers), Some(body), Some(schema), Some(reference)))
  }

  /**
    `TransactionExample.new(sourcemap)`: the requests and responses, one
    payload per element and in order, empty when the key is absent.  A `nil`
    example is an error: `key?` is called on it.
   */
  function TransactionExampleOf(v: Value): (r: Result<TransactionExample, Error>)
    ensures v == Nil ==> r.Failure?
    ensures r.Success? <==>
      (v.Hash? &&
         SourceMapOf(Get(v.entries, "name")).Success? &&
         SourceMapOf(Get(v.entries, "description")).Success? &&
         EachIfKey(v.entries, "requests", PayloadOf).Success? &&
         EachIfKey(v.entries, "responses", PayloadOf).Success?)
    ensures r.Success? ==> v.Hash?
    ensures r.Success? ==>
      && SourceMapOf(Get(v.entries, "name")) == Success(r.value.name)
      && SourceMapOf(Get(v.entries, "description")) == Success(r.value.description)
    ensures r.Success? ==> DecodedFrom(v.entries, "requests", PayloadOf, r.value.requests)
    ensures r.Success? ==> DecodedFrom(v.entries, "responses", PayloadOf, r.value.responses)
  {
    var es :- AstLoader.HashEntries(v);
    var name :- SourceMapOf(Get(es, "name"));
    var description :- SourceMapOf(Get(es, "description"));
    var requests :- EachIfKey(es, "requests", PayloadOf);
    var responses :- EachIfKey(es, "responses", PayloadOf);
    Success(TransactionExample(name, description, requests, responses))
  }

  /** `Action.new(sourcemap)`: every field unset for `nil`; the examples in order otherwise. */
  function ActionOf(v: Value): (r: Result<Action, Error>)
    ensures v == Nil ==> r == Success(Action(None, None, None, None, None))
    ensures r.Success? && v != Nil ==>
      && v.Hash?
      && r.value.name.Some? && r.value.description.Some? && r.value.httpMethod.Some?
      && r.value.parameters.Some? && r.value.examples.Some?
      && DecodedFrom(v.entries, "examples", TransactionExampleOf, r.value.examples.value)
    ensures v != Nil ==>
      (r.Success? <==> (v.Hash? &&
         SourceMapOf(Get(v.entries, "name")).Success? &&
         SourceMapOf(Get(v.entries, "description")).Success? &&
         SourceMapOf(Get(v.entries, "method")).Success? &&
         ParametersOf(Get(v.entries, "parameters")).Success? &&
         EachIfKey(v.entries, "examples", TransactionExampleOf).Success?))
    ensures r.Success? && v != Nil ==>
      && SourceMapOf(Get(v.entries, "name")) == Success(r.value.name.value)
      && SourceMapOf(Get(v.entries, "description")) == Success(r.value.description.value)
      && SourceMapOf(Get(v.entries, "method")) == Success(r.value.httpMethod.value)
      && ParametersOf(Get(v.entries, "parameters")) == Success(r.value.parameters.value)
  {
    if v == Nil then Success(Action(None, None, None, None, None))
    else
      var es :- AstLoader.HashEntries(v);
      var name :- SourceMapOf(Get(es, "name"));
      var description :- SourceMapOf(Get(es, "description"));
      var httpMethod :- SourceMapOf(Get(es, "method"));
      var parameters :- ParametersOf(Get(es, "parameters"));
      var examples :- EachIfKey(es, "examples", TransactionExampleOf);
      Success(Action(Some(name), Some(description), Some(httpMethod), Some(parameters), Some(examples)))
  }

  /** `Resource.new(sourcemap)`: every field unset for `nil`; the actions in order otherwise. */
  function ResourceOf(v: Value): (r: Result<Resource, Error>)
    ensures v == Nil ==> r == Success(Resource(None, None, None, None, None, None))
    ensures r.Success? && v != Nil ==>
      && v.Hash?
      && r.value.name.Some? && r.value.description.Some? && r.value.uriTemplate.Some?
      && r.value.model.Some? && r.value.parameters.Some? && r.value.actions.Some?
      && PayloadOf(Get(v.entries, "model")) == Success(r.value.model.value)
      && DecodedFrom(v.entries, "actions", ActionOf, r.value.actions.value)
    ensures v != Nil ==>
      (r.Success? <==> (v.Hash? &&
         SourceMapOf(Get(v.entries, "name")).Success? &&
         SourceMapOf(Get(v.entries, "description")).Success? &&
         SourceMapOf(Get(v.entries, "uriTemplate")).Success? &&
         PayloadOf(Get(v.entries, "model")).Success? &&
         ParametersOf(Get(v.entries, "parameters")).Success? &&
         EachIfKey(v.entries, "actions", ActionOf).Success?))
    ensures r.Success? && v != Nil ==>
      && SourceMapOf(Get(v.entries, "name")) == Success(r.value.name.value)
      && SourceMapOf(Get(v.entries, "description")) == Success(r.value.description.value)
      && SourceMapOf(Get(v.entries, "uriTemplate")) == Success(r.value.uriTemplate.value)
      && ParametersOf(Get(v.entries, "parameters")) == Success(r.value.parameters.value)
  {
    if v == Nil then Success(Resource(None, None, None, None, None, None))
    else
      var es :- AstLoader.HashEntries(v);
      var name :- SourceMapOf(Get(es, "name"));
      var description :- SourceMapOf(Get(es, "description"));
      var uriTemplate :- SourceMapOf(Get(es, "uriTemplate"));
      var model :- PayloadOf(Get(es, "model"));
      var parameters :- ParametersOf(Get(es, "parameters"));
      var actions :- EachIfKey(es, "actions", ActionOf);
      Success(Resource(Some(name), Some(description), Some(uriTemplate), Some(model), Some(parameters), Some(actions)))
  }

  /** `ResourceGroup.new(sourcemap)`: the resources in order; a `nil` group is an error. */
  function ResourceGroupOf(v: Value): (r: Result<ResourceGroup, Error>)
    ensures v == Nil ==> r.Failure?
    ensures r.Success? <==>
      (v.Hash? &&
         SourceMapOf(Get(v.entries, "name")).Success? &&
         SourceMapOf(Get(v.entries, "description")).Success? &&
         EachIfKey(v.entries, "resources", ResourceOf).Success?)
    ensures r.Success? ==> v.Hash? && DecodedFrom(v.entries, "resources", ResourceOf, r.value.resources)
    ensures r.Success? ==>
      && SourceMapOf(Get(v.entries, "name")) == Success(r.value.name)
      && SourceMapOf(Get(v.entries, "description")) == Success(r.value.description)
  {
    var es :- AstLoader.HashEntries(v);
    var name :- SourceMapOf(Get(es, "name"));
    var description :- SourceMapOf(Get(es, "description"));
    var resources :- EachIfKey(es, "resources", ResourceOf);
    Success(ResourceGroup(name, description, resources))
  }

  /** `Blueprint.new(sourcemap)`: every field unset for `nil`; the groups in order otherwise. */
  function BlueprintOf(v: Value): (r: Result<Blueprint, Error>)
    ensures v == Nil ==> r == Success(Blueprint(None, None, None, None))
    ensures r.Success? && v != Nil ==>
      && v.Hash?
      && r.value.name.Some? && r.value.description.Some?
      && r.value.metadata.Some? && r.value.resourceGroups.Some?
      && NodeOf(Get(v.entries, "metadata")) == Success(r.value.metadata.value)
      && DecodedFrom(v.entries, "resourceGroups", ResourceGroupOf, r.value.resourceGroups.value)
    ensures v != Nil ==>
      (r.Success? <==> (v.Hash? &&
         SourceMapOf(Get(v.entries, "name")).Success? &&
         SourceMapOf(Get(v.entries, "description")).Success? &&
         NodeOf(Get(v.entries, "metadata")).Success? &&
         EachIfKey(v.entries, "resourceGroups", ResourceGroupOf).Success?))
    ensures r.Success? && v != Nil ==>
      && SourceMapOf(Get(v.entries, "name")) == Success(r.value.name.value)
      && SourceMapOf(Get(v.entries, "description")) == Success(r.value.description.value)
  {
    if v == Nil then Success(Blueprint(None, None, None, None))
    else
      var es :- AstLoader.HashEntries(v);
      var name :- SourceMapOf(Get(es, "name"));
      var description :- SourceMapOf(Get(es, "description"));
      var metadata :- NodeOf(Get(es, "metadata"));
      var resourceGroups :- EachIfKey(es, "resourceGroups", ResourceGroupOf);
      Success(Blueprint(Some(name), Some(description), Some(metadata), Some(resourceGroups)))
  }

  /** A part whose key is absent gets an empty position list, never `nil`. */
  lemma AbsentPartIsEmpty(es: seq<Entry>, key: string)
    requires !Has(es, key)
    ensures SourceMapOf(Get(es, key)) == Success([])
  {
  }

  /** A blueprint without a name has the empty list as its name's positions. */
  lemma UnnamedBlueprint(v: Value)
    requires v.Hash? && !Has(v.entries, "name")
    requires BlueprintOf(v).Success?
    ensures BlueprintOf(v).value.name == Some([])
  {
    AbsentPartIsEmpty(v.entries, "name");
  }

  /**
    The source map of `# My API` as a tree holding only the name's positions:
    the name spans 8 characters from offset 0, and the parts the tree leaves
    out get empty position lists and empty child lists.
   */
  lemma SampleNamedBlueprint()
    ensures
      var span := Arr([Int(0), Int(8)]);
      BlueprintOf(Hash([Entry(StrKey("name"), Arr([span]))]))
        == Success(Blueprint(Some([span]), Some([]), Some(Node([])), Some([])))
  {
    var span := Arr([Int(0), Int(8)]);
    var es := [Entry(StrKey("name"), Arr([span]))];
    assert Get(es, "name") == Arr([span]);
    assert !Has(es, "description") && !Has(es, "metadata") && !Has(es, "resourceGroups");
  }

  // ---------------------------------------------------------------------
  // The constructors as the Ruby code runs them

  /** `SourceMap#initialize`: `self << position` for each position. */
  method NewSourceMap(v: Value) returns (r: Result<SourceMap, Error>)
    ensures r == SourceMapOf(v)
  {
    if v == Nil {
      return Success([]);
    }
    var positions :- AstLoader.EachOf(v);
    var positionsCopy: SourceMap := [];
    for i := 0 to |positions|
      invariant positionsCopy == positions[..i]
    {
      positionsCopy := positionsCopy + [positions[i]];
    }
    assert positions[..|positions|] == positions;
    return Success(positionsCopy);
  }

  /** The `each` loop that decodes one `SourceMap` per entry. */
  method NewSourceMaps(xs: seq<Value>) returns (r: Result<seq<SourceMap>, Error>)
    ensures r == AstLoader.LoadEach(xs, SourceMapOf)
  {
    var maps: seq<SourceMap> := [];
    for i := 0 to |xs|
      invariant AstLoader.LoadEach(xs[..i], SourceMapOf) == Success(maps)
    {
      var positionList := NewSourceMap(xs[i]);
      if positionList.Failure? {
        AstLoader.LoadEachFailsAt(xs, i, SourceMapOf);
        return Failure(positionList.error);
      }
      AstLoader.LoadEachSnoc(xs, i, SourceMapOf, maps, positionList.value);
      maps := maps + [positionList.value];
    }
    assert xs[..|xs|] == xs;
    return Success(maps);
  }

  /** `Node#initialize` */
  method NewNode(v: Value) returns (r: Result<Node, Error>)
    ensures r == NodeOf(v)
  {
    if v == Nil {
      return Success(Node([]));
    }
    var xs :- AstLoader.EachOf(v);
    var maps :- NewSourceMaps(xs);
    return Success(Node(maps));
  }

  method NewValueSourceMap(v: Value) returns (r: Result<SourceMap, Error>)
    ensures r == ValueSourceMapOf(v)
  {
    var es :- AstLoader.HashEntries(v);
    r := NewSourceMap(Get(es, "value"));
  }

  /** `Parameter#initialize` */
  method NewParameter(v: Value) returns (r: Result<Parameter, Error>)
    ensures r == ParameterOf(v)
  {
    var es :- AstLoader.HashEntries(v);
    var name :- NewSourceMap(Get(es, "name"));
    var description :- NewSourceMap(Get(es, "description"));
    var paramType :- NewSourceMap(Get(es, "type"));
    var use :- NewSourceMap(Get(es, "required"));
    var defaultValue :- NewSourceMap(Get(es, "default"));
    var exampleValue :- NewSourceMap(Get(es, "example"));
    var values: seq<SourceMap> := [];
    if Has(es, "values") {
      var xs :- AstLoader.EachOf(Get(es, "values"));
      for i := 0 to |xs|
        invariant AstLoader.LoadEach(xs[..i], ValueSourceMapOf) == Success(values)
      {
        var value := NewValueSourceMap(xs[i]);
        if value.Failure? {
          AstLoader.LoadEachFailsAt(xs, i, ValueSourceMapOf);
          return Failure(value.error);
        }
        AstLoader.LoadEachSnoc(xs, i, ValueSourceMapOf, values, value.value);
        values := values + [value.value];
      }
      assert xs[..|xs|] == xs;
    }
    return Success(Parameter(name, description, paramType, use, defaultValue, exampleValue, values));
  }

  /** `Parameters#initialize` */
  method NewParameters(v: Value) returns (r: Result<Parameters, Error>)
    ensures r == ParametersOf(v)
  {
    if v == Nil {
      return Success(Parameters([]));
    }
    var xs :- AstLoader.EachOf(v);
    var ps: seq<Parameter> := [];
    for i := 0 to |xs|
      invariant AstLoader.LoadEach(xs[..i], ParameterOf) == Success(ps)
    {
      var p := NewParameter(xs[i]);
      if p.Failure? {
        AstLoader.LoadEachFailsAt(xs, i, ParameterOf);
        return Failure(p.error);
      }
      AstLoader.LoadEachSnoc(xs, i, ParameterOf, ps, p.value);
      ps := ps + [p.value];
    }
    assert xs[..|xs|] == xs;
    return Success(Parameters(ps));
  }

  /** `Payload#initialize` */
  method NewPayload(v: Value) returns (r: Result<Payload, Error>)
    ensures r == PayloadOf(v)
  {
    if v == Nil {
      return Success(Payload(None, None, None, None, None, None));
    }
    var es :- AstLoader.HashEntries(v);
    var name :- NewSourceMap(Get(es, "name"));
    var description :- NewSourceMap(Get(es, "description"));
    var body :- NewSourceMap(Get(es, "body"));
    var schema :- NewSourceMap(Get(es, "schema"));
    var reference :- NewSourceMap(Get(es, "reference"));
    var headers :- NewNode(Get(es, "headers"));
    return Success(Payload(Some(name), Some(description), Some(headers), Some(body), Some(schema), Some(reference)));
  }

  /** `sourcemap.key?(key) && sourcemap[key].each { |payload| list << Payload.new(payload) }` */
  method NewPayloads(es: seq<Entry>, key: string) returns (r: Result<seq<Payload>, Error>)
    ensures r == EachIfKey(es, key, PayloadOf)
  {
    if !Has(es, key) {
      return Success([]);
    }
    var xs :- AstLoader.EachOf(Get(es, key));
    var payloads: seq<Payload> := [];
    for i := 0 to |xs|
      invariant AstLoader.LoadEach(xs[..i], PayloadOf) == Success(payloads)
    {
      var p := NewPayload(xs[i]);
      if p.Failure? {
        AstLoader.LoadEachFailsAt(xs, i, PayloadOf);
        return Failure(p.error);
      }
      AstLoader.LoadEachSnoc(xs, i, PayloadOf, payloads, p.value);
      payloads := payloads + [p.value];
    }
    assert xs[..|xs|] == xs;
    return Success(payloads);
  }

  /** `TransactionExample#initialize` */
  method NewTransactionExample(v: Value) returns (r: Result<TransactionExample, Error>)
    ensures r == TransactionExampleOf(v)
  {
    var es :- AstLoader.HashEntries(v);
    var name :- NewSourceMap(Get(es, "name"));
    var description :- NewSourceMap(Get(es, "description"));
    var requests :- NewPayloads(es, "requests");
    var responses :- NewPayloads(es, "responses");
    return Success(TransactionExample(name, description, requests, responses));
  }

  /** `Action#initialize` */
  method NewAction(v: Value) returns (r: Result<Action, Error>)
    ensures r == ActionOf(v)
  {
    if v == Nil {
      return Success(Action(None, None, None, None, None));
    }
    var es :- AstLoader.HashEntries(v);
    var name :- NewSourceMap(Get(es, "name"));
    var description :- NewSourceMap(Get(es, "description"));
    var httpMethod :- NewSourceMap(Get(es, "method"));
    var parameters :- NewParameters(Get(es, "parameters"));
    var examples: seq<TransactionExample> := [];
    if Has(es, "examples") {
      var xs :- AstLoader.EachOf(Get(es, "examples"));
      for i := 0 to |xs|
        invariant AstLoader.LoadEach(xs[..i], TransactionExampleOf) == Success(examples)
      {
        var e := NewTransactionExample(xs[i]);
        if e.Failure? {
          AstLoader.LoadEachFailsAt(xs, i, TransactionExampleOf);
          return Failure(e.error);
        }
        AstLoader.LoadEachSnoc(xs, i, TransactionExampleOf, examples, e.value);
        examples := examples + [e.value];
      }
      assert xs[..|xs|] == xs;
    }
    return Success(Action(Some(name), Some(description), Some(httpMethod), Some(parameters), Some(examples)));
  }

  /** `sourcemap.key?('actions') && sourcemap['actions'].each { |action| @actions << Action.new(action) }` */
  method NewActions(es: seq<Entry>) returns (r: Result<seq<Action>, Error>)
    ensures r == EachIfKey(es, "actions", ActionOf)
  {
    if !Has(es, "actions") {
      return Success([]);
    }
    var xs :- AstLoader.EachOf(Get(es, "actions"));
    var actions: seq<Action> := [];
    for i := 0 to |xs|
      invariant AstLoader.LoadEach(xs[..i], ActionOf) == Success(actions)
    {
      var a := NewAction(xs[i]);
      if a.Failure? {
        AstLoader.LoadEachFailsAt(xs, i, ActionOf);
        return Failure(a.error);
      }
      AstLoader.LoadEachSnoc(xs, i, ActionOf, actions, a.value);
      actions := actions + [a.value];
    }
    assert xs[..|xs|] == xs;
    return Success(actions);
  }

  /** `Resource#initialize` */
  method NewResource(v: Value) returns (r: Result<Resource, Error>)
    ensures r == ResourceOf(v)
  {
    if v == Nil {
      return Success(Resource(None, None, None, None, None, None));
    }
    var es :- AstLoader.HashEntries(v);
    var name :- NewSourceMap(Get(es, "name"));
    var description :- NewSourceMap(Get(es, "description"));
    var uriTemplate :- NewSourceMap(Get(es, "uriTemplate"));
    var model :- NewPayload(Get(es, "model"));
    var parameters :- NewParameters(Get(es, "parameters"));
    var actions :- NewActions(es);
    return Success(Resource(Some(name), Some(description), Some(uriTemplate), Some(model), Some(parameters), Some(actions)));
  }

  /** `ResourceGroup#initialize` */
  method NewResourceGroup(v: Value) returns (r: Result<ResourceGroup, Error>)
    ensures r == ResourceGroupOf(v)
  {
    var es :- AstLoader.HashEntries(v);
    var name :- NewSourceMap(Get(es, "name"));
    var description :- NewSourceMap(Get(es, "description"));
    var resources: seq<Resource> := [];
    if Has(es, "resources") {
      var xs :- AstLoader.EachOf(Get(es, "resources"));
      for i := 0 to |xs|
        invariant AstLoader.LoadEach(xs[..i], ResourceOf) == Success(resources)
      {
        var res := NewResource(xs[i]);
        if res.Failure? {
          AstLoader.LoadEachFailsAt(xs, i, ResourceOf);
          return Failure(res.error);
        }
        AstLoader.LoadEachSnoc(xs, i, ResourceOf, resources, res.value);
        resources := resources + [res.value];
      }
      assert xs[..|xs|] == xs;
    }
    return Success(ResourceGroup(name, description, resources));
  }

  /** `Blueprint#initialize` */
  method NewBlueprint(v: Value) returns (r: Result<Blueprint, Error>)
    ensures r == BlueprintOf(v)
  {
    if v == Nil {
      return Success(Blueprint(None, None, None, None));
    }
    var es :- AstLoader.HashEntries(v);
    var name :- NewSourceMap(Get(es, "name"));
    var description :- NewSourceMap(Get(es, "description"));
    var metadata :- NewNode(Get(es, "metadata"));
    var groups: seq<ResourceGroup> := [];
    if Has(es, "resourceGroups") {
      var xs :- AstLoader.EachOf(Get(es, "resourceGroups"));
      for i := 0 to |xs|
        invariant AstLoader.LoadEach(xs[..i], ResourceGroupOf) == Success(groups)
      {
        var g := NewResourceGroup(xs[i]);
        if g.Failure? {
          AstLoader.LoadEachFailsAt(xs, i, ResourceGroupOf);
          return Failure(g.error);
        }
        AstLoader.LoadEachSnoc(xs, i, ResourceGroupOf, groups, g.value);
        groups := groups + [g.value];
      }
      assert xs[..|xs|] == xs;
    }
    return Success(Blueprint(Some(name), Some(description), Some(metadata), Some(groups)));
  }
}
