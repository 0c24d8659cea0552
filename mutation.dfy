/** `mutationWithClientMutationId`: builds the field configuration of a Relay
    mutation. The caller's input and output field maps are each augmented with
    a `clientMutationId: NonNull(String)` field, the generated types are named
    `<name>Input` and `<name>Payload`, the field takes one argument `input`,
    and its resolver echoes the input's `clientMutationId` onto the payload the
    caller's `mutateAndGetPayload` produced. */
module Mutation {
  import opened JsValues
  import opened GraphQL

  const ClientMutationId: string := "clientMutationId"

  /** The declaration written into both augmented maps:
      `{type: new GraphQLNonNull(GraphQLString)}`. */
  const ClientMutationIdField: FieldDecl := FieldDecl(NonNull(GraphQLString), None)

  /** A value given either directly or as a zero-argument function producing it.
      The builder uses it only for field maps, which are never functions, so a
      `Direct` value is exactly what the `typeof ... === 'function'` test passes
      through; for a `T` that is itself a function type the two would differ. */
  datatype MaybeThunk<T> = Direct(value: T) | Thunk(force: () -> T)

  /** `resolveMaybeThunk`: calls a thunk, passes any other value through. */
  function ResolveMaybeThunk<T>(thingOrThunk: MaybeThunk<T>): (r: T)
    ensures thingOrThunk.Direct? ==> r == thingOrThunk.value
    ensures thingOrThunk.Thunk? ==> r == thingOrThunk.force()
  {
    match thingOrThunk
    case Direct(v) => v
    case Thunk(f) => f()
  }

  /** Supplying a field map directly and supplying a thunk that returns it are
      indistinguishable to the builder. */
  lemma DirectAndThunkAgree(fields: FieldMap)
    ensures ResolveMaybeThunk(Thunk(() => fields)) == ResolveMaybeThunk(Direct(fields)) == fields
  {
  }

  /** `aug` is `fields` with the `clientMutationId` entry added: the caller's
      keys plus `clientMutationId`, that entry a non-null string, and every other
      caller field kept as declared. */
  ghost predicate IsAugmentationOf(aug: FieldMap, fields: FieldMap)
  {
    && aug.Keys == fields.Keys + {ClientMutationId}
    && aug[ClientMutationId] == ClientMutationIdField
    && forall k :: k in fields && k != ClientMutationId ==> aug[k] == fields[k]
  }

  /** `{...fields, clientMutationId: {type: new GraphQLNonNull(GraphQLString)}}`:
      the spread comes first, so the injected entry overrides any caller entry
      of the same name. */
  function AugmentFields(fields: FieldMap): (r: FieldMap)
    ensures IsAugmentationOf(r, fields)
  {
    fields[ClientMutationId := ClientMutationIdField]
  }

  /** The augmentation of a map is determined by the map: any two maps meeting
      the description of `IsAugmentationOf` are equal. */
  lemma AugmentationUnique(a1: FieldMap, a2: FieldMap, fields: FieldMap)
    requires IsAugmentationOf(a1, fields) && IsAugmentationOf(a2, fields)
    ensures a1 == a2
  {
  }

  /** The augmented map has one more entry than the caller's, unless the caller
      already declared `clientMutationId`, in which case it has as many. */
  lemma AugmentFieldsSize(fields: FieldMap)
    ensures ClientMutationId in fields ==> |AugmentFields(fields)| == |fields|
    ensures ClientMutationId !in fields ==> |AugmentFields(fields)| == |fields| + 1
  {
  }

  /** Writing `key` over an object literal or an object erases whatever was
      there: two maps that agree away from `key` agree after the write. */
  lemma WriteForgetsOldEntry<V>(m1: map<string, V>, m2: map<string, V>, key: string, v: V)
    requires m1 - {key} == m2 - {key}
    ensures m1[key := v] == m2[key := v]
  {
    var u1, u2 := m1[key := v], m2[key := v];
    forall k | k in u1 ensures k in u2 && u1[k] == u2[k] {
      if k != key {
        assert k in m1 - {key};
        assert (m1 - {key})[k] == (m2 - {key})[k];
      }
    }
    forall k | k in u2 ensures k in u1 {
      if k != key {
        assert k in m2 - {key};
      }
    }
  }

  /** Whatever the caller declared under `clientMutationId`, or whether it
      declared it at all, the augmented map is the same. */
  lemma AugmentIgnoresCallerEntry(f1: FieldMap, f2: FieldMap)
    requires f1 - {ClientMutationId} == f2 - {ClientMutationId}
    ensures AugmentFields(f1) == AugmentFields(f2)
  {
    WriteForgetsOldEntry(f1, f2, ClientMutationId, ClientMutationIdField);
  }

  /** Augmenting an augmented map changes nothing. */
  lemma AugmentFieldsIdempotent(fields: FieldMap)
    ensures AugmentFields(AugmentFields(fields)) == AugmentFields(fields)
  {
  }

  /** `MutationConfig`: the mutation's name, its input and output field maps
      (each given directly or as a thunk), and the caller's transform, which
      maps the input object, the context and the resolve info to the settled
      outcome of the payload it returns (a payload object, or a rejection). */
  datatype MutationConfig = MutationConfig(
    name: string,
    inputFields: MaybeThunk<FieldMap>,
    outputFields: MaybeThunk<FieldMap>,
    mutateAndGetPayload: PayloadTransform)

  /** The caller's `mutateAndGetPayload`. `outcome` gives the settled outcome
      of the payload it returns for an input, a context and a resolve info;
      `calls` counts how often it has been invoked. */
  class PayloadTransform {
    const outcome: (map<string, Value>, Value, ResolveInfo) -> Result<JsObject>
    ghost var calls: nat

    constructor (outcome: (map<string, Value>, Value, ResolveInfo) -> Result<JsObject>)
      ensures this.outcome == outcome && calls == 0
    {
      this.outcome := outcome;
      calls := 0;
    }

    /** One invocation `mutateAndGetPayload(input, context, info)`. */
    method Invoke(input: map<string, Value>, context: Value, info: ResolveInfo) returns (r: Result<JsObject>)
      modifies this`calls
      ensures r == outcome(input, context, info)
      ensures calls == old(calls) + 1
    {
      r := outcome(input, context, info);
      calls := calls + 1;
    }
  }

  /** `mutationWithClientMutationId`, without its `resolve` closure (that is
      `ResolveMutation`): the field's type is the object type `<name>Payload`
      over the augmented output fields, and its only argument is `input`, a
      non-null `<name>Input` over the augmented input fields. */
  function MutationWithClientMutationId(config: MutationConfig): (f: FieldConfig)
    ensures f.typ.ObjectType? && f.typ.name == config.name + "Payload"
    ensures IsAugmentationOf(f.typ.fields, ResolveMaybeThunk(config.outputFields))
    ensures f.args.Keys == {"input"}
    ensures f.args["input"].typ.NonNull?
    ensures f.args["input"].typ.ofType.InputObjectType?
    ensures f.args["input"].typ.ofType.name == config.name + "Input"
    ensures IsAugmentationOf(f.args["input"].typ.ofType.fields, ResolveMaybeThunk(config.inputFields))
    ensures f.description == None
  {
    var outputType := ObjectType(config.name + "Payload", AugmentFields(ResolveMaybeThunk(config.outputFields)));
    var inputType := InputObjectType(config.name + "Input", AugmentFields(ResolveMaybeThunk(config.inputFields)));
    FieldConfig(outputType, map["input" := FieldDecl(NonNull(inputType), None)], None)
  }

  /** The name of the payload type a mutation field is built with. */
  function PayloadTypeName(config: MutationConfig): string
  {
    MutationWithClientMutationId(config).typ.name
  }

  /** The name of the input type a mutation field's `input` argument has. */
  function InputTypeName(config: MutationConfig): string
  {
    MutationWithClientMutationId(config).args["input"].typ.ofType.name
  }

  /** No mutation's payload type shares its name with any mutation's input
      type, its own included. */
  lemma GeneratedTypeNamesDistinct(c1: MutationConfig, c2: MutationConfig)
    ensures PayloadTypeName(c1) != InputTypeName(c2)
  {
    var p, i := PayloadTypeName(c1), InputTypeName(c2);
    assert p == c1.name + "Payload" && i == c2.name + "Input";
    assert p[|p| - 1] == 'd';
    assert i[|i| - 1] == 't';
  }

  lemma SuffixCancels(a: string, b: string, suffix: string)
    requires a + suffix == b + suffix
    ensures a == b
  {
    assert a == (a + suffix)[..|a|];
    assert b == (b + suffix)[..|b|];
  }

  /** Mutations with different names build differently named payload types and
      differently named input types. */
  lemma GeneratedTypeNamesInjective(c1: MutationConfig, c2: MutationConfig)
    requires c1.name != c2.name
    ensures PayloadTypeName(c1) != PayloadTypeName(c2)
    ensures InputTypeName(c1) != InputTypeName(c2)
  {
    if PayloadTypeName(c1) == PayloadTypeName(c2) {
      SuffixCancels(c1.name, c2.name, "Payload");
    }
    if InputTypeName(c1) == InputTypeName(c2) {
      SuffixCancels(c1.name, c2.name, "Input");
    }
  }

  /** The payload's properties after `payload.clientMutationId =
      input.clientMutationId`: the input's token (or `undefined` if it has none)
      replaces whatever the payload held under that key, and every other
      property is kept. */
  function EchoClientMutationId(payload: map<string, Value>, input: map<string, Value>): (r: map<string, Value>)
    ensures r.Keys == payload.Keys + {ClientMutationId}
    ensures r[ClientMutationId] == Get(input, ClientMutationId)
    ensures forall k :: k in payload && k != ClientMutationId ==> r[k] == payload[k]
  {
    payload[ClientMutationId := Get(input, ClientMutationId)]
  }

  /** The echoed payload does not depend on what the transform put under
      `clientMutationId`, nor on whether it put anything there. */
  lemma EchoIgnoresPayloadToken(p1: map<string, Value>, p2: map<string, Value>, input: map<string, Value>)
    requires p1 - {ClientMutationId} == p2 - {ClientMutationId}
    ensures EchoClientMutationId(p1, input) == EchoClientMutationId(p2, input)
  {
    WriteForgetsOldEntry(p1, p2, ClientMutationId, Get(input, ClientMutationId));
  }

  /** Echoing twice with the same input is echoing once. */
  lemma EchoIdempotent(payload: map<string, Value>, input: map<string, Value>)
    ensures EchoClientMutationId(EchoClientMutationId(payload, input), input)
         == EchoClientMutationId(payload, input)
  {
  }

  /** The objects the resolver may write: the payload, if the transform fulfilled. */
  function PayloadObjects(settled: Result<JsObject>): set<object>
  {
    if settled.Success? then {settled.value} else {}
  }

  /** The `resolve` closure of the mutation field. The transform is invoked
      exactly once; a rejection is passed on with the same cause; on fulfilment
      the very payload object it returned is returned, with its
      `clientMutationId` overwritten in place by the input's. The payload the
      transform hands back is an object that already exists when the resolver
      starts, as every object a program can pass around does. */
  method ResolveMutation(config: MutationConfig, input: map<string, Value>, context: Value, info: ResolveInfo)
      returns (r: Result<JsObject>)
    requires forall o :: o in PayloadObjects(config.mutateAndGetPayload.outcome(input, context, info)) ==> allocated(o)
    modifies config.mutateAndGetPayload`calls
    modifies PayloadObjects(config.mutateAndGetPayload.outcome(input, context, info))
    ensures config.mutateAndGetPayload.calls == old(config.mutateAndGetPayload.calls) + 1
    ensures r == config.mutateAndGetPayload.outcome(input, context, info)
    ensures r.Success? ==> r.value.props == EchoClientMutationId(old(r.value.props), input)
  {
    r := config.mutateAndGetPayload.Invoke(input, context, info);
    if r.Success? {
      r.value.SetProperty(ClientMutationId, Get(input, ClientMutationId));
    }
  }

  /** The `AddTodo` example: input `{text: "a", clientMutationId: "1"}` and a
      transform whose payload is `{todo: {text: "a"}}` resolve to that payload
      object, now `{todo: {text: "a"}, clientMutationId: "1"}`. (A Dafny
      function cannot allocate, so the transform hands back a payload object
      made beforehand.) */
  method AddTodoScenario() returns (r: Result<JsObject>)
    ensures r.Success?
    ensures r.value.props == map["todo" := Object(map["text" := Str("a")]), ClientMutationId := Str("1")]
  {
    var payload := new JsObject(map["todo" := Object(map["text" := Str("a")])]);
    var transform := new PayloadTransform((input, context, info) => Success(payload));
    var config := MutationConfig("AddTodo", Direct(map["text" := FieldDecl(GraphQLString, None)]),
                                 Direct(map["todo" := FieldDecl(Scalar("Todo"), None)]), transform);
    r := ResolveMutation(config, map["text" := Str("a"), ClientMutationId := Str("1")], Null, ResolveInfo("addTodo"));
  }
}
