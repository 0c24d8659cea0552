/** `pluralIdentifyingRootField`: builds a root field that takes a batch of
    identifying inputs and returns the batch of resolved objects in the same
    order, plus the `nonNull` helper it uses for the element type. */
module Plural {
  import opened JsValues
  import opened GraphQL

  /** `nonNull`: wraps a type in `NonNull` unless it already is one. */
  function NonNullOf(t: GType): (r: GType)
    ensures r.NonNull?
    ensures t.NonNull? ==> r == t
    ensures !t.NonNull? ==> r == NonNull(t)
  {
    if t.NonNull? then t else NonNull(t)
  }

  /** The nullable type underneath one outer `NonNull`, if any. */
  function Nullable(t: GType): GType
  {
    if t.NonNull? then t.ofType else t
  }

  /** `nonNull` is idempotent. */
  lemma NonNullOfIdempotent(t: GType)
    ensures NonNullOf(NonNullOf(t)) == NonNullOf(t)
  {
  }

  /** `nonNull` never adds a second wrapper: its result is `NonNull(NonNull(_))`
      only when its argument already was. */
  lemma NonNullOfNoDoubleWrap(t: GType)
    ensures NonNullOf(t).ofType.NonNull? ==> t.NonNull? && t.ofType.NonNull?
    ensures Nullable(NonNullOf(t)) == Nullable(t)
  {
  }

  /** A type is left unchanged by `nonNull` exactly when it is already non-null. */
  lemma NonNullOfFixedPoints(t: GType)
    ensures NonNullOf(t) == t <==> t.NonNull?
  {
  }

  /** `PluralIdentifyingRootFieldConfig`; `resolveSingleInput` maps one input
      element, the context and the resolve info to the settled outcome of the
      value it returns (possibly `null`), or to a rejection. */
  datatype PluralConfig = PluralConfig(
    argName: string,
    inputType: GType,
    outputType: GType,
    resolveSingleInput: (Value, Value, ResolveInfo) -> Result<Value>,
    description: Option<string>)

  /** `pluralIdentifyingRootField`, without its `resolve` closure (that is
      `ResolvePlural`): one argument named `argName` of type
      `NonNull(List(nonNull(inputType)))`, field type `List(outputType)`, and
      the caller's description. */
  function PluralIdentifyingRootField(config: PluralConfig): (f: FieldConfig)
    ensures f.args.Keys == {config.argName}
    ensures f.args[config.argName].typ == NonNull(List(NonNullOf(config.inputType)))
    ensures f.typ == List(config.outputType)
    ensures f.description == config.description
  {
    FieldConfig(
      List(config.outputType),
      map[config.argName := FieldDecl(NonNull(List(NonNullOf(config.inputType))), None)],
      config.description)
  }

  /** The batch argument is a required list of required elements over the
      caller's input type: a nullable input type is tightened, and a non-null
      one is not wrapped a second time. */
  lemma BatchArgumentTightened(config: PluralConfig)
    ensures var t := PluralIdentifyingRootField(config).args[config.argName].typ;
            && t.NonNull? && t.ofType.List?
            && t.ofType.ofType.NonNull?
            && Nullable(t.ofType.ofType) == Nullable(config.inputType)
            && (config.inputType.NonNull? ==> t.ofType.ofType == config.inputType)
  {
  }

  /** `Promise.all` over settled outcomes: fulfilled with every value, in
      position order, when all are fulfilled; otherwise rejected with the cause
      of one of the rejected elements. */
  function All(settled: seq<Result<Value>>): (r: Result<seq<Value>>)
    ensures r.Success? <==> forall i :: 0 <= i < |settled| ==> settled[i].Success?
    ensures r.Success? ==> |r.value| == |settled|
    ensures r.Success? ==> forall i :: 0 <= i < |settled| ==> settled[i] == Success(r.value[i])
    ensures r.Failure? ==> exists i :: 0 <= i < |settled| && settled[i] == Failure(r.error)
  {
    if settled == [] then Success([])
    else
      match settled[0]
      case Failure(e) => Failure(e)
      case Success(v) =>
        match All(settled[1..])
        case Failure(e) =>
          assert settled[1..][0] == settled[1];
          Failure(e)
        case Success(vs) => Success([v] + vs)
  }

  /** The `resolve` closure of the plural field. A batch argument that is not
      an array (absent arguments read as `undefined`) is rejected with an error
      carrying the value; otherwise every element is resolved and the results
      are collected by `All`, so the output has the input's length and order. */
  function ResolvePlural(config: PluralConfig, args: map<string, Value>, context: Value, info: ResolveInfo)
    : (r: Result<seq<Value>>)
    ensures !Get(args, config.argName).Array? ==> r == Failure(NotAnArray(Get(args, config.argName)))
    ensures Get(args, config.argName).Array? ==>
              var inputs := Get(args, config.argName).elems;
              && (r.Success? <==>
                    forall i :: 0 <= i < |inputs| ==> config.resolveSingleInput(inputs[i], context, info).Success?)
              && (r.Success? ==> |r.value| == |inputs|)
              && (r.Success? ==>
                    forall i :: 0 <= i < |inputs| ==>
                      config.resolveSingleInput(inputs[i], context, info) == Success(r.value[i]))
              && (r.Failure? ==>
                    exists i :: 0 <= i < |inputs| &&
                      config.resolveSingleInput(inputs[i], context, info) == Failure(r.error))
  {
    var uncheckedInputs := Get(args, config.argName);
    if !uncheckedInputs.Array? then
      Failure(NotAnArray(uncheckedInputs))
    else
      var inputs := uncheckedInputs.elems;
      var settled := seq(|inputs|, i requires 0 <= i < |inputs| => config.resolveSingleInput(inputs[i], context, info));
      assert forall i :: 0 <= i < |inputs| ==> settled[i] == config.resolveSingleInput(inputs[i], context, info);
      All(settled)
  }

  /** A non-array batch argument is rejected without consulting
      `resolveSingleInput`: the outcome is the same whatever that callback is. */
  lemma NonArrayIgnoresResolver(c1: PluralConfig, c2: PluralConfig, args: map<string, Value>,
                                context: Value, info: ResolveInfo)
    requires c1.argName == c2.argName
    requires !Get(args, c1.argName).Array?
    ensures ResolvePlural(c1, args, context, info) == ResolvePlural(c2, args, context, info)
  {
  }

  /** The users example: `ids = ["x", "y"]` resolved through a lookup yields
      the lookup of "x" then the lookup of "y". */
  lemma UsersInOrder(lookup: (Value, Value, ResolveInfo) -> Result<Value>, context: Value, info: ResolveInfo)
    requires lookup(Str("x"), context, info).Success?
    requires lookup(Str("y"), context, info).Success?
    ensures ResolvePlural(PluralConfig("ids", Scalar("ID"), Scalar("User"), lookup, None),
                          map["ids" := Array([Str("x"), Str("y")])], context, info)
         == Success([lookup(Str("x"), context, info).value, lookup(Str("y"), context, info).value])
  {
    var config := PluralConfig("ids", Scalar("ID"), Scalar("User"), lookup, None);
    var inputs := [Str("x"), Str("y")];
    var args := map["ids" := Array(inputs)];
    assert Get(args, config.argName) == Array(inputs);
    var r := ResolvePlural(config, args, context, info);
    assert forall i :: 0 <= i < |inputs| ==> lookup(inputs[i], context, info).Success?;
    assert r.value == [r.value[0], r.value[1]];
  }
}
