# Relay field builders: mutations and plural identifying root fields

This project models two builders of Relay-style GraphQL field configurations and
the helper they share.

- `mutationWithClientMutationId` builds a mutation field. It augments the caller's
  input and output field maps with a `clientMutationId: NonNull(String)` field. It
  names the generated types `<name>Input` and `<name>Payload`. It declares one
  argument, `input`. Its resolver runs the caller's `mutateAndGetPayload` and
  echoes the input's `clientMutationId` onto the payload object, in place.
- `pluralIdentifyingRootField` builds a batch lookup field. Its one argument is a
  required list of required inputs, and its type is a list of the output type. Its
  resolver rejects a non-array argument. Otherwise it resolves every element and
  returns the results in input order; one failing element fails the whole batch.
- `nonNull` wraps an input type in `NonNull` unless it already is one.

Layout:

- `js_values.dfy` (module `JsValues`): JavaScript values, property reads, the
  settled outcome of a promise (`Result`), and `JsObject`, an object whose
  properties are written in place.
- `graphql.dfy` (module `GraphQL`): the external GraphQL type library's terms.
  Scalar, list, non-null, object and input-object types are plain constructors,
  compared structurally.
- `mutation.dfy` (module `Mutation`): `resolveMaybeThunk`, the augmented field
  maps, the builder and its resolver.
- `plural.dfy` (module `Plural`): `nonNull`, the builder, `Promise.all` over settled
  outcomes, and the resolver.

A resolver's `context` is any JavaScript value and its `info` is an opaque record.
Both are only forwarded to the user callbacks. A user callback is a function from
its arguments to the settled outcome of what it returns: a value, or a rejection
with a cause.

## Model

| member | source | states |
|---|---|---|
| `Mutation.ResolveMaybeThunk` | src/mutation/mutation.js:63-65 | a thunk is called and its result returned; a value given directly is returned unchanged |
| `Mutation.DirectAndThunkAgree` | src/mutation/mutation.js:63-65 | giving a map directly and giving a thunk that returns it resolve to the same map |
| `Mutation.AugmentFields` | src/mutation/mutation.js:96-107 | the augmented map's keys are the caller's keys plus `clientMutationId`; that entry is `NonNull(String)` even if the caller declared it otherwise; every other caller field is kept unchanged |
| `Mutation.AugmentationUnique` | src/mutation/mutation.js:96-101 | the key/type/unchanged description of an augmented map determines it completely |
| `Mutation.AugmentFieldsSize` | src/mutation/mutation.js:96-101 | the augmented map has one entry more than the caller's, or as many if the caller already declared `clientMutationId`, so there is exactly one such entry |
| `Mutation.WriteForgetsOldEntry` | src/mutation/mutation.js:96-101 | writing a key over two objects that agree on every other key makes them equal, whatever either held under that key |
| `Mutation.AugmentIgnoresCallerEntry` | src/mutation/mutation.js:96-101 | what the caller declared under `clientMutationId`, or leaving it out, does not change the augmented map |
| `Mutation.AugmentFieldsIdempotent` | src/mutation/mutation.js:102-107 | augmenting an augmented map changes nothing |
| `Mutation.GeneratedTypeNamesDistinct` | src/mutation/mutation.js:109-117 | the payload type name of any built mutation field differs from the input type name of any built mutation field, its own included |
| `Mutation.GeneratedTypeNamesInjective` | src/mutation/mutation.js:109-117 | mutation fields built with different names have differently named payload types and differently named input types |
| `Mutation.MutationWithClientMutationId` | src/mutation/mutation.js:92-123 | the field type is an object type named `name + "Payload"` over the augmented output map; the only argument is `input`, a `NonNull` input-object type named `name + "Input"` over the augmented input map; no description |
| `Mutation.EchoClientMutationId` | src/mutation/mutation.js:126-128 | after the write, the payload's `clientMutationId` is the input's (`undefined` if absent) and every other payload property keeps its value; no other key is added |
| `Mutation.EchoIgnoresPayloadToken` | src/mutation/mutation.js:127 | the echoed payload is the same whatever `mutateAndGetPayload` set under `clientMutationId`, or if it left it out |
| `Mutation.EchoIdempotent` | src/mutation/mutation.js:127 | echoing the same input's token twice equals echoing it once |
| `Mutation.PayloadTransform.constructor` | src/mutation/mutation.js:95 | wrapping the caller's `mutateAndGetPayload` starts with no calls made |
| `Mutation.PayloadTransform.Invoke` | src/mutation/mutation.js:125 | one call of `mutateAndGetPayload` yields its outcome for the given input, context and info, and adds one to the transform's call count |
| `Mutation.ResolveMutation` | src/mutation/mutation.js:124-130 | `mutateAndGetPayload` is invoked exactly once (the call count goes up by one); the result is its outcome for the resolver's input, context and info: the same rejection cause, or the same payload object, whose properties become the echoed ones; nothing else is written (the one requires only says that the payload object exists, which every object a program holds does) |
| `Mutation.AddTodoScenario` | src/mutation/mutation.js:124-129 | resolving input `{text: "a", clientMutationId: "1"}` against a transform whose payload is `{todo: {text: "a"}}` fulfils with a payload `{todo: {text: "a"}, clientMutationId: "1"}` |
| `JsValues.Get` | src/node/plural.js:51 | reading a property yields its value, or `undefined` when the key is absent |
| `JsValues.JsObject.SetProperty` | src/mutation/mutation.js:127 | an assignment `o[key] = v` sets that one property and leaves all other properties as they were |
| `Plural.NonNullOf` | src/node/plural.js:74-80 | the result is always non-null; a `NonNull` type is returned as it is, and any other type `t` becomes `NonNull(t)` |
| `Plural.NonNullOfIdempotent` | src/node/plural.js:74-80 | `nonNull(nonNull(t)) == nonNull(t)` |
| `Plural.NonNullOfNoDoubleWrap` | src/node/plural.js:74-80 | the result is `NonNull(NonNull(_))` only if the argument already was; the type under the outer wrapper is unchanged |
| `Plural.NonNullOfFixedPoints` | src/node/plural.js:74-80 | `nonNull(t) == t` exactly when `t` is already `NonNull` |
| `Plural.PluralIdentifyingRootField` | src/node/plural.js:35-49 | the argument map has exactly the key `argName`, of type `NonNull(List(nonNull(inputType)))`; the field type is `List(outputType)`; the description is copied through |
| `Plural.BatchArgumentTightened` | src/node/plural.js:38-45 | the batch argument is a required list of required elements over the caller's input type, and a non-null input type is not wrapped twice |
| `Plural.All` | src/node/plural.js:59-63 | the batch succeeds exactly when every element succeeds, and then holds every element's value at the element's position with the same length; otherwise it fails with the cause of a failed element |
| `Plural.ResolvePlural` | src/node/plural.js:50-64 | a non-array argument (or a missing one) fails with an error carrying that value; for an array, success exactly when every `resolveSingleInput(inputs[i])` succeeds, with output length equal to input length and `output[i]` its value in input order, null results kept in place; otherwise failure with one element's cause |
| `Plural.NonArrayIgnoresResolver` | src/node/plural.js:51-58 | for a non-array argument the outcome does not depend on `resolveSingleInput` at all, so no element is resolved |
| `Plural.UsersInOrder` | src/node/plural.js:59-63 | `ids = ["x", "y"]` resolves to the lookup of `"x"` followed by the lookup of `"y"` |

## Left out

- Promises and the event loop. `Promise.resolve`, `.then` and `Promise.all` become synchronous settled outcomes (`Result`), keeping only order and failure propagation. Completion order, and so the concurrent fan-out, is not modelled.
- Plural.All: when several elements fail, `Promise.all` rejects with whichever rejection settles first, which depends on timing. The model returns the lowest-index failure, and its contract promises only that the cause belongs to some failed element.
- Laziness of the field-map thunks. The external library decides when to force them. The model forces them when the builder runs, and the type terms hold the forced maps.
- The external GraphQL library (`GraphQLObjectType`, `GraphQLInputObjectType`, `GraphQLList`, `GraphQLNonNull`, `GraphQLString`). These are uninterpreted constructors; object identity of `new GraphQLNonNull(...)` is structural equality, and `instanceof GraphQLNonNull` is a constructor test.
- Mutation.ResolveMutation: user callbacks are modelled without effects. The `input` object is an immutable map, so a transform that writes to `input` before the echo reads `input.clientMutationId` is not captured.
- Mutation.ResolveMutation: a transform that throws synchronously and one whose promise rejects both give the same `Failure`. In the source the throw escapes the resolver before `Promise.resolve` is reached, while a rejection becomes a rejected promise.
- Plural.ResolvePlural: user callbacks are modelled without effects, and a synchronous throw is not told apart from a rejection. In the source, a throw from `resolveSingleInput` at element k stops `inputs.map`, so later elements are never called. The non-array error is thrown by the resolver rather than returned as a rejected promise. The model returns both as a `Failure`, and does not count calls of `resolveSingleInput`.
- Mutation.ResolveMutation: the payload is taken to be an object, as the Flow type `mutationFn` requires. A `null` or primitive payload, for which the property write would throw, is not modelled.
- Field declarations keep only `type` and `description`. Other properties (`args`, `resolve`, `defaultValue`, `deprecationReason`) are carried by the whole declaration being copied, and are not represented.
- The wording of the plural error message, which is built by string interpolation and `typeof`. The error value carries the offending value instead.
- JavaScript numbers are integers here; floating point is not modelled.
- Flow type-only declarations (`mutationFn`, `RelayFieldConfig`, `RelayResolveInfo`, `PluralIdentifyingRootFieldConfig`'s field types) beyond what the datatypes state. `context` and `info` are only forwarded and never inspected.
- gulpfile.js is build plumbing with no logic; it is not part of this model.
