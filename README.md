# curried-reducer, modelled in Dafny

curried-reducer compiles a nested map of curried case reducers into two
things:

- a tree of action creators with the same shape, where each creator is typed
  by its key path joined with `/` under an optional prefix;
- one Redux reducer that dispatches on `action.type` to the matching case
  reducer.

A leaf of the map is one of two forms:

- a plain function `(...args) => state => state'`. Its declared arity picks
  how the arguments are packed into the action's payload: none, the first
  argument, or the first N arguments as an array;
- a tuple `[type => actionCreator, action => state => state']`, built with
  `customPayload` or `customAction`.

`scope(key, map)` lifts a map's reducers onto one field of a larger object
state. `bindActionCreators` wraps every creator so that it dispatches the
action it builds, either at once or deferred behind a thunk.

The model has five modules:

- `Values` (values.dfy): the JavaScript values involved, the action
  record, the TypeError a spread or a property read can throw, and the
  spread, property-read and object-spread operations.
- `Helpers` (helpers.dfy): `normalizeHandler`, the shape-preserving walk
  `mapReducerMap`, and `toFlatReducers`. These are pure functions with
  lemmas. A handler map is a `Tree` whose branches list their entries in
  `Object.keys` order. The discriminators `Tuple?` and `Leaf?` stand for
  `isTupleHandler` and `isLeaf`. The `arity` fields stand for a function's
  `length`, which `setLength` overwrites.
- `Generator` (generator.dfy): `generate` and its reducer, `customPayload`,
  `customAction` and `scope`.
- `Binding` (binding.dfy): `bindActionCreators`. The `dispatch` callback
  is a `Dispatcher` object with a log of the actions it has received.
  Calling a bound creator, and running a thunk, are methods that append to
  that log.
- `Examples` (examples.dfy): four of the nine leaves of the repository's
  person test fixture, with the types, payloads, arities and dispatch pinned down for concrete
  paths.

Conventions:

- User handler bodies and user creator functions are uninterpreted
  function values.
- A thrown exception is the `Thrown` result.
- The reducer is a function of the table `generate` builds.

## Model

| member | source | states |
|---|---|---|
| Values.WithField | src/index.ts:136-139 | `{...state, [key]: x}` has `key` set to `x`; the other fields of an object state are kept, and any other state contributes no fields |
| Helpers.JoinSnoc | src/index.ts:51 | extending a non-empty path by one key appends `"/" + key` to its joined type |
| Helpers.PrefixPathJoin | src/index.ts:56 | the starting path `options.prefix ? [options.prefix] : []` joins to the prefix string `toFlatReducers` threads, or "" when there is none, so the two readings of the prefix agree |
| Helpers.NormalizeHandler | src/helpers.ts:37-63 | a tuple is returned unchanged. A plain handler's creators stamp the type and keep its arity. Arity 0: no payload key. Arity 1: the first argument, or `undefined`. Arity N: the first N arguments, or all of them if fewer. The reducer unpacks the payload the same way, and throws when an arity-N payload is not iterable |
| Helpers.ArgsReceived | src/helpers.ts:41-60 | a handler receives exactly the arguments given when their number is its arity; for arity N it receives min(N, count) arguments |
| Helpers.NormalizeRoundTrip | src/helpers.ts:41-62 | the reducer applied to the action the creator built calls the handler with `ArgsReceived(arity, args)`, and with `args` itself when their number is the arity |
| Helpers.NormalizeIdempotent | src/helpers.ts:38-40 | normalising an already normalised handler changes nothing |
| Helpers.MapReducerMap | src/helpers.ts:21-35 | the mapped map has the same keys in the same order, with leaves and sub-maps in the same places at every depth |
| Helpers.LeafAtMapped | src/helpers.ts:26-34 | the leaf at any path of the mapped map is the mapper applied to the original leaf at that path and to the full path; where there is no leaf, there is none after mapping |
| Helpers.LeafAtInLeaves | src/helpers.ts:26-34 | every leaf reachable by a path appears, with that path, in the depth-first list of leaves |
| Helpers.LeavesMapped | src/helpers.ts:21-35 | the depth-first leaves of the mapped map are the mapper applied to the original leaves, in the same order and with the same paths |
| Helpers.ToMapKeys | src/helpers.ts:72-77 | the object built by spreading single-key objects one after another has exactly their keys |
| Helpers.ToMapAppend | src/helpers.ts:72-77 | spreading two lists of entries one after the other equals spreading their concatenation |
| Helpers.ToMapLastWins | src/helpers.ts:72-77 | a key maps to the value of its last occurrence |
| Helpers.ToMapSize | src/helpers.ts:72-77 | with distinct keys there is one entry per occurrence |
| Helpers.FlatFoldIsLeafTable | src/helpers.ts:65-78 | the fold over one level, onto any table built so far, adds each leaf below that level under its joined path, in depth-first order |
| Helpers.FlatTableIsLeafTable | src/helpers.ts:65-78 | the flat table is the object built from the depth-first leaves, each under prefix + path joined by `/` |
| Helpers.FlatTableKeys | src/helpers.ts:65-78 | a type is a key of the flat table if and only if some leaf has that joined path; sub-maps add no entries of their own |
| Helpers.FlatTableLastWins | src/helpers.ts:72-77 | a leaf whose joined path no later leaf shares has its own case reducer in the table |
| Helpers.FlatTableSize | src/helpers.ts:65-78 | with distinct joined paths, the table has exactly one entry per leaf |
| Helpers.FlatFoldAsWrittenBelow | src/helpers.ts:69-77 | below a non-empty key so far, the source's string-threaded keys equal the joined paths |
| Helpers.FlatFoldAsWrittenTop | src/helpers.ts:69-77 | at the top with no prefix, the source's keys equal the joined paths when no sub-map sits under the empty key |
| Helpers.FlatAsWrittenAgrees | src/helpers.ts:70 | the source's table equals the path-joined one when the prefix is truthy, or when no top-level sub-map has the empty key |
| Helpers.EmptyLeadingKeyIsDropped | src/helpers.ts:70 | for `{"": {b: h}}`, the creator type is "/b", but the source files the reducer under "b" and has no "/b" entry |
| Generator.CreatorAt | src/index.ts:50-54 | the creator's `toString` gives the joined path; when the factory stamps types, every action it builds has that type |
| Generator.Generate | src/index.ts:43-57 | the actions tree has the handler map's shape; the default state is the given initial state, or `undefined` |
| Generator.ActionsMirrorHandlers | src/index.ts:44-57 | the creator at each path is the normalised handler at that path, typed by prefix + path; where there is no handler, there is no creator |
| Generator.CreatorTypeIsKeyPath | src/index.ts:50-56 | each leaf's creator reports prefix + path as its type and stamps it on its actions; a plain handler's creator keeps the handler's arity |
| Generator.GeneratedTable | src/index.ts:44-45 | the reducer's table is built from the normalised leaves of the input map, in order, keyed by their joined paths |
| Generator.CreatorRunsItsCaseReducer | src/index.ts:44-62 | with distinct types, the action from a leaf's creator carries that leaf's path as its type, that type is a key of the flattened table holding the leaf's case reducer, and the reducer runs exactly that case reducer on it |
| Generator.UndefinedStateDefaults | src/index.ts:58 | for an unhandled action: an `undefined` state gives the initial state, or `undefined` when there is none; any other state is returned unchanged |
| Generator.UnknownTypeKeepsState | src/index.ts:58-62 | a type that no leaf's path produces is not in the table, and the reducer returns the current state |
| Generator.ReducerAsWrittenAgrees | src/index.ts:59-62 | the source's lookup agrees with the own-key lookup for every type that is a key or is not an inherited member |
| Generator.InheritedTypeThrows | src/index.ts:59-62 | an unhandled action typed "toString" throws in the source, where the own-key reducer returns the state |
| Generator.CustomPayload | src/index.ts:86-93 | the creators stamp the type, have `payloadCreator`'s length, and carry `payloadCreator(...args)`; the reducer hands the payload to `payloadHandler` |
| Generator.CustomPayloadPipes | src/index.ts:86-92 | what `payloadCreator` returns is what `payloadHandler` receives |
| Generator.CustomAction | src/index.ts:110 | the result is the pair itself, which normalising leaves alone |
| Generator.SetField | src/index.ts:136-139 | the new object has the old object's keys plus `key`, `key` holds the inner result, every other field is kept, and a throw is passed on |
| Generator.ScopedReducer | src/index.ts:136-139 | on an object state the scoped reducer replaces field `key` with the inner reducer's result on that field and copies the rest; on `undefined` or `null` it throws |
| Generator.Scope | src/index.ts:131-141 | the scoped map has the original map's shape |
| Generator.ScopeKeepsCreators | src/index.ts:132-141 | each leaf of the scoped map is the scoped handler at the same path, and it still stamps types |
| Generator.ScopedLeafOfOuter | src/index.ts:131-141 | in `{[key]: scope(key, map)}` the leaf at key + path is the scoped handler of the leaf at path, and it stamps its type whenever the original handler does |
| Generator.ScopedCreatorUpdatesField | src/index.ts:131-141 | in `generate({[key]: scope(key, map)})`, the creator at key + path builds an action typed by that path; the reducer sets field `key` of an object state to the leaf's reducer applied to that field, and keeps every other field |
| Binding.Dispatcher.constructor | src/index.ts:150 | a fresh dispatch callback has received nothing |
| Binding.Dispatcher.Dispatch | src/index.ts:150 | dispatching appends the action to the log exactly once and returns the callback's value |
| Binding.BindActionCreators | src/index.ts:153-162 | the bound map has the creator map's shape |
| Binding.BoundLeafWrapsCreator | src/index.ts:153-161 | each bound leaf wraps the creator at the same path, uses the given dispatch and mode, and keeps the creator's length in both modes |
| Binding.BoundGeneratedLeaf | src/index.ts:153-161 | binding the actions of `generate` keeps a plain handler's arity, and the bound leaf sends actions typed by prefix + path |
| Binding.Invoke | src/index.ts:155-159 | without thunkify: the built action is dispatched once and dispatch's value is returned. With thunkify: nothing is dispatched, and a thunk holding the creator and the arguments is returned |
| Binding.RunThunk | src/index.ts:156-158 | running the thunk dispatches the remembered call's action exactly once |
| Binding.InvokeThenRun | src/index.ts:155-158 | a thunkified call followed by its thunk logs the same single action as a direct call |
| Examples.PersonLeaves | test/_common.ts:14-35 | the four leaves `PersonMap` keeps of the fixture are, depth first, `setName`, `setNameA`, `nested/incrementAge` and `nested/deeper/setName` |
| Examples.PersonTypesUnique | test/actions.spec.ts:54-78 | the types of those four leaves are distinct, both without a prefix and with the prefix "prefix" |
| Examples.DeeperSetNameAlice | test/integration.spec.ts:29-31 | `nested.deeper.setName("Alice")` has type "nested/deeper/setName" ("prefix/nested/deeper/setName" with the prefix) and payload "Alice", and the reducer runs that handler on "Alice" |
| Examples.SetNameAArguments | test/actions.spec.ts:29-32 | `setNameA` has length 2; called with three arguments its payload is the first two, and called with none its payload is `[]` |
| Examples.IncrementAgeHasNoPayload | test/actions.spec.ts:39-43 | `nested.incrementAge("a", "b", "c")` has length 0 and builds `{type: "nested/incrementAge"}` with no payload key |
| Examples.BindSetNameAlice | test/integration.spec.ts:110-136 | the bound `setName` has length 1; `setName("Alice")` dispatches `{type: "setName", payload: "Alice"}` once and returns dispatch's value; in thunk mode the log stays empty until the thunk runs, and then it holds that one action |

## Left out

- The zero-argument currying forms `generate()` and `scope()`, which return the function itself (src/index.ts:40-42, 128-130), are not modelled. Neither is `asMap`, the identity function (src/index.ts:68-71). They carry no behaviour beyond typing.
- src/interfaces.ts holds TypeScript types only. validateAction.ts, rollup.config.js and jest.config.js are not part of this model.
- `setLength` and the `toString` patch are modelled as fields: a creator's `arity` and an `ActionCreator`'s `typeName`. `Object.defineProperty` itself and the mutation of a shared function object are not modelled. If one user creator were returned for two types, the later `toString` assignment would win for both.
- Key order is taken as given: a branch lists its entries in `Object.keys` order. That order puts integer-like keys first, in numeric order, and the model does not compute it.
- Distinct keys: a JavaScript object cannot hold one key twice, but a `Branch` entry list may. The lemmas hold for every entry list. Where two entries share a key, `LeafAt` finds the first and the flattened table keeps the last. No object the source sees has that shape, and the central theorem's distinct-types premise excludes it.
- In the source, a leaf is any function or array. The model's `Tree` separates leaves from sub-maps by construction, so a non-function, non-array value cannot be a leaf. Cyclic maps are not modelled.
- Handler bodies, payload creators and creator factories are uninterpreted function values. An `Action` has only `type` and `payload`, so a custom creator that adds other fields is modelled by its `type` and `payload` alone. A creator that returns another function (the curried `setNameC`) is not modelled.
- Numbers are integers; JavaScript floating point is not modelled. What a user handler body throws is not modelled either; only the package's own throws are (the spread and `state[key]`).
- Values.WithField: spreading a string or an array into an object copies its indexed elements as fields. The model gives such a state no fields.
- Values.Property: in the source, a string or array state has own indexed fields and an own `length` (`["x"]["0"]` is `"x"`). The model drops these and reads `undefined` from any field of a non-object value. Properties found on the prototype are not modelled either.
- Helpers.NormalizeHandler: the arity-N spread `handler(...action.payload)` happens when the case reducer is applied to the action. In the model, the throw appears once the transform is applied to a state.
- Examples.PersonLeaves: `PersonMap` keeps four of the nine fixture leaves (test/_common.ts:14-42). It leaves out `setNameB` (a `customPayload` leaf), `setNameC` (a `customAction` leaf whose creator is curried) and the scoped `age.set`, `age.inc` and `age.nested.set`, so their types from test/actions.spec.ts:54-78 are not pinned down. The general lemmas CustomPayload, CustomAction, ScopeKeepsCreators and ScopedCreatorUpdatesField state what those leaves do.
- Binding.Dispatcher: dispatch's return value is a function of the log and the action. Any effect it has beyond that is not modelled.

## Findings

| source | as written | input that shows it | evidently intended | confidence | as-written member | corrected member |
|---|---|---|---|---|---|---|
| src/helpers.ts:70 | `prefix ? prefix + "/" + key : key`: an empty key so far adds no `/`, so a top-level sub-map under the key "" loses its leading separator | reducer map `{"": {b: h}}` with no prefix: the creator's type is "/b" (`path.join`, src/index.ts:51), but the table key is "b", so the reducer ignores the creator's action | table keys equal to the creators' joined paths | not executed | Helpers.EmptyLeadingKeyIsDropped | Generator.CreatorRunsItsCaseReducer |
| src/index.ts:59 | `curriedCaseReducers[action.type]` also finds members inherited from `Object.prototype` | there is no leaf typed "toString"; `reducer(state, {type: "toString"})` calls `Object.prototype.toString(action)`, which returns a string, and then calls that string, which throws a TypeError | an unhandled type returns the state | not executed | Generator.InheritedTypeThrows | Generator.UnknownTypeKeepsState |

Both findings keep the as-written behaviour beside the corrected one:

- `Helpers.ToFlatReducersAsWritten` is the flattening as written. `Helpers.FlatAsWrittenAgrees` shows where it matches the corrected `Helpers.ToFlatReducers`, which `Generator.Generate` uses.
- `Generator.ReducerAsWritten` is the reducer as written. `Generator.ReducerAsWrittenAgrees` shows where it matches the corrected `Generator.Reducer`.
