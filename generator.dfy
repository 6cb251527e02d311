/**
 * `generate` and its companions: the tree of action creators and the single
 * reducer built from a handler map, the tuple-form builders `customPayload`
 * and `customAction`, and `scope`, which lifts a handler map onto one field
 * of a larger state.
 */
module Generator {
  import opened Values
  import opened Helpers

  /** The options of `generate`: an optional type prefix and an optional initial state. */
  datatype Options = Options(prefix: Option<string>, initialState: Option<Value>)

  /** An action creator: the function, and the type its `toString()` returns. */
  datatype ActionCreator = ActionCreator(fn: CreatorFn, typeName: string)

  /** Calling an action creator. */
  function Call(c: ActionCreator, args: seq<Value>): Action
  {
    c.fn.call(args)
  }

  /**
   * What `generate` returns: the actions tree, and what its reducer closes
   * over (the dispatch table and the default state).
   */
  datatype Generated = Generated(actions: Entries<ActionCreator>, table: map<string, CaseReducer>, initialState: Value)

  /** The mapper `normalizeHandler`, which ignores the path it is given. */
  function NormalizeAt(h: Handler, path: seq<string>): TupleHandler
  {
    NormalizeHandler(h)
  }

  /** The actions mapper: the creator for the `/`-joined path, whose `toString` returns that type. */
  function CreatorAt(t: TupleHandler, path: seq<string>): (c: ActionCreator)
    ensures c.typeName == Join(path)
    ensures StampsType(t) ==> forall args :: Call(c, args).actionType == c.typeName
  {
    ActionCreator(t.factory(Join(path)), Join(path))
  }

  lemma {:induction false} SameShapeTrans<A, B, C>(x: Entries<A>, y: Entries<B>, z: Entries<C>)
    requires SameShape(x, y) && SameShape(y, z)
    ensures SameShape(x, z)
    decreases Branch(x)
  {
    forall i | 0 <= i < |x| && x[i].1.Branch?
      ensures SameShape(x[i].1.entries, z[i].1.entries)
    {
      SameShapeTrans(x[i].1.entries, y[i].1.entries, z[i].1.entries);
    }
  }

  /**
   * `generate(map, options)`: normalise every leaf, flatten the normalised
   * map into the dispatch table, and map it into a same-shaped tree of
   * action creators typed by their key paths under the prefix.
   */
  function Generate(es: Entries<Handler>, opts: Options): (g: Generated)
    ensures SameShape(g.actions, es)
    ensures g.initialState == if opts.initialState.Some? then opts.initialState.value else Undefined
  {
    var normalized := MapReducerMap(es, NormalizeAt, []);
    var actions := MapReducerMap(normalized, CreatorAt, PrefixPath(opts.prefix));
    SameShapeTrans(actions, normalized, es);
    Generated(
      actions,
      ToFlatReducers(normalized, opts.prefix),
      if opts.initialState.Some? then opts.initialState.value else Undefined)
  }

  /** The state the reducer works on: `state = options.initialState` replaces only `undefined`. */
  function CurrentState(g: Generated, state: Value): Value
  {
    if state.Undefined? then g.initialState else state
  }

  /**
   * The reducer: the case reducer filed under the action's type, applied to
   * the action and then to the state; the state itself for any other type.
   * Only the table's own keys are consulted.
   */
  function Reducer(g: Generated, state: Value, action: Action): Result<Value>
  {
    if action.actionType in g.table
    then g.table[action.actionType](action)(CurrentState(g, state))
    else Ok(CurrentState(g, state))
  }

  /** Every action-creator leaf mirrors the handler leaf at the same path, typed by the prefix and that path. */
  lemma ActionsMirrorHandlers(es: Entries<Handler>, opts: Options, p: seq<string>)
    ensures LeafAt(Generate(es, opts).actions, p) ==
            match LeafAt(es, p)
            case Some(h) => Some(CreatorAt(NormalizeHandler(h), PrefixPath(opts.prefix) + p))
            case None => None
  {
    var normalized := MapReducerMap(es, NormalizeAt, []);
    LeafAtMapped(es, NormalizeAt, [], p);
    LeafAtMapped(normalized, CreatorAt, PrefixPath(opts.prefix), p);
  }

  /**
   * Each leaf's creator is typed by its key path (after a non-empty prefix),
   * its `toString()` returns that type, it stamps that type on every action
   * it builds, and a plain handler's creator keeps the handler's arity.
   */
  lemma CreatorTypeIsKeyPath(es: Entries<Handler>, opts: Options, p: seq<string>, h: Handler)
    requires LeafAt(es, p) == Some(h)
    ensures LeafAt(Generate(es, opts).actions, p).Some?
    ensures var c := LeafAt(Generate(es, opts).actions, p).value;
            && c.typeName == Join(PrefixPath(opts.prefix) + p)
            && (h.Simple? ==> c.fn.arity == h.arity)
            && (h.Simple? || StampsType(h.tuple) ==> forall args :: Call(c, args).actionType == c.typeName)
  {
    ActionsMirrorHandlers(es, opts, p);
  }

  /** The dispatch table of `generate`, described leaf by leaf of the input map. */
  lemma GeneratedTable(es: Entries<Handler>, opts: Options)
    ensures Generate(es, opts).table ==
            ToMap(Keyed(MapLeaves(Leaves(es), NormalizeAt, []), PrefixPath(opts.prefix)))
  {
    var normalized := MapReducerMap(es, NormalizeAt, []);
    LeavesMapped(es, NormalizeAt, []);
    FlatTableIsLeafTable(normalized, opts.prefix);
  }

  /**
   * The central property: with distinct types, the action built by the
   * creator at a leaf's path is typed by that path, that type is the key
   * under which the flattened table holds the leaf's case reducer, and the
   * reducer runs exactly that case reducer on it.
   */
  lemma {:induction false} CreatorRunsItsCaseReducer(es: Entries<Handler>, opts: Options, p: seq<string>, h: Handler, args: seq<Value>, state: Value)
    requires LeafAt(es, p) == Some(h)
    requires UniqueTypes(es, opts.prefix)
    requires h.Simple? || StampsType(h.tuple)
    ensures var g := Generate(es, opts);
            && LeafAt(g.actions, p).Some?
            && var a := Call(LeafAt(g.actions, p).value, args);
               && a.actionType == Join(PrefixPath(opts.prefix) + p)
               && a.actionType in g.table
               && g.table[a.actionType] == NormalizeHandler(h).reducer
               && Reducer(g, state, a) == NormalizeHandler(h).reducer(a)(CurrentState(g, state))
  {
    var g := Generate(es, opts);
    var start := PrefixPath(opts.prefix);
    CreatorTypeIsKeyPath(es, opts, p, h);
    var a := Call(LeafAt(g.actions, p).value, args);
    LeafAtInLeaves(es, p, h);
    var ls := Leaves(es);
    var j :| 0 <= j < |ls| && ls[j] == (p, h);
    var normalized := MapReducerMap(es, NormalizeAt, []);
    LeavesMapped(es, NormalizeAt, []);
    var nls := Leaves(normalized);
    assert nls[j] == (p, NormalizeHandler(h));
    forall l | j < l < |nls|
      ensures Join(start + nls[l].0) != Join(start + nls[j].0)
    {
      assert nls[l].0 == ls[l].0;
    }
    FlatTableLastWins(normalized, opts.prefix, j);
  }

  /**
   * The default parameter `state = options.initialState`: only an `undefined`
   * state is replaced, by the initial state when one is given; an unhandled
   * action then returns that default.
   */
  lemma UndefinedStateDefaults(es: Entries<Handler>, opts: Options, state: Value, a: Action)
    requires forall j :: 0 <= j < |Leaves(es)| ==> Join(PrefixPath(opts.prefix) + Leaves(es)[j].0) != a.actionType
    ensures state.Undefined? && opts.initialState.Some? ==> Reducer(Generate(es, opts), state, a) == Ok(opts.initialState.value)
    ensures state.Undefined? && opts.initialState.None? ==> Reducer(Generate(es, opts), state, a) == Ok(Undefined)
    ensures !state.Undefined? ==> Reducer(Generate(es, opts), state, a) == Ok(state)
  {
    UnknownTypeKeepsState(es, opts, state, a);
  }

  /** An action whose type no leaf has leaves the state as it is. */
  lemma UnknownTypeKeepsState(es: Entries<Handler>, opts: Options, state: Value, a: Action)
    requires forall j :: 0 <= j < |Leaves(es)| ==> Join(PrefixPath(opts.prefix) + Leaves(es)[j].0) != a.actionType
    ensures a.actionType !in Generate(es, opts).table
    ensures Reducer(Generate(es, opts), state, a) == Ok(CurrentState(Generate(es, opts), state))
  {
    var normalized := MapReducerMap(es, NormalizeAt, []);
    LeavesMapped(es, NormalizeAt, []);
    FlatTableKeys(normalized, opts.prefix, a.actionType);
  }

  /* ---------------------------------------------------------------------- */
  /* The reducer as written                                                  */
  /* ---------------------------------------------------------------------- */

  /** The names a plain object inherits from `Object.prototype`. */
  const ObjectPrototypeMembers: set<string> :=
    {"constructor", "hasOwnProperty", "isPrototypeOf", "propertyIsEnumerable",
     "toLocaleString", "toString", "valueOf", "__proto__",
     "__defineGetter__", "__defineSetter__", "__lookupGetter__", "__lookupSetter__"}

  /**
   * The reducer as the source writes it: `curriedCaseReducers[action.type]`
   * also finds the members a plain object inherits; each is truthy and gets
   * called with the action and then the state, which throws a TypeError.
   */
  function ReducerAsWritten(g: Generated, state: Value, action: Action): Result<Value>
  {
    if action.actionType in g.table then g.table[action.actionType](action)(CurrentState(g, state))
    else if action.actionType in ObjectPrototypeMembers then Thrown
    else Ok(CurrentState(g, state))
  }

  /** The two readings agree on every type that is a key or is not inherited. */
  lemma ReducerAsWrittenAgrees(g: Generated, state: Value, a: Action)
    requires a.actionType in g.table || a.actionType !in ObjectPrototypeMembers
    ensures ReducerAsWritten(g, state, a) == Reducer(g, state, a)
  {
  }

  /** An unhandled action typed "toString" throws in the source instead of leaving the state unchanged. */
  lemma InheritedTypeThrows(es: Entries<Handler>, opts: Options, state: Value)
    requires forall j :: 0 <= j < |Leaves(es)| ==> Join(PrefixPath(opts.prefix) + Leaves(es)[j].0) != "toString"
    ensures ReducerAsWritten(Generate(es, opts), state, Action("toString", None)) == Thrown
    ensures Reducer(Generate(es, opts), state, Action("toString", None)) == Ok(CurrentState(Generate(es, opts), state))
  {
    UnknownTypeKeepsState(es, opts, state, Action("toString", None));
  }

  /* ---------------------------------------------------------------------- */
  /* Tuple-form builders                                                     */
  /* ---------------------------------------------------------------------- */

  /** A user function returning a value; `arity` is its declared `length`. */
  datatype ValueFn = ValueFn(arity: nat, call: seq<Value> -> Value)

  /**
   * `customPayload(payloadCreator, payloadHandler)`: a creator whose payload
   * is `payloadCreator(...args)` and whose arity is `payloadCreator`'s, and a
   * reducer that hands the payload to `payloadHandler`.
   */
  function CustomPayload(payloadCreator: ValueFn, payloadHandler: Value -> Transform): (r: TupleHandler)
    ensures StampsType(r)
    ensures forall ty :: r.factory(ty).arity == payloadCreator.arity
    ensures forall ty, args :: r.factory(ty).call(args).payload == Some(payloadCreator.call(args))
    ensures forall a, s :: r.reducer(a)(s) == payloadHandler(PayloadOf(a))(s)
  {
    TupleHandler(
      ty => CreatorFn(payloadCreator.arity, args => Action(ty, Some(payloadCreator.call(args)))),
      a => payloadHandler(PayloadOf(a)))
  }

  /** What `payloadCreator` returns is piped into `payloadHandler`. */
  lemma CustomPayloadPipes(payloadCreator: ValueFn, payloadHandler: Value -> Transform, ty: string, args: seq<Value>, s: Value)
    ensures var r := CustomPayload(payloadCreator, payloadHandler);
            r.reducer(r.factory(ty).call(args))(s) == payloadHandler(payloadCreator.call(args))(s)
  {
  }

  /** `customAction(actionCreatorCreator, actionHandler)`: the pair itself, which normalising leaves alone. */
  function CustomAction(actionCreatorCreator: string -> CreatorFn, actionHandler: CaseReducer): (r: TupleHandler)
    ensures r.factory == actionCreatorCreator && r.reducer == actionHandler
    ensures NormalizeHandler(Tuple(r)) == r
  {
    TupleHandler(actionCreatorCreator, actionHandler)
  }

  /* ---------------------------------------------------------------------- */
  /* scope                                                                   */
  /* ---------------------------------------------------------------------- */

  /** The outer object after the inner reducer's outcome for the field `key`: `{...m, [key]: v}`, or the throw. */
  function SetField(m: map<string, Value>, key: string, inner: Result<Value>): (r: Result<Value>)
    ensures inner.Thrown? <==> r.Thrown?
    ensures inner.Ok? ==> r.value.Obj? && r.value.fields.Keys == m.Keys + {key}
    ensures inner.Ok? ==> r.value.fields[key] == inner.value
    ensures inner.Ok? ==> forall f :: f in m && f != key ==> r.value.fields[f] == m[f]
  {
    match inner
    case Ok(v) => Ok(Obj(m[key := v]))
    case Thrown => Thrown
  }

  /**
   * The scoped case reducer: `state => ({...state, [key]: inner(action)(state[key])})`.
   * On an object it replaces one field and copies the rest; reading a field
   * of `undefined` or `null` throws.
   */
  function ScopedReducer(key: string, inner: CaseReducer): (r: CaseReducer)
    ensures forall a, m :: r(a)(Obj(m)) == SetField(m, key, inner(a)(if key in m then m[key] else Undefined))
    ensures forall a :: r(a)(Undefined) == Thrown && r(a)(Null) == Thrown
  {
    a => s => ScopedState(key, inner, a, s)
  }

  /** One application of the scoped case reducer to an action and a state. */
  function ScopedState(key: string, inner: CaseReducer, a: Action, s: Value): Result<Value>
  {
    match Property(s, key)
    case Thrown => Thrown
    case Ok(x) =>
      match inner(a)(x)
      case Ok(v) => Ok(WithField(s, key, v))
      case Thrown => Thrown
  }

  /** What `scope` makes of one leaf: the normalised creator factory, and the scoped reducer. */
  function ScopeHandler(key: string, h: Handler): Handler
  {
    Tuple(TupleHandler(NormalizeHandler(h).factory, ScopedReducer(key, NormalizeHandler(h).reducer)))
  }

  function ScopeMapper(key: string): (Handler, seq<string>) -> Handler
  {
    (h: Handler, path: seq<string>) => ScopeHandler(key, h)
  }

  /** `scope(key, map)`: the same map, every leaf's reducer lifted onto the field `key`. */
  function Scope(key: string, es: Entries<Handler>): (r: Entries<Handler>)
    ensures SameShape(r, es)
  {
    MapReducerMap(es, ScopeMapper(key), [])
  }

  /** Every leaf of a scoped map keeps its creator factory, and its reducer works on the field `key`. */
  lemma ScopeKeepsCreators(key: string, es: Entries<Handler>, p: seq<string>, h: Handler)
    requires LeafAt(es, p) == Some(h)
    ensures LeafAt(Scope(key, es), p) == Some(ScopeHandler(key, h))
    ensures StampsType(NormalizeHandler(h)) ==> StampsType(ScopeHandler(key, h).tuple)
  {
    LeafAtMapped(es, ScopeMapper(key), [], p);
  }

  /**
   * `generate({[key]: scope(key, map)})`: the creator at `key` followed by a
   * leaf's path builds an action that replaces the field `key` of an object
   * state by the leaf's reducer applied to it, and keeps every other field.
   */
  lemma {:induction false} ScopedCreatorUpdatesField(key: string, es: Entries<Handler>, opts: Options, p: seq<string>, h: Handler,
                                                     args: seq<Value>, m: map<string, Value>)
    requires LeafAt(es, p) == Some(h)
    requires UniqueTypes([(key, Branch(Scope(key, es)))], opts.prefix)
    requires h.Simple? || StampsType(h.tuple)
    ensures var g := Generate([(key, Branch(Scope(key, es)))], opts);
            && LeafAt(g.actions, [key] + p).Some?
            && var a := Call(LeafAt(g.actions, [key] + p).value, args);
               && a.actionType == Join(PrefixPath(opts.prefix) + [key] + p)
               && Reducer(g, Obj(m), a) ==
                  SetField(m, key, NormalizeHandler(h).reducer(a)(if key in m then m[key] else Undefined))
  {
    var outer := [(key, Branch(Scope(key, es)))];
    var sh := ScopeHandler(key, h);
    ScopedLeafOfOuter(key, es, p, h);
    CreatorRunsItsCaseReducer(outer, opts, [key] + p, sh, args, Obj(m));
    var g := Generate(outer, opts);
    var a := Call(LeafAt(g.actions, [key] + p).value, args);
    assert NormalizeHandler(sh).reducer == ScopedReducer(key, NormalizeHandler(h).reducer);
    assert NormalizeHandler(sh).reducer(a)(Obj(m)) ==
           SetField(m, key, NormalizeHandler(h).reducer(a)(if key in m then m[key] else Undefined));
    assert PrefixPath(opts.prefix) + ([key] + p) == PrefixPath(opts.prefix) + [key] + p;
  }

  /** The scoped leaf sits at `key` followed by its path in `{[key]: scope(key, map)}`, and stamps its type. */
  lemma ScopedLeafOfOuter(key: string, es: Entries<Handler>, p: seq<string>, h: Handler)
    requires LeafAt(es, p) == Some(h)
    requires h.Simple? || StampsType(h.tuple)
    ensures LeafAt([(key, Branch(Scope(key, es)))], [key] + p) == Some(ScopeHandler(key, h))
    ensures StampsType(ScopeHandler(key, h).tuple)
  {
    var outer := [(key, Branch(Scope(key, es)))];
    ScopeKeepsCreators(key, es, p, h);
    assert StampsType(NormalizeHandler(h));
    assert p != [];
    assert ([key] + p)[0] == key && ([key] + p)[1..] == p;
    assert FindKey(KeysOf(outer), key) == Some(0);
  }
}
