/**
 * `bindActionCreators(creatorMap, dispatch, thunkify)`: the same tree of
 * action creators, each wrapped so that calling it sends the action it
 * builds to `dispatch`, at once or, with `thunkify`, when the zero-argument
 * function it returns is run. The `dispatch` callback is a `Dispatcher`
 * object holding the log of every action it has received.
 */
module Binding {
  import opened Values
  import opened Helpers
  import opened Generator

  /**
   * The `dispatch` callback. `respond` is what it returns for an action,
   * given the actions it received before; `dispatched` is the log.
   */
  class Dispatcher {
    var dispatched: seq<Action>
    const respond: (seq<Action>, Action) -> Value

    constructor (respond: (seq<Action>, Action) -> Value)
      ensures dispatched == [] && this.respond == respond
    {
      dispatched := [];
      this.respond := respond;
    }

    /** `dispatch(action)`: logs the action once and returns the callback's value. */
    method Dispatch(a: Action) returns (r: Value)
      modifies this
      ensures dispatched == old(dispatched) + [a]
      ensures r == respond(old(dispatched), a)
    {
      r := respond(dispatched, a);
      dispatched := dispatched + [a];
    }
  }

  /** A bound creator: its declared `length`, the creator it wraps, the `dispatch` it sends to, and the mode. */
  datatype BoundCreator = BoundCreator(arity: nat, creator: ActionCreator, dispatch: Dispatcher, thunkify: bool)

  /** The zero-argument function a thunkified call returns: it remembers the creator and the arguments. */
  datatype Thunk = Thunk(creator: ActionCreator, args: seq<Value>, dispatch: Dispatcher)

  /** What calling a bound creator gives back: dispatch's value, or a deferred thunk. */
  datatype Called = Returned(value: Value) | Deferred(thunk: Thunk)

  /** The mapper that wraps one creator, keeping its `length`. */
  function BindMapper(d: Dispatcher, thunkify: bool): (ActionCreator, seq<string>) -> BoundCreator
  {
    (c: ActionCreator, path: seq<string>) => BoundCreator(c.fn.arity, c, d, thunkify)
  }

  /** `bindActionCreators`: the creator tree mapped leaf by leaf; the shape is kept. */
  function BindActionCreators(creators: Entries<ActionCreator>, d: Dispatcher, thunkify: bool): (r: Entries<BoundCreator>)
    ensures SameShape(r, creators)
  {
    MapReducerMap(creators, BindMapper(d, thunkify), [])
  }

  /**
   * Every bound leaf wraps the creator at the same path, sends to the given
   * `dispatch` in the given mode, and keeps the creator's `length` in both modes.
   */
  lemma BoundLeafWrapsCreator(creators: Entries<ActionCreator>, d: Dispatcher, thunkify: bool, p: seq<string>)
    ensures LeafAt(BindActionCreators(creators, d, thunkify), p).Some? <==> LeafAt(creators, p).Some?
    ensures LeafAt(creators, p).Some? ==>
              var b := LeafAt(BindActionCreators(creators, d, thunkify), p).value;
              var c := LeafAt(creators, p).value;
              b.creator == c && b.arity == c.fn.arity && b.dispatch == d && b.thunkify == thunkify
  {
    LeafAtMapped(creators, BindMapper(d, thunkify), [], p);
  }

  /**
   * Binding the actions of `generate`: the bound leaf at a handler's path
   * keeps a plain handler's arity and dispatches actions typed by the path.
   */
  lemma BoundGeneratedLeaf(es: Entries<Handler>, opts: Options, d: Dispatcher, thunkify: bool, p: seq<string>, h: Handler, args: seq<Value>)
    requires LeafAt(es, p) == Some(h)
    requires h.Simple? || StampsType(h.tuple)
    ensures LeafAt(BindActionCreators(Generate(es, opts).actions, d, thunkify), p).Some?
    ensures var b := LeafAt(BindActionCreators(Generate(es, opts).actions, d, thunkify), p).value;
            && (h.Simple? ==> b.arity == h.arity)
            && Call(b.creator, args).actionType == Join(PrefixPath(opts.prefix) + p)
  {
    CreatorTypeIsKeyPath(es, opts, p, h);
    BoundLeafWrapsCreator(Generate(es, opts).actions, d, thunkify, p);
  }

  /**
   * Calling a bound creator. Without `thunkify` the action is dispatched
   * once, now, and dispatch's value is returned; with it nothing is
   * dispatched and a thunk holding the call is returned.
   */
  method Invoke(b: BoundCreator, args: seq<Value>) returns (r: Called)
    modifies b.dispatch
    ensures !b.thunkify ==> b.dispatch.dispatched == old(b.dispatch.dispatched) + [Call(b.creator, args)]
    ensures !b.thunkify ==> r == Returned(b.dispatch.respond(old(b.dispatch.dispatched), Call(b.creator, args)))
    ensures b.thunkify ==> b.dispatch.dispatched == old(b.dispatch.dispatched)
    ensures b.thunkify ==> r == Deferred(Thunk(b.creator, args, b.dispatch))
  {
    if b.thunkify {
      r := Deferred(Thunk(b.creator, args, b.dispatch));
    } else {
      var v := b.dispatch.Dispatch(Call(b.creator, args));
      r := Returned(v);
    }
  }

  /** Running a thunk: the remembered call is made and its action dispatched once. */
  method RunThunk(t: Thunk) returns (v: Value)
    modifies t.dispatch
    ensures t.dispatch.dispatched == old(t.dispatch.dispatched) + [Call(t.creator, t.args)]
    ensures v == t.dispatch.respond(old(t.dispatch.dispatched), Call(t.creator, t.args))
  {
    v := t.dispatch.Dispatch(Call(t.creator, t.args));
  }

  /**
   * Deferring changes nothing about what is sent: a thunkified call followed
   * by its thunk logs the same action, exactly once, as the plain call.
   */
  method InvokeThenRun(b: BoundCreator, args: seq<Value>) returns (v: Value)
    requires b.thunkify
    modifies b.dispatch
    ensures b.dispatch.dispatched == old(b.dispatch.dispatched) + [Call(b.creator, args)]
    ensures v == b.dispatch.respond(old(b.dispatch.dispatched), Call(b.creator, args))
  {
    var r := Invoke(b, args);
    assert b.dispatch.dispatched == old(b.dispatch.dispatched);
    v := RunThunk(r.thunk);
  }
}
