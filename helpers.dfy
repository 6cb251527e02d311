/**
 * The handler-map helpers: handler normalisation, the shape-preserving tree
 * walk that threads each leaf's key path, and the flattening of a normalised
 * map into the dispatch table keyed by `/`-joined paths.
 *
 * A handler map is a `Tree`: a leaf holds a handler, a branch holds the
 * object's entries in the order `Object.keys` enumerates them. The
 * discriminators `Tuple?` and `Leaf?` play the parts of `isTupleHandler` and
 * `isLeaf`, and the `arity` fields play the part of a function's `length`
 * (which `setLength` overwrites in the source).
 */
module Helpers {
  import opened Values

  /** A state transform `state => state'`; Thrown stands for an exception it raises. */
  type Transform = Value -> Result<Value>

  /** A curried case reducer `action => state => state'`. */
  type CaseReducer = Action -> Transform

  /** A function that builds an action from its arguments; `arity` is its declared `length`. */
  datatype CreatorFn = CreatorFn(arity: nat, call: seq<Value> -> Action)

  /** The tuple form: `[type => actionCreator, caseReducer]`. */
  datatype TupleHandler = TupleHandler(factory: string -> CreatorFn, reducer: CaseReducer)

  /**
   * A case handler: a plain function of declared arity `arity` whose `body`,
   * given the arguments it is called with, returns the state transform; or a
   * handler already in tuple form.
   */
  datatype Handler =
    | Simple(arity: nat, body: seq<Value> -> Transform)
    | Tuple(tuple: TupleHandler)

  /** A nested map whose leaves are values of type L. */
  datatype Tree<+L> = Leaf(value: L) | Branch(entries: seq<(string, Tree<L>)>)

  type Entries<L> = seq<(string, Tree<L>)>

  /** De facto `Object.keys`: the keys of a map, in order. */
  function KeysOf<L>(es: Entries<L>): (ks: seq<string>)
    ensures |ks| == |es|
    ensures forall i :: 0 <= i < |es| ==> ks[i] == es[i].0
  {
    seq(|es|, i requires 0 <= i < |es| => es[i].0)
  }

  /** Same keys in the same order, with leaves and sub-maps in the same places, at every level. */
  ghost predicate SameShape<A, B>(x: Entries<A>, y: Entries<B>)
    decreases Branch(x)
  {
    && KeysOf(x) == KeysOf(y)
    && forall i :: 0 <= i < |x| ==>
         && (x[i].1.Leaf? <==> y[i].1.Leaf?)
         && (x[i].1.Branch? ==> SameShape(x[i].1.entries, y[i].1.entries))
  }

  /* ---------------------------------------------------------------------- */
  /* Key paths                                                               */
  /* ---------------------------------------------------------------------- */

  /** `ks.join("/")`. */
  function Join(ks: seq<string>): string
  {
    if |ks| == 0 then ""
    else if |ks| == 1 then ks[0]
    else ks[0] + "/" + Join(ks[1..])
  }

  lemma {:induction false} JoinSnoc(ks: seq<string>, k: string)
    requires ks != []
    ensures Join(ks + [k]) == Join(ks) + "/" + k
    decreases |ks|
  {
    assert (ks + [k])[1..] == ks[1..] + [k];
    if |ks| > 1 {
      JoinSnoc(ks[1..], k);
    }
  }

  /**
   * The first path segment a prefix contributes: `prefix ? [prefix] : []`.
   * An absent or empty prefix contributes none.
   */
  function PrefixPath(prefix: Option<string>): seq<string>
  {
    if prefix.Some? && prefix.value != "" then [prefix.value] else []
  }

  /**
   * The starting path joins to the string `toFlatReducers` starts from: the
   * prefix, or "" when there is none. So both readings of the prefix agree.
   */
  lemma PrefixPathJoin(prefix: Option<string>)
    ensures Join(PrefixPath(prefix)) == if prefix.Some? then prefix.value else ""
  {
  }

  /** Where `p` leads from the root: the leaf found there, if there is one. */
  function FindKey(ks: seq<string>, k: string): (r: Option<nat>)
    ensures r.Some? ==> r.value < |ks| && ks[r.value] == k
    ensures r.None? ==> k !in ks
  {
    if ks == [] then None
    else if ks[0] == k then Some(0)
    else match FindKey(ks[1..], k)
      case Some(j) => Some(j + 1)
      case None => None
  }

  /** The leaf at key path `p` (`map[p[0]][p[1]]...`), if the path ends at a leaf. */
  function LeafAt<L>(es: Entries<L>, p: seq<string>): Option<L>
    decreases Branch(es)
  {
    if p == [] then None
    else match FindKey(KeysOf(es), p[0])
      case None => None
      case Some(i) =>
        match es[i].1
        case Leaf(a) => if |p| == 1 then Some(a) else None
        case Branch(sub) => LeafAt(sub, p[1..])
  }

  /* ---------------------------------------------------------------------- */
  /* Handler normalisation                                                   */
  /* ---------------------------------------------------------------------- */

  /** Every action its creators build carries the type the creator was made for. */
  ghost predicate StampsType(t: TupleHandler)
  {
    forall ty, args :: t.factory(ty).call(args).actionType == ty
  }

  /**
   * `normalizeHandler`: a tuple is returned as it is; a plain function of
   * arity 0, 1 or N >= 2 becomes a creator factory and a case reducer that
   * pack the arguments into a payload and unpack them again.
   */
  function NormalizeHandler(h: Handler): (r: TupleHandler)
    ensures h.Tuple? ==> r == h.tuple
    ensures h.Simple? ==> StampsType(r)
    ensures h.Simple? ==> forall ty :: r.factory(ty).arity == h.arity
    // arity 0: `{type}` with no payload key, whatever the arguments; the handler sees no argument
    ensures h.Simple? && h.arity == 0 ==>
      forall ty, args :: r.factory(ty).call(args).payload.None?
    ensures h.Simple? && h.arity == 0 ==>
      forall a, s :: r.reducer(a)(s) == h.body([])(s)
    // arity 1: the payload key is always there and holds the first argument
    ensures h.Simple? && h.arity == 1 ==>
      forall ty, args :: |args| >= 1 ==> r.factory(ty).call(args).payload == Some(args[0])
    ensures h.Simple? && h.arity == 1 ==>
      forall ty :: r.factory(ty).call([]).payload == Some(Undefined)
    ensures h.Simple? && h.arity == 1 ==>
      forall a, s :: r.reducer(a)(s) == h.body([PayloadOf(a)])(s)
    // arity N >= 2: the payload is the first N arguments, or all of them when fewer are given
    ensures h.Simple? && h.arity >= 2 ==>
      forall ty, args :: |args| > h.arity ==> r.factory(ty).call(args).payload == Some(Arr(args[..h.arity]))
    ensures h.Simple? && h.arity >= 2 ==>
      forall ty, args :: |args| <= h.arity ==> r.factory(ty).call(args).payload == Some(Arr(args))
    ensures h.Simple? && h.arity >= 2 ==>
      forall a, s :: Spread(PayloadOf(a)).Some? ==> r.reducer(a)(s) == h.body(Spread(PayloadOf(a)).value)(s)
    ensures h.Simple? && h.arity >= 2 ==>
      forall a, s :: Spread(PayloadOf(a)).None? ==> r.reducer(a)(s) == Thrown
  {
    match h
    case Tuple(t) => t
    case Simple(n, body) =>
      if n == 0 then
        TupleHandler(
          ty => CreatorFn(0, args => Action(ty, None)),
          a => body([]))
      else if n == 1 then
        TupleHandler(
          ty => CreatorFn(1, args => Action(ty, Some(if |args| > 0 then args[0] else Undefined))),
          a => body([PayloadOf(a)]))
      else
        TupleHandler(
          ty => CreatorFn(n, args => Action(ty, Some(Arr(if |args| > n then args[..n] else args)))),
          // `handler(...action.payload)`: the spread throws before any state is seen
          a => s => match Spread(PayloadOf(a))
                    case Some(xs) => body(xs)(s)
                    case None => Thrown)
  }

  /** The arguments a plain handler of arity `n` ends up called with, given the creator's arguments. */
  function ArgsReceived(n: nat, args: seq<Value>): (r: seq<Value>)
    ensures |args| == n ==> r == args
    ensures n >= 2 ==> |r| == if |args| > n then n else |args|
  {
    if n == 0 then []
    else if n == 1 then [if |args| > 0 then args[0] else Undefined]
    else if |args| > n then args[..n]
    else args
  }

  /**
   * The round trip through a normalised plain handler: reducing the action its
   * creator built from `args` calls the handler with the arguments it
   * declares, and with exactly `args` when their number is its arity.
   */
  lemma NormalizeRoundTrip(h: Handler, ty: string, args: seq<Value>, s: Value)
    requires h.Simple?
    ensures var r := NormalizeHandler(h);
            r.reducer(r.factory(ty).call(args))(s) == h.body(ArgsReceived(h.arity, args))(s)
    ensures var r := NormalizeHandler(h);
            |args| == h.arity ==> r.reducer(r.factory(ty).call(args))(s) == h.body(args)(s)
  {
  }

  /** Normalising twice is normalising once. */
  lemma NormalizeIdempotent(h: Handler)
    ensures NormalizeHandler(Tuple(NormalizeHandler(h))) == NormalizeHandler(h)
  {
  }

  /* ---------------------------------------------------------------------- */
  /* The shape-preserving walk                                               */
  /* ---------------------------------------------------------------------- */

  /**
   * `mapReducerMap(map, mapper, path)`: the same keys, each sub-map mapped
   * recursively and each leaf replaced by `mapper(leaf, path + keys)`. The
   * source folds the keys into a fresh object; keys are distinct, so each
   * key lands on its own entry, in order.
   */
  function MapReducerMap<A, B>(es: Entries<A>, mapper: (A, seq<string>) -> B, path: seq<string>): (r: Entries<B>)
    ensures SameShape(r, es)
    decreases Branch(es)
  {
    var r := seq(|es|, i requires 0 <= i < |es| =>
      (es[i].0,
       match es[i].1
       case Leaf(a) => Leaf(mapper(a, path + [es[i].0]))
       case Branch(sub) => Branch(MapReducerMap(sub, mapper, path + [es[i].0]))));
    assert forall i :: 0 <= i < |es| && es[i].1.Branch? ==>
      r[i].1.entries == MapReducerMap(es[i].1.entries, mapper, path + [es[i].0]);
    r
  }

  /** Each leaf of the mapped tree is the mapper applied to the leaf at the same path, and to its full path. */
  lemma {:induction false} LeafAtMapped<A, B>(es: Entries<A>, mapper: (A, seq<string>) -> B, path: seq<string>, p: seq<string>)
    ensures LeafAt(MapReducerMap(es, mapper, path), p) ==
            match LeafAt(es, p)
            case Some(a) => Some(mapper(a, path + p))
            case None => None
    decreases Branch(es)
  {
    var r := MapReducerMap(es, mapper, path);
    if p != [] {
      assert KeysOf(r) == KeysOf(es);
      match FindKey(KeysOf(es), p[0])
      case None =>
      case Some(i) =>
        match es[i].1
        case Leaf(a) =>
          if |p| == 1 {
            assert path + [p[0]] == path + p;
          }
        case Branch(sub) =>
          LeafAtMapped(sub, mapper, path + [p[0]], p[1..]);
          assert path + [p[0]] + p[1..] == path + p;
    }
  }

  /* ---------------------------------------------------------------------- */
  /* Leaves in depth-first key order                                         */
  /* ---------------------------------------------------------------------- */

  /** Prefix every path with the key `k`. */
  function Under<L>(k: string, ls: seq<(seq<string>, L)>): (r: seq<(seq<string>, L)>)
    ensures |r| == |ls|
    ensures forall j :: 0 <= j < |ls| ==> r[j] == ([k] + ls[j].0, ls[j].1)
  {
    seq(|ls|, j requires 0 <= j < |ls| => ([k] + ls[j].0, ls[j].1))
  }

  /** The leaves below entry i, with their key paths from this level. */
  function EntryLeaves<L>(es: Entries<L>, i: nat): seq<(seq<string>, L)>
    requires i < |es|
    decreases Branch(es), |es| - i, 0
  {
    match es[i].1
    case Leaf(a) => [([es[i].0], a)]
    case Branch(sub) => Under(es[i].0, LeavesFrom(sub, 0))
  }

  /** The leaves below entries i, i+1, ..., in key order. */
  function LeavesFrom<L>(es: Entries<L>, i: nat): seq<(seq<string>, L)>
    requires i <= |es|
    decreases Branch(es), |es| - i, 1
  {
    if i == |es| then [] else EntryLeaves(es, i) + LeavesFrom(es, i + 1)
  }

  /** Every leaf with its key path, depth first, in `Object.keys` order at every level. */
  function Leaves<L>(es: Entries<L>): seq<(seq<string>, L)>
  {
    LeavesFrom(es, 0)
  }

  lemma {:induction false} InLeavesFrom<L>(es: Entries<L>, i0: nat, i: nat, x: (seq<string>, L))
    requires i0 <= i < |es| && x in EntryLeaves(es, i)
    ensures x in LeavesFrom(es, i0)
    decreases i - i0
  {
    if i0 < i {
      InLeavesFrom(es, i0 + 1, i, x);
    }
  }

  /** The leaf found at a path is listed among the leaves, with that path. */
  lemma {:induction false} LeafAtInLeaves<L>(es: Entries<L>, p: seq<string>, a: L)
    requires LeafAt(es, p) == Some(a)
    ensures (p, a) in Leaves(es)
    decreases Branch(es)
  {
    var i := FindKey(KeysOf(es), p[0]).value;
    match es[i].1
    case Leaf(b) =>
      assert p == [es[i].0];
      assert EntryLeaves(es, i) == [(p, a)];
      InLeavesFrom(es, 0, i, (p, a));
    case Branch(sub) =>
      LeafAtInLeaves(sub, p[1..], a);
      var ls := LeavesFrom(sub, 0);
      var j :| 0 <= j < |ls| && ls[j] == (p[1..], a);
      assert [p[0]] + p[1..] == p;
      assert EntryLeaves(es, i)[j] == (p, a);
      InLeavesFrom(es, 0, i, (p, a));
  }

  /** The leaves of a mapped tree, with the mapper applied to each one and its full path. */
  function MapLeaves<A, B>(ls: seq<(seq<string>, A)>, mapper: (A, seq<string>) -> B, path: seq<string>): (r: seq<(seq<string>, B)>)
    ensures |r| == |ls|
    ensures forall j :: 0 <= j < |ls| ==> r[j] == (ls[j].0, mapper(ls[j].1, path + ls[j].0))
  {
    seq(|ls|, j requires 0 <= j < |ls| => (ls[j].0, mapper(ls[j].1, path + ls[j].0)))
  }

  lemma {:induction false} LeavesFromMapped<A, B>(es: Entries<A>, mapper: (A, seq<string>) -> B, path: seq<string>, i: nat)
    requires i <= |es|
    ensures LeavesFrom(MapReducerMap(es, mapper, path), i) == MapLeaves(LeavesFrom(es, i), mapper, path)
    decreases Branch(es), |es| - i
  {
    var r := MapReducerMap(es, mapper, path);
    if i < |es| {
      LeavesFromMapped(es, mapper, path, i + 1);
      var k := es[i].0;
      var here := EntryLeaves(es, i);
      var rest := LeavesFrom(es, i + 1);
      match es[i].1
      case Leaf(a) =>
        assert EntryLeaves(r, i) == MapLeaves(here, mapper, path);
      case Branch(sub) =>
        LeavesFromMapped(sub, mapper, path + [k], 0);
        var ls := LeavesFrom(sub, 0);
        forall j | 0 <= j < |ls|
          ensures path + [k] + ls[j].0 == path + ([k] + ls[j].0)
        {
        }
        assert EntryLeaves(r, i) == MapLeaves(here, mapper, path);
      assert MapLeaves(here + rest, mapper, path) == MapLeaves(here, mapper, path) + MapLeaves(rest, mapper, path);
    }
  }

  /** The leaves of `mapReducerMap(map, mapper, path)`: the same paths, each leaf mapped with its full path. */
  lemma LeavesMapped<A, B>(es: Entries<A>, mapper: (A, seq<string>) -> B, path: seq<string>)
    ensures Leaves(MapReducerMap(es, mapper, path)) == MapLeaves(Leaves(es), mapper, path)
  {
    LeavesFromMapped(es, mapper, path, 0);
  }

  /* ---------------------------------------------------------------------- */
  /* Last-write-wins tables                                                  */
  /* ---------------------------------------------------------------------- */

  /** The object built by writing each (key, value) pair in turn: a later key overwrites an earlier one. */
  function ToMap<V>(ps: seq<(string, V)>): map<string, V>
  {
    if ps == [] then map[] else map[ps[0].0 := ps[0].1] + ToMap(ps[1..])
  }

  /** The keys written are exactly the pairs' keys. */
  lemma {:induction false} ToMapKeys<V>(ps: seq<(string, V)>, k: string)
    ensures k in ToMap(ps) <==> exists j :: 0 <= j < |ps| && ps[j].0 == k
  {
    if ps != [] {
      ToMapKeys(ps[1..], k);
      if exists j :: 0 <= j < |ps[1..]| && ps[1..][j].0 == k {
        var j :| 0 <= j < |ps[1..]| && ps[1..][j].0 == k;
        assert ps[j + 1].0 == k;
      }
      if exists j :: 0 <= j < |ps| && ps[j].0 == k {
        var j :| 0 <= j < |ps| && ps[j].0 == k;
        if j > 0 {
          assert ps[1..][j - 1].0 == k;
        }
      }
    }
  }

  lemma MapUnionAssoc<V>(x: map<string, V>, y: map<string, V>, z: map<string, V>)
    ensures (x + y) + z == x + (y + z)
  {
  }

  lemma {:induction false} ToMapAppend<V>(a: seq<(string, V)>, b: seq<(string, V)>)
    ensures ToMap(a + b) == ToMap(a) + ToMap(b)
  {
    if a != [] {
      assert (a + b)[1..] == a[1..] + b;
      assert (a + b)[0] == a[0];
      ToMapAppend(a[1..], b);
      MapUnionAssoc(map[a[0].0 := a[0].1], ToMap(a[1..]), ToMap(b));
    } else {
      assert a + b == b;
    }
  }

  /** A key holds the value of the last pair that writes it. */
  lemma {:induction false} ToMapLastWins<V>(ps: seq<(string, V)>, j: nat)
    requires j < |ps|
    requires forall l :: j < l < |ps| ==> ps[l].0 != ps[j].0
    ensures ps[j].0 in ToMap(ps) && ToMap(ps)[ps[j].0] == ps[j].1
  {
    if j > 0 {
      ToMapLastWins(ps[1..], j - 1);
    } else {
      ToMapKeys(ps[1..], ps[0].0);
      assert ps[0].0 !in ToMap(ps[1..]);
    }
  }

  /** With distinct keys, there is one entry per pair. */
  lemma {:induction false} ToMapSize<V>(ps: seq<(string, V)>)
    requires forall i, j :: 0 <= i < j < |ps| ==> ps[i].0 != ps[j].0
    ensures |ToMap(ps)| == |ps|
  {
    if ps != [] {
      ToMapSize(ps[1..]);
      ToMapKeys(ps[1..], ps[0].0);
      assert ps[0].0 !in ToMap(ps[1..]);
      assert ToMap(ps).Keys == {ps[0].0} + ToMap(ps[1..]).Keys;
    }
  }

  /* ---------------------------------------------------------------------- */
  /* Flattening into the dispatch table                                      */
  /* ---------------------------------------------------------------------- */

  /** Each leaf's case reducer, keyed by its `/`-joined full path. */
  function Keyed(ls: seq<(seq<string>, TupleHandler)>, path: seq<string>): (r: seq<(string, CaseReducer)>)
    ensures |r| == |ls|
    ensures forall j :: 0 <= j < |ls| ==> r[j] == (Join(path + ls[j].0), ls[j].1.reducer)
  {
    seq(|ls|, j requires 0 <= j < |ls| => (Join(path + ls[j].0), ls[j].1.reducer))
  }

  /** What entry i adds to the table: a leaf its reducer under its joined path, a sub-map its own flattening. */
  function FlatEntry(es: Entries<TupleHandler>, path: seq<string>, i: nat): map<string, CaseReducer>
    requires i < |es|
    decreases Branch(es), |es| - i, 0
  {
    match es[i].1
    case Leaf(t) => map[Join(path + [es[i].0]) := t.reducer]
    case Branch(sub) => FlatFold(sub, path + [es[i].0], 0, map[])
  }

  /** The fold of `toFlatReducers` over one level, from key i on, onto the table built so far. */
  function FlatFold(es: Entries<TupleHandler>, path: seq<string>, i: nat, acc: map<string, CaseReducer>): map<string, CaseReducer>
    requires i <= |es|
    decreases Branch(es), |es| - i, 1
  {
    if i == |es| then acc else FlatFold(es, path, i + 1, acc + FlatEntry(es, path, i))
  }

  /**
   * `toFlatReducers(map, prefix)`, keyed exactly as `generate` types its
   * action creators: the prefix path followed by the key path, joined by `/`.
   */
  function ToFlatReducers(es: Entries<TupleHandler>, prefix: Option<string>): map<string, CaseReducer>
  {
    FlatFold(es, PrefixPath(prefix), 0, map[])
  }

  lemma KeyedAppend(x: seq<(seq<string>, TupleHandler)>, y: seq<(seq<string>, TupleHandler)>, path: seq<string>)
    ensures Keyed(x + y, path) == Keyed(x, path) + Keyed(y, path)
  {
  }

  lemma KeyedUnder(k: string, ls: seq<(seq<string>, TupleHandler)>, path: seq<string>)
    ensures Keyed(Under(k, ls), path) == Keyed(ls, path + [k])
  {
    forall j | 0 <= j < |ls|
      ensures path + ([k] + ls[j].0) == path + [k] + ls[j].0
    {
    }
  }

  lemma {:induction false} FlatEntryIsLeafTable(es: Entries<TupleHandler>, path: seq<string>, i: nat)
    requires i < |es|
    ensures FlatEntry(es, path, i) == ToMap(Keyed(EntryLeaves(es, i), path))
    decreases Branch(es), |es| - i, 0
  {
    var k := es[i].0;
    match es[i].1
    case Leaf(t) =>
      assert Keyed(EntryLeaves(es, i), path) == [(Join(path + [k]), t.reducer)];
      assert ToMap(Keyed(EntryLeaves(es, i), path)) == map[Join(path + [k]) := t.reducer] + ToMap([]);
    case Branch(sub) =>
      FlatFoldIsLeafTable(sub, path + [k], 0, map[]);
      KeyedUnder(k, LeavesFrom(sub, 0), path);
  }

  lemma {:induction false} FlatFoldIsLeafTable(es: Entries<TupleHandler>, path: seq<string>, i: nat, acc: map<string, CaseReducer>)
    requires i <= |es|
    ensures FlatFold(es, path, i, acc) == acc + ToMap(Keyed(LeavesFrom(es, i), path))
    decreases Branch(es), |es| - i, 1
  {
    if i == |es| {
      assert Keyed(LeavesFrom(es, i), path) == [];
    } else {
      var here := EntryLeaves(es, i);
      var rest := LeavesFrom(es, i + 1);
      FlatFoldIsLeafTable(es, path, i + 1, acc + FlatEntry(es, path, i));
      FlatEntryIsLeafTable(es, path, i);
      KeyedAppend(here, rest, path);
      ToMapAppend(Keyed(here, path), Keyed(rest, path));
      MapUnionAssoc(acc, ToMap(Keyed(here, path)), ToMap(Keyed(rest, path)));
    }
  }

  /** The dispatch table is the last-write-wins table of the leaves' joined paths and case reducers. */
  lemma FlatTableIsLeafTable(es: Entries<TupleHandler>, prefix: Option<string>)
    ensures ToFlatReducers(es, prefix) == ToMap(Keyed(Leaves(es), PrefixPath(prefix)))
  {
    FlatFoldIsLeafTable(es, PrefixPath(prefix), 0, map[]);
  }

  /** The table's keys are exactly the leaves' joined paths: sub-maps add no entry of their own. */
  lemma FlatTableKeys(es: Entries<TupleHandler>, prefix: Option<string>, key: string)
    ensures key in ToFlatReducers(es, prefix) <==>
            exists j :: 0 <= j < |Leaves(es)| && Join(PrefixPath(prefix) + Leaves(es)[j].0) == key
  {
    FlatTableIsLeafTable(es, prefix);
    var ks := Keyed(Leaves(es), PrefixPath(prefix));
    ToMapKeys(ks, key);
    if key in ToFlatReducers(es, prefix) {
      var j :| 0 <= j < |ks| && ks[j].0 == key;
      assert Join(PrefixPath(prefix) + Leaves(es)[j].0) == key;
    }
    if exists j :: 0 <= j < |Leaves(es)| && Join(PrefixPath(prefix) + Leaves(es)[j].0) == key {
      var j :| 0 <= j < |Leaves(es)| && Join(PrefixPath(prefix) + Leaves(es)[j].0) == key;
      assert ks[j].0 == key;
    }
  }

  /** Of two leaves whose paths join to the same key, the later one in key order owns the entry. */
  lemma FlatTableLastWins(es: Entries<TupleHandler>, prefix: Option<string>, j: nat)
    requires j < |Leaves(es)|
    requires forall l :: j < l < |Leaves(es)| ==>
               Join(PrefixPath(prefix) + Leaves(es)[l].0) != Join(PrefixPath(prefix) + Leaves(es)[j].0)
    ensures Join(PrefixPath(prefix) + Leaves(es)[j].0) in ToFlatReducers(es, prefix)
    ensures ToFlatReducers(es, prefix)[Join(PrefixPath(prefix) + Leaves(es)[j].0)] == Leaves(es)[j].1.reducer
  {
    FlatTableIsLeafTable(es, prefix);
    ToMapLastWins(Keyed(Leaves(es), PrefixPath(prefix)), j);
  }

  /** No two leaves of the map share a joined type. */
  ghost predicate UniqueTypes<L>(es: Entries<L>, prefix: Option<string>)
  {
    forall i, j :: 0 <= i < j < |Leaves(es)| ==>
      Join(PrefixPath(prefix) + Leaves(es)[i].0) != Join(PrefixPath(prefix) + Leaves(es)[j].0)
  }

  /** With distinct joined types: exactly one entry per leaf. */
  lemma FlatTableSize(es: Entries<TupleHandler>, prefix: Option<string>)
    requires UniqueTypes(es, prefix)
    ensures |ToFlatReducers(es, prefix)| == |Leaves(es)|
  {
    FlatTableIsLeafTable(es, prefix);
    ToMapSize(Keyed(Leaves(es), PrefixPath(prefix)));
  }

  /* ---------------------------------------------------------------------- */
  /* toFlatReducers as written                                               */
  /* ---------------------------------------------------------------------- */

  /**
   * The fold as the source writes it: the key so far is a string, and a level
   * whose key so far is empty (`prefix ? prefix + "/" + key : key`) adds no
   * leading `/`, so an empty key at the top is dropped from nested paths.
   */
  function FlatFoldAsWritten(es: Entries<TupleHandler>, prefix: string, i: nat, acc: map<string, CaseReducer>): map<string, CaseReducer>
    requires i <= |es|
    decreases Branch(es), |es| - i
  {
    if i == |es| then acc
    else
      var fullKey := if prefix != "" then prefix + "/" + es[i].0 else es[i].0;
      var here := match es[i].1
                  case Leaf(t) => map[fullKey := t.reducer]
                  case Branch(sub) => FlatFoldAsWritten(sub, fullKey, 0, map[]);
      FlatFoldAsWritten(es, prefix, i + 1, acc + here)
  }

  /** `toFlatReducers(map, prefix)` with its string-threaded keys; an absent prefix is falsy like "". */
  function ToFlatReducersAsWritten(es: Entries<TupleHandler>, prefix: Option<string>): map<string, CaseReducer>
  {
    FlatFoldAsWritten(es, if prefix.Some? then prefix.value else "", 0, map[])
  }

  lemma {:induction false} FlatFoldAsWrittenBelow(es: Entries<TupleHandler>, cur: string, path: seq<string>, i: nat, acc: map<string, CaseReducer>)
    requires i <= |es|
    requires cur != "" && path != [] && Join(path) == cur
    ensures FlatFoldAsWritten(es, cur, i, acc) == FlatFold(es, path, i, acc)
    decreases Branch(es), |es| - i
  {
    if i < |es| {
      var k := es[i].0;
      JoinSnoc(path, k);
      match es[i].1
      case Leaf(t) =>
        FlatFoldAsWrittenBelow(es, cur, path, i + 1, acc + map[Join(path + [k]) := t.reducer]);
      case Branch(sub) =>
        assert |cur + "/" + k| > 0;
        FlatFoldAsWrittenBelow(sub, cur + "/" + k, path + [k], 0, map[]);
        FlatFoldAsWrittenBelow(es, cur, path, i + 1, acc + FlatFold(sub, path + [k], 0, map[]));
    }
  }

  lemma {:induction false} FlatFoldAsWrittenTop(es: Entries<TupleHandler>, i: nat, acc: map<string, CaseReducer>)
    requires i <= |es|
    requires forall j :: i <= j < |es| && es[j].1.Branch? ==> es[j].0 != ""
    ensures FlatFoldAsWritten(es, "", i, acc) == FlatFold(es, [], i, acc)
    decreases |es| - i
  {
    if i < |es| {
      var k := es[i].0;
      assert [] + [k] == [k];
      match es[i].1
      case Leaf(t) =>
        FlatFoldAsWrittenTop(es, i + 1, acc + map[k := t.reducer]);
      case Branch(sub) =>
        FlatFoldAsWrittenBelow(sub, k, [k], 0, map[]);
        FlatFoldAsWrittenTop(es, i + 1, acc + FlatFold(sub, [k], 0, map[]));
    }
  }

  /**
   * The source's flattening agrees with the path-joined one whenever a
   * non-empty prefix is given, or no sub-map sits under the empty key at the top.
   */
  lemma FlatAsWrittenAgrees(es: Entries<TupleHandler>, prefix: Option<string>)
    requires PrefixPath(prefix) != [] || forall j :: 0 <= j < |es| && es[j].1.Branch? ==> es[j].0 != ""
    ensures ToFlatReducersAsWritten(es, prefix) == ToFlatReducers(es, prefix)
  {
    if PrefixPath(prefix) != [] {
      FlatFoldAsWrittenBelow(es, prefix.value, [prefix.value], 0, map[]);
    } else {
      FlatFoldAsWrittenTop(es, 0, map[]);
    }
  }

  /**
   * A sub-map under the empty key: its leaf's action type is "/b", but the
   * source files its case reducer under "b", so the action is not handled.
   */
  lemma EmptyLeadingKeyIsDropped(t: TupleHandler)
    ensures var es := [("", Branch([("b", Leaf(t))]))];
            && Leaves(es) == [(["", "b"], t)]
            && Join(PrefixPath(None) + ["", "b"]) == "/b"
            && ToFlatReducersAsWritten(es, None) == map["b" := t.reducer]
            && "/b" !in ToFlatReducersAsWritten(es, None)
            && ToFlatReducers(es, None) == map["/b" := t.reducer]
  {
    var es := [("", Branch([("b", Leaf(t))]))];
    var sub := [("b", Leaf(t))];
    assert LeavesFrom(sub, 1) == [];
    assert EntryLeaves(sub, 0) == [(["b"], t)];
    assert LeavesFrom(sub, 0) == [(["b"], t)];
    assert [""] + ["b"] == ["", "b"];
    assert Under("", [(["b"], t)]) == [(["", "b"], t)];
    assert EntryLeaves(es, 0) == [(["", "b"], t)];
    assert LeavesFrom(es, 1) == [];
    assert Leaves(es) == LeavesFrom(es, 0) == [(["", "b"], t)] + [];
    assert Join(["", "b"]) == "" + "/" + Join(["b"]) == "/b";
    assert FlatFoldAsWritten(sub, "", 1, map["b" := t.reducer]) == map["b" := t.reducer];
    assert FlatFoldAsWritten(sub, "", 0, map[]) == map["b" := t.reducer];
    assert FlatFoldAsWritten(es, "", 1, map[] + map["b" := t.reducer]) == map["b" := t.reducer];
    assert "b" != "/b";
    assert FlatFold(sub, [""], 1, map["/b" := t.reducer]) == map["/b" := t.reducer];
    assert FlatEntry(sub, [""], 0) == map["/b" := t.reducer];
    assert FlatFold(sub, [""], 0, map[]) == map["/b" := t.reducer];
    assert [] + [""] == [""];
    assert FlatEntry(es, [], 0) == map["/b" := t.reducer];
    assert FlatFold(es, [], 1, map[] + map["/b" := t.reducer]) == map["/b" := t.reducer];
  }
}
