/**
 * Part of the person reducer map of the repository's test suite
 * (test/_common.ts): `setName`, `setNameA`, and a nested `incrementAge` and
 * `deeper.setName`.
 * The handler bodies stay parameters; what is pinned down is what the
 * package itself adds: types, payloads, arities, dispatch and binding.
 */
module Examples {
  import opened Values
  import opened Helpers
  import opened Generator
  import opened Binding

  /** `{setName: (name) => ..., setNameA: (first, last) => ..., nested: {incrementAge: () => ..., deeper: {setName: (name) => ...}}}` */
  function PersonMap(setName: seq<Value> -> Transform, setNameA: seq<Value> -> Transform,
                     incrementAge: seq<Value> -> Transform, deeperSetName: seq<Value> -> Transform): Entries<Handler>
  {
    [("setName", Leaf(Simple(1, setName))),
     ("setNameA", Leaf(Simple(2, setNameA))),
     ("nested", Branch([("incrementAge", Leaf(Simple(0, incrementAge))),
                        ("deeper", Branch([("setName", Leaf(Simple(1, deeperSetName)))]))]))]
  }

  /** The four leaves, depth first, with their key paths. */
  lemma PersonLeaves(setName: seq<Value> -> Transform, setNameA: seq<Value> -> Transform,
                     incrementAge: seq<Value> -> Transform, deeperSetName: seq<Value> -> Transform)
    ensures Leaves(PersonMap(setName, setNameA, incrementAge, deeperSetName)) ==
            [(["setName"], Simple(1, setName)),
             (["setNameA"], Simple(2, setNameA)),
             (["nested", "incrementAge"], Simple(0, incrementAge)),
             (["nested", "deeper", "setName"], Simple(1, deeperSetName))]
  {
    var es := PersonMap(setName, setNameA, incrementAge, deeperSetName);
    var deeper: Entries<Handler> := [("setName", Leaf(Simple(1, deeperSetName)))];
    var nested: Entries<Handler> := [("incrementAge", Leaf(Simple(0, incrementAge))), ("deeper", Branch(deeper))];
    assert LeavesFrom(deeper, 0) == [(["setName"], Simple(1, deeperSetName))] by {
      assert LeavesFrom(deeper, 1) == [];
    }
    assert LeavesFrom(nested, 1) == [(["deeper", "setName"], Simple(1, deeperSetName))] by {
      assert LeavesFrom(nested, 2) == [];
      assert EntryLeaves(nested, 1) == Under("deeper", LeavesFrom(deeper, 0));
      assert ["deeper"] + ["setName"] == ["deeper", "setName"];
    }
    assert LeavesFrom(nested, 0) == [(["incrementAge"], Simple(0, incrementAge)), (["deeper", "setName"], Simple(1, deeperSetName))];
    assert LeavesFrom(es, 2) == [(["nested", "incrementAge"], Simple(0, incrementAge)), (["nested", "deeper", "setName"], Simple(1, deeperSetName))] by {
      assert LeavesFrom(es, 3) == [];
      assert EntryLeaves(es, 2) == Under("nested", LeavesFrom(nested, 0));
      assert ["nested"] + ["incrementAge"] == ["nested", "incrementAge"];
      assert ["nested"] + ["deeper", "setName"] == ["nested", "deeper", "setName"];
    }
    assert LeavesFrom(es, 0) == EntryLeaves(es, 0) + (EntryLeaves(es, 1) + LeavesFrom(es, 2));
  }

  /** The type of `nested.incrementAge`. */
  lemma TypeNestedIncrementAge() ensures Join(["nested", "incrementAge"]) == "nested/incrementAge"
  {
  }

  /** The type of `nested.deeper.setName`. */
  lemma TypeNestedDeeperSetName() ensures Join(["nested", "deeper", "setName"]) == "nested/deeper/setName"
  {
  }

  /** The types of `setName` and `setNameA` under the prefix "prefix". */
  lemma TypePrefixed()
    ensures Join(["prefix", "setName"]) == "prefix/setName"
    ensures Join(["prefix", "setNameA"]) == "prefix/setNameA"
  {
  }

  /** The type of `nested.incrementAge` under the prefix "prefix". */
  lemma TypePrefixedIncrementAge() ensures Join(["prefix", "nested", "incrementAge"]) == "prefix/nested/incrementAge"
  {
  }

  /** The type of `nested.deeper.setName` under the prefix "prefix". */
  lemma TypePrefixedDeeperSetName() ensures Join(["prefix", "nested", "deeper", "setName"]) == "prefix/nested/deeper/setName"
  {
  }

  /** The four types are distinct without a prefix and with the prefix "prefix". */
  lemma PersonTypesUnique(setName: seq<Value> -> Transform, setNameA: seq<Value> -> Transform,
                          incrementAge: seq<Value> -> Transform, deeperSetName: seq<Value> -> Transform, prefix: Option<string>)
    requires prefix == None || prefix == Some("prefix")
    ensures UniqueTypes(PersonMap(setName, setNameA, incrementAge, deeperSetName), prefix)
  {
    PersonLeaves(setName, setNameA, incrementAge, deeperSetName);
    TypeNestedIncrementAge();
    TypeNestedDeeperSetName();
    TypePrefixed();
    TypePrefixedIncrementAge();
    TypePrefixedDeeperSetName();
    var start := PrefixPath(prefix);
    var ls := Leaves(PersonMap(setName, setNameA, incrementAge, deeperSetName));
    var types := seq(4, j requires 0 <= j < 4 => Join(start + ls[j].0));
    if prefix == None {
      assert start + ls[2].0 == ["nested", "incrementAge"];
      assert start + ls[3].0 == ["nested", "deeper", "setName"];
      assert types == ["setName", "setNameA", "nested/incrementAge", "nested/deeper/setName"];
    } else {
      assert start == ["prefix"];
      assert start + ls[0].0 == ["prefix", "setName"];
      assert start + ls[1].0 == ["prefix", "setNameA"];
      assert start + ls[2].0 == ["prefix", "nested", "incrementAge"];
      assert start + ls[3].0 == ["prefix", "nested", "deeper", "setName"];
      assert types == ["prefix/setName", "prefix/setNameA", "prefix/nested/incrementAge", "prefix/nested/deeper/setName"];
    }
    forall i, j | 0 <= i < j < |ls|
      ensures Join(start + ls[i].0) != Join(start + ls[j].0)
    {
      assert Join(start + ls[i].0) == types[i] && Join(start + ls[j].0) == types[j];
    }
  }

  /**
   * `actions.nested.deeper.setName("Alice")` is `{type: "nested/deeper/setName",
   * payload: "Alice"}` (with the prefix "prefix": `"prefix/nested/deeper/setName"`),
   * and the reducer hands "Alice" to that handler, not to the top-level `setName`.
   */
  lemma DeeperSetNameAlice(setName: seq<Value> -> Transform, setNameA: seq<Value> -> Transform,
                           incrementAge: seq<Value> -> Transform, deeperSetName: seq<Value> -> Transform,
                           prefix: Option<string>, state: Value)
    requires prefix == None || prefix == Some("prefix")
    ensures var g := Generate(PersonMap(setName, setNameA, incrementAge, deeperSetName), Options(prefix, None));
            && LeafAt(g.actions, ["nested", "deeper", "setName"]).Some?
            && var a := Call(LeafAt(g.actions, ["nested", "deeper", "setName"]).value, [Str("Alice")]);
               && a.actionType == (if prefix == None then "nested/deeper/setName" else "prefix/nested/deeper/setName")
               && a.payload == Some(Str("Alice"))
               && Reducer(g, state, a) == deeperSetName([Str("Alice")])(state)
  {
    var es := PersonMap(setName, setNameA, incrementAge, deeperSetName);
    var opts := Options(prefix, None);
    var p := ["nested", "deeper", "setName"];
    var h := Simple(1, deeperSetName);
    DeeperSetNameLeaf(setName, setNameA, incrementAge, deeperSetName);
    PersonTypesUnique(setName, setNameA, incrementAge, deeperSetName, prefix);
    CreatorRunsItsCaseReducer(es, opts, p, h, [Str("Alice")], state);
    ActionsMirrorHandlers(es, opts, p);
    DeeperType(prefix);
  }

  /** The type of `nested.deeper.setName`, without and with the prefix "prefix". */
  lemma DeeperType(prefix: Option<string>)
    requires prefix == None || prefix == Some("prefix")
    ensures Join(PrefixPath(prefix) + ["nested", "deeper", "setName"]) ==
            if prefix == None then "nested/deeper/setName" else "prefix/nested/deeper/setName"
  {
    if prefix == None {
      assert PrefixPath(prefix) + ["nested", "deeper", "setName"] == ["nested", "deeper", "setName"];
      TypeNestedDeeperSetName();
    } else {
      assert PrefixPath(prefix) + ["nested", "deeper", "setName"] == ["prefix", "nested", "deeper", "setName"];
      TypePrefixedDeeperSetName();
    }
  }

  /** `nested.deeper.setName` is found three levels down. */
  lemma DeeperSetNameLeaf(setName: seq<Value> -> Transform, setNameA: seq<Value> -> Transform,
                          incrementAge: seq<Value> -> Transform, deeperSetName: seq<Value> -> Transform)
    ensures LeafAt(PersonMap(setName, setNameA, incrementAge, deeperSetName), ["nested", "deeper", "setName"])
            == Some(Simple(1, deeperSetName))
  {
    var es := PersonMap(setName, setNameA, incrementAge, deeperSetName);
    var p := ["nested", "deeper", "setName"];
    var h := Simple(1, deeperSetName);
    assert LeafAt(es, p) == Some(h) by {
      assert KeysOf(es) == ["setName", "setNameA", "nested"];
      assert FindKey(KeysOf(es), "nested") == Some(2);
      var nested := es[2].1.entries;
      assert KeysOf(nested) == ["incrementAge", "deeper"];
      assert FindKey(KeysOf(nested), "deeper") == Some(1);
      var deeper := nested[1].1.entries;
      assert KeysOf(deeper) == ["setName"];
      assert FindKey(KeysOf(deeper), "setName") == Some(0);
      assert LeafAt(deeper, ["setName"]) == Some(h);
      assert ["deeper", "setName"][1..] == ["setName"];
      assert LeafAt(nested, ["deeper", "setName"]) == Some(h);
      assert p[1..] == ["deeper", "setName"];
    }
  }

  /**
   * `actions.setNameA("a", "b", "c").payload` is `["a", "b"]`, and
   * `actions.setNameA()` still carries an (empty) payload key.
   */
  lemma SetNameAArguments(setName: seq<Value> -> Transform, setNameA: seq<Value> -> Transform,
                          incrementAge: seq<Value> -> Transform, deeperSetName: seq<Value> -> Transform)
    ensures var g := Generate(PersonMap(setName, setNameA, incrementAge, deeperSetName), Options(None, None));
            && LeafAt(g.actions, ["setNameA"]).Some?
            && var c := LeafAt(g.actions, ["setNameA"]).value;
               && c.fn.arity == 2
               && Call(c, [Str("a"), Str("b"), Str("c")]) == Action("setNameA", Some(Arr([Str("a"), Str("b")])))
               && Call(c, []) == Action("setNameA", Some(Arr([])))
  {
    var es := PersonMap(setName, setNameA, incrementAge, deeperSetName);
    assert LeafAt(es, ["setNameA"]) == Some(Simple(2, setNameA)) by {
      assert KeysOf(es) == ["setName", "setNameA", "nested"];
      assert FindKey(KeysOf(es), "setNameA") == Some(1);
    }
    ActionsMirrorHandlers(es, Options(None, None), ["setNameA"]);
    assert [Str("a"), Str("b"), Str("c")][..2] == [Str("a"), Str("b")];
  }

  /** `actions.nested.incrementAge("a", "b", "c")` is just `{type: "nested/incrementAge"}`, with no payload key. */
  lemma IncrementAgeHasNoPayload(setName: seq<Value> -> Transform, setNameA: seq<Value> -> Transform,
                                 incrementAge: seq<Value> -> Transform, deeperSetName: seq<Value> -> Transform)
    ensures var g := Generate(PersonMap(setName, setNameA, incrementAge, deeperSetName), Options(None, None));
            && LeafAt(g.actions, ["nested", "incrementAge"]).Some?
            && var c := LeafAt(g.actions, ["nested", "incrementAge"]).value;
               && c.fn.arity == 0
               && Call(c, [Str("a"), Str("b"), Str("c")]) == Action("nested/incrementAge", None)
  {
    var es := PersonMap(setName, setNameA, incrementAge, deeperSetName);
    var p := ["nested", "incrementAge"];
    assert LeafAt(es, p) == Some(Simple(0, incrementAge)) by {
      assert KeysOf(es) == ["setName", "setNameA", "nested"];
      assert FindKey(KeysOf(es), "nested") == Some(2);
      var nested := es[2].1.entries;
      assert KeysOf(nested) == ["incrementAge", "deeper"];
      assert FindKey(KeysOf(nested), "incrementAge") == Some(0);
      assert p[1..] == ["incrementAge"];
    }
    TypeNestedIncrementAge();
    ActionsMirrorHandlers(es, Options(None, None), p);
    assert PrefixPath(None) + p == p;
  }

  /**
   * Binding: the bound `setName` has length 1, and `boundActions.setName("Alice")`
   * dispatches `{type: "setName", payload: "Alice"}` once and returns what
   * dispatch returns. The thunkified `setName("Alice")` dispatches nothing
   * until the thunk it returns runs, and then that same action once.
   */
  method BindSetNameAlice(setName: seq<Value> -> Transform, setNameA: seq<Value> -> Transform,
                          incrementAge: seq<Value> -> Transform, deeperSetName: seq<Value> -> Transform)
    returns (boundLength: nat, returned: Called, immediate: seq<Action>, beforeRun: seq<Action>, afterRun: seq<Action>)
    ensures boundLength == 1
    ensures returned == Returned(Num(0))
    ensures immediate == [Action("setName", Some(Str("Alice")))]
    ensures beforeRun == []
    ensures afterRun == [Action("setName", Some(Str("Alice")))]
  {
    var es := PersonMap(setName, setNameA, incrementAge, deeperSetName);
    var g := Generate(es, Options(None, None));
    assert LeafAt(es, ["setName"]) == Some(Simple(1, setName)) by {
      assert KeysOf(es) == ["setName", "setNameA", "nested"];
      assert FindKey(KeysOf(es), "setName") == Some(0);
    }
    ActionsMirrorHandlers(es, Options(None, None), ["setName"]);

    // dispatch returns how many actions it had received before
    var d := new Dispatcher((log: seq<Action>, a: Action) => Num(|log|));
    var bound := BindActionCreators(g.actions, d, false);
    BoundLeafWrapsCreator(g.actions, d, false, ["setName"]);
    var b := LeafAt(bound, ["setName"]).value;
    boundLength := b.arity;
    returned := Invoke(b, [Str("Alice")]);
    immediate := d.dispatched;

    var d2 := new Dispatcher((log: seq<Action>, a: Action) => Num(|log|));
    var thunks := BindActionCreators(g.actions, d2, true);
    BoundLeafWrapsCreator(g.actions, d2, true, ["setName"]);
    var t := LeafAt(thunks, ["setName"]).value;
    var deferred := Invoke(t, [Str("Alice")]);
    beforeRun := d2.dispatched;
    var v := RunThunk(deferred.thunk);
    afterRun := d2.dispatched;
  }
}
