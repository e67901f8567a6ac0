/**
 Both the session store and the skip set pick an earliest entry by scanning a map in its arbitrary
 iteration order, with the empty key standing for "none yet". This is that scan, and exactly when
 it is right.
 */
module SentinelScan {

  /** The key held after scanning keys in the given order; those without a time are passed over. */
  function Scanned(times: map<string, int>, order: seq<string>): (v: string)
    ensures v != "" ==> v in times
  {
    if order == [] then ""
    else
      var v, k := Scanned(times, order[..|order| - 1]), order[|order| - 1];
      if k !in times then v
      else if v == "" || times[k] < times[v] then k
      else v
  }

  /** Every key is scanned, and once. */
  predicate Visits(order: seq<string>, keys: set<string>) {
    if order == [] then keys == {}
    else
      var before, k := order[..|order| - 1], order[|order| - 1];
      k in keys && Visits(before, keys - {k})
  }

  lemma {:induction false} VisitsEach(order: seq<string>, keys: set<string>, k: string)
    requires Visits(order, keys)
    ensures k in keys <==> k in order
    decreases |order|
  {
    if order != [] {
      var before, last := order[..|order| - 1], order[|order| - 1];
      assert order == before + [last];
      VisitsEach(before, keys - {last}, k);
    }
  }

  /** All keys but `rest` have been visited. */
  predicate Visited(order: seq<string>, keys: set<string>, rest: set<string>) {
    rest <= keys && Visits(order, keys - rest)
  }

  lemma VisitedNone(keys: set<string>)
    ensures Visited([], keys, keys)
  {
    assert keys - keys == {};
  }

  lemma VisitedAll(order: seq<string>, keys: set<string>)
    requires Visited(order, keys, {})
    ensures Visits(order, keys)
  {
    assert keys - {} == keys;
  }

  lemma VisitStep(order: seq<string>, keys: set<string>, rest: set<string>, k: string)
    requires Visited(order, keys, rest) && k in rest
    ensures Visited(order + [k], keys, rest - {k})
  {
    assert (order + [k])[..|order|] == order;
    assert keys - (rest - {k}) - {k} == keys - rest;
  }

  lemma ScanStep(times: map<string, int>, order: seq<string>, k: string)
    ensures var v := Scanned(times, order);
            Scanned(times, order + [k]) == if k in times && (v == "" || times[k] < times[v]) then k else v
  {
    assert (order + [k])[..|order|] == order;
  }

  ghost predicate IsEarliest(times: map<string, int>, v: string) {
    v in times && forall u :: u in times ==> times[v] <= times[u]
  }

  /** The empty key has a time, and every other key's is strictly later. */
  ghost predicate EmptyIsEarliest(times: map<string, int>) {
    "" in times && forall u :: u in times && u != "" ==> times[""] < times[u]
  }

  lemma {:induction false} ScanKeepsEarliest(times: map<string, int>, order: seq<string>, u: string)
    requires IsEarliest(times, u) && u != ""
    ensures var v := Scanned(times, order); u in order ==> v != "" && IsEarliest(times, v)
    decreases |order|
  {
    if order != [] {
      var before, k := order[..|order| - 1], order[|order| - 1];
      assert order == before + [k];
      ScanKeepsEarliest(times, before, u);
    }
  }

  lemma {:induction false} ScanOfNothing(times: map<string, int>, order: seq<string>)
    requires times == map[]
    ensures Scanned(times, order) == ""
    decreases |order|
  {
    if order != [] {
      ScanOfNothing(times, order[..|order| - 1]);
    }
  }

  lemma {:induction false} EarliestAmong(times: map<string, int>, keys: set<string>) returns (u: string)
    requires keys != {} && keys <= times.Keys
    ensures u in keys && forall x :: x in keys ==> times[u] <= times[x]
    decreases |keys|
  {
    u :| u in keys;
    if keys != {u} {
      var rest := keys - {u};
      assert keys == rest + {u} && rest != {};
      var w := EarliestAmong(times, rest);
      if times[w] < times[u] {
        u := w;
      }
    }
  }

  /** Unless the empty key is the only earliest one, some earliest key is not empty. */
  lemma NamedEarliest(times: map<string, int>) returns (u: string)
    requires times != map[] && !EmptyIsEarliest(times)
    ensures u != "" && IsEarliest(times, u)
  {
    var named := set k | k in times && k != "";
    if "" in times {
      var y :| y in times && y != "" && times[y] <= times[""];
      assert y in named;
    } else {
      var y :| y in times;
      assert y in named;
    }
    u := EarliestAmong(times, named);
    forall v | v in times
      ensures times[u] <= times[v]
    {
      if v != "" {
        assert v in named;
      }
    }
  }

  lemma ScanFindsEarliest(times: map<string, int>, order: seq<string>, keys: set<string>)
    requires times != map[] && !EmptyIsEarliest(times) && Visits(order, keys) && times.Keys <= keys
    ensures Scanned(times, order) != "" && IsEarliest(times, Scanned(times, order))
  {
    var u := NamedEarliest(times);
    VisitsEach(order, keys, u);
    ScanKeepsEarliest(times, order, u);
  }

  lemma {:induction false} OrderOf(keys: set<string>) returns (order: seq<string>)
    ensures Visits(order, keys)
    decreases |keys|
  {
    order := [];
    if keys != {} {
      var k :| k in keys;
      order := OrderOf(keys - {k});
      assert (order + [k])[..|order|] == order;
      order := order + [k];
    }
  }

  lemma ScanCanMiss(times: map<string, int>, keys: set<string>) returns (order: seq<string>)
    requires EmptyIsEarliest(times) && times.Keys <= keys
    ensures Visits(order, keys) && Scanned(times, order) == ""
  {
    var before := OrderOf(keys - {""});
    order := before + [""];
    ScanStep(times, before, "");
    assert order[..|before|] == before;
  }

  lemma {:induction false} VisitsCons(order: seq<string>, keys: set<string>, u: string)
    requires u in keys && Visits(order, keys - {u})
    ensures Visits([u] + order, keys)
    decreases |order|
  {
    if order == [] {
      assert [u][..0] == [] && [u] + order == [u];
    } else {
      var before, k := order[..|order| - 1], order[|order| - 1];
      assert keys - {u} - {k} == keys - {k} - {u};
      VisitsCons(before, keys - {k}, u);
      assert ([u] + order)[..|order|] == [u] + before;
    }
  }

  lemma {:induction false} ScanKeepsFirst(times: map<string, int>, order: seq<string>, u: string)
    requires IsEarliest(times, u) && u != ""
    ensures Scanned(times, [u] + order) == u
    decreases |order|
  {
    if order == [] {
      assert [u] + order == [u] && [u][..0] == [];
    } else {
      ScanKeepsFirst(times, order[..|order| - 1], u);
      assert ([u] + order)[..|order|] == [u] + order[..|order| - 1];
    }
  }

  /** Any earliest key with a name is what the scan ends with in some order. */
  lemma ScanCanPick(times: map<string, int>, keys: set<string>, u: string) returns (order: seq<string>)
    requires IsEarliest(times, u) && u != "" && times.Keys <= keys
    ensures Visits(order, keys) && Scanned(times, order) == u
  {
    var rest := OrderOf(keys - {u});
    VisitsCons(rest, keys, u);
    ScanKeepsFirst(times, rest, u);
    order := [u] + rest;
  }

  /** Whatever the iteration order, the scan ends with an earliest key, if and only if the empty key
      is not strictly earlier than all others. */
  lemma ScanIsRightIff(times: map<string, int>, keys: set<string>)
    requires times != map[] && times.Keys <= keys
    ensures (forall order :: Visits(order, keys) ==> Scanned(times, order) != "" && IsEarliest(times, Scanned(times, order)))
            <==> !EmptyIsEarliest(times)
  {
    if EmptyIsEarliest(times) {
      var order := ScanCanMiss(times, keys);
    } else {
      forall order | Visits(order, keys)
        ensures Scanned(times, order) != "" && IsEarliest(times, Scanned(times, order))
      {
        ScanFindsEarliest(times, order, keys);
      }
    }
  }
}
