/**
 The runtime auto-skip set: hosts whose minted certificate a client rejected, each skipped for a
 fixed time, in a set of bounded size. The reference it is measured against is the log of
 additions alone: a host is live when it was added less than the time to live ago.
 */
module SkipSets {
  import opened Common
  import opened SentinelScan

  const SKIP_TTL: int := 10 * 60 * 1_000_000_000
  const SKIP_MAX: nat := 4096

  datatype Params = Params(ttl: int, max: nat)

  // ----- One addition -----

  function Purged(m: map<string, int>, now: int): map<string, int> {
    map h | h in m && m[h] > now :: m[h]
  }

  /** Room is made only when the set is full: by purging, and then by dropping what a scan of the
      survivors came up with, if anything. */
  ghost predicate MadeRoom(max: nat, m: map<string, int>, now: int, r: map<string, int>) {
    if |m| < max then r == m
    else exists order :: Visits(order, m.Keys) && r == Swept(max, Purged(m, now), Scanned(Purged(m, now), order))
  }

  function Swept(max: nat, q: map<string, int>, v: string): map<string, int> {
    if |q| >= max && v != "" then q - {v} else q
  }

  ghost predicate Added(p: Params, m: map<string, int>, host: string, now: int, m': map<string, int>) {
    exists r :: MadeRoom(p.max, m, now, r) && m' == r[host := now + p.ttl]
  }

  /** What the sweep is for: if purging does not make room, an earliest entry goes. */
  ghost predicate DropsEarliest(max: nat, m: map<string, int>, now: int, r: map<string, int>) {
    var q := Purged(m, now);
    if |m| < max then r == m
    else if |q| < max then r == q
    else exists v :: IsEarliest(q, v) && r == q - {v}
  }

  /** No survivor of a purge stands in the way: there is room, or an earliest one has a proper name. */
  ghost predicate CanDrop(max: nat, m: map<string, int>, now: int) {
    |m| < max || |Purged(m, now)| < max || !EmptyIsEarliest(Purged(m, now))
  }

  lemma RoomDropsEarliest(max: nat, m: map<string, int>, now: int, r: map<string, int>)
    requires max > 0 && MadeRoom(max, m, now, r) && CanDrop(max, m, now)
    ensures DropsEarliest(max, m, now, r)
  {
    var q := Purged(m, now);
    if |m| >= max && |q| >= max {
      assert q != map[];
      var order :| Visits(order, m.Keys) && r == Swept(max, q, Scanned(q, order));
      ScanFindsEarliest(q, order, m.Keys);
    }
  }

  /** The sweep takes the empty host for "none yet". So it does what it is for, in every iteration
      order, if and only if no empty host is live and due before all the others when there is no room. */
  lemma RoomDropsEarliestIff(max: nat, m: map<string, int>, now: int)
    requires max > 0
    ensures (forall r :: MadeRoom(max, m, now, r) ==> DropsEarliest(max, m, now, r)) <==> CanDrop(max, m, now)
  {
    if CanDrop(max, m, now) {
      forall r | MadeRoom(max, m, now, r)
        ensures DropsEarliest(max, m, now, r)
      {
        RoomDropsEarliest(max, m, now, r);
      }
    } else {
      var q := Purged(m, now);
      var order := ScanCanMiss(q, m.Keys);
      assert MadeRoom(max, m, now, q);
      assert forall v :: v in q ==> v !in q - {v};
    }
  }

  predicate Holds(m: map<string, int>, host: string, now: int) {
    host in m && now < m[host]
  }

  // ----- Runs -----

  datatype Run = Start | Add(before: Run, host: string, now: int, m: map<string, int>)

  function Current(r: Run): map<string, int> {
    if r.Start? then map[] else r.m
  }

  ghost predicate IsRun(p: Params, r: Run) {
    r.Add? ==> IsRun(p, r.before) && Added(p, Current(r.before), r.host, r.now, r.m)
  }

  /** From the log alone: when `host` was last added. */
  function LastAdd(r: Run, host: string): Option<int> {
    if r.Start? then None else if r.host == host then Some(r.now) else LastAdd(r.before, host)
  }

  /** From the log alone: was `host` added less than the time to live ago? */
  predicate Live(p: Params, r: Run, host: string, now: int) {
    LastAdd(r, host).Some? && now - LastAdd(r, host).value < p.ttl
  }

  function AddedHosts(r: Run): (s: set<string>)
    ensures forall h :: h in s <==> LastAdd(r, h).Some?
  {
    if r.Start? then {} else AddedHosts(r.before) + {r.host}
  }

  function LiveHosts(p: Params, r: Run, now: int): set<string> {
    set h | h in AddedHosts(r) && Live(p, r, h, now)
  }

  predicate Monotone(r: Run) {
    r.Add? ==> Monotone(r.before) && (r.before.Add? ==> r.before.now <= r.now)
  }

  predicate NotBefore(r: Run, now: int) {
    r.Add? ==> r.now <= now
  }

  lemma PurgedSize(m: map<string, int>, now: int)
    ensures |Purged(m, now)| <= |m|
  {
    SubsetSize(Purged(m, now).Keys, m.Keys);
  }

  lemma RoomIsOld(max: nat, m: map<string, int>, now: int, r: map<string, int>)
    requires MadeRoom(max, m, now, r)
    ensures forall h :: h in r ==> h in m && r[h] == m[h]
  {
  }

  lemma RoomMade(max: nat, m: map<string, int>, now: int, r: map<string, int>)
    requires max > 0 && |m| <= max && MadeRoom(max, m, now, r) && CanDrop(max, m, now)
    ensures |r| < max
  {
    PurgedSize(m, now);
    RoomDropsEarliest(max, m, now, r);
    var q := Purged(m, now);
    if |m| >= max && |q| >= max {
      var v :| IsEarliest(q, v) && r == q - {v};
      MapRemove(q, v);
    }
  }

  /** Whatever the clock does: an entry is always the expiry of the host's last addition, so a host that
      is reported was added less than the time to live ago. */
  lemma {:induction false} ReportedMeansRecent(p: Params, r: Run)
    requires IsRun(p, r)
    ensures forall h :: h in Current(r) ==> LastAdd(r, h) == Some(Current(r)[h] - p.ttl)
    ensures forall h, now :: Holds(Current(r), h, now) ==> Live(p, r, h, now)
  {
    if r.Add? {
      ReportedMeansRecent(p, r.before);
      var room :| MadeRoom(p.max, Current(r.before), r.now, room) && r.m == room[r.host := r.now + p.ttl];
      RoomIsOld(p.max, Current(r.before), r.now, room);
    }
  }

  /** Whatever the clock does: the set stays within its bound as long as no empty host is added. */
  lemma {:induction false} SetStaysBounded(p: Params, r: Run)
    requires IsRun(p, r) && p.max > 0 && LastAdd(r, "").None?
    ensures |Current(r)| <= p.max
  {
    if r.Add? {
      SetStaysBounded(p, r.before);
      ReportedMeansRecent(p, r.before);
      var b := Current(r.before);
      var room :| MadeRoom(p.max, b, r.now, room) && r.m == room[r.host := r.now + p.ttl];
      assert "" !in Purged(b, r.now);
      RoomMade(p.max, b, r.now, room);
      MapPut(room, r.host, r.now + p.ttl);
    }
  }

  /** A run in which the empty host makes the set outgrow its bound. */
  lemma EmptyHostOverflows()
    ensures exists r :: IsRun(Params(10, 1), r) && r.Add? && r.before.Add? && r.before.before.Start?
                        && r.before.host == "" && r.host == "a" && |Current(r)| == 2
  {
    var p := Params(10, 1);
    var m1: map<string, int> := map["" := 10];
    var m2 := m1["a" := 11];
    var first := Add(Start, "", 0, m1);
    var r := Add(first, "a", 1, m2);
    assert MadeRoom(1, map[], 0, map[]) && m1 == (map[])["" := 10];
    assert Added(p, Current(Start), "", 0, m1);
    var order := [""];
    assert order[..0] == [] && m1.Keys == {""} && m1.Keys - {""} == {};
    assert Visits(order, m1.Keys) && |m1| == 1;
    assert Purged(m1, 1) == m1 && Scanned(m1, order) == "";
    assert MadeRoom(1, m1, 1, m1) && Added(p, m1, "a", 1, m2);
    assert IsRun(p, first) && IsRun(p, r);
    MapPut(m1, "a", 11);
  }

  /** Before every addition, fewer than `max` hosts were live. */
  predicate NeverFull(p: Params, r: Run) {
    r.Add? ==> NeverFull(p, r.before) && |LiveHosts(p, r.before, r.now)| < p.max
  }

  ghost predicate Exact(p: Params, r: Run, from: int) {
    forall h, now :: from <= now ==> (Holds(Current(r), h, now) <==> Live(p, r, h, now))
  }

  lemma PurgedIsLive(p: Params, r: Run, now: int)
    requires IsRun(p, r) && Exact(p, r, now)
    ensures Purged(Current(r), now).Keys == LiveHosts(p, r, now)
  {
    ReportedMeansRecent(p, r);
    var q, l := Purged(Current(r), now), LiveHosts(p, r, now);
    forall h
      ensures h in q <==> h in l
    {
      assert h in q <==> Holds(Current(r), h, now);
      assert h in l <==> Live(p, r, h, now);
    }
  }

  /** With room to spare, an addition takes away nothing that is still live. */
  lemma RoomKeepsLive(p: Params, m: map<string, int>, host: string, now: int, m': map<string, int>)
    requires Added(p, m, host, now, m') && |Purged(m, now)| < p.max
    ensures host in m' && m'[host] == now + p.ttl
    ensures forall h, t :: h != host && now <= t ==> (Holds(m', h, t) <==> Holds(m, h, t))
  {
    var room :| MadeRoom(p.max, m, now, room) && m' == room[host := now + p.ttl];
    assert room == m || room == Purged(m, now);
  }

  /** With a clock that does not go back, and as long as the set was never full of live hosts, it
      answers exactly as the log does. */
  lemma {:induction false} ExactWhileNotFull(p: Params, r: Run, from: int)
    requires IsRun(p, r) && p.ttl > 0 && Monotone(r) && NeverFull(p, r) && NotBefore(r, from)
    ensures Exact(p, r, from)
  {
    if r.Add? {
      var b := Current(r.before);
      ExactWhileNotFull(p, r.before, r.now);
      PurgedIsLive(p, r.before, r.now);
      assert |Purged(b, r.now)| == |Purged(b, r.now).Keys|;
      RoomKeepsLive(p, b, r.host, r.now, r.m);
      forall h, now | from <= now
        ensures Holds(Current(r), h, now) <==> Live(p, r, h, now)
      {
        assert Holds(b, h, now) <==> Live(p, r.before, h, now);
      }
    }
  }

  /** An addition is a sweep that does what it is for, and the new entry. */
  lemma AddedDropsEarliest(p: Params, m: map<string, int>, host: string, now: int, m': map<string, int>) returns (room: map<string, int>)
    requires p.max > 0 && Added(p, m, host, now, m') && CanDrop(p.max, m, now)
    ensures DropsEarliest(p.max, m, now, room) && m' == room[host := now + p.ttl]
  {
    room :| MadeRoom(p.max, m, now, room) && m' == room[host := now + p.ttl];
    RoomDropsEarliest(p.max, m, now, room);
  }

  lemma DroppedIsEarliest(max: nat, m: map<string, int>, now: int, room: map<string, int>, h: string)
    requires max > 0 && |m| <= max && DropsEarliest(max, m, now, room)
    requires Holds(m, h, now) && !Holds(room, h, now)
    ensures |Purged(m, now)| == max && IsEarliest(Purged(m, now), h)
    ensures forall u :: Holds(m, u, now) && u != h ==> Holds(room, u, now)
  {
    PurgedSize(m, now);
    assert h in Purged(m, now);
  }

  /** A live host is dropped only to make room when `max` hosts are live, and then it is one that
      would have expired first; nothing else is lost. */
  lemma DropsOnlyEarliestWhenFull(p: Params, m: map<string, int>, host: string, now: int, m': map<string, int>, h: string)
    requires p.max > 0 && |m| <= p.max && Added(p, m, host, now, m') && CanDrop(p.max, m, now)
    requires Holds(m, h, now) && !Holds(m', h, now) && h != host
    ensures |Purged(m, now)| == p.max && IsEarliest(Purged(m, now), h)
    ensures forall u :: Holds(m, u, now) && u != h && u != host ==> Holds(m', u, now)
  {
    var room := AddedDropsEarliest(p, m, host, now, m');
    DroppedIsEarliest(p.max, m, now, room, h);
  }

  /** For a host that is not already live, while the empty host is not: adding it keeps the set exact if
      and only if fewer than `max` hosts were live, whatever is dropped. */
  lemma NewHostExactIffRoom(p: Params, r: Run)
    requires r.Add? && IsRun(p, r) && p.max > 0 && p.ttl > 0 && Monotone(r) && Exact(p, r.before, r.now)
    requires !Live(p, r.before, r.host, r.now) && !Live(p, r.before, "", r.now)
    ensures Exact(p, r, r.now) <==> |LiveHosts(p, r.before, r.now)| < p.max
  {
    var b := Current(r.before);
    var q := Purged(b, r.now);
    PurgedIsLive(p, r.before, r.now);
    assert |q| == |q.Keys|;
    if |q| < p.max {
      RoomIsExact(p, r);
    } else {
      PurgedSize(b, r.now);
      assert "" !in q;
      var room := AddedDropsEarliest(p, b, r.host, r.now, r.m);
      var v :| IsEarliest(q, v) && room == q - {v};
      assert Live(p, r.before, v, r.now) && v != r.host;
      assert !Holds(Current(r), v, r.now) && Live(p, r, v, r.now);
    }
  }

  /** From the log alone: `host` is live, and every other live host was last added later. */
  ghost predicate FirstOfLive(p: Params, r: Run, host: string, now: int) {
    && Live(p, r, host, now)
    && forall h :: h != host && Live(p, r, h, now) ==> LastAdd(r, host).value < LastAdd(r, h).value
  }

  ghost predicate StrictlyEarliest(q: map<string, int>, host: string) {
    host in q && forall h :: h in q && h != host ==> q[host] < q[h]
  }

  lemma LiveEntry(p: Params, r: Run, h: string, now: int)
    requires IsRun(p, r) && Exact(p, r, now)
    ensures var q := Purged(Current(r), now);
            (h in q <==> Live(p, r, h, now)) && (h in q ==> LastAdd(r, h) == Some(q[h] - p.ttl))
  {
    ReportedMeansRecent(p, r);
    assert Holds(Current(r), h, now) <==> Live(p, r, h, now);
  }

  lemma FirstIsEarliest(p: Params, r: Run, host: string, now: int)
    requires IsRun(p, r) && Exact(p, r, now)
    ensures FirstOfLive(p, r, host, now) <==> StrictlyEarliest(Purged(Current(r), now), host)
  {
    var q := Purged(Current(r), now);
    LiveEntry(p, r, host, now);
    if FirstOfLive(p, r, host, now) {
      forall h | h in q && h != host
        ensures q[host] < q[h]
      {
        LiveEntry(p, r, h, now);
      }
    }
    if StrictlyEarliest(q, host) {
      forall h | h != host && Live(p, r, h, now)
        ensures LastAdd(r, host).value < LastAdd(r, h).value
      {
        LiveEntry(p, r, h, now);
      }
    }
  }

  /** Re-adding the host that was due first drops and restores it, and nothing else. */
  lemma ReaddingFirstIsExact(p: Params, r: Run)
    requires r.Add? && IsRun(p, r) && p.max > 0 && p.ttl > 0 && Exact(p, r.before, r.now)
    requires !Live(p, r.before, "", r.now) && StrictlyEarliest(Purged(Current(r.before), r.now), r.host)
    requires |Purged(Current(r.before), r.now)| >= p.max
    ensures Exact(p, r, r.now)
  {
    var b := Current(r.before);
    var q := Purged(b, r.now);
    PurgedIsLive(p, r.before, r.now);
    PurgedSize(b, r.now);
    assert "" !in q;
    var room := AddedDropsEarliest(p, b, r.host, r.now, r.m);
    var v :| IsEarliest(q, v) && room == q - {v};
    assert v == r.host;
    forall h, now | r.now <= now
      ensures Holds(Current(r), h, now) <==> Live(p, r, h, now)
    {
      assert Holds(b, h, now) <==> Live(p, r.before, h, now);
    }
  }

  /** Otherwise a full set can lose another live host. */
  lemma FullSetCanLose(p: Params, before: Run, host: string, now: int, u: string)
    requires IsRun(p, before) && p.max > 0 && Exact(p, before, now) && !Live(p, before, "", now)
    requires |Purged(Current(before), now)| >= p.max && IsEarliest(Purged(Current(before), now), u) && u != host
    ensures exists m' :: Added(p, Current(before), host, now, m') && !Exact(p, Add(before, host, now, m'), now)
  {
    var b := Current(before);
    var q := Purged(b, now);
    PurgedIsLive(p, before, now);
    PurgedSize(b, now);
    var order := ScanCanPick(q, b.Keys, u);
    var m' := (q - {u})[host := now + p.ttl];
    assert MadeRoom(p.max, b, now, q - {u});
    assert Added(p, b, host, now, m');
    assert Live(p, before, u, now);
    assert !Holds(m', u, now) && Live(p, Add(before, host, now, m'), u, now);
  }

  /** While the empty host is not live: every way of adding a host keeps the set exact if and only if fewer
      than `max` hosts are live, or the host is live already and was added before all other live ones. In
      every other case a full set can lose a live host, even to one that needs no room. */
  lemma ExactIffRoom(p: Params, before: Run, host: string, now: int)
    requires IsRun(p, before) && p.max > 0 && p.ttl > 0 && Exact(p, before, now) && !Live(p, before, "", now)
    ensures (forall m' :: Added(p, Current(before), host, now, m') ==> Exact(p, Add(before, host, now, m'), now))
            <==> |LiveHosts(p, before, now)| < p.max || FirstOfLive(p, before, host, now)
  {
    var b := Current(before);
    var q := Purged(b, now);
    PurgedIsLive(p, before, now);
    assert |q| == |q.Keys|;
    FirstIsEarliest(p, before, host, now);
    if |q| < p.max || StrictlyEarliest(q, host) {
      forall m' | Added(p, b, host, now, m')
        ensures Exact(p, Add(before, host, now, m'), now)
      {
        if |q| < p.max {
          RoomIsExact(p, Add(before, host, now, m'));
        } else {
          ReaddingFirstIsExact(p, Add(before, host, now, m'));
        }
      }
    } else {
      var u := OtherEarliest(q, host);
      FullSetCanLose(p, before, host, now, u);
    }
  }

  lemma RoomIsExact(p: Params, r: Run)
    requires r.Add? && IsRun(p, r) && p.ttl > 0 && Exact(p, r.before, r.now) && |Purged(Current(r.before), r.now)| < p.max
    ensures Exact(p, r, r.now)
  {
    RoomKeepsLive(p, Current(r.before), r.host, r.now, r.m);
    forall h, now | r.now <= now
      ensures Holds(Current(r), h, now) <==> Live(p, r, h, now)
    {
      assert Holds(Current(r.before), h, now) <==> Live(p, r.before, h, now);
    }
  }

  lemma OtherEarliest(q: map<string, int>, host: string) returns (u: string)
    requires q != map[] && !StrictlyEarliest(q, host)
    ensures IsEarliest(q, u) && u != host
  {
    var others := set h | h in q && h != host;
    if host in q {
      var h :| h in q && h != host && q[h] <= q[host];
      assert h in others;
    } else {
      var h :| h in q;
      assert h in others;
    }
    u := EarliestAmong(q, others);
    forall h | h in q
      ensures q[u] <= q[h]
    {
      if h != host {
        assert h in others;
      }
    }
  }

  /** The set part-way through a sweep, with `rest` still to be looked at. */
  function PurgedBut(m: map<string, int>, rest: set<string>, now: int): map<string, int> {
    map h | h in m && (h in rest || m[h] > now) :: m[h]
  }

  lemma PurgedStep(m: map<string, int>, rest: set<string>, now: int, k: string)
    requires k in rest && k in m
    ensures PurgedBut(m, rest - {k}, now) == if m[k] <= now then PurgedBut(m, rest, now) - {k} else PurgedBut(m, rest, now)
  {
  }

  // ----- The set -----

  class SkipSet {
    const p: Params
    var m: map<string, int>

    constructor ()
      ensures m == map[] && p == Params(SKIP_TTL, SKIP_MAX)
    {
      p, m := Params(SKIP_TTL, SKIP_MAX), map[];
    }

    method Add(host: string, now: int)
      modifies this
      ensures Added(p, old(m), host, now, m)
    {
      if |m| >= p.max {
        MakeRoom(now);
      }
      ghost var room := m;
      assert MadeRoom(p.max, old(m), now, room);
      m := m[host := now + p.ttl];
    }

    /** Purge; if still full, drop the entry the sweep came up with. */
    method MakeRoom(now: int)
      requires |m| >= p.max
      modifies this
      ensures MadeRoom(p.max, old(m), now, m)
    {
      ghost var was := m;
      var oldestK, order := Sweep(now);
      if |m| >= p.max && oldestK != "" {
        m := m - {oldestK};
      }
      assert m == Swept(p.max, Purged(was, now), Scanned(Purged(was, now), order));
    }

    /** Delete what has expired and remember an earliest survivor; `order` is the order of the sweep. */
    method Sweep(now: int) returns (oldestK: string, ghost order: seq<string>)
      modifies this
      ensures m == Purged(old(m), now) && Visits(order, old(m).Keys) && oldestK == Scanned(m, order)
    {
      ghost var was, q := m, Purged(m, now);
      var oldestT, rest := 0, m.Keys;
      oldestK, order := "", [];
      VisitedNone(rest);
      assert m == PurgedBut(was, rest, now);
      while rest != {}
        invariant Visited(order, was.Keys, rest)
        invariant m == PurgedBut(was, rest, now)
        invariant oldestK == Scanned(q, order)
        invariant oldestK != "" ==> oldestT == q[oldestK]
        decreases |rest|
      {
        var k :| k in rest;
        var exp := m[k];
        ScanStep(q, order, k);
        VisitStep(order, was.Keys, rest, k);
        PurgedStep(was, rest, now, k);
        rest, order := rest - {k}, order + [k];
        if exp <= now {
          m := m - {k};
          continue;
        }
        if oldestK == "" || exp < oldestT {
          oldestK, oldestT := k, exp;
        }
      }
      VisitedAll(order, was.Keys);
    }

    method Contains(host: string, now: int) returns (r: bool)
      ensures r == Holds(m, host, now)
    {
      r := host in m && now < m[host];
    }
  }
}
