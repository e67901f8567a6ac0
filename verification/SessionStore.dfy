/**
 The in-memory session store: bounded buckets of events by session ID, one active
 session, renaming, expiry and eviction of the least recently updated bucket. Clock reads
 are parameters. Map iteration order is arbitrary, so eviction is a relation: the result of
 scanning the buckets in some order.
 */
module SessionStore {
  import opened Common
  import opened SessionEvents
  import opened SessionFanout
  import opened SentinelScan

  const MAX_SESSION_ID_LEN: nat := 256

  datatype Entry = Entry(id: string, events: seq<Event>, createdAt: int, updatedAt: int)

  datatype Config = Config(ttl: int, maxEvents: int, maxSessions: int)

  datatype Buckets = Buckets(sessions: map<string, Entry>, activeID: string)

  function Truncated(id: string): string {
    if |id| > MAX_SESSION_ID_LEN then id[..MAX_SESSION_ID_LEN] else id
  }

  predicate Expired(cfg: Config, e: Entry, now: int) {
    now - e.updatedAt > cfg.ttl
  }

  // ----- What each operation does to the buckets -----

  function Written(cfg: Config, b: Buckets, id: string, e: Event, now: int): Buckets {
    var was := if id in b.sessions then b.sessions[id] else Entry(id, [], now, now);
    var entry := was.(events := Trimmed(was.events + [e.(sessionID := id)], cfg.maxEvents), updatedAt := now);
    Buckets(b.sessions[id := entry], id)
  }

  /** When each inactive bucket was last updated. */
  function Inactive(b: Buckets): map<string, int> {
    map id | id in b.sessions && id != b.activeID :: b.sessions[id].updatedAt
  }

  /** The buckets after eviction, when they are iterated over in the given order. */
  function Evicting(b: Buckets, order: seq<string>): Buckets {
    var v := Scanned(Inactive(b), order);
    if v != "" then b.(sessions := b.sessions - {v})
    else Buckets(if b.activeID == "" then b.sessions else b.sessions - {b.activeID}, "")
  }

  ghost predicate Evicted(b: Buckets, b': Buckets) {
    exists order :: Visits(order, b.sessions.Keys) && b' == Evicting(b, order)
  }

  /** What eviction is for: an oldest inactive bucket goes, or the active one if there is no other. */
  ghost predicate TakesOldest(b: Buckets, b': Buckets) {
    if forall id :: id in b.sessions ==> id == b.activeID
    then b' == Buckets(if b.activeID == "" then b.sessions else b.sessions - {b.activeID}, "")
    else exists v :: IsOldest(b, v) && b' == b.(sessions := b.sessions - {v})
  }

  /** No inactive session was updated longer ago. */
  ghost predicate IsOldest(b: Buckets, v: string) {
    && v in b.sessions && v != b.activeID
    && forall u :: u in b.sessions && u != b.activeID ==> b.sessions[v].updatedAt <= b.sessions[u].updatedAt
  }

  /** The session under the empty ID is the only such one. */
  ghost predicate EmptyIsOldest(b: Buckets) {
    && "" in b.sessions && "" != b.activeID
    && forall u :: u in b.sessions && u != b.activeID && u != "" ==> b.sessions[""].updatedAt < b.sessions[u].updatedAt
  }

  lemma InactiveTimes(b: Buckets)
    ensures Inactive(b) == map[] <==> forall id :: id in b.sessions ==> id == b.activeID
    ensures EmptyIsEarliest(Inactive(b)) <==> EmptyIsOldest(b)
    ensures forall v :: IsEarliest(Inactive(b), v) <==> IsOldest(b, v)
  {
    var times := Inactive(b);
    assert forall id :: id in times <==> id in b.sessions && id != b.activeID;
    if forall id :: id in b.sessions ==> id == b.activeID {
      assert times == map[];
    } else {
      var id :| id in b.sessions && id != b.activeID;
      assert id in times;
    }
  }

  lemma EvictionTakesOldest(b: Buckets, b': Buckets)
    requires Evicted(b, b') && !EmptyIsOldest(b)
    ensures TakesOldest(b, b')
  {
    var order :| Visits(order, b.sessions.Keys) && b' == Evicting(b, order);
    InactiveTimes(b);
    if Inactive(b) == map[] {
      ScanOfNothing(Inactive(b), order);
    } else {
      ScanFindsEarliest(Inactive(b), order, b.sessions.Keys);
      assert IsOldest(b, Scanned(Inactive(b), order));
    }
  }

  /** The scan takes the empty ID for "none yet". So eviction does what it is for, in every iteration
      order, if and only if no bucket under the empty ID is inactive and older than all other inactive ones. */
  lemma EvictionTakesOldestIff(b: Buckets)
    ensures (forall b' :: Evicted(b, b') ==> TakesOldest(b, b')) <==> !EmptyIsOldest(b)
  {
    if EmptyIsOldest(b) {
      InactiveTimes(b);
      var order := ScanCanMiss(Inactive(b), b.sessions.Keys);
      var b' := Evicting(b, order);
      assert Evicted(b, b') && b'.activeID == "" != b.activeID;
      assert !TakesOldest(b, b');
    } else {
      forall b' | Evicted(b, b')
        ensures TakesOldest(b, b')
      {
        EvictionTakesOldest(b, b');
      }
    }
  }

  predicate OverCap(cfg: Config, b: Buckets) {
    cfg.maxSessions > 0 && |b.sessions| > cfg.maxSessions
  }

  ghost predicate Appended(cfg: Config, b: Buckets, sessionID: string, e: Event, now: int, b': Buckets) {
    var w := Written(cfg, b, Truncated(sessionID), e, now);
    if OverCap(cfg, w) then Evicted(w, b') else b' == w
  }

  predicate RekeyMoves(b: Buckets, oldID: string, newID: string) {
    oldID != newID && oldID != "" && newID != "" && oldID in b.sessions && Truncated(newID) !in b.sessions
  }

  function Rekeyed(b: Buckets, oldID: string, newID: string): Buckets {
    if !RekeyMoves(b, oldID, newID) then b
    else
      var id, e := Truncated(newID), b.sessions[oldID];
      Buckets((b.sessions - {oldID})[id := e.(id := id, events := Stamped(e.events, id))],
              if b.activeID == oldID then id else b.activeID)
  }

  function Cleaned(cfg: Config, b: Buckets, now: int): Buckets {
    Buckets(map id | id in b.sessions && !Expired(cfg, b.sessions[id], now) :: b.sessions[id],
            if b.activeID in b.sessions && Expired(cfg, b.sessions[b.activeID], now) then "" else b.activeID)
  }

  // ----- What each operation is for -----

  /** An ID as it is stored: its first 256 characters. */
  predicate StoredAs(s: string, id: string) {
    id <= s && |id| == if |s| > 256 then 256 else |s|
  }

  /** The bucket written to is created now if it was missing, else keeps its creation time; it is updated now, holds
      the trimmed events with the new one stamped and last to go in, and is active before any eviction. */
  lemma WriteEffect(cfg: Config, b: Buckets, id: string, e: Event, now: int)
    ensures var w := Written(cfg, b, id, e, now);
            && w.sessions.Keys == b.sessions.Keys + {id} && w.activeID == id
            && (forall u :: u in b.sessions && u != id ==> w.sessions[u] == b.sessions[u])
            && w.sessions[id].id == (if id in b.sessions then b.sessions[id].id else id)
            && w.sessions[id].createdAt == (if id in b.sessions then b.sessions[id].createdAt else now)
            && w.sessions[id].updatedAt == now
            && w.sessions[id].events ==
               Trimmed((if id in b.sessions then b.sessions[id].events else []) + [e.(sessionID := id)], cfg.maxEvents)
  {
  }

  /** As long as there is no bound on sessions, or the sessions stay within it, an append loses none. */
  lemma WithinCapNothingGoes(cfg: Config, b: Buckets, s: string, id: string, e: Event, now: int, b': Buckets)
    requires Appended(cfg, b, s, e, now, b') && StoredAs(s, id)
    requires cfg.maxSessions <= 0 || |b.sessions.Keys + {id}| <= cfg.maxSessions
    ensures b'.sessions.Keys == b.sessions.Keys + {id} && b'.activeID == id
    ensures forall u :: u in b.sessions && u != id ==> b'.sessions[u] == b.sessions[u]
  {
    assert Truncated(s) == id;
    WriteEffect(cfg, b, id, e, now);
    var w := Written(cfg, b, id, e, now);
    assert |w.sessions| == |w.sessions.Keys|;
  }

  /** A rename moves the session: its times and events stay, the events carry the new ID, every other session is
      untouched, and the active ID follows. */
  lemma RekeyMovesSession(b: Buckets, o: string, n: string, id: string)
    requires o != n && o != "" && n != "" && StoredAs(n, id) && o in b.sessions && id !in b.sessions
    ensures var b' := Rekeyed(b, o, n);
            && b'.sessions.Keys == b.sessions.Keys - {o} + {id}
            && (forall u :: u in b.sessions && u != o ==> b'.sessions[u] == b.sessions[u])
            && var was, moved := b.sessions[o], b'.sessions[id];
               && moved.id == id && moved.createdAt == was.createdAt && moved.updatedAt == was.updatedAt && |moved.events| == |was.events|
               && (forall k :: 0 <= k < |was.events| ==> moved.events[k] == was.events[k].(sessionID := id))
               && b'.activeID == if b.activeID == o then id else b.activeID
  {
    assert Truncated(n) == id;
  }

  /** In every other case a rename changes nothing. */
  lemma RekeyRefuses(b: Buckets, o: string, n: string, id: string)
    requires StoredAs(n, id) && (o == n || o == "" || n == "" || o !in b.sessions || id in b.sessions)
    ensures Rekeyed(b, o, n) == b
  {
    assert Truncated(n) == id;
  }

  /** Cleaning up removes exactly the sessions idle for longer than the time to live, leaves the others as they
      are, and forgets the active ID exactly if its session goes. */
  lemma CleanupRemovesIdle(cfg: Config, b: Buckets, now: int, id: string)
    ensures var b' := Cleaned(cfg, b, now);
            && (id in b'.sessions <==> id in b.sessions && now - b.sessions[id].updatedAt <= cfg.ttl)
            && (id in b'.sessions ==> b'.sessions[id] == b.sessions[id])
            && b'.activeID == if b.activeID in b.sessions && now - b.sessions[b.activeID].updatedAt > cfg.ttl then "" else b.activeID
  {
  }

  // ----- Runs -----

  datatype Op =
    | Append(sessionID: string, event: Event, now: int)
    | Rekey(oldID: string, newID: string)
    | Cleanup(now: int)

  ghost predicate Step(cfg: Config, b: Buckets, op: Op, b': Buckets) {
    match op
    case Append(id, e, now) => Appended(cfg, b, id, e, now, b')
    case Rekey(o, n) => b' == Rekeyed(b, o, n)
    case Cleanup(now) => b' == Cleaned(cfg, b, now)
  }

  /** A run, latest step outermost, with the buckets after each step. */
  datatype Run = Start | Then(before: Run, op: Op, buckets: Buckets)

  function Current(r: Run): Buckets {
    if r.Start? then Buckets(map[], "") else r.buckets
  }

  ghost predicate IsRun(cfg: Config, r: Run) {
    r.Then? ==> IsRun(cfg, r.before) && Step(cfg, Current(r.before), r.op, r.buckets)
  }

  /** Everything ever appended to the conversation now stored under `id`, following renames,
      since its bucket was created. Nothing here knows about trimming. */
  function History(r: Run, id: string): seq<Event> {
    if r.Start? then []
    else
      var b := Current(r.before);
      match r.op
      case Append(s, e, _) =>
        if Truncated(s) != id then History(r.before, id)
        else (if id in b.sessions then History(r.before, id) else []) + [e]
      case Rekey(o, n) =>
        if RekeyMoves(b, o, n) && Truncated(n) == id then History(r.before, o) else History(r.before, id)
      case Cleanup(_) => History(r.before, id)
  }

  lemma StampedTwice(es: seq<Event>, a: string, b: string)
    ensures Stamped(Stamped(es, a), b) == Stamped(es, b)
  {
  }

  lemma StampedAppend(es: seq<Event>, e: Event, id: string)
    ensures Stamped(es, id) + [e.(sessionID := id)] == Stamped(es + [e], id)
  {
  }

  lemma WrittenBucket(cfg: Config, h: seq<Event>, e: Event, id: string)
    ensures Trimmed(Stamped(Trimmed(h, cfg.maxEvents), id) + [e.(sessionID := id)], cfg.maxEvents)
         == Stamped(Trimmed(h + [e], cfg.maxEvents), id)
  {
    StampedAppend(Trimmed(h, cfg.maxEvents), e, id);
    TrimStamp(Trimmed(h, cfg.maxEvents) + [e], id, cfg.maxEvents);
    TrimAbsorbsTrim(h, e, cfg.maxEvents);
  }

  /** Survivors of an append are unchanged, except the bucket written to. */
  lemma AppendedEntry(cfg: Config, b: Buckets, s: string, e: Event, now: int, b': Buckets, id: string)
    requires Appended(cfg, b, s, e, now, b') && id in b'.sessions
    ensures b'.sessions[id] == Written(cfg, b, Truncated(s), e, now).sessions[id]
  {
  }

  /** The bucket holds one trim of `h`. */
  predicate Holds(cfg: Config, b: Buckets, id: string, h: seq<Event>) {
    id in b.sessions && b.sessions[id].events == Stamped(Trimmed(h, cfg.maxEvents), id)
  }

  lemma AppendHolds(cfg: Config, b: Buckets, s: string, e: Event, now: int, b': Buckets, id: string, h: seq<Event>)
    requires Appended(cfg, b, s, e, now, b') && id in b'.sessions
    requires if id in b.sessions then Holds(cfg, b, id, h) else h == []
    ensures Holds(cfg, b', id, if Truncated(s) == id then h + [e] else h)
  {
    AppendedEntry(cfg, b, s, e, now, b', id);
    if Truncated(s) == id {
      WrittenBucket(cfg, h, e, id);
      if id !in b.sessions {
        assert Stamped([], id) == [];
      }
    } else {
      AppendedKeys(cfg, b, s, e, now, b', id);
    }
  }

  lemma RekeyHolds(cfg: Config, b: Buckets, o: string, n: string, id: string, h: seq<Event>)
    requires id in Rekeyed(b, o, n).sessions
    requires Holds(cfg, b, if RekeyMoves(b, o, n) && Truncated(n) == id then o else id, h)
    ensures Holds(cfg, Rekeyed(b, o, n), id, h)
  {
    if RekeyMoves(b, o, n) && Truncated(n) == id {
      StampedTwice(Trimmed(h, cfg.maxEvents), o, id);
    }
  }

  /** Each bucket, after any run whatever was evicted, renamed or expired meanwhile, holds one
      trim of its complete append history. */
  lemma {:induction false} BucketIsTrimmedHistory(cfg: Config, r: Run, id: string)
    requires IsRun(cfg, r) && id in Current(r).sessions
    ensures Current(r).sessions[id].events == Stamped(Trimmed(History(r, id), cfg.maxEvents), id)
  {
    var b := Current(r.before);
    match r.op
    case Append(s, e, now) =>
      if id in b.sessions {
        BucketIsTrimmedHistory(cfg, r.before, id);
        AppendHolds(cfg, b, s, e, now, r.buckets, id, History(r.before, id));
      } else {
        AppendedKeys(cfg, b, s, e, now, r.buckets, id);
        AppendHolds(cfg, b, s, e, now, r.buckets, id, []);
      }
    case Rekey(o, n) =>
      var from := if RekeyMoves(b, o, n) && Truncated(n) == id then o else id;
      BucketIsTrimmedHistory(cfg, r.before, from);
      RekeyHolds(cfg, b, o, n, id, History(r.before, from));
    case Cleanup(_) =>
      BucketIsTrimmedHistory(cfg, r.before, id);
  }

  /** A consumer reading a session sees the last intent ever appended to it, and the bound holds. */
  lemma LastIntentIsNeverLost(cfg: Config, r: Run, id: string)
    requires IsRun(cfg, r) && id in Current(r).sessions
    ensures var seen := LastIntent(Current(r).sessions[id].events);
            var ever := LastIntent(History(r, id));
            if ever == None then seen == None else seen == Some(ever.value.(sessionID := id))
    ensures cfg.maxEvents > 0 ==> |Current(r).sessions[id].events| <= cfg.maxEvents
  {
    BucketIsTrimmedHistory(cfg, r, id);
    var h := History(r, id);
    TrimKeepsLastIntent(h, cfg.maxEvents);
    StampKeepsIntent(Trimmed(h, cfg.maxEvents), id);
    if 0 < cfg.maxEvents < |h| {
      TrimBoundsAndKeepsNewest(h, cfg.maxEvents);
    }
  }

  // ----- The active session -----

  /** Time of the latest clock read of a run. */
  function Clock(r: Run): int {
    if r.Start? then 0 else if r.op.Rekey? then Clock(r.before) else r.op.now
  }

  /** The clock never goes back and no session is created under the empty ID. */
  predicate WellTimed(r: Run) {
    r.Then? ==>
      && WellTimed(r.before)
      && (!r.op.Rekey? ==> Clock(r.before) <= r.op.now)
      && (r.op.Append? ==> r.op.sessionID != "")
  }

  ghost predicate Consistent(cfg: Config, b: Buckets, now: int) {
    Sound(b, now) && !OverCap(cfg, b)
  }

  ghost predicate Sound(b: Buckets, now: int) {
    && "" !in b.sessions
    && (b.activeID == "" <==> b.sessions == map[])
    && (b.activeID != "" ==> b.activeID in b.sessions && IsNewest(b, b.activeID))
    && (forall id :: id in b.sessions ==> EntryConsistent(b.sessions[id], id, now))
  }

  ghost predicate IsNewest(b: Buckets, a: string)
    requires a in b.sessions
  {
    forall u :: u in b.sessions ==> b.sessions[u].updatedAt <= b.sessions[a].updatedAt
  }

  ghost predicate EntryConsistent(e: Entry, id: string, now: int) {
    && e.id == id && e.updatedAt <= now
    && forall k :: 0 <= k < |e.events| ==> e.events[k].sessionID == id
  }

  lemma MapSingle<K, V>(m: map<K, V>, k: K)
    requires forall u :: u in m ==> u == k
    ensures |m| <= 1
  {
    assert m.Keys <= {k};
    if k in m {
      assert m.Keys == {k};
    } else {
      assert m.Keys == {};
    }
  }

  lemma WrittenEntry(cfg: Config, b: Buckets, id: string, e: Event, now: int)
    requires id in b.sessions ==> EntryConsistent(b.sessions[id], id, now)
    ensures EntryConsistent(Written(cfg, b, id, e, now).sessions[id], id, now)
  {
    var es := (if id in b.sessions then b.sessions[id].events else []) + [e.(sessionID := id)];
    var t := Trimmed(es, cfg.maxEvents);
    if 0 < cfg.maxEvents < |es| {
      var pin := LastIntentIndex(es);
      assert forall k :: 0 <= k < |t| ==> t[k] in es;
    }
  }

  lemma WrittenSound(cfg: Config, b: Buckets, id: string, e: Event, now: int, before: int)
    requires Sound(b, before) && before <= now && id != ""
    ensures Sound(Written(cfg, b, id, e, now), now)
  {
    WrittenEntry(cfg, b, id, e, now);
    assert id in Written(cfg, b, id, e, now).sessions;
  }

  lemma RemovingInactiveSound(b: Buckets, v: string, now: int)
    requires Sound(b, now) && v in b.sessions && v != b.activeID
    ensures Sound(b.(sessions := b.sessions - {v}), now)
  {
    assert b.activeID in b.sessions - {v};
  }

  /** An append that goes over the cap evicts one other session, which brings it back to the cap. */
  lemma AppendEvictsAnother(cfg: Config, b: Buckets, id: string, e: Event, now: int, b': Buckets)
    requires "" !in b.sessions && !OverCap(cfg, b)
    requires OverCap(cfg, Written(cfg, b, id, e, now)) && Evicted(Written(cfg, b, id, e, now), b')
    ensures var w := Written(cfg, b, id, e, now);
            exists v :: IsOldest(w, v) && b' == w.(sessions := w.sessions - {v}) && |b'.sessions| == cfg.maxSessions
  {
    var w := Written(cfg, b, id, e, now);
    MapPut(b.sessions, id, w.sessions[id]);
    EvictionTakesOldest(w, b');
    if forall u :: u in w.sessions ==> u == w.activeID {
      MapSingle(w.sessions, w.activeID);
      assert false;
    }
    var u :| u in w.sessions && u != w.activeID;
    var v :| IsOldest(w, v) && b' == w.(sessions := w.sessions - {v});
    MapRemove(w.sessions, v);
  }

  /** Appending keeps the store consistent, and keeps the session it wrote as the active one, if
      and only if the session ID is not empty: the empty string marks "no active session". */
  lemma AppendKeepsConsistentIff(cfg: Config, b: Buckets, s: string, e: Event, now: int, b': Buckets, before: int)
    requires Consistent(cfg, b, before) && before <= now && Appended(cfg, b, s, e, now, b')
    ensures Consistent(cfg, b', now) <==> s != ""
    ensures Truncated(s) in b'.sessions && b'.activeID == Truncated(s)
  {
    var id := Truncated(s);
    var w := Written(cfg, b, id, e, now);
    assert id == "" <==> s == "";
    if s != "" {
      WrittenSound(cfg, b, id, e, now, before);
    }
    if OverCap(cfg, w) {
      AppendEvictsAnother(cfg, b, id, e, now, b');
      var v :| IsOldest(w, v) && b' == w.(sessions := w.sessions - {v}) && |b'.sessions| == cfg.maxSessions;
      if s != "" {
        RemovingInactiveSound(w, v, now);
      }
    }
  }

  function FirstBuckets(cfg: Config, e: Event): Buckets {
    Written(cfg, Buckets(map[], ""), "", e, 0)
  }

  lemma EmptyIdScan(cfg: Config, e: Event)
    requires cfg.maxEvents == 0 && cfg.maxSessions == 1
    ensures var w := Written(cfg, FirstBuckets(cfg, e), "a", e, 1);
            OverCap(cfg, w) && Evicted(w, Buckets(w.sessions - {"a"}, ""))
  {
    var w := Written(cfg, FirstBuckets(cfg, e), "a", e, 1);
    assert w.sessions.Keys == {"", "a"} && |w.sessions| == |w.sessions.Keys|;
    var order := ["", "a"];
    assert order[..1] == [""] && order[..1][..0] == [];
    assert Scanned(Inactive(w), order[..1]) == "" && Scanned(Inactive(w), order) == "";
    assert Visits(order[..1], {""}) && w.sessions.Keys - {"a"} == {""};
    assert Visits(order, w.sessions.Keys) && Evicting(w, order) == Buckets(w.sessions - {"a"}, "");
  }

  /** A run in which an append evicts the very session it wrote: with room for one session, first an append
      under the empty ID, then one under a proper ID. */
  lemma EmptyIdEvictsTheWritten(e: Event, ttl: int)
    ensures exists r :: IsRun(Config(ttl, 0, 1), r) && r.Then? && r.before.Then? && r.before.before.Start?
                        && r.before.op == Append("", e, 0) && r.op == Append("a", e, 1)
                        && "a" !in r.buckets.sessions && r.buckets.activeID == ""
  {
    var cfg := Config(ttl, 0, 1);
    var b := FirstBuckets(cfg, e);
    assert Truncated("") == "" && Truncated("a") == "a";
    assert b.sessions.Keys == {""} && |b.sessions| == |b.sessions.Keys|;
    var first := Then(Start, Append("", e, 0), b);
    assert Appended(cfg, Current(Start), "", e, 0, b);
    EmptyIdScan(cfg, e);
    var w := Written(cfg, b, "a", e, 1);
    var r := Then(first, Append("a", e, 1), Buckets(w.sessions - {"a"}, ""));
    assert IsRun(cfg, Start) && IsRun(cfg, first);
    assert Step(cfg, Current(first), r.op, r.buckets);
    assert IsRun(cfg, r);
  }

  lemma RekeyKeepsConsistent(cfg: Config, b: Buckets, o: string, n: string, now: int)
    requires Consistent(cfg, b, now)
    ensures Consistent(cfg, Rekeyed(b, o, n), now)
  {
    if RekeyMoves(b, o, n) {
      var id := Truncated(n);
      MapRemove(b.sessions, o);
      MapPut(b.sessions - {o}, id, Rekeyed(b, o, n).sessions[id]);
    }
  }

  /** The active session is never older than another, so it expires last and with all of them. */
  lemma CleanupKeepsConsistent(cfg: Config, b: Buckets, before: int, now: int)
    requires Consistent(cfg, b, before) && before <= now
    ensures Consistent(cfg, Cleaned(cfg, b, now), now)
  {
    var c := Cleaned(cfg, b, now);
    assert c.sessions.Keys <= b.sessions.Keys;
    SubsetSize(c.sessions.Keys, b.sessions.Keys);
    if b.activeID != "" && Expired(cfg, b.sessions[b.activeID], now) {
      assert c.sessions.Keys == {};
    } else if b.activeID != "" {
      assert b.activeID in c.sessions;
    }
  }

  /** Over every run with a clock that does not go back and non-empty session IDs: the active ID
      names a most recently updated session, or is empty exactly when there is none; keys, entries
      and events agree on the ID; and the cap on sessions holds. */
  lemma {:induction false} StoreStaysConsistent(cfg: Config, r: Run)
    requires IsRun(cfg, r) && WellTimed(r)
    ensures Consistent(cfg, Current(r), Clock(r))
  {
    if r.Then? {
      StoreStaysConsistent(cfg, r.before);
      var b, before := Current(r.before), Clock(r.before);
      match r.op
      case Append(s, e, now) => AppendKeepsConsistentIff(cfg, b, s, e, now, r.buckets, before);
      case Rekey(o, n) => RekeyKeepsConsistent(cfg, b, o, n, before);
      case Cleanup(now) => CleanupKeepsConsistent(cfg, b, before, now);
    }
  }

  /** What View answers. */
  function Viewed(cfg: Config, b: Buckets, id: string, now: int): Option<seq<Event>> {
    if id in b.sessions && !Expired(cfg, b.sessions[id], now) then Some(b.sessions[id].events) else None
  }

  /** A session is seen exactly as long as it has not been idle for longer than the time to live. */
  lemma ViewedWhileFresh(cfg: Config, b: Buckets, id: string, now: int)
    ensures Viewed(cfg, b, id, now) == if id in b.sessions && now - b.sessions[id].updatedAt <= cfg.ttl then Some(b.sessions[id].events) else None
    ensures ActiveAt(cfg, b, now) ==
            if b.activeID in b.sessions && now - b.sessions[b.activeID].updatedAt <= cfg.ttl then b.activeID else ""
  {
  }

  lemma {:induction false} KeysStayShort(cfg: Config, r: Run, id: string)
    requires IsRun(cfg, r) && id in Current(r).sessions
    ensures |id| <= MAX_SESSION_ID_LEN
  {
    var b := Current(r.before);
    if id in b.sessions {
      KeysStayShort(cfg, r.before, id);
    } else if r.op.Append? {
      AppendedKeys(cfg, b, r.op.sessionID, r.op.event, r.op.now, r.buckets, id);
    }
  }

  lemma AppendedKeys(cfg: Config, b: Buckets, s: string, e: Event, now: int, b': Buckets, id: string)
    requires Appended(cfg, b, s, e, now, b') && id in b'.sessions
    ensures id in b.sessions || id == Truncated(s)
  {
  }

  predicate EndsWith(v: Option<seq<Event>>, e: Event) {
    v.Some? && v.value != [] && v.value[|v.value| - 1] == e
  }

  /** Append cuts long IDs and View does not. So, in a run with a monotone clock and proper IDs, viewing a
      session straight after an append shows the event at the end if and only if the ID is not too long,
      nothing expires at once, and the event did not lose the only place to an earlier intent. */
  lemma AppendedIsViewedIff(cfg: Config, r: Run)
    requires IsRun(cfg, r) && WellTimed(r) && r.Then? && r.op.Append?
    ensures var b, s, e := Current(r.before), r.op.sessionID, r.op.event;
            EndsWith(Viewed(cfg, Current(r), s, r.op.now), e.(sessionID := s)) <==>
              && |s| <= MAX_SESSION_ID_LEN && cfg.ttl >= 0
              && !(cfg.maxEvents == 1 && !IsIntent(e) && s in b.sessions && LastIntent(b.sessions[s].events).Some?)
  {
    var b, s, e, now := Current(r.before), r.op.sessionID, r.op.event, r.op.now;
    if |s| > MAX_SESSION_ID_LEN {
      if s in Current(r).sessions {
        KeysStayShort(cfg, r, s);
      }
    } else {
      StoreStaysConsistent(cfg, r.before);
      AppendKeepsConsistentIff(cfg, b, s, e, now, r.buckets, Clock(r.before));
      AppendedEntry(cfg, b, s, e, now, r.buckets, s);
      TrimKeepsAppendedIff(if s in b.sessions then b.sessions[s].events else [], e.(sessionID := s), cfg.maxEvents);
    }
  }

  /** A run of one append under a long ID, after which viewing that ID shows nothing. */
  lemma LongIdIsNotViewed(s: string, e: Event, cfg: Config)
    requires |s| > MAX_SESSION_ID_LEN && cfg.maxSessions <= 0
    ensures exists r :: IsRun(cfg, r) && r.Then? && r.before.Start? && r.op == Append(s, e, 0) && Viewed(cfg, Current(r), s, 0) == None
  {
    var b := Written(cfg, Buckets(map[], ""), Truncated(s), e, 0);
    var r := Then(Start, Append(s, e, 0), b);
    assert IsRun(cfg, Start) && Step(cfg, Current(Start), r.op, b);
    assert IsRun(cfg, r) && Truncated(s) != s;
  }

  /** A run of two appends to a session bounded to one event: the earlier intent stays and the newer event is
      not kept. */
  lemma LoneIntentKeepsItsPlace(intent: Event, note: Event, ttl: int)
    requires IsIntent(intent) && !IsIntent(note) && ttl >= 0
    ensures exists r :: IsRun(Config(ttl, 1, 0), r) && r.Then? && r.before.Then? && r.before.before.Start?
                        && r.before.op == Append("a", intent, 0) && r.op == Append("a", note, 0)
                        && Viewed(Config(ttl, 1, 0), Current(r), "a", 0) == Some([intent.(sessionID := "a")])
  {
    var cfg, i, n := Config(ttl, 1, 0), intent.(sessionID := "a"), note.(sessionID := "a");
    var b := Written(cfg, Buckets(map[], ""), "a", intent, 0);
    var b' := Written(cfg, b, "a", note, 0);
    var first := Then(Start, Append("a", intent, 0), b);
    var r := Then(first, Append("a", note, 0), b');
    assert Truncated("a") == "a" && [] + [i] == [i] && b.sessions["a"].events == [i];
    LastIntentIndexUnique([i, n], 0);
    assert [i] + [n] == [i, n] && Trimmed([i, n], 1) == [i] + [i, n][2..] == [i];
    assert b'.sessions["a"].events == [i];
    assert IsRun(cfg, Start) && Step(cfg, Current(Start), first.op, b);
    assert IsRun(cfg, first) && Step(cfg, Current(first), r.op, b');
    assert IsRun(cfg, r);
  }

  function ActiveAt(cfg: Config, b: Buckets, now: int): string {
    if b.activeID in b.sessions && !Expired(cfg, b.sessions[b.activeID], now) then b.activeID else ""
  }

  /** The inference totals of the responses. */
  function TokensOf(es: seq<Event>): int {
    if es == [] then 0
    else
      var e := es[|es| - 1];
      TokensOf(es[..|es| - 1]) + if e.phase == Response && e.tokens.Some? then e.tokens.value else 0
  }

  method SumTokens(events: seq<Event>) returns (total: int)
    ensures total == TokensOf(events)
  {
    total := 0;
    for i := 0 to |events|
      invariant total == TokensOf(events[..i])
    {
      assert events[..i + 1][..i] == events[..i];
      if events[i].phase != Response {
        continue;
      }
      if events[i].tokens.None? {
        continue;
      }
      total := total + events[i].tokens.value;
    }
    assert events[..|events|] == events;
  }

  datatype Summary = Summary(id: string, createdAt: int, updatedAt: int, eventCount: nat, totalTokens: int, active: bool)

  function SummaryOf(b: Buckets, id: string): Summary
    requires id in b.sessions
  {
    var e := b.sessions[id];
    Summary(id, e.createdAt, e.updatedAt, |e.events|, TokensOf(e.events), id == b.activeID)
  }

  /** `out` lists the unexpired sessions of `ids`, each once, most recently updated first. */
  ghost predicate Lists(cfg: Config, b: Buckets, now: int, ids: set<string>, out: seq<Summary>) {
    NewestFirst(out) && OnlyUnexpired(cfg, b, now, ids, out) && AllUnexpired(cfg, b, now, ids, out)
  }

  ghost predicate NewestFirst(out: seq<Summary>) {
    forall i, j :: 0 <= i < j < |out| ==> out[i].updatedAt >= out[j].updatedAt && out[i].id != out[j].id
  }

  ghost predicate OnlyUnexpired(cfg: Config, b: Buckets, now: int, ids: set<string>, out: seq<Summary>) {
    forall i :: 0 <= i < |out| ==>
      out[i].id in ids && out[i].id in b.sessions && out[i] == SummaryOf(b, out[i].id) && !Expired(cfg, b.sessions[out[i].id], now)
  }

  ghost predicate AllUnexpired(cfg: Config, b: Buckets, now: int, ids: set<string>, out: seq<Summary>) {
    forall id :: id in ids && id in b.sessions && !Expired(cfg, b.sessions[id], now) ==> SummaryOf(b, id) in out
  }

  /** Token totals add up, and a single event counts if it is a response with an inference total. */
  lemma {:induction false} TokensAddUp(a: seq<Event>, b: seq<Event>, e: Event)
    ensures TokensOf(a + b) == TokensOf(a) + TokensOf(b)
    ensures TokensOf([e]) == if e.phase == Response && e.tokens.Some? then e.tokens.value else 0
    decreases |b|
  {
    assert [e][..0] == [];
    if b == [] {
      assert a + b == a;
    } else {
      TokensAddUp(a, b[..|b| - 1], e);
      assert (a + b)[..|a + b| - 1] == a + b[..|b| - 1];
    }
  }

  /** The list shows exactly the sessions that have not been idle for too long, each once with its own times, event
      count and token total, the most recently updated first. */
  lemma ListShowsSessions(cfg: Config, b: Buckets, now: int, out: seq<Summary>, id: string)
    requires Lists(cfg, b, now, b.sessions.Keys, out)
    ensures (exists i :: 0 <= i < |out| && out[i].id == id) <==> id in b.sessions && now - b.sessions[id].updatedAt <= cfg.ttl
    ensures forall i :: 0 <= i < |out| && out[i].id == id && id in b.sessions ==>
              var e := b.sessions[id];
              out[i] == Summary(id, e.createdAt, e.updatedAt, |e.events|, TokensOf(e.events), id == b.activeID)
    ensures forall i, j :: 0 <= i < j < |out| ==> out[i].id != out[j].id && out[i].updatedAt >= out[j].updatedAt
  {
    if id in b.sessions && now - b.sessions[id].updatedAt <= cfg.ttl {
      assert SummaryOf(b, id) in out;
      var i :| 0 <= i < |out| && out[i] == SummaryOf(b, id);
      assert out[i].id == id;
    }
  }

  /** The list and the active ID never disagree: none is active exactly when the list is
      empty, and otherwise exactly one listed session is active, updated as recently as the first. */
  lemma ListAgreesWithActive(cfg: Config, b: Buckets, before: int, now: int, out: seq<Summary>)
    requires Consistent(cfg, b, before) && Lists(cfg, b, now, b.sessions.Keys, out)
    ensures ActiveAt(cfg, b, now) == "" <==> out == []
    ensures out != [] ==> exists i :: 0 <= i < |out| && out[i].active && out[i].id == ActiveAt(cfg, b, now)
                                   && out[i].updatedAt == out[0].updatedAt
    ensures forall i, j :: 0 <= i < |out| && 0 <= j < |out| && out[i].active && out[j].active ==> i == j
  {
    if out != [] {
      var a := b.activeID;
      assert out[0].id in b.sessions;
      assert SummaryOf(b, a) in out;
      var i :| 0 <= i < |out| && out[i] == SummaryOf(b, a);
    }
  }

  // ----- The store itself -----

  /** Where a summary goes in a list that is newest first. */
  method PlaceFor(out: seq<Summary>, s: Summary) returns (at: nat)
    ensures at <= |out| && forall k :: 0 <= k < at ==> out[k].updatedAt > s.updatedAt
    ensures at < |out| ==> out[at].updatedAt <= s.updatedAt
  {
    at := 0;
    while at < |out| && s.updatedAt < out[at].updatedAt
      invariant at <= |out|
      invariant forall k :: 0 <= k < at ==> out[k].updatedAt > s.updatedAt
    {
      at := at + 1;
    }
  }

  class Subscriber {
    var ch: seq<Event>
    var drops: nat
    var closed: bool

    ghost function Value(): Channel
      reads this
    {
      Channel(ch, drops, closed)
    }

    constructor ()
      ensures Value() == Channel([], 0, false)
    {
      ch, drops, closed := [], 0, false;
    }

    /** `select { case ch <- event: default: drops++ }`; a send on a closed channel would panic. */
    method Offer(e: Event)
      requires !closed
      modifies this
      ensures Value() == Offered(old(Value()), e)
    {
      if |ch| < SUBSCRIBER_CHAN_BUF {
        ch := ch + [e];
      } else {
        drops := drops + 1;
      }
    }

    method CloseCh()
      modifies this`closed
      ensures closed
    {
      closed := true;
    }
  }

  class Store {
    const cfg: Config
    var sessions: map<string, Entry>
    var activeID: string
    var subscribers: seq<Subscriber>
    var stopped: bool

    ghost function Value(): Buckets
      reads this
    {
      Buckets(sessions, activeID)
    }

    ghost predicate SubscribersValid()
      reads this, subscribers
    {
      && (forall i :: 0 <= i < |subscribers| ==> !subscribers[i].closed)
      && (forall i, j :: 0 <= i < j < |subscribers| ==> subscribers[i] != subscribers[j])
    }

    constructor (ttl: int, maxEvents: int, maxSessions: int)
      ensures cfg == Config(ttl, maxEvents, maxSessions)
      ensures Value() == Current(Start) && SubscribersValid() && !stopped
    {
      cfg := Config(ttl, maxEvents, maxSessions);
      sessions, activeID, subscribers, stopped := map[], "", [], false;
    }

    method Subscribe() returns (sub: Subscriber)
      requires SubscribersValid()
      modifies this`subscribers
      ensures SubscribersValid() && fresh(sub) && sub.Value() == Channel([], 0, false)
      ensures subscribers == old(subscribers) + [sub]
    {
      sub := new Subscriber();
      subscribers := subscribers + [sub];
    }

    /** The cancel function: unregister, then close. */
    method Cancel(sub: Subscriber)
      requires SubscribersValid()
      modifies this`subscribers, sub`closed
      ensures SubscribersValid() && sub.closed && subscribers == Without(old(subscribers), sub)
    {
      var i := 0;
      while i < |subscribers|
        invariant 0 <= i <= |subscribers| && subscribers == old(subscribers)
        invariant sub !in subscribers[..i]
      {
        if subscribers[i] == sub {
          WithoutAt(subscribers, i);
          subscribers := subscribers[..i] + subscribers[i + 1..];
          break;
        }
        i := i + 1;
      }
      if |subscribers| == |old(subscribers)| {
        WithoutAbsent(subscribers, sub);
      }
      sub.CloseCh();
    }

    method Close()
      requires SubscribersValid()
      modifies this`subscribers, this`stopped, subscribers
      ensures SubscribersValid() && stopped
      ensures !old(stopped) ==> subscribers == [] && forall s :: s in old(subscribers) ==> s.closed
      ensures old(stopped) ==> subscribers == old(subscribers)
      ensures forall s :: s in old(subscribers) ==> s.ch == old(s.ch) && s.drops == old(s.drops)
    {
      if stopped {
        return;
      }
      stopped := true;
      var subs := subscribers;
      subscribers := [];
      for i := 0 to |subs|
        invariant forall k :: 0 <= k < i ==> subs[k].closed
        invariant forall s :: s in subs ==> s.ch == old(s.ch) && s.drops == old(s.drops)
        invariant subscribers == [] && stopped
      {
        subs[i].CloseCh();
      }
    }

    method PublishLocked(e: Event)
      requires SubscribersValid()
      modifies subscribers
      ensures SubscribersValid()
      ensures forall i :: 0 <= i < |subscribers| ==> subscribers[i].Value() == Offered(old(subscribers[i].Value()), e)
    {
      for i := 0 to |subscribers|
        invariant SubscribersValid()
        invariant forall k :: 0 <= k < i ==> subscribers[k].Value() == Offered(old(subscribers[k].Value()), e)
        invariant forall k :: i <= k < |subscribers| ==> subscribers[k].Value() == old(subscribers[k].Value())
      {
        subscribers[i].Offer(e);
      }
    }

    method Append(sessionID: string, event: Event, now: int)
      requires SubscribersValid()
      modifies this`sessions, this`activeID, subscribers
      ensures Appended(cfg, old(Value()), sessionID, event, now, Value())
      ensures SubscribersValid() && subscribers == old(subscribers)
      ensures forall i :: 0 <= i < |subscribers| ==>
                subscribers[i].Value() == Offered(old(subscribers[i].Value()), event.(sessionID := Truncated(sessionID)))
    {
      var id := sessionID;
      if |id| > MAX_SESSION_ID_LEN {
        id := id[..MAX_SESSION_ID_LEN];
      }
      WriteLocked(id, event, now);
      PublishLocked(event.(sessionID := id));
      if cfg.maxSessions > 0 && |sessions| > cfg.maxSessions {
        EvictOldestLocked();
      }
    }

    method WriteLocked(id: string, event: Event, now: int)
      modifies this`sessions, this`activeID
      ensures Value() == Written(cfg, old(Value()), id, event, now)
    {
      if id !in sessions {
        sessions := sessions[id := Entry(id, [], now, now)];
      }
      var sess := sessions[id];
      sess := sess.(events := sess.events + [event.(sessionID := id)], updatedAt := now);
      activeID := id;
      if cfg.maxEvents > 0 && |sess.events| > cfg.maxEvents {
        var kept := TrimEventsPinIntent(sess.events, cfg.maxEvents);
        sess := sess.(events := kept);
      }
      sessions := sessions[id := sess];
    }

    method EvictOldestLocked()
      modifies this`sessions, this`activeID
      ensures Evicted(old(Value()), Value())
    {
      var oldestID, order := OldestInactive();
      assert Evicted(Value(), Evicting(Value(), order));
      if oldestID == "" {
        oldestID, activeID := activeID, "";
      }
      if oldestID != "" {
        sessions := sessions - {oldestID};
      }
    }

    /** The eviction scan; `order` is the order of iteration. */
    method OldestInactive() returns (oldestID: string, ghost order: seq<string>)
      ensures Visits(order, sessions.Keys) && oldestID == Scanned(Inactive(Value()), order)
    {
      ghost var times := Inactive(Value());
      var oldestTime, rest := 0, sessions.Keys;
      oldestID, order := "", [];
      VisitedNone(rest);
      while rest != {}
        invariant Visited(order, sessions.Keys, rest)
        invariant oldestID == Scanned(times, order)
        invariant oldestID != "" ==> oldestTime == times[oldestID]
        decreases |rest|
      {
        var id :| id in rest;
        ScanStep(times, order, id);
        VisitStep(order, sessions.Keys, rest, id);
        rest, order := rest - {id}, order + [id];
        if id == activeID {
          continue;
        }
        if oldestID == "" || sessions[id].updatedAt < oldestTime {
          oldestID, oldestTime := id, sessions[id].updatedAt;
        }
      }
      VisitedAll(order, sessions.Keys);
    }

    method Rekey(oldID: string, newID: string)
      modifies this`sessions, this`activeID
      ensures Value() == Rekeyed(old(Value()), oldID, newID)
    {
      if oldID == newID || oldID == "" || newID == "" {
        return;
      }
      var id := newID;
      if |id| > MAX_SESSION_ID_LEN {
        id := id[..MAX_SESSION_ID_LEN];
      }
      if oldID !in sessions || id in sessions {
        return;
      }
      var sess := sessions[oldID].(id := id);
      sessions := sessions - {oldID};
      if activeID == oldID {
        activeID := id;
      }
      var events := sess.events;
      for i := 0 to |events|
        invariant |events| == |sess.events|
        invariant forall k :: 0 <= k < i ==> events[k] == sess.events[k].(sessionID := id)
        invariant forall k :: i <= k < |events| ==> events[k] == sess.events[k]
      {
        events := events[i := events[i].(sessionID := id)];
      }
      assert events == Stamped(sess.events, id);
      sessions := sessions[id := sess.(events := events)];
    }

    method Cleanup(now: int)
      modifies this`sessions, this`activeID
      ensures Value() == Cleaned(cfg, old(Value()), now)
    {
      var rest := sessions.Keys;
      while rest != {}
        invariant rest <= old(sessions).Keys
        invariant forall id :: id in sessions <==> id in old(sessions) && (id in rest || !Expired(cfg, old(sessions)[id], now))
        invariant forall id :: id in sessions ==> sessions[id] == old(sessions)[id]
        invariant activeID == if old(activeID) in old(sessions) && old(activeID) !in rest && Expired(cfg, old(sessions)[old(activeID)], now)
                              then "" else old(activeID)
        decreases |rest|
      {
        var id :| id in rest;
        rest := rest - {id};
        if Expired(cfg, sessions[id], now) {
          sessions := sessions - {id};
          if activeID == id {
            activeID := "";
          }
        }
      }
    }

    method View(sessionID: string, now: int) returns (events: Option<seq<Event>>)
      ensures events == Viewed(cfg, Value(), sessionID, now)
    {
      if sessionID !in sessions || Expired(cfg, sessions[sessionID], now) {
        return None;
      }
      events := Some(sessions[sessionID].events);
    }

    method ActiveSession(now: int) returns (id: string)
      ensures id == ActiveAt(cfg, Value(), now)
    {
      if activeID == "" || activeID !in sessions || Expired(cfg, sessions[activeID], now) {
        return "";
      }
      id := activeID;
    }

    /** Collects one summary per unexpired session; the library sort by update time is an insertion. */
    method ListSessions(now: int) returns (out: seq<Summary>)
      ensures Lists(cfg, Value(), now, sessions.Keys, out)
    {
      out := [];
      var rest := sessions.Keys;
      while rest != {}
        invariant rest <= sessions.Keys
        invariant Lists(cfg, Value(), now, sessions.Keys - rest, out)
        decreases |rest|
      {
        var id :| id in rest;
        var done := sessions.Keys - rest;
        rest := rest - {id};
        if Expired(cfg, sessions[id], now) {
          continue;
        }
        var total := SumTokens(sessions[id].events);
        var s := Summary(id, sessions[id].createdAt, sessions[id].updatedAt, |sessions[id].events|, total, id == activeID);
        var at := PlaceFor(out, s);
        ghost var was := out;
        out := out[..at] + [s] + out[at..];
        InsertedLists(cfg, Value(), now, done, was, id, at);
        assert sessions.Keys - rest == done + {id};
      }
    }
  }

  // ----- The object and the fan-out machine -----

  /** Whoever ever subscribed, by number; `ids` are the numbers of those on the list. */
  ghost predicate Linked(names: seq<Subscriber>, subs: seq<Subscriber>, ids: seq<nat>) {
    && (forall a, b :: 0 <= a < b < |names| ==> names[a] != names[b])
    && |subs| == |ids| && (forall k :: 0 <= k < |ids| ==> ids[k] < |names| && names[ids[k]] == subs[k])
  }

  lemma {:induction false} LinkedWithout(names: seq<Subscriber>, subs: seq<Subscriber>, ids: seq<nat>, i: nat)
    requires Linked(names, subs, ids) && i < |names|
    ensures Linked(names, Without(subs, names[i]), Without(ids, i))
    decreases |ids|
  {
    if ids != [] {
      assert Linked(names, subs[1..], ids[1..]);
      LinkedWithout(names, subs[1..], ids[1..], i);
      assert names[ids[0]] == names[i] <==> ids[0] == i;
    }
  }

  lemma LinkedMembers(names: seq<Subscriber>, subs: seq<Subscriber>, ids: seq<nat>, i: nat)
    requires Linked(names, subs, ids) && i < |names|
    ensures names[i] in subs <==> i in ids
  {
    if names[i] in subs {
      var k :| 0 <= k < |subs| && subs[k] == names[i];
      assert ids[k] == i;
    }
    if i in ids {
      var k :| 0 <= k < |ids| && ids[k] == i;
      assert subs[k] == names[i];
    }
  }

  /** The fan-out part of a store: the list, whether it was closed, and everyone's channel, by number. */
  datatype Fanout = Fanout(names: seq<Subscriber>, listed: seq<Subscriber>, stopped: bool, channels: seq<Channel>)

  ghost function ChannelsOf(names: seq<Subscriber>): (r: seq<Channel>)
    reads names
    ensures |r| == |names| && forall i :: 0 <= i < |names| ==> r[i] == names[i].Value()
  {
    if names == [] then [] else ChannelsOf(names[..|names| - 1]) + [names[|names| - 1].Value()]
  }

  ghost function FanoutOf(store: Store, names: seq<Subscriber>): Fanout
    reads store, names
  {
    Fanout(names, store.subscribers, store.stopped, ChannelsOf(names))
  }

  /** The list and the channels are those of the machine after `ops`. */
  ghost predicate Tracks(f: Fanout, ops: seq<SessionFanout.Op>, s: SessionFanout.State) {
    && Leads(ops, s) && f.stopped == s.stopped && Linked(f.names, f.listed, s.registered)
    && |f.channels| == |f.names| && Numbered(f.channels) == s.channels
  }

  function Numbered(channels: seq<Channel>): map<nat, Channel> {
    map i: nat | i < |channels| :: channels[i]
  }

  lemma NumberedUpdate(channels: seq<Channel>, i: nat, c: Channel)
    requires i < |channels|
    ensures Numbered(channels[i := c]) == Numbered(channels)[i := c]
  {
  }

  lemma NumberedAppend(channels: seq<Channel>, c: Channel)
    ensures Numbered(channels + [c]) == Numbered(channels)[|channels| := c]
  {
  }

  lemma NewStoreIsInitial()
    ensures Tracks(Fanout([], [], false, []), [], Initial)
  {
  }

  /** Subscribing is a step of the machine. */
  lemma SubscribeIsAStep(f: Fanout, ops: seq<SessionFanout.Op>, s: SessionFanout.State, sub: Subscriber)
    requires Tracks(f, ops, s) && sub !in f.names
    ensures var op, c := SessionFanout.Op.Subscribe(|f.names|), Channel([], 0, false);
            && Enabled(s, op)
            && Tracks(f.(names := f.names + [sub], listed := f.listed + [sub], channels := f.channels + [c]), ops + [op], Next(s, op))
  {
    var op := SessionFanout.Op.Subscribe(|f.names|);
    assert |f.names| !in s.channels;
    LeadsOn(ops, s, op);
    NumberedAppend(f.channels, Channel([], 0, false));
  }

  /** Everyone on the list has been offered the event. */
  ghost predicate OfferedTo(f: Fanout, channels: seq<Channel>, e: Event) {
    |channels| == |f.channels| == |f.names| && forall i :: 0 <= i < |f.names| ==>
      channels[i] == if f.names[i] in f.listed then Offered(f.channels[i], e) else f.channels[i]
  }

  /** Publishing is a step of the machine. */
  lemma PublishIsAStep(f: Fanout, ops: seq<SessionFanout.Op>, s: SessionFanout.State, e: Event, channels: seq<Channel>)
    requires Tracks(f, ops, s) && OfferedTo(f, channels, e)
    ensures Tracks(f.(channels := channels), ops + [Publish(e)], Next(s, Publish(e)))
  {
    LeadsOn(ops, s, Publish(e));
    forall i: nat | i < |f.names|
      ensures channels[i] == if i in s.registered then Offered(s.channels[i], e) else s.channels[i]
    {
      LinkedMembers(f.names, f.listed, s.registered, i);
    }
    assert Numbered(channels) == Next(s, Publish(e)).channels;
  }

  /** A consumer taking the next event out of its channel is a step of the machine. */
  lemma ReceiveIsAStep(f: Fanout, ops: seq<SessionFanout.Op>, s: SessionFanout.State, i: nat)
    requires Tracks(f, ops, s) && i < |f.names| && f.channels[i].buffer != []
    ensures var op, c := SessionFanout.Op.Receive(i), f.channels[i];
            && Enabled(s, op)
            && Tracks(f.(channels := f.channels[i := c.(buffer := c.buffer[1..])]), ops + [op], Next(s, op))
  {
    ReceivingLeads(ops, s, i);
    var c := f.channels[i];
    NumberedUpdate(f.channels, i, c.(buffer := c.buffer[1..]));
  }

  /** Cancelling is two steps of the machine. */
  lemma CancelIsTwoSteps(f: Fanout, ops: seq<SessionFanout.Op>, s: SessionFanout.State, i: nat)
    requires Tracks(f, ops, s) && i < |f.names|
    ensures Enabled(s, Unregister(i)) && Enabled(Next(s, Unregister(i)), CloseChannel(i))
    ensures Tracks(f.(listed := Without(f.listed, f.names[i]), channels := f.channels[i := f.channels[i].(closed := true)]),
                   ops + [Unregister(i)] + [CloseChannel(i)], Next(Next(s, Unregister(i)), CloseChannel(i)))
  {
    assert i in s.channels;
    LinkedWithout(f.names, f.listed, s.registered, i);
    LeadsOn(ops, s, Unregister(i));
    LeadsOn(ops + [Unregister(i)], Next(s, Unregister(i)), CloseChannel(i));
    NumberedUpdate(f.channels, i, f.channels[i].(closed := true));
  }

  /** Everyone on the list has been closed. */
  ghost predicate ClosedFor(f: Fanout, channels: seq<Channel>) {
    |channels| == |f.channels| == |f.names| && forall i :: 0 <= i < |f.names| ==>
      channels[i] == if f.names[i] in f.listed then f.channels[i].(closed := true) else f.channels[i]
  }

  /** The first shutdown is a run of the machine: everyone off the list, then every channel closed. */
  lemma CloseIsARun(f: Fanout, ops: seq<SessionFanout.Op>, s: SessionFanout.State, channels: seq<Channel>)
    requires Tracks(f, ops, s) && !f.stopped && ClosedFor(f, channels)
    ensures Tracks(f.(listed := [], stopped := true, channels := channels), ops + [UnregisterAll] + ClosingAll(s.registered),
                   Next(s, UnregisterAll).(channels := AllClosed(s.channels, s.registered)))
  {
    LeadsOn(ops, s, UnregisterAll);
    assert forall i :: i in s.registered ==> i in s.channels;
    ClosingAllLeads(ops + [UnregisterAll], Next(s, UnregisterAll), s.registered);
    ClosedChannels(f, s.registered, channels);
  }

  lemma ClosedChannels(f: Fanout, ids: seq<nat>, channels: seq<Channel>)
    requires Linked(f.names, f.listed, ids) && ClosedFor(f, channels)
    ensures Numbered(channels) == AllClosed(Numbered(f.channels), ids)
  {
    forall i: nat | i < |f.names|
      ensures channels[i] == AllClosed(Numbered(f.channels), ids)[i]
    {
      LinkedMembers(f.names, f.listed, ids, i);
    }
  }

  /** So what is proved of runs holds of a store's subscribers: what one received and what waits in its channel is
      an in-order selection of what was published while it was subscribed, and the rest is counted. */
  lemma SubscriberIsAccounted(f: Fanout, ops: seq<SessionFanout.Op>, s: SessionFanout.State, i: nat)
    requires Tracks(f, ops, s) && i < |f.names|
    ensures i in s.received && |f.channels[i].buffer| <= SUBSCRIBER_CHAN_BUF
    ensures Subsequence(s.received[i] + f.channels[i].buffer, PublishedTo(ops, i))
    ensures |s.received[i]| + |f.channels[i].buffer| + f.channels[i].drops == |PublishedTo(ops, i)|
    ensures f.names[i] in f.listed <==> Subscribed(ops, i)
  {
    assert i in s.channels && s.channels[i] == f.channels[i];
    DeliveryIsAccounted(ops, i);
    NeverSendsOnClosed(ops);
    LinkedMembers(f.names, f.listed, s.registered, i);
  }

  // The methods keep step with the machine.

  method SubscribeInStep(store: Store, ghost names: seq<Subscriber>, ghost ops: seq<SessionFanout.Op>, ghost s: SessionFanout.State)
    returns (sub: Subscriber)
    requires store.SubscribersValid() && Tracks(FanoutOf(store, names), ops, s)
    modifies store`subscribers
    ensures var op := SessionFanout.Op.Subscribe(|names|);
            Enabled(s, op) && Tracks(FanoutOf(store, names + [sub]), ops + [op], Next(s, op))
  {
    ghost var f := FanoutOf(store, names);
    sub := store.Subscribe();
    SubscribeIsAStep(f, ops, s, sub);
    assert ChannelsOf(names + [sub]) == f.channels + [Channel([], 0, false)];
  }

  method AppendInStep(store: Store, sessionID: string, event: Event, now: int,
                      ghost names: seq<Subscriber>, ghost ops: seq<SessionFanout.Op>, ghost s: SessionFanout.State)
    requires store.SubscribersValid() && Tracks(FanoutOf(store, names), ops, s)
    modifies store`sessions, store`activeID, store.subscribers
    ensures var op := Publish(event.(sessionID := Truncated(sessionID)));
            Tracks(FanoutOf(store, names), ops + [op], Next(s, op))
  {
    ghost var f := FanoutOf(store, names);
    store.Append(sessionID, event, now);
    PublishIsAStep(f, ops, s, event.(sessionID := Truncated(sessionID)), ChannelsOf(names));
  }

  method CancelInStep(store: Store, sub: Subscriber, ghost i: nat,
                      ghost names: seq<Subscriber>, ghost ops: seq<SessionFanout.Op>, ghost s: SessionFanout.State)
    requires store.SubscribersValid() && Tracks(FanoutOf(store, names), ops, s) && i < |names| && names[i] == sub
    modifies store`subscribers, sub`closed
    ensures Enabled(s, Unregister(i)) && Enabled(Next(s, Unregister(i)), CloseChannel(i))
    ensures Tracks(FanoutOf(store, names), ops + [Unregister(i)] + [CloseChannel(i)], Next(Next(s, Unregister(i)), CloseChannel(i)))
  {
    ghost var f := FanoutOf(store, names);
    store.Cancel(sub);
    CancelIsTwoSteps(f, ops, s, i);
    assert ChannelsOf(names) == f.channels[i := f.channels[i].(closed := true)];
  }

  method CloseInStep(store: Store, ghost names: seq<Subscriber>, ghost ops: seq<SessionFanout.Op>, ghost s: SessionFanout.State)
    requires store.SubscribersValid() && Tracks(FanoutOf(store, names), ops, s) && !store.stopped
    modifies store`subscribers, store`stopped, store.subscribers
    ensures Tracks(FanoutOf(store, names), ops + [UnregisterAll] + ClosingAll(s.registered),
                   Next(s, UnregisterAll).(channels := AllClosed(s.channels, s.registered)))
  {
    ghost var f := FanoutOf(store, names);
    store.Close();
    CloseIsARun(f, ops, s, ChannelsOf(names));
  }

  lemma InsertedNewestFirst(was: seq<Summary>, s: Summary, at: nat)
    requires NewestFirst(was) && at <= |was|
    requires forall k :: 0 <= k < |was| ==> was[k].id != s.id
    requires forall k :: 0 <= k < at ==> was[k].updatedAt > s.updatedAt
    requires at < |was| ==> was[at].updatedAt <= s.updatedAt
    ensures NewestFirst(was[..at] + [s] + was[at..])
  {
    var out := was[..at] + [s] + was[at..];
    assert forall k :: at < k < |out| ==> out[k] == was[k - 1];
  }

  lemma InsertedMembers(was: seq<Summary>, s: Summary, at: nat)
    requires at <= |was|
    ensures forall x :: x in was[..at] + [s] + was[at..] <==> x == s || x in was
  {
    assert was == was[..at] + was[at..];
  }

  lemma InsertedLists(cfg: Config, b: Buckets, now: int, ids: set<string>, was: seq<Summary>, id: string, at: nat)
    requires Lists(cfg, b, now, ids, was) && at <= |was|
    requires id in b.sessions && id !in ids && !Expired(cfg, b.sessions[id], now)
    requires forall k :: 0 <= k < at ==> was[k].updatedAt > b.sessions[id].updatedAt
    requires at < |was| ==> was[at].updatedAt <= b.sessions[id].updatedAt
    ensures Lists(cfg, b, now, ids + {id}, was[..at] + [SummaryOf(b, id)] + was[at..])
  {
    var s := SummaryOf(b, id);
    var out := was[..at] + [s] + was[at..];
    InsertedNewestFirst(was, s, at);
    InsertedMembers(was, s, at);
    assert OnlyUnexpired(cfg, b, now, ids + {id}, out) by {
      forall i | 0 <= i < |out|
        ensures out[i].id in ids + {id} && out[i].id in b.sessions
        ensures out[i] == SummaryOf(b, out[i].id) && !Expired(cfg, b.sessions[out[i].id], now)
      {
        assert out[i] in out;
      }
    }
  }
}
