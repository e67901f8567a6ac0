/**
 The process-wide key-value store with expiry that plugins share. Get looks up under a read lock,
 checks the clock with no lock held, and evicts under a write lock after looking again; Put, Delete
 and the janitor's sweep each hold the write lock. The machine interleaves these critical sections.
 */
module SharedStore {
  import opened Common

  /** Values are opaque; an integer stands for one. */
  datatype Entry = Entry(val: int, expires: int)

  type Items = map<string, Entry>

  // ----- What each critical section does -----

  function Stored(items: Items, key: string, val: int, ttl: int, now: int): Items {
    items[key := Entry(val, now + ttl)]
  }

  predicate ExpiredAt(e: Entry, now: int) {
    now > e.expires
  }

  function Evicted(items: Items, key: string, now: int): Items {
    if key in items && ExpiredAt(items[key], now) then items - {key} else items
  }

  function Swept(items: Items, now: int): Items {
    map k | k in items && !ExpiredAt(items[k], now) :: items[k]
  }

  /** A sweep removes exactly the entries past their expiry; an eviction removes that key's entry exactly if it is past
      its expiry; a store replaces that key's entry, to expire after the time to live. Nothing else changes. */
  lemma SectionEffects(items: Items, key: string, val: int, ttl: int, now: int, k: string)
    ensures k in Swept(items, now) <==> k in items && now <= items[k].expires
    ensures k in Swept(items, now) ==> Swept(items, now)[k] == items[k]
    ensures k in Evicted(items, key, now) <==> k in items && (k != key || now <= items[k].expires)
    ensures k in Evicted(items, key, now) ==> Evicted(items, key, now)[k] == items[k]
    ensures k in Stored(items, key, val, ttl, now) <==> k in items || k == key
    ensures k in Stored(items, key, val, ttl, now) ==> Stored(items, key, val, ttl, now)[k] == if k == key then Entry(val, now + ttl) else items[k]
  {
  }

  /** What was stored is read back until its time to live is over, and not after. */
  lemma StoredIsReadForTtl(items: Items, key: string, val: int, ttl: int, now: int, later: int)
    ensures Checked(Found(key, Some(Stored(items, key, val, ttl, now)[key])), later) ==
            if later <= now + ttl then Returned(Some(val)) else Evicting(key)
  {
  }

  // ----- Interleavings -----

  /** A Get in progress or over: looked up, about to evict, or returned. */
  datatype Get = Found(key: string, entry: Option<Entry>) | Evicting(key: string) | Returned(val: Option<int>)

  datatype State = State(items: Items, gets: map<nat, Get>)

  datatype Op =
    | Put(key: string, val: int, ttl: int, now: int)
    | Delete(key: string)
    | GetRead(thread: nat, key: string)
    | GetCheck(thread: nat, now: int)
    | GetEvict(thread: nat, now: int)
    | Sweep(now: int)

  predicate Timed(op: Op) {
    !op.Delete? && !op.GetRead?
  }

  predicate Enabled(s: State, op: Op) {
    match op
    case GetCheck(t, _) => t in s.gets && s.gets[t].Found?
    case GetEvict(t, _) => t in s.gets && s.gets[t].Evicting?
    case _ => true
  }

  /** The decision taken with no lock held. */
  function Checked(g: Get, now: int): Get
    requires g.Found?
  {
    if g.entry.None? then Returned(None)
    else if ExpiredAt(g.entry.value, now) then Evicting(g.key)
    else Returned(Some(g.entry.value.val))
  }

  function Next(s: State, op: Op): State
    requires Enabled(s, op)
  {
    match op
    case Put(k, v, ttl, now) => s.(items := Stored(s.items, k, v, ttl, now))
    case Delete(k) => s.(items := s.items - {k})
    case GetRead(t, k) => s.(gets := s.gets[t := Found(k, if k in s.items then Some(s.items[k]) else None)])
    case GetCheck(t, now) => s.(gets := s.gets[t := Checked(s.gets[t], now)])
    case GetEvict(t, now) => State(Evicted(s.items, s.gets[t].key, now), s.gets[t := Returned(None)])
    case Sweep(now) => s.(items := Swept(s.items, now))
  }

  predicate Runnable(ops: seq<Op>)
    decreases |ops|, 0
  {
    ops == [] || (Runnable(ops[..|ops| - 1]) && Enabled(After(ops[..|ops| - 1]), ops[|ops| - 1]))
  }

  function After(ops: seq<Op>): State
    requires Runnable(ops)
    decreases |ops|, 1
  {
    if ops == [] then State(map[], map[]) else Next(After(ops[..|ops| - 1]), ops[|ops| - 1])
  }

  /** The map that Puts and Deletes alone would build: nothing ever expires from it. */
  function Reference(ops: seq<Op>): Items {
    if ops == [] then map[]
    else
      var r, op := Reference(ops[..|ops| - 1]), ops[|ops| - 1];
      match op
      case Put(k, v, ttl, now) => Stored(r, k, v, ttl, now)
      case Delete(k) => r - {k}
      case _ => r
  }

  predicate NotBefore(ops: seq<Op>, now: int) {
    forall i :: 0 <= i < |ops| && Timed(ops[i]) ==> ops[i].now <= now
  }

  predicate Monotone(ops: seq<Op>) {
    ops == [] ||
    (Monotone(ops[..|ops| - 1]) && (Timed(ops[|ops| - 1]) ==> NotBefore(ops[..|ops| - 1], ops[|ops| - 1].now)))
  }

  predicate Current(items: Items, key: string, now: int) {
    key in items && !ExpiredAt(items[key], now)
  }

  /** `items` is the reference less some entries, all of which have expired. */
  ghost predicate Tracks(items: Items, reference: Items, now: int) {
    && (forall k :: k in items ==> k in reference && items[k] == reference[k])
    && (forall k :: k in reference && k !in items ==> ExpiredAt(reference[k], now))
  }

  /** No interleaving of lazy eviction, sweeping and refreshing loses an entry that is still current:
      the stored map and the reference differ only in entries that have expired. */
  lemma {:induction false} EvictionLosesNothingCurrent(ops: seq<Op>, now: int)
    requires Runnable(ops) && Monotone(ops) && NotBefore(ops, now)
    ensures Tracks(After(ops).items, Reference(ops), now)
    ensures forall k :: Current(After(ops).items, k, now) <==> Current(Reference(ops), k, now)
  {
    if ops != [] {
      var p, op := ops[..|ops| - 1], ops[|ops| - 1];
      assert forall i :: 0 <= i < |p| ==> p[i] == ops[i];
      EvictionLosesNothingCurrent(p, if Timed(op) then op.now else now);
    }
  }

  predicate NoStepOf(ops: seq<Op>, t: nat) {
    forall i :: 0 <= i < |ops| ==>
      match ops[i]
      case GetRead(u, _) => u != t
      case GetCheck(u, _) => u != t
      case GetEvict(u, _) => u != t
      case _ => true
  }

  lemma {:induction false} PendingIsPrivate(before: seq<Op>, between: seq<Op>, t: nat)
    requires Runnable(before + between) && NoStepOf(between, t)
    ensures Runnable(before)
    ensures (t in After(before).gets) == (t in After(before + between).gets)
    ensures t in After(before).gets ==> After(before + between).gets[t] == After(before).gets[t]
    decreases |between|
  {
    if between == [] {
      assert before + between == before;
    } else {
      var all, init := before + between, between[..|between| - 1];
      assert all[..|all| - 1] == before + init && all[|all| - 1] == between[|between| - 1];
      PendingIsPrivate(before, init, t);
    }
  }

  lemma {:induction false} PrefixRuns(before: seq<Op>, rest: seq<Op>)
    requires Runnable(before + rest) && Monotone(before + rest)
    ensures Runnable(before) && Monotone(before)
    decreases |rest|
  {
    if rest == [] {
      assert before + rest == before;
    } else {
      assert (before + rest)[..|before + rest| - 1] == before + rest[..|rest| - 1];
      PrefixRuns(before, rest[..|rest| - 1]);
    }
  }

  /** What a Get returns or is bound to return: eviction never yields a value. */
  function Answer(g: Get): Option<int> {
    if g.Returned? then g.val else None
  }

  /** A Get answers from the entry that was current at its read step, judged by the clock at its check
      step, whatever the other threads do in between: it returns that entry's value if and only if it
      had not expired by then. */
  lemma GetAnswersForItsReadStep(before: seq<Op>, t: nat, key: string, between: seq<Op>, now: int)
    requires Runnable(before + [GetRead(t, key)] + between + [GetCheck(t, now)])
    requires Monotone(before + [GetRead(t, key)] + between + [GetCheck(t, now)])
    requires NoStepOf(between, t)
    ensures var gets := After(before + [GetRead(t, key)] + between + [GetCheck(t, now)]).gets;
            t in gets &&
            Answer(gets[t]) == if Current(Reference(before), key, now) then Some(Reference(before)[key].val) else None
  {
    var read := before + [GetRead(t, key)];
    var mid := read + between;
    var all := mid + [GetCheck(t, now)];
    assert all[..|all| - 1] == mid && all[|all| - 1] == GetCheck(t, now);
    assert read[..|read| - 1] == before && read[|read| - 1] == GetRead(t, key);
    PendingIsPrivate(read, between, t);
    assert all == before + ([GetRead(t, key)] + between + [GetCheck(t, now)]);
    PrefixRuns(before, [GetRead(t, key)] + between + [GetCheck(t, now)]);
    assert NotBefore(before, now) by {
      assert forall i :: 0 <= i < |before| ==> before[i] == mid[i];
    }
    EvictionLosesNothingCurrent(before, now);
    assert Current(After(before).items, key, now) <==> Current(Reference(before), key, now);
  }

  // ----- The store -----

  class Store {
    var items: Items

    constructor ()
      ensures items == map[]
    {
      items := map[];
    }

    method Put(key: string, val: int, ttl: int, now: int)
      modifies this
      ensures items == Stored(old(items), key, val, ttl, now)
    {
      items := items[key := Entry(val, now + ttl)];
    }

    method Delete(key: string)
      modifies this
      ensures items == old(items) - {key}
    {
      items := items - {key};
    }

    /** The write-locked part of Get, which looks again before deleting. */
    method EvictLocked(key: string, now: int)
      modifies this
      ensures items == Evicted(old(items), key, now)
    {
      if key in items && ExpiredAt(items[key], now) {
        items := items - {key};
      }
    }

    /** Get without interference: `now` is the unlocked clock read, `again` the one under the lock. */
    method Get(key: string, now: int, again: int) returns (r: Option<int>)
      modifies this
      ensures r == if Current(old(items), key, now) then Some(old(items)[key].val) else None
      ensures items == if key in old(items) && ExpiredAt(old(items)[key], now) then Evicted(old(items), key, again) else old(items)
    {
      if key !in items {
        return None;
      }
      var e := items[key];
      if ExpiredAt(e, now) {
        EvictLocked(key, again);
        return None;
      }
      r := Some(e.val);
    }

    method Sweep(now: int)
      modifies this
      ensures items == Swept(old(items), now)
    {
      var rest := items.Keys;
      while rest != {}
        invariant rest <= old(items).Keys
        invariant forall k :: k in items <==> k in old(items) && (k in rest || !ExpiredAt(old(items)[k], now))
        invariant forall k :: k in items ==> items[k] == old(items)[k]
        decreases |rest|
      {
        var k :| k in rest;
        rest := rest - {k};
        if ExpiredAt(items[k], now) {
          items := items - {k};
        }
      }
    }
  }
}
