/**
 Events of one session bucket, and the trimming policy that bounds a bucket while keeping
 the most recent user intent. A bucket is trimmed after every append; the laws below say
 that this agrees with trimming the whole append history once.
 */
module SessionEvents {
  import opened Common

  datatype Direction = Inbound | Outbound

  datatype Phase = Request | Response | Denied

  /** `a2a` says whether the A2A extension is present, `tokens` is the inference extension's total if it
      is present, and `content` stands for every other field. */
  datatype Event = Event(
    sessionID: string,
    direction: Direction,
    phase: Phase,
    a2a: bool,
    tokens: Option<int>,
    content: int)

  /** An intent is an inbound A2A request. */
  predicate IsIntent(e: Event) {
    e.direction == Inbound && e.phase == Request && e.a2a
  }

  /** Position of the most recent intent, or -1. */
  function LastIntentIndex(es: seq<Event>): (i: int)
    ensures -1 <= i < |es|
    ensures i >= 0 ==> IsIntent(es[i])
    ensures forall j :: i < j < |es| ==> !IsIntent(es[j])
  {
    if es == [] then -1
    else if IsIntent(es[|es| - 1]) then |es| - 1
    else LastIntentIndex(es[..|es| - 1])
  }

  function LastIntent(es: seq<Event>): Option<Event> {
    var i := LastIntentIndex(es);
    if i < 0 then None else Some(es[i])
  }

  /** The newest `max` events, with the pinned one in place of the oldest of them if it is older. */
  function Kept(es: seq<Event>, pin: int, max: int): seq<Event>
    requires 0 < max < |es| && -1 <= pin < |es|
  {
    var excess := |es| - max;
    if pin < 0 || pin >= excess then es[excess..] else [es[pin]] + es[excess + 1..]
  }

  /** What is left of `es` under a bound of `max` events; no bound when `max <= 0`. */
  function Trimmed(es: seq<Event>, max: int): seq<Event> {
    if 0 < max < |es| then Kept(es, LastIntentIndex(es), max) else es
  }

  /** The bucket as the store sees it: every event carries the bucket's ID. */
  function Stamped(es: seq<Event>, id: string): (r: seq<Event>)
    ensures |r| == |es|
    ensures forall k :: 0 <= k < |es| ==> r[k] == es[k].(sessionID := id)
  {
    seq(|es|, k requires 0 <= k < |es| => es[k].(sessionID := id))
  }

  /** The last intent is determined by position alone. */
  lemma LastIntentIndexUnique(es: seq<Event>, i: int)
    requires -1 <= i < |es|
    requires i >= 0 ==> IsIntent(es[i])
    requires forall j :: i < j < |es| ==> !IsIntent(es[j])
    ensures LastIntentIndex(es) == i
  {
    var k := LastIntentIndex(es);
    assert k <= i && i <= k;
  }

  lemma StampKeepsIntent(es: seq<Event>, id: string)
    ensures LastIntentIndex(Stamped(es, id)) == LastIntentIndex(es)
  {
    LastIntentIndexUnique(Stamped(es, id), LastIntentIndex(es));
  }

  lemma StampDrop(es: seq<Event>, id: string, n: nat)
    requires n <= |es|
    ensures Stamped(es, id)[n..] == Stamped(es[n..], id)
  {
  }

  lemma StampCons(e: Event, es: seq<Event>, id: string)
    ensures Stamped([e] + es, id) == [e.(sessionID := id)] + Stamped(es, id)
  {
  }

  lemma StampPinned(es: seq<Event>, pin: nat, n: nat, id: string)
    requires pin < |es| && n <= |es|
    ensures [es[pin].(sessionID := id)] + Stamped(es, id)[n..] == Stamped([es[pin]] + es[n..], id)
  {
    StampDrop(es, id, n);
    StampCons(es[pin], es[n..], id);
  }

  lemma StampKept(es: seq<Event>, pin: int, id: string, max: int)
    requires 0 < max < |es| && -1 <= pin < |es|
    ensures Kept(Stamped(es, id), pin, max) == Stamped(Kept(es, pin, max), id)
  {
    var excess := |es| - max;
    if pin < 0 || pin >= excess {
      StampDrop(es, id, excess);
      assert Kept(es, pin, max) == es[excess..];
    } else {
      StampPinned(es, pin, excess + 1, id);
      assert Kept(es, pin, max) == [es[pin]] + es[excess + 1..];
      assert Kept(Stamped(es, id), pin, max) == [es[pin].(sessionID := id)] + Stamped(es, id)[excess + 1..];
    }
  }

  /** Relabelling a bucket and trimming it commute. */
  lemma TrimStamp(es: seq<Event>, id: string, max: int)
    ensures Trimmed(Stamped(es, id), max) == Stamped(Trimmed(es, max), id)
  {
    if 0 < max < |es| {
      StampKeepsIntent(es, id);
      StampKept(es, LastIntentIndex(es), id, max);
    }
  }

  /** The bound holds; beyond the first survivor, which is the latest intent if that one would
      have been evicted and the newest evictable event otherwise, only the newest suffix is kept. */
  lemma TrimBoundsAndKeepsNewest(es: seq<Event>, max: int)
    requires 0 < max < |es|
    ensures |Trimmed(es, max)| == max
    ensures Trimmed(es, max)[1..] == es[|es| - max + 1..]
    ensures Trimmed(es, max)[0] ==
            var i := LastIntentIndex(es); es[if 0 <= i < |es| - max then i else |es| - max]
  {
    assert es[|es| - max..][1..] == es[|es| - max + 1..];
  }

  /** Without a bound, or within it, nothing is trimmed. */
  lemma WithinBoundNothingGoes(es: seq<Event>, max: int)
    requires max <= 0 || |es| <= max
    ensures Trimmed(es, max) == es
  {
  }

  /** Where the pinned event of `es` ends up in what is kept. */
  function PinAfter(es: seq<Event>, pin: int, max: int): int {
    if pin < 0 then -1 else if pin < |es| - max then 0 else pin - (|es| - max)
  }

  lemma PinSurvives(es: seq<Event>, max: int)
    requires 0 < max < |es|
    ensures LastIntentIndex(Trimmed(es, max)) == PinAfter(es, LastIntentIndex(es), max)
  {
    var pin := LastIntentIndex(es);
    LastIntentIndexUnique(Kept(es, pin, max), PinAfter(es, pin, max));
  }

  /** The pinned intent is documented to stay at its original index. It does if and only if there is none
      or it is the very first event; otherwise it moves towards the front. */
  lemma PinStaysPutIff(es: seq<Event>, max: int)
    requires 0 < max < |es|
    ensures LastIntentIndex(Trimmed(es, max)) == LastIntentIndex(es) <==> LastIntentIndex(es) <= 0
  {
    PinSurvives(es, max);
  }

  /** Of three events, the middle one an intent, a bound of two moves the intent from the second place to
      the first. */
  lemma PinMoves(note: Event, intent: Event)
    requires IsIntent(intent) && !IsIntent(note)
    ensures LastIntentIndex([note, intent, note]) == 1 && Trimmed([note, intent, note], 2) == [intent, note]
  {
    var es := [note, intent, note];
    LastIntentIndexUnique(es, 1);
    assert es[1..] == [intent, note];
  }

  /** Trimming keeps the most recent intent, whatever its age. */
  lemma TrimKeepsLastIntent(es: seq<Event>, max: int)
    ensures LastIntent(Trimmed(es, max)) == LastIntent(es)
  {
    if 0 < max < |es| {
      PinSurvives(es, max);
    }
  }

  lemma LastIntentIndexAppend(es: seq<Event>, e: Event)
    ensures LastIntentIndex(es + [e]) == if IsIntent(e) then |es| else LastIntentIndex(es)
  {
    LastIntentIndexUnique(es + [e], if IsIntent(e) then |es| else LastIntentIndex(es));
  }

  /** The event just appended is the newest one kept, except in a bucket of one whose place an intent holds. */
  lemma TrimKeepsAppendedIff(es: seq<Event>, e: Event, max: int)
    ensures var kept := Trimmed(es + [e], max);
            (kept != [] && kept[|kept| - 1] == e) <==> !(max == 1 && !IsIntent(e) && LastIntent(es).Some?)
  {
    LastIntentIndexAppend(es, e);
  }

  lemma DropOfAppend(es: seq<Event>, e: Event, n: nat)
    requires n <= |es|
    ensures (es + [e])[n..] == es[n..] + [e]
  {
  }

  lemma KeptTail(es: seq<Event>, pin: int, max: int)
    requires 0 < max < |es| && -1 <= pin < |es|
    ensures |Kept(es, pin, max)| == max
    ensures Kept(es, pin, max)[1..] == es[|es| - max + 1..]
  {
    assert es[|es| - max..][1..] == es[|es| - max + 1..];
  }

  lemma KeptAbsorbsKept(es: seq<Event>, pin: int, e: Event, max: int)
    requires 0 < max < |es| && -1 <= pin < |es|
    ensures Kept(Kept(es, pin, max) + [e], max, max) == Kept(es + [e], |es|, max)
    ensures Kept(Kept(es, pin, max) + [e], PinAfter(es, pin, max), max) == Kept(es + [e], pin, max)
  {
    var t, excess := Kept(es, pin, max), |es| - max;
    KeptTail(es, pin, max);
    DropOfAppend(t, e, 1);
    DropOfAppend(es, e, excess + 1);
    if 0 <= pin <= excess {
      KeptTail(es + [e], pin, max);
      KeptTail(t + [e], 0, max);
      var l, r := Kept(t + [e], 0, max), Kept(es + [e], pin, max);
      assert l[1..] == (t + [e])[1..][1..] == r[1..];
      assert l == [l[0]] + l[1..] && r == [r[0]] + r[1..];
    }
  }

  /** Trimming after an append to an already trimmed bucket equals trimming the untrimmed one. */
  lemma TrimAbsorbsTrim(es: seq<Event>, e: Event, max: int)
    ensures Trimmed(Trimmed(es, max) + [e], max) == Trimmed(es + [e], max)
  {
    if 0 < max < |es| {
      var t, pin := Trimmed(es, max), LastIntentIndex(es);
      PinSurvives(es, max);
      LastIntentIndexAppend(t, e);
      LastIntentIndexAppend(es, e);
      KeptAbsorbsKept(es, pin, e, max);
    }
  }

  /** The bucket after appending `h` one event at a time, trimming after each. */
  function Accumulated(h: seq<Event>, max: int): seq<Event> {
    if h == [] then [] else Trimmed(Accumulated(h[..|h| - 1], max) + [h[|h| - 1]], max)
  }

  lemma {:induction false} StepwiseTrimIsOneTrim(h: seq<Event>, max: int)
    ensures Accumulated(h, max) == Trimmed(h, max)
  {
    if h != [] {
      var p, e := h[..|h| - 1], h[|h| - 1];
      assert p + [e] == h;
      StepwiseTrimIsOneTrim(p, max);
      TrimAbsorbsTrim(p, e, max);
    }
  }

  /** The trimming routine: a reverse scan for the pinned intent, then slice copies. */
  method TrimEventsPinIntent(events: seq<Event>, maxEvents: int) returns (out: seq<Event>)
    ensures out == Trimmed(events, maxEvents)
  {
    if maxEvents <= 0 || |events| <= maxEvents {
      return events;
    }
    var excess := |events| - maxEvents;
    var intentIdx := -1;
    var i := |events| - 1;
    while i >= 0
      invariant -1 <= i < |events|
      invariant intentIdx == -1
      invariant forall j :: i < j < |events| ==> !IsIntent(events[j])
    {
      if IsIntent(events[i]) {
        intentIdx := i;
        break;
      }
      i := i - 1;
    }
    LastIntentIndexUnique(events, intentIdx);
    if intentIdx == -1 || intentIdx >= excess {
      return events[excess..];
    }
    var tailStart := |events| - (maxEvents - 1);
    out := [events[intentIdx]] + events[tailStart..];
  }

  /** SessionView.LastIntent: a reverse scan of the snapshot. */
  method FindLastIntent(events: seq<Event>) returns (r: Option<Event>)
    ensures r == LastIntent(events)
    ensures r == None <==> forall e :: e in events ==> !(e.direction == Inbound && e.phase == Request && e.a2a)
    ensures r.Some? ==> exists i :: 0 <= i < |events| && r == Some(events[i]) && events[i].direction == Inbound && events[i].phase == Request
                                    && events[i].a2a && forall j :: i < j < |events| ==> !(events[j].direction == Inbound && events[j].phase == Request && events[j].a2a)
  {
    var i := |events| - 1;
    while i >= 0
      invariant -1 <= i < |events|
      invariant forall j :: i < j < |events| ==> !IsIntent(events[j])
    {
      if IsIntent(events[i]) {
        LastIntentIndexUnique(events, i);
        return Some(events[i]);
      }
      i := i - 1;
    }
    LastIntentIndexUnique(events, -1);
    r := None;
  }
}
