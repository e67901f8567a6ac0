/**
 The live fan-out of session events: every append is offered, without blocking, to each
 registered subscriber's bounded channel. Cancelling a subscription and closing the store
 take the store's lock to unregister and close channels only afterwards, so the machine
 below has a separate step for each critical section and for each channel operation.
 */
module SessionFanout {
  import opened Common
  import opened SessionEvents

  const SUBSCRIBER_CHAN_BUF: nat := 64

  /** One subscriber: its channel's buffer, its drop counter, and whether the channel is closed. */
  datatype Channel = Channel(buffer: seq<Event>, drops: nat, closed: bool)

  /** A non-blocking send: enqueue, or count a drop when the buffer is full. */
  function Offered(c: Channel, e: Event): (r: Channel)
    ensures |c.buffer| <= SUBSCRIBER_CHAN_BUF ==> |r.buffer| <= SUBSCRIBER_CHAN_BUF
    ensures |r.buffer| + r.drops == |c.buffer| + c.drops + 1
  {
    if |c.buffer| < SUBSCRIBER_CHAN_BUF then c.(buffer := c.buffer + [e]) else c.(drops := c.drops + 1)
  }

  /** Taking one element out of a list without repeats. */
  lemma {:induction false} WithoutAt<T>(s: seq<T>, i: nat)
    requires i < |s| && forall a, b :: 0 <= a < b < |s| ==> s[a] != s[b]
    ensures Without(s, s[i]) == s[..i] + s[i + 1..]
  {
    var rest := s[1..];
    assert forall a :: 0 <= a < |rest| ==> rest[a] == s[a + 1];
    if i == 0 {
      WithoutAbsent(rest, s[0]);
    } else {
      WithoutAt(rest, i - 1);
      assert s[..i] + s[i + 1..] == [s[0]] + (rest[..i - 1] + rest[i..]);
    }
  }

  /** A send is lost exactly when the buffer is full: otherwise the event goes to its end, and nothing else changes. */
  lemma OfferDropsOnlyWhenFull(c: Channel, e: Event)
    ensures |c.buffer| < 64 ==> Offered(c, e) == Channel(c.buffer + [e], c.drops, c.closed)
    ensures |c.buffer| >= 64 ==> Offered(c, e) == Channel(c.buffer, c.drops + 1, c.closed)
  {
  }

  /** `registered` is the store's subscriber list, `leaving` those unregistered but perhaps not
      yet closed, `received` what each consumer has taken out of its channel. */
  datatype State = State(
    registered: seq<nat>,
    channels: map<nat, Channel>,
    received: map<nat, seq<Event>>,
    leaving: set<nat>,
    stopped: bool)

  datatype Op =
    | Subscribe(id: nat)          // under the lock
    | Publish(event: Event)       // under the lock, inside Append
    | Unregister(id: nat)         // first half of cancel, under the lock
    | UnregisterAll               // first half of Close, under the lock, once
    | CloseChannel(id: nat)       // second half of either, outside the lock
    | Receive(id: nat)            // the consumer

  const Initial := State([], map[], map[], {}, false)

  predicate Enabled(s: State, op: Op) {
    match op
    case Subscribe(i) => i !in s.channels
    case Publish(_) => true
    case Unregister(i) => i in s.channels
    case UnregisterAll => !s.stopped
    case CloseChannel(i) => i in s.leaving && i in s.channels
    case Receive(i) => i in s.channels && i in s.received && s.channels[i].buffer != []
  }

  function Next(s: State, op: Op): State
    requires Enabled(s, op)
  {
    match op
    case Subscribe(i) =>
      s.(registered := s.registered + [i], channels := s.channels[i := Channel([], 0, false)], received := s.received[i := []])
    case Publish(e) =>
      s.(channels := map i | i in s.channels :: if i in s.registered then Offered(s.channels[i], e) else s.channels[i])
    case Unregister(i) =>
      s.(registered := Without(s.registered, i), leaving := s.leaving + {i})
    case UnregisterAll =>
      s.(registered := [], leaving := s.leaving + (set i | i in s.registered), stopped := true)
    case CloseChannel(i) =>
      s.(channels := s.channels[i := s.channels[i].(closed := true)])
    case Receive(i) =>
      var c := s.channels[i];
      s.(channels := s.channels[i := c.(buffer := c.buffer[1..])], received := s.received[i := s.received[i] + [c.buffer[0]]])
  }

  predicate Runnable(ops: seq<Op>)
    decreases |ops|, 0
  {
    ops == [] || (Runnable(ops[..|ops| - 1]) && Enabled(After(ops[..|ops| - 1]), ops[|ops| - 1]))
  }

  /** The state reached by an interleaving. */
  function After(ops: seq<Op>): State
    requires Runnable(ops)
    decreases |ops|, 1
  {
    if ops == [] then Initial else Next(After(ops[..|ops| - 1]), ops[|ops| - 1])
  }

  /** The operations are a run, and lead to `s`. */
  predicate Leads(ops: seq<Op>, s: State) {
    Runnable(ops) && After(ops) == s
  }

  lemma LeadsOn(ops: seq<Op>, s: State, op: Op)
    requires Leads(ops, s) && Enabled(s, op)
    ensures Leads(ops + [op], Next(s, op))
  {
    assert (ops + [op])[..|ops|] == ops;
  }

  /** The closing steps of a shutdown, in the order of the list. */
  function ClosingAll(ids: seq<nat>): seq<Op> {
    if ids == [] then [] else ClosingAll(ids[..|ids| - 1]) + [CloseChannel(ids[|ids| - 1])]
  }

  /** The same channels, those of `ids` closed. */
  function AllClosed(channels: map<nat, Channel>, ids: seq<nat>): map<nat, Channel> {
    map i | i in channels :: if i in ids then channels[i].(closed := true) else channels[i]
  }

  lemma AllClosedSnoc(s: State, init: seq<nat>, last: nat)
    requires last in s.leaving && last in s.channels
    ensures var s1 := s.(channels := AllClosed(s.channels, init));
            && Enabled(s1, CloseChannel(last))
            && Next(s1, CloseChannel(last)) == s.(channels := AllClosed(s.channels, init + [last]))
  {
    assert AllClosed(s.channels, init)[last := s.channels[last].(closed := true)] == AllClosed(s.channels, init + [last]);
  }

  lemma ClosingAllSnoc(ops: seq<Op>, init: seq<nat>, last: nat)
    ensures ops + ClosingAll(init + [last]) == ops + ClosingAll(init) + [CloseChannel(last)]
  {
    assert (init + [last])[..|init|] == init;
  }

  lemma {:induction false} ClosingAllLeads(ops: seq<Op>, s: State, ids: seq<nat>)
    requires Leads(ops, s) && forall i :: i in ids ==> i in s.leaving && i in s.channels
    ensures Leads(ops + ClosingAll(ids), s.(channels := AllClosed(s.channels, ids)))
    decreases |ids|
  {
    if ids == [] {
      assert ops + [] == ops && AllClosed(s.channels, []) == s.channels;
    } else {
      var init, last := ids[..|ids| - 1], ids[|ids| - 1];
      assert ids == init + [last];
      ClosingAllLeads(ops, s, init);
      AllClosedSnoc(s, init, last);
      LeadsOn(ops + ClosingAll(init), s.(channels := AllClosed(s.channels, init)), CloseChannel(last));
      ClosingAllSnoc(ops, init, last);
    }
  }

  /** From the operations alone: is `i` subscribed and neither cancelled nor shut down since? */
  predicate Subscribed(ops: seq<Op>, i: nat) {
    ops != [] &&
    var p, op := ops[..|ops| - 1], ops[|ops| - 1];
    op == Subscribe(i) || (Subscribed(p, i) && op != Unregister(i) && op != UnregisterAll)
  }

  /** From the operations alone: what was published while `i` was subscribed. */
  function PublishedTo(ops: seq<Op>, i: nat): seq<Event> {
    if ops == [] then []
    else
      var p, op := ops[..|ops| - 1], ops[|ops| - 1];
      if op.Publish? && Subscribed(p, i) then PublishedTo(p, i) + [op.event] else PublishedTo(p, i)
  }

  /** `a` is `b` with some elements left out, in order. */
  ghost predicate Subsequence<T>(a: seq<T>, b: seq<T>) {
    a == [] ||
    (b != [] && (Subsequence(a, b[..|b| - 1]) ||
                 (a[|a| - 1] == b[|b| - 1] && Subsequence(a[..|a| - 1], b[..|b| - 1]))))
  }

  lemma SubsequenceExtend<T>(a: seq<T>, b: seq<T>, x: T)
    requires Subsequence(a, b)
    ensures Subsequence(a, b + [x]) && Subsequence(a + [x], b + [x])
  {
    assert (b + [x])[..|b|] == b && (a + [x])[..|a|] == a;
  }

  lemma SubsequenceBounded<T>(a: seq<T>, b: seq<T>)
    requires Subsequence(a, b)
    ensures |a| <= |b|
    ensures |a| == |b| ==> a == b
  {
  }

  function Delivered(s: State, i: nat): seq<Event>
    requires i in s.channels && i in s.received
  {
    s.received[i] + s.channels[i].buffer
  }

  /** Only open, known, not-leaving channels are on the list, so no send hits a closed channel. */
  ghost predicate Safe(s: State) {
    && s.channels.Keys == s.received.Keys
    && (forall i :: i in s.registered ==> i in s.channels && i !in s.leaving)
    && (forall i :: i in s.leaving ==> i in s.channels)
    && (forall i :: i in s.channels && s.channels[i].closed ==> i in s.leaving)
    && (forall i :: i in s.channels ==> |s.channels[i].buffer| <= SUBSCRIBER_CHAN_BUF)
  }

  lemma SafeStep(s: State, op: Op)
    requires Safe(s) && Enabled(s, op)
    ensures Safe(Next(s, op))
  {
    var t := Next(s, op);
    if op.Publish? {
      assert t.channels.Keys == s.channels.Keys;
    }
  }

  /** In every interleaving the list is exactly who is subscribed, and everyone on it is open. */
  lemma {:induction false} NeverSendsOnClosed(ops: seq<Op>)
    requires Runnable(ops)
    ensures Safe(After(ops))
    ensures forall i :: i in After(ops).registered <==> Subscribed(ops, i)
    ensures forall i :: i in After(ops).registered ==> !After(ops).channels[i].closed
  {
    if ops != [] {
      NeverSendsOnClosed(ops[..|ops| - 1]);
      SafeStep(After(ops[..|ops| - 1]), ops[|ops| - 1]);
    }
  }

  /** From the operations alone: was `i` subscribed after the store was closed, and not cancelled since? */
  predicate SubscribedLate(ops: seq<Op>, i: nat) {
    ops != [] &&
    var p, op := ops[..|ops| - 1], ops[|ops| - 1];
    if op == Subscribe(i) then UnregisterAll in p else SubscribedLate(p, i) && op != Unregister(i)
  }

  /** Every channel ever opened is on the list or has been taken off it to be closed; and once the store is
      closed, all have been, except exactly those subscribed after that. */
  lemma {:induction false} CloseReachesAllButLate(ops: seq<Op>, i: nat)
    requires Runnable(ops)
    ensures var s := After(ops);
            && (s.stopped <==> UnregisterAll in ops)
            && (i in s.channels ==> (i in s.leaving <==> i !in s.registered))
            && (s.stopped ==> (i in s.channels && i !in s.leaving <==> SubscribedLate(ops, i)))
    decreases |ops|
  {
    NeverSendsOnClosed(ops);
    if ops != [] {
      var p, op := ops[..|ops| - 1], ops[|ops| - 1];
      assert ops == p + [op];
      CloseReachesAllButLate(p, i);
      NeverSendsOnClosed(p);
      if UnregisterAll !in p {
        NeverLateBefore(p, i);
      }
    }
  }

  lemma {:induction false} NeverLateBefore(ops: seq<Op>, i: nat)
    requires UnregisterAll !in ops
    ensures !SubscribedLate(ops, i)
  {
    if ops != [] {
      var p := ops[..|ops| - 1];
      assert ops == p + [ops[|ops| - 1]];
      NeverLateBefore(p, i);
    }
  }

  /** Subscribing after the store was closed: the channel is on the list and stays open. */
  lemma LateSubscriberIsNotReached(i: nat)
    ensures var ops := [UnregisterAll, Subscribe(i)];
            && Runnable(ops) && After(ops).stopped
            && i in After(ops).registered && i !in After(ops).leaving && After(ops).channels[i] == Channel([], 0, false)
  {
    var ops := [UnregisterAll, Subscribe(i)];
    assert ops[..1] == [UnregisterAll] && ops[..1][..0] == [];
    assert Runnable(ops[..1][..0]) && After(ops[..1][..0]) == Initial;
    assert Runnable(ops[..1]) && After(ops[..1]) == Next(Initial, UnregisterAll);
  }

  /** Only a closing step closes a channel, and a channel once taken off the list can always be closed. */
  lemma ClosingIsEnabled(ops: seq<Op>, i: nat)
    requires Runnable(ops) && i in After(ops).leaving
    ensures Enabled(After(ops), CloseChannel(i)) && Next(After(ops), CloseChannel(i)).channels[i].closed
  {
    NeverSendsOnClosed(ops);
  }

  lemma ReceivingLeads(ops: seq<Op>, s: State, i: nat)
    requires Leads(ops, s) && i in s.channels && s.channels[i].buffer != []
    ensures Enabled(s, Receive(i))
    ensures var t := Next(s, Receive(i));
            && Leads(ops + [Receive(i)], t)
            && t.stopped == s.stopped && t.registered == s.registered
            && t.channels == s.channels[i := s.channels[i].(buffer := s.channels[i].buffer[1..])]
  {
    NeverSendsOnClosed(ops);
    LeadsOn(ops, s, Receive(i));
  }

  ghost predicate Accounted(s: State, i: nat, published: seq<Event>)
    requires i in s.channels && i in s.received
  {
    && Subsequence(Delivered(s, i), published)
    && |Delivered(s, i)| + s.channels[i].drops == |published|
  }

  lemma {:induction false} NothingPublishedBefore(ops: seq<Op>, i: nat)
    requires Runnable(ops) && i !in After(ops).channels
    ensures PublishedTo(ops, i) == []
  {
    if ops != [] {
      var p := ops[..|ops| - 1];
      NothingPublishedBefore(p, i);
      NeverSendsOnClosed(p);
    }
  }

  /** Per subscriber and for every interleaving: what was received or still waits is an in-order
      selection of what was published while subscribed, and every other event is a counted drop. */
  lemma {:induction false} DeliveryIsAccounted(ops: seq<Op>, i: nat)
    requires Runnable(ops) && i in After(ops).channels
    ensures i in After(ops).received
    ensures Accounted(After(ops), i, PublishedTo(ops, i))
    ensures |After(ops).channels[i].buffer| <= SUBSCRIBER_CHAN_BUF
  {
    NeverSendsOnClosed(ops);
    if ops != [] {
      var p, op := ops[..|ops| - 1], ops[|ops| - 1];
      NeverSendsOnClosed(p);
      var s := After(p);
      if op == Subscribe(i) {
        NothingPublishedBefore(p, i);
      } else {
        DeliveryIsAccounted(p, i);
        StepAccounted(s, op, i, PublishedTo(p, i));
      }
    }
  }

  lemma StepAccounted(s: State, op: Op, i: nat, published: seq<Event>)
    requires Enabled(s, op) && op != Subscribe(i)
    requires i in s.channels && i in s.received && Accounted(s, i, published)
    ensures i in Next(s, op).channels && i in Next(s, op).received
    ensures Accounted(Next(s, op), i, if op.Publish? && i in s.registered then published + [op.event] else published)
  {
    var t := Next(s, op);
    if op.Publish? && i in s.registered {
      SubsequenceExtend(Delivered(s, i), published, op.event);
      if |s.channels[i].buffer| < SUBSCRIBER_CHAN_BUF {
        assert Delivered(t, i) == Delivered(s, i) + [op.event];
      }
    } else {
      assert Delivered(t, i) == Delivered(s, i);
    }
  }

  /** Publishing appends to the channel of everyone subscribed who has room, counts a drop for the others, and
      leaves everyone else alone. */
  lemma PublishReachesSubscribed(ops: seq<Op>, e: Event, i: nat)
    requires Runnable(ops) && i in After(ops).channels
    ensures var c, d := After(ops).channels[i], Next(After(ops), Publish(e)).channels[i];
            if !Subscribed(ops, i) then d == c
            else if |c.buffer| < 64 then d == Channel(c.buffer + [e], c.drops, c.closed)
            else d == Channel(c.buffer, c.drops + 1, c.closed)
  {
    NeverSendsOnClosed(ops);
    OfferDropsOnlyWhenFull(After(ops).channels[i], e);
  }

  /** A subscriber whose drop counter reads zero has missed nothing. */
  lemma NoDropsMeansLossless(ops: seq<Op>, i: nat)
    requires Runnable(ops) && i in After(ops).channels && After(ops).channels[i].drops == 0
    ensures i in After(ops).received && Delivered(After(ops), i) == PublishedTo(ops, i)
  {
    DeliveryIsAccounted(ops, i);
    SubsequenceBounded(Delivered(After(ops), i), PublishedTo(ops, i));
  }
}
