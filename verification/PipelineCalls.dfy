/**
 Which hooks a phase calls, said in terms of policies and plugins alone: which plugins it polls for
 and which it calls, in which order, where it ends and why, and that every call runs the plugin's own
 hook for that phase.
 */
module PipelineCalls {
  import opened Common
  import opened PipelineContext
  import opened Pipelines
  import opened PipelineLaws

  /** The request's cancellation is polled before this plugin's turn. */
  predicate Polled(s: Slot, kind: Kind) {
    s.policy != Off && (kind.OnResponse? ==> s.plugin.onFrame.None?)
  }

  /** The plugin has a turn in this phase: requests go to everyone, responses to those that take them
      whole, frames to those that take frames; and never to one that is off. */
  predicate Callable(s: Slot, kind: Kind) {
    s.policy != Off &&
    match kind
    case OnRequest => true
    case OnResponse => s.plugin.onFrame.None?
    case OnFrame(_, _) => s.plugin.onFrame.Some?
  }

  /** The hook that is called then. */
  function OwnHook(pl: Plugin, kind: Kind): Program<Action>
    requires kind.OnFrame? ==> pl.onFrame.Some?
  {
    match kind
    case OnRequest => pl.onRequest
    case OnResponse => pl.onResponse
    case OnFrame(frame, last) => pl.onFrame.value(frame, last)
  }

  function Callables(slots: seq<Slot>, kind: Kind): seq<Slot> {
    if slots == [] then []
    else if Callable(slots[0], kind) then [slots[0]] + Callables(slots[1..], kind)
    else Callables(slots[1..], kind)
  }

  function Polls(slots: seq<Slot>, kind: Kind): nat {
    if slots == [] then 0 else (if Polled(slots[0], kind) then 1 else 0) + Polls(slots[1..], kind)
  }

  function CalledSlots(calls: seq<Call>): seq<Slot> {
    if calls == [] then [] else [calls[0].slot] + CalledSlots(calls[1..])
  }

  lemma CalledSlotsAfter(call: Call, calls: seq<Call>)
    ensures CalledSlots([call] + calls) == [call.slot] + CalledSlots(calls)
  {
    assert ([call] + calls)[1..] == calls;
  }

  /** One plugin's turn at the head of a phase. */
  lemma WalkHead(slots: seq<Slot>, kind: Kind, k: nat, live: nat -> bool, c: Ctx)
    requires slots != []
    ensures var s, rest, w := slots[0], slots[1..], Walk(slots, kind, k, live, c);
            if !Polled(s, kind) then w == Walk(rest, kind, k, live, c)
            else if !live(k) then w == Walked(c, Reject(Some(Violation("pipeline.cancelled", "request cancelled", ""))), [], None)
            else if !Callable(s, kind) then w == Walk(rest, kind, k + 1, live, c)
            else
              var (d, stop) := Visited(s, kind, OwnHook(s.plugin, kind), c);
              if stop.Some? then w == Walked(d, stop.value, [Call(s, c.message)], Some(s.plugin.name))
              else w == After(Call(s, c.message), Walk(rest, kind, k + 1, live, d))
  {
  }

  lemma HeadCut(slots: seq<Slot>, kind: Kind, n: nat)
    requires slots != [] && n < |slots|
    ensures var s, upto := slots[0], slots[1..][..n];
            && Callables(slots[..n + 1], kind) == (if Callable(s, kind) then [s] else []) + Callables(upto, kind)
            && Polls(slots[..n + 1], kind) == (if Polled(s, kind) then 1 else 0) + Polls(upto, kind)
  {
    assert slots[..n + 1][1..] == slots[1..][..n];
  }

  ghost predicate AllLivePolls(live: nat -> bool, k: nat, n: nat) {
    forall j :: k <= j < k + n ==> live(j)
  }

  /** How a phase that got as far as position `n` ended: it was stopped by the plugin just called, which is not
      observed; or it got to the end and was accepted; or the poll for the next plugin found the request
      cancelled. */
  ghost predicate Ends(w: Walked, slots: seq<Slot>, kind: Kind, n: nat, k: nat, live: nat -> bool) {
    n <= |slots| &&
    if w.rejecter.Some? then
      && n > 0 && Callable(slots[n - 1], kind) && slots[n - 1].policy != Observe
      && w.rejecter.value == slots[n - 1].plugin.name && w.action.Reject?
    else if n == |slots| then w.action == Continue
    else
      && Polled(slots[n], kind) && !live(k + Polls(slots[..n], kind))
      && w.action == Reject(Some(Violation("pipeline.cancelled", "request cancelled", "")))
  }

  /** The plugins called are exactly those that have a turn up to position `n`, in order; every poll up to there
      found the request live; and the position accounts for the ending. */
  ghost predicate CutAt(w: Walked, slots: seq<Slot>, kind: Kind, n: nat, k: nat, live: nat -> bool) {
    && Ends(w, slots, kind, n, k, live) && CalledSlots(w.calls) == Callables(slots[..n], kind)
    && AllLivePolls(live, k, Polls(slots[..n], kind))
  }

  lemma CutAtPass(slots: seq<Slot>, kind: Kind, n: nat, k: nat, live: nat -> bool, c: Ctx, next: nat)
    requires slots != [] && !Callable(slots[0], kind) && (Polled(slots[0], kind) ==> live(k))
    requires next == if Polled(slots[0], kind) then k + 1 else k
    requires CutAt(Walk(slots[1..], kind, next, live, c), slots[1..], kind, n, next, live)
    ensures CutAt(Walk(slots, kind, k, live, c), slots, kind, n + 1, k, live)
  {
    assert Walk(slots, kind, k, live, c) == Walk(slots[1..], kind, next, live, c) by {
      WalkHead(slots, kind, k, live, c);
    }
    HeadCut(slots, kind, n);
  }

  lemma CutAfter(call: Call, w: Walked, slots: seq<Slot>, kind: Kind, n: nat, k: nat, live: nat -> bool)
    requires slots != [] && Callable(slots[0], kind) && live(k) && call.slot == slots[0]
    requires CutAt(w, slots[1..], kind, n, k + 1, live)
    ensures CutAt(After(call, w), slots, kind, n + 1, k, live)
  {
    HeadCut(slots, kind, n);
    CalledSlotsAfter(call, w.calls);
  }

  lemma CutAtCall(slots: seq<Slot>, kind: Kind, n: nat, k: nat, live: nat -> bool, c: Ctx, d: Ctx)
    requires slots != [] && Callable(slots[0], kind) && live(k)
    requires Visited(slots[0], kind, OwnHook(slots[0].plugin, kind), c) == (d, None)
    requires CutAt(Walk(slots[1..], kind, k + 1, live, d), slots[1..], kind, n, k + 1, live)
    ensures CutAt(Walk(slots, kind, k, live, c), slots, kind, n + 1, k, live)
  {
    assert Walk(slots, kind, k, live, c) == After(Call(slots[0], c.message), Walk(slots[1..], kind, k + 1, live, d)) by {
      WalkHead(slots, kind, k, live, c);
    }
    CutAfter(Call(slots[0], c.message), Walk(slots[1..], kind, k + 1, live, d), slots, kind, n, k, live);
  }

  lemma CutAtStop(slots: seq<Slot>, kind: Kind, k: nat, live: nat -> bool, c: Ctx)
    requires slots != [] && Callable(slots[0], kind) && live(k)
    requires Visited(slots[0], kind, OwnHook(slots[0].plugin, kind), c).1.Some?
    ensures CutAt(Walk(slots, kind, k, live, c), slots, kind, 1, k, live)
  {
    WalkHead(slots, kind, k, live, c);
    HeadCut(slots, kind, 0);
    assert slots[1..][..0] == [];
    CalledSlotsAfter(Call(slots[0], c.message), []);
  }

  lemma CutAtOnce(slots: seq<Slot>, kind: Kind, k: nat, live: nat -> bool, c: Ctx)
    requires slots != [] ==> Polled(slots[0], kind) && !live(k)
    ensures CutAt(Walk(slots, kind, k, live, c), slots, kind, 0, k, live)
  {
    if slots != [] {
      WalkHead(slots, kind, k, live, c);
    }
  }

  lemma {:induction false} PhaseCut(slots: seq<Slot>, kind: Kind, k: nat, live: nat -> bool, c: Ctx) returns (n: nat)
    ensures CutAt(Walk(slots, kind, k, live, c), slots, kind, n, k, live)
    decreases |slots|
  {
    n := 0;
    if slots == [] || (Polled(slots[0], kind) && !live(k)) {
      CutAtOnce(slots, kind, k, live, c);
    } else {
      if !Callable(slots[0], kind) {
        var next := if Polled(slots[0], kind) then k + 1 else k;
        n := PhaseCut(slots[1..], kind, next, live, c);
        CutAtPass(slots, kind, n, k, live, c, next);
        n := n + 1;
      } else {
        var turn := Visited(slots[0], kind, OwnHook(slots[0].plugin, kind), c);
        if turn.1.Some? {
          CutAtStop(slots, kind, k, live, c);
          n := 1;
        } else {
          n := PhaseCut(slots[1..], kind, k + 1, live, turn.0);
          CutAtCall(slots, kind, n, k, live, c, turn.0);
          n := n + 1;
        }
      }
    }
  }

  /** The phase of a pipeline: positions run forwards for requests and backwards otherwise, each with the
      plugin declared there and its policy, unset and missing ones being enforced. */
  lemma PhaseCallsExactly(p: Pipe, kind: Kind, live: nat -> bool, c: Ctx) returns (n: nat)
    ensures |Slots(p, kind)| == |p.plugins| && CutAt(Phased(p, kind, live, c), Slots(p, kind), kind, n, 0, live)
    ensures forall a :: 0 <= a < |p.plugins| ==>
              var i := if kind.OnRequest? then a else |p.plugins| - 1 - a;
              Slots(p, kind)[a] == Slot(i, p.plugins[i], if i < |p.policies| && p.policies[i] != Unset then p.policies[i] else Enforce)
  {
    n := PhaseCut(Slots(p, kind), kind, 0, live, c);
    forall a | 0 <= a < |p.plugins|
      ensures Slots(p, kind)[a] == SlotOf(p, if kind.OnRequest? then a else |p.plugins| - 1 - a)
    {
      if !kind.OnRequest? {
        BackwardAt(p, |p.plugins|, a);
      }
    }
  }

  /** An accepted phase called everyone who has a turn. */
  lemma AcceptedPhaseCallsAll(p: Pipe, kind: Kind, live: nat -> bool, c: Ctx)
    requires Phased(p, kind, live, c).action == Continue
    ensures CalledSlots(Phased(p, kind, live, c).calls) == Callables(Slots(p, kind), kind)
  {
    var n := PhaseCallsExactly(p, kind, live, c);
    assert Slots(p, kind)[..|p.plugins|] == Slots(p, kind);
  }

  ghost predicate AllCallable(slots: seq<Slot>, kind: Kind) {
    forall i :: 0 <= i < |slots| ==> Callable(slots[i], kind)
  }

  /** The context after the turns of these plugins, each running its own hook, and what the last one returned
      to stop the phase, if it did. */
  ghost function Replayed(slots: seq<Slot>, kind: Kind, c: Ctx): (Ctx, Option<Action>)
    requires AllCallable(slots, kind)
  {
    if slots == [] then (c, None)
    else
      var (d, stop) := Visited(slots[0], kind, OwnHook(slots[0].plugin, kind), c);
      if |slots| == 1 then (d, stop) else Replayed(slots[1..], kind, d)
  }

  lemma ReplayedCons(s: Slot, slots: seq<Slot>, kind: Kind, c: Ctx)
    requires Callable(s, kind) && AllCallable(slots, kind) && Visited(s, kind, OwnHook(s.plugin, kind), c).1.None?
    ensures AllCallable([s] + slots, kind)
    ensures Replayed([s] + slots, kind, c) == Replayed(slots, kind, Visited(s, kind, OwnHook(s.plugin, kind), c).0)
  {
    assert ([s] + slots)[1..] == slots;
  }

  /** A phase is the turns of the plugins it called, each running its own hook for that phase, and its action is
      what the last of them returned, if that stopped it. */
  lemma {:induction false} CallsRunOwnHooks(slots: seq<Slot>, kind: Kind, k: nat, live: nat -> bool, c: Ctx)
    ensures var w := Walk(slots, kind, k, live, c);
            && AllCallable(CalledSlots(w.calls), kind)
            && Replayed(CalledSlots(w.calls), kind, c) == (w.ctx, if w.rejecter.Some? then Some(w.action) else None)
    decreases |slots|
  {
    if slots != [] {
      var s, rest := slots[0], slots[1..];
      WalkHead(slots, kind, k, live, c);
      if !Polled(s, kind) || (live(k) && !Callable(s, kind)) {
        CallsRunOwnHooks(rest, kind, if Polled(s, kind) then k + 1 else k, live, c);
      } else if live(k) {
        var (d, stop) := Visited(s, kind, OwnHook(s.plugin, kind), c);
        if stop.None? {
          CallsRunOwnHooks(rest, kind, k + 1, live, d);
          var calls := Walk(rest, kind, k + 1, live, d).calls;
          CalledSlotsAfter(Call(s, c.message), calls);
          ReplayedCons(s, CalledSlots(calls), kind, c);
        } else {
          CalledSlotsAfter(Call(s, c.message), []);
        }
      }
    }
  }

  /** `stop` carries the code and reason of `a` and names the plugin, unless `a` had named one. */
  predicate Conveys(stop: Action, a: Action, name: string) {
    && a.Reject? && stop.Reject? && stop.violation.Some?
    && stop.violation.value ==
       if a.violation.None? then Violation("plugin.unspecified", "plugin rejected without violation", name)
       else a.violation.value.(pluginName := if a.violation.value.pluginName == "" then name else a.violation.value.pluginName)
  }

  /** A plugin's turn stops the phase exactly when its hook rejects and it is not observed; the action then
      returned carries the hook's own code and reason and names the plugin, unless the hook had named one. The hook
      runs under a stamp of the plugin, phase and policy, which is gone afterwards. */
  lemma TurnDecides(s: Slot, kind: Kind, hook: Program<Action>, c: Ctx)
    ensures var a := Invoked(s, kind, hook, c).1;
            var (d, stop) := Visited(s, kind, hook, c);
            && (stop.Some? <==> a.Reject? && s.policy != Observe)
            && (stop.Some? ==> Conveys(stop.value, a, s.plugin.name))
            && Entered(s, kind, c).stamp == Stamp(s.plugin.name, if kind.OnRequest? then RequestPhase else ResponsePhase,
                                                  if s.policy == Unset then Enforce else s.policy)
            && d.stamp == Stamp("", NoPhase, Unset)
            && (stop.Some? ==> d.rejectingPlugin != "" || s.plugin.name == "")
  {
    var (d, a) := Invoked(s, kind, hook, c);
    if a.Reject? && s.policy == Observe {
      ShadowedKeepsStamp(d, s.plugin.name, PhaseOf(kind), Named(a, s.plugin.name));
    }
  }

  lemma ShadowedKeepsStamp(c: Ctx, name: string, phase: Phase, a: Action)
    requires a.Reject?
    ensures Shadowed(c, name, phase, a).stamp == c.stamp
  {
  }

  /** An observed Reject always leaves a shadow record of the plugin's: its latest one in this phase is flipped
      and nothing else changes, or, if it has none, one denial with the violation's code is added. */
  lemma ShadowLeavesTrace(c: Ctx, name: string, phase: Phase, a: Action)
    requires a.Reject? && !c.ledger.inFinish && name != "" && phase != NoPhase
    ensures var rs, after := Records(c), Records(Shadowed(c, name, phase, a));
            var i := LastRecordOf(rs, name, phase);
            if i >= 0 then |after| == |rs| && after[i] == rs[i].(shadow := true) && forall k :: 0 <= k < |rs| && k != i ==> after[k] == rs[k]
            else
              after == rs + [Invocation(name, phase, ActDeny,
                                        if a.violation.Some? && a.violation.value.code != "" then a.violation.value.code else "plugin.unspecified",
                                        true)]
  {
  }

  // ----- How far a phase can go -----

  lemma {:induction false} CallablesPrefix(slots: seq<Slot>, kind: Kind, n: nat)
    requires n <= |slots|
    ensures Callables(slots[..n], kind) <= Callables(slots, kind)
    decreases |slots|
  {
    if n > 0 {
      HeadCut(slots, kind, n - 1);
      CallablesPrefix(slots[1..], kind, n - 1);
    }
  }

  /** A phase invokes its plugins in order without gaps: all who have a turn if it was accepted, otherwise up to and
      including the one that rejected, or up to the cancellation. */
  lemma CallsArePrefix(slots: seq<Slot>, kind: Kind, k: nat, live: nat -> bool, c: Ctx)
    ensures var w := Walk(slots, kind, k, live, c);
            && CalledSlots(w.calls) <= Callables(slots, kind)
            && (w.action == Continue ==> CalledSlots(w.calls) == Callables(slots, kind))
  {
    var n := PhaseCut(slots, kind, k, live, c);
    CallablesPrefix(slots, kind, n);
    assert slots[..|slots|] == slots;
  }
}
