/**
 What the pipeline guarantees over whole requests: any sequence of request, response and frame
 phases of one pipeline, with the upstream's response arriving in between.
 */
module PipelineLaws {
  import opened Common
  import opened PipelineContext
  import opened Pipelines

  /** `Upstream` is the listener filling in the response fields. */
  datatype Op = RunPhase(kind: Kind, live: nat -> bool) | Upstream(statusCode: int, responseBody: Bytes)

  /** A served request: the context, each phase's action, the plugins whose Reject stopped a phase,
      and the indices of the plugins whose OnRequest was invoked, all in order. */
  datatype Served = Served(ctx: Ctx, actions: seq<Action>, rejecters: seq<string>, requested: seq<nat>)

  function Phased(p: Pipe, kind: Kind, live: nat -> bool, c: Ctx): Walked {
    Walk(Slots(p, kind), kind, 0, live, c)
  }

  function Arrived(c: Ctx, statusCode: int, responseBody: Bytes): Ctx {
    c.(statusCode := statusCode, message := c.message.(responseBody := responseBody))
  }

  function Indices(calls: seq<Call>): seq<nat> {
    if calls == [] then [] else [calls[0].slot.index] + Indices(calls[1..])
  }

  function Serve(p: Pipe, ops: seq<Op>, c: Ctx): Served {
    if ops == [] then Served(c, [], [], [])
    else
      match ops[0]
      case Upstream(st, b) => Serve(p, ops[1..], Arrived(c, st, b))
      case RunPhase(kind, live) =>
        var w := Phased(p, kind, live, c);
        var r := Serve(p, ops[1..], w.ctx);
        Served(r.ctx, [w.action] + r.actions,
               (if w.rejecter.Some? then [w.rejecter.value] else []) + r.rejecters,
               (if kind.OnRequest? then Indices(w.calls) else []) + r.requested)
  }

  /** Does nothing and goes on. */
  function IdleHook(): Program<Action> {
    Program(_ => 0, _ => Nothing, _ => Continue)
  }

  // ----- Shadow plugins do not interfere -----

  /** Everything but the records, the dispatch list and who is being dispatched. */
  function Core(c: Ctx): Ctx {
    c.(inbound := [], outbound := [], ledger := c.ledger.(dispatched := []), stamp := Stamp("", NoPhase, c.stamp.policy))
  }

  lemma RecordedCore(c: Ctx, inv: Invocation)
    ensures Core(Recorded(c, inv)) == Core(c)
  {
  }

  lemma PerformedAgrees(c: Ctx, d: Ctx, cmd: Command)
    requires Core(c) == Core(d)
    ensures Core(Performed(c, cmd)) == Core(Performed(d, cmd))
  {
    assert c.message == d.message && c.ledger.inFinish == d.ledger.inFinish && c.stamp.policy == d.stamp.policy;
    match cmd
    case Nothing =>
    case DoRecord(inv) =>
      RecordedCore(c, inv);
      RecordedCore(d, inv);
    case DoSetBody(b) => BodySetCore(c, b); BodySetCore(d, b);
    case DoSetResponseBody(b) => ResponseBodySetCore(c, b); ResponseBodySetCore(d, b);
  }

  lemma BodySetCore(c: Ctx, b: Bytes)
    ensures Core(BodySet(c, b)) == if c.ledger.inFinish || c.stamp.policy == Observe then Core(c)
                                   else Core(c).(message := c.message.(body := b), bodyMutated := true)
  {
  }

  lemma ResponseBodySetCore(c: Ctx, b: Bytes)
    ensures Core(ResponseBodySet(c, b)) == if c.ledger.inFinish || c.stamp.policy == Observe then Core(c)
                                           else Core(c).(message := c.message.(responseBody := b), responseBodyMutated := true)
  {
  }

  /** The same program run from contexts that differ only in records reads the same and does the same. */
  lemma {:induction false} StepsAgree<R>(prog: Program<R>, n: nat, seen: seq<Message>, c: Ctx, d: Ctx)
    requires Core(c) == Core(d)
    ensures Core(Steps(prog, n, seen, c).0) == Core(Steps(prog, n, seen, d).0)
    ensures Steps(prog, n, seen, c).1 == Steps(prog, n, seen, d).1
    decreases n
  {
    assert Core(c).message == c.message && Core(d).message == d.message;
    if n > 0 {
      var t := seen + [c.message];
      PerformedAgrees(c, d, prog.act(t));
      StepsAgree(prog, n - 1, t, Performed(c, prog.act(t)), Performed(d, prog.act(t)));
    }
  }

  lemma PerformedMuted(c: Ctx, cmd: Command)
    requires c.stamp.policy == Observe
    ensures Core(Performed(c, cmd)) == Core(c)
  {
    match cmd
    case Nothing =>
    case DoRecord(inv) => RecordedCore(c, inv);
    case DoSetBody(b) => BodySetCore(c, b);
    case DoSetResponseBody(b) => ResponseBodySetCore(c, b);
  }

  lemma {:induction false} StepsMuted<R>(prog: Program<R>, n: nat, seen: seq<Message>, c: Ctx)
    requires c.stamp.policy == Observe
    ensures Core(Steps(prog, n, seen, c).0) == Core(c)
    decreases n
  {
    if n > 0 {
      var t := seen + [c.message];
      PerformedMuted(c, prog.act(t));
      assert Core(Performed(c, prog.act(t))).stamp.policy == Observe;
      StepsMuted(prog, n - 1, t, Performed(c, prog.act(t)));
    }
  }

  lemma EnteredCore(s: Slot, kind: Kind, c: Ctx)
    ensures Core(Entered(s, kind, c)) == Core(c).(stamp := Stamp("", NoPhase, Resolved(s.policy)))
    ensures Entered(s, kind, c).message == c.message
  {
  }

  lemma ClearedCore(c: Ctx)
    ensures Core(Cleared(c)) == Core(c).(stamp := NoStamp)
  {
  }

  lemma WithRecordsCore(c: Ctx, rs: seq<Invocation>)
    ensures Core(WithRecords(c, rs)) == Core(c)
  {
  }

  lemma ShadowedCore(c: Ctx, name: string, phase: Phase, a: Action)
    requires a.Reject?
    ensures Core(Shadowed(c, name, phase, a)) == Core(c)
  {
    var rs := Records(c);
    var i := LastRecordOf(rs, name, phase);
    if i >= 0 {
      WithRecordsCore(c, rs[i := rs[i].(shadow := true)]);
    }
  }

  lemma RejectedCore(c: Ctx, name: string)
    ensures Core(Rejected(c, name)) == Rejected(Core(c), name)
  {
  }

  lemma VisitsAgree(s: Slot, t: Slot, kind: Kind, hook: Program<Action>, c: Ctx, d: Ctx)
    requires Core(c) == Core(d) && s.policy == t.policy == Enforce && s.plugin == t.plugin
    ensures Core(Visited(s, kind, hook, c).0) == Core(Visited(t, kind, hook, d).0)
    ensures Visited(s, kind, hook, c).1 == Visited(t, kind, hook, d).1
    ensures Visited(s, kind, hook, c).0.stamp.policy == Unset
  {
    assert Core(c).message == c.message && Core(d).message == d.message;
    EnteredCore(s, kind, c);
    EnteredCore(t, kind, d);
    var c1, d1 := Entered(s, kind, c), Entered(t, kind, d);
    StepsAgree(hook, hook.len(c.message), [], c1, d1);
    var c2, d2 := Ran(hook, c1).0, Ran(hook, d1).0;
    ClearedCore(c2);
    ClearedCore(d2);
    RejectedCore(Cleared(c2), s.plugin.name);
    RejectedCore(Cleared(d2), s.plugin.name);
  }

  lemma ObservedVisitIsMute(s: Slot, kind: Kind, hook: Program<Action>, c: Ctx)
    requires s.policy == Observe && c.stamp.policy == Unset
    ensures Core(Visited(s, kind, hook, c).0) == Core(c)
    ensures Visited(s, kind, hook, c).1 == None
  {
    EnteredCore(s, kind, c);
    var c1 := Entered(s, kind, c);
    StepsMuted(hook, hook.len(c.message), [], c1);
    var (c2, a) := Ran(hook, c1);
    ClearedCore(c2);
    if a.Reject? {
      ShadowedCore(Cleared(c2), s.plugin.name, PhaseOf(kind), Named(a, s.plugin.name));
    }
  }

  /** `t` is `s` with some observed plugins switched off. */
  ghost predicate SlotsMuted(s: seq<Slot>, t: seq<Slot>) {
    |s| == |t| &&
    forall i :: 0 <= i < |s| ==>
      s[i].plugin == t[i].plugin && s[i].policy != Unset &&
      (t[i].policy == s[i].policy || (s[i].policy == Observe && t[i].policy == Off))
  }

  ghost predicate Live(live: nat -> bool) {
    forall k :: live(k)
  }

  lemma MutedTail(s: seq<Slot>, t: seq<Slot>)
    requires SlotsMuted(s, t) && s != []
    ensures SlotsMuted(s[1..], t[1..])
    ensures s[0].plugin == t[0].plugin && s[0].policy != Unset
    ensures t[0].policy == s[0].policy || (s[0].policy == Observe && t[0].policy == Off)
  {
  }

  /** For the caller, the two phases ended alike. */
  predicate EndAlike(v: Walked, w: Walked) {
    Core(v.ctx) == Core(w.ctx) && v.ctx.stamp.policy == Unset && v.action == w.action && v.rejecter == w.rejecter
  }

  lemma CoreKeepsPolicy(c: Ctx, d: Ctx)
    requires Core(c) == Core(d)
    ensures c.stamp.policy == d.stamp.policy
  {
    assert Core(c).stamp.policy == c.stamp.policy && Core(d).stamp.policy == d.stamp.policy;
  }

  lemma {:induction false} WalksAgree(s: seq<Slot>, t: seq<Slot>, kind: Kind, j: nat, k: nat, live: nat -> bool, c: Ctx, d: Ctx)
    requires SlotsMuted(s, t) && Live(live) && Core(c) == Core(d) && c.stamp.policy == Unset
    ensures EndAlike(Walk(s, kind, j, live, c), Walk(t, kind, k, live, d))
    decreases |s|
  {
    CoreKeepsPolicy(c, d);
    if s != [] {
      MutedTail(s, t);
      assert live(j) && live(k);
    }
    if s != [] && !Skips(s[0], kind) {
      var hook := Hook(s[0].plugin, kind);
      if hook.None? {
        WalksAgree(s[1..], t[1..], kind, j + 1, if t[0].policy == Off then k else k + 1, live, c, d);
      } else if s[0].policy == Observe {
        ObservedVisitIsMute(s[0], kind, hook.value, c);
        var c' := Visited(s[0], kind, hook.value, c).0;
        CoreKeepsPolicy(c, c');
        if t[0].policy == Off {
          WalksAgree(s[1..], t[1..], kind, j + 1, k, live, c', d);
        } else {
          ObservedVisitIsMute(t[0], kind, hook.value, d);
          WalksAgree(s[1..], t[1..], kind, j + 1, k + 1, live, c', Visited(t[0], kind, hook.value, d).0);
        }
      } else {
        VisitsAgree(s[0], t[0], kind, hook.value, c, d);
        var (c', stop) := Visited(s[0], kind, hook.value, c);
        if stop.None? {
          WalksAgree(s[1..], t[1..], kind, j + 1, k + 1, live, c', Visited(t[0], kind, hook.value, d).0);
        }
      }
    } else if s != [] {
      WalksAgree(s[1..], t[1..], kind, j, k, live, c, d);
    }
  }

  /** `q` is `p` with any set of observed plugins switched off. */
  ghost predicate Muted(p: Pipe, q: Pipe) {
    p.plugins == q.plugins &&
    forall i :: 0 <= i < |p.plugins| ==>
      PolicyAt(q, i) == PolicyAt(p, i) || (PolicyAt(p, i) == Observe && PolicyAt(q, i) == Off)
  }

  lemma {:induction false} BackwardAt(p: Pipe, n: nat, k: nat)
    requires k < n <= |p.plugins|
    ensures Backward(p, n)[k] == SlotOf(p, n - 1 - k)
  {
    if k > 0 {
      BackwardAt(p, n - 1, k - 1);
    }
  }

  lemma MutedSlots(p: Pipe, q: Pipe, kind: Kind)
    requires Muted(p, q)
    ensures SlotsMuted(Slots(p, kind), Slots(q, kind))
  {
    var n := |p.plugins|;
    forall k | 0 <= k < n
      ensures var i := if kind.OnRequest? then k else n - 1 - k;
              Slots(p, kind)[k] == SlotOf(p, i) && Slots(q, kind)[k] == SlotOf(q, i)
    {
      if !kind.OnRequest? {
        BackwardAt(p, n, k);
        BackwardAt(q, n, k);
      }
    }
  }

  ghost predicate AllLive(ops: seq<Op>) {
    forall i :: 0 <= i < |ops| && ops[i].RunPhase? ==> Live(ops[i].live)
  }

  /** Observing a plugin is, for the caller, the same as switching it off: over a whole request that
      is not cancelled, every action, both bodies, both mutation flags and the rejecting plugin agree. */
  lemma {:induction false} ShadowNonInterference(p: Pipe, q: Pipe, ops: seq<Op>, c: Ctx, d: Ctx)
    requires Muted(p, q) && AllLive(ops) && Core(c) == Core(d) && c.stamp.policy == Unset
    ensures var r, s := Serve(p, ops, c), Serve(q, ops, d);
            Core(r.ctx) == Core(s.ctx) && r.actions == s.actions && r.rejecters == s.rejecters
    decreases |ops|
  {
    if ops != [] {
      assert forall i :: 0 <= i < |ops| - 1 ==> ops[1..][i] == ops[i + 1];
      match ops[0]
      case Upstream(st, b) => ShadowNonInterference(p, q, ops[1..], Arrived(c, st, b), Arrived(d, st, b));
      case RunPhase(kind, live) =>
        MutedSlots(p, q, kind);
        WalksAgree(Slots(p, kind), Slots(q, kind), kind, 0, 0, live, c, d);
        ShadowNonInterference(p, q, ops[1..], Phased(p, kind, live, c).ctx, Phased(q, kind, live, d).ctx);
    }
  }
}
