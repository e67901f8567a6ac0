/**
 The plugin pipeline: the forward request phase, the reverse response phase, its per-frame
 variant, and the last-in-first-out finish phase, under per-plugin enforce, observe and off
 policies.

 A plugin hook is a deterministic interactive program: before each of its commands, and once
 more before it returns, it reads the current message, and what it does depends on all it has
 read so far. Hooks therefore reach the context only through Record, SetBody and SetResponseBody.
 */
module Pipelines {
  import opened Common
  import opened PipelineContext

  datatype Violation = Violation(code: string, reason: string, pluginName: string)

  datatype Action = Continue | Reject(violation: Option<Violation>)

  function Deny(code: string, reason: string): Action {
    Reject(Some(Violation(code, reason, "")))
  }

  const Cancelled: Action := Deny("pipeline.cancelled", "request cancelled")

  function Named(a: Action, name: string): Action
    requires a.Reject?
  {
    var v := if a.violation.Some? then a.violation.value
             else Violation("plugin.unspecified", "plugin rejected without violation", "");
    Reject(Some(if v.pluginName == "" then v.(pluginName := name) else v))
  }

  // ----- Plugins -----

  datatype Command = Nothing | DoRecord(inv: Invocation) | DoSetBody(body: Bytes) | DoSetResponseBody(body: Bytes)

  /** `len` commands, each chosen from the messages read so far; then a result. */
  datatype Program<!R> = Program(len: Message -> nat, act: seq<Message> -> Command, result: seq<Message> -> R)

  datatype Plugin = Plugin(
    name: string,
    readsBody: bool,
    writesBody: bool,
    needs: seq<string>,                                  // Requires: all of these earlier in the chain
    needsAny: seq<string>,                               // RequiresAny: one of these earlier
    onRequest: Program<Action>,
    onResponse: Program<Action>,
    onFrame: Option<(Bytes, bool) -> Program<Action>>,   // present on streaming responders
    onFinish: Option<Outcome -> Program<bool>>)          // present on finishers; the result says whether it panics

  datatype Pipe = Pipe(plugins: seq<Plugin>, policies: seq<Policy>)

  function PolicyAt(p: Pipe, i: nat): Policy {
    if i < |p.policies| then Resolved(p.policies[i]) else Enforce
  }

  function Performed(c: Ctx, cmd: Command): Ctx {
    match cmd
    case Nothing => c
    case DoRecord(inv) => Recorded(c, inv)
    case DoSetBody(b) => BodySet(c, b)
    case DoSetResponseBody(b) => ResponseBodySet(c, b)
  }

  /** The context after `n` more commands, and everything read by then. */
  function Steps<R>(prog: Program<R>, n: nat, seen: seq<Message>, c: Ctx): (Ctx, seq<Message>) {
    var t := seen + [c.message];
    if n == 0 then (c, t) else Steps(prog, n - 1, t, Performed(c, prog.act(t)))
  }

  function Ran<R>(prog: Program<R>, c: Ctx): (Ctx, R) {
    var (c', t) := Steps(prog, prog.len(c.message), [], c);
    (c', prog.result(t))
  }

  // ----- One phase -----

  datatype Kind = OnRequest | OnResponse | OnFrame(frame: Bytes, last: bool)

  function PhaseOf(kind: Kind): Phase {
    if kind.OnRequest? then RequestPhase else ResponsePhase
  }

  /** The hook a phase calls on a plugin, if any: streaming responders get frames instead of OnResponse. */
  function Hook(pl: Plugin, kind: Kind): Option<Program<Action>> {
    match kind
    case OnRequest => Some(pl.onRequest)
    case OnResponse => if pl.onFrame.Some? then None else Some(pl.onResponse)
    case OnFrame(frame, last) => if pl.onFrame.Some? then Some(pl.onFrame.value(frame, last)) else None
  }

  datatype Slot = Slot(index: nat, plugin: Plugin, policy: Policy)

  function SlotOf(p: Pipe, i: nat): Slot
    requires i < |p.plugins|
  {
    Slot(i, p.plugins[i], PolicyAt(p, i))
  }

  function Forward(p: Pipe, n: nat): (r: seq<Slot>)
    requires n <= |p.plugins|
    ensures |r| == n && forall i :: 0 <= i < n ==> r[i] == SlotOf(p, i)
  {
    if n == 0 then [] else Forward(p, n - 1) + [SlotOf(p, n - 1)]
  }

  function Backward(p: Pipe, n: nat): (r: seq<Slot>)
    requires n <= |p.plugins|
    ensures |r| == n
  {
    if n == 0 then [] else [SlotOf(p, n - 1)] + Backward(p, n - 1)
  }

  /** The plugins in the order a phase visits them. */
  function Slots(p: Pipe, kind: Kind): seq<Slot> {
    if kind.OnRequest? then Forward(p, |p.plugins|) else Backward(p, |p.plugins|)
  }

  /** A hook invocation: which plugin, under which policy, and the message it was entered with. */
  datatype Call = Call(slot: Slot, entered: Message)

  /** How a phase ended: the context, the action for the listener, the hooks it invoked, in order,
      and the plugin whose Reject stopped it, if one did. */
  datatype Walked = Walked(ctx: Ctx, action: Action, calls: seq<Call>, rejecter: Option<string>)

  /** The context a hook is entered with; only OnRequest invocations are put on the dispatch list. */
  function Entered(s: Slot, kind: Kind, c: Ctx): Ctx {
    var c1 := Stamping(c, s.plugin.name, PhaseOf(kind), s.policy);
    if kind.OnRequest? then c1.(ledger := c1.ledger.(dispatched := c1.ledger.dispatched + [s.index])) else c1
  }

  /** The context and returned action of one hook invocation. */
  function Invoked(s: Slot, kind: Kind, hook: Program<Action>, c: Ctx): (Ctx, Action) {
    var (c', a) := Ran(hook, Entered(s, kind, c));
    (Cleared(c'), a)
  }

  /** An observed plugin's rejection: mark its own record as shadow, or synthesize one. */
  function Shadowed(c: Ctx, name: string, phase: Phase, a: Action): Ctx
    requires a.Reject?
  {
    if LastRecordOf(Records(c), name, phase) >= 0 then ShadowMarked(c, name, phase)
    else
      var reason := if a.violation.Some? && a.violation.value.code != "" then a.violation.value.code else "plugin.unspecified";
      Recorded(c, Invocation(name, phase, ActDeny, reason, true))
  }

  /** One plugin's turn: the context afterwards, and the action that stops the phase, if any. */
  function Visited(s: Slot, kind: Kind, hook: Program<Action>, c: Ctx): (Ctx, Option<Action>) {
    var (c', a) := Invoked(s, kind, hook, c);
    if a.Continue? then (c', None)
    else
      var named := Named(a, s.plugin.name);
      if s.policy == Observe then (Shadowed(c', s.plugin.name, PhaseOf(kind), named), None)
      else (Rejected(c', s.plugin.name), Some(named))
  }

  predicate Skips(s: Slot, kind: Kind) {
    s.policy == Off || (kind.OnResponse? && s.plugin.onFrame.Some?)
  }

  /** A whole phase. `live(k)` is what the k-th poll of the request's cancellation answers. */
  function Walk(slots: seq<Slot>, kind: Kind, k: nat, live: nat -> bool, c: Ctx): Walked {
    if slots == [] then Walked(c, Continue, [], None)
    else if Skips(slots[0], kind) then Walk(slots[1..], kind, k, live, c)
    else if !live(k) then Walked(c, Cancelled, [], None)
    else
      var s, hook := slots[0], Hook(slots[0].plugin, kind);
      if hook.None? then Walk(slots[1..], kind, k + 1, live, c)
      else
        var (c', stop) := Visited(s, kind, hook.value, c);
        var call := Call(s, c.message);
        if stop.Some? then Walked(c', stop.value, [call], Some(s.plugin.name))
        else After(call, Walk(slots[1..], kind, k + 1, live, c'))
  }

  function After(call: Call, w: Walked): Walked {
    w.(calls := [call] + w.calls)
  }

  /** What is left of a phase ends as the whole phase does. */
  ghost predicate Remaining(slots: seq<Slot>, kind: Kind, k: nat, live: nat -> bool, c: Ctx, all: Walked) {
    var w := Walk(slots, kind, k, live, c);
    w.ctx == all.ctx && w.action == all.action
  }

  lemma RemainingStep(s: Slot, rest: seq<Slot>, kind: Kind, k: nat, live: nat -> bool, c: Ctx, all: Walked)
    requires Remaining([s] + rest, kind, k, live, c, all)
    ensures Skips(s, kind) ==> Remaining(rest, kind, k, live, c, all)
    ensures !Skips(s, kind) ==>
              var hook := Hook(s.plugin, kind);
              if !live(k) then all.ctx == c && all.action == Cancelled
              else if hook.None? then Remaining(rest, kind, k + 1, live, c, all)
              else
                var (c', stop) := Visited(s, kind, hook.value, c);
                if stop.Some? then all.ctx == c' && all.action == stop.value
                else Remaining(rest, kind, k + 1, live, c', all)
  {
    assert ([s] + rest)[1..] == rest;
  }

  lemma NextSlot(p: Pipe, i: nat)
    requires i < |p.plugins|
    ensures var slots := Slots(p, OnRequest); slots[i..] == [SlotOf(p, i)] + slots[i + 1..]
  {
  }

  // ----- The finish phase -----

  /** An OnFinish invocation: the plugin's index and the outcome it could read. */
  datatype FinishCall = FinishCall(index: nat, saw: Option<Outcome>)

  function InFinish(c: Ctx, flag: bool): Ctx {
    c.(ledger := c.ledger.(inFinish := flag))
  }

  /** OnFinish under the in-finish flag; a panic is recovered and the flag is lowered either way. */
  function FinishInvoked(f: Outcome -> Program<bool>, c: Ctx): Ctx {
    if c.ledger.outcome.None? then c else InFinish(Ran(f(c.ledger.outcome.value), InFinish(c, true)).0, false)
  }

  predicate InRange(p: Pipe, indices: seq<nat>) {
    forall k :: 0 <= k < |indices| ==> indices[k] < |p.plugins|
  }

  /** Finishes the plugins at `todo`, last first. */
  function FinishChain(p: Pipe, todo: seq<nat>, c: Ctx): (Ctx, seq<FinishCall>)
    requires InRange(p, todo)
  {
    if todo == [] then (c, [])
    else
      var i, rest := todo[|todo| - 1], todo[..|todo| - 1];
      if p.plugins[i].onFinish.None? then FinishChain(p, rest, c)
      else
        var (c', calls) := FinishChain(p, rest, FinishInvoked(p.plugins[i].onFinish.value, c));
        (c', [FinishCall(i, c.ledger.outcome)] + calls)
  }

  /** One round of the finish phase. */
  function FinishTurn(p: Pipe, i: nat, c: Ctx): (Ctx, seq<FinishCall>)
    requires i < |p.plugins|
  {
    var f := p.plugins[i].onFinish;
    if f.None? then (c, []) else (FinishInvoked(f.value, c), [FinishCall(i, c.ledger.outcome)])
  }

  /** With `calls` made, what is left of the chain ends it as `all` says. */
  ghost predicate ChainLeft(p: Pipe, todo: seq<nat>, i: nat, c: Ctx, calls: seq<FinishCall>, all: (Ctx, seq<FinishCall>)) {
    i <= |todo| && InRange(p, todo) && InRange(p, todo[..i]) &&
    FinishChain(p, todo[..i], c).0 == all.0 && calls + FinishChain(p, todo[..i], c).1 == all.1
  }

  lemma ChainLeftAtStart(p: Pipe, todo: seq<nat>, c: Ctx)
    requires InRange(p, todo)
    ensures ChainLeft(p, todo, |todo|, c, [], FinishChain(p, todo, c))
  {
    assert todo[..|todo|] == todo;
  }

  lemma ChainLeftStep(p: Pipe, todo: seq<nat>, i: nat, c: Ctx, calls: seq<FinishCall>, all: (Ctx, seq<FinishCall>))
    requires i < |todo| && ChainLeft(p, todo, i + 1, c, calls, all)
    ensures var (d, more) := FinishTurn(p, todo[i], c); ChainLeft(p, todo, i, d, calls + more, all)
  {
    assert todo[..i + 1][..i] == todo[..i];
    var (d, more) := FinishTurn(p, todo[i], c);
    var rest := FinishChain(p, todo[..i], d).1;
    assert FinishChain(p, todo[..i + 1], c).1 == more + rest;
    assert calls + more + rest == calls + (more + rest);
  }

  lemma ChainLeftAtEnd(p: Pipe, todo: seq<nat>, c: Ctx, calls: seq<FinishCall>, all: (Ctx, seq<FinishCall>))
    requires ChainLeft(p, todo, 0, c, calls, all)
    ensures (c, calls) == all
  {
    assert todo[..0] == [] && calls + [] == calls;
  }

  /** The context with its finish phase begun, and with its finish phase over. */
  function Finishing(c: Ctx, outcome: Option<Outcome>): Ctx {
    c.(ledger := c.ledger.(finished := true, outcome := outcome))
  }

  function Finished(p: Pipe, c: Ctx, outcome: Outcome): (Ctx, seq<FinishCall>)
    requires InRange(p, c.ledger.dispatched)
  {
    if c.ledger.finished then (c, [])
    else if c.ledger.dispatched == [] then (Finishing(c, c.ledger.outcome), [])
    else
      var (c', calls) := FinishChain(p, c.ledger.dispatched, Finishing(c, Some(outcome)));
      (Finishing(c', None), calls)
  }

  // ----- The pipeline object -----

  method Execute<R>(prog: Program<R>, pctx: Context) returns (r: R)
    modifies pctx
    ensures (pctx.Value(), r) == Ran(prog, old(pctx.Value()))
  {
    var n := prog.len(pctx.Value().message);
    var seen := [];
    while n > 0
      invariant Steps(prog, n, seen, pctx.Value()) ==
                Steps(prog, prog.len(old(pctx.Value()).message), [], old(pctx.Value()))
    {
      seen := seen + [pctx.Value().message];
      match prog.act(seen) {
        case Nothing =>
        case DoRecord(inv) => pctx.Record(inv);
        case DoSetBody(b) => pctx.SetBody(b);
        case DoSetResponseBody(b) => pctx.SetResponseBody(b);
      }
      n := n - 1;
    }
    r := prog.result(seen + [pctx.Value().message]);
  }

  class Pipeline {
    const plugins: seq<Plugin>
    const policies: seq<Policy>

    ghost function Value(): Pipe {
      Pipe(plugins, policies)
    }

    constructor (plugins: seq<Plugin>, policies: seq<Policy>)
      ensures Value() == Pipe(plugins, policies)
    {
      this.plugins, this.policies := plugins, policies;
    }

    method ResolvedPolicy(i: nat) returns (policy: Policy)
      ensures policy == PolicyAt(Value(), i) == (if i < |policies| && policies[i] != Unset then policies[i] else Enforce)
    {
      policy := if i < |policies| then Resolved(policies[i]) else Enforce;
    }

    /** Stamp, invoke the hook, clear the stamp. */
    method Dispatch(i: nat, policy: Policy, kind: Kind, hook: Program<Action>, pctx: Context) returns (action: Action)
      requires i < |plugins|
      modifies pctx
      ensures (pctx.Value(), action) == Invoked(Slot(i, plugins[i], policy), kind, hook, old(pctx.Value()))
    {
      pctx.SetCurrent(plugins[i].name, PhaseOf(kind), policy);
      if kind.OnRequest? {
        pctx.dispatched := pctx.dispatched + [i];
      }
      action := Execute(hook, pctx);
      pctx.ClearCurrent();
    }

    method MarkShadow(name: string, phase: Phase, action: Action, pctx: Context)
      requires action.Reject?
      modifies pctx
      ensures pctx.Value() == Shadowed(old(pctx.Value()), name, phase, action)
    {
      var marked := pctx.MarkLastInvocationShadow(name, phase);
      if !marked {
        var reason := "plugin.unspecified";
        if action.violation.Some? && action.violation.value.code != "" {
          reason := action.violation.value.code;
        }
        pctx.Record(Invocation(name, phase, ActDeny, reason, true));
      }
    }

    /** Dispatch one hook and act on a rejection as the policy says. */
    method Visit(i: nat, policy: Policy, kind: Kind, hook: Program<Action>, pctx: Context) returns (stop: Option<Action>)
      requires i < |plugins|
      modifies pctx
      ensures (pctx.Value(), stop) == Visited(Slot(i, plugins[i], policy), kind, hook, old(pctx.Value()))
    {
      var action := Dispatch(i, policy, kind, hook, pctx);
      if action.Continue? {
        return None;
      }
      action := Named(action, plugins[i].name);
      if policy == Observe {
        MarkShadow(plugins[i].name, PhaseOf(kind), action, pctx);
        return None;
      }
      pctx.SetRejectingPlugin(plugins[i].name);
      stop := Some(action);
    }

    method Run(live: nat -> bool, pctx: Context) returns (action: Action)
      modifies pctx
      ensures var w := Walk(Slots(Value(), OnRequest), OnRequest, 0, live, old(pctx.Value()));
              pctx.Value() == w.ctx && action == w.action
    {
      ghost var slots := Slots(Value(), OnRequest);
      ghost var all := Walk(slots, OnRequest, 0, live, pctx.Value());
      var polls := 0;
      for i := 0 to |plugins|
        invariant Remaining(slots[i..], OnRequest, polls, live, pctx.Value(), all)
      {
        var policy := ResolvedPolicy(i);
        NextSlot(Value(), i);
        RemainingStep(SlotOf(Value(), i), slots[i + 1..], OnRequest, polls, live, pctx.Value(), all);
        if policy == Off {
          continue;
        }
        if !live(polls) {
          return Cancelled;
        }
        polls := polls + 1;
        var stop := Visit(i, policy, OnRequest, plugins[i].onRequest, pctx);
        if stop.Some? {
          return stop.value;
        }
      }
      action := Continue;
    }

    method RunResponse(live: nat -> bool, pctx: Context) returns (action: Action)
      modifies pctx
      ensures var w := Walk(Slots(Value(), OnResponse), OnResponse, 0, live, old(pctx.Value()));
              pctx.Value() == w.ctx && action == w.action
    {
      ghost var all := Walk(Slots(Value(), OnResponse), OnResponse, 0, live, pctx.Value());
      var polls := 0;
      for i := |plugins| downto 0
        invariant Remaining(Backward(Value(), i), OnResponse, polls, live, pctx.Value(), all)
      {
        var policy := ResolvedPolicy(i);
        RemainingStep(SlotOf(Value(), i), Backward(Value(), i), OnResponse, polls, live, pctx.Value(), all);
        if policy == Off || plugins[i].onFrame.Some? {
          continue;
        }
        if !live(polls) {
          return Cancelled;
        }
        polls := polls + 1;
        var stop := Visit(i, policy, OnResponse, plugins[i].onResponse, pctx);
        if stop.Some? {
          return stop.value;
        }
      }
      action := Continue;
    }

    method RunResponseFrame(live: nat -> bool, pctx: Context, frame: Bytes, last: bool) returns (action: Action)
      modifies pctx
      ensures var w := Walk(Slots(Value(), OnFrame(frame, last)), OnFrame(frame, last), 0, live, old(pctx.Value()));
              pctx.Value() == w.ctx && action == w.action
    {
      var kind := OnFrame(frame, last);
      ghost var all := Walk(Slots(Value(), kind), kind, 0, live, pctx.Value());
      var polls := 0;
      for i := |plugins| downto 0
        invariant Remaining(Backward(Value(), i), kind, polls, live, pctx.Value(), all)
      {
        var policy := ResolvedPolicy(i);
        RemainingStep(SlotOf(Value(), i), Backward(Value(), i), kind, polls, live, pctx.Value(), all);
        if policy == Off {
          continue;
        }
        if !live(polls) {
          return Cancelled;
        }
        polls := polls + 1;
        if plugins[i].onFrame.None? {
          continue;
        }
        var stop := Visit(i, policy, kind, plugins[i].onFrame.value(frame, last), pctx);
        if stop.Some? {
          return stop.value;
        }
      }
      action := Continue;
    }

    /** OnFinish of one plugin, with the in-finish flag up; whether it panics makes no difference. */
    method DispatchFinish(f: Outcome -> Program<bool>, pctx: Context)
      requires pctx.outcome.Some?
      modifies pctx
      ensures pctx.Value() == FinishInvoked(f, old(pctx.Value()))
    {
      pctx.inFinish := true;
      var _ := Execute(f(pctx.outcome.value), pctx);
      pctx.inFinish := false;
    }

    /** One round: OnFinish of the plugin at `idx`, if it is a finisher. */
    method FinishOne(idx: nat, pctx: Context) returns (calls: seq<FinishCall>)
      requires idx < |plugins| && pctx.outcome.Some?
      modifies pctx
      ensures (pctx.Value(), calls) == FinishTurn(Value(), idx, old(pctx.Value()))
      ensures pctx.outcome == old(pctx.outcome)
    {
      if plugins[idx].onFinish.None? {
        return [];
      }
      calls := [FinishCall(idx, pctx.outcome)];
      FinishKeepsOutcome(plugins[idx].onFinish.value, pctx.Value());
      DispatchFinish(plugins[idx].onFinish.value, pctx);
    }

    /** The chain over `todo`, last first; returns the OnFinish calls it made. */
    method FinishAll(todo: seq<nat>, pctx: Context) returns (calls: seq<FinishCall>)
      requires InRange(Value(), todo) && pctx.outcome.Some?
      modifies pctx
      ensures (pctx.Value(), calls) == FinishChain(Value(), todo, old(pctx.Value()))
    {
      calls := [];
      ghost var all := FinishChain(Value(), todo, pctx.Value());
      ChainLeftAtStart(Value(), todo, pctx.Value());
      for i := |todo| downto 0
        invariant pctx.outcome.Some? && ChainLeft(Value(), todo, i, pctx.Value(), calls, all)
      {
        ChainLeftStep(Value(), todo, i, pctx.Value(), calls, all);
        var more := FinishOne(todo[i], pctx);
        calls := calls + more;
      }
      ChainLeftAtEnd(Value(), todo, pctx.Value(), calls, all);
    }

    /** Returns the OnFinish calls it made. */
    method RunFinish(pctx: Context, outcome: Outcome) returns (calls: seq<FinishCall>)
      requires InRange(Value(), pctx.dispatched)
      modifies pctx
      ensures (pctx.Value(), calls) == Finished(Value(), old(pctx.Value()), outcome)
    {
      if pctx.finished {
        return [];
      }
      pctx.finished := true;
      if pctx.dispatched == [] {
        return [];
      }
      pctx.outcome := Some(outcome);
      calls := FinishAll(pctx.dispatched, pctx);
      FinishChainKeepsFinished(Value(), old(pctx.dispatched), Finishing(old(pctx.Value()), Some(outcome)));
      pctx.outcome := None;
    }
  }

  lemma {:induction false} FinishChainKeepsFinished(p: Pipe, todo: seq<nat>, c: Ctx)
    requires InRange(p, todo)
    ensures FinishChain(p, todo, c).0.ledger.finished == c.ledger.finished
    decreases |todo|
  {
    if todo != [] {
      var f := p.plugins[todo[|todo| - 1]].onFinish;
      if f.Some? {
        FinishKeepsOutcome(f.value, c);
      }
      FinishChainKeepsFinished(p, todo[..|todo| - 1], if f.None? then c else FinishInvoked(f.value, c));
    }
  }

  lemma FinishKeepsOutcome(f: Outcome -> Program<bool>, c: Ctx)
    ensures FinishInvoked(f, c).ledger.outcome == c.ledger.outcome && FinishInvoked(f, c).ledger.finished == c.ledger.finished
  {
    FinishKeepsContext(f, c);
  }

  lemma {:induction false} StepsInFinish<R>(prog: Program<R>, n: nat, seen: seq<Message>, c: Ctx)
    requires c.ledger.inFinish
    ensures Steps(prog, n, seen, c).0 == c
    decreases n
  {
    if n > 0 {
      StepsInFinish(prog, n - 1, seen + [c.message], c);
    }
  }

  /** Whatever a finish hook does, by returning or by panicking, the context is as it was. */
  lemma FinishKeepsContext(f: Outcome -> Program<bool>, c: Ctx)
    ensures c.ledger.outcome.Some? ==> FinishInvoked(f, c) == InFinish(c, false)
  {
    if c.ledger.outcome.Some? {
      var prog := f(c.ledger.outcome.value);
      StepsInFinish(prog, prog.len(c.message), [], InFinish(c, true));
    }
  }
}
