/**
 How a finished request is classified. For plugins whose only denial is their own last record before
 rejecting, the classification is Deny exactly when an enforced plugin rejected, and it names the
 first one that has a name; observed denials never count. The empty plugin name stands for "nobody
 rejected", so a nameless plugin's rejection counts only through what it left on record.
 */
module PipelineOutcome {
  import opened Common
  import opened PipelineContext
  import opened Pipelines
  import opened PipelineLaws

  /** Every denial on record that took effect is attributed to one of `names`. */
  predicate Accounted(rs: seq<Invocation>, names: seq<string>) {
    forall i :: 0 <= i < |rs| && EffectiveDeny(rs[i]) ==> rs[i].plugin in names
  }

  predicate Clean(rs: seq<Invocation>) {
    forall i :: 0 <= i < |rs| ==> !EffectiveDeny(rs[i])
  }

  predicate NoEffectiveDeny(c: Ctx) {
    Clean(c.inbound) && Clean(c.outbound)
  }

  /** Same request, same dispatch, same rejecting plugin. */
  predicate SameDispatch(c: Ctx, d: Ctx) {
    c.direction == d.direction && c.stamp == d.stamp && c.rejectingPlugin == d.rejectingPlugin && c.ledger == d.ledger
  }

  lemma PerformedDispatch(c: Ctx, cmd: Command)
    ensures SameDispatch(Performed(c, cmd), c)
  {
  }

  lemma {:induction false} StepsDispatch(prog: Program<Action>, n: nat, seen: seq<Message>, c: Ctx)
    ensures SameDispatch(Steps(prog, n, seen, c).0, c)
    decreases n
  {
    if n > 0 {
      var t := seen + [c.message];
      PerformedDispatch(c, prog.act(t));
      StepsDispatch(prog, n - 1, t, Performed(c, prog.act(t)));
    }
  }

  lemma ShadowedDispatch(c: Ctx, name: string, phase: Phase, a: Action)
    requires a.Reject?
    ensures SameDispatch(Shadowed(c, name, phase, a), c)
  {
  }

  // ----- When exactly an observed denial counts -----

  function Others(c: Ctx): seq<Invocation> {
    if c.direction == Inbound then c.outbound else c.inbound
  }

  /** What a command puts on record. */
  function RecordsOf(c: Ctx, cmd: Command): seq<Invocation> {
    match cmd
    case Nothing => []
    case DoRecord(inv) => [Filled(c, inv)]
    case _ => [Filled(c, BodyRewritten(c.stamp.policy == Observe))]
  }

  /** What a hook puts on record. */
  function Emitted(prog: Program<Action>, n: nat, seen: seq<Message>, c: Ctx): seq<Invocation>
    decreases n
  {
    if n == 0 then []
    else
      var t := seen + [c.message];
      RecordsOf(c, prog.act(t)) + Emitted(prog, n - 1, t, Performed(c, prog.act(t)))
  }

  lemma PerformedRecords(c: Ctx, cmd: Command)
    requires !c.ledger.inFinish
    ensures Records(Performed(c, cmd)) == Records(c) + RecordsOf(c, cmd) && Others(Performed(c, cmd)) == Others(c)
  {
  }

  lemma {:induction false} StepsRecords(prog: Program<Action>, n: nat, seen: seq<Message>, c: Ctx)
    requires !c.ledger.inFinish
    ensures var d := Steps(prog, n, seen, c).0;
            Records(d) == Records(c) + Emitted(prog, n, seen, c) && Others(d) == Others(c)
    decreases n
  {
    if n > 0 {
      var t := seen + [c.message];
      PerformedRecords(c, prog.act(t));
      PerformedDispatch(c, prog.act(t));
      StepsRecords(prog, n - 1, t, Performed(c, prog.act(t)));
    } else {
      assert Records(c) + [] == Records(c);
    }
  }

  /** Everything one visit of a plugin puts on record by itself. */
  function EmittedOn(s: Slot, kind: Kind, hook: Program<Action>, c: Ctx): seq<Invocation> {
    var c1 := Entered(s, kind, c);
    Emitted(hook, hook.len(c1.message), [], c1)
  }

  lemma InvokedRecords(s: Slot, kind: Kind, hook: Program<Action>, c: Ctx)
    requires !c.ledger.inFinish
    ensures var d := Invoked(s, kind, hook, c).0;
            && Records(d) == Records(c) + EmittedOn(s, kind, hook, c) && Others(d) == Others(c)
            && d.rejectingPlugin == c.rejectingPlugin && !d.ledger.inFinish
  {
    var c1 := Entered(s, kind, c);
    StepsRecords(hook, hook.len(c1.message), [], c1);
    StepsDispatch(hook, hook.len(c1.message), [], c1);
  }

  /** The only denial among the records, if there is one, is the plugin's own last record before a Reject. */
  predicate Withdrawn(rs: seq<Invocation>, name: string, phase: Phase, rejects: bool) {
    forall i :: 0 <= i < |rs| && EffectiveDeny(rs[i]) ==> rejects && i == LastRecordOf(rs, name, phase)
  }

  lemma CleanConcat(a: seq<Invocation>, b: seq<Invocation>)
    ensures Clean(a + b) <==> Clean(a) && Clean(b)
  {
    if Clean(a + b) {
      assert forall i :: 0 <= i < |a| ==> a[i] == (a + b)[i];
      assert forall i :: 0 <= i < |b| ==> b[i] == (a + b)[|a| + i];
    }
  }

  lemma LastRecordConcat(a: seq<Invocation>, b: seq<Invocation>, name: string, phase: Phase)
    ensures LastRecordOf(a + b, name, phase) ==
            var j := LastRecordOf(b, name, phase); if j >= 0 then |a| + j else LastRecordOf(a, name, phase)
  {
    var j := LastRecordOf(b, name, phase);
    assert forall k :: |a| <= k < |a + b| ==> (a + b)[k] == b[k - |a|];
    LastRecordUnique(a + b, name, phase, if j >= 0 then |a| + j else LastRecordOf(a, name, phase));
  }

  /** Marking the record at `i` leaves the list clean exactly when nothing else on it is a denial. */
  lemma MarkedClean(rs: seq<Invocation>, i: nat)
    requires i < |rs|
    ensures Clean(rs[i := rs[i].(shadow := true)]) <==> forall k :: 0 <= k < |rs| && k != i ==> !EffectiveDeny(rs[k])
  {
    var marked := rs[i := rs[i].(shadow := true)];
    assert forall k :: 0 <= k < |rs| && k != i ==> marked[k] == rs[k];
  }

  /** After an observed Reject, the records are clean exactly when the plugin's own are withdrawn. */
  lemma ShadowedCleanIff(before: seq<Invocation>, own: seq<Invocation>, c: Ctx, name: string, phase: Phase, a: Action)
    requires a.Reject? && !c.ledger.inFinish && Records(c) == before + own && Clean(before)
    ensures Clean(Records(Shadowed(c, name, phase, a))) <==> Withdrawn(own, name, phase, true)
    ensures Others(Shadowed(c, name, phase, a)) == Others(c)
  {
    LastRecordConcat(before, own, name, phase);
    var i := LastRecordOf(before + own, name, phase);
    if i < 0 {
      var extra := Records(Shadowed(c, name, phase, a))[|before + own|];
      CleanConcat(before, own);
      CleanConcat(before + own, [extra]);
      assert Records(Shadowed(c, name, phase, a)) == before + own + [extra];
    } else {
      MarkedCleanIff(before, own, name, phase);
    }
  }

  lemma MarkedCleanIff(before: seq<Invocation>, own: seq<Invocation>, name: string, phase: Phase)
    requires Clean(before) && LastRecordOf(before + own, name, phase) >= 0
    ensures var rs, i := before + own, LastRecordOf(before + own, name, phase);
            Clean(rs[i := rs[i].(shadow := true)]) <==> Withdrawn(own, name, phase, true)
  {
    LastRecordConcat(before, own, name, phase);
    var rs, i := before + own, LastRecordOf(before + own, name, phase);
    MarkedClean(rs, i);
    assert forall k :: 0 <= k < |own| ==> own[k] == rs[|before| + k];
    assert forall k :: 0 <= k < |before| ==> rs[k] == before[k];
  }

  lemma OutcomeDeniesIff(c: Ctx)
    requires c.rejectingPlugin == ""
    ensures OutcomeOf(c).finalAction == OutcomeDeny <==> !(Clean(Records(c)) && Clean(Others(c)))
  {
  }

  lemma ObservedVisitCleanIff(s: Slot, kind: Kind, hook: Program<Action>, c: Ctx)
    requires s.policy == Observe && NoEffectiveDeny(c) && !c.ledger.inFinish && c.rejectingPlugin == ""
    ensures var d := Visited(s, kind, hook, c).0;
            && d.rejectingPlugin == "" && Clean(Others(d))
            && (Clean(Records(d)) <==> Withdrawn(EmittedOn(s, kind, hook, c), s.plugin.name, PhaseOf(kind), Invoked(s, kind, hook, c).1.Reject?))
  {
    var name, phase := s.plugin.name, PhaseOf(kind);
    InvokedRecords(s, kind, hook, c);
    var (d, a) := Invoked(s, kind, hook, c);
    if a.Reject? {
      ShadowedCleanIff(Records(c), EmittedOn(s, kind, hook, c), d, name, phase, Named(a, name));
      ShadowedDispatch(d, name, phase, Named(a, name));
    } else {
      CleanConcat(Records(c), EmittedOn(s, kind, hook, c));
    }
  }

  /** From a clean start, an observed plugin makes the outcome a denial if and only if it records a denial
      and does not withdraw it: it goes on to record something else of its own, or does not reject. */
  lemma ObservedDenialCountsIff(s: Slot, kind: Kind, hook: Program<Action>, c: Ctx)
    requires s.policy == Observe && NoEffectiveDeny(c) && !c.ledger.inFinish && c.rejectingPlugin == ""
    ensures OutcomeOf(Visited(s, kind, hook, c).0).finalAction == OutcomeDeny <==>
            !Withdrawn(EmittedOn(s, kind, hook, c), s.plugin.name, PhaseOf(kind), Invoked(s, kind, hook, c).1.Reject?)
  {
    ObservedVisitCleanIff(s, kind, hook, c);
    OutcomeDeniesIff(Visited(s, kind, hook, c).0);
  }

  /** A nameless plugin's enforced Reject makes the outcome a denial if and only if the plugin left a
      denial on record. */
  lemma NamelessRejectCountsIff(s: Slot, kind: Kind, hook: Program<Action>, c: Ctx)
    requires s.policy == Enforce && s.plugin.name == "" && Invoked(s, kind, hook, c).1.Reject?
    requires NoEffectiveDeny(c) && !c.ledger.inFinish && c.rejectingPlugin == ""
    ensures OutcomeOf(Visited(s, kind, hook, c).0).finalAction == OutcomeDeny <==> !Clean(EmittedOn(s, kind, hook, c))
  {
    InvokedRecords(s, kind, hook, c);
    CleanConcat(Records(c), EmittedOn(s, kind, hook, c));
    OutcomeDeniesIff(Visited(s, kind, hook, c).0);
  }

  // ----- Whole requests -----

  /** Whatever it is shown, the plugin's only effective denial is its own last record before a Reject. */
  ghost predicate Disciplined(pl: Plugin) {
    forall s, kind, c :: DisciplinedOn(pl, s, kind, c)
  }

  ghost predicate DisciplinedOn(pl: Plugin, s: Slot, kind: Kind, c: Ctx) {
    var hook := Hook(pl, kind);
    s.plugin == pl && hook.Some? && !c.ledger.inFinish ==>
      Withdrawn(EmittedOn(s, kind, hook.value, c), pl.name, PhaseOf(kind), Invoked(s, kind, hook.value, c).1.Reject?)
  }

  const GateDeny := Invocation("", NoPhase, ActDeny, "no", false)

  /** Records a denial, with attribution left to the framework, does nothing more and rejects. */
  function GateHook(): Program<Action> {
    Program(_ => 2, (t: seq<Message>) => if |t| == 1 then DoRecord(GateDeny) else Nothing, _ => Deny("policy.forbidden", "no"))
  }

  /** The usual denying gate keeps the discipline, whatever its name. */
  lemma GateIsDisciplined(name: string)
    ensures Disciplined(Plugin(name, false, false, [], [], GateHook(), GateHook(), None, None))
  {
    var pl := Plugin(name, false, false, [], [], GateHook(), GateHook(), None, None);
    forall s, kind, c
      ensures DisciplinedOn(pl, s, kind, c)
    {
      if s.plugin == pl && Hook(pl, kind).Some? {
        GateVisit(s, kind, c);
      }
    }
  }

  lemma GateVisit(s: Slot, kind: Kind, c: Ctx)
    ensures Invoked(s, kind, GateHook(), c).1.Reject?
    ensures Withdrawn(EmittedOn(s, kind, GateHook(), c), s.plugin.name, PhaseOf(kind), true)
  {
    var name, phase := s.plugin.name, PhaseOf(kind);
    var own := [GateDeny.(plugin := name, phase := phase)];
    GateEmits(Entered(s, kind, c));
    assert EmittedOn(s, kind, GateHook(), c) == own;
    LastRecordUnique(own, name, phase, 0);
  }

  lemma GateEmits(c: Ctx)
    ensures Emitted(GateHook(), 2, [], c) == [GateDeny.(plugin := c.stamp.plugin, phase := c.stamp.phase)]
  {
    var h := GateHook();
    var t := [] + [c.message];
    var d := Performed(c, h.act(t));
    assert h.act(t) == DoRecord(GateDeny) && h.act(t + [d.message]) == Nothing;
    assert Emitted(h, 0, t + [d.message], d) == [];
    assert Emitted(h, 1, t, d) == [];
  }

  /** The first of the names that is not empty, or the empty name. */
  function FirstNamed(names: seq<string>): string {
    if names == [] then "" else if names[0] != "" then names[0] else FirstNamed(names[1..])
  }

  lemma {:induction false} FirstNamedIsNamed(names: seq<string>)
    ensures FirstNamed(names) == "" <==> forall x :: x in names ==> x == ""
    ensures FirstNamed(names) != "" ==> FirstNamed(names) in names
  {
    if names != [] {
      FirstNamedIsNamed(names[1..]);
      assert forall x :: x in names <==> x == names[0] || x in names[1..];
      if FirstNamed(names) != "" {
        assert FirstNamed(names) in names;
      }
    }
  }

  lemma {:induction false} FirstNamedAppend(names: seq<string>, x: string)
    ensures FirstNamed(names + [x]) == if FirstNamed(names) != "" then FirstNamed(names) else x
  {
    if names == [] {
      assert FirstNamed([x]) == if x != "" then x else FirstNamed([x][1..]);
    } else {
      assert (names + [x])[1..] == names[1..] + [x];
      FirstNamedAppend(names[1..], x);
    }
  }

  /** After rejections by `names`: the rejecting plugin is the first named one, and every effective
      denial on record is attributed to one of them. */
  predicate Honest(c: Ctx, names: seq<string>) {
    && !c.ledger.inFinish && c.rejectingPlugin == FirstNamed(names)
    && Accounted(Records(c), names) && Accounted(Others(c), names)
  }

  lemma AccountedGrows(rs: seq<Invocation>, names: seq<string>, x: string)
    requires Accounted(rs, names)
    ensures Accounted(rs, names + [x])
  {
  }

  lemma AccountedConcat(a: seq<Invocation>, b: seq<Invocation>, names: seq<string>)
    requires Accounted(a, names) && Accounted(b, names)
    ensures Accounted(a + b, names)
  {
  }

  /** An observed Reject takes back the denial the plugin had just recorded, and adds none. */
  lemma ShadowedAccounted(before: seq<Invocation>, own: seq<Invocation>, c: Ctx, name: string, phase: Phase, a: Action, names: seq<string>)
    requires a.Reject? && !c.ledger.inFinish && Records(c) == before + own
    requires Accounted(before, names) && Withdrawn(own, name, phase, true)
    ensures Accounted(Records(Shadowed(c, name, phase, a)), names) && Others(Shadowed(c, name, phase, a)) == Others(c)
  {
    if LastRecordOf(before + own, name, phase) < 0 {
      LastRecordConcat(before, own, name, phase);
      var extra := Records(Shadowed(c, name, phase, a))[|before + own|];
      AccountedConcat(before, own, names);
      AccountedConcat(before + own, [extra], names);
      assert Records(Shadowed(c, name, phase, a)) == before + own + [extra];
    } else {
      MarkedAccounted(before, own, name, phase, names);
    }
  }

  lemma MarkedAccounted(before: seq<Invocation>, own: seq<Invocation>, name: string, phase: Phase, names: seq<string>)
    requires Accounted(before, names) && Withdrawn(own, name, phase, true) && LastRecordOf(before + own, name, phase) >= 0
    ensures var rs, i := before + own, LastRecordOf(before + own, name, phase);
            Accounted(rs[i := rs[i].(shadow := true)], names)
  {
    LastRecordConcat(before, own, name, phase);
    var rs := before + own;
    assert forall k :: 0 <= k < |own| ==> rs[|before| + k] == own[k];
    assert forall k :: 0 <= k < |before| ==> rs[k] == before[k];
  }

  lemma VisitedHonest(s: Slot, kind: Kind, hook: Program<Action>, c: Ctx, names: seq<string>)
    requires Disciplined(s.plugin) && Hook(s.plugin, kind) == Some(hook) && Honest(c, names)
    ensures var (d, stop) := Visited(s, kind, hook, c);
            Honest(d, if stop.Some? then names + [s.plugin.name] else names)
  {
    var name, phase, own := s.plugin.name, PhaseOf(kind), EmittedOn(s, kind, hook, c);
    var (d, a) := Invoked(s, kind, hook, c);
    InvokedRecords(s, kind, hook, c);
    assert DisciplinedOn(s.plugin, s, kind, c);
    if a.Continue? {
      AccountedConcat(Records(c), own, names);
    } else if s.policy == Observe {
      ShadowedAccounted(Records(c), own, d, name, phase, Named(a, name), names);
      ShadowedDispatch(d, name, phase, Named(a, name));
    } else {
      FirstNamedAppend(names, name);
      AccountedGrows(Records(c), names, name);
      AccountedGrows(Others(c), names, name);
      AccountedConcat(Records(c), own, names + [name]);
    }
  }

  ghost predicate AllDisciplined(slots: seq<Slot>) {
    forall i :: 0 <= i < |slots| ==> Disciplined(slots[i].plugin)
  }

  function Rejecters(w: Walked): seq<string> {
    if w.rejecter.Some? then [w.rejecter.value] else []
  }

  lemma {:induction false} WalkHonest(slots: seq<Slot>, kind: Kind, k: nat, live: nat -> bool, c: Ctx, names: seq<string>)
    requires AllDisciplined(slots) && Honest(c, names)
    ensures var w := Walk(slots, kind, k, live, c); Honest(w.ctx, names + Rejecters(w))
    decreases |slots|
  {
    assert names + [] == names;
    if slots != [] {
      var s := slots[0];
      var hook := Hook(s.plugin, kind);
      if Skips(s, kind) {
        WalkHonest(slots[1..], kind, k, live, c, names);
      } else if live(k) {
        if hook.None? {
          WalkHonest(slots[1..], kind, k + 1, live, c, names);
        } else {
          VisitedHonest(s, kind, hook.value, c, names);
          var (c', stop) := Visited(s, kind, hook.value, c);
          if stop.None? {
            WalkHonest(slots[1..], kind, k + 1, live, c', names);
          }
        }
      }
    }
  }

  ghost predicate PipeDisciplined(p: Pipe) {
    forall i :: 0 <= i < |p.plugins| ==> Disciplined(p.plugins[i])
  }

  lemma SlotsDisciplined(p: Pipe, kind: Kind)
    requires PipeDisciplined(p)
    ensures AllDisciplined(Slots(p, kind))
  {
    forall k | 0 <= k < |p.plugins|
      ensures Disciplined(Slots(p, kind)[k].plugin)
    {
      if !kind.OnRequest? {
        BackwardAt(p, |p.plugins|, k);
      }
    }
  }

  lemma ArrivedHonest(c: Ctx, st: int, b: Bytes, names: seq<string>)
    requires Honest(c, names)
    ensures Honest(Arrived(c, st, b), names)
  {
  }

  lemma PhaseHonest(p: Pipe, kind: Kind, live: nat -> bool, c: Ctx, names: seq<string>)
    requires PipeDisciplined(p) && Honest(c, names)
    ensures var w := Phased(p, kind, live, c); Honest(w.ctx, names + Rejecters(w))
  {
    SlotsDisciplined(p, kind);
    WalkHonest(Slots(p, kind), kind, 0, live, c, names);
  }

  lemma ServePhase(p: Pipe, ops: seq<Op>, c: Ctx)
    requires ops != [] && ops[0].RunPhase?
    ensures var w := Phased(p, ops[0].kind, ops[0].live, c);
            var r := Serve(p, ops[1..], w.ctx);
            Serve(p, ops, c).ctx == r.ctx && Serve(p, ops, c).rejecters == Rejecters(w) + r.rejecters
  {
  }

  lemma HonestRegroups(c: Ctx, a: seq<string>, b: seq<string>, d: seq<string>)
    requires Honest(c, a + b + d)
    ensures Honest(c, a + (b + d))
  {
    assert a + b + d == a + (b + d);
  }

  lemma {:induction false} ServeHonest(p: Pipe, ops: seq<Op>, c: Ctx, names: seq<string>)
    requires PipeDisciplined(p) && Honest(c, names)
    ensures var r := Serve(p, ops, c); Honest(r.ctx, names + r.rejecters)
    decreases |ops|
  {
    if ops == [] {
      assert names + [] == names;
    } else if ops[0].Upstream? {
      var d := Arrived(c, ops[0].statusCode, ops[0].responseBody);
      ArrivedHonest(c, ops[0].statusCode, ops[0].responseBody, names);
      ServeHonest(p, ops[1..], d, names);
    } else {
      var w := Phased(p, ops[0].kind, ops[0].live, c);
      PhaseHonest(p, ops[0].kind, ops[0].live, c, names);
      ServeHonest(p, ops[1..], w.ctx, names + Rejecters(w));
      ServePhase(p, ops, c);
      var r := Serve(p, ops[1..], w.ctx);
      HonestRegroups(r.ctx, names, Rejecters(w), r.rejecters);
    }
  }

  /** Over any phases of a request of disciplined plugins: if a plugin with a name rejected, the outcome
      is Deny and names the first such plugin. If nobody rejected, it is decided by whether a response
      was written. If only nameless plugins rejected, it is Deny if and only if a denial of theirs is
      still on record. */
  lemma DenyIffEnforcedReject(p: Pipe, ops: seq<Op>, direction: Direction, body: Bytes)
    requires PipeDisciplined(p)
    ensures var r := Serve(p, ops, Fresh(direction, body));
            var o, first := OutcomeOf(r.ctx), FirstNamed(r.rejecters);
            if first != "" || !NoEffectiveDeny(r.ctx) then r.rejecters != [] && o == Outcome(OutcomeDeny, r.ctx.statusCode, first)
            else o == Outcome(if r.ctx.statusCode == 0 then OutcomeError else OutcomeAllow, r.ctx.statusCode, "")
  {
    var c := Fresh(direction, body);
    ServeHonest(p, ops, c, []);
    var r := Serve(p, ops, c);
    assert [] + r.rejecters == r.rejecters;
    HonestOutcome(r.ctx, r.rejecters);
  }

  lemma HonestOutcome(c: Ctx, names: seq<string>)
    requires Honest(c, names)
    ensures if FirstNamed(names) != "" || !NoEffectiveDeny(c)
            then names != [] && OutcomeOf(c) == Outcome(OutcomeDeny, c.statusCode, FirstNamed(names))
            else OutcomeOf(c) == Outcome(if c.statusCode == 0 then OutcomeError else OutcomeAllow, c.statusCode, "")
  {
    FirstNamedIsNamed(names);
    LastDenierAccounted(c.inbound, names);
    LastDenierAccounted(c.outbound, names);
  }

  lemma {:induction false} LastDenierAccounted(rs: seq<Invocation>, names: seq<string>)
    requires Accounted(rs, names)
    ensures LastDenier(rs).Some? ==> LastDenier(rs).value in names
    decreases |rs|
  {
    if rs != [] && !EffectiveDeny(rs[|rs| - 1]) {
      LastDenierAccounted(rs[..|rs| - 1], names);
    }
  }

  // ----- What a pipeline can be relied on for -----

  /** Every enforced plugin has a name. */
  ghost predicate EnforcedNamed(p: Pipe) {
    forall i :: 0 <= i < |p.plugins| && PolicyAt(p, i) == Enforce ==> p.plugins[i].name != ""
  }

  ghost predicate SlotsNamed(slots: seq<Slot>) {
    forall i :: 0 <= i < |slots| ==> slots[i].policy in {Observe, Off} || slots[i].plugin.name != ""
  }

  lemma NamedSlots(p: Pipe, kind: Kind)
    requires EnforcedNamed(p)
    ensures SlotsNamed(Slots(p, kind))
  {
    forall k | 0 <= k < |p.plugins|
      ensures Slots(p, kind)[k].policy in {Observe, Off} || Slots(p, kind)[k].plugin.name != ""
    {
      if !kind.OnRequest? {
        BackwardAt(p, |p.plugins|, k);
      }
    }
  }

  lemma {:induction false} WalkRejecterNamed(slots: seq<Slot>, kind: Kind, k: nat, live: nat -> bool, c: Ctx)
    requires SlotsNamed(slots)
    ensures "" !in Rejecters(Walk(slots, kind, k, live, c))
    decreases |slots|
  {
    if slots != [] {
      var s, hook := slots[0], Hook(slots[0].plugin, kind);
      if Skips(s, kind) {
        WalkRejecterNamed(slots[1..], kind, k, live, c);
      } else if live(k) {
        WalkRejecterNamed(slots[1..], kind, k + 1, live, if hook.None? then c else Visited(s, kind, hook.value, c).0);
      }
    }
  }

  lemma {:induction false} RejectersNamed(p: Pipe, ops: seq<Op>, c: Ctx)
    requires EnforcedNamed(p)
    ensures "" !in Serve(p, ops, c).rejecters
    decreases |ops|
  {
    if ops != [] {
      match ops[0]
      case Upstream(st, b) => RejectersNamed(p, ops[1..], Arrived(c, st, b));
      case RunPhase(kind, live) =>
        NamedSlots(p, kind);
        WalkRejecterNamed(Slots(p, kind), kind, 0, live, c);
        RejectersNamed(p, ops[1..], Phased(p, kind, live, c).ctx);
        ServePhase(p, ops, c);
    }
  }

  /** With every enforced plugin named: Deny exactly when some enforced plugin's Reject stopped a phase,
      and then the outcome names the first of them. */
  lemma NamedPipelinesDenyIffReject(p: Pipe, ops: seq<Op>, direction: Direction, body: Bytes)
    requires PipeDisciplined(p) && EnforcedNamed(p)
    ensures var r := Serve(p, ops, Fresh(direction, body));
            OutcomeOf(r.ctx) == if r.rejecters != [] then Outcome(OutcomeDeny, r.ctx.statusCode, r.rejecters[0])
                                else Outcome(if r.ctx.statusCode == 0 then OutcomeError else OutcomeAllow, r.ctx.statusCode, "")
  {
    DenyIffEnforcedReject(p, ops, direction, body);
    FirstNamedIsNamed(Serve(p, ops, Fresh(direction, body)).rejecters);
    RejectersNamed(p, ops, Fresh(direction, body));
    var r := Serve(p, ops, Fresh(direction, body));
    if r.rejecters != [] {
      assert r.rejecters[0] in r.rejecters;
    }
  }

  /** The same names under the same policies; the hooks may differ. */
  ghost predicate SameRoles(p: Pipe, q: Pipe) {
    |p.plugins| == |q.plugins| && forall i :: 0 <= i < |p.plugins| ==>
      p.plugins[i].name == q.plugins[i].name && PolicyAt(p, i) == PolicyAt(q, i)
  }

  ghost predicate Agrees(q: Pipe, ops: seq<Op>, direction: Direction, body: Bytes) {
    var r := Serve(q, ops, Fresh(direction, body));
    OutcomeOf(r.ctx).finalAction == OutcomeDeny <==> r.rejecters != []
  }

  /** Whatever disciplined plugins with these names and policies do, over any phases of any request, the
      outcome is Deny exactly when an enforced plugin's Reject stopped a phase. */
  ghost predicate DenyMeansReject(p: Pipe) {
    forall q, ops, direction, body :: SameRoles(q, p) && PipeDisciplined(q) ==> Agrees(q, ops, direction, body)
  }

  lemma NamedPipelineAgrees(p: Pipe, q: Pipe, ops: seq<Op>, direction: Direction, body: Bytes)
    requires EnforcedNamed(p) && SameRoles(q, p) && PipeDisciplined(q)
    ensures Agrees(q, ops, direction, body)
  {
    NamedPipelinesDenyIffReject(q, ops, direction, body);
  }

  /** That can be relied on if and only if every enforced plugin has a name. */
  lemma DenyMeansRejectIff(p: Pipe)
    ensures DenyMeansReject(p) <==> EnforcedNamed(p)
  {
    if EnforcedNamed(p) {
      forall q, ops, direction, body | SameRoles(q, p) && PipeDisciplined(q)
        ensures Agrees(q, ops, direction, body)
      {
        NamedPipelineAgrees(p, q, ops, direction, body);
      }
    } else {
      var i :| 0 <= i < |p.plugins| && PolicyAt(p, i) == Enforce && p.plugins[i].name == "";
      HushedPipe(p, i);
      HushedDisagrees(p, i);
    }
  }

  /** Says nothing; rejects or goes on. */
  function Hush(rejects: bool): Program<Action> {
    if rejects then SilentHook() else IdleHook()
  }

  /** Nobody says anything, and the plugin at `i` rejects. */
  function Hushed(p: Pipe, i: nat): (q: Pipe)
    ensures |q.plugins| == |p.plugins| && q.policies == p.policies
    ensures forall k :: 0 <= k < |p.plugins| ==>
              q.plugins[k] == p.plugins[k].(onRequest := Hush(k == i), onResponse := Hush(k == i), onFrame := None)
  {
    Pipe(seq(|p.plugins|, k requires 0 <= k < |p.plugins| =>
           p.plugins[k].(onRequest := Hush(k == i), onResponse := Hush(k == i), onFrame := None)), p.policies)
  }

  lemma HushIsDisciplined(pl: Plugin, rejects: bool)
    requires pl.onRequest == pl.onResponse == Hush(rejects) && pl.onFrame == None
    ensures Disciplined(pl)
  {
    forall s, kind, c
      ensures DisciplinedOn(pl, s, kind, c)
    {
      if s.plugin == pl && Hook(pl, kind).Some? {
        assert EmittedOn(s, kind, Hush(rejects), c) == [];
      }
    }
  }

  lemma HushedPipe(p: Pipe, i: nat)
    ensures SameRoles(Hushed(p, i), p) && PipeDisciplined(Hushed(p, i))
  {
    forall k | 0 <= k < |p.plugins|
      ensures Disciplined(Hushed(p, i).plugins[k])
    {
      HushIsDisciplined(Hushed(p, i).plugins[k], k == i);
    }
  }

  predicate Untouched(c: Ctx) {
    c.inbound == [] && c.outbound == [] && c.rejectingPlugin == "" && !c.ledger.inFinish
  }

  lemma HushVisited(s: Slot, rejects: bool, c: Ctx)
    requires Untouched(c) && (rejects ==> s.policy == Enforce && s.plugin.name == "")
    ensures var (d, stop) := Visited(s, OnRequest, Hush(rejects), c); Untouched(d) && (stop.Some? <==> rejects)
  {
  }

  lemma {:induction false} HushWalk(slots: seq<Slot>, at: nat, k: nat, live: nat -> bool, c: Ctx)
    requires at < |slots| && slots[at].policy == Enforce && slots[at].plugin.name == "" && Live(live) && Untouched(c)
    requires forall a :: 0 <= a <= at ==> slots[a].plugin.onRequest == Hush(a == at)
    ensures var w := Walk(slots, OnRequest, k, live, c); Rejecters(w) == [""] && Untouched(w.ctx)
    decreases at
  {
    var s := slots[0];
    assert live(k);
    if !Skips(s, OnRequest) {
      HushVisited(s, at == 0, c);
    }
    if at > 0 {
      var rest := slots[1..];
      assert forall a :: 0 <= a < |rest| ==> rest[a] == slots[a + 1];
      if Skips(s, OnRequest) {
        HushWalk(rest, at - 1, k, live, c);
      } else {
        HushWalk(rest, at - 1, k + 1, live, Visited(s, OnRequest, Hush(false), c).0);
      }
    }
  }

  lemma HushedDisagrees(p: Pipe, i: nat)
    requires i < |p.plugins| && PolicyAt(p, i) == Enforce && p.plugins[i].name == ""
    ensures var live := (_: nat) => true;
            !Agrees(Hushed(p, i), [RunPhase(OnRequest, live), Upstream(200, [])], Inbound, [])
  {
    var q, c, live := Hushed(p, i), Fresh(Inbound, []), (_: nat) => true;
    HushWalk(Slots(q, OnRequest), i, 0, live, c);
    var ops, w := [RunPhase(OnRequest, live), Upstream(200, [])], Phased(q, OnRequest, live, c);
    ServePhase(q, ops, c);
    assert ops[1..] == [Upstream(200, [])];
    ServeArrival(q, w.ctx);
  }

  lemma ServeArrival(p: Pipe, c: Ctx)
    requires Untouched(c)
    ensures var r := Serve(p, [Upstream(200, [])], c); r.rejecters == [] && OutcomeOf(r.ctx).finalAction == OutcomeAllow
  {
    assert [Upstream(200, [])][1..] == [];
    assert Serve(p, [], Arrived(c, 200, [])) == Served(Arrived(c, 200, []), [], [], []);
  }

  /** Rejects without a word. */
  function SilentHook(): Program<Action> {
    Program(_ => 0, _ => Nothing, _ => Deny("policy.forbidden", "no"))
  }

  function NamelessPipe(): Pipe {
    Pipe([Plugin("", false, false, [], [], SilentHook(), SilentHook(), None, None)], [Enforce])
  }

  /** A nameless plugin that rejects without recording is reported as having allowed the request. */
  lemma NamelessRejectIsReportedAsAllow(live: nat -> bool)
    requires live(0)
    ensures var r := Serve(NamelessPipe(), [RunPhase(OnRequest, live), Upstream(200, [])], Fresh(Inbound, []));
            r.rejecters == [""] && OutcomeOf(r.ctx) == Outcome(OutcomeAllow, 200, "")
  {
    var p, c := NamelessPipe(), Fresh(Inbound, []);
    var s := SlotOf(p, 0);
    assert Forward(p, 0) == [] && Forward(p, 1) == [s];
    var ops := [RunPhase(OnRequest, live), Upstream(200, [])];
    assert ops[1..] == [Upstream(200, [])] && ops[1..][1..] == [];
    var d := Visited(s, OnRequest, SilentHook(), c).0;
    assert Walk([s], OnRequest, 0, live, c).ctx == d;
    assert d.inbound == [] && d.outbound == [] && d.rejectingPlugin == "";
    assert Serve(p, [], Arrived(d, 200, [])).rejecters == [];
    assert Serve(p, ops[1..], d) == Serve(p, [], Arrived(d, 200, []));
  }

  const NoisyDeny := Invocation("", NoPhase, ActDeny, "no", false)
  const NoisyNote := Invocation("", NoPhase, ActObserve, "seen", false)

  function NoisyStep(t: seq<Message>): Command {
    DoRecord(if |t| == 1 then NoisyDeny else NoisyNote)
  }

  /** Records a deny, then something else, then rejects. */
  function NoisyHook(): Program<Action> {
    Program(_ => 2, NoisyStep, _ => Deny("policy.forbidden", "no"))
  }

  function NoisyPipe(): Pipe {
    Pipe([Plugin("gate", false, false, [], [], NoisyHook(), NoisyHook(), None, None)], [Observe])
  }

  lemma NoisyHookRuns(c: Ctx)
    requires !c.ledger.inFinish
    ensures Ran(NoisyHook(), c) == (Recorded(Recorded(c, NoisyDeny), NoisyNote), Deny("policy.forbidden", "no"))
  {
    var h, c' := NoisyHook(), Recorded(c, NoisyDeny);
    var t := [] + [c.message];
    var t' := t + [c'.message];
    assert h.act(t) == DoRecord(NoisyDeny) && h.act(t') == DoRecord(NoisyNote);
    assert Steps(h, 1, t, c').0 == Recorded(c', NoisyNote);
    assert Steps(h, 2, [], c).0 == Recorded(c', NoisyNote);
  }

  function NoisyRecords(): seq<Invocation> {
    [NoisyDeny.(plugin := "gate", phase := RequestPhase), NoisyNote.(plugin := "gate", phase := RequestPhase, shadow := true)]
  }

  lemma NoisyOutcome(d: Ctx)
    requires d.inbound == NoisyRecords() && d.outbound == [] && d.rejectingPlugin == ""
    ensures OutcomeOf(d) == Outcome(OutcomeDeny, d.statusCode, "gate")
  {
    var rs := NoisyRecords();
    assert rs[..1] == [rs[0]];
    assert LastDenier([rs[0]]) == Some("gate");
  }

  lemma NoisyVisit(s: Slot)
    requires s == SlotOf(NoisyPipe(), 0)
    ensures var (d, stop) := Visited(s, OnRequest, NoisyHook(), Fresh(Inbound, []));
            && stop == None && d.rejectingPlugin == "" && d.statusCode == 0 && d.outbound == []
            && d.inbound == NoisyRecords()
  {
    var c1 := Entered(s, OnRequest, Fresh(Inbound, []));
    NoisyHookRuns(c1);
    var rs := Recorded(Recorded(c1, NoisyDeny), NoisyNote).inbound;
    assert rs == [NoisyDeny.(plugin := "gate", phase := RequestPhase), NoisyNote.(plugin := "gate", phase := RequestPhase)];
    LastRecordUnique(rs, "gate", RequestPhase, 1);
  }

  /** Without that discipline the fallback on the records misfires: an observed plugin that records
      a deny and then something else before rejecting is reported as having denied the request. */
  lemma UndisciplinedShadowCountsAsDeny(live: nat -> bool)
    requires live(0)
    ensures var r := Serve(NoisyPipe(), [RunPhase(OnRequest, live)], Fresh(Inbound, []));
            r.rejecters == [] && OutcomeOf(r.ctx) == Outcome(OutcomeDeny, 0, "gate")
  {
    var p, c := NoisyPipe(), Fresh(Inbound, []);
    var s := SlotOf(p, 0);
    var d := Visited(s, OnRequest, NoisyHook(), c).0;
    NoisyVisit(s);
    assert Slots(p, OnRequest) == [s] && [s][1..] == [];
    assert Walk([], OnRequest, 1, live, d) == Walked(d, Continue, [], None);
    var w := Phased(p, OnRequest, live, c);
    assert w == Walked(d, Continue, [Call(s, c.message)] + [], None);
    assert Serve(p, [], d) == Served(d, [], [], []);
    NoisyOutcome(d);
  }
}
