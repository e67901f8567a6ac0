/**
 Building a pipeline from configuration entries: switched-off entries are dropped before anything
 is constructed, dependencies between plugins are checked against the chain, and the result runs
 as if the switched-off plugins had been kept and skipped at dispatch.
 */
module Registry {
  import opened Common
  import opened PipelineContext
  import opened Pipelines
  import opened PipelineLaws
  import opened PipelineBody

  /** `config` is the entry's raw configuration; empty when omitted. */
  datatype PluginEntry = PluginEntry(name: string, config: string, onError: Policy)

  /** A plugin without configuration, or one built by Configure, which may refuse it. */
  datatype Factory = Plain(plugin: Plugin) | Configurable(configure: string -> Option<Plugin>)

  datatype BuildError =
    | UnknownPlugin(name: string)
    | ConfigureFailed(name: string)
    | ConfigNotAccepted(name: string)
    | RelationshipError
    | CapabilityError

  datatype Result<+T> = Ok(value: T) | Err(error: BuildError)

  function NoOpFinish(): Outcome -> Program<bool> {
    _ => Program(_ => 0, _ => Nothing, _ => false)
  }

  /** The wrapper around a configured plugin: always a finisher, never a streaming responder. */
  function Wrapped(pl: Plugin): Plugin {
    pl.(onFrame := None, onFinish := if pl.onFinish.Some? then pl.onFinish else Some(NoOpFinish()))
  }

  /** Contrary to its promise of no observable change, the wrapper moves a streaming plugin from
      frames to OnResponse. */
  lemma WrappingRedirectsFrames(pl: Plugin, frame: Bytes, last: bool)
    requires pl.onFrame.Some?
    ensures Hook(pl, OnResponse) == None && Hook(pl, OnFrame(frame, last)).Some?
    ensures Hook(Wrapped(pl), OnResponse) == Some(pl.onResponse) && Hook(Wrapped(pl), OnFrame(frame, last)) == None
  {
  }

  /** The promise holds, for every phase, if and only if the plugin is not a streaming responder. */
  lemma WrappingIsUnobservableIff(pl: Plugin)
    ensures (forall kind :: Hook(Wrapped(pl), kind) == Hook(pl, kind)) <==> pl.onFrame.None?
  {
    if pl.onFrame.Some? {
      WrappingRedirectsFrames(pl, [], true);
    }
  }

  function Instantiated(reg: map<string, Factory>, e: PluginEntry): Result<Plugin> {
    if e.name !in reg then Err(UnknownPlugin(e.name))
    else
      match reg[e.name]
      case Configurable(f) => if f(e.config).Some? then Ok(Wrapped(f(e.config).value)) else Err(ConfigureFailed(e.name))
      case Plain(pl) => if |e.config| > 0 then Err(ConfigNotAccepted(e.name)) else Ok(pl)
  }

  /** The chain of `entries`, with or without the switched-off ones. */
  function Collected(reg: map<string, Factory>, entries: seq<PluginEntry>, keepOff: bool): Result<Pipe> {
    if entries == [] then Ok(Pipe([], []))
    else
      var e, rest := entries[|entries| - 1], Collected(reg, entries[..|entries| - 1], keepOff);
      if rest.Err? || (Resolved(e.onError) == Off && !keepOff) then rest
      else
        var pl := Instantiated(reg, e);
        if pl.Err? then Err(pl.error)
        else Ok(Pipe(rest.value.plugins + [pl.value], rest.value.policies + [Resolved(e.onError)]))
  }

  // ----- Relationships -----

  /** `name` occurs before position `i`. */
  ghost predicate Earlier(ps: seq<Plugin>, i: nat, name: string) {
    exists j :: 0 <= j < i && j < |ps| && ps[j].name == name
  }

  ghost predicate Satisfied(ps: seq<Plugin>, i: nat)
    requires i < |ps|
  {
    && (forall r :: r in ps[i].needs ==> Earlier(ps, i, r))
    && (ps[i].needsAny != [] ==>
          && (exists r :: r in ps[i].needsAny && Earlier(ps, i, r))
          && (forall r :: r in ps[i].needsAny && Earlier(ps, |ps|, r) ==> Earlier(ps, i, r)))
  }

  /** Every plugin has all it requires earlier in the chain, and of each non-empty any-of list one
      member earlier and no member that occurs only later. */
  ghost predicate Related(ps: seq<Plugin>) {
    forall i :: 0 <= i < |ps| ==> Satisfied(ps, i)
  }

  /** First occurrence of each name. */
  ghost predicate IsPositions(ps: seq<Plugin>, n: nat, m: map<string, nat>) {
    && (forall x :: x in m <==> Earlier(ps, n, x))
    && (forall x :: x in m ==> m[x] < n && m[x] < |ps| && ps[m[x]].name == x && !Earlier(ps, m[x], x))
  }

  method Positions(ps: seq<Plugin>) returns (m: map<string, nat>)
    ensures IsPositions(ps, |ps|, m)
  {
    m := map[];
    for i := 0 to |ps|
      invariant IsPositions(ps, i, m)
    {
      if ps[i].name !in m {
        m := m[ps[i].name := i];
      }
    }
  }

  /** The position map answers "is it earlier". */
  lemma PositionIsEarlier(ps: seq<Plugin>, m: map<string, nat>, i: nat, x: string)
    requires IsPositions(ps, |ps|, m) && i < |ps|
    ensures x in m && m[x] < i <==> Earlier(ps, i, x)
  {
    if Earlier(ps, i, x) {
      var j :| 0 <= j < i && ps[j].name == x;
      assert forall n: nat :: i <= n ==> Earlier(ps, n, x);
    }
  }

  /** Errors of one plugin, as the names it complains about. */
  method CheckPlugin(ps: seq<Plugin>, i: nat, positions: map<string, nat>) returns (errs: seq<string>)
    requires i < |ps| && IsPositions(ps, |ps|, positions)
    ensures errs == [] <==> Satisfied(ps, i)
  {
    errs := [];
    var pl := ps[i];
    for n := 0 to |pl.needs|
      invariant errs == [] <==> forall k :: 0 <= k < n ==> Earlier(ps, i, pl.needs[k])
    {
      var req := pl.needs[n];
      PositionIsEarlier(ps, positions, i, req);
      if req !in positions || positions[req] >= i {
        errs := errs + [req];
      }
    }
    ghost var needsOk := errs == [];
    assert needsOk <==> forall r :: r in pl.needs ==> Earlier(ps, i, r);
    if |pl.needsAny| > 0 {
      var anyPresentAndEarlier := false;
      for n := 0 to |pl.needsAny|
        invariant anyPresentAndEarlier <==> exists k :: 0 <= k < n && Earlier(ps, i, pl.needsAny[k])
        invariant errs == [] <==> needsOk && forall k :: 0 <= k < n && Earlier(ps, |ps|, pl.needsAny[k]) ==> Earlier(ps, i, pl.needsAny[k])
      {
        var req := pl.needsAny[n];
        PositionIsEarlier(ps, positions, i, req);
        if req !in positions {
          assert !Earlier(ps, i, req);
          continue;
        }
        if positions[req] >= i {
          errs := errs + [req];
          continue;
        }
        anyPresentAndEarlier := true;
      }
      if !anyPresentAndEarlier {
        errs := errs + [pl.name];
      }
    }
  }

  method ValidateRelationships(ps: seq<Plugin>) returns (ok: bool)
    ensures ok <==> Related(ps)
  {
    var positions := Positions(ps);
    var errs: seq<string> := [];
    for i := 0 to |ps|
      invariant errs == [] <==> forall k :: 0 <= k < i ==> Satisfied(ps, k)
    {
      var more := CheckPlugin(ps, i, positions);
      errs := errs + more;
    }
    ok := errs == [];
  }

  // ----- Build -----

  ghost function Built(reg: map<string, Factory>, entries: seq<PluginEntry>): Result<Pipe> {
    var c := Collected(reg, entries, false);
    if c.Err? then c
    else if !Related(c.value.plugins) then Err(RelationshipError)
    else if !NamedOrdered(c.value.plugins) then Err(CapabilityError)
    else c
  }

  method Build(reg: map<string, Factory>, entries: seq<PluginEntry>) returns (r: Result<Pipe>)
    ensures r == Built(reg, entries)
  {
    var ps: seq<Plugin>, policies: seq<Policy> := [], [];
    for n := 0 to |entries|
      invariant Collected(reg, entries[..n], false) == Ok(Pipe(ps, policies))
    {
      var e := entries[n];
      assert entries[..n + 1][..n] == entries[..n];
      if Resolved(e.onError) == Off {
        continue;
      }
      var pl := Instantiated(reg, e);
      if pl.Err? {
        FailsForGood(reg, entries, n + 1);
        return Err(pl.error);
      }
      ps, policies := ps + [pl.value], policies + [Resolved(e.onError)];
    }
    assert entries[..|entries|] == entries;
    var related := ValidateRelationships(ps);
    if !related {
      return Err(RelationshipError);
    }
    var ordered := ValidateCapabilities(ps);
    if !ordered {
      return Err(CapabilityError);
    }
    r := Ok(Pipe(ps, policies));
  }

  /** Whatever is built: unless a pair is hidden from the capability check, request readers see the
      original bytes and response readers the final ones. */
  lemma BuiltPipelinesShowBodies(reg: map<string, Factory>, entries: seq<PluginEntry>, live: nat -> bool, c: Ctx)
    requires Built(reg, entries).Ok? && NothingHidden(Built(reg, entries).value.plugins)
    requires forall pl :: pl in Built(reg, entries).value.plugins ==> KeepsWord(pl)
    ensures var p := Built(reg, entries).value;
            var w := Phased(p, OnResponse, live, c);
            SawOriginal(Phased(p, OnRequest, live, c).calls, c.message.body) && SawFinal(w.calls, w.ctx.message.responseBody)
  {
    RequestReadersSeeOriginal(Built(reg, entries).value, live, c);
    ResponseReadersSeeFinal(Built(reg, entries).value, live, c);
  }

  /** Whatever is built: everything a plugin requires comes before it, and of what it requires any of, one does and none
      comes only after it. */
  lemma BuiltRequirementsAreMet(reg: map<string, Factory>, entries: seq<PluginEntry>, i: nat, r: string)
    requires Built(reg, entries).Ok? && i < |Built(reg, entries).value.plugins|
    ensures var ps := Built(reg, entries).value.plugins;
            && (r in ps[i].needs ==> exists j :: 0 <= j < i && ps[j].name == r)
            && (ps[i].needsAny != [] ==> exists j :: 0 <= j < i && ps[j].name in ps[i].needsAny)
            && (r in ps[i].needsAny && (exists j :: 0 <= j < |ps| && ps[j].name == r) ==> exists j :: 0 <= j < i && ps[j].name == r)
  {
    var ps := Built(reg, entries).value.plugins;
    assert Satisfied(ps, i);
    if ps[i].needsAny != [] {
      var any :| any in ps[i].needsAny && Earlier(ps, i, any);
    }
    assert Earlier(ps, |ps|, r) <==> exists j :: 0 <= j < |ps| && ps[j].name == r;
  }

  lemma {:induction false} FailsForGood(reg: map<string, Factory>, entries: seq<PluginEntry>, n: nat)
    requires n <= |entries| && Collected(reg, entries[..n], false).Err?
    ensures Collected(reg, entries, false) == Collected(reg, entries[..n], false)
    decreases |entries| - n
  {
    if n == |entries| {
      assert entries[..n] == entries;
    } else {
      assert entries[..n + 1][..n] == entries[..n];
      FailsForGood(reg, entries, n + 1);
    }
  }

  // ----- What is built -----

  /** The entries that are on, in order. */
  function NotOff(entries: seq<PluginEntry>): seq<PluginEntry> {
    if entries == [] then []
    else
      var before, e := NotOff(entries[..|entries| - 1]), entries[|entries| - 1];
      if e.onError == Off then before else before + [e]
  }

  /** What is wrong with an entry, if anything. */
  function WrongWith(reg: map<string, Factory>, e: PluginEntry): Option<BuildError> {
    if e.name !in reg then Some(UnknownPlugin(e.name))
    else if reg[e.name].Plain? then if e.config != "" then Some(ConfigNotAccepted(e.name)) else None
    else if reg[e.name].configure(e.config).None? then Some(ConfigureFailed(e.name)) else None
  }

  /** The plugin an entry stands for: the registered one, or the configured one with the same name, declarations and hooks
      but for frames, which the wrapper hides. */
  ghost predicate StandsFor(reg: map<string, Factory>, e: PluginEntry, pl: Plugin, policy: Policy) {
    && e.name in reg && policy == (if e.onError == Unset then Enforce else e.onError)
    && if reg[e.name].Plain? then pl == reg[e.name].plugin
       else
         var made := reg[e.name].configure(e.config);
         && made.Some? && pl.name == made.value.name && pl.readsBody == made.value.readsBody && pl.writesBody == made.value.writesBody
         && pl.needs == made.value.needs && pl.needsAny == made.value.needsAny
         && pl.onRequest == made.value.onRequest && pl.onResponse == made.value.onResponse && pl.onFrame == None
         && pl.onFinish.Some? && (made.value.onFinish.Some? ==> pl.onFinish == made.value.onFinish)
  }

  /** The chain stands for the entries, one plugin for each in order. */
  ghost predicate ChainFor(reg: map<string, Factory>, on: seq<PluginEntry>, p: Pipe) {
    |p.plugins| == |p.policies| == |on| && forall i :: 0 <= i < |on| ==> StandsFor(reg, on[i], p.plugins[i], p.policies[i])
  }

  ghost predicate AllFine(reg: map<string, Factory>, on: seq<PluginEntry>) {
    forall i :: 0 <= i < |on| ==> WrongWith(reg, on[i]) == None
  }

  /** The error is that of the first entry something is wrong with. */
  ghost predicate FirstWrong(reg: map<string, Factory>, on: seq<PluginEntry>, error: BuildError) {
    exists i :: 0 <= i < |on| && WrongWith(reg, on[i]) == Some(error) && forall j :: 0 <= j < i ==> WrongWith(reg, on[j]) == None
  }

  lemma {:induction false} CollectsEntries(reg: map<string, Factory>, entries: seq<PluginEntry>)
    ensures var on, r := NotOff(entries), Collected(reg, entries, false);
            if r.Ok? then AllFine(reg, on) && ChainFor(reg, on, r.value) else FirstWrong(reg, on, r.error)
    decreases |entries|
  {
    if entries != [] {
      var init, e := entries[..|entries| - 1], entries[|entries| - 1];
      CollectsEntries(reg, init);
      if e.onError != Off {
        CollectsOneMore(reg, NotOff(init), Collected(reg, init, false), e);
      }
    }
  }

  lemma CollectsOneMore(reg: map<string, Factory>, on: seq<PluginEntry>, r: Result<Pipe>, e: PluginEntry)
    requires e.onError != Off
    requires if r.Ok? then AllFine(reg, on) && ChainFor(reg, on, r.value) else FirstWrong(reg, on, r.error)
    ensures var r' := Collecting(reg, r, e, false);
            if r'.Ok? then AllFine(reg, on + [e]) && ChainFor(reg, on + [e], r'.value) else FirstWrong(reg, on + [e], r'.error)
  {
    var all := on + [e];
    InstantiatesEntry(reg, e);
    if r.Err? {
      var i :| 0 <= i < |on| && WrongWith(reg, on[i]) == Some(r.error) && forall j :: 0 <= j < i ==> WrongWith(reg, on[j]) == None;
      assert WrongWith(reg, all[i]) == Some(r.error);
    } else if Instantiated(reg, e).Err? {
      assert WrongWith(reg, all[|on|]) == Some(Instantiated(reg, e).error);
    } else {
      ChainGrows(reg, on, r.value, e, Instantiated(reg, e).value);
    }
  }

  lemma InstantiatesEntry(reg: map<string, Factory>, e: PluginEntry)
    ensures var r := Instantiated(reg, e);
            if r.Ok? then WrongWith(reg, e) == None && StandsFor(reg, e, r.value, Resolved(e.onError))
            else WrongWith(reg, e) == Some(r.error)
  {
  }

  lemma ChainGrows(reg: map<string, Factory>, on: seq<PluginEntry>, p: Pipe, e: PluginEntry, pl: Plugin)
    requires AllFine(reg, on) && ChainFor(reg, on, p)
    requires WrongWith(reg, e) == None && StandsFor(reg, e, pl, Resolved(e.onError))
    ensures AllFine(reg, on + [e]) && ChainFor(reg, on + [e], Pipe(p.plugins + [pl], p.policies + [Resolved(e.onError)]))
  {
  }

  /** Build succeeds exactly if nothing is wrong with an entry that is on, and the resulting chain meets its relationships
      and passes the capability check; it then has one plugin for each such entry, in order, under its policy. If an entry is
      wrong the error is that of the first one; otherwise relationships are reported before capabilities. */
  lemma BuildYields(reg: map<string, Factory>, entries: seq<PluginEntry>)
    ensures var on, r := NotOff(entries), Built(reg, entries);
            && (!AllFine(reg, on) ==> r.Err? && FirstWrong(reg, on, r.error))
            && (AllFine(reg, on) ==> exists p ::
                  && ChainFor(reg, on, p)
                  && r == if !Related(p.plugins) then Err(RelationshipError)
                          else if !NamedOrdered(p.plugins) then Err(CapabilityError) else Ok(p))
  {
    CollectsEntries(reg, entries);
  }

  // ----- Switched-off entries -----

  /** Collecting one entry more depends on the entries before only through what they collect to. */
  function Collecting(reg: map<string, Factory>, before: Result<Pipe>, e: PluginEntry, keepOff: bool): Result<Pipe> {
    if before.Err? || (!keepOff && Resolved(e.onError) == Off) then before
    else
      var pl := Instantiated(reg, e);
      if pl.Err? then Err(pl.error)
      else Ok(Pipe(before.value.plugins + [pl.value], before.value.policies + [Resolved(e.onError)]))
  }

  lemma CollectedSnoc(reg: map<string, Factory>, p: seq<PluginEntry>, e: PluginEntry, keepOff: bool)
    ensures Collected(reg, p + [e], keepOff) == Collecting(reg, Collected(reg, p, keepOff), e, keepOff)
  {
    assert (p + [e])[..|p|] == p;
  }

  lemma {:induction false} CollectedIgnoresOff(reg: map<string, Factory>, entries: seq<PluginEntry>)
    ensures Collected(reg, NotOff(entries), false) == Collected(reg, entries, false)
  {
    if entries != [] {
      var p, e := entries[..|entries| - 1], entries[|entries| - 1];
      CollectedIgnoresOff(reg, p);
      if Resolved(e.onError) != Off {
        CollectedSnoc(reg, p, e, false);
        CollectedSnoc(reg, NotOff(p), e, false);
        assert entries == p + [e];
      }
    }
  }

  /** A switched-off entry is as good as deleted: nothing about it, not even an unknown name or a
      broken configuration, can affect the build. */
  lemma BuildIgnoresOff(reg: map<string, Factory>, entries: seq<PluginEntry>)
    ensures Built(reg, NotOff(entries)) == Built(reg, entries)
  {
    CollectedIgnoresOff(reg, entries);
  }

  function OnSlots(slots: seq<Slot>): seq<Slot> {
    if slots == [] then [] else (if slots[0].policy == Off then [] else [slots[0]]) + OnSlots(slots[1..])
  }

  /** Skipping at dispatch is the same as not being there. */
  lemma {:induction false} WalkSkipsOff(slots: seq<Slot>, kind: Kind, k: nat, live: nat -> bool, c: Ctx)
    ensures Walk(OnSlots(slots), kind, k, live, c) == Walk(slots, kind, k, live, c)
    decreases |slots|
  {
    if slots != [] {
      var s, rest := slots[0], slots[1..];
      if s.policy == Off {
        assert OnSlots(slots) == OnSlots(rest);
        WalkSkipsOff(rest, kind, k, live, c);
      } else {
        assert OnSlots(slots)[0] == s && OnSlots(slots)[1..] == OnSlots(rest);
        if Skips(s, kind) {
          WalkSkipsOff(rest, kind, k, live, c);
        } else if live(k) {
          var hook := Hook(s.plugin, kind);
          WalkSkipsOff(rest, kind, k + 1, live, if hook.None? then c else Visited(s, kind, hook.value, c).0);
        }
      }
    }
  }

  /** A context without its dispatch list, the only place plugin indices show up. */
  function Unlisted(c: Ctx): Ctx {
    c.(ledger := c.ledger.(dispatched := []))
  }

  lemma {:induction false} StepsUnlisted(prog: Program<Action>, n: nat, seen: seq<Message>, c: Ctx, d: Ctx)
    requires Unlisted(c) == Unlisted(d)
    ensures Unlisted(Steps(prog, n, seen, c).0) == Unlisted(Steps(prog, n, seen, d).0)
    ensures Steps(prog, n, seen, c).1 == Steps(prog, n, seen, d).1
    decreases n
  {
    assert Unlisted(c).message == c.message && Unlisted(d).message == d.message;
    if n > 0 {
      var t := seen + [c.message];
      PerformedUnlisted(c, d, prog.act(t));
      StepsUnlisted(prog, n - 1, t, Performed(c, prog.act(t)), Performed(d, prog.act(t)));
    }
  }

  lemma RecordedUnlisted(c: Ctx, d: Ctx, inv: Invocation)
    requires Unlisted(c) == Unlisted(d)
    ensures Unlisted(Recorded(c, inv)) == Unlisted(Recorded(d, inv))
  {
    assert Unlisted(c).ledger.inFinish == c.ledger.inFinish && Unlisted(d).ledger.inFinish == d.ledger.inFinish;
  }

  lemma PerformedUnlisted(c: Ctx, d: Ctx, cmd: Command)
    requires Unlisted(c) == Unlisted(d)
    ensures Unlisted(Performed(c, cmd)) == Unlisted(Performed(d, cmd))
  {
    assert Unlisted(c).ledger.inFinish == c.ledger.inFinish && Unlisted(d).ledger.inFinish == d.ledger.inFinish;
    match cmd
    case Nothing =>
    case DoRecord(inv) => RecordedUnlisted(c, d, inv);
    case DoSetBody(b) =>
      RecordedUnlisted(c, d, BodyRewritten(true));
      RecordedUnlisted(c.(message := c.message.(body := b), bodyMutated := true),
                       d.(message := d.message.(body := b), bodyMutated := true), BodyRewritten(false));
    case DoSetResponseBody(b) =>
      RecordedUnlisted(c, d, BodyRewritten(true));
      RecordedUnlisted(c.(message := c.message.(responseBody := b), responseBodyMutated := true),
                       d.(message := d.message.(responseBody := b), responseBodyMutated := true), BodyRewritten(false));
  }

  lemma ShadowedUnlisted(c: Ctx, d: Ctx, name: string, phase: Phase, a: Action)
    requires a.Reject? && Unlisted(c) == Unlisted(d)
    ensures Unlisted(Shadowed(c, name, phase, a)) == Unlisted(Shadowed(d, name, phase, a))
  {
    assert Records(Unlisted(c)) == Records(c) && Records(Unlisted(d)) == Records(d);
    if LastRecordOf(Records(c), name, phase) < 0 {
      var reason := if a.violation.Some? && a.violation.value.code != "" then a.violation.value.code else "plugin.unspecified";
      RecordedUnlisted(c, d, Invocation(name, phase, ActDeny, reason, true));
    }
  }

  lemma EnteredUnlisted(s: Slot, kind: Kind, c: Ctx)
    ensures Unlisted(Entered(s, kind, c)) == Stamping(Unlisted(c), s.plugin.name, PhaseOf(kind), s.policy)
    ensures Entered(s, kind, c).message == Unlisted(c).message
  {
  }

  lemma ClearedUnlisted(c: Ctx)
    ensures Unlisted(Cleared(c)) == Cleared(Unlisted(c))
  {
  }

  lemma RejectedUnlisted(c: Ctx, name: string)
    ensures Unlisted(Rejected(c, name)) == Rejected(Unlisted(c), name)
  {
  }

  lemma InvokedUnlisted(s: Slot, t: Slot, kind: Kind, hook: Program<Action>, c: Ctx, d: Ctx)
    requires s.plugin == t.plugin && s.policy == t.policy && Unlisted(c) == Unlisted(d)
    ensures Unlisted(Invoked(s, kind, hook, c).0) == Unlisted(Invoked(t, kind, hook, d).0)
    ensures Invoked(s, kind, hook, c).1 == Invoked(t, kind, hook, d).1
  {
    EnteredUnlisted(s, kind, c);
    EnteredUnlisted(t, kind, d);
    var c1, d1 := Entered(s, kind, c), Entered(t, kind, d);
    StepsUnlisted(hook, hook.len(c1.message), [], c1, d1);
    ClearedUnlisted(Ran(hook, c1).0);
    ClearedUnlisted(Ran(hook, d1).0);
  }

  lemma VisitedUnlisted(s: Slot, t: Slot, kind: Kind, hook: Program<Action>, c: Ctx, d: Ctx)
    requires s.plugin == t.plugin && s.policy == t.policy && Unlisted(c) == Unlisted(d)
    ensures Unlisted(Visited(s, kind, hook, c).0) == Unlisted(Visited(t, kind, hook, d).0)
    ensures Visited(s, kind, hook, c).1 == Visited(t, kind, hook, d).1
  {
    InvokedUnlisted(s, t, kind, hook, c, d);
    var (c', a) := Invoked(s, kind, hook, c);
    var d' := Invoked(t, kind, hook, d).0;
    if a.Reject? && s.policy == Observe {
      ShadowedUnlisted(c', d', s.plugin.name, PhaseOf(kind), Named(a, s.plugin.name));
    } else if a.Reject? {
      RejectedUnlisted(c', s.plugin.name);
      RejectedUnlisted(d', s.plugin.name);
    }
  }

  ghost predicate SameButIndex(s: seq<Slot>, t: seq<Slot>) {
    |s| == |t| && forall i :: 0 <= i < |s| ==> s[i].plugin == t[i].plugin && s[i].policy == t[i].policy
  }

  lemma {:induction false} WalkUnlisted(s: seq<Slot>, t: seq<Slot>, kind: Kind, k: nat, live: nat -> bool, c: Ctx, d: Ctx)
    requires SameButIndex(s, t) && Unlisted(c) == Unlisted(d)
    ensures var v, w := Walk(s, kind, k, live, c), Walk(t, kind, k, live, d);
            Unlisted(v.ctx) == Unlisted(w.ctx) && v.action == w.action && v.rejecter == w.rejecter
    decreases |s|
  {
    if s != [] {
      var hook := Hook(s[0].plugin, kind);
      if Skips(s[0], kind) {
        WalkUnlisted(s[1..], t[1..], kind, k, live, c, d);
      } else if live(k) {
        if hook.None? {
          WalkUnlisted(s[1..], t[1..], kind, k + 1, live, c, d);
        } else {
          VisitedUnlisted(s[0], t[0], kind, hook.value, c, d);
          var (c', stop) := Visited(s[0], kind, hook.value, c);
          if stop.None? {
            WalkUnlisted(s[1..], t[1..], kind, k + 1, live, c', Visited(t[0], kind, hook.value, d).0);
          }
        }
      }
    }
  }

  function PluginsOf(slots: seq<Slot>): (r: seq<Plugin>)
    ensures |r| == |slots| && forall i :: 0 <= i < |r| ==> r[i] == slots[i].plugin
  {
    if slots == [] then [] else [slots[0].plugin] + PluginsOf(slots[1..])
  }

  function PoliciesOf(slots: seq<Slot>): (r: seq<Policy>)
    ensures |r| == |slots| && forall i :: 0 <= i < |r| ==> r[i] == slots[i].policy
  {
    if slots == [] then [] else [slots[0].policy] + PoliciesOf(slots[1..])
  }

  /** The pipeline with its switched-off plugins removed. */
  function WithoutOff(p: Pipe): Pipe {
    var on := OnSlots(Forward(p, |p.plugins|));
    Pipe(PluginsOf(on), PoliciesOf(on))
  }

  lemma {:induction false} OnSlotsAppend(slots: seq<Slot>, s: Slot)
    ensures OnSlots(slots + [s]) == if s.policy == Off then OnSlots(slots) else OnSlots(slots) + [s]
    decreases |slots|
  {
    if slots == [] {
      assert [s] + [] == slots + [s];
      OnSlotsCons(s, []);
    } else {
      var first, rest := slots[0], slots[1..];
      assert slots == [first] + rest && slots + [s] == [first] + (rest + [s]);
      OnSlotsAppend(rest, s);
      OnSlotsCons(first, rest);
      OnSlotsCons(first, rest + [s]);
    }
  }

  lemma OnSlotsCons(s: Slot, slots: seq<Slot>)
    ensures OnSlots([s] + slots) == if s.policy == Off then OnSlots(slots) else [s] + OnSlots(slots)
  {
    assert ([s] + slots)[1..] == slots;
  }

  /** Reading `t` backwards gives `s`. */
  ghost predicate Mirrored(s: seq<Slot>, t: seq<Slot>) {
    |s| == |t| && forall k :: 0 <= k < |s| ==> s[k] == t[|t| - 1 - k]
  }

  lemma MirroredGrows(s: seq<Slot>, t: seq<Slot>, x: Slot)
    requires Mirrored(s, t)
    ensures Mirrored([x] + s, t + [x])
  {
  }

  lemma OnSlotsMirror(s: seq<Slot>, t: seq<Slot>, x: Slot)
    requires Mirrored(OnSlots(s), OnSlots(t))
    ensures Mirrored(OnSlots([x] + s), OnSlots(t + [x]))
  {
    OnSlotsCons(x, s);
    OnSlotsAppend(t, x);
    if x.policy != Off {
      MirroredGrows(OnSlots(s), OnSlots(t), x);
    }
  }

  lemma {:induction false} OnSlotsBackward(p: Pipe, n: nat)
    requires n <= |p.plugins|
    ensures Mirrored(OnSlots(Backward(p, n)), OnSlots(Forward(p, n)))
  {
    if n > 0 {
      OnSlotsBackward(p, n - 1);
      OnSlotsMirror(Backward(p, n - 1), Forward(p, n - 1), SlotOf(p, n - 1));
    }
  }

  lemma {:induction false} OnSlotsPolicies(slots: seq<Slot>)
    requires forall i :: 0 <= i < |slots| ==> slots[i].policy != Unset
    ensures forall i :: 0 <= i < |OnSlots(slots)| ==> OnSlots(slots)[i].policy != Unset
  {
    if slots != [] {
      OnSlotsPolicies(slots[1..]);
    }
  }

  lemma OnSlotsForward(p: Pipe)
    ensures SameButIndex(OnSlots(Forward(p, |p.plugins|)), Forward(WithoutOff(p), |WithoutOff(p).plugins|))
  {
    var q, on := WithoutOff(p), OnSlots(Forward(p, |p.plugins|));
    OnSlotsPolicies(Forward(p, |p.plugins|));
    forall i | 0 <= i < |on|
      ensures SlotOf(q, i).plugin == on[i].plugin && SlotOf(q, i).policy == on[i].policy
    {
    }
  }

  lemma {:induction false} BackwardMirrors(p: Pipe, n: nat)
    requires n <= |p.plugins|
    ensures Mirrored(Backward(p, n), Forward(p, n))
  {
    forall k | 0 <= k < n
      ensures Backward(p, n)[k] == Forward(p, n)[n - 1 - k]
    {
      BackwardAt(p, n, k);
    }
  }

  lemma MirrorsAgree(s: seq<Slot>, s': seq<Slot>, t: seq<Slot>, t': seq<Slot>)
    requires SameButIndex(s, t) && Mirrored(s', s) && Mirrored(t', t)
    ensures SameButIndex(s', t')
  {
  }

  lemma OnSlotsAreSlots(p: Pipe, kind: Kind)
    ensures SameButIndex(OnSlots(Slots(p, kind)), Slots(WithoutOff(p), kind))
  {
    var n, q := |p.plugins|, WithoutOff(p);
    OnSlotsForward(p);
    OnSlotsBackward(p, n);
    BackwardMirrors(q, |q.plugins|);
    MirrorsAgree(OnSlots(Forward(p, n)), OnSlots(Backward(p, n)), Forward(q, |q.plugins|), Backward(q, |q.plugins|));
  }

  /** Over a whole request, a pipeline and the same pipeline with its switched-off plugins removed
      give the same actions, the same rejecters and, but for the numbering, the same context. */
  lemma {:induction false} RemovingOffIsSkippingOff(p: Pipe, ops: seq<Op>, c: Ctx, d: Ctx)
    requires Unlisted(c) == Unlisted(d)
    ensures var r, s := Serve(p, ops, c), Serve(WithoutOff(p), ops, d);
            Unlisted(r.ctx) == Unlisted(s.ctx) && r.actions == s.actions && r.rejecters == s.rejecters
    decreases |ops|
  {
    if ops != [] {
      match ops[0]
      case Upstream(st, b) =>
        assert Unlisted(Arrived(c, st, b)) == Arrived(Unlisted(c), st, b) && Unlisted(Arrived(d, st, b)) == Arrived(Unlisted(d), st, b);
        RemovingOffIsSkippingOff(p, ops[1..], Arrived(c, st, b), Arrived(d, st, b));
      case RunPhase(kind, live) =>
        WalkSkipsOff(Slots(p, kind), kind, 0, live, c);
        OnSlotsAreSlots(p, kind);
        WalkUnlisted(OnSlots(Slots(p, kind)), Slots(WithoutOff(p), kind), kind, 0, live, c, d);
        RemovingOffIsSkippingOff(p, ops[1..], Phased(p, kind, live, c).ctx, Phased(WithoutOff(p), kind, live, d).ctx);
    }
  }

  lemma {:induction false} CollectedPolicies(reg: map<string, Factory>, entries: seq<PluginEntry>, keepOff: bool)
    requires Collected(reg, entries, keepOff).Ok?
    ensures var p := Collected(reg, entries, keepOff).value;
            |p.plugins| == |p.policies| && forall i :: 0 <= i < |p.policies| ==> p.policies[i] != Unset
  {
    if entries != [] {
      CollectedPolicies(reg, entries[..|entries| - 1], keepOff);
    }
  }

  lemma {:induction false} ForwardExtend(p: Pipe, q: Pipe, n: nat)
    requires n <= |p.plugins| == |p.policies| && p.plugins <= q.plugins && p.policies <= q.policies
    ensures Forward(q, n) == Forward(p, n)
  {
    if n > 0 {
      ForwardExtend(p, q, n - 1);
    }
  }

  lemma PluginsAndPoliciesAppend(slots: seq<Slot>, s: Slot)
    ensures PluginsOf(slots + [s]) == PluginsOf(slots) + [s.plugin]
    ensures PoliciesOf(slots + [s]) == PoliciesOf(slots) + [s.policy]
  {
  }

  lemma OnForwardExtend(p: Pipe, q: Pipe, pl: Plugin, policy: Policy)
    requires |p.plugins| == |p.policies| && policy != Unset && q == Pipe(p.plugins + [pl], p.policies + [policy])
    ensures var n := |p.plugins|;
            var on := OnSlots(Forward(p, n));
            OnSlots(Forward(q, n + 1)) == if policy == Off then on else on + [Slot(n, pl, policy)]
  {
    var n := |p.plugins|;
    ForwardExtend(p, q, n);
    OnSlotsAppend(Forward(p, n), SlotOf(q, n));
  }

  lemma WithoutOffExtend(p: Pipe, pl: Plugin, policy: Policy)
    requires |p.plugins| == |p.policies| && policy != Unset
    ensures var q, w := Pipe(p.plugins + [pl], p.policies + [policy]), WithoutOff(p);
            WithoutOff(q) == if policy == Off then w else Pipe(w.plugins + [pl], w.policies + [policy])
  {
    var n := |p.plugins|;
    OnForwardExtend(p, Pipe(p.plugins + [pl], p.policies + [policy]), pl, policy);
    PluginsAndPoliciesAppend(OnSlots(Forward(p, n)), Slot(n, pl, policy));
  }

  /** If the switched-off entries can be built at all, dropping them while building is the same as
      building everything and removing them afterwards. */
  lemma {:induction false} BuildDropsWhatDispatchSkips(reg: map<string, Factory>, entries: seq<PluginEntry>)
    requires Collected(reg, entries, true).Ok?
    ensures Collected(reg, entries, false) == Ok(WithoutOff(Collected(reg, entries, true).value))
  {
    if entries != [] {
      var e, before := entries[|entries| - 1], entries[..|entries| - 1];
      BuildDropsWhatDispatchSkips(reg, before);
      CollectedPolicies(reg, before, true);
      WithoutOffExtend(Collected(reg, before, true).value, Instantiated(reg, e).value, Resolved(e.onError));
    }
  }
}
