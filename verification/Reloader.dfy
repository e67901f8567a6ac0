/**
 The hot reloader: on a changed configuration file it builds and starts a fresh pair of pipelines,
 swaps them in, and stops the old pair later in the background. The machine takes one step per
 stage of a reload, with failure at each, and interleaves the background drains of earlier reloads
 at any point. File contents are represented by their hash.
 */
module Reloading {
  import opened Common
  import opened Lifecycle

  /** Mode and listener settings cannot change under running listeners; `rest` is everything else. */
  datatype Config = Config(mode: string, listener: int, rest: int)

  datatype Failure = ReadFailure | BuildFailure | Unreloadable | InboundStart | OutboundStart

  datatype Status = Status(
    lastAttempt: int,
    lastSuccess: int,
    lastError: Option<Failure>,
    reloadsOK: nat,
    reloadsFailed: nat,
    activeHash: string)

  /** A fresh pair as the builder returns it. */
  datatype Candidate = Candidate(inbound: Pipe, outbound: Pipe, config: Config)

  /** Where the reload goroutine is, with its local variables. */
  datatype Stage =
    | Idle
    | Hashed(at: int, hash: string)
    | Built(at: int, hash: string, next: Candidate)
    | Checked(at: int, hash: string, next: Candidate)
    | InStarted(at: int, hash: string, next: Candidate)
    | OutStarted(at: int, hash: string, next: Candidate)
    | InSwapped(at: int, hash: string, next: Candidate, oldIn: Pipe)
    | OutSwapped(at: int, hash: string, next: Candidate, oldIn: Pipe, oldOut: Pipe)
    | ConfigSwapped(at: int, hash: string, oldIn: Pipe, oldOut: Pipe)

  /** A background drain: both old pipelines still to stop, or only the outbound one. */
  datatype Drain = Both(inbound: Pipe, outbound: Pipe) | OutOnly(outbound: Pipe)

  /** How often each of the three published values has been replaced. */
  datatype Generations = Generations(inbound: nat, outbound: nat, config: nat)

  /** What listeners and operators can read. */
  datatype Published = Published(inbound: Pipe, outbound: Pipe, config: Option<Config>, status: Status)

  datatype State = State(
    stage: Stage,
    published: Published,
    lastHash: string,
    drains: seq<Drain>,
    trace: Trace,
    generations: Generations)

  datatype Step =
    | ReadFailed(at: int)
    | ReadSame(at: int)
    | ReadChanged(at: int, hash: string)
    | BuildFailed
    | BuildDone(next: Candidate)
    | CheckConfig
    | StartIn(initOk: Plugin -> bool)
    | StartOut(initOk: Plugin -> bool)
    | SwapIn
    | SwapOut
    | SwapConfig
    | Commit                    // the hash, the background drain, and the success record
    | DrainIn(job: nat)
    | DrainOut(job: nat)

  function Failed(s: State, at: int, why: Failure): State {
    var st := s.published.status;
    s.(stage := Idle,
       published := s.published.(status := st.(lastAttempt := at, lastError := Some(why), reloadsFailed := st.reloadsFailed + 1)))
  }

  function Succeeded(st: Status, at: int, hash: string): Status {
    Status(at, at, None, st.reloadsOK + 1, st.reloadsFailed, hash)
  }

  predicate Reloadable(active: Option<Config>, next: Config) {
    active.None? || (active.value.mode == next.mode && active.value.listener == next.listener)
  }

  predicate Enabled(s: State, step: Step) {
    match step
    case ReadFailed(_) => s.stage.Idle?
    case ReadSame(_) => s.stage.Idle?
    case ReadChanged(_, hash) => s.stage.Idle? && hash != s.lastHash
    case BuildFailed => s.stage.Hashed?
    case BuildDone(_) => s.stage.Hashed?
    case CheckConfig => s.stage.Built?
    case StartIn(_) => s.stage.Checked?
    case StartOut(_) => s.stage.InStarted?
    case SwapIn => s.stage.OutStarted?
    case SwapOut => s.stage.InSwapped?
    case SwapConfig => s.stage.OutSwapped?
    case Commit => s.stage.ConfigSwapped?
    case DrainIn(j) => j < |s.drains| && s.drains[j].Both?
    case DrainOut(j) => j < |s.drains| && s.drains[j].OutOnly?
  }

  /** Reading, building and checking. */
  function Preparing(s: State, step: Step): State
    requires Enabled(s, step) && !IsStart(step) && !IsSwap(step) && !IsDrain(step)
  {
    match step
    case ReadFailed(at) => Failed(s, at, ReadFailure)
    case ReadSame(at) => s
    case ReadChanged(at, hash) => s.(stage := Hashed(at, hash))
    case BuildFailed => Failed(s, s.stage.at, BuildFailure)
    case BuildDone(next) => s.(stage := Built(s.stage.at, s.stage.hash, next))
    case CheckConfig =>
      if Reloadable(s.published.config, s.stage.next.config) then s.(stage := Checked(s.stage.at, s.stage.hash, s.stage.next))
      else Failed(s, s.stage.at, Unreloadable)
  }

  predicate IsStart(step: Step) {
    step.StartIn? || step.StartOut?
  }

  /** Starting the new pair; a failure unwinds what was started. */
  function Starting(s: State, step: Step): State
    requires Enabled(s, step) && IsStart(step)
  {
    var next := s.stage.next;
    if step.StartIn? then
      var (t, ok) := Started(next.inbound, step.initOk, s.trace);
      if ok then s.(trace := t, stage := InStarted(s.stage.at, s.stage.hash, next))
      else Failed(s.(trace := t), s.stage.at, InboundStart)
    else
      var (t, ok) := Started(next.outbound, step.initOk, s.trace);
      if ok then s.(trace := t, stage := OutStarted(s.stage.at, s.stage.hash, next))
      else Failed(s.(trace := Stopped(next.inbound, t)), s.stage.at, OutboundStart)
  }

  predicate IsSwap(step: Step) {
    step.SwapIn? || step.SwapOut? || step.SwapConfig? || step.Commit?
  }

  /** Publishing the new pair. */
  function Swapping(s: State, step: Step): State
    requires Enabled(s, step) && IsSwap(step)
  {
    var g, p := s.generations, s.published;
    match step
    case SwapIn =>
      s.(stage := InSwapped(s.stage.at, s.stage.hash, s.stage.next, p.inbound),
         published := p.(inbound := s.stage.next.inbound), generations := g.(inbound := g.inbound + 1))
    case SwapOut =>
      s.(stage := OutSwapped(s.stage.at, s.stage.hash, s.stage.next, s.stage.oldIn, p.outbound),
         published := p.(outbound := s.stage.next.outbound), generations := g.(outbound := g.outbound + 1))
    case SwapConfig =>
      s.(stage := ConfigSwapped(s.stage.at, s.stage.hash, s.stage.oldIn, s.stage.oldOut),
         published := p.(config := Some(s.stage.next.config)), generations := g.(config := g.config + 1))
    case Commit =>
      s.(stage := Idle, lastHash := s.stage.hash, drains := s.drains + [Both(s.stage.oldIn, s.stage.oldOut)],
         published := p.(status := Succeeded(p.status, s.stage.at, s.stage.hash)))
  }

  predicate IsDrain(step: Step) {
    step.DrainIn? || step.DrainOut?
  }

  /** A background drain stopping one old pipeline. */
  function Draining(s: State, step: Step): State
    requires Enabled(s, step) && IsDrain(step)
  {
    var d := s.drains[step.job];
    if step.DrainIn? then s.(trace := Stopped(d.inbound, s.trace), drains := s.drains[step.job := OutOnly(d.outbound)])
    else s.(trace := Stopped(d.outbound, s.trace), drains := s.drains[..step.job] + s.drains[step.job + 1..])
  }

  function Next(s: State, step: Step): State
    requires Enabled(s, step)
  {
    if IsStart(step) then Starting(s, step)
    else if IsSwap(step) then Swapping(s, step)
    else if IsDrain(step) then Draining(s, step)
    else Preparing(s, step)
  }

  /** The boot state: the initial pair is started and held. */
  function Boot(inbound: Pipe, outbound: Pipe, config: Option<Config>, hash: string, at: int): State {
    State(Idle, Published(inbound, outbound, config, Status(0, at, None, 0, 0, hash)), hash, [],
          Trace(Initializers(inbound) + Initializers(outbound), []), Generations(0, 0, 0))
  }

  predicate Runnable(init: State, steps: seq<Step>)
    decreases |steps|, 0
  {
    steps == [] || (Runnable(init, steps[..|steps| - 1]) && Enabled(After(init, steps[..|steps| - 1]), steps[|steps| - 1]))
  }

  function After(init: State, steps: seq<Step>): State
    requires Runnable(init, steps)
    decreases |steps|, 1
  {
    if steps == [] then init else Next(After(init, steps[..|steps| - 1]), steps[|steps| - 1])
  }

  // ----- Conservation of started plugins -----

  function Count(pipe: Pipe, p: Plugin): nat {
    multiset(pipe)[p]
  }

  function DrainCount(d: Drain, p: Plugin): nat {
    if d.Both? then Count(d.inbound, p) + Count(d.outbound, p) else Count(d.outbound, p)
  }

  function DrainsCount(ds: seq<Drain>, p: Plugin): nat {
    if ds == [] then 0 else DrainsCount(ds[..|ds| - 1], p) + DrainCount(ds[|ds| - 1], p)
  }

  /** Started pipelines that only the reload goroutine knows about. */
  function InHand(stage: Stage, p: Plugin): nat {
    match stage
    case InStarted(_, _, next) => Count(next.inbound, p)
    case OutStarted(_, _, next) => Count(next.inbound, p) + Count(next.outbound, p)
    case InSwapped(_, _, next, oldIn) => Count(oldIn, p) + Count(next.outbound, p)
    case OutSwapped(_, _, _, oldIn, oldOut) => Count(oldIn, p) + Count(oldOut, p)
    case ConfigSwapped(_, _, oldIn, oldOut) => Count(oldIn, p) + Count(oldOut, p)
    case _ => 0
  }

  /** Built pipelines that have not been started yet. */
  function Unstarted(stage: Stage, p: Plugin): nat {
    match stage
    case Built(_, _, next) => Count(next.inbound, p) + Count(next.outbound, p)
    case Checked(_, _, next) => Count(next.inbound, p) + Count(next.outbound, p)
    case InStarted(_, _, next) => Count(next.outbound, p)
    case _ => 0
  }

  /** Occurrences of `p` in pipelines that are held, draining, or in the reload goroutine's hands. */
  function Held(s: State, p: Plugin): nat {
    Count(s.published.inbound, p) + Count(s.published.outbound, p) + DrainsCount(s.drains, p) + InHand(s.stage, p)
  }

  lemma DrainsPush(ds: seq<Drain>, d: Drain, p: Plugin)
    ensures DrainsCount(ds + [d], p) == DrainsCount(ds, p) + DrainCount(d, p)
  {
    assert (ds + [d])[..|ds|] == ds;
  }

  lemma LastApart(a: seq<Drain>, b: seq<Drain>)
    requires b != []
    ensures a + b == (a + b[..|b| - 1]) + [b[|b| - 1]]
  {
  }

  lemma {:induction false} DrainsConcat(a: seq<Drain>, b: seq<Drain>, p: Plugin)
    ensures DrainsCount(a + b, p) == DrainsCount(a, p) + DrainsCount(b, p)
    decreases |b|
  {
    if b == [] {
      assert a + b == a;
    } else {
      var init, last := b[..|b| - 1], b[|b| - 1];
      DrainsConcat(a, init, p);
      DrainsPush(a + init, last, p);
      LastApart(a, b);
    }
  }

  lemma DrainsAround(ds: seq<Drain>, j: nat, d: Drain, p: Plugin)
    requires j < |ds|
    ensures DrainsCount(ds[..j] + [d] + ds[j + 1..], p) == DrainsCount(ds[..j] + ds[j + 1..], p) + DrainCount(d, p)
  {
    DrainsPush(ds[..j], d, p);
    DrainsConcat(ds[..j] + [d], ds[j + 1..], p);
    DrainsConcat(ds[..j], ds[j + 1..], p);
  }

  lemma Spliced(ds: seq<Drain>, j: nat, d: Drain)
    requires j < |ds|
    ensures ds[..j] + [d] + ds[j + 1..] == ds[j := d]
  {
  }

  lemma DrainsUpdate(ds: seq<Drain>, j: nat, d: Drain, p: Plugin)
    requires j < |ds|
    ensures DrainsCount(ds[j := d], p) == DrainsCount(ds, p) - DrainCount(ds[j], p) + DrainCount(d, p)
    ensures DrainsCount(ds[..j] + ds[j + 1..], p) == DrainsCount(ds, p) - DrainCount(ds[j], p)
  {
    DrainsAround(ds, j, d, p);
    DrainsAround(ds, j, ds[j], p);
    Spliced(ds, j, d);
    Spliced(ds, j, ds[j]);
    assert ds[j := ds[j]] == ds;
  }

  /** The books of one plugin: opened and not closed equals held. */
  predicate Balanced(s: State, p: Plugin) {
    Inits(s.trace, p) == Shuts(s.trace, p) + Held(s, p)
  }

  /** What a step adds to the occurrences of `p` that the machine has been handed. */
  function Handed(step: Step, p: Plugin): nat {
    if step.BuildDone? then Count(step.next.inbound, p) + Count(step.next.outbound, p) else 0
  }

  /** Shut down, held, or still to be started. */
  function Spent(s: State, p: Plugin): nat {
    Shuts(s.trace, p) + Held(s, p) + Unstarted(s.stage, p)
  }

  lemma PreparingKeepsBooks(s: State, step: Step, p: Plugin)
    requires Enabled(s, step) && !IsStart(step) && !IsSwap(step) && !IsDrain(step)
    ensures Balanced(s, p) ==> Balanced(Preparing(s, step), p)
    ensures Spent(Preparing(s, step), p) <= Spent(s, p) + Handed(step, p)
  {
  }

  lemma InStartedHolds(s: State, t: Trace, p: Plugin)
    requires s.stage.Checked?
    ensures var s' := s.(trace := t, stage := InStarted(s.stage.at, s.stage.hash, s.stage.next));
            && s'.trace == t && Held(s', p) == Held(s, p) + Count(s.stage.next.inbound, p)
            && Unstarted(s'.stage, p) == Unstarted(s.stage, p) - Count(s.stage.next.inbound, p)
  {
  }

  lemma StartInKeepsBooks(s: State, step: Step, p: Plugin)
    requires Enabled(s, step) && step.StartIn?
    ensures Tracked(p) && Balanced(s, p) ==> Balanced(Starting(s, step), p)
    ensures Spent(Starting(s, step), p) <= Spent(s, p)
  {
    var pipe := s.stage.next.inbound;
    if Tracked(p) {
      StartIsAllOrNothing(pipe, step.initOk, s.trace, p);
    }
    StartShutsAtMostOnce(pipe, step.initOk, s.trace, p);
    var (t, ok) := Started(pipe, step.initOk, s.trace);
    if ok {
      InStartedHolds(s, t, p);
    } else {
      FailedHolds(s, t, s.stage.at, InboundStart, p);
    }
  }

  /** Giving up drops what was in hand. */
  lemma FailedHolds(s: State, t: Trace, at: int, why: Failure, p: Plugin)
    ensures var s' := Failed(s.(trace := t), at, why);
            s'.trace == t && Held(s', p) == Held(s, p) - InHand(s.stage, p) && Unstarted(s'.stage, p) == 0
  {
  }

  lemma OutStartedHolds(s: State, t: Trace, p: Plugin)
    requires s.stage.InStarted?
    ensures var s' := s.(trace := t, stage := OutStarted(s.stage.at, s.stage.hash, s.stage.next));
            s'.trace == t && Held(s', p) == Held(s, p) + Count(s.stage.next.outbound, p) && Unstarted(s'.stage, p) == 0
  {
  }

  lemma StartOutBalances(s: State, step: Step, p: Plugin)
    requires Enabled(s, step) && step.StartOut? && Tracked(p) && Balanced(s, p)
    ensures Balanced(Starting(s, step), p)
  {
    var next := s.stage.next;
    StartIsAllOrNothing(next.outbound, step.initOk, s.trace, p);
    var (t, ok) := Started(next.outbound, step.initOk, s.trace);
    if ok {
      OutStartedHolds(s, t, p);
    } else {
      StopCloses(next.inbound, t, p);
      FailedHolds(s, Stopped(next.inbound, t), s.stage.at, OutboundStart, p);
    }
  }

  lemma StartOutSpends(s: State, step: Step, p: Plugin)
    requires Enabled(s, step) && step.StartOut?
    ensures Spent(Starting(s, step), p) <= Spent(s, p)
  {
    var next := s.stage.next;
    StartShutsAtMostOnce(next.outbound, step.initOk, s.trace, p);
    var (t, ok) := Started(next.outbound, step.initOk, s.trace);
    if ok {
      OutStartedHolds(s, t, p);
    } else {
      StopCloses(next.inbound, t, p);
      FailedHolds(s, Stopped(next.inbound, t), s.stage.at, OutboundStart, p);
    }
  }

  /** The old inbound pipeline changes places with the new one. */
  lemma SwapInKeepsBooks(s: State, p: Plugin)
    requires Enabled(s, SwapIn)
    ensures var s' := Swapping(s, SwapIn); s'.trace == s.trace && Held(s', p) == Held(s, p) && Unstarted(s'.stage, p) == Unstarted(s.stage, p)
  {
  }

  lemma SwapOutKeepsBooks(s: State, p: Plugin)
    requires Enabled(s, SwapOut)
    ensures var s' := Swapping(s, SwapOut); s'.trace == s.trace && Held(s', p) == Held(s, p) && Unstarted(s'.stage, p) == Unstarted(s.stage, p)
  {
  }

  lemma SwapConfigKeepsBooks(s: State, p: Plugin)
    requires Enabled(s, SwapConfig)
    ensures var s' := Swapping(s, SwapConfig); s'.trace == s.trace && Held(s', p) == Held(s, p) && Unstarted(s'.stage, p) == Unstarted(s.stage, p)
  {
  }

  lemma SwappingKeepsBooks(s: State, step: Step, p: Plugin)
    requires Enabled(s, step) && IsSwap(step) && !step.Commit?
    ensures Balanced(s, p) ==> Balanced(Swapping(s, step), p)
    ensures Spent(Swapping(s, step), p) == Spent(s, p)
  {
    if step.SwapIn? {
      SwapInKeepsBooks(s, p);
    } else if step.SwapOut? {
      SwapOutKeepsBooks(s, p);
    } else {
      SwapConfigKeepsBooks(s, p);
    }
  }

  lemma CommitKeepsBooks(s: State, p: Plugin)
    requires Enabled(s, Commit)
    ensures Balanced(s, p) ==> Balanced(Swapping(s, Commit), p)
    ensures Spent(Swapping(s, Commit), p) == Spent(s, p)
  {
    DrainsPush(s.drains, Both(s.stage.oldIn, s.stage.oldOut), p);
  }

  lemma RedrainedHolds(s: State, t: Trace, ds: seq<Drain>, p: Plugin)
    ensures var s' := s.(trace := t, drains := ds);
            && Held(s', p) == Held(s, p) - DrainsCount(s.drains, p) + DrainsCount(ds, p)
            && Unstarted(s'.stage, p) == Unstarted(s.stage, p)
  {
  }

  /** The pipeline a drain step stops. */
  function Drained(s: State, step: Step): Pipe
    requires Enabled(s, step) && IsDrain(step)
  {
    if step.DrainIn? then s.drains[step.job].inbound else s.drains[step.job].outbound
  }

  lemma DrainingHolds(s: State, step: Step, p: Plugin)
    requires Enabled(s, step) && IsDrain(step)
    ensures var s' := Draining(s, step);
            && s'.trace == Stopped(Drained(s, step), s.trace)
            && Held(s', p) == Held(s, p) - Count(Drained(s, step), p) && Unstarted(s'.stage, p) == Unstarted(s.stage, p)
  {
    DrainsUpdate(s.drains, step.job, OutOnly(s.drains[step.job].outbound), p);
    RedrainedHolds(s, Draining(s, step).trace, Draining(s, step).drains, p);
  }

  lemma DrainingKeepsBooks(s: State, step: Step, p: Plugin)
    requires Enabled(s, step) && IsDrain(step)
    ensures Tracked(p) && Balanced(s, p) ==> Balanced(Draining(s, step), p)
    ensures Spent(Draining(s, step), p) <= Spent(s, p)
  {
    StopCloses(Drained(s, step), s.trace, p);
    DrainingHolds(s, step, p);
  }

  lemma StepKeepsBooks(s: State, step: Step, p: Plugin)
    requires Enabled(s, step)
    ensures Tracked(p) && Balanced(s, p) ==> Balanced(Next(s, step), p)
    ensures Spent(Next(s, step), p) <= Spent(s, p) + Handed(step, p)
  {
    if step.StartIn? {
      StartInKeepsBooks(s, step, p);
    } else if step.StartOut? {
      StartOutSpends(s, step, p);
      if Tracked(p) && Balanced(s, p) {
        StartOutBalances(s, step, p);
      }
    } else if step.Commit? {
      CommitKeepsBooks(s, p);
    } else if IsSwap(step) {
      SwappingKeepsBooks(s, step, p);
    } else if IsDrain(step) {
      DrainingKeepsBooks(s, step, p);
    } else {
      PreparingKeepsBooks(s, step, p);
    }
  }

  lemma BootBalanced(inbound: Pipe, outbound: Pipe, config: Option<Config>, hash: string, at: int, p: Plugin)
    requires Tracked(p)
    ensures Balanced(Boot(inbound, outbound, config, hash, at), p)
  {
    CallsPerPlugin(inbound, p);
    CallsPerPlugin(outbound, p);
  }

  /** Conservation over every run, at every step: each successful Init of a plugin that needs shutting
      down is matched by one Shutdown or by one pipeline that is held or draining. */
  lemma {:induction false} StartedPluginsAreConserved(init: State, steps: seq<Step>, p: Plugin)
    requires Runnable(init, steps) && Tracked(p) && Balanced(init, p)
    ensures Balanced(After(init, steps), p)
    decreases |steps|
  {
    if steps != [] {
      var before := steps[..|steps| - 1];
      StartedPluginsAreConserved(init, before, p);
      StepKeepsBooks(After(init, before), steps[|steps| - 1], p);
    }
  }

  /** How often `p` occurs in what was booted and in what the builder returned. */
  function BuiltCount(init: State, steps: seq<Step>, p: Plugin): nat {
    if steps == [] then Held(init, p)
    else BuiltCount(init, steps[..|steps| - 1], p) + Handed(steps[|steps| - 1], p)
  }

  lemma {:induction false} NothingIsSpentTwice(init: State, steps: seq<Step>, p: Plugin)
    requires Runnable(init, steps) && init.stage.Idle? && init.trace.shuts == []
    ensures Spent(After(init, steps), p) <= BuiltCount(init, steps, p)
    decreases |steps|
  {
    if steps != [] {
      var before := steps[..|steps| - 1];
      NothingIsSpentTwice(init, before, p);
      StepKeepsBooks(After(init, before), steps[|steps| - 1], p);
    }
  }

  /** With a fresh instance from each build: a plugin that needs shutting down and was initialized has
      either been shut down exactly once and is no longer anywhere, or not at all and is in exactly one
      pipeline that is held or draining. And no plugin at all is ever shut down twice. */
  lemma ShutDownExactlyOnceOrHeld(inbound: Pipe, outbound: Pipe, config: Option<Config>, hash: string, at: int, steps: seq<Step>, p: Plugin)
    requires Runnable(Boot(inbound, outbound, config, hash, at), steps)
    requires BuiltCount(Boot(inbound, outbound, config, hash, at), steps, p) <= 1
    ensures var s := After(Boot(inbound, outbound, config, hash, at), steps);
            && Shuts(s.trace, p) <= 1
            && (Tracked(p) && Inits(s.trace, p) > 0 ==>
                  && Inits(s.trace, p) == 1
                  && ((Shuts(s.trace, p) == 1 && Held(s, p) == 0) || (Shuts(s.trace, p) == 0 && Held(s, p) == 1)))
  {
    var init := Boot(inbound, outbound, config, hash, at);
    NothingIsSpentTwice(init, steps, p);
    if Tracked(p) {
      BootBalanced(inbound, outbound, config, hash, at, p);
      StartedPluginsAreConserved(init, steps, p);
    }
  }

  // ----- What operators and listeners see -----

  /** Attempts that were not skipped as unchanged. */
  function Attempts(steps: seq<Step>): nat {
    if steps == [] then 0
    else Attempts(steps[..|steps| - 1]) + if IsAttempt(steps[|steps| - 1]) then 1 else 0
  }

  /** From the steps alone: the hash read by the latest attempt that found the file changed. */
  function LastRead(steps: seq<Step>): string {
    if steps == [] then ""
    else
      var step := steps[|steps| - 1];
      if step.ReadChanged? then step.hash else LastRead(steps[..|steps| - 1])
  }

  /** From the steps alone: the hash read by the latest attempt that committed, or the one at boot. */
  function LastCommitted(boot: string, steps: seq<Step>): string {
    if steps == [] then boot
    else
      var before := steps[..|steps| - 1];
      if steps[|steps| - 1].Commit? then LastRead(before) else LastCommitted(boot, before)
  }

  predicate HashesTrack(boot: string, steps: seq<Step>, s: State) {
    && s.lastHash == s.published.status.activeHash == LastCommitted(boot, steps)
    && (!s.stage.Idle? ==> s.stage.hash == LastRead(steps))
  }

  /** A step changes the reported hash only by committing the one in hand, and takes one in hand only by reading. */
  lemma NextHashes(s: State, step: Step)
    requires Enabled(s, step)
    ensures var s' := Next(s, step);
            && s'.lastHash == (if step.Commit? then s.stage.hash else s.lastHash)
            && s'.published.status.activeHash == (if step.Commit? then s.stage.hash else s.published.status.activeHash)
            && (!s'.stage.Idle? ==> if step.ReadChanged? then s'.stage.hash == step.hash
                                    else !s.stage.Idle? && s'.stage.hash == s.stage.hash)
  {
    if IsStart(step) {
      assert Next(s, step) == Starting(s, step);
    } else if IsSwap(step) {
      assert Next(s, step) == Swapping(s, step);
    } else if IsDrain(step) {
      assert Next(s, step) == Draining(s, step);
    } else {
      assert Next(s, step) == Preparing(s, step);
    }
  }

  lemma LastSnoc(boot: string, before: seq<Step>, step: Step)
    ensures LastRead(before + [step]) == if step.ReadChanged? then step.hash else LastRead(before)
    ensures LastCommitted(boot, before + [step]) == if step.Commit? then LastRead(before) else LastCommitted(boot, before)
  {
    assert (before + [step])[..|before|] == before;
  }

  lemma HashStep(boot: string, before: seq<Step>, step: Step, s: State)
    requires Enabled(s, step) && HashesTrack(boot, before, s)
    ensures HashesTrack(boot, before + [step], Next(s, step))
  {
    NextHashes(s, step);
    LastSnoc(boot, before, step);
  }

  /** At every step of every run the reported hash is the one of the last commit. */
  lemma {:induction false} ReportedHashIsLastCommitted(
    inbound: Pipe, outbound: Pipe, config: Option<Config>, hash: string, at: int, steps: seq<Step>)
    requires Runnable(Boot(inbound, outbound, config, hash, at), steps)
    ensures HashesTrack(hash, steps, After(Boot(inbound, outbound, config, hash, at), steps))
    decreases |steps|
  {
    if steps != [] {
      var before, step := steps[..|steps| - 1], steps[|steps| - 1];
      ReportedHashIsLastCommitted(inbound, outbound, config, hash, at, before);
      HashStep(hash, before, step, After(Boot(inbound, outbound, config, hash, at), before));
      assert before + [step] == steps;
    }
  }

  /** The candidate in hand has passed the check against the active configuration. */
  predicate CandidateReloadable(s: State) {
    (s.stage.Checked? || s.stage.InStarted? || s.stage.OutStarted? || s.stage.InSwapped? || s.stage.OutSwapped?) ==>
      Reloadable(s.published.config, s.stage.next.config)
  }

  /** Inbound is replaced first, then outbound, then the configuration, one generation at a time. */
  predicate InOrder(s: State) {
    var g := s.generations;
    && g.inbound == g.config + (if s.stage.InSwapped? || s.stage.OutSwapped? then 1 else 0)
    && g.outbound == g.config + (if s.stage.OutSwapped? then 1 else 0)
    && g.config == s.published.status.reloadsOK + (if s.stage.ConfigSwapped? then 1 else 0)
  }

  predicate IsAttempt(step: Step) {
    step.ReadFailed? || step.ReadChanged?
  }

  /** The state after `attempts` attempts, begun with `config` active. */
  predicate Coherent(config: Option<Config>, attempts: nat, s: State) {
    var st := s.published.status;
    && st.activeHash == s.lastHash
    && st.reloadsOK + st.reloadsFailed + (if s.stage.Idle? then 0 else 1) == attempts
    && CandidateReloadable(s) && InOrder(s)
    && (config.Some? ==> s.published.config.Some? && Reloadable(config, s.published.config.value))
  }

  lemma PreparingCoherent(config: Option<Config>, attempts: nat, s: State, step: Step)
    requires Enabled(s, step) && !IsStart(step) && !IsSwap(step) && !IsDrain(step) && Coherent(config, attempts, s)
    ensures Coherent(config, attempts + if IsAttempt(step) then 1 else 0, Preparing(s, step))
  {
  }

  lemma OtherStepCoherent(config: Option<Config>, attempts: nat, s: State, step: Step)
    requires Enabled(s, step) && (IsStart(step) || IsSwap(step) || IsDrain(step)) && Coherent(config, attempts, s)
    ensures Coherent(config, attempts, Next(s, step))
  {
    if IsStart(step) {
      assert Coherent(config, attempts, Starting(s, step));
    } else if IsSwap(step) {
      assert Coherent(config, attempts, Swapping(s, step));
    }
  }

  lemma StepCoherent(config: Option<Config>, attempts: nat, s: State, step: Step)
    requires Enabled(s, step) && Coherent(config, attempts, s)
    ensures Coherent(config, attempts + if IsAttempt(step) then 1 else 0, Next(s, step))
  {
    if IsStart(step) || IsSwap(step) || IsDrain(step) {
      OtherStepCoherent(config, attempts, s, step);
    } else {
      PreparingCoherent(config, attempts, s, step);
    }
  }

  /** Along every run: mode and listener settings never change; the reported hash is that of the last
      commit; successes and failures add up to the attempts made; and inbound, outbound and
      configuration are at most one generation apart, in that order. */
  lemma {:induction false} ReloadsStayCoherent(inbound: Pipe, outbound: Pipe, config: Option<Config>, hash: string, at: int, steps: seq<Step>)
    requires Runnable(Boot(inbound, outbound, config, hash, at), steps)
    ensures var s := After(Boot(inbound, outbound, config, hash, at), steps);
            && Coherent(config, Attempts(steps), s)
            && s.generations.inbound >= s.generations.outbound >= s.generations.config >= s.generations.inbound - 1
    decreases |steps|
  {
    if steps != [] {
      var before, step := steps[..|steps| - 1], steps[|steps| - 1];
      ReloadsStayCoherent(inbound, outbound, config, hash, at, before);
      StepCoherent(config, Attempts(before), After(Boot(inbound, outbound, config, hash, at), before), step);
    }
  }

  /** Once booted with a configuration, one is always published, with the mode and the listener settings of boot. */
  lemma SettingsNeverChange(inbound: Pipe, outbound: Pipe, config: Config, hash: string, at: int, steps: seq<Step>)
    requires Runnable(Boot(inbound, outbound, Some(config), hash, at), steps)
    ensures var published := After(Boot(inbound, outbound, Some(config), hash, at), steps).published.config;
            published.Some? && published.value.mode == config.mode && published.value.listener == config.listener
  {
    ReloadsStayCoherent(inbound, outbound, Some(config), hash, at, steps);
  }

  // ----- One attempt -----

  /** What the outside does during one attempt. */
  datatype Environment = Environment(at: int, read: Option<string>, built: Option<Candidate>, initOk: Plugin -> bool)

  /** The steps one attempt takes. */
  function Attempt(s: State, env: Environment): seq<Step> {
    if env.read.None? then [ReadFailed(env.at)]
    else if env.read.value == s.lastHash then [ReadSame(env.at)]
    else if env.built.None? then [ReadChanged(env.at, env.read.value), BuildFailed]
    else
      var c := env.built.value;
      var checked := [ReadChanged(env.at, env.read.value), BuildDone(c), CheckConfig];
      if !Reloadable(s.published.config, c.config) then checked
      else if !Started(c.inbound, env.initOk, s.trace).1 then checked + [StartIn(env.initOk)]
      else if !Started(c.outbound, env.initOk, Started(c.inbound, env.initOk, s.trace).0).1 then
        checked + [StartIn(env.initOk), StartOut(env.initOk)]
      else checked + [StartIn(env.initOk), StartOut(env.initOk), SwapIn, SwapOut, SwapConfig, Commit]
  }

  /** The file was read and differs, a candidate was built, passed the check, and both pipelines started. */
  predicate Commits(s: State, env: Environment) {
    && env.read.Some? && env.read.value != s.lastHash && env.built.Some?
    && var c := env.built.value;
       && Reloadable(s.published.config, c.config)
       && Started(c.inbound, env.initOk, s.trace).1
       && Started(c.outbound, env.initOk, Started(c.inbound, env.initOk, s.trace).0).1
  }

  /** The state after one attempt with no drain in between. */
  function Attempted(s: State, env: Environment): State {
    if env.read.None? then Failed(s, env.at, ReadFailure)
    else if env.read.value == s.lastHash then s
    else if env.built.None? then Failed(s, env.at, BuildFailure)
    else
      var c := env.built.value;
      if !Reloadable(s.published.config, c.config) then Failed(s, env.at, Unreloadable)
      else Replaced(s, env.at, env.read.value, c, env.initOk)
  }

  /** The state after starting a candidate and, if all went well, swapping it in. */
  function Replaced(s: State, at: int, hash: string, c: Candidate, initOk: Plugin -> bool): State {
    var (t, inOk) := Started(c.inbound, initOk, s.trace);
    var (u, outOk) := Started(c.outbound, initOk, t);
    var p, g := s.published, s.generations;
    if !inOk then Failed(s.(trace := t), at, InboundStart)
    else if !outOk then Failed(s.(trace := Stopped(c.inbound, u)), at, OutboundStart)
    else State(Idle, Published(c.inbound, c.outbound, Some(c.config), Succeeded(p.status, at, hash)),
               hash, s.drains + [Both(p.inbound, p.outbound)], u,
               Generations(g.inbound + 1, g.outbound + 1, g.config + 1))
  }

  predicate RunnableFrom(s: State, steps: seq<Step>)
    decreases |steps|
  {
    steps == [] || (Enabled(s, steps[0]) && RunnableFrom(Next(s, steps[0]), steps[1..]))
  }

  function AfterFrom(s: State, steps: seq<Step>): State
    requires RunnableFrom(s, steps)
    decreases |steps|
  {
    if steps == [] then s else AfterFrom(Next(s, steps[0]), steps[1..])
  }

  lemma RunSnoc(init: State, steps: seq<Step>, step: Step)
    requires Runnable(init, steps) && Enabled(After(init, steps), step)
    ensures Runnable(init, steps + [step]) && After(init, steps + [step]) == Next(After(init, steps), step)
  {
    assert (steps + [step])[..|steps|] == steps;
  }

  lemma FirstStep(s: State, more: seq<Step>)
    requires more != [] && RunnableFrom(s, more)
    ensures Enabled(s, more[0]) && RunnableFrom(Next(s, more[0]), more[1..])
    ensures AfterFrom(s, more) == AfterFrom(Next(s, more[0]), more[1..])
  {
  }

  lemma Regroup(steps: seq<Step>, more: seq<Step>)
    requires more != []
    ensures steps + [more[0]] + more[1..] == steps + more
  {
  }

  /** A run can be continued from where it stands. */
  lemma {:induction false} RunExtends(init: State, steps: seq<Step>, more: seq<Step>)
    requires Runnable(init, steps) && RunnableFrom(After(init, steps), more)
    ensures Runnable(init, steps + more) && After(init, steps + more) == AfterFrom(After(init, steps), more)
    decreases |more|
  {
    if more == [] {
      assert steps + more == steps;
    } else {
      FirstStep(After(init, steps), more);
      RunSnoc(init, steps, more[0]);
      RunExtends(init, steps + [more[0]], more[1..]);
      Regroup(steps, more);
    }
  }

  lemma RunCons(s: State, step: Step, rest: seq<Step>)
    requires Enabled(s, step) && RunnableFrom(Next(s, step), rest)
    ensures RunnableFrom(s, [step] + rest) && AfterFrom(s, [step] + rest) == AfterFrom(Next(s, step), rest)
  {
    assert ([step] + rest)[1..] == rest;
  }

  lemma CommitSteps(s: State)
    requires s.stage.OutStarted?
    ensures var steps := [SwapIn] + ([SwapOut] + ([SwapConfig] + ([Commit] + [])));
            var p, g, c := s.published, s.generations, s.stage.next;
            && RunnableFrom(s, steps)
            && AfterFrom(s, steps) ==
               State(Idle, Published(c.inbound, c.outbound, Some(c.config), Succeeded(p.status, s.stage.at, s.stage.hash)),
                     s.stage.hash, s.drains + [Both(p.inbound, p.outbound)], s.trace,
                     Generations(g.inbound + 1, g.outbound + 1, g.config + 1))
  {
    var s1 := Next(s, SwapIn);
    var s2 := Next(s1, SwapOut);
    var s3 := Next(s2, SwapConfig);
    RunCons(s3, Commit, []);
    RunCons(s2, SwapConfig, [Commit] + []);
    RunCons(s1, SwapOut, [SwapConfig] + ([Commit] + []));
    RunCons(s, SwapIn, [SwapOut] + ([SwapConfig] + ([Commit] + [])));
  }

  /** From a checked candidate to the end of the attempt. */
  lemma CandidateSteps(s: State, env: Environment)
    requires s.stage.Idle? && env.read.Some? && env.read.value != s.lastHash && env.built.Some?
    requires Reloadable(s.published.config, env.built.value.config)
    ensures var checked := s.(stage := Checked(env.at, env.read.value, env.built.value));
            var steps := Attempt(s, env)[3..];
            RunnableFrom(checked, steps) && AfterFrom(checked, steps) == Attempted(s, env)
  {
    var c, f := env.built.value, env.initOk;
    var checked := s.(stage := Checked(env.at, env.read.value, c));
    var steps := Attempt(s, env)[3..];
    var (t, inOk) := Started(c.inbound, f, s.trace);
    var s1 := Next(checked, StartIn(f));
    if !inOk {
      RunCons(checked, StartIn(f), []);
      assert steps == [StartIn(f)] + [];
    } else if !Started(c.outbound, f, t).1 {
      RunCons(s1, StartOut(f), []);
      RunCons(checked, StartIn(f), [StartOut(f)] + []);
      assert steps == [StartIn(f)] + ([StartOut(f)] + []);
    } else {
      var commit := [SwapIn] + ([SwapOut] + ([SwapConfig] + ([Commit] + [])));
      CommitSteps(Next(s1, StartOut(f)));
      RunCons(s1, StartOut(f), commit);
      RunCons(checked, StartIn(f), [StartOut(f)] + commit);
      assert steps == [StartIn(f)] + ([StartOut(f)] + commit);
    }
  }

  /** An attempt that ends before there is a candidate. */
  lemma EarlyAttempt(s: State, env: Environment)
    requires s.stage.Idle? && (env.read.None? || env.read.value == s.lastHash || env.built.None?)
    ensures RunnableFrom(s, Attempt(s, env)) && AfterFrom(s, Attempt(s, env)) == Attempted(s, env)
  {
    var steps := Attempt(s, env);
    if env.read.None? || env.read.value == s.lastHash {
      RunCons(s, steps[0], []);
      assert steps == [steps[0]] + [];
    } else {
      var read := ReadChanged(env.at, env.read.value);
      RunCons(Next(s, read), BuildFailed, []);
      RunCons(s, read, [BuildFailed] + []);
      assert steps == [read] + ([BuildFailed] + []);
    }
  }

  /** Reading a changed file, building and checking a candidate; then whatever follows. */
  lemma CheckedSteps(s: State, at: int, hash: string, c: Candidate, rest: seq<Step>)
    requires s.stage.Idle? && hash != s.lastHash
    requires RunnableFrom(CheckedState(s, at, hash, c), rest)
    ensures var steps := [ReadChanged(at, hash)] + ([BuildDone(c)] + ([CheckConfig] + rest));
            RunnableFrom(s, steps) && AfterFrom(s, steps) == AfterFrom(CheckedState(s, at, hash, c), rest)
  {
    var s1 := Next(s, ReadChanged(at, hash));
    var s2 := Next(s1, BuildDone(c));
    assert Next(s2, CheckConfig) == CheckedState(s, at, hash, c);
    RunCons(s2, CheckConfig, rest);
    RunCons(s1, BuildDone(c), [CheckConfig] + rest);
    RunCons(s, ReadChanged(at, hash), [BuildDone(c)] + ([CheckConfig] + rest));
  }

  function CheckedState(s: State, at: int, hash: string, c: Candidate): State {
    if Reloadable(s.published.config, c.config) then s.(stage := Checked(at, hash, c)) else Failed(s, at, Unreloadable)
  }

  lemma AttemptSplits(s: State, env: Environment)
    requires env.read.Some? && env.read.value != s.lastHash && env.built.Some?
    ensures var steps := Attempt(s, env);
            && |steps| >= 3
            && steps == [ReadChanged(env.at, env.read.value)] + ([BuildDone(env.built.value)] + ([CheckConfig] + steps[3..]))
            && (!Reloadable(s.published.config, env.built.value.config) ==> steps[3..] == [])
  {
  }

  /** An attempt is a run of the machine, so what is proved of runs holds of sequences of attempts. */
  lemma AttemptIsARun(s: State, env: Environment)
    requires s.stage.Idle?
    ensures RunnableFrom(s, Attempt(s, env)) && AfterFrom(s, Attempt(s, env)) == Attempted(s, env)
  {
    if env.read.None? || env.read.value == s.lastHash || env.built.None? {
      EarlyAttempt(s, env);
    } else {
      AttemptSplits(s, env);
      if Reloadable(s.published.config, env.built.value.config) {
        CandidateSteps(s, env);
      }
      CheckedSteps(s, env.at, env.read.value, env.built.value, Attempt(s, env)[3..]);
    }
  }

  ghost predicate AllInit(pipe: Pipe, initOk: Plugin -> bool) {
    forall i :: 0 <= i < |pipe| && pipe[i].initializer ==> initOk(pipe[i])
  }

  /** Why an attempt fails, if it does: the first of the file, the build, an unreloadable setting, an inbound and an
      outbound Init to go wrong. */
  ghost function Trouble(s: State, env: Environment): Option<Failure> {
    if env.read.None? then Some(ReadFailure)
    else if env.built.None? then Some(BuildFailure)
    else
      var c, active := env.built.value, s.published.config;
      if active.Some? && (active.value.mode != c.config.mode || active.value.listener != c.config.listener) then Some(Unreloadable)
      else if !AllInit(c.inbound, env.initOk) then Some(InboundStart)
      else if !AllInit(c.outbound, env.initOk) then Some(OutboundStart)
      else None
  }

  /** The report of an attempt. An unchanged file is not an attempt. Otherwise it fails exactly if there is trouble, and
      then reports that and when; if there is none it reports success, when, and the new hash. The counts and times that
      do not concern the result stay. */
  lemma AttemptReports(s: State, env: Environment)
    ensures env.read == Some(s.lastHash) ==> Attempted(s, env) == s
    ensures env.read != Some(s.lastHash) ==>
              var st, st', why := s.published.status, Attempted(s, env).published.status, Trouble(s, env);
              if why.Some? then st' == Status(env.at, st.lastSuccess, why, st.reloadsOK, st.reloadsFailed + 1, st.activeHash)
              else st' == Status(env.at, env.at, None, st.reloadsOK + 1, st.reloadsFailed, env.read.value)
  {
    if env.read.Some? && env.built.Some? {
      var c := env.built.value;
      StartInitsThenUnwinds(c.inbound, env.initOk, s.trace);
      StartInitsThenUnwinds(c.outbound, env.initOk, Started(c.inbound, env.initOk, s.trace).0);
    }
  }

  /** So an attempt is refused as unreloadable exactly if a changed file was built and differs in mode or listener. */
  lemma RefusedIffSettingsDiffer(s: State, env: Environment)
    requires env.read.Some? && env.read.value != s.lastHash && env.built.Some? && s.published.config.Some?
    ensures var next, active := env.built.value.config, s.published.config.value;
            Attempted(s, env).published.status.lastError == Some(Unreloadable) <==> next.mode != active.mode || next.listener != active.listener
  {
    AttemptReports(s, env);
  }

  /** An attempt commits exactly if a changed file met no trouble; the old pipelines are then the last to drain. */
  lemma CommitsIffNoTrouble(s: State, env: Environment)
    ensures Commits(s, env) <==> env.read != Some(s.lastHash) && Trouble(s, env) == None
    ensures Commits(s, env) ==> Attempted(s, env).drains == s.drains + [Both(s.published.inbound, s.published.outbound)]
  {
    if env.read.Some? && env.built.Some? {
      var c := env.built.value;
      StartInitsThenUnwinds(c.inbound, env.initOk, s.trace);
      StartInitsThenUnwinds(c.outbound, env.initOk, Started(c.inbound, env.initOk, s.trace).0);
    }
  }

  /** An attempt that does not commit leaves the pipelines, the configuration, the hash and the drains
      alone and is counted as a failure, unless the file had not changed, when nothing happens at all;
      an attempt that commits publishes exactly the candidate. */
  lemma OnlyCommitsChangeAnything(s: State, env: Environment)
    requires s.stage.Idle?
    ensures var s' := Attempted(s, env);
            if Commits(s, env) then
              && s'.published.inbound == env.built.value.inbound && s'.published.outbound == env.built.value.outbound
              && s'.published.config == Some(env.built.value.config) && s'.lastHash == env.read.value != s.lastHash
              && s'.published.status.reloadsOK == s.published.status.reloadsOK + 1
            else
              && s'.published.inbound == s.published.inbound && s'.published.outbound == s.published.outbound
              && s'.published.config == s.published.config && s'.lastHash == s.lastHash && s'.drains == s.drains
              && s'.published.status.activeHash == s.published.status.activeHash
              && (s' == s || s'.published.status.reloadsFailed == s.published.status.reloadsFailed + 1)
              && (s' == s <==> env.read == Some(s.lastHash))
  {
  }

  // ----- The reloader -----

  class Reloader {
    var inbound: Pipe
    var outbound: Pipe
    var activeCfg: Option<Config>
    var lastHash: string
    var status: Status
    var drains: seq<Drain>
    const runtime: Runtime

    /** Between attempts all three generations equal the number of successes. */
    ghost function Value(): State
      reads this, runtime
    {
      State(Idle, Published(inbound, outbound, activeCfg, status), lastHash, drains, runtime.Value(),
            Generations(status.reloadsOK, status.reloadsOK, status.reloadsOK))
    }

    constructor (inbound: Pipe, outbound: Pipe, initialCfg: Option<Config>, hash: string, at: int, runtime: Runtime)
      ensures this.runtime == runtime
      ensures runtime.Value() == Boot(inbound, outbound, initialCfg, hash, at).trace ==>
                Value() == Boot(inbound, outbound, initialCfg, hash, at)
    {
      this.inbound, this.outbound, activeCfg, lastHash := inbound, outbound, initialCfg, hash;
      status := Status(0, at, None, 0, 0, hash);
      drains := [];
      this.runtime := runtime;
    }

    method RecordFailure(at: int, why: Failure)
      modifies this`status
      ensures Value() == Failed(old(Value()), at, why)
    {
      status := status.(lastAttempt := at, lastError := Some(why), reloadsFailed := status.reloadsFailed + 1);
    }

    method ReloadOnce(env: Environment)
      modifies this, runtime
      ensures Value() == Attempted(old(Value()), env)
    {
      if env.read.None? {
        RecordFailure(env.at, ReadFailure);
        return;
      }
      var hash := env.read.value;
      if hash == lastHash {
        return;
      }
      if env.built.None? {
        RecordFailure(env.at, BuildFailure);
        return;
      }
      var next := env.built.value;
      if activeCfg.Some? && (activeCfg.value.mode != next.config.mode || activeCfg.value.listener != next.config.listener) {
        RecordFailure(env.at, Unreloadable);
        return;
      }
      Replace(env.at, hash, next, env.initOk);
    }

    method Replace(at: int, hash: string, next: Candidate, initOk: Plugin -> bool)
      modifies this, runtime
      ensures Value() == Replaced(old(Value()), at, hash, next, initOk)
    {
      var inOk := runtime.Start(next.inbound, initOk);
      if !inOk {
        RecordFailure(at, InboundStart);
        return;
      }
      var outOk := runtime.Start(next.outbound, initOk);
      if !outOk {
        runtime.Stop(next.inbound);
        RecordFailure(at, OutboundStart);
        return;
      }
      var oldIn, oldOut := inbound, outbound;
      inbound := next.inbound;
      outbound := next.outbound;
      activeCfg := Some(next.config);
      lastHash := hash;
      drains := drains + [Both(oldIn, oldOut)];
      status := Status(at, at, None, status.reloadsOK + 1, status.reloadsFailed, hash);
    }

    /** A background drain running to its end. */
    method FinishDrain(j: nat)
      requires j < |drains| && drains[j].Both?
      modifies this`drains, runtime
      ensures RunnableFrom(old(Value()), [DrainIn(j), DrainOut(j)])
      ensures Value() == AfterFrom(old(Value()), [DrainIn(j), DrainOut(j)])
    {
      var d := drains[j];
      runtime.Stop(d.inbound);
      runtime.Stop(d.outbound);
      ghost var s1 := Next(old(Value()), DrainIn(j));
      RunCons(s1, DrainOut(j), []);
      RunCons(old(Value()), DrainIn(j), [DrainOut(j)] + []);
      assert [DrainIn(j), DrainOut(j)] == [DrainIn(j)] + ([DrainOut(j)] + []);
      drains := drains[..j] + drains[j + 1..];
      assert s1.drains[..j] + s1.drains[j + 1..] == drains;
    }
  }
}
