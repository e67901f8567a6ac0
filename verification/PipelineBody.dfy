/**
 Body access. Construction of a pipeline checks which plugins declare reading and rewriting the
 body; what that check buys is that readers see the original request bytes, and the response
 bytes that are finally sent.
 */
module PipelineBody {
  import opened Common
  import opened PipelineContext
  import opened Pipelines
  import opened PipelineLaws

  /** Declares reading the body, after writing is promoted to imply reading. */
  predicate Declares(pl: Plugin) {
    pl.readsBody || pl.writesBody
  }

  predicate OnlyReads(pl: Plugin) {
    pl.readsBody && !pl.writesBody
  }

  /** Nothing that declares body access comes after a mutator. */
  ghost predicate BodyOrdered(ps: seq<Plugin>) {
    forall i, j :: 0 <= i < j < |ps| && ps[i].writesBody ==> !Declares(ps[j])
  }

  /** What the check enforces: it tracks offenders by name and takes the empty name for "none". */
  ghost predicate NamedOrdered(ps: seq<Plugin>) {
    forall i, j :: 0 <= i < j < |ps| && ps[i].writesBody && ps[i].name != "" ==>
      !ps[j].writesBody && !(ps[j].readsBody && ps[j].name != "")
  }

  method ValidateCapabilities(ps: seq<Plugin>) returns (ok: bool)
    ensures ok <==> NamedOrdered(ps)
  {
    var mutatorName, readerAfterMutator := "", "";
    ghost var w, r := 0, 0;
    for n := 0 to |ps|
      invariant forall i, j :: 0 <= i < j < n && ps[i].writesBody && ps[i].name != "" ==> !ps[j].writesBody
      invariant mutatorName != "" ==> 0 <= w < n && ps[w].writesBody && ps[w].name != ""
      invariant mutatorName == "" ==> forall i :: 0 <= i < n && ps[i].writesBody ==> ps[i].name == ""
      invariant readerAfterMutator != "" ==>
                  0 <= w < r < n && ps[w].writesBody && ps[w].name != "" && ps[r].readsBody && ps[r].name != ""
      invariant readerAfterMutator == "" ==>
                  forall i, j :: 0 <= i < j < n && ps[i].writesBody && ps[i].name != "" ==> !(ps[j].readsBody && ps[j].name != "")
    {
      if ps[n].writesBody {
        if mutatorName != "" {
          return false;
        }
        mutatorName, w := ps[n].name, n;
      } else if ps[n].readsBody && mutatorName != "" && readerAfterMutator == "" {
        readerAfterMutator, r := ps[n].name, n;
      }
    }
    ok := readerAfterMutator == "";
  }

  /** A pair out of order that the check cannot see: the mutator is nameless, or else the plugin after
      it is a nameless reader. */
  predicate Hidden(ps: seq<Plugin>, i: nat, j: nat)
    requires i < |ps| && j < |ps|
  {
    && ps[i].writesBody
    && if ps[i].name == "" then Declares(ps[j]) else OnlyReads(ps[j]) && ps[j].name == ""
  }

  ghost predicate NothingHidden(ps: seq<Plugin>) {
    forall i, j :: 0 <= i < j < |ps| ==> !Hidden(ps, i, j)
  }

  /** A chain is well ordered if and only if the check accepts it and it has no hidden pair. So what the
      check accepts is well ordered exactly when nothing is hidden from it. */
  lemma CapabilityCheckIsRightIff(ps: seq<Plugin>)
    ensures BodyOrdered(ps) <==> NamedOrdered(ps) && NothingHidden(ps)
  {
    if BodyOrdered(ps) {
      assert forall i, j :: 0 <= i < j < |ps| && ps[i].writesBody ==> !Declares(ps[j]);
    }
    if NamedOrdered(ps) && NothingHidden(ps) {
      forall i, j | 0 <= i < j < |ps| && ps[i].writesBody
        ensures !Declares(ps[j])
      {
        assert !Hidden(ps, i, j);
      }
    }
  }

  /** With every body-declaring plugin named, nothing is hidden. */
  lemma NamedChainsAreChecked(ps: seq<Plugin>)
    requires forall i :: 0 <= i < |ps| && Declares(ps[i]) ==> ps[i].name != ""
    ensures NamedOrdered(ps) <==> BodyOrdered(ps)
  {
    CapabilityCheckIsRightIff(ps);
  }

  /** A nameless mutator escapes the check: two of them are accepted. */
  lemma NamelessMutatorsEscape(pl: Plugin)
    requires pl.name == "" && pl.writesBody
    ensures NamedOrdered([pl, pl]) && !BodyOrdered([pl, pl])
  {
    var ps := [pl, pl];
    assert ps[0].writesBody && Declares(ps[1]);
  }

  // ----- What readers see -----

  ghost predicate NeverSets(prog: Program<Action>) {
    forall t :: !prog.act(t).DoSetBody? && !prog.act(t).DoSetResponseBody?
  }

  /** Only plugins that declare it rewrite a body. */
  ghost predicate KeepsWord(pl: Plugin) {
    !pl.writesBody ==> forall kind :: Hook(pl, kind).Some? ==> NeverSets(Hook(pl, kind).value)
  }

  lemma {:induction false} StepsKeepMessage(prog: Program<Action>, n: nat, seen: seq<Message>, c: Ctx)
    requires NeverSets(prog)
    ensures Steps(prog, n, seen, c).0.message == c.message
    decreases n
  {
    if n > 0 {
      var t := seen + [c.message];
      assert !prog.act(t).DoSetBody?;
      StepsKeepMessage(prog, n - 1, t, Performed(c, prog.act(t)));
    }
  }

  lemma VisitKeepsMessage(s: Slot, kind: Kind, hook: Program<Action>, c: Ctx)
    requires NeverSets(hook)
    ensures Visited(s, kind, hook, c).0.message == c.message
  {
    var c1 := Entered(s, kind, c);
    StepsKeepMessage(hook, hook.len(c1.message), [], c1);
  }

  ghost predicate AllKeepWord(slots: seq<Slot>) {
    forall i :: 0 <= i < |slots| ==> KeepsWord(slots[i].plugin)
  }

  /** Whoever declares body access was entered with the original request bytes. */
  ghost predicate SawOriginal(calls: seq<Call>, original: Bytes) {
    forall i :: 0 <= i < |calls| && Declares(calls[i].slot.plugin) ==> calls[i].entered.body == original
  }

  /** Every reader that is not a mutator was entered with the given response bytes. */
  ghost predicate SawFinal(calls: seq<Call>, final: Bytes) {
    forall i :: 0 <= i < |calls| && OnlyReads(calls[i].slot.plugin) ==>
      calls[i].entered.responseBody == final
  }

  /** Before the mutator nothing has changed; after it, nobody is left who declares an interest. */
  lemma {:induction false} WalkShowsOriginal(slots: seq<Slot>, k: nat, live: nat -> bool, c: Ctx, original: Bytes)
    requires AllKeepWord(slots)
    requires forall i, j :: 0 <= i < j < |slots| && slots[i].plugin.writesBody ==> !Declares(slots[j].plugin)
    requires c.message.body == original || forall i :: 0 <= i < |slots| ==> !Declares(slots[i].plugin)
    ensures SawOriginal(Walk(slots, OnRequest, k, live, c).calls, original)
    decreases |slots|
  {
    if slots != [] {
      var s := slots[0];
      if Skips(s, OnRequest) {
        WalkShowsOriginal(slots[1..], k, live, c, original);
      } else if live(k) {
        var hook := s.plugin.onRequest;
        var (c', stop) := Visited(s, OnRequest, hook, c);
        if stop.None? {
          assert KeepsWord(s.plugin) && Hook(s.plugin, OnRequest).Some?;
          if !s.plugin.writesBody {
            VisitKeepsMessage(s, OnRequest, hook, c);
          }
          WalkShowsOriginal(slots[1..], k + 1, live, c', original);
        }
      }
    }
  }

  /** In every accepted pipeline with nothing hidden from the check, every plugin that declares body
      access enters OnRequest seeing the request as it arrived. */
  lemma RequestReadersSeeOriginal(p: Pipe, live: nat -> bool, c: Ctx)
    requires NamedOrdered(p.plugins) && NothingHidden(p.plugins)
    requires forall i :: 0 <= i < |p.plugins| ==> KeepsWord(p.plugins[i])
    ensures SawOriginal(Phased(p, OnRequest, live, c).calls, c.message.body)
  {
    CapabilityCheckIsRightIff(p.plugins);
    WalkShowsOriginal(Slots(p, OnRequest), 0, live, c, c.message.body);
  }

  lemma {:induction false} WalkKeepsMessage(slots: seq<Slot>, kind: Kind, k: nat, live: nat -> bool, c: Ctx)
    requires AllKeepWord(slots)
    requires forall i :: 0 <= i < |slots| ==> !slots[i].plugin.writesBody
    ensures Walk(slots, kind, k, live, c).ctx.message == c.message
    decreases |slots|
  {
    if slots != [] {
      var s := slots[0];
      var hook := Hook(s.plugin, kind);
      if Skips(s, kind) {
        WalkKeepsMessage(slots[1..], kind, k, live, c);
      } else if live(k) {
        if hook.None? {
          WalkKeepsMessage(slots[1..], kind, k + 1, live, c);
        } else {
          assert KeepsWord(s.plugin);
          VisitKeepsMessage(s, kind, hook.value, c);
          WalkKeepsMessage(slots[1..], kind, k + 1, live, Visited(s, kind, hook.value, c).0);
        }
      }
    }
  }

  /** In reverse order readers come after the mutator, so what they see is what is sent. */
  lemma {:induction false} WalkShowsFinal(slots: seq<Slot>, k: nat, live: nat -> bool, c: Ctx)
    requires AllKeepWord(slots)
    requires forall i, j :: 0 <= i < j < |slots| && slots[j].plugin.writesBody ==> !OnlyReads(slots[i].plugin)
    ensures var w := Walk(slots, OnResponse, k, live, c); SawFinal(w.calls, w.ctx.message.responseBody)
    decreases |slots|
  {
    if slots != [] {
      var s := slots[0];
      if Skips(s, OnResponse) {
        WalkShowsFinal(slots[1..], k, live, c);
      } else if live(k) {
        var hook := s.plugin.onResponse;
        assert Hook(s.plugin, OnResponse) == Some(hook);
        var (c', stop) := Visited(s, OnResponse, hook, c);
        assert KeepsWord(s.plugin);
        if OnlyReads(s.plugin) {
          VisitKeepsMessage(s, OnResponse, hook, c);
          WalkKeepsMessage(slots[1..], OnResponse, k + 1, live, c');
        }
        if stop.None? {
          WalkShowsFinal(slots[1..], k + 1, live, c');
        }
      }
    }
  }

  /** No plugin that only reads is hidden behind a mutator. */
  ghost predicate NoReaderHidden(ps: seq<Plugin>) {
    forall i, j :: 0 <= i < j < |ps| && OnlyReads(ps[j]) ==> !Hidden(ps, i, j)
  }

  /** In every accepted pipeline without a reader hidden from the check, every reader other than a mutator
      enters OnResponse seeing the bytes RunResponse leaves. */
  lemma ResponseReadersSeeFinal(p: Pipe, live: nat -> bool, c: Ctx)
    requires NamedOrdered(p.plugins) && NoReaderHidden(p.plugins)
    requires forall i :: 0 <= i < |p.plugins| ==> KeepsWord(p.plugins[i])
    ensures var w := Phased(p, OnResponse, live, c); SawFinal(w.calls, w.ctx.message.responseBody)
  {
    var n, ps, slots := |p.plugins|, p.plugins, Slots(p, OnResponse);
    forall i, j | 0 <= i < j < n && ps[i].writesBody
      ensures !OnlyReads(ps[j])
    {
      assert OnlyReads(ps[j]) ==> !Hidden(ps, i, j);
    }
    forall k | 0 <= k < n
      ensures slots[k] == SlotOf(p, n - 1 - k)
    {
      BackwardAt(p, n, k);
    }
    WalkShowsFinal(slots, 0, live, c);
  }

  // ----- The conditions are exact -----

  /** The same declarations; the hooks may differ. */
  ghost predicate DeclaresAlike(ps: seq<Plugin>, qs: seq<Plugin>) {
    |ps| == |qs| && forall i :: 0 <= i < |ps| ==>
      ps[i].name == qs[i].name && ps[i].readsBody == qs[i].readsBody && ps[i].writesBody == qs[i].writesBody
  }

  /** A pipeline of plugins with these declarations, which keep their word. */
  ghost predicate Realizes(p: Pipe, ps: seq<Plugin>) {
    DeclaresAlike(p.plugins, ps) && forall i :: 0 <= i < |ps| ==> KeepsWord(p.plugins[i])
  }

  /** Whatever plugins with these declarations do. */
  ghost predicate OriginalGuaranteed(ps: seq<Plugin>) {
    forall p, live, c :: Realizes(p, ps) ==>
      SawOriginal(Phased(p, OnRequest, live, c).calls, c.message.body)
  }

  ghost predicate FinalGuaranteed(ps: seq<Plugin>) {
    forall p, live, c :: Realizes(p, ps) ==>
      SawFinal(Phased(p, OnResponse, live, c).calls, Phased(p, OnResponse, live, c).ctx.message.responseBody)
  }

  const Rewritten := Message([1], [1])

  function RewritingStep(t: seq<Message>): Command {
    if |t| == 1 then DoSetBody([1]) else DoSetResponseBody([1])
  }

  function RewritingHook(): Program<Action> {
    Program(_ => 2, RewritingStep, _ => Continue)
  }

  function Script(writes: bool): Program<Action> {
    if writes then RewritingHook() else IdleHook()
  }

  /** The plugin at `i` rewrites both bodies; the others do nothing. */
  function Scripted(ps: seq<Plugin>, i: nat): (qs: seq<Plugin>)
    ensures |qs| == |ps|
    ensures forall k :: 0 <= k < |ps| ==> qs[k] == ps[k].(onRequest := Script(k == i), onResponse := Script(k == i), onFrame := None)
  {
    seq(|ps|, k requires 0 <= k < |ps| => ps[k].(onRequest := Script(k == i), onResponse := Script(k == i), onFrame := None))
  }

  lemma ScriptedKeepsWord(ps: seq<Plugin>, i: nat, k: nat)
    requires i < |ps| && ps[i].writesBody && k < |ps|
    ensures KeepsWord(Scripted(ps, i)[k])
  {
  }

  lemma BodySetWrites(c: Ctx, b: Bytes)
    requires !c.ledger.inFinish && c.stamp.policy == Enforce
    ensures var d := BodySet(c, b); d.message == c.message.(body := b) && d.ledger == c.ledger && d.stamp == c.stamp
    ensures var d := ResponseBodySet(c, b); d.message == c.message.(responseBody := b) && d.ledger == c.ledger && d.stamp == c.stamp
  {
  }

  lemma ScriptRuns(writes: bool, c: Ctx)
    requires !c.ledger.inFinish && c.stamp.policy == Enforce
    ensures var (d, a) := Ran(Script(writes), c);
            a == Continue && d.ledger == c.ledger && d.message == if writes then Rewritten else c.message
  {
    if writes {
      var h, t := RewritingHook(), [] + [c.message];
      var d := BodySet(c, [1]);
      BodySetWrites(c, [1]);
      BodySetWrites(d, [1]);
      assert h.act(t) == DoSetBody([1]) && h.act(t + [d.message]) == DoSetResponseBody([1]);
      var e := ResponseBodySet(d, [1]);
      assert Steps(h, 0, t + [d.message], e).0 == e;
      assert Steps(h, 1, t, d).0 == e;
      assert Steps(h, 2, [], c).0 == e;
    }
  }

  lemma ScriptVisited(s: Slot, kind: Kind, writes: bool, c: Ctx)
    requires !c.ledger.inFinish && s.policy == Enforce
    ensures var (d, stop) := Visited(s, kind, Script(writes), c);
            stop == None && !d.ledger.inFinish && d.message == if writes then Rewritten else c.message
  {
    ScriptRuns(writes, Entered(s, kind, c));
  }

  ghost predicate OnScript(slots: seq<Slot>, i: nat, kind: Kind) {
    forall a :: 0 <= a < |slots| ==>
      slots[a].policy == Enforce && !Skips(slots[a], kind) && Hook(slots[a].plugin, kind) == Some(Script(slots[a].index == i))
  }

  /** One scripted turn, and the rest of the phase. */
  lemma ScriptedTurn(slots: seq<Slot>, i: nat, kind: Kind, k: nat, live: nat -> bool, c: Ctx)
    requires slots != [] && OnScript(slots, i, kind) && Live(live) && !c.ledger.inFinish
    ensures var d := Visited(slots[0], kind, Script(slots[0].index == i), c).0;
            && OnScript(slots[1..], i, kind) && !d.ledger.inFinish
            && d.message == (if slots[0].index == i then Rewritten else c.message)
            && Walk(slots, kind, k, live, c) == After(Call(slots[0], c.message), Walk(slots[1..], kind, k + 1, live, d))
  {
    assert live(k);
    ScriptVisited(slots[0], kind, slots[0].index == i, c);
  }

  /** Everybody was called; those up to `at` saw `first`, the others the rewritten message. */
  ghost predicate CallsSaw(calls: seq<Call>, slots: seq<Slot>, at: int, first: Message) {
    |calls| == |slots| && forall a :: 0 <= a < |slots| ==> calls[a] == Call(slots[a], if a <= at then first else Rewritten)
  }

  lemma CallsSawCons(calls: seq<Call>, slots: seq<Slot>, at: int, first: Message)
    requires slots != [] && CallsSaw(calls, slots[1..], at, first) && at >= -1
    ensures CallsSaw([Call(slots[0], first)] + calls, slots, at + 1, first)
  {
  }

  lemma {:induction false} WalkAfterScript(slots: seq<Slot>, i: nat, kind: Kind, k: nat, live: nat -> bool, c: Ctx)
    requires OnScript(slots, i, kind) && Live(live) && !c.ledger.inFinish && c.message == Rewritten
    ensures var w := Walk(slots, kind, k, live, c);
            w.ctx.message == Rewritten && forall first :: CallsSaw(w.calls, slots, -1, first)
    decreases |slots|
  {
    if slots != [] {
      ScriptedTurn(slots, i, kind, k, live, c);
      var d := Visited(slots[0], kind, Script(slots[0].index == i), c).0;
      WalkAfterScript(slots[1..], i, kind, k + 1, live, d);
      var w := Walk(slots[1..], kind, k + 1, live, d);
      assert CallsSaw(w.calls, slots[1..], -1, Rewritten);
    }
  }

  /** Up to plugin `i` everybody sees the message as it was, after it everybody sees it rewritten. */
  lemma {:induction false} ScriptedWalk(slots: seq<Slot>, i: nat, kind: Kind, k: nat, live: nat -> bool, c: Ctx, at: nat)
    requires OnScript(slots, i, kind) && Live(live) && !c.ledger.inFinish
    requires at < |slots| && forall a :: 0 <= a <= at ==> (slots[a].index == i <==> a == at)
    ensures var w := Walk(slots, kind, k, live, c); w.ctx.message == Rewritten && CallsSaw(w.calls, slots, at, c.message)
    decreases |slots|
  {
    ScriptedTurn(slots, i, kind, k, live, c);
    var d := Visited(slots[0], kind, Script(slots[0].index == i), c).0;
    if at == 0 {
      WalkAfterScript(slots[1..], i, kind, k + 1, live, d);
    } else {
      ScriptedWalk(slots[1..], i, kind, k + 1, live, d, at - 1);
    }
    CallsSawCons(Walk(slots[1..], kind, k + 1, live, d).calls, slots, at - 1, c.message);
  }

  /** The position of plugin `i` in the order of a phase. */
  function PlaceOf(n: nat, kind: Kind, i: nat): nat
    requires i < n
  {
    if kind.OnRequest? then i else n - 1 - i
  }

  lemma SlotAtPlace(p: Pipe, kind: Kind, i: nat)
    requires i < |p.plugins|
    ensures Slots(p, kind)[PlaceOf(|p.plugins|, kind, i)] == SlotOf(p, i)
  {
    if !kind.OnRequest? {
      BackwardAt(p, |p.plugins|, |p.plugins| - 1 - i);
    }
  }

  lemma ScriptedSlots(ps: seq<Plugin>, i: nat, kind: Kind)
    requires i < |ps| && !kind.OnFrame?
    ensures var p := Pipe(Scripted(ps, i), []);
            && |Slots(p, kind)| == |ps| && OnScript(Slots(p, kind), i, kind)
            && forall a :: 0 <= a < |ps| ==> (Slots(p, kind)[a].index == i <==> a == PlaceOf(|ps|, kind, i))
  {
    var p := Pipe(Scripted(ps, i), []);
    forall a | 0 <= a < |ps|
      ensures Slots(p, kind)[a] == SlotOf(p, PlaceOf(|ps|, kind, a))
    {
      SlotAtPlace(p, kind, PlaceOf(|ps|, kind, a));
    }
  }

  /** What a scripted pipeline shows to the plugin at `j`. */
  lemma ScriptedPhase(ps: seq<Plugin>, i: nat, kind: Kind, live: nat -> bool, c: Ctx, j: nat)
    requires i < |ps| && j < |ps| && !kind.OnFrame? && Live(live) && !c.ledger.inFinish
    ensures var p, n := Pipe(Scripted(ps, i), []), |ps|;
            var w := Phased(p, kind, live, c);
            && |w.calls| == n && w.ctx.message == Rewritten
            && w.calls[PlaceOf(n, kind, j)] ==
               Call(SlotOf(p, j), if PlaceOf(n, kind, j) <= PlaceOf(n, kind, i) then c.message else Rewritten)
  {
    var p, n := Pipe(Scripted(ps, i), []), |ps|;
    ScriptedSlots(ps, i, kind);
    ScriptedWalk(Slots(p, kind), i, kind, 0, live, c, PlaceOf(n, kind, i));
    SlotAtPlace(p, kind, j);
  }

  lemma ScriptedRealizes(ps: seq<Plugin>, i: nat)
    requires i < |ps| && ps[i].writesBody
    ensures Realizes(Pipe(Scripted(ps, i), []), ps)
  {
    forall k | 0 <= k < |ps|
      ensures KeepsWord(Scripted(ps, i)[k])
    {
      ScriptedKeepsWord(ps, i, k);
    }
  }

  /** A mutator before anything that declares body access can always spoil it. */
  lemma EarlierMutatorSpoilsRequest(ps: seq<Plugin>, i: nat, j: nat)
    requires i < j < |ps| && ps[i].writesBody && Declares(ps[j])
    ensures !OriginalGuaranteed(ps)
  {
    var p, live, c := Pipe(Scripted(ps, i), []), (_: nat) => true, Fresh(Inbound, []);
    ScriptedRealizes(ps, i);
    ScriptedPhase(ps, i, OnRequest, live, c, j);
    var calls := Phased(p, OnRequest, live, c).calls;
    assert Declares(calls[j].slot.plugin) && calls[j].entered.body != c.message.body;
    assert !SawOriginal(calls, c.message.body);
  }

  lemma EarlierMutatorSpoilsResponse(ps: seq<Plugin>, i: nat, j: nat)
    requires i < j < |ps| && ps[i].writesBody && OnlyReads(ps[j])
    ensures !FinalGuaranteed(ps)
  {
    var p, live, c := Pipe(Scripted(ps, i), []), (_: nat) => true, Fresh(Inbound, []);
    ScriptedRealizes(ps, i);
    ScriptedPhase(ps, i, OnResponse, live, c, j);
    assert !SawFinal(Phased(p, OnResponse, live, c).calls, Phased(p, OnResponse, live, c).ctx.message.responseBody);
  }

  lemma AlikeChecked(ps: seq<Plugin>, qs: seq<Plugin>)
    requires DeclaresAlike(qs, ps)
    ensures NamedOrdered(ps) <==> NamedOrdered(qs)
    ensures NothingHidden(ps) <==> NothingHidden(qs)
    ensures NoReaderHidden(ps) <==> NoReaderHidden(qs)
  {
    assert forall i, j :: 0 <= i < j < |ps| ==> (Hidden(ps, i, j) <==> Hidden(qs, i, j));
  }

  /** For what the check accepts: request readers are sure to see the original bytes, whatever the plugins
      do within their declarations, if and only if nothing is hidden from the check. */
  lemma OriginalGuaranteedIff(ps: seq<Plugin>)
    requires NamedOrdered(ps)
    ensures OriginalGuaranteed(ps) <==> NothingHidden(ps)
  {
    if NothingHidden(ps) {
      forall p, live, c | Realizes(p, ps)
        ensures SawOriginal(Phased(p, OnRequest, live, c).calls, c.message.body)
      {
        AlikeChecked(ps, p.plugins);
        RequestReadersSeeOriginal(p, live, c);
      }
    } else {
      var i, j :| 0 <= i < j < |ps| && Hidden(ps, i, j);
      EarlierMutatorSpoilsRequest(ps, i, j);
    }
  }

  /** And response readers are sure to see the final bytes if and only if no reader is hidden from it. */
  lemma FinalGuaranteedIff(ps: seq<Plugin>)
    requires NamedOrdered(ps)
    ensures FinalGuaranteed(ps) <==> NoReaderHidden(ps)
  {
    if NoReaderHidden(ps) {
      forall p, live, c | Realizes(p, ps)
        ensures SawFinal(Phased(p, OnResponse, live, c).calls, Phased(p, OnResponse, live, c).ctx.message.responseBody)
      {
        AlikeChecked(ps, p.plugins);
        ResponseReadersSeeFinal(p, live, c);
      }
    } else {
      var i, j :| 0 <= i < j < |ps| && OnlyReads(ps[j]) && Hidden(ps, i, j);
      EarlierMutatorSpoilsResponse(ps, i, j);
    }
  }
}
