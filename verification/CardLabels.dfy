/**
 Propagating per-card verification state to a workload: each card keeps its own annotation on the
 workload, and the pod-template label says whether all of them are verified. Several reconcilers
 read, modify and write the same object; an update carrying a stale resource version is refused,
 and the reconciler starts over from a fresh read.
 */
module CardLabels {
  import opened Common

  type Strings = map<string, string>

  const LABEL: string := "agent.kagenti.dev/signature-verified"
  const LAST_VERIFIED_STATE: string := "agent.kagenti.dev/last-verified-state"
  const PREFIX: string := "verified-state.agent.kagenti.dev/"

  /** The parts of a workload that matter here: object annotations and pod-template labels. */
  datatype Workload = Workload(annotations: Strings, labels: Strings)

  function Lookup(m: Strings, k: string): string {
    if k in m then m[k] else ""
  }

  predicate PerCard(k: string) {
    |PREFIX| <= |k| && k[..|PREFIX|] == PREFIX
  }

  function Key(card: string): string {
    PREFIX + card
  }

  lemma KeysAreFaithful(card: string, other: string)
    ensures PerCard(Key(card)) && (Key(card) == Key(other) ==> card == other)
    ensures !PerCard(LAST_VERIFIED_STATE)
  {
    assert Key(card)[..|PREFIX|] == PREFIX;
    assert Key(card)[|PREFIX|..] == card && Key(other)[|PREFIX|..] == other;
    assert PREFIX[0] == 'v' && LAST_VERIFIED_STATE[0] == 'a';
  }

  lemma PerCardKeysHaveCards(k: string)
    requires PerCard(k)
    ensures k == Key(k[|PREFIX|..])
  {
  }

  /** At least one card has an annotation, and every card's annotation is "true". */
  ghost predicate AllVerified(annotations: Strings) {
    && (exists k :: k in annotations && PerCard(k))
    && (forall k :: k in annotations && PerCard(k) ==> annotations[k] == "true")
  }

  method AggregateVerifiedState(annotations: Strings) returns (r: bool)
    ensures r <==> AllVerified(annotations)
  {
    var found := false;
    var rest := annotations.Keys;
    while rest != {}
      invariant rest <= annotations.Keys
      invariant found <==> exists k :: k in annotations && k !in rest && PerCard(k)
      invariant forall k :: k in annotations && k !in rest && PerCard(k) ==> annotations[k] == "true"
      decreases |rest|
    {
      var k :| k in rest;
      rest := rest - {k};
      if PerCard(k) {
        found := true;
        if annotations[k] != "true" {
          return false;
        }
      }
    }
    r := found;
  }

  // ----- The two edits -----

  ghost predicate LabelCorrect(w: Workload) {
    Lookup(w.labels, LABEL) == "true" <==> AllVerified(w.annotations)
  }

  ghost function Relabelled(annotations: Strings, labels: Strings): Workload {
    Workload(annotations, if AllVerified(annotations) then labels[LABEL := "true"] else labels - {LABEL})
  }

  function State(verified: bool): string {
    if verified then "true" else "false"
  }

  /** The write a propagation wants to make, if any. */
  ghost function Propagated(w: Workload, card: string, verified: bool): Option<Workload> {
    if Lookup(w.annotations, Key(card)) == State(verified) &&
       Lookup(w.labels, LABEL) == (if AllVerified(w.annotations) then "true" else "") then None
    else Some(Relabelled(w.annotations[Key(card) := State(verified)] - {LAST_VERIFIED_STATE}, w.labels))
  }

  /** The write a card's cleanup wants to make, if any. */
  ghost function CleanedUp(w: Workload, card: string): Option<Workload> {
    if Key(card) !in w.annotations then None
    else Some(Relabelled(w.annotations - {Key(card)}, w.labels))
  }

  /** A reconciler's own copy of the workload, as fetched; nil maps are empty ones. */
  class Object {
    var annotations: Strings
    var labels: Strings

    ghost function Value(): Workload
      reads this
    {
      Workload(annotations, labels)
    }

    constructor (w: Workload)
      ensures Value() == w
    {
      annotations, labels := w.annotations, w.labels;
    }

    method Relabel()
      modifies this`labels
      ensures Value() == Relabelled(annotations, old(labels))
    {
      var aggregated := AggregateVerifiedState(annotations);
      if aggregated {
        labels := labels[LABEL := "true"];
      } else {
        labels := labels - {LABEL};
      }
    }

    /** Edits the copy for a propagation; returns whether it is to be written. */
    method Propagate(card: string, verified: bool) returns (write: bool)
      modifies this
      ensures write <==> Propagated(old(Value()), card, verified).Some?
      ensures Value() == if write then Propagated(old(Value()), card, verified).value else old(Value())
    {
      var perCardAnno, desiredState := PREFIX + card, if verified then "true" else "false";
      if Lookup(annotations, perCardAnno) == desiredState {
        var aggregated := AggregateVerifiedState(annotations);
        var currentLabel := Lookup(labels, LABEL);
        if (aggregated && currentLabel == "true") || (!aggregated && currentLabel == "") {
          return false;
        }
      }
      annotations := annotations[perCardAnno := desiredState];
      annotations := annotations - {LAST_VERIFIED_STATE};
      Relabel();
      write := true;
    }

    method CleanUp(card: string) returns (write: bool)
      modifies this
      ensures write <==> CleanedUp(old(Value()), card).Some?
      ensures Value() == if write then CleanedUp(old(Value()), card).value else old(Value())
    {
      var perCardAnno := PREFIX + card;
      if perCardAnno !in annotations {
        return false;
      }
      annotations := annotations - {perCardAnno};
      Relabel();
      write := true;
    }
  }

  // ----- Concurrent reconcilers -----

  datatype Edit = Propagation(card: string, verified: bool) | Removal(card: string)

  ghost function Edited(w: Workload, e: Edit): Option<Workload> {
    match e
    case Propagation(card, verified) => Propagated(w, card, verified)
    case Removal(card) => CleanedUp(w, card)
  }

  /** An attempt between its read and its write. */
  datatype Pending = Pending(edit: Edit, copy: Workload, version: nat)

  /** The stored object and its resource version, the attempts under way, and the edits committed. */
  datatype System = System(stored: Workload, version: nat, pending: map<nat, Pending>, commits: seq<Edit>)

  datatype Step =
    | Read(reconciler: nat, edit: Edit)
    | Write(reconciler: nat)              // succeeds, is refused as stale, or turns out unnecessary
    | Foreign(next: Workload)             // some other writer

  /** Other writers leave the per-card annotations and the label alone. */
  ghost predicate HandsOff(w: Workload, w': Workload) {
    && (forall k :: PerCard(k) ==> ((k in w.annotations) == (k in w'.annotations)))
    && (forall k :: PerCard(k) && k in w.annotations && k in w'.annotations ==> w.annotations[k] == w'.annotations[k])
    && Lookup(w.labels, LABEL) == Lookup(w'.labels, LABEL)
  }

  ghost predicate Enabled(s: System, step: Step) {
    match step
    case Read(_, _) => true
    case Write(r) => r in s.pending
    case Foreign(w) => HandsOff(s.stored, w)
  }

  ghost function Next(s: System, step: Step): System
    requires Enabled(s, step)
  {
    match step
    case Read(r, e) => s.(pending := s.pending[r := Pending(e, s.stored, s.version)])
    case Write(r) =>
      var a := s.pending[r];
      var w := Edited(a.copy, a.edit);
      if w.Some? && a.version == s.version
      then System(w.value, s.version + 1, s.pending - {r}, s.commits + [a.edit])
      else s.(pending := s.pending - {r})
    case Foreign(w) => s.(stored := w, version := s.version + 1)
  }

  ghost predicate Runnable(w: Workload, steps: seq<Step>)
    decreases |steps|, 0
  {
    steps == [] || (Runnable(w, steps[..|steps| - 1]) && Enabled(After(w, steps[..|steps| - 1]), steps[|steps| - 1]))
  }

  ghost function After(w: Workload, steps: seq<Step>): System
    requires Runnable(w, steps)
    decreases |steps|, 1
  {
    if steps == [] then System(w, 0, map[], []) else Next(After(w, steps[..|steps| - 1]), steps[|steps| - 1])
  }

  /** A copy whose version is current is current. */
  ghost predicate CopiesFresh(s: System) {
    forall r :: r in s.pending ==>
      s.pending[r].version <= s.version && (s.pending[r].version == s.version ==> s.pending[r].copy == s.stored)
  }

  lemma {:induction false} CurrentVersionMeansCurrentCopy(w: Workload, steps: seq<Step>)
    requires Runnable(w, steps)
    ensures CopiesFresh(After(w, steps))
    decreases |steps|
  {
    if steps != [] {
      CurrentVersionMeansCurrentCopy(w, steps[..|steps| - 1]);
    }
  }

  /** From the committed edits alone: a card's state, None once removed. */
  function Committed(commits: seq<Edit>, card: string, initial: Option<string>): Option<string> {
    if commits == [] then initial
    else
      var e := commits[|commits| - 1];
      if e.card != card then Committed(commits[..|commits| - 1], card, initial)
      else if e.Propagation? then Some(State(e.verified)) else None
  }

  function Annotation(w: Workload, card: string): Option<string> {
    if Key(card) in w.annotations then Some(w.annotations[Key(card)]) else None
  }

  /** An edit sets its own card's annotation and no other's, and leaves the label correct. */
  lemma EditIsLocal(w: Workload, e: Edit, card: string)
    requires Edited(w, e).Some?
    ensures Annotation(Edited(w, e).value, card) ==
            if e.card != card then Annotation(w, card) else if e.Propagation? then Some(State(e.verified)) else None
    ensures LabelCorrect(Edited(w, e).value)
  {
    KeysAreFaithful(card, e.card);
  }

  /** The workload after an attempt that nobody interfered with. */
  ghost function Settled(w: Workload, e: Edit): Workload {
    var r := Edited(w, e);
    if r.Some? then r.value else w
  }

  /** An attempt that nobody interferes with does its job: a propagation leaves the card's annotation at the state given and
      the label "true" if some card has an annotation and all are "true", and absent or empty otherwise; a removal leaves
      the card without one. */
  lemma UndisturbedAttemptTakesEffect(w: Workload, e: Edit)
    ensures e.Propagation? ==>
              var w' := Settled(w, e);
              && Annotation(w', e.card) == Some(if e.verified then "true" else "false")
              && Lookup(w'.labels, LABEL) == if AllVerified(w'.annotations) then "true" else ""
    ensures e.Removal? ==> Annotation(Settled(w, e), e.card) == None
    ensures e.Removal? && Annotation(w, e.card).Some? ==>
              Lookup(Settled(w, e).labels, LABEL) == if AllVerified(Settled(w, e).annotations) then "true" else ""
  {
    KeysAreFaithful(e.card, e.card);
    if e.Propagation? && Edited(w, e).None? {
      assert Lookup(w.annotations, Key(e.card)) == State(e.verified) != "";
    }
  }

  /** Nothing but the card's own annotation, the legacy annotation and the label is touched; the legacy one goes when a
      propagation is written. */
  lemma EditTouchesNothingElse(w: Workload, e: Edit, k: string)
    requires Edited(w, e).Some?
    ensures var w' := Edited(w, e).value;
            && (k != Key(e.card) && k != LAST_VERIFIED_STATE ==> ((k in w'.annotations) <==> (k in w.annotations)) && (k in w.annotations ==> w'.annotations[k] == w.annotations[k]))
            && (e.Propagation? ==> LAST_VERIFIED_STATE !in w'.annotations)
            && (k != LABEL ==> ((k in w'.labels) <==> (k in w.labels)) && (k in w.labels ==> w'.labels[k] == w.labels[k]))
  {
  }

  /** Under any interleaving no card's committed state is lost to another card's stale write: each
      card's annotation is what that card last committed. */
  lemma {:induction false} NoCommitIsLost(w: Workload, steps: seq<Step>, card: string)
    requires Runnable(w, steps)
    ensures Annotation(After(w, steps).stored, card) == Committed(After(w, steps).commits, card, Annotation(w, card))
    decreases |steps|
  {
    if steps != [] {
      var before, step := steps[..|steps| - 1], steps[|steps| - 1];
      var s := After(w, before);
      NoCommitIsLost(w, before, card);
      match step
      case Read(_, _) =>
      case Foreign(_) => KeysAreFaithful(card, card);
      case Write(r) =>
        CurrentVersionMeansCurrentCopy(w, before);
        var a := s.pending[r];
        if Edited(a.copy, a.edit).Some? && a.version == s.version {
          EditIsLocal(s.stored, a.edit, card);
          assert (s.commits + [a.edit])[..|s.commits|] == s.commits;
        }
    }
  }

  lemma HandsOffKeepsLabel(w: Workload, w': Workload)
    requires HandsOff(w, w') && LabelCorrect(w)
    ensures LabelCorrect(w')
  {
    if AllVerified(w.annotations) {
      var k :| k in w.annotations && PerCard(k);
      assert k in w'.annotations;
    }
    if AllVerified(w'.annotations) {
      var k :| k in w'.annotations && PerCard(k);
      assert k in w.annotations;
    }
  }

  /** From the first commit on, at every moment, the label is "true" exactly when some card has an
      annotation and all cards' annotations are "true". */
  lemma {:induction false} LabelIsAlwaysCorrect(w: Workload, steps: seq<Step>)
    requires Runnable(w, steps)
    ensures LabelCorrect(w) || After(w, steps).commits != [] ==> LabelCorrect(After(w, steps).stored)
    decreases |steps|
  {
    if steps != [] {
      var before, step := steps[..|steps| - 1], steps[|steps| - 1];
      var s := After(w, before);
      LabelIsAlwaysCorrect(w, before);
      match step
      case Read(_, _) =>
      case Foreign(next) =>
        if LabelCorrect(s.stored) {
          HandsOffKeepsLabel(s.stored, next);
        }
      case Write(r) =>
        CurrentVersionMeansCurrentCopy(w, before);
        var a := s.pending[r];
        if Edited(a.copy, a.edit).Some? && a.version == s.version {
          EditIsLocal(s.stored, a.edit, "");
        }
    }
  }

  /** Some card's last commit says verified, and no card's last commit says otherwise. */
  ghost predicate EveryCardVerified(commits: seq<Edit>) {
    && (exists card :: Committed(commits, card, None) == Some("true"))
    && (forall card :: Committed(commits, card, None) != Some("false"))
  }

  lemma AnnotationsSpeakForCommits(w: Workload, commits: seq<Edit>)
    requires forall card :: Annotation(w, card) == Committed(commits, card, None)
    ensures AllVerified(w.annotations) <==> EveryCardVerified(commits)
  {
    var a := w.annotations;
    if AllVerified(a) {
      var k :| k in a && PerCard(k);
      PerCardKeysHaveCards(k);
      assert Annotation(w, k[|PREFIX|..]) == Some("true");
      forall card
        ensures Committed(commits, card, None) != Some("false")
      {
        KeysAreFaithful(card, card);
        assert Annotation(w, card) == Committed(commits, card, None);
      }
    }
    if EveryCardVerified(commits) {
      var card :| Committed(commits, card, None) == Some("true");
      KeysAreFaithful(card, card);
      assert Annotation(w, card) == Some("true");
      forall k | k in a && PerCard(k)
        ensures a[k] == "true"
      {
        PerCardKeysHaveCards(k);
        assert Annotation(w, k[|PREFIX|..]) == Some(a[k]);
        CommittedIsState(commits, k[|PREFIX|..]);
      }
    }
  }

  /** So, on a workload that carried no card state at first, the label reads "true" exactly when every
      card that has a say was last committed as verified. */
  lemma LabelMeansEveryCardVerified(w: Workload, steps: seq<Step>)
    requires Runnable(w, steps) && After(w, steps).commits != []
    requires forall k :: k in w.annotations ==> !PerCard(k)
    ensures Lookup(After(w, steps).stored.labels, LABEL) == "true" <==> EveryCardVerified(After(w, steps).commits)
  {
    var s := After(w, steps);
    LabelIsAlwaysCorrect(w, steps);
    forall card
      ensures Annotation(s.stored, card) == Committed(s.commits, card, None)
    {
      KeysAreFaithful(card, card);
      NoCommitIsLost(w, steps, card);
    }
    AnnotationsSpeakForCommits(s.stored, s.commits);
  }

  lemma {:induction false} CommittedIsState(commits: seq<Edit>, card: string)
    ensures Committed(commits, card, None) in {None, Some("true"), Some("false")}
  {
    if commits != [] {
      CommittedIsState(commits[..|commits| - 1], card);
    }
  }
}
