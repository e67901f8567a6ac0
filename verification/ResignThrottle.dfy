/**
 Proactive restarts of a workload so that it is signed anew: when its leaf certificate is about to
 expire, or when the trust bundle changed. Two annotations throttle this: the time of the last
 restart and the leaf expiry it was made for, both stored as text with whole-second resolution
 (section 5.6 of RFC 3339). Times are in nanoseconds.
 */
module ResignThrottle {
  import opened Common

  const SECOND: int := 1_000_000_000
  const DEFAULT_GRACE: int := 30 * 60 * SECOND

  /** What formatting and parsing a time back preserves. */
  function Seconds(t: int): int {
    t / SECOND
  }

  lemma SecondsRound(t: int)
    ensures Seconds(t) * SECOND <= t < Seconds(t) * SECOND + SECOND
  {
  }

  lemma SecondsMonotone(t: int, u: int)
    requires t <= u
    ensures Seconds(t) <= Seconds(u)
  {
  }

  datatype Stamp = Absent | Malformed | At(seconds: int)

  datatype Workload = Workload(trigger: Stamp, leafExpiry: Option<int>, bundleHash: string)

  /** One reconcile: the clock when it checks the throttle, the leaf, and when it writes; the leaf's
      expiry if there is a leaf, and the current bundle hash. */
  datatype Look = Look(now: int, leafAt: int, writeAt: int, leaf: Option<int>, bundle: string)

  predicate Throttled(g: int, w: Workload, l: Look) {
    w.trigger.At? && l.now - w.trigger.seconds * SECOND < g
  }

  predicate Expiring(g: int, l: Look) {
    l.leaf.Some? && l.leaf.value - l.leafAt < g
  }

  predicate SameLeaf(w: Workload, l: Look) {
    l.leaf.Some? && w.leafExpiry == Some(Seconds(l.leaf.value))
  }

  predicate BundleChanged(w: Workload, l: Look) {
    w.bundleHash != "" && l.bundle != "" && w.bundleHash != l.bundle
  }

  datatype Verdict = Wait | AlreadyDone | Restart | NoNeed

  function Decided(g: int, w: Workload, l: Look): Verdict {
    if Throttled(g, w, l) then Wait
    else if Expiring(g, l) && SameLeaf(w, l) then AlreadyDone
    else if Expiring(g, l) || BundleChanged(w, l) then Restart
    else NoNeed
  }

  function Looked(g: int, w: Workload, l: Look): Workload {
    match Decided(g, w, l)
    case Restart =>
      Workload(At(Seconds(l.writeAt)), if l.leaf.Some? then Some(Seconds(l.leaf.value)) else w.leafExpiry, l.bundle)
    case NoNeed => if w.bundleHash == "" && l.bundle != "" then w.(bundleHash := l.bundle) else w
    case _ => w
  }

  /** The documentation says that either condition alone causes a restart. That is so if and only if
      neither holds, or the throttle is open and it is not that the leaf is expiring and was already acted
      upon; in that case even a changed trust bundle causes none. */
  lemma EitherConditionRestartsIff(g: int, w: Workload, l: Look)
    ensures (Decided(g, w, l) == Restart <==> Expiring(g, l) || BundleChanged(w, l))
            <==> ((!Expiring(g, l) && !BundleChanged(w, l)) || (!Throttled(g, w, l) && !(Expiring(g, l) && SameLeaf(w, l))))
  {
  }

  /** When exactly a workload is restarted, from its annotations and what is seen. */
  lemma RestartsExactlyWhen(g: int, w: Workload, l: Look)
    ensures var expiring := l.leaf.Some? && l.leaf.value - l.leafAt < g;
            var known := l.leaf.Some? && w.leafExpiry == Some(l.leaf.value / SECOND);
            var rotated := w.bundleHash != "" && l.bundle != "" && w.bundleHash != l.bundle;
            Decided(g, w, l) == Restart <==>
            && (w.trigger.At? ==> l.now - w.trigger.seconds * SECOND >= g) && (expiring || rotated) && !(expiring && known)
  {
  }

  /** What is left on the workload: after a restart the time, the leaf's expiry if there is a leaf, and the bundle's hash;
      otherwise nothing changes, except that a hash is recorded if none was, unless the throttle or a known leaf ended the
      matter first. */
  lemma LookLeaves(g: int, w: Workload, l: Look)
    ensures Decided(g, w, l) == Restart ==>
              Looked(g, w, l) == Workload(At(l.writeAt / SECOND), if l.leaf.Some? then Some(l.leaf.value / SECOND) else w.leafExpiry, l.bundle)
    ensures Decided(g, w, l) != Restart ==>
              var open := w.trigger.At? ==> l.now - w.trigger.seconds * SECOND >= g;
              var known := l.leaf.Some? && l.leaf.value - l.leafAt < g && w.leafExpiry == Some(l.leaf.value / SECOND);
              Looked(g, w, l) == if open && !known && w.bundleHash == "" then w.(bundleHash := l.bundle) else w
  {
  }

  /** A rotation is noticed however it comes: the first look outside the throttle records the bundle's hash, and a later one
      outside the throttle that finds another restarts, unless its leaf is expiring and known. */
  lemma RotationIsNoticed(g: int, w: Workload, first: Look, second: Look)
    requires w.bundleHash == "" && w.trigger == Absent && first.bundle != "" && second.bundle != "" && first.bundle != second.bundle
    requires !Throttled(g, Looked(g, w, first), second) && !(Expiring(g, first) && SameLeaf(w, first))
    requires !(Expiring(g, second) && SameLeaf(Looked(g, w, first), second))
    ensures Decided(g, Looked(g, w, first), second) == Restart
  {
  }

  // ----- Runs -----

  function After(g: int, w: Workload, looks: seq<Look>): Workload {
    if looks == [] then w else Looked(g, After(g, w, looks[..|looks| - 1]), looks[|looks| - 1])
  }

  /** The reconcile at `i` restarts the workload. */
  predicate Restarts(g: int, w: Workload, looks: seq<Look>, i: nat)
    requires i < |looks|
  {
    Decided(g, After(g, w, looks[..i]), looks[i]) == Restart
  }

  predicate ExpiryRestart(g: int, w: Workload, looks: seq<Look>, i: nat)
    requires i < |looks|
  {
    Restarts(g, w, looks, i) && Expiring(g, looks[i])
  }

  ghost predicate Monotone(looks: seq<Look>) {
    && (forall i :: 0 <= i < |looks| ==> looks[i].now <= looks[i].leafAt <= looks[i].writeAt)
    && (forall i, j :: 0 <= i < j < |looks| ==> looks[i].writeAt <= looks[j].now)
  }

  /** A run in which a rotated trust bundle goes unnoticed: the workload was restarted for its expiring
      leaf, the leaf stays, and the bundle changes after the grace period. */
  lemma RotationIsMissedForKnownLeaf(g: int)
    requires g > 0
    ensures exists looks: seq<Look> :: |looks| == 2 && Monotone(looks) &&
              var w := Workload(Absent, None, "old");
              var w' := After(g, w, looks[..1]);
              && Restarts(g, w, looks, 0) && !Throttled(g, w', looks[1])
              && BundleChanged(w', looks[1]) && Decided(g, w', looks[1]) == AlreadyDone
  {
    var w := Workload(Absent, None, "old");
    var first, second := Look(0, 0, 0, Some(0), "old"), Look(g, g, g, Some(0), "new");
    var looks := [first, second];
    assert looks[..0] == [] && looks[..1] == [first] && [first][..0] == [];
    assert Seconds(0) == 0 && Decided(g, w, first) == Restart;
    assert After(g, w, [first]) == Looked(g, w, first) == Workload(At(0), Some(0), "old");
    assert Decided(g, Workload(At(0), Some(0), "old"), second) == AlreadyDone;
    assert Monotone(looks) && Restarts(g, w, looks, 0);
  }

  /** Once a workload was restarted, the stamp is no older than that restart. */
  lemma {:induction false} StampIsRemembered(g: int, w: Workload, looks: seq<Look>, i: nat)
    requires Monotone(looks) && i < |looks| && Restarts(g, w, looks, i)
    ensures var t := After(g, w, looks).trigger; t.At? && t.seconds >= Seconds(looks[i].writeAt)
    decreases |looks|
  {
    var n := |looks| - 1;
    if i == n {
    } else {
      var before := looks[..n];
      assert before[..i] == looks[..i] && before[i] == looks[i];
      StampIsRemembered(g, w, before, i);
      assert looks[i].writeAt <= looks[n].now <= looks[n].writeAt;
      SecondsMonotone(looks[i].writeAt, looks[n].writeAt);
    }
  }

  /** Any two restarts are more than the grace period less one second apart: the stored stamp is
      rounded down, which is all the throttle can lose. */
  lemma RestartsAreSpaced(g: int, w: Workload, looks: seq<Look>, i: nat, j: nat)
    requires Monotone(looks) && i < j < |looks| && Restarts(g, w, looks, i) && Restarts(g, w, looks, j)
    ensures looks[j].writeAt - looks[i].writeAt > g - SECOND
  {
    var before := looks[..j];
    assert before[..i] == looks[..i] && before[i] == looks[i];
    StampIsRemembered(g, w, before, i);
    SecondsRound(looks[i].writeAt);
  }

  /** The bound is attained: two restarts can be one nanosecond more than that apart. */
  lemma SpacingIsTight(g: int)
    requires g > SECOND
    ensures exists w, looks: seq<Look> :: |looks| == 2 && Monotone(looks) && Restarts(g, w, looks, 0) && Restarts(g, w, looks, 1)
              && looks[1].writeAt - looks[0].writeAt == g - SECOND + 1
  {
    var w := Workload(Absent, None, "a");
    var first, second := Look(0, 0, SECOND - 1, None, "b"), Look(g, g, g, None, "c");
    var looks := [first, second];
    assert looks[..0] == [] && looks[..1] == [first];
    assert Decided(g, w, first) == Restart;
    assert [first][..0] == [];
    assert After(g, w, [first]) == Looked(g, w, first);
    assert Seconds(SECOND - 1) == 0;
    assert Looked(g, w, first) == Workload(At(0), None, "b");
    assert Decided(g, Workload(At(0), None, "b"), second) == Restart;
    assert Monotone(looks) && Restarts(g, w, looks, 0) && Restarts(g, w, looks, 1);
  }

  // ----- Leaves -----

  /** Leaves are only ever replaced by ones that expire no earlier. */
  ghost predicate LeavesAdvance(looks: seq<Look>) {
    forall i, j :: 0 <= i < j < |looks| && looks[i].leaf.Some? && looks[j].leaf.Some? ==>
      looks[i].leaf.value <= looks[j].leaf.value
  }

  lemma RecordedStays(looks: seq<Look>, e: int)
    requires looks != [] && RecordedFrom(looks[..|looks| - 1], e)
    ensures RecordedFrom(looks, e)
  {
    var k: nat :| RecordedAt(looks[..|looks| - 1], k, e);
    assert RecordedAt(looks, k, e);
  }

  /** The recorded expiry is never behind that of a leaf a restart was made for. */
  lemma {:induction false} LeafIsRemembered(g: int, w: Workload, looks: seq<Look>, i: nat)
    requires LeavesAdvance(looks) && i < |looks| && Restarts(g, w, looks, i) && looks[i].leaf.Some?
    ensures var e := After(g, w, looks).leafExpiry;
            e.Some? && e.value >= Seconds(looks[i].leaf.value) && RecordedFrom(looks, e.value)
    decreases |looks|
  {
    var n := |looks| - 1;
    var before := looks[..n];
    assert After(g, w, looks) == Looked(g, After(g, w, before), looks[n]);
    if i == n {
      assert RecordedAt(looks, n, Seconds(looks[n].leaf.value));
    } else {
      assert before[..i] == looks[..i] && before[i] == looks[i];
      LeafIsRemembered(g, w, before, i);
      RecordedStays(looks, After(g, w, before).leafExpiry.value);
      if Restarts(g, w, looks, n) && looks[n].leaf.Some? {
        SecondsMonotone(looks[i].leaf.value, looks[n].leaf.value);
        assert RecordedAt(looks, n, Seconds(looks[n].leaf.value));
      }
    }
  }

  predicate RecordedAt(looks: seq<Look>, k: nat, e: int) {
    k < |looks| && looks[k].leaf.Some? && Seconds(looks[k].leaf.value) == e
  }

  /** The expiry is that of a leaf that was looked at. */
  ghost predicate RecordedFrom(looks: seq<Look>, e: int) {
    exists k: nat :: RecordedAt(looks, k, e)
  }

  /** No leaf causes two restarts by expiring: each such restart is for a strictly later expiry. */
  lemma ExpiryRestartsAdvance(g: int, w: Workload, looks: seq<Look>, i: nat, j: nat)
    requires LeavesAdvance(looks) && i < j < |looks|
    requires Restarts(g, w, looks, i) && looks[i].leaf.Some? && ExpiryRestart(g, w, looks, j)
    ensures Seconds(looks[i].leaf.value) < Seconds(looks[j].leaf.value)
  {
    var before := looks[..j];
    assert before[..i] == looks[..i] && before[i] == looks[i];
    LeafIsRemembered(g, w, before, i);
    SecondsMonotone(looks[i].leaf.value, looks[j].leaf.value);
    var e := After(g, w, before).leafExpiry.value;
    var k: nat :| RecordedAt(before, k, e);
    SecondsMonotone(looks[k].leaf.value, looks[j].leaf.value);
  }

  /** From the run alone: the leaf expiry of the latest restart that was made with a leaf at hand, whatever
      caused it. */
  function LastRestartLeaf(g: int, w: Workload, looks: seq<Look>): Option<int> {
    if looks == [] then w.leafExpiry
    else
      var n := |looks| - 1;
      if Restarts(g, w, looks, n) && looks[n].leaf.Some? then Some(Seconds(looks[n].leaf.value))
      else LastRestartLeaf(g, w, looks[..n])
  }

  lemma {:induction false} RecordIsLastRestartLeaf(g: int, w: Workload, looks: seq<Look>)
    ensures After(g, w, looks).leafExpiry == LastRestartLeaf(g, w, looks)
    decreases |looks|
  {
    if looks != [] {
      RecordIsLastRestartLeaf(g, w, looks[..|looks| - 1]);
    }
  }

  /** Outside the throttle, an expiring leaf gets a restart if and only if it is not the leaf of the latest
      restart, whether that one was made because it was expiring or because the trust bundle had changed. */
  lemma ExpiringLeafRestartsIff(g: int, w: Workload, looks: seq<Look>, n: nat)
    requires n < |looks| && Expiring(g, looks[n])
    ensures Restarts(g, w, looks, n) <==>
            && !Throttled(g, After(g, w, looks[..n]), looks[n])
            && LastRestartLeaf(g, w, looks[..n]) != Some(Seconds(looks[n].leaf.value))
  {
    RecordIsLastRestartLeaf(g, w, looks[..n]);
  }

  /** The reconcile at `i` restarts the workload with a leaf of that expiry at hand. */
  predicate RestartsWith(g: int, w: Workload, looks: seq<Look>, i: nat, e: int)
    requires i < |looks|
  {
    Restarts(g, w, looks, i) && looks[i].leaf.Some? && Seconds(looks[i].leaf.value) == e
  }

  lemma {:induction false} RecordHasRestart(g: int, w: Workload, looks: seq<Look>, e: int)
    requires LastRestartLeaf(g, w, looks) == Some(e) && w.leafExpiry == None
    ensures exists i :: 0 <= i < |looks| && RestartsWith(g, w, looks, i, e)
    decreases |looks|
  {
    var n := |looks| - 1;
    if Restarts(g, w, looks, n) && looks[n].leaf.Some? {
      assert RestartsWith(g, w, looks, n, e);
    } else {
      RecordHasRestart(g, w, looks[..n], e);
      var i :| 0 <= i < n && RestartsWith(g, w, looks[..n], i, e);
      assert looks[..n][..i] == looks[..i];
      assert RestartsWith(g, w, looks, i, e);
    }
  }

  /** With leaves that advance, on a workload without a record at first: outside the throttle an expiring leaf
      gets a restart if and only if no restart at all was made while it was in place. */
  lemma LeafGetsOneRestartIff(g: int, w: Workload, looks: seq<Look>, n: nat)
    requires n < |looks| && Expiring(g, looks[n]) && LeavesAdvance(looks) && w.leafExpiry == None
    ensures Restarts(g, w, looks, n) <==>
            && !Throttled(g, After(g, w, looks[..n]), looks[n])
            && forall i :: 0 <= i < n ==> !RestartsWith(g, w, looks, i, Seconds(looks[n].leaf.value))
  {
    ExpiringLeafRestartsIff(g, w, looks, n);
    var before, e := looks[..n], Seconds(looks[n].leaf.value);
    if LastRestartLeaf(g, w, before) == Some(e) {
      RecordHasRestart(g, w, before, e);
      var i :| 0 <= i < n && RestartsWith(g, w, before, i, e);
      assert before[..i] == looks[..i];
      assert RestartsWith(g, w, looks, i, e);
    } else {
      forall i | 0 <= i < n
        ensures !RestartsWith(g, w, looks, i, e)
      {
        if RestartsWith(g, w, looks, i, e) {
          EarlierRestartIsOnRecord(g, w, looks, i, n);
        }
      }
    }
  }

  lemma EarlierRestartIsOnRecord(g: int, w: Workload, looks: seq<Look>, i: nat, n: nat)
    requires i < n < |looks| && LeavesAdvance(looks) && looks[n].leaf.Some?
    requires RestartsWith(g, w, looks, i, Seconds(looks[n].leaf.value))
    ensures LastRestartLeaf(g, w, looks[..n]) == Some(Seconds(looks[n].leaf.value))
  {
    var before := looks[..n];
    assert before[..i] == looks[..i] && before[i] == looks[i];
    LeafIsRemembered(g, w, before, i);
    RecordIsLastRestartLeaf(g, w, before);
    var e := After(g, w, before).leafExpiry.value;
    var k: nat :| RecordedAt(before, k, e);
    SecondsMonotone(looks[k].leaf.value, looks[n].leaf.value);
  }

  /** The record is documented as the certificate that prompted the restart. It is written for every restart,
      so a restart for a changed trust bundle uses up the leaf: in this run the leaf is expiring and still
      valid, was never restarted for, and gets no restart. */
  lemma BundleRestartUsesUpLeaf(g: int)
    requires g > 1
    ensures exists looks: seq<Look> :: |looks| == 2 && Monotone(looks) &&
              var w := Workload(Absent, None, "old");
              && Restarts(g, w, looks, 0) && !Expiring(g, looks[0])
              && Expiring(g, looks[1]) && looks[1].leaf == looks[0].leaf && looks[1].leaf.value > looks[1].leafAt
              && !Throttled(g, After(g, w, looks[..1]), looks[1])
              && Decided(g, After(g, w, looks[..1]), looks[1]) == AlreadyDone
  {
    var w := Workload(Absent, None, "old");
    var first, second := Look(0, 0, 0, Some(g + 1), "new"), Look(g, g, g, Some(g + 1), "new");
    var looks := [first, second];
    assert looks[..0] == [] && looks[..1] == [first] && [first][..0] == [];
    assert Seconds(0) == 0 && Decided(g, w, first) == Restart;
    assert After(g, w, [first]) == Looked(g, w, first) == Workload(At(0), Some(Seconds(g + 1)), "new");
    assert Decided(g, Workload(At(0), Some(Seconds(g + 1)), "new"), second) == AlreadyDone;
    assert Monotone(looks) && Restarts(g, w, looks, 0);
  }

  function ExpiryRestarts(g: int, w: Workload, looks: seq<Look>): set<int> {
    set i | 0 <= i < |looks| && ExpiryRestart(g, w, looks, i)
  }

  /** The distinct leaf expiries seen, at the stored resolution. */
  function Leaves(looks: seq<Look>): set<int> {
    set i | 0 <= i < |looks| && looks[i].leaf.Some? :: Seconds(looks[i].leaf.value)
  }

  lemma {:induction false} InjectionBounds(indices: set<int>, looks: seq<Look>, targets: set<int>)
    requires forall i :: i in indices ==> 0 <= i < |looks| && looks[i].leaf.Some? && Seconds(looks[i].leaf.value) in targets
    requires forall i, j :: i in indices && j in indices && i < j ==> Seconds(looks[i].leaf.value) < Seconds(looks[j].leaf.value)
    ensures |indices| <= |targets|
    decreases |indices|
  {
    if exists i :: i in indices {
      var i :| i in indices;
      var t := Seconds(looks[i].leaf.value);
      forall j | j in indices - {i}
        ensures Seconds(looks[j].leaf.value) in targets - {t}
      {
        assert i < j || j < i;
      }
      InjectionBounds(indices - {i}, looks, targets - {t});
    } else {
      assert indices == {};
    }
  }

  /** So restarts for expiry never outnumber the leaves: no restart loop, however short-lived the
      certificates are compared to the grace period. */
  lemma RestartsNeverOutnumberLeaves(g: int, w: Workload, looks: seq<Look>)
    requires LeavesAdvance(looks)
    ensures |ExpiryRestarts(g, w, looks)| <= |Leaves(looks)|
  {
    var rs := ExpiryRestarts(g, w, looks);
    forall i, j | i in rs && j in rs && i < j
      ensures Seconds(looks[i].leaf.value) < Seconds(looks[j].leaf.value)
    {
      ExpiryRestartsAdvance(g, w, looks, i, j);
    }
    InjectionBounds(rs, looks, Leaves(looks));
  }

  // ----- The reconciler's part -----

  class Annotated {
    var trigger: Stamp
    var leafExpiry: Option<int>
    var bundleHash: string

    ghost function Value(): Workload
      reads this
    {
      Workload(trigger, leafExpiry, bundleHash)
    }

    constructor (w: Workload)
      ensures Value() == w
    {
      trigger, leafExpiry, bundleHash := w.trigger, w.leafExpiry, w.bundleHash;
    }

    method MaybeRestartForResign(configuredGrace: int, l: Look) returns (restarted: bool)
      modifies this
      ensures var g := if configuredGrace == 0 then 30 * 60 * SECOND else configuredGrace;
              (restarted <==> Decided(g, old(Value()), l) == Restart) && Value() == Looked(g, old(Value()), l)
    {
      var grace := configuredGrace;
      if grace == 0 {
        grace := DEFAULT_GRACE;
      }
      if trigger.At? && l.now - trigger.seconds * SECOND < grace {
        return false;
      }
      var needsRestart := false;
      if l.leaf.Some? && l.leaf.value - l.leafAt < grace {
        if leafExpiry == Some(Seconds(l.leaf.value)) {
          return false;
        }
        needsRestart := true;
      }
      if bundleHash != "" && l.bundle != "" && bundleHash != l.bundle {
        needsRestart := true;
      }
      if !needsRestart {
        if bundleHash == "" && l.bundle != "" {
          bundleHash := l.bundle;
        }
        return false;
      }
      TriggerRolloutRestart(l);
      restarted := true;
    }

    method TriggerRolloutRestart(l: Look)
      modifies this
      ensures trigger == At(Seconds(l.writeAt)) && bundleHash == l.bundle
      ensures leafExpiry == if l.leaf.Some? then Some(Seconds(l.leaf.value)) else old(leafExpiry)
    {
      trigger := At(Seconds(l.writeAt));
      if l.leaf.Some? {
        leafExpiry := Some(Seconds(l.leaf.value));
      }
      bundleHash := l.bundle;
    }
  }
}
