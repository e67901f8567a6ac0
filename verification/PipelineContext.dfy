/**
 The per-request context that a plugin pipeline passes along: the message bytes and mutation
 flags, the attribution stamp of the plugin being dispatched, the invocation records of each
 direction, and the bookkeeping of the finish phase. `Ctx` is the value of a `Context` object;
 each method of the object is specified by a function on that value.
 */
module PipelineContext {
  import opened Common

  newtype byte = x: int | 0 <= x < 256

  type Bytes = seq<byte>

  datatype Direction = Inbound | Outbound

  /** `Unset` is the empty policy; it resolves to `Enforce`. */
  datatype Policy = Unset | Enforce | Observe | Off

  function Resolved(p: Policy): Policy {
    if p == Unset then Enforce else p
  }

  datatype Phase = NoPhase | RequestPhase | ResponsePhase

  datatype InvocationAction = ActAllow | ActDeny | ActSkip | ActModify | ActObserve

  datatype Invocation = Invocation(plugin: string, phase: Phase, action: InvocationAction, reason: string, shadow: bool)

  datatype OutcomeAction = OutcomeAllow | OutcomeDeny | OutcomeError

  datatype Outcome = Outcome(finalAction: OutcomeAction, statusCode: int, denyingPlugin: string)

  /** What a plugin reads of the message. */
  datatype Message = Message(body: Bytes, responseBody: Bytes)

  /** Who is being dispatched, in which phase, under which policy. */
  datatype Stamp = Stamp(plugin: string, phase: Phase, policy: Policy)

  const NoStamp := Stamp("", NoPhase, Unset)

  /** The bookkeeping of the finish phase. */
  datatype Ledger = Ledger(dispatched: seq<nat>, outcome: Option<Outcome>, inFinish: bool, finished: bool)

  datatype Ctx = Ctx(
    direction: Direction,
    statusCode: int,
    message: Message,
    bodyMutated: bool,
    responseBodyMutated: bool,
    stamp: Stamp,
    inbound: seq<Invocation>,
    outbound: seq<Invocation>,
    rejectingPlugin: string,
    ledger: Ledger)

  // ----- What each method does to the value -----

  function Stamping(c: Ctx, name: string, phase: Phase, policy: Policy): Ctx {
    c.(stamp := Stamp(name, phase, Resolved(policy)))
  }

  function Cleared(c: Ctx): Ctx {
    c.(stamp := NoStamp)
  }

  /** The records of the direction this context serves. */
  function Records(c: Ctx): seq<Invocation> {
    if c.direction == Inbound then c.inbound else c.outbound
  }

  function WithRecords(c: Ctx, rs: seq<Invocation>): Ctx {
    if c.direction == Inbound then c.(inbound := rs) else c.(outbound := rs)
  }

  /** Attribution left blank by the plugin is filled in from the stamp. */
  function Filled(c: Ctx, inv: Invocation): Invocation {
    inv.(plugin := if inv.plugin == "" then c.stamp.plugin else inv.plugin,
         phase := if inv.phase == NoPhase then c.stamp.phase else inv.phase)
  }

  function Recorded(c: Ctx, inv: Invocation): Ctx {
    if c.ledger.inFinish then c else WithRecords(c, Records(c) + [Filled(c, inv)])
  }

  function BodyRewritten(shadow: bool): Invocation {
    Invocation("", NoPhase, ActModify, "body_rewritten", shadow)
  }

  function BodySet(c: Ctx, body: Bytes): Ctx {
    if c.ledger.inFinish then c
    else if c.stamp.policy == Observe then Recorded(c, BodyRewritten(true))
    else Recorded(c.(message := c.message.(body := body), bodyMutated := true), BodyRewritten(false))
  }

  function ResponseBodySet(c: Ctx, body: Bytes): Ctx {
    if c.ledger.inFinish then c
    else if c.stamp.policy == Observe then Recorded(c, BodyRewritten(true))
    else Recorded(c.(message := c.message.(responseBody := body), responseBodyMutated := true), BodyRewritten(false))
  }

  function Rejected(c: Ctx, name: string): Ctx {
    if c.rejectingPlugin == "" then c.(rejectingPlugin := name) else c
  }

  /** Index of the latest record of that plugin and phase, or -1. */
  function LastRecordOf(rs: seq<Invocation>, name: string, phase: Phase): (i: int)
    ensures -1 <= i < |rs|
    ensures i >= 0 ==> rs[i].plugin == name && rs[i].phase == phase
    ensures forall j :: i < j < |rs| ==> !(rs[j].plugin == name && rs[j].phase == phase)
  {
    if rs == [] then -1
    else if rs[|rs| - 1].plugin == name && rs[|rs| - 1].phase == phase then |rs| - 1
    else LastRecordOf(rs[..|rs| - 1], name, phase)
  }

  function ShadowMarked(c: Ctx, name: string, phase: Phase): Ctx {
    var rs := Records(c);
    var i := LastRecordOf(rs, name, phase);
    if i < 0 then c else WithRecords(c, rs[i := rs[i].(shadow := true)])
  }

  /** Is this a denial that took effect, as far as the records say? */
  predicate EffectiveDeny(inv: Invocation) {
    inv.action == ActDeny && !inv.shadow
  }

  function LastDenier(rs: seq<Invocation>): (r: Option<string>)
    ensures r.None? <==> forall i :: 0 <= i < |rs| ==> !EffectiveDeny(rs[i])
  {
    if rs == [] then None
    else if EffectiveDeny(rs[|rs| - 1]) then Some(rs[|rs| - 1].plugin)
    else LastDenier(rs[..|rs| - 1])
  }

  /** How a finished request is classified; outbound records are looked at before inbound ones. */
  function OutcomeOf(c: Ctx): Outcome {
    var recorded := if LastDenier(c.outbound).Some? then LastDenier(c.outbound) else LastDenier(c.inbound);
    if c.rejectingPlugin != "" then Outcome(OutcomeDeny, c.statusCode, c.rejectingPlugin)
    else if recorded.Some? then Outcome(OutcomeDeny, c.statusCode, recorded.value)
    else if c.statusCode == 0 then Outcome(OutcomeError, 0, "")
    else Outcome(OutcomeAllow, c.statusCode, "")
  }

  /** The denier is that of the latest record that is an effective denial. */
  lemma {:induction false} DenierIsLatest(rs: seq<Invocation>, i: nat)
    requires i < |rs| && rs[i].action == ActDeny && !rs[i].shadow
    requires forall j :: i < j < |rs| ==> rs[j].action != ActDeny || rs[j].shadow
    ensures LastDenier(rs) == Some(rs[i].plugin)
    decreases |rs|
  {
    if i < |rs| - 1 {
      DenierIsLatest(rs[..|rs| - 1], i);
    }
  }

  /** No record is a denial that took effect. */
  predicate NoDenial(rs: seq<Invocation>) {
    forall i :: 0 <= i < |rs| ==> rs[i].action != ActDeny || rs[i].shadow
  }

  /** A plugin on record as rejecting decides; then the latest effective denial of the outbound records; then
      that of the inbound ones; then whether a response was written. */
  lemma OutcomeLooksInOrder(c: Ctx, i: nat)
    ensures OutcomeOf(c).statusCode == c.statusCode
    ensures c.rejectingPlugin != "" ==> OutcomeOf(c) == Outcome(OutcomeDeny, c.statusCode, c.rejectingPlugin)
    ensures c.rejectingPlugin == "" && i < |c.outbound| && c.outbound[i].action == ActDeny && !c.outbound[i].shadow && NoDenial(c.outbound[i + 1..])
            ==> OutcomeOf(c) == Outcome(OutcomeDeny, c.statusCode, c.outbound[i].plugin)
    ensures c.rejectingPlugin == "" && NoDenial(c.outbound)
            && i < |c.inbound| && c.inbound[i].action == ActDeny && !c.inbound[i].shadow && NoDenial(c.inbound[i + 1..])
            ==> OutcomeOf(c) == Outcome(OutcomeDeny, c.statusCode, c.inbound[i].plugin)
    ensures c.rejectingPlugin == "" && NoDenial(c.outbound) && NoDenial(c.inbound)
            ==> OutcomeOf(c) == Outcome(if c.statusCode == 0 then OutcomeError else OutcomeAllow, c.statusCode, "")
  {
    LatestAt(c.outbound, i);
    LatestAt(c.inbound, i);
  }

  lemma LatestAt(rs: seq<Invocation>, i: nat)
    ensures i < |rs| && rs[i].action == ActDeny && !rs[i].shadow && NoDenial(rs[i + 1..]) ==> LastDenier(rs) == Some(rs[i].plugin)
    ensures NoDenial(rs) ==> LastDenier(rs) == None
  {
    if i < |rs| && rs[i].action == ActDeny && !rs[i].shadow && NoDenial(rs[i + 1..]) {
      assert forall j :: i < j < |rs| ==> rs[j] == rs[i + 1..][j - i - 1];
      DenierIsLatest(rs, i);
    }
  }

  /** Recording adds one record at the end of the list of the direction served, with plugin and phase filled in
      where they were left blank; while finishing it does nothing. Nothing else changes. */
  lemma RecordAddsOne(c: Ctx, inv: Invocation)
    ensures c.ledger.inFinish ==> Recorded(c, inv) == c
    ensures !c.ledger.inFinish ==>
              var filled := Invocation(if inv.plugin == "" then c.stamp.plugin else inv.plugin,
                                       if inv.phase == NoPhase then c.stamp.phase else inv.phase, inv.action, inv.reason, inv.shadow);
              Recorded(c, inv) == if c.direction == Inbound then c.(inbound := c.inbound + [filled]) else c.(outbound := c.outbound + [filled])
  {
  }

  /** Setting a body: under observe only a shadow record is made; otherwise that body alone is replaced, its flag
      raised and a record made; while finishing nothing happens. */
  lemma SetterEffects(c: Ctx, b: Bytes)
    ensures c.ledger.inFinish ==> BodySet(c, b) == c && ResponseBodySet(c, b) == c
    ensures !c.ledger.inFinish && c.stamp.policy == Observe ==>
              var noted := Recorded(c, Invocation("", NoPhase, ActModify, "body_rewritten", true));
              BodySet(c, b) == noted && ResponseBodySet(c, b) == noted
    ensures !c.ledger.inFinish && c.stamp.policy != Observe ==>
              var note := Invocation("", NoPhase, ActModify, "body_rewritten", false);
              && BodySet(c, b) == Recorded(c, note).(message := Message(b, c.message.responseBody), bodyMutated := true)
              && ResponseBodySet(c, b) == Recorded(c, note).(message := Message(c.message.body, b), responseBodyMutated := true)
  {
  }

  /** The first rejecter stays on record, and nothing else changes. */
  lemma FirstRejecterStays(c: Ctx, name: string)
    ensures Rejected(c, name) == c.(rejectingPlugin := if c.rejectingPlugin != "" then c.rejectingPlugin else name)
  {
  }

  lemma LastRecordUnique(rs: seq<Invocation>, name: string, phase: Phase, i: int)
    requires -1 <= i < |rs|
    requires i >= 0 ==> rs[i].plugin == name && rs[i].phase == phase
    requires forall j :: i < j < |rs| ==> !(rs[j].plugin == name && rs[j].phase == phase)
    ensures LastRecordOf(rs, name, phase) == i
  {
    var k := LastRecordOf(rs, name, phase);
    assert k <= i && i <= k;
  }

  // ----- The object -----

  class Context {
    const direction: Direction
    var statusCode: int
    var body: Bytes
    var responseBody: Bytes
    var bodyMutated: bool
    var responseBodyMutated: bool
    var currentPlugin: string
    var currentPhase: Phase
    var currentPolicy: Policy
    var inbound: seq<Invocation>
    var outbound: seq<Invocation>
    var dispatched: seq<nat>
    var outcome: Option<Outcome>
    var inFinish: bool
    var rejectingPlugin: string
    var finished: bool

    function Value(): Ctx
      reads this
    {
      Ctx(direction, statusCode, Message(body, responseBody), bodyMutated, responseBodyMutated,
          Stamp(currentPlugin, currentPhase, currentPolicy), inbound, outbound, rejectingPlugin,
          Ledger(dispatched, outcome, inFinish, finished))
    }

    constructor (direction: Direction, body: Bytes)
      ensures Value() == Fresh(direction, body)
    {
      this.direction, this.body := direction, body;
      statusCode, responseBody, bodyMutated, responseBodyMutated := 0, [], false, false;
      currentPlugin, currentPhase, currentPolicy := "", NoPhase, Unset;
      inbound, outbound, dispatched, outcome := [], [], [], None;
      inFinish, rejectingPlugin, finished := false, "", false;
    }

    method SetCurrent(name: string, phase: Phase, policy: Policy)
      modifies this
      ensures Value() == Stamping(old(Value()), name, phase, policy)
    {
      currentPlugin, currentPhase, currentPolicy := name, phase, Resolved(policy);
    }

    method ClearCurrent()
      modifies this
      ensures Value() == Cleared(old(Value()))
    {
      currentPlugin, currentPhase, currentPolicy := "", NoPhase, Unset;
    }

    method SetRejectingPlugin(name: string)
      modifies this
      ensures Value() == Rejected(old(Value()), name)
    {
      if rejectingPlugin == "" {
        rejectingPlugin := name;
      }
    }

    method Record(inv: Invocation)
      modifies this
      ensures Value() == Recorded(old(Value()), inv)
    {
      if inFinish {
        return;
      }
      var filled := inv;
      if filled.plugin == "" {
        filled := filled.(plugin := currentPlugin);
      }
      if filled.phase == NoPhase {
        filled := filled.(phase := currentPhase);
      }
      if direction == Inbound {
        inbound := inbound + [filled];
      } else {
        outbound := outbound + [filled];
      }
    }

    method SetBody(newBody: Bytes)
      modifies this
      ensures Value() == BodySet(old(Value()), newBody)
    {
      if inFinish {
        return;
      }
      if currentPolicy == Observe {
        Record(BodyRewritten(true));
        return;
      }
      body, bodyMutated := newBody, true;
      Record(BodyRewritten(false));
    }

    method SetResponseBody(newBody: Bytes)
      modifies this
      ensures Value() == ResponseBodySet(old(Value()), newBody)
    {
      if inFinish {
        return;
      }
      if currentPolicy == Observe {
        Record(BodyRewritten(true));
        return;
      }
      responseBody, responseBodyMutated := newBody, true;
      Record(BodyRewritten(false));
    }

    /** Flips the shadow flag of the plugin's latest record in this phase. */
    method MarkLastInvocationShadow(name: string, phase: Phase) returns (marked: bool)
      modifies this
      ensures Value() == ShadowMarked(old(Value()), name, phase)
      ensures marked <==> LastRecordOf(Records(old(Value())), name, phase) >= 0
    {
      var list := if direction == Inbound then inbound else outbound;
      var i := |list| - 1;
      while i >= 0
        invariant -1 <= i < |list|
        invariant forall j :: i < j < |list| ==> !(list[j].plugin == name && list[j].phase == phase)
        invariant Value() == old(Value())
      {
        if list[i].plugin == name && list[i].phase == phase {
          LastRecordUnique(list, name, phase, i);
          if direction == Inbound {
            inbound := inbound[i := inbound[i].(shadow := true)];
          } else {
            outbound := outbound[i := outbound[i].(shadow := true)];
          }
          return true;
        }
        i := i - 1;
      }
      LastRecordUnique(list, name, phase, -1);
      marked := false;
    }
  }

  function Fresh(direction: Direction, body: Bytes): Ctx {
    Ctx(direction, 0, Message(body, []), false, false, NoStamp, [], [], "", Ledger([], None, false, false))
  }

  method LastDenyingPlugin(rs: seq<Invocation>) returns (r: Option<string>)
    ensures r == LastDenier(rs)
  {
    var i := |rs| - 1;
    assert rs[..i + 1] == rs;
    while i >= 0
      invariant -1 <= i < |rs|
      invariant LastDenier(rs[..i + 1]) == LastDenier(rs)
    {
      assert rs[..i + 1][..i] == rs[..i];
      if EffectiveDeny(rs[i]) {
        return Some(rs[i].plugin);
      }
      i := i - 1;
    }
    r := None;
  }

  method OutcomeFromContext(pctx: Context) returns (out: Outcome)
    ensures out == OutcomeOf(pctx.Value())
  {
    if pctx.rejectingPlugin != "" {
      return Outcome(OutcomeDeny, pctx.statusCode, pctx.rejectingPlugin);
    }
    var denier := LastDenyingPlugin(pctx.outbound);
    if denier.None? {
      denier := LastDenyingPlugin(pctx.inbound);
    }
    if denier.Some? {
      return Outcome(OutcomeDeny, pctx.statusCode, denier.value);
    }
    if pctx.statusCode == 0 {
      return Outcome(OutcomeError, 0, "");
    }
    out := Outcome(OutcomeAllow, pctx.statusCode, "");
  }
}
