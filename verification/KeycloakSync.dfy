/**
 Reconciling routes with an identity provider: every target needs its client, its audience scopes,
 each with an audience mapper and assigned to the agent, and its hostname attribute. Admin objects
 are identified by name. Every admin write may be declined at the prompt or fail; `ok(k)` says
 whether the k-th write attempted takes effect.
 */
module KeycloakSync {
  import opened Common

  const HOSTNAME_ATTRIBUTE: string := "authbridge.hostname"
  const AUDIENCE_SUFFIX: string := "-aud"

  datatype Target = Target(host: string, audience: string, scopes: seq<string>, passthrough: bool)

  /** A client's optional scope. */
  datatype Grant = Grant(client: string, scope: string)

  /** Attributes of each client, audiences of each scope's audience mappers, and optional scopes. */
  datatype Store = Store(clients: map<string, map<string, string>>, scopes: map<string, seq<string>>, granted: set<Grant>)

  datatype Write =
    | CreateClient(client: string)
    | CreateAgent(client: string)
    | CreateScope(scope: string)
    | AddMapper(scope: string, audience: string)
    | AssignScope(client: string, scope: string)
    | SetHost(client: string, host: string)

  function Applied(s: Store, w: Write): Store {
    match w
    case CreateClient(c) => s.(clients := s.clients[c := map[]])
    case CreateAgent(c) => s.(clients := s.clients[c := map["standard.token.exchange.enabled" := "true"]])
    case CreateScope(n) => s.(scopes := s.scopes[n := []])
    case AddMapper(n, a) => if n in s.scopes then s.(scopes := s.scopes[n := s.scopes[n] + [a]]) else s
    case AssignScope(c, n) => s.(granted := s.granted + {Grant(c, n)})
    case SetHost(c, h) => if c in s.clients then s.(clients := s.clients[c := s.clients[c][HOSTNAME_ATTRIBUTE := h]]) else s
  }

  /** The provider, with the number of writes attempted. */
  datatype World = World(store: Store, tries: nat)

  function Tried(ok: nat -> bool, w: World, write: Write): World {
    World(if ok(w.tries) then Applied(w.store, write) else w.store, w.tries + 1)
  }

  predicate IsAudienceScope(scope: string) {
    |AUDIENCE_SUFFIX| <= |scope| && scope[|scope| - |AUDIENCE_SUFFIX|..] == AUDIENCE_SUFFIX
  }

  // ----- What reconciling does -----

  function AgentEnsured(ok: nat -> bool, w: World, agent: Option<string>): World {
    if agent.None? || agent.value == "" || agent.value in w.store.clients then w else Tried(ok, w, CreateAgent(agent.value))
  }

  /** The agent to assign scopes to, if there is one. */
  function ReadyAgent(w: World, agent: Option<string>): Option<string> {
    if agent.Some? && agent.value != "" && agent.value in w.store.clients then agent else None
  }

  function ClientEnsured(ok: nat -> bool, w: World, audience: string): World {
    if audience in w.store.clients then w else Tried(ok, w, CreateClient(audience))
  }

  function Assigned(ok: nat -> bool, w: World, scope: string, agent: Option<string>): World {
    if agent.None? || Grant(agent.value, scope) in w.store.granted then w
    else Tried(ok, w, AssignScope(agent.value, scope))
  }

  function ScopeEnsured(ok: nat -> bool, w: World, audience: string, scope: string, agent: Option<string>): World {
    if scope !in w.store.scopes then
      var created := Tried(ok, w, CreateScope(scope));
      if scope !in created.store.scopes then created
      else Assigned(ok, Tried(ok, created, AddMapper(scope, audience)), scope, agent)
    else
      var mapped := if w.store.scopes[scope] == [] then Tried(ok, w, AddMapper(scope, audience)) else w;
      Assigned(ok, mapped, scope, agent)
  }

  function ScopesEnsured(ok: nat -> bool, w: World, audience: string, scopes: seq<string>, agent: Option<string>): World {
    if scopes == [] then w
    else
      var before, s := ScopesEnsured(ok, w, audience, scopes[..|scopes| - 1], agent), scopes[|scopes| - 1];
      if IsAudienceScope(s) then ScopeEnsured(ok, before, audience, s, agent) else before
  }

  predicate HostSet(s: Store, audience: string, host: string) {
    audience in s.clients && HOSTNAME_ATTRIBUTE in s.clients[audience] && s.clients[audience][HOSTNAME_ATTRIBUTE] == host
  }

  function HostEnsured(ok: nat -> bool, w: World, audience: string, host: string): World {
    if HostSet(w.store, audience, host) then w else Tried(ok, w, SetHost(audience, host))
  }

  function TargetEnsured(ok: nat -> bool, w: World, t: Target, agent: Option<string>): World {
    if t.passthrough then w
    else
      var w1 := ClientEnsured(ok, w, t.audience);
      if t.audience !in w1.store.clients then w1
      else HostEnsured(ok, ScopesEnsured(ok, w1, t.audience, t.scopes, agent), t.audience, t.host)
  }

  function TargetsEnsured(ok: nat -> bool, w: World, targets: seq<Target>, agent: Option<string>): World {
    if targets == [] then w
    else TargetEnsured(ok, TargetsEnsured(ok, w, targets[..|targets| - 1], agent), targets[|targets| - 1], agent)
  }

  /** How many targets are not passed through. */
  function Counting(targets: seq<Target>): nat {
    if targets == [] then 0
    else Counting(targets[..|targets| - 1]) + if targets[|targets| - 1].passthrough then 0 else 1
  }

  /** A whole run: the agent first, then every target in order. */
  function Reconciled(ok: nat -> bool, w: World, targets: seq<Target>, agent: Option<string>): World {
    var w1 := AgentEnsured(ok, w, agent);
    TargetsEnsured(ok, w1, targets, ReadyAgent(w1, agent))
  }

  // ----- When there is nothing to do -----

  predicate ScopeDone(s: Store, scope: string, agent: Option<string>) {
    scope in s.scopes && s.scopes[scope] != [] && (agent.Some? ==> Grant(agent.value, scope) in s.granted)
  }

  predicate ScopesDone(s: Store, scopes: seq<string>, agent: Option<string>) {
    forall i :: 0 <= i < |scopes| && IsAudienceScope(scopes[i]) ==> ScopeDone(s, scopes[i], agent)
  }

  predicate TargetDone(s: Store, t: Target, agent: Option<string>) {
    t.passthrough || (HostSet(s, t.audience, t.host) && ScopesDone(s, t.scopes, agent))
  }

  predicate TargetsDone(s: Store, targets: seq<Target>, agent: Option<string>) {
    forall i :: 0 <= i < |targets| ==> TargetDone(s, targets[i], agent)
  }

  lemma ScopeIdleIff(ok: nat -> bool, w: World, audience: string, scope: string, agent: Option<string>)
    ensures var v := ScopeEnsured(ok, w, audience, scope, agent);
            v.tries >= w.tries && (v.tries == w.tries <==> ScopeDone(w.store, scope, agent)) && (v.tries == w.tries ==> v == w)
  {
  }

  lemma {:induction false} ScopesIdleIff(ok: nat -> bool, w: World, audience: string, scopes: seq<string>, agent: Option<string>)
    ensures var v := ScopesEnsured(ok, w, audience, scopes, agent);
            v.tries >= w.tries && (v.tries == w.tries <==> ScopesDone(w.store, scopes, agent)) && (v.tries == w.tries ==> v == w)
  {
    if scopes != [] {
      var init, s := scopes[..|scopes| - 1], scopes[|scopes| - 1];
      ScopesIdleIff(ok, w, audience, init, agent);
      assert ScopesDone(w.store, scopes, agent) <==>
             ScopesDone(w.store, init, agent) && (IsAudienceScope(s) ==> ScopeDone(w.store, s, agent)) by {
        assert forall i :: 0 <= i < |init| ==> init[i] == scopes[i];
      }
      ScopeIdleIff(ok, ScopesEnsured(ok, w, audience, init, agent), audience, s, agent);
    }
  }

  lemma TargetIdleIff(ok: nat -> bool, w: World, t: Target, agent: Option<string>)
    ensures var v := TargetEnsured(ok, w, t, agent);
            v.tries >= w.tries && (v.tries == w.tries <==> TargetDone(w.store, t, agent)) && (v.tries == w.tries ==> v == w)
  {
    var w1 := ClientEnsured(ok, w, t.audience);
    ScopesIdleIff(ok, w1, t.audience, t.scopes, agent);
  }

  /** A run attempts no write if and only if everything is in place already, whatever the answers to
      its prompts would be. */
  lemma {:induction false} TargetsIdleIff(ok: nat -> bool, w: World, targets: seq<Target>, agent: Option<string>)
    ensures var v := TargetsEnsured(ok, w, targets, agent);
            v.tries >= w.tries && (v.tries == w.tries <==> TargetsDone(w.store, targets, agent)) && (v.tries == w.tries ==> v == w)
  {
    if targets != [] {
      var init, t := targets[..|targets| - 1], targets[|targets| - 1];
      TargetsIdleIff(ok, w, init, agent);
      assert TargetsDone(w.store, targets, agent) <==> TargetsDone(w.store, init, agent) && TargetDone(w.store, t, agent) by {
        assert forall i :: 0 <= i < |init| ==> init[i] == targets[i];
      }
      TargetIdleIff(ok, TargetsEnsured(ok, w, init, agent), t, agent);
    }
  }

  // ----- Nothing is ever taken away -----

  ghost predicate MappersGrow(s: Store, s': Store) {
    forall n :: n in s.scopes && n in s'.scopes && s.scopes[n] != [] ==> s'.scopes[n] == s.scopes[n]
  }

  ghost predicate AttributesStay(s: Store, s': Store) {
    forall c, k :: c in s.clients && c in s'.clients && k != HOSTNAME_ATTRIBUTE && k in s.clients[c] ==>
        k in s'.clients[c] && s'.clients[c][k] == s.clients[c][k]
  }

  ghost predicate Grows(s: Store, s': Store) {
    && s.clients.Keys <= s'.clients.Keys && s.scopes.Keys <= s'.scopes.Keys && s.granted <= s'.granted
    && MappersGrow(s, s') && AttributesStay(s, s')
  }

  lemma GrowsTransitive(a: Store, b: Store, c: Store)
    requires Grows(a, b) && Grows(b, c)
    ensures Grows(a, c)
  {
    assert forall n :: n in a.scopes ==> n in b.scopes;
    assert forall x :: x in a.clients ==> x in b.clients;
  }

  /** A write that creates what is missing, or gives a first mapper, a grant or a hostname. */
  predicate Additive(s: Store, write: Write) {
    match write
    case CreateClient(c) => c !in s.clients
    case CreateAgent(c) => c !in s.clients
    case CreateScope(n) => n !in s.scopes
    case AddMapper(n, a) => n in s.scopes && s.scopes[n] == []
    case AssignScope(c, n) => true
    case SetHost(c, h) => true
  }

  lemma WriteGrows(ok: nat -> bool, w: World, write: Write)
    requires Additive(w.store, write)
    ensures Grows(w.store, Tried(ok, w, write).store)
  {
  }

  lemma AssignedGrows(ok: nat -> bool, w: World, scope: string, agent: Option<string>)
    ensures Grows(w.store, Assigned(ok, w, scope, agent).store)
  {
    if agent.Some? {
      WriteGrows(ok, w, AssignScope(agent.value, scope));
    }
  }

  lemma MapperGrows(ok: nat -> bool, w: World, audience: string, scope: string, agent: Option<string>)
    requires scope in w.store.scopes && w.store.scopes[scope] == []
    ensures var mapped := Tried(ok, w, AddMapper(scope, audience));
            Grows(w.store, Assigned(ok, mapped, scope, agent).store)
  {
    var mapped := Tried(ok, w, AddMapper(scope, audience));
    WriteGrows(ok, w, AddMapper(scope, audience));
    AssignedGrows(ok, mapped, scope, agent);
    GrowsTransitive(w.store, mapped.store, Assigned(ok, mapped, scope, agent).store);
  }

  lemma ScopeKeepsClients(ok: nat -> bool, w: World, audience: string, scope: string, agent: Option<string>)
    ensures ScopeEnsured(ok, w, audience, scope, agent).store.clients == w.store.clients
  {
  }

  lemma ScopeGrows(ok: nat -> bool, w: World, audience: string, scope: string, agent: Option<string>)
    ensures Grows(w.store, ScopeEnsured(ok, w, audience, scope, agent).store)
  {
    if scope !in w.store.scopes {
      var created := Tried(ok, w, CreateScope(scope));
      WriteGrows(ok, w, CreateScope(scope));
      if scope in created.store.scopes {
        MapperGrows(ok, created, audience, scope, agent);
        GrowsTransitive(w.store, created.store, ScopeEnsured(ok, w, audience, scope, agent).store);
      }
    } else if w.store.scopes[scope] == [] {
      MapperGrows(ok, w, audience, scope, agent);
    } else {
      AssignedGrows(ok, w, scope, agent);
    }
  }

  lemma {:induction false} ScopesGrow(ok: nat -> bool, w: World, audience: string, scopes: seq<string>, agent: Option<string>)
    ensures Grows(w.store, ScopesEnsured(ok, w, audience, scopes, agent).store)
    ensures ScopesEnsured(ok, w, audience, scopes, agent).store.clients == w.store.clients
  {
    if scopes != [] {
      var init, s := scopes[..|scopes| - 1], scopes[|scopes| - 1];
      ScopesGrow(ok, w, audience, init, agent);
      var v := ScopesEnsured(ok, w, audience, init, agent);
      if IsAudienceScope(s) {
        ScopeGrows(ok, v, audience, s, agent);
        ScopeKeepsClients(ok, v, audience, s, agent);
        GrowsTransitive(w.store, v.store, ScopeEnsured(ok, v, audience, s, agent).store);
      }
    }
  }

  lemma HostGrows(ok: nat -> bool, w: World, audience: string, host: string)
    ensures Grows(w.store, HostEnsured(ok, w, audience, host).store)
  {
    WriteGrows(ok, w, SetHost(audience, host));
  }

  lemma TargetGrows(ok: nat -> bool, w: World, t: Target, agent: Option<string>)
    ensures Grows(w.store, TargetEnsured(ok, w, t, agent).store)
  {
    var w1 := ClientEnsured(ok, w, t.audience);
    if t.audience !in w.store.clients {
      WriteGrows(ok, w, CreateClient(t.audience));
    }
    if !t.passthrough && t.audience in w1.store.clients {
      var w2 := ScopesEnsured(ok, w1, t.audience, t.scopes, agent);
      ScopesGrow(ok, w1, t.audience, t.scopes, agent);
      GrowsTransitive(w.store, w1.store, w2.store);
      HostGrows(ok, w2, t.audience, t.host);
      GrowsTransitive(w.store, w2.store, HostEnsured(ok, w2, t.audience, t.host).store);
    }
  }

  /** Whatever is declined or fails: no client, scope, mapper, assignment or unrelated attribute is
      ever removed or changed, and a scope that has a mapper is never given another. */
  lemma {:induction false} ReconcilingOnlyAdds(ok: nat -> bool, w: World, targets: seq<Target>, agent: Option<string>)
    ensures Grows(w.store, TargetsEnsured(ok, w, targets, agent).store)
  {
    if targets != [] {
      var init, t := targets[..|targets| - 1], targets[|targets| - 1];
      var v := TargetsEnsured(ok, w, init, agent);
      ReconcilingOnlyAdds(ok, w, init, agent);
      TargetGrows(ok, v, t, agent);
      GrowsTransitive(w.store, v.store, TargetEnsured(ok, v, t, agent).store);
    }
  }

  // ----- Convergence -----

  ghost predicate AllOk(ok: nat -> bool) {
    forall k :: ok(k)
  }

  lemma ScopeBecomesDone(ok: nat -> bool, w: World, audience: string, scope: string, agent: Option<string>)
    requires AllOk(ok)
    ensures ScopeDone(ScopeEnsured(ok, w, audience, scope, agent).store, scope, agent)
  {
  }

  lemma {:induction false} ScopesBecomeDone(ok: nat -> bool, w: World, audience: string, scopes: seq<string>, agent: Option<string>)
    requires AllOk(ok)
    ensures ScopesDone(ScopesEnsured(ok, w, audience, scopes, agent).store, scopes, agent)
  {
    if scopes != [] {
      var init, s := scopes[..|scopes| - 1], scopes[|scopes| - 1];
      ScopesBecomeDone(ok, w, audience, init, agent);
      var v := ScopesEnsured(ok, w, audience, init, agent);
      if IsAudienceScope(s) {
        ScopeGrows(ok, v, audience, s, agent);
        ScopeBecomesDone(ok, v, audience, s, agent);
      }
      assert forall i :: 0 <= i < |init| ==> init[i] == scopes[i];
    }
  }

  lemma ScopesStayDone(a: Store, b: Store, scopes: seq<string>, agent: Option<string>)
    requires Grows(a, b) && ScopesDone(a, scopes, agent)
    ensures ScopesDone(b, scopes, agent)
  {
    forall i | 0 <= i < |scopes| && IsAudienceScope(scopes[i])
      ensures ScopeDone(b, scopes[i], agent)
    {
      assert ScopeDone(a, scopes[i], agent);
      assert scopes[i] in a.scopes && scopes[i] in b.scopes;
    }
  }

  lemma TargetBecomesDone(ok: nat -> bool, w: World, t: Target, agent: Option<string>)
    requires AllOk(ok)
    ensures TargetDone(TargetEnsured(ok, w, t, agent).store, t, agent)
  {
    if !t.passthrough {
      var w1 := ClientEnsured(ok, w, t.audience);
      var w2 := ScopesEnsured(ok, w1, t.audience, t.scopes, agent);
      ScopesBecomeDone(ok, w1, t.audience, t.scopes, agent);
      ScopesGrow(ok, w1, t.audience, t.scopes, agent);
      HostGrows(ok, w2, t.audience, t.host);
      ScopesStayDone(w2.store, HostEnsured(ok, w2, t.audience, t.host).store, t.scopes, agent);
    }
  }

  /** A target leaves other audiences' hostnames alone, and sets its own. */
  lemma TargetHost(ok: nat -> bool, w: World, t: Target, agent: Option<string>, audience: string, host: string)
    requires AllOk(ok)
    ensures var v := TargetEnsured(ok, w, t, agent);
            HostSet(v.store, audience, host) <==>
              if !t.passthrough && t.audience == audience then host == t.host else HostSet(w.store, audience, host)
  {
    if !t.passthrough {
      TargetBecomesDone(ok, w, t, agent);
      var w1 := ClientEnsured(ok, w, t.audience);
      ScopesGrow(ok, w1, t.audience, t.scopes, agent);
    }
  }

  /** Targets that count and share an audience agree on the host. */
  ghost predicate HostsAgree(targets: seq<Target>) {
    forall i, j | 0 <= i < |targets| && 0 <= j < |targets| && !targets[i].passthrough && !targets[j].passthrough ::
      targets[i].audience == targets[j].audience ==> targets[i].host == targets[j].host
  }

  /** The last target for an audience decides its host. */
  lemma {:induction false} LastHostWins(ok: nat -> bool, w: World, targets: seq<Target>, agent: Option<string>, i: nat, host: string)
    requires AllOk(ok) && i < |targets| && !targets[i].passthrough
    requires forall j :: i < j < |targets| && !targets[j].passthrough ==> targets[j].audience != targets[i].audience
    ensures HostSet(TargetsEnsured(ok, w, targets, agent).store, targets[i].audience, host) <==> host == targets[i].host
    decreases |targets|
  {
    var n := |targets| - 1;
    var v := TargetsEnsured(ok, w, targets[..n], agent);
    TargetHost(ok, v, targets[n], agent, targets[i].audience, host);
    if i < n {
      assert forall j :: 0 <= j < n ==> targets[..n][j] == targets[j];
      LastHostWins(ok, w, targets[..n], agent, i, host);
    }
  }

  /** The last counting target with the audience of target `i`. */
  function LastWithAudience(targets: seq<Target>, i: nat): (j: nat)
    requires i < |targets| && !targets[i].passthrough
    ensures i <= j < |targets| && !targets[j].passthrough && targets[j].audience == targets[i].audience
    ensures forall k :: j < k < |targets| && !targets[k].passthrough ==> targets[k].audience != targets[j].audience
    decreases |targets|
  {
    var n := |targets| - 1;
    if !targets[n].passthrough && targets[n].audience == targets[i].audience then n else LastWithAudience(targets[..n], i)
  }

  /** After a run in which every write took effect, everything but hostnames is in place. */
  lemma {:induction false} ScopesInPlace(ok: nat -> bool, w: World, targets: seq<Target>, agent: Option<string>, i: nat)
    requires AllOk(ok) && i < |targets| && !targets[i].passthrough
    ensures ScopesDone(TargetsEnsured(ok, w, targets, agent).store, targets[i].scopes, agent)
    decreases |targets|
  {
    var n := |targets| - 1;
    var v := TargetsEnsured(ok, w, targets[..n], agent);
    TargetBecomesDone(ok, v, targets[n], agent);
    if i < n {
      ScopesInPlace(ok, w, targets[..n], agent, i);
      TargetGrows(ok, v, targets[n], agent);
      ScopesStayDone(v.store, TargetEnsured(ok, v, targets[n], agent).store, targets[i].scopes, agent);
    }
  }

  /** A completed run leaves every target in place if and only if targets that share an audience agree
      on its host. */
  lemma CompletedRunSatisfiesIff(ok: nat -> bool, w: World, targets: seq<Target>, agent: Option<string>)
    requires AllOk(ok)
    ensures TargetsDone(TargetsEnsured(ok, w, targets, agent).store, targets, agent) <==> HostsAgree(targets)
  {
    var s := TargetsEnsured(ok, w, targets, agent).store;
    forall i | 0 <= i < |targets| && !targets[i].passthrough
      ensures TargetDone(s, targets[i], agent) <==> targets[i].host == targets[LastWithAudience(targets, i)].host
    {
      ScopesInPlace(ok, w, targets, agent, i);
      LastHostWins(ok, w, targets, agent, LastWithAudience(targets, i), targets[i].host);
    }
    if TargetsDone(s, targets, agent) {
      forall i, j | 0 <= i < |targets| && 0 <= j < |targets| && !targets[i].passthrough && !targets[j].passthrough
                    && targets[i].audience == targets[j].audience
        ensures targets[i].host == targets[j].host
      {
        LastIsShared(targets, i, j);
      }
    }
  }

  lemma LastIsShared(targets: seq<Target>, i: nat, j: nat)
    requires i < |targets| && j < |targets| && !targets[i].passthrough && !targets[j].passthrough
    requires targets[i].audience == targets[j].audience
    ensures LastWithAudience(targets, i) == LastWithAudience(targets, j)
  {
    var a, b := LastWithAudience(targets, i), LastWithAudience(targets, j);
    assert a <= b && b <= a;
  }

  /** Convergence: a second run straight after a completed one attempts no write, whatever it would be
      answered, if and only if targets that share an audience agree on its host. */
  lemma SecondRunIsIdleIff(ok: nat -> bool, again: nat -> bool, w: World, targets: seq<Target>, agent: Option<string>)
    requires AllOk(ok)
    ensures var v := Reconciled(ok, w, targets, agent);
            (Reconciled(again, v, targets, agent).tries == v.tries <==> HostsAgree(targets)) &&
            (HostsAgree(targets) ==> Reconciled(again, v, targets, agent) == v)
  {
    var w1 := AgentEnsured(ok, w, agent);
    var ready := ReadyAgent(w1, agent);
    var v := TargetsEnsured(ok, w1, targets, ready);
    ReconcilingOnlyAdds(ok, w1, targets, ready);
    assert ReadyAgent(v, agent) == ready && AgentEnsured(again, v, agent) == v;
    CompletedRunSatisfiesIff(ok, w1, targets, ready);
    TargetsIdleIff(again, v, targets, ready);
  }

  /** Two targets that disagree about one audience's host: runs go on overwriting it for ever. */
  lemma DisagreeingHostsKeepWriting(ok: nat -> bool, again: nat -> bool, w: World, agent: Option<string>)
    requires AllOk(ok)
    ensures var targets := [Target("h", "a", [], false), Target("k", "a", [], false)];
            var v := Reconciled(ok, w, targets, agent);
            Reconciled(again, v, targets, agent).tries > v.tries
  {
    var targets := [Target("h", "a", [], false), Target("k", "a", [], false)];
    var v := Reconciled(ok, w, targets, agent);
    assert targets[0].audience == targets[1].audience && targets[0].host != targets[1].host;
    SecondRunIsIdleIff(ok, again, w, targets, agent);
    TargetsIdleIff(again, AgentEnsured(again, v, agent), targets, ReadyAgent(AgentEnsured(again, v, agent), agent));
  }

  // ----- What a run leaves behind -----

  /** The scopes that are looked after: those whose names end in "-aud". */
  predicate EndsInAud(scope: string) {
    |scope| >= 4 && scope[|scope| - 4..] == "-aud"
  }

  predicate NamesAgent(agent: Option<string>) {
    agent.Some? && agent.value != ""
  }

  /** The target's client is there, and each of its audience scopes, with a mapper and granted to the agent if one is named. */
  ghost predicate Furnished(s: Store, t: Target, agent: Option<string>) {
    && t.audience in s.clients
    && forall k :: 0 <= k < |t.scopes| && EndsInAud(t.scopes[k]) ==>
         && t.scopes[k] in s.scopes && s.scopes[t.scopes[k]] != []
         && (NamesAgent(agent) ==> Grant(agent.value, t.scopes[k]) in s.granted)
  }

  predicate HostIs(s: Store, t: Target) {
    t.audience in s.clients && "authbridge.hostname" in s.clients[t.audience] && s.clients[t.audience]["authbridge.hostname"] == t.host
  }

  lemma AgentBecomesReady(ok: nat -> bool, w: World, agent: Option<string>)
    requires AllOk(ok)
    ensures var w1 := AgentEnsured(ok, w, agent);
            && (NamesAgent(agent) ==> agent.value in w1.store.clients)
            && ReadyAgent(w1, agent) == (if NamesAgent(agent) then agent else None)
            && w1.store.granted == w.store.granted && w1.store.scopes == w.store.scopes
            && (!NamesAgent(agent) ==> w1 == w)
  {
  }

  /** An agent client is created for token exchange. */
  lemma AgentIsCreatedForExchange(ok: nat -> bool, w: World, agent: Option<string>)
    requires AllOk(ok) && NamesAgent(agent) && agent.value !in w.store.clients
    ensures var w1 := AgentEnsured(ok, w, agent).store;
            agent.value in w1.clients && w1.clients[agent.value] == map["standard.token.exchange.enabled" := "true"]
  {
  }

  lemma {:induction false} ClientInPlace(ok: nat -> bool, w: World, targets: seq<Target>, agent: Option<string>, i: nat)
    requires AllOk(ok) && i < |targets| && !targets[i].passthrough
    ensures targets[i].audience in TargetsEnsured(ok, w, targets, agent).store.clients
    decreases |targets|
  {
    var n := |targets| - 1;
    var v := TargetsEnsured(ok, w, targets[..n], agent);
    TargetGrows(ok, v, targets[n], agent);
    TargetBecomesDone(ok, v, targets[n], agent);
    if i < n {
      ClientInPlace(ok, w, targets[..n], agent, i);
    }
  }

  /** A run in which every write takes effect leaves the agent, if one is named, as a client, and every counting target
      furnished, agent included; and every counting target's hostname is set if and only if those that share an audience
      agree on the host. */
  lemma CompletedRunLeaves(ok: nat -> bool, w: World, targets: seq<Target>, agent: Option<string>)
    requires AllOk(ok)
    ensures var s := Reconciled(ok, w, targets, agent).store;
            && (NamesAgent(agent) ==> agent.value in s.clients)
            && (forall i :: 0 <= i < |targets| && !targets[i].passthrough ==> Furnished(s, targets[i], agent))
            && ((forall i :: 0 <= i < |targets| && !targets[i].passthrough ==> HostIs(s, targets[i])) <==> HostsAgree(targets))
  {
    var w1 := AgentEnsured(ok, w, agent);
    AgentBecomesReady(ok, w, agent);
    var ready := ReadyAgent(w1, agent);
    var s := TargetsEnsured(ok, w1, targets, ready).store;
    ReconcilingOnlyAdds(ok, w1, targets, ready);
    forall i | 0 <= i < |targets| && !targets[i].passthrough
      ensures Furnished(s, targets[i], agent) && (HostIs(s, targets[i]) <==> HostSet(s, targets[i].audience, targets[i].host))
      ensures ScopesDone(s, targets[i].scopes, ready)
    {
      ClientInPlace(ok, w1, targets, ready, i);
      ScopesInPlace(ok, w1, targets, ready, i);
      FurnishedByDone(s, targets[i], agent);
    }
    CompletedRunSatisfiesIff(ok, w1, targets, ready);
  }

  lemma FurnishedByDone(s: Store, t: Target, agent: Option<string>)
    requires t.audience in s.clients && ScopesDone(s, t.scopes, if NamesAgent(agent) then agent else None)
    ensures Furnished(s, t, agent)
  {
    forall k | 0 <= k < |t.scopes| && EndsInAud(t.scopes[k])
      ensures ScopeDone(s, t.scopes[k], if NamesAgent(agent) then agent else None)
    {
      assert IsAudienceScope(t.scopes[k]);
    }
  }

  /** Wanted by some counting target. */
  ghost predicate WantsClient(targets: seq<Target>, client: string) {
    exists i :: 0 <= i < |targets| && !targets[i].passthrough && targets[i].audience == client
  }

  ghost predicate WantsScope(targets: seq<Target>, scope: string) {
    EndsInAud(scope) && exists i :: 0 <= i < |targets| && !targets[i].passthrough && scope in targets[i].scopes
  }

  lemma ScopeAddsOnly(ok: nat -> bool, w: World, audience: string, scope: string, agent: Option<string>)
    ensures var s, s' := w.store, ScopeEnsured(ok, w, audience, scope, agent).store;
            && (forall n :: n in s'.scopes && n !in s.scopes ==> n == scope)
            && (forall g :: g in s'.granted && g !in s.granted ==> agent == Some(g.client) && g.scope == scope)
  {
  }

  ghost predicate AddsOnly(s: Store, s': Store, scopes: seq<string>, agent: Option<string>) {
    && (forall n :: n in s'.scopes && n !in s.scopes ==> EndsInAud(n) && n in scopes)
    && (forall g :: g in s'.granted && g !in s.granted ==> agent == Some(g.client) && EndsInAud(g.scope) && g.scope in scopes)
  }

  lemma {:induction false} ScopesAddOnly(ok: nat -> bool, w: World, audience: string, scopes: seq<string>, agent: Option<string>)
    ensures AddsOnly(w.store, ScopesEnsured(ok, w, audience, scopes, agent).store, scopes, agent)
    decreases |scopes|
  {
    if scopes != [] {
      var init, s := scopes[..|scopes| - 1], scopes[|scopes| - 1];
      assert scopes == init + [s];
      ScopesAddOnly(ok, w, audience, init, agent);
      ScopeAddsOnly(ok, ScopesEnsured(ok, w, audience, init, agent), audience, s, agent);
      assert IsAudienceScope(s) <==> EndsInAud(s);
    }
  }

  lemma TargetAddsOnly(ok: nat -> bool, w: World, t: Target, agent: Option<string>)
    ensures var s' := TargetEnsured(ok, w, t, agent).store;
            && (forall c :: c in s'.clients && c !in w.store.clients ==> !t.passthrough && c == t.audience)
            && AddsOnly(w.store, s', if t.passthrough then [] else t.scopes, agent)
  {
    if !t.passthrough {
      var w1 := ClientEnsured(ok, w, t.audience);
      ScopesGrow(ok, w1, t.audience, t.scopes, agent);
      ScopesAddOnly(ok, w1, t.audience, t.scopes, agent);
    }
  }

  /** Whatever is declined or fails, nothing appears that no counting target asked for: no client but theirs, no scope that
      does not end in "-aud" or that none of them lists, and no grant but of such a scope to the agent. */
  lemma {:induction false} NothingUnasked(ok: nat -> bool, w: World, targets: seq<Target>, agent: Option<string>)
    ensures var s, s' := w.store, TargetsEnsured(ok, w, targets, agent).store;
            && (forall c :: c in s'.clients && c !in s.clients ==> WantsClient(targets, c))
            && (forall n :: n in s'.scopes && n !in s.scopes ==> WantsScope(targets, n))
            && (forall g :: g in s'.granted && g !in s.granted ==> agent == Some(g.client) && WantsScope(targets, g.scope))
    decreases |targets|
  {
    if targets != [] {
      var init, t := targets[..|targets| - 1], targets[|targets| - 1];
      var v := TargetsEnsured(ok, w, init, agent);
      NothingUnasked(ok, w, init, agent);
      TargetAddsOnly(ok, v, t, agent);
      WantsMore(targets);
    }
  }

  lemma WantsMore(targets: seq<Target>)
    requires targets != []
    ensures var init, t := targets[..|targets| - 1], targets[|targets| - 1];
            && (forall c :: WantsClient(init, c) || (!t.passthrough && c == t.audience) ==> WantsClient(targets, c))
            && (forall n :: WantsScope(init, n) || (!t.passthrough && EndsInAud(n) && n in t.scopes) ==> WantsScope(targets, n))
  {
    var init, t := targets[..|targets| - 1], targets[|targets| - 1];
    assert targets[|targets| - 1] == t && forall i :: 0 <= i < |init| ==> targets[i] == init[i];
  }

  /** The same for a whole run; the agent's own client is the one more that may appear. With no agent named, nothing is
      granted. */
  lemma RunAddsOnlyWhatIsAsked(ok: nat -> bool, w: World, targets: seq<Target>, agent: Option<string>)
    ensures var s, s' := w.store, Reconciled(ok, w, targets, agent).store;
            && (forall c :: c in s'.clients && c !in s.clients ==> WantsClient(targets, c) || (NamesAgent(agent) && c == agent.value))
            && (forall n :: n in s'.scopes && n !in s.scopes ==> WantsScope(targets, n))
            && (forall g :: g in s'.granted && g !in s.granted ==> NamesAgent(agent) && g.client == agent.value && WantsScope(targets, g.scope))
            && (!NamesAgent(agent) ==> s'.granted == s.granted)
  {
    var w1 := AgentEnsured(ok, w, agent);
    var ready := ReadyAgent(w1, agent);
    NothingUnasked(ok, w1, targets, ready);
    ReconcilingOnlyAdds(ok, w1, targets, ready);
    var s' := TargetsEnsured(ok, w1, targets, ready).store;
    if !NamesAgent(agent) {
      assert forall g :: g in s'.granted ==> g in w.store.granted;
    }
  }

  // ----- Which audience a scope is mapped to -----

  predicate Lists(t: Target, scope: string) {
    !t.passthrough && scope in t.scopes
  }

  /** The audience of the first counting target that lists the scope. */
  function FirstAudience(targets: seq<Target>, scope: string): Option<string> {
    if targets == [] then None
    else
      var earlier, t := FirstAudience(targets[..|targets| - 1], scope), targets[|targets| - 1];
      if earlier.Some? then earlier else if Lists(t, scope) then Some(t.audience) else None
  }

  function MappersOf(s: Store, scope: string): seq<string> {
    if scope in s.scopes then s.scopes[scope] else []
  }

  lemma ScopeMappers(ok: nat -> bool, w: World, audience: string, s: string, agent: Option<string>, scope: string)
    requires AllOk(ok)
    ensures MappersOf(ScopeEnsured(ok, w, audience, s, agent).store, scope) ==
            if s == scope && MappersOf(w.store, scope) == [] then [audience] else MappersOf(w.store, scope)
  {
  }

  lemma {:induction false} ScopesMappers(ok: nat -> bool, w: World, audience: string, scopes: seq<string>, agent: Option<string>, scope: string)
    requires AllOk(ok) && IsAudienceScope(scope)
    ensures MappersOf(ScopesEnsured(ok, w, audience, scopes, agent).store, scope) ==
            if scope in scopes && MappersOf(w.store, scope) == [] then [audience] else MappersOf(w.store, scope)
  {
    if scopes != [] {
      var init, s := scopes[..|scopes| - 1], scopes[|scopes| - 1];
      assert scopes == init + [s];
      ScopesMappers(ok, w, audience, init, agent, scope);
      if IsAudienceScope(s) {
        ScopeMappers(ok, ScopesEnsured(ok, w, audience, init, agent), audience, s, agent, scope);
      }
    }
  }

  lemma TargetMappers(ok: nat -> bool, w: World, t: Target, agent: Option<string>, scope: string)
    requires AllOk(ok) && IsAudienceScope(scope)
    ensures MappersOf(TargetEnsured(ok, w, t, agent).store, scope) ==
            if Lists(t, scope) && MappersOf(w.store, scope) == [] then [t.audience] else MappersOf(w.store, scope)
  {
    if !t.passthrough {
      ScopesMappers(ok, ClientEnsured(ok, w, t.audience), t.audience, t.scopes, agent, scope);
    }
  }

  /** The check for a mapper ignores which audience it maps. After a completed run, the mappers of a
      scope are those it had, or, if it had none, one for the first target that lists it. */
  lemma {:induction false} MapperGoesToFirstTarget(ok: nat -> bool, w: World, targets: seq<Target>, agent: Option<string>, scope: string)
    requires AllOk(ok) && IsAudienceScope(scope)
    ensures var first := FirstAudience(targets, scope);
            MappersOf(TargetsEnsured(ok, w, targets, agent).store, scope) ==
            if MappersOf(w.store, scope) == [] && first.Some? then [first.value] else MappersOf(w.store, scope)
  {
    if targets != [] {
      var init, t := targets[..|targets| - 1], targets[|targets| - 1];
      MapperGoesToFirstTarget(ok, w, init, agent, scope);
      TargetMappers(ok, TargetsEnsured(ok, w, init, agent), t, agent, scope);
    }
  }

  /** So a target ends up with a mapper for its own audience on a scope it lists exactly when the scope
      had one already, or had none and no earlier target claimed it for another audience. */
  lemma AudienceIsMappedIff(ok: nat -> bool, w: World, targets: seq<Target>, agent: Option<string>, i: nat, scope: string)
    requires AllOk(ok) && IsAudienceScope(scope) && i < |targets| && Lists(targets[i], scope)
    ensures targets[i].audience in MappersOf(TargetsEnsured(ok, w, targets, agent).store, scope) <==>
              || targets[i].audience in MappersOf(w.store, scope)
              || (MappersOf(w.store, scope) == [] && FirstAudience(targets, scope) == Some(targets[i].audience))
  {
    MapperGoesToFirstTarget(ok, w, targets, agent, scope);
    ListedScopeHasFirst(targets, i, scope);
  }

  /** Two targets that share a scope but not an audience: the second is never given a mapper. */
  lemma SharedScopeMapsFirstAudience(ok: nat -> bool, agent: Option<string>)
    requires AllOk(ok)
    ensures var targets := [Target("h", "a", ["s-aud"], false), Target("k", "b", ["s-aud"], false)];
            "b" !in MappersOf(TargetsEnsured(ok, World(Store(map[], map[], {}), 0), targets, agent).store, "s-aud")
  {
    var targets := [Target("h", "a", ["s-aud"], false), Target("k", "b", ["s-aud"], false)];
    assert targets[..1] == [targets[0]] && targets[..1][..0] == [];
    assert "s-aud"[|"s-aud"| - |AUDIENCE_SUFFIX|..] == AUDIENCE_SUFFIX;
    assert FirstAudience(targets[..1], "s-aud") == Some("a");
    MapperGoesToFirstTarget(ok, World(Store(map[], map[], {}), 0), targets, agent, "s-aud");
  }

  lemma {:induction false} ListedScopeHasFirst(targets: seq<Target>, i: nat, scope: string)
    requires i < |targets| && Lists(targets[i], scope)
    ensures FirstAudience(targets, scope).Some?
    decreases |targets|
  {
    if i < |targets| - 1 {
      ListedScopeHasFirst(targets[..|targets| - 1], i, scope);
    }
  }

  // ----- The reconciler -----

  class Reconciler {
    const ok: nat -> bool
    var store: Store
    var tries: nat
    var targetsChecked: nat

    ghost function Value(): World
      reads this
    {
      World(store, tries)
    }

    constructor (ok: nat -> bool, store: Store)
      ensures this.ok == ok && Value() == World(store, 0) && targetsChecked == 0
    {
      this.ok, this.store, tries, targetsChecked := ok, store, 0, 0;
    }

    method Try(write: Write)
      modifies this`store, this`tries
      ensures Value() == Tried(ok, old(Value()), write)
    {
      if ok(tries) {
        store := Applied(store, write);
      }
      tries := tries + 1;
    }

    method EnsureAgent(agent: Option<string>) returns (ready: Option<string>)
      modifies this`store, this`tries
      ensures Value() == AgentEnsured(ok, old(Value()), agent) && ready == ReadyAgent(Value(), agent)
    {
      if agent.None? || agent.value == "" {
        return None;
      }
      if agent.value !in store.clients {
        Try(CreateAgent(agent.value));
      }
      ready := if agent.value in store.clients then agent else None;
    }

    method AssignScopeToAgent(scope: string, agent: Option<string>)
      modifies this`store, this`tries
      ensures Value() == Assigned(ok, old(Value()), scope, agent)
    {
      if agent.Some? && Grant(agent.value, scope) !in store.granted {
        Try(AssignScope(agent.value, scope));
      }
    }

    method CheckScopes(audience: string, scopes: seq<string>, agent: Option<string>)
      modifies this`store, this`tries
      ensures Value() == ScopesEnsured(ok, old(Value()), audience, scopes, agent)
    {
      for i := 0 to |scopes|
        invariant Value() == ScopesEnsured(ok, old(Value()), audience, scopes[..i], agent)
      {
        assert scopes[..i + 1][..i] == scopes[..i];
        var scope := scopes[i];
        if IsAudienceScope(scope) {
          CheckScope(audience, scope, agent);
        }
      }
      assert scopes[..|scopes|] == scopes;
    }

    method CheckScope(audience: string, scope: string, agent: Option<string>)
      modifies this`store, this`tries
      ensures Value() == ScopeEnsured(ok, old(Value()), audience, scope, agent)
    {
      if scope !in store.scopes {
        Try(CreateScope(scope));
        if scope in store.scopes {
          Try(AddMapper(scope, audience));
          AssignScopeToAgent(scope, agent);
        }
        return;
      }
      if store.scopes[scope] == [] {
        Try(AddMapper(scope, audience));
      }
      AssignScopeToAgent(scope, agent);
    }

    method CheckHostname(audience: string, host: string)
      requires audience in store.clients
      modifies this`store, this`tries
      ensures Value() == HostEnsured(ok, old(Value()), audience, host)
    {
      var attributes := store.clients[audience];
      if HOSTNAME_ATTRIBUTE !in attributes {
        Try(SetHost(audience, host));
      } else if attributes[HOSTNAME_ATTRIBUTE] != host {
        Try(SetHost(audience, host));
      }
    }

    method ReconcileTarget(t: Target, agent: Option<string>)
      requires !t.passthrough
      modifies this`store, this`tries
      ensures Value() == TargetEnsured(ok, old(Value()), t, agent)
    {
      if t.audience !in store.clients {
        Try(CreateClient(t.audience));
        if t.audience !in store.clients {
          return;
        }
      }
      ghost var w1 := Value();
      CheckScopes(t.audience, t.scopes, agent);
      ScopesGrow(ok, w1, t.audience, t.scopes, agent);
      CheckHostname(t.audience, t.host);
    }

    method Reconcile(targets: seq<Target>, agent: Option<string>)
      modifies this
      ensures Value() == Reconciled(ok, old(Value()), targets, agent)
      ensures targetsChecked == old(targetsChecked) + Counting(targets)
    {
      var ready := EnsureAgent(agent);
      ghost var w1 := Value();
      for n := 0 to |targets|
        invariant Value() == TargetsEnsured(ok, w1, targets[..n], ready)
        invariant targetsChecked == old(targetsChecked) + Counting(targets[..n])
      {
        assert targets[..n + 1][..n] == targets[..n];
        if targets[n].passthrough {
          continue;
        }
        ReconcileTarget(targets[n], ready);
        targetsChecked := targetsChecked + 1;
      }
      assert targets[..|targets|] == targets;
    }
  }
}
