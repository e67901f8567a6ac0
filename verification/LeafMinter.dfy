/**
 The leaf-certificate minter's cache: a list in most-recently-used order and a map into it, kept
 in step, with a time to live and a bound on size. Certificates are abstracted to the host they
 were minted for and their validity window; times are in nanoseconds and every clock read of a
 call is its own parameter.
 */
module LeafMinter {
  import opened Common

  const SECOND: int := 1_000_000_000
  const MINUTE: int := 60 * SECOND
  const HOUR: int := 60 * MINUTE
  const DEFAULT_CACHE_MAX: nat := 1024
  const DEFAULT_LEAF_TTL: int := 24 * HOUR

  datatype Leaf = Leaf(host: string, notBefore: int, notAfter: int)

  datatype Entry = Entry(host: string, leaf: Leaf, expires: int)

  /** The clock reads of one call, in program order: the expiry check, the two ends of the validity
      window while minting, and the cache expiry. */
  datatype Clock = Clock(check: int, begin: int, end: int, store: int)

  /** Certificates carry whole seconds. */
  function WholeSeconds(t: int): int {
    t / SECOND * SECOND
  }

  lemma WholeSecondsCut(t: int)
    ensures t - SECOND < WholeSeconds(t) <= t
  {
  }

  function Minted(host: string, ttl: int, t: Clock): Leaf {
    Leaf(host, WholeSeconds(t.begin - MINUTE), WholeSeconds(t.end + ttl + HOUR))
  }

  // ----- Specification on the list of entries -----

  function Hosts(es: seq<Entry>): (r: seq<string>)
    ensures |r| == |es|
  {
    if es == [] then [] else [es[0].host] + Hosts(es[1..])
  }

  /** The entry of a host, if it has one. */
  function Lookup(es: seq<Entry>, host: string): (r: Option<Entry>)
    ensures r.Some? ==> r.value in es && r.value.host == host
  {
    if es == [] then None else if es[0].host == host then Some(es[0]) else Lookup(es[1..], host)
  }

  function WithoutHost(es: seq<Entry>, host: string): (r: seq<Entry>)
    ensures |r| <= |es|
  {
    if es == [] then []
    else if es[0].host == host then WithoutHost(es[1..], host)
    else [es[0]] + WithoutHost(es[1..], host)
  }

  function Take<T>(s: seq<T>, n: nat): (r: seq<T>)
    ensures |r| == if |s| <= n then |s| else n
  {
    if s == [] || n == 0 then [] else [s[0]] + Take(s[1..], n - 1)
  }

  /** One call: the entries afterwards and the leaf served; `mints` says whether minting would succeed. */
  function Got(max: nat, ttl: int, es: seq<Entry>, host: string, t: Clock, mints: bool): (seq<Entry>, Option<Leaf>) {
    var hit, rest := Lookup(es, host), WithoutHost(es, host);
    if hit.Some? && t.check < hit.value.expires then ([hit.value] + rest, Some(hit.value.leaf))
    else if !mints then (rest, None)
    else
      var leaf := Minted(host, ttl, t);
      (Take([Entry(host, leaf, t.store + ttl)] + rest, max), Some(leaf))
  }

  datatype Call = Call(host: string, t: Clock, mints: bool)

  function After(max: nat, ttl: int, calls: seq<Call>): seq<Entry> {
    if calls == [] then []
    else
      var c := calls[|calls| - 1];
      Got(max, ttl, After(max, ttl, calls[..|calls| - 1]), c.host, c.t, c.mints).0
  }

  function Returned(max: nat, ttl: int, calls: seq<Call>, c: Call): Option<Leaf> {
    Got(max, ttl, After(max, ttl, calls), c.host, c.t, c.mints).1
  }

  /** A cached leaf that has not expired is served as it is, whether or not one could be minted. Otherwise one is minted
      for the host, or there is none. */
  lemma ServesCachedElseMints(max: nat, ttl: int, es: seq<Entry>, host: string, t: Clock, mints: bool)
    ensures var hit, leaf := Lookup(es, host), Got(max, ttl, es, host, t, mints).1;
            if hit.Some? && t.check < hit.value.expires then leaf == Some(hit.value.leaf)
            else if mints then leaf.Some? && leaf.value.host == host && MintedAt(leaf.value, ttl, t)
            else leaf == None
  {
    WholeSecondsCut(t.begin - MINUTE);
    WholeSecondsCut(t.end + ttl + HOUR);
  }

  lemma {:induction false} LookupWithout(es: seq<Entry>, host: string, h: string)
    ensures Lookup(WithoutHost(es, host), h) == if h == host then None else Lookup(es, h)
    decreases |es|
  {
    if es != [] {
      LookupWithout(es[1..], host, h);
    }
  }

  lemma LookupCons(e: Entry, es: seq<Entry>, h: string)
    ensures Lookup([e] + es, h) == if e.host == h then Some(e) else Lookup(es, h)
  {
    assert ([e] + es)[1..] == es;
  }

  /** Cutting the list loses an entry only by filling it. */
  ghost predicate LostByFilling(es: seq<Entry>, cut: seq<Entry>, n: nat, h: string) {
    Lookup(cut, h) == Lookup(es, h) || (Lookup(cut, h) == None && |cut| == n)
  }

  lemma LostByFillingCons(e: Entry, es: seq<Entry>, cut: seq<Entry>, n: nat, h: string)
    requires LostByFilling(es, cut, n, h)
    ensures LostByFilling([e] + es, [e] + cut, n + 1, h)
  {
    LookupCons(e, es, h);
    LookupCons(e, cut, h);
  }

  lemma {:induction false} LookupTake(es: seq<Entry>, n: nat, h: string)
    ensures LostByFilling(es, Take(es, n), n, h)
    decreases |es|
  {
    if es != [] && n > 0 {
      var rest, cut := es[1..], Take(es[1..], n - 1);
      LookupTake(rest, n - 1, h);
      assert es == [es[0]] + rest && Take(es, n) == [es[0]] + cut;
      LostByFillingCons(es[0], rest, cut, n - 1, h);
    }
  }

  lemma LookupMinted(e: Entry, rest: seq<Entry>, cut: seq<Entry>, n: nat, h: string)
    requires cut == Take(rest, n)
    ensures var found := Lookup([e] + cut, h);
            if e.host == h then found == Some(e) else found == Lookup(rest, h) || (found == None && |cut| == n)
  {
    LookupTake(rest, n, h);
    LookupCons(e, cut, h);
  }

  lemma GotMinted(max: nat, ttl: int, es: seq<Entry>, host: string, t: Clock)
    requires max > 0 && (Lookup(es, host).Some? ==> t.check >= Lookup(es, host).value.expires)
    ensures var leaf := Minted(host, ttl, t);
            Got(max, ttl, es, host, t, true) == ([Entry(host, leaf, t.store + ttl)] + Take(WithoutHost(es, host), max - 1), Some(leaf))
  {
    TakeCons(Entry(host, Minted(host, ttl, t), t.store + ttl), WithoutHost(es, host), max);
  }

  /** After minting, the new entry is in the cache with its time to live; every other entry stays as it was, or goes
      because the cache is full. */
  lemma MintLeavesInCache(max: nat, ttl: int, es: seq<Entry>, host: string, t: Clock, h: string)
    requires max > 0 && (Lookup(es, host).Some? ==> t.check >= Lookup(es, host).value.expires)
    ensures var (es', leaf) := Got(max, ttl, es, host, t, true);
            && leaf.Some?
            && if h == host then Lookup(es', h) == Some(Entry(host, leaf.value, t.store + ttl))
               else Lookup(es', h) == Lookup(es, h) || (Lookup(es', h) == None && |es'| == max)
  {
    var rest := WithoutHost(es, host);
    var cut := Take(rest, max - 1);
    GotMinted(max, ttl, es, host, t);
    LookupWithout(es, host, h);
    LookupMinted(Entry(host, Minted(host, ttl, t), t.store + ttl), rest, cut, max - 1, h);
  }

  /** Serving a cached leaf changes no entry; failing to mint removes the host's expired one and changes no other. */
  lemma NoMintLeavesInCache(max: nat, ttl: int, es: seq<Entry>, host: string, t: Clock, mints: bool, h: string)
    requires mints ==> Lookup(es, host).Some? && t.check < Lookup(es, host).value.expires
    ensures var live := Lookup(es, host).Some? && t.check < Lookup(es, host).value.expires;
            Lookup(Got(max, ttl, es, host, t, mints).0, h) == if h != host || live then Lookup(es, h) else None
  {
    var hit, rest := Lookup(es, host), WithoutHost(es, host);
    LookupWithout(es, host, h);
    if hit.Some? {
      LookupCons(hit.value, rest, h);
    }
  }

  /** Valid from a minute before until an hour after the time to live, to the second below. */
  predicate MintedAt(leaf: Leaf, ttl: int, t: Clock) {
    && t.begin - MINUTE - SECOND < leaf.notBefore <= t.begin - MINUTE
    && t.end + ttl + HOUR - SECOND < leaf.notAfter <= t.end + ttl + HOUR
  }

  /** A leaf that was just minted is served again, and no other is minted, for exactly the time to live. */
  lemma FreshLeafIsServedForTtl(max: nat, ttl: int, es: seq<Entry>, host: string, t: Clock, u: Clock)
    requires max > 0
    requires Lookup(es, host).Some? ==> t.check >= Lookup(es, host).value.expires
    ensures var (es', leaf) := Got(max, ttl, es, host, t, true);
            leaf.Some? && (Got(max, ttl, es', host, u, false).1 == if u.check < t.store + ttl then leaf else None)
  {
    var e := Entry(host, Minted(host, ttl, t), t.store + ttl);
    TakeCons(e, WithoutHost(es, host), max);
  }

  // ----- Least recently used, from the call history -----

  /** The distinct hosts of a history, most recently asked for first. */
  function Recent(history: seq<string>): seq<string> {
    if history == [] then []
    else
      var last := history[|history| - 1];
      [last] + Without(Recent(history[..|history| - 1]), last)
  }

  predicate Distinct(s: seq<string>) {
    s == [] || (s[0] !in s[1..] && Distinct(s[1..]))
  }

  lemma {:induction false} WithoutDistinct(s: seq<string>, x: string)
    requires Distinct(s)
    ensures Distinct(Without(s, x))
  {
    if s != [] {
      WithoutDistinct(s[1..], x);
      var r := Without(s[1..], x);
      assert ([s[0]] + r)[1..] == r;
    }
  }

  lemma {:induction false} RecentDistinct(history: seq<string>)
    ensures Distinct(Recent(history))
    ensures forall x :: x in Recent(history) <==> x in history
  {
    if history != [] {
      var p, last := history[..|history| - 1], history[|history| - 1];
      RecentDistinct(p);
      WithoutDistinct(Recent(p), last);
      var r := Without(Recent(p), last);
      assert ([last] + r)[1..] == r;
      assert history == p + [last];
    }
  }

  /** Position of the last request for `x`. */
  function LastUse(history: seq<string>, x: string): (i: int)
    ensures -1 <= i < |history|
    ensures i >= 0 <==> x in history
  {
    if history == [] then -1
    else if history[|history| - 1] == x then |history| - 1
    else LastUse(history[..|history| - 1], x)
  }

  /** Strictly in order of last use, latest first. */
  ghost predicate ByLastUse(history: seq<string>, s: seq<string>) {
    forall i, j :: 0 <= i < j < |s| ==> LastUse(history, s[i]) > LastUse(history, s[j])
  }

  lemma {:induction false} WithoutKeepsOrder(history: seq<string>, s: seq<string>, x: string)
    requires ByLastUse(history, s)
    ensures ByLastUse(history, Without(s, x))
  {
    if s != [] {
      assert forall i, j :: 0 <= i < j < |s[1..]| ==> s[1..][i] == s[i + 1] && s[1..][j] == s[j + 1];
      WithoutKeepsOrder(history, s[1..], x);
      var r := Without(s[1..], x);
      forall j | 0 <= j < |r|
        ensures LastUse(history, s[0]) > LastUse(history, r[j])
      {
        assert r[j] in s[1..];
      }
    }
  }

  /** `Recent` is what its name says: each requested host once, ordered by its last request. */
  lemma {:induction false} RecentIsByLastUse(history: seq<string>)
    ensures ByLastUse(history, Recent(history))
  {
    if history != [] {
      var p, last := history[..|history| - 1], history[|history| - 1];
      RecentIsByLastUse(p);
      WithoutKeepsOrder(p, Recent(p), last);
      var r := Without(Recent(p), last);
      assert forall j :: 0 <= j < |r| ==> r[j] in r && LastUse(history, r[j]) == LastUse(p, r[j]);
    }
  }

  lemma {:induction false} TakeAll<T>(s: seq<T>, n: nat)
    requires |s| <= n
    ensures Take(s, n) == s
  {
    if s != [] {
      TakeAll(s[1..], n - 1);
    }
  }

  /** Bounding before or after a host moves to the front makes no difference. */
  lemma {:induction false} TakeWithout(s: seq<string>, x: string, n: nat)
    requires Distinct(s)
    ensures Take(Without(Take(s, n + 1), x), n) == Take(Without(s, x), n)
  {
    if s != [] {
      var t := Take(s[1..], n);
      assert ([s[0]] + t)[1..] == t;
      if s[0] == x {
        WithoutAbsent(s[1..], x);
        TakeIsPrefix(s[1..], n);
        WithoutAbsent(t, x);
        assert Without(Take(s, n + 1), x) == t;
        TakeAll(t, n);
      } else if n > 0 {
        TakeWithout(s[1..], x, n - 1);
        TakeCons(s[0], Without(t, x), n);
        TakeCons(s[0], Without(s[1..], x), n);
      }
    }
  }

  lemma {:induction false} TakeIsPrefix<T>(s: seq<T>, n: nat)
    ensures Take(s, n) <= s
    decreases |s|
  {
    if s != [] && n > 0 {
      TakeIsPrefix(s[1..], n - 1);
    }
  }

  lemma {:induction false} WithoutHostKeeps(es: seq<Entry>, host: string)
    ensures forall e :: e in WithoutHost(es, host) ==> e in es
    decreases |es|
  {
    if es != [] {
      WithoutHostKeeps(es[1..], host);
    }
  }

  lemma TakeCons<T>(x: T, s: seq<T>, n: nat)
    requires n > 0
    ensures Take([x] + s, n) == [x] + Take(s, n - 1)
  {
    assert ([x] + s)[1..] == s;
  }

  lemma HostsCons(e: Entry, es: seq<Entry>)
    ensures Hosts([e] + es) == [e.host] + Hosts(es)
  {
    assert ([e] + es)[1..] == es;
  }

  lemma {:induction false} HostsTake(es: seq<Entry>, n: nat)
    ensures Hosts(Take(es, n)) == Take(Hosts(es), n)
  {
    if es != [] && n > 0 {
      HostsTake(es[1..], n - 1);
      HostsCons(es[0], Take(es[1..], n - 1));
      TakeCons(es[0].host, Hosts(es[1..]), n);
    }
  }

  lemma {:induction false} HostsWithout(es: seq<Entry>, host: string)
    ensures Hosts(WithoutHost(es, host)) == Without(Hosts(es), host)
    ensures Lookup(es, host).Some? <==> host in Hosts(es)
  {
    if es != [] {
      HostsWithout(es[1..], host);
      var r := WithoutHost(es[1..], host);
      HostsCons(es[0], r);
      assert Hosts(es)[1..] == Hosts(es[1..]);
    }
  }

  lemma {:induction false} WithoutShrinks(s: seq<string>, x: string)
    ensures |Without(s, x)| <= |s|
    ensures x in s ==> |Without(s, x)| < |s|
  {
    if s != [] {
      WithoutShrinks(s[1..], x);
    }
  }

  lemma HostsOfGot(max: nat, ttl: int, es: seq<Entry>, host: string, t: Clock)
    requires max > 0 && |es| <= max
    ensures Hosts(Got(max, ttl, es, host, t, true).0) == Take([host] + Without(Hosts(es), host), max)
  {
    HostsWithout(es, host);
    WithoutShrinks(Hosts(es), host);
    var hit, rest := Lookup(es, host), WithoutHost(es, host);
    if hit.Some? && t.check < hit.value.expires {
      HostsCons(hit.value, rest);
      TakeAll([host] + Without(Hosts(es), host), max);
    } else {
      var e := Entry(host, Minted(host, ttl, t), t.store + ttl);
      HostsCons(e, rest);
      HostsTake([e] + rest, max);
    }
  }

  function HostHistory(calls: seq<Call>): (r: seq<string>)
    ensures |r| == |calls| && forall i :: 0 <= i < |calls| ==> r[i] == calls[i].host
  {
    if calls == [] then [] else HostHistory(calls[..|calls| - 1]) + [calls[|calls| - 1].host]
  }

  /** Whatever the clock does, and however often entries expire and are minted anew: if minting
      succeeds, the cached hosts are exactly the most recently requested ones, in order. */
  lemma {:induction false} CacheIsMostRecentHosts(max: nat, ttl: int, calls: seq<Call>)
    requires max > 0 && forall i :: 0 <= i < |calls| ==> calls[i].mints
    ensures Hosts(After(max, ttl, calls)) == Take(Recent(HostHistory(calls)), max)
  {
    var h := HostHistory(calls);
    if calls != [] {
      var p, c := calls[..|calls| - 1], calls[|calls| - 1];
      CacheIsMostRecentHosts(max, ttl, p);
      HostsOfGot(max, ttl, After(max, ttl, p), c.host, c.t);
      var r := Recent(HostHistory(p));
      RecentDistinct(HostHistory(p));
      assert h[..|h| - 1] == HostHistory(p);
      MoveToFrontOfTaken(r, c.host, max);
    }
  }

  lemma MoveToFrontOfTaken(r: seq<string>, x: string, max: nat)
    requires Distinct(r) && max > 0
    ensures Take([x] + Without(Take(r, max), x), max) == Take([x] + Without(r, x), max)
  {
    TakeWithout(r, x, max - 1);
    TakeCons(x, Without(Take(r, max), x), max);
    TakeCons(x, Without(r, x), max);
  }

  // ----- Validity of what is served -----

  /** The mint of a call takes at most `d` between fixing the leaf's end and storing it. */
  predicate MintsWithin(t: Clock, d: int) {
    t.check <= t.begin <= t.end <= t.store && t.store - t.end <= d
  }

  ghost predicate Sound(es: seq<Entry>, d: int, before: int) {
    forall i :: 0 <= i < |es| ==> SoundEntry(es[i], d, before)
  }

  predicate SoundEntry(e: Entry, d: int, before: int) {
    e.leaf.host == e.host && e.leaf.notAfter > e.expires + HOUR - SECOND - d && e.leaf.notBefore < before
  }

  ghost predicate Monotone(calls: seq<Call>) {
    forall i, j :: 0 <= i < j < |calls| ==> calls[i].t.store <= calls[j].t.check
  }

  function Latest(calls: seq<Call>): int
    requires calls != []
  {
    calls[|calls| - 1].t.store
  }

  lemma GotSound(max: nat, ttl: int, es: seq<Entry>, c: Call, d: int, before: int)
    requires Sound(es, d, before) && MintsWithin(c.t, d) && before <= c.t.store
    ensures Sound(Got(max, ttl, es, c.host, c.t, c.mints).0, d, c.t.store)
  {
    var rest := WithoutHost(es, c.host);
    WithoutHostKeeps(es, c.host);
    assert forall e :: e in es ==> SoundEntry(e, d, before);
    assert forall i :: 0 <= i < |rest| ==> rest[i] in es && SoundEntry(rest[i], d, c.t.store);
    if c.mints {
      WholeSecondsCut(c.t.begin - MINUTE);
      WholeSecondsCut(c.t.end + ttl + HOUR);
      var e := Entry(c.host, Minted(c.host, ttl, c.t), c.t.store + ttl);
      TakeIsPrefix([e] + rest, max);
    }
  }

  lemma {:induction false} CacheIsSound(max: nat, ttl: int, calls: seq<Call>, d: int)
    requires Monotone(calls) && forall i :: 0 <= i < |calls| ==> MintsWithin(calls[i].t, d)
    ensures Sound(After(max, ttl, calls), d, if calls == [] then 0 else Latest(calls))
  {
    if calls != [] {
      var p, c := calls[..|calls| - 1], calls[|calls| - 1];
      CacheIsSound(max, ttl, p, d);
      if p == [] {
        assert Sound([], d, c.t.store);
        GotSound(max, ttl, [], c, d, c.t.store);
      } else {
        assert p[|p| - 1] == calls[|p| - 1];
        GotSound(max, ttl, After(max, ttl, p), c, d, Latest(p));
      }
    }
  }

  /** Is the call served from the cache? Then the expiry check is the only clock read of it. */
  predicate IsHit(es: seq<Entry>, c: Call) {
    var e := Lookup(es, c.host);
    e.Some? && c.t.check < e.value.expires
  }

  /** Every leaf served, cached or fresh, was minted for the host asked for and is inside its validity
      window at the call's first and last clock reads, with more than an hour less a second and less the
      longest mint to go. Failed mints in between do no harm. */
  lemma ServedLeafIsValid(max: nat, ttl: int, calls: seq<Call>, c: Call, d: int)
    requires ttl > 0 && Monotone(calls + [c])
    requires forall i :: 0 <= i < |calls + [c]| ==> MintsWithin((calls + [c])[i].t, d)
    requires Returned(max, ttl, calls, c).Some?
    ensures var leaf := Returned(max, ttl, calls, c).value;
            var hit := IsHit(After(max, ttl, calls), c);
            && leaf.host == c.host
            && leaf.notBefore < (if hit then c.t.check else c.t.begin)
            && leaf.notAfter > (if hit then c.t.check else c.t.store) + HOUR - SECOND - d
            && (d <= HOUR - SECOND ==> leaf.notAfter > if hit then c.t.check else c.t.store)
  {
    var all := calls + [c];
    assert forall i :: 0 <= i < |calls| ==> all[i] == calls[i];
    assert all[|calls|] == c;
    CacheIsSound(max, ttl, calls, d);
    WholeSecondsCut(c.t.begin - MINUTE);
    WholeSecondsCut(c.t.end + ttl + HOUR);
    var es := After(max, ttl, calls);
    var hit := Lookup(es, c.host);
    if hit.Some? && c.t.check < hit.value.expires {
      assert calls != [] && SoundEntry(hit.value, d, Latest(calls));
      assert all[|calls| - 1].t.store <= c.t.check;
    }
  }

  // ----- The minter -----

  /** A list element; its contents never change. */
  class Element {
    const entry: Entry

    constructor (entry: Entry)
      ensures this.entry == entry
    {
      this.entry := entry;
    }
  }

  function EntriesOf(ll: seq<Element>): (r: seq<Entry>)
    ensures |r| == |ll|
  {
    if ll == [] then [] else [ll[0].entry] + EntriesOf(ll[1..])
  }

  /** list.Remove: the list without that element. */
  function Unlinked(ll: seq<Element>, el: Element): (r: seq<Element>)
    ensures |r| <= |ll|
    ensures forall x :: x in r ==> x in ll && x != el
    ensures forall x :: x in ll && x != el ==> x in r
  {
    if ll == [] then [] else if ll[0] == el then Unlinked(ll[1..], el) else [ll[0]] + Unlinked(ll[1..], el)
  }

  ghost predicate DistinctElements(ll: seq<Element>) {
    forall i, j :: 0 <= i < |ll| && 0 <= j < |ll| && ll[i].entry.host == ll[j].entry.host ==> i == j
  }

  lemma EntriesCons(el: Element, ll: seq<Element>)
    ensures EntriesOf([el] + ll) == [el.entry] + EntriesOf(ll)
  {
    assert ([el] + ll)[1..] == ll;
  }

  lemma {:induction false} UnlinkedEntries(ll: seq<Element>, el: Element)
    requires DistinctElements(ll) && el in ll
    ensures EntriesOf(Unlinked(ll, el)) == WithoutHost(EntriesOf(ll), el.entry.host)
    ensures |Unlinked(ll, el)| < |ll| && Lookup(EntriesOf(ll), el.entry.host) == Some(el.entry)
  {
    var rest := ll[1..];
    assert forall i :: 0 <= i < |rest| ==> rest[i] == ll[i + 1];
    if ll[0] == el {
      NoSuchHost(rest, el.entry.host);
      NoSuchElement(rest, el);
    } else {
      UnlinkedEntries(rest, el);
      var r := Unlinked(rest, el);
      EntriesCons(ll[0], r);
      assert EntriesOf(ll)[1..] == EntriesOf(rest);
    }
  }

  lemma {:induction false} UnlinkedDistinct(ll: seq<Element>, el: Element)
    requires DistinctElements(ll)
    ensures DistinctElements(Unlinked(ll, el))
  {
    if ll != [] {
      var rest := ll[1..];
      assert forall i :: 0 <= i < |rest| ==> rest[i] == ll[i + 1];
      UnlinkedDistinct(rest, el);
      var r := Unlinked(rest, el);
      forall i | 0 <= i < |r|
        ensures r[i].entry.host != ll[0].entry.host
      {
        assert r[i] in rest;
        var k :| 0 <= k < |rest| && rest[k] == r[i];
        assert ll[k + 1] == r[i];
      }
    }
  }

  lemma {:induction false} NoSuchHost(ll: seq<Element>, host: string)
    requires forall i :: 0 <= i < |ll| ==> ll[i].entry.host != host
    ensures WithoutHost(EntriesOf(ll), host) == EntriesOf(ll) && Lookup(EntriesOf(ll), host) == None
  {
    if ll != [] {
      NoSuchHost(ll[1..], host);
    }
  }

  lemma {:induction false} NoSuchElement(ll: seq<Element>, el: Element)
    requires el !in ll
    ensures Unlinked(ll, el) == ll
  {
    if ll != [] {
      NoSuchElement(ll[1..], el);
    }
  }

  class Minter {
    const max: nat
    const ttl: int
    var ll: seq<Element>
    var items: map<string, Element>

    /** List and map are in bijection: the map points at the one element of each host. */
    ghost predicate Valid()
      reads this
    {
      max > 0 && ttl > 0 && |ll| <= max && InStep()
    }

    ghost predicate InStep()
      reads this
    {
      && DistinctElements(ll)
      && (forall h :: h in items ==> items[h] in ll && items[h].entry.host == h)
      && (forall el :: el in ll ==> el.entry.host in items)
    }

    constructor (cacheMax: int, leafTTL: int)
      ensures Valid() && ll == []
      ensures max == (if cacheMax <= 0 then DEFAULT_CACHE_MAX else cacheMax)
      ensures ttl == if leafTTL <= 0 then DEFAULT_LEAF_TTL else leafTTL
    {
      max := if cacheMax <= 0 then DEFAULT_CACHE_MAX else cacheMax;
      ttl := if leafTTL <= 0 then DEFAULT_LEAF_TTL else leafTTL;
      ll, items := [], map[];
    }

    method Drop(el: Element)
      requires InStep() && el in ll
      modifies this
      ensures InStep() && ll == Unlinked(old(ll), el) && items == old(items) - {el.entry.host}
    {
      UnlinkedDistinct(ll, el);
      ll := Unlinked(ll, el);
      items := items - {el.entry.host};
    }

    method PushFront(el: Element)
      requires InStep() && el.entry.host !in items
      modifies this
      ensures InStep() && ll == [el] + old(ll) && items == old(items)[el.entry.host := el]
    {
      ll := [el] + ll;
      items := items[el.entry.host := el];
    }

    /** The eviction loop; one round suffices. */
    method EvictOverflow()
      requires max > 0 && InStep() && |ll| <= max + 1
      modifies this
      ensures InStep() && |ll| <= max && EntriesOf(ll) == Take(EntriesOf(old(ll)), max)
    {
      while |ll| > max
        invariant InStep()
        invariant ll == old(ll) || (|old(ll)| == max + 1 && ll == old(ll)[..max])
        decreases |ll|
      {
        var back := ll[|ll| - 1];
        UnlinkedLast(ll, back);
        Drop(back);
      }
      TakeEntries(old(ll), max);
    }

    method GetCertificateForHost(host: string, t: Clock, mints: bool) returns (leaf: Option<Leaf>)
      requires Valid()
      modifies this
      ensures Valid()
      ensures (EntriesOf(ll), leaf) == Got(max, ttl, EntriesOf(old(ll)), host, t, mints)
    {
      ghost var was := ll;
      if host in items {
        var el := items[host];
        UnlinkedEntries(ll, el);
        Drop(el);
        if t.check < el.entry.expires {
          HitIsGot(max, ttl, was, el, t, mints);
          PushFront(el);
          return Some(el.entry.leaf);
        }
      } else {
        NoSuchHost(ll, host);
      }
      ghost var got := MissIsGot(max, ttl, EntriesOf(was), host, t, mints);
      if !mints {
        return None;
      }
      leaf := MintAndStore(host, t);
    }

    method MintAndStore(host: string, t: Clock) returns (leaf: Option<Leaf>)
      requires Valid() && host !in items
      modifies this
      ensures Valid() && leaf == Some(Minted(host, ttl, t))
      ensures EntriesOf(ll) == Take([Entry(host, Minted(host, ttl, t), t.store + ttl)] + EntriesOf(old(ll)), max)
    {
      var minted := Minted(host, ttl, t);
      var el := new Element(Entry(host, minted, t.store + ttl));
      EntriesCons(el, ll);
      PushFront(el);
      EvictOverflow();
      leaf := Some(minted);
    }
  }

  lemma MissIsGot(max: nat, ttl: int, es: seq<Entry>, host: string, t: Clock, mints: bool)
    returns (got: (seq<Entry>, Option<Leaf>))
    requires var hit := Lookup(es, host); hit.Some? ==> t.check >= hit.value.expires
    ensures got == Got(max, ttl, es, host, t, mints)
    ensures got == if !mints then (WithoutHost(es, host), None)
                   else (Take([Entry(host, Minted(host, ttl, t), t.store + ttl)] + WithoutHost(es, host), max), Some(Minted(host, ttl, t)))
  {
    got := Got(max, ttl, es, host, t, mints);
  }

  lemma HitIsGot(max: nat, ttl: int, ll: seq<Element>, el: Element, t: Clock, mints: bool)
    requires DistinctElements(ll) && el in ll && t.check < el.entry.expires
    ensures Got(max, ttl, EntriesOf(ll), el.entry.host, t, mints) == (EntriesOf([el] + Unlinked(ll, el)), Some(el.entry.leaf))
  {
    UnlinkedEntries(ll, el);
    EntriesCons(el, Unlinked(ll, el));
  }

  lemma {:induction false} TakeEntries(ll: seq<Element>, n: nat)
    ensures |ll| <= n ==> Take(EntriesOf(ll), n) == EntriesOf(ll)
    ensures |ll| == n + 1 ==> Take(EntriesOf(ll), n) == EntriesOf(ll[..n])
  {
    TakeAll(EntriesOf(ll[..if |ll| <= n then |ll| else n]), n);
    if |ll| <= n {
      assert ll[..|ll|] == ll;
    } else if |ll| == n + 1 && n > 0 {
      TakeEntries(ll[1..], n - 1);
      assert ll[..n][1..] == ll[1..][..n - 1];
    }
  }

  lemma {:induction false} UnlinkedLast(ll: seq<Element>, el: Element)
    requires DistinctElements(ll) && ll != [] && ll[|ll| - 1] == el
    ensures Unlinked(ll, el) == ll[..|ll| - 1]
  {
    if |ll| > 1 {
      var rest := ll[1..];
      assert forall i :: 0 <= i < |rest| ==> rest[i] == ll[i + 1];
      UnlinkedLast(rest, el);
      assert ll[..|ll| - 1] == [ll[0]] + rest[..|rest| - 1];
    }
  }
}
