/** What the DNS server finds for a name: A lookups, which allocate, and TXT and SRV lookups, which
    only look. */
module DnsLookup {
  import opened Wrappers
  import opened Strings
  import opened ClusterName
  import opened ServiceKeys
  import opened Allocator
  import opened ForwardState
  import opened Resolution

  /** The outside world during one message: the known contexts, what resolves, which addresses can be
      added and listened on, and the current context. */
  datatype World = World(
    contexts: seq<string>, resolve: Query -> Option<seq<int>>,
    add: Addr -> AddOutcome, listen: (Addr, int) -> bool, current: string)

  function EnvOf(w: World, q: Query): Env {
    Env(w.resolve(q), w.add, w.listen, w.current)
  }

  ghost predicate Ready(p: Proxy) {
    Bounded(p.a) && InRange(p.t)
  }

  function BaseOf(h: Host): Query {
    Query("", h.ns, h.svc, h.pod)
  }

  /** The contexts a name asks about: its own, or all of them. */
  function ContextsOf(h: Host, w: World): seq<string> {
    if h.ctx != "" then [h.ctx] else w.contexts
  }

  /** Resolves the service in each context in turn and collects what was found. */
  function ResolveEach(p: Proxy, base: Query, ctxs: seq<string>, w: World): (r: (Proxy, seq<ContextVip>))
    requires Ready(p)
    ensures Ready(r.0)
    decreases |ctxs|
  {
    if ctxs == [] then (p, [])
    else
      var q := base.(ctx := ctxs[0]);
      var (p1, r) := ResolveForContext(p, q, EnvOf(w, q));
      var (p2, rest) := ResolveEach(p1, base, ctxs[1..], w);
      (p2, (if r.Some? then [r.value] else []) + rest)
  }

  function ResolveA(p: Proxy, name: string, domain: string, w: World): (r: (Proxy, seq<ContextVip>))
    requires Ready(p)
    ensures Ready(r.0)
  {
    match ParseClusterHost(TrimSuffix(name, "."), domain)
    case None => (p, [])
    case Some(h) => ResolveEach(p, BaseOf(h), ContextsOf(h, w), w)
  }

  /** A context and the address a service holds in it. */
  datatype Held = Held(ctx: string, vip: Addr)

  function HeldOf(r: ContextVip): Held {
    Held(r.ctx, r.vip)
  }

  function Pairs(rs: seq<ContextVip>): (hs: seq<Held>)
    ensures |hs| == |rs|
    ensures forall i :: 0 <= i < |rs| ==> hs[i] == Held(rs[i].ctx, rs[i].vip)
  {
    seq(|rs|, i requires 0 <= i < |rs| => HeldOf(rs[i]))
  }

  /** The addresses already held for the service, context by context. */
  function FoundIn(a: Alloc, base: Query, ctxs: seq<string>): seq<Held>
    decreases |ctxs|
  {
    if ctxs == [] then []
    else
      var ip := Lookup(a, ServiceKey(base.(ctx := ctxs[0])));
      (if ip.Some? then [Held(ctxs[0], ip.value)] else []) + FoundIn(a, base, ctxs[1..])
  }

  /** Some context holds an address for the service, or could resolve it. */
  predicate ExistsIn(a: Alloc, base: Query, ctxs: seq<string>, w: World) {
    exists i :: 0 <= i < |ctxs| && KnownIn(a, base.(ctx := ctxs[i]), w)
  }

  predicate KnownIn(a: Alloc, q: Query, w: World) {
    ServiceKey(q) in a.byKey || w.resolve(q).Some?
  }

  function FoundFor(a: Alloc, name: string, domain: string, w: World): seq<Held> {
    match ParseClusterHost(TrimSuffix(name, "."), domain)
    case None => []
    case Some(h) => FoundIn(a, BaseOf(h), ContextsOf(h, w))
  }

  predicate ServiceExists(a: Alloc, name: string, domain: string, w: World) {
    match ParseClusterHost(TrimSuffix(name, "."), domain)
    case None => false
    case Some(h) => ExistsIn(a, BaseOf(h), ContextsOf(h, w), w)
  }

  // ---------------------------------------------------------------- one context

  /** An address was allocated for the service but one of its listeners could not be started. */
  predicate StartFails(p: Proxy, q: Query, w: World)
    requires Ready(p)
  {
    ServiceKey(q) !in p.a.byKey && w.resolve(q).Some? &&
    var (a, r) := Allocate(p.a, ServiceKey(q), w.add);
    r.Some? && !StartAll(p.t, OrCurrent(q.ctx, w.current), r.value, w.resolve(q).value, w.listen).1
  }

  /** The service resolves but no address could be had for it, or no listener. */
  predicate Refused(p: Proxy, q: Query, w: World)
    requires Ready(p)
  {
    ServiceKey(q) !in p.a.byKey && w.resolve(q).Some? &&
    (Allocate(p.a, ServiceKey(q), w.add).1.None? || StartFails(p, q, w))
  }

  /** What one resolution does to the allocator and what it returns. */
  lemma ResolveOne(p: Proxy, q: Query, w: World)
    requires Ready(p) && AllocInv(p.a)
    ensures var (p', r) := ResolveForContext(p, q, EnvOf(w, q));
      && AllocInv(p'.a)
      && (forall k :: k != ServiceKey(q) ==> Lookup(p'.a, k) == Lookup(p.a, k))
      && (r.Some? <==> KnownIn(p.a, q, w) && !Refused(p, q, w))
      && (r.Some? ==> r.value.ctx == q.ctx && Lookup(p'.a, ServiceKey(q)) == Some(r.value.vip))
      && (ServiceKey(q) in p.a.byKey ==> p'.a == p.a)
      && (r.None? ==> (ServiceKey(q) in p'.a.byKey <==> StartFails(p, q, w)))
      && (!KnownIn(p.a, q, w) ==> p' == p)
  {
    if ServiceKey(q) !in p.a.byKey && w.resolve(q).Some? {
      AllocateFromKeeps(p.a, ServiceKey(q), w.add);
    }
  }

  // ---------------------------------------------------------------- all contexts

  /** Resolving in some contexts leaves the service's address in any other context alone. */
  lemma {:induction false} OthersKept(p: Proxy, base: Query, ctxs: seq<string>, w: World, ctx: string)
    requires Ready(p) && AllocInv(p.a) && ctx !in ctxs
    ensures var p' := ResolveEach(p, base, ctxs, w).0;
      AllocInv(p'.a) && Lookup(p'.a, ServiceKey(base.(ctx := ctx))) == Lookup(p.a, ServiceKey(base.(ctx := ctx)))
    decreases |ctxs|
  {
    if ctxs != [] {
      var q := base.(ctx := ctxs[0]);
      ResolveOne(p, q, w);
      SamePartsApart(ctx, ctxs[0], base);
      OthersKept(ResolveForContext(p, q, EnvOf(w, q)).0, base, ctxs[1..], w, ctx);
    }
  }

  lemma {:induction false} ResolveEachKeeps(p: Proxy, base: Query, ctxs: seq<string>, w: World)
    requires Ready(p) && AllocInv(p.a)
    ensures AllocInv(ResolveEach(p, base, ctxs, w).0.a)
    decreases |ctxs|
  {
    if ctxs != [] {
      var q := base.(ctx := ctxs[0]);
      ResolveOne(p, q, w);
      ResolveEachKeeps(ResolveForContext(p, q, EnvOf(w, q)).0, base, ctxs[1..], w);
    }
  }

  /** `xs` is `ys` with some elements left out. */
  predicate Subsequence(xs: seq<Held>, ys: seq<Held>)
    decreases |ys|
  {
    xs == [] || (ys != [] && ((xs[0] == ys[0] && Subsequence(xs[1..], ys[1..])) || Subsequence(xs, ys[1..])))
  }

  /** A listener failed to start in one of the contexts, at the time it was resolved. */
  predicate SomeStartFails(p: Proxy, base: Query, ctxs: seq<string>, w: World)
    requires Ready(p)
    decreases |ctxs|
  {
    ctxs != [] &&
    var q := base.(ctx := ctxs[0]);
    (StartFails(p, q, w) || SomeStartFails(ResolveForContext(p, q, EnvOf(w, q)).0, base, ctxs[1..], w))
  }

  predicate SomeRefused(p: Proxy, base: Query, ctxs: seq<string>, w: World)
    requires Ready(p)
    decreases |ctxs|
  {
    ctxs != [] &&
    var q := base.(ctx := ctxs[0]);
    (Refused(p, q, w) || SomeRefused(ResolveForContext(p, q, EnvOf(w, q)).0, base, ctxs[1..], w))
  }

  /** The list found is the list answered, or it is longer because a listener failed to start. */
  ghost predicate Reported(rs: seq<ContextVip>, found: seq<Held>, failed: bool) {
    Subsequence(Pairs(rs), found) && if failed then |rs| < |found| else Pairs(rs) == found
  }

  /** What is found right after resolving contains the answers, in order, and is the answers exactly
      when no listener failed to start. */
  lemma {:induction false} FoundAfterResolve(p: Proxy, base: Query, ctxs: seq<string>, w: World)
    requires Ready(p) && AllocInv(p.a) && Distinct(ctxs)
    ensures var (p', rs) := ResolveEach(p, base, ctxs, w);
      Reported(rs, FoundIn(p'.a, base, ctxs), SomeStartFails(p, base, ctxs, w))
    decreases |ctxs|
  {
    if ctxs != [] {
      var q := base.(ctx := ctxs[0]);
      var (p1, r) := ResolveForContext(p, q, EnvOf(w, q));
      ResolveOne(p, q, w);
      FoundAfterResolve(p1, base, ctxs[1..], w);
      OthersKept(p1, base, ctxs[1..], w, ctxs[0]);
      var (p2, rest) := ResolveEach(p1, base, ctxs[1..], w);
      ReportedCons(r, rest, Lookup(p1.a, ServiceKey(q)), ctxs[0], FoundIn(p2.a, base, ctxs[1..]), SomeStartFails(p1, base, ctxs[1..], w));
    }
  }

  lemma ReportedCons(r: Option<ContextVip>, rest: seq<ContextVip>, ip: Option<Addr>, ctx: string, found: seq<Held>, failed: bool)
    requires Reported(rest, found, failed) && (r.Some? ==> r.value.ctx == ctx && ip == Some(r.value.vip))
    ensures Reported((if r.Some? then [r.value] else []) + rest,
                     (if ip.Some? then [Held(ctx, ip.value)] else []) + found,
                     (r.None? && ip.Some?) || failed)
  {
    var rs := (if r.Some? then [r.value] else []) + rest;
    if r.Some? {
      assert Pairs(rs) == [Held(ctx, ip.value)] + Pairs(rest);
    } else {
      assert rs == rest;
    }
    if ip.Some? {
      SubsequenceCons(Held(ctx, ip.value), Pairs(rest), found);
    } else {
      assert [] + found == found;
    }
  }

  lemma SubsequenceCons(x: Held, xs: seq<Held>, ys: seq<Held>)
    requires Subsequence(xs, ys)
    ensures Subsequence([x] + xs, [x] + ys) && Subsequence(xs, [x] + ys)
  {
    assert ([x] + xs)[1..] == xs && ([x] + ys)[1..] == ys;
  }

  ghost predicate HeldAt(a: Alloc, base: Query, ctxs: seq<string>, h: Held) {
    h.ctx in ctxs && Lookup(a, ServiceKey(base.(ctx := h.ctx))) == Some(h.vip)
  }

  /** Everything found is held in the allocator under the service's key for that context. */
  lemma {:induction false} FoundIsHeld(a: Alloc, base: Query, ctxs: seq<string>, i: nat)
    requires i < |FoundIn(a, base, ctxs)|
    ensures HeldAt(a, base, ctxs, FoundIn(a, base, ctxs)[i])
    decreases |ctxs|
  {
    var ip := Lookup(a, ServiceKey(base.(ctx := ctxs[0])));
    var n := if ip.Some? then 1 else 0;
    if i >= n {
      FoundIsHeld(a, base, ctxs[1..], i - n);
      assert FoundIn(a, base, ctxs)[i] == FoundIn(a, base, ctxs[1..])[i - n];
    }
  }

  /** Contexts appear at most once. */
  lemma {:induction false} FoundOnce(a: Alloc, base: Query, ctxs: seq<string>, i: nat, j: nat)
    requires Distinct(ctxs) && i < j < |FoundIn(a, base, ctxs)|
    ensures FoundIn(a, base, ctxs)[i].ctx != FoundIn(a, base, ctxs)[j].ctx
    decreases |ctxs|
  {
    var ip := Lookup(a, ServiceKey(base.(ctx := ctxs[0])));
    var n := if ip.Some? then 1 else 0;
    FoundIsHeld(a, base, ctxs[1..], j - n);
    assert FoundIn(a, base, ctxs)[j] == FoundIn(a, base, ctxs[1..])[j - n];
    if i >= n {
      FoundOnce(a, base, ctxs[1..], i - n, j - n);
    }
  }

  ghost predicate DistinctVips(hs: seq<Held>) {
    forall i, j :: 0 <= i < j < |hs| ==> hs[i].vip != hs[j].vip && hs[i].ctx != hs[j].ctx
  }

  lemma FoundDistinct(a: Alloc, base: Query, ctxs: seq<string>)
    requires AllocInv(a) && Distinct(ctxs)
    ensures DistinctVips(FoundIn(a, base, ctxs))
  {
    var hs := FoundIn(a, base, ctxs);
    forall i, j | 0 <= i < j < |hs| ensures hs[i].vip != hs[j].vip && hs[i].ctx != hs[j].ctx {
      FoundIsHeld(a, base, ctxs, i);
      FoundIsHeld(a, base, ctxs, j);
      FoundOnce(a, base, ctxs, i, j);
      HeldApart(a, base, hs[i], hs[j]);
    }
  }

  lemma HeldApart(a: Alloc, base: Query, g: Held, h: Held)
    requires AllocInv(a) && g.ctx != h.ctx
    requires Lookup(a, ServiceKey(base.(ctx := g.ctx))) == Some(g.vip) && Lookup(a, ServiceKey(base.(ctx := h.ctx))) == Some(h.vip)
    ensures g.vip != h.vip
  {
    SamePartsApart(g.ctx, h.ctx, base);
  }

  lemma {:induction false} SubsequenceWithin(xs: seq<Held>, ys: seq<Held>, x: Held)
    requires Subsequence(xs, ys) && x in xs
    ensures x in ys
    decreases |ys|
  {
    if xs[0] == ys[0] && Subsequence(xs[1..], ys[1..]) {
      if x != xs[0] {
        SubsequenceWithin(xs[1..], ys[1..], x);
      }
    } else {
      SubsequenceWithin(xs, ys[1..], x);
    }
  }

  lemma {:induction false} SubsequenceDistinct(xs: seq<Held>, ys: seq<Held>)
    requires Subsequence(xs, ys) && DistinctVips(ys)
    ensures DistinctVips(xs)
    decreases |ys|
  {
    if xs != [] {
      if xs[0] == ys[0] && Subsequence(xs[1..], ys[1..]) {
        SubsequenceDistinct(xs[1..], ys[1..]);
        forall j | 1 <= j < |xs| ensures xs[0].vip != xs[j].vip && xs[0].ctx != xs[j].ctx {
          SubsequenceWithin(xs[1..], ys[1..], xs[1..][j - 1]);
        }
      } else {
        SubsequenceDistinct(xs, ys[1..]);
      }
    }
  }

  // ---------------------------------------------------------------- what the server promises

  /** The addresses answered for a name are pairwise distinct, one for each answering context. */
  lemma AnswersDistinct(p: Proxy, name: string, domain: string, w: World)
    requires Ready(p) && AllocInv(p.a) && Distinct(w.contexts)
    ensures DistinctVips(Pairs(ResolveA(p, name, domain, w).1))
  {
    var parsed := ParseClusterHost(TrimSuffix(name, "."), domain);
    if parsed.Some? {
      var base, ctxs := BaseOf(parsed.value), ContextsOf(parsed.value, w);
      var (p', rs) := ResolveEach(p, base, ctxs, w);
      FoundAfterResolve(p, base, ctxs, w);
      ResolveEachKeeps(p, base, ctxs, w);
      FoundDistinct(p'.a, base, ctxs);
      SubsequenceDistinct(Pairs(rs), FoundIn(p'.a, base, ctxs));
    }
  }

  /** For a name that parses, did a listener fail to start while it was resolved? */
  predicate NameStartFails(p: Proxy, name: string, domain: string, w: World)
    requires Ready(p)
  {
    match ParseClusterHost(TrimSuffix(name, "."), domain)
    case None => false
    case Some(h) => SomeStartFails(p, BaseOf(h), ContextsOf(h, w), w)
  }

  predicate NameRefused(p: Proxy, name: string, domain: string, w: World)
    requires Ready(p)
  {
    match ParseClusterHost(TrimSuffix(name, "."), domain)
    case None => false
    case Some(h) => SomeRefused(p, BaseOf(h), ContextsOf(h, w), w)
  }

  /** What TXT and SRV find right after an A query contains its answers in order, and is its answers
      if and only if no listener failed to start. */
  lemma FoundAfterA(p: Proxy, name: string, domain: string, w: World)
    requires Ready(p) && AllocInv(p.a) && Distinct(w.contexts)
    ensures var (p', rs) := ResolveA(p, name, domain, w); var found := FoundFor(p'.a, name, domain, w);
      && Subsequence(Pairs(rs), found)
      && (Pairs(rs) == found <==> !NameStartFails(p, name, domain, w))
  {
    var parsed := ParseClusterHost(TrimSuffix(name, "."), domain);
    if parsed.Some? {
      FoundAfterResolve(p, BaseOf(parsed.value), ContextsOf(parsed.value, w), w);
    }
  }

  /** Each context's knowledge of the service is its own: resolving elsewhere does not change it. */
  lemma KnownElsewhere(p: Proxy, q: Query, ctx: string, w: World)
    requires Ready(p) && AllocInv(p.a) && ctx != q.ctx
    ensures KnownIn(ResolveForContext(p, q, EnvOf(w, q)).0.a, q.(ctx := ctx), w) <==> KnownIn(p.a, q.(ctx := ctx), w)
  {
    ResolveOne(p, q, w);
    SamePartsApart(ctx, q.ctx, q);
    var a := ResolveForContext(p, q, EnvOf(w, q)).0.a;
    var k := ServiceKey(q.(ctx := ctx));
    assert Lookup(a, k) == Lookup(p.a, k);
  }

  lemma ExistsCons(a: Alloc, base: Query, ctxs: seq<string>, w: World)
    requires ctxs != []
    ensures ExistsIn(a, base, ctxs, w) <==> KnownIn(a, base.(ctx := ctxs[0]), w) || ExistsIn(a, base, ctxs[1..], w)
  {
    if ExistsIn(a, base, ctxs, w) && !KnownIn(a, base.(ctx := ctxs[0]), w) {
      var i :| 0 <= i < |ctxs| && KnownIn(a, base.(ctx := ctxs[i]), w);
      assert ctxs[i] == ctxs[1..][i - 1];
    }
    if ExistsIn(a, base, ctxs[1..], w) {
      var i :| 0 <= i < |ctxs[1..]| && KnownIn(a, base.(ctx := ctxs[1..][i]), w);
      assert ctxs[i + 1] == ctxs[1..][i];
    }
  }

  lemma ExistsElsewhere(p: Proxy, base: Query, ctxs: seq<string>, w: World)
    requires Ready(p) && AllocInv(p.a) && Distinct(ctxs) && ctxs != []
    ensures var q := base.(ctx := ctxs[0]);
      ExistsIn(ResolveForContext(p, q, EnvOf(w, q)).0.a, base, ctxs[1..], w) <==> ExistsIn(p.a, base, ctxs[1..], w)
  {
    var q := base.(ctx := ctxs[0]);
    forall i | 0 <= i < |ctxs[1..]|
      ensures KnownIn(ResolveForContext(p, q, EnvOf(w, q)).0.a, base.(ctx := ctxs[1..][i]), w) <==> KnownIn(p.a, base.(ctx := ctxs[1..][i]), w)
    {
      KnownElsewhere(p, q, ctxs[1..][i], w);
    }
  }

  /** The service exists in some context exactly when some context answers or had to refuse; if it
      exists nowhere, resolving changes nothing. */
  lemma {:induction false} ExistsIffAnswered(p: Proxy, base: Query, ctxs: seq<string>, w: World)
    requires Ready(p) && AllocInv(p.a) && Distinct(ctxs)
    ensures ExistsIn(p.a, base, ctxs, w) <==> ResolveEach(p, base, ctxs, w).1 != [] || SomeRefused(p, base, ctxs, w)
    ensures !ExistsIn(p.a, base, ctxs, w) ==> ResolveEach(p, base, ctxs, w).0 == p
    decreases |ctxs|
  {
    if ctxs != [] {
      var q := base.(ctx := ctxs[0]);
      ResolveOne(p, q, w);
      ExistsElsewhere(p, base, ctxs, w);
      ExistsCons(p.a, base, ctxs, w);
      ExistsIffAnswered(ResolveForContext(p, q, EnvOf(w, q)).0, base, ctxs[1..], w);
    }
  }

  /** The split of section 2 of RFC 2308 between a name that does not exist and one without data: TXT
      and SRV deny the name exactly when A does and no address or listener was refused. When they do,
      an A query changes nothing. */
  lemma DeniedIff(p: Proxy, name: string, domain: string, w: World)
    requires Ready(p) && AllocInv(p.a) && Distinct(w.contexts)
    ensures var (p', rs) := ResolveA(p, name, domain, w);
      && (!ServiceExists(p.a, name, domain, w) <==> rs == [] && !NameRefused(p, name, domain, w))
      && (!ServiceExists(p.a, name, domain, w) ==> p' == p)
  {
    var parsed := ParseClusterHost(TrimSuffix(name, "."), domain);
    if parsed.Some? {
      ExistsIffAnswered(p, BaseOf(parsed.value), ContextsOf(parsed.value, w), w);
    }
  }

  // ---------------------------------------------------------------- listeners that fail to start

  /** The listeners of this context on this address are on ports that can be listened on. */
  ghost predicate Listenable(t: Tables, ctx: string, vip: Addr, listen: (Addr, int) -> bool) {
    forall k :: k in t.entries && k.vip == vip && k.contextName == ctx ==> listen(vip, k.port)
  }

  lemma StartAloneListenable(t: Tables, key: ForwardKey, listen: (Addr, int) -> bool)
    requires InRange(t) && Listenable(t, key.contextName, key.vip, listen)
    ensures var (t', ok) := StartAlone(t, key, listen(key.vip, key.port));
      ok == listen(key.vip, key.port) && Listenable(t', key.contextName, key.vip, listen)
  {
  }

  lemma {:induction false} StartAllOkIff(t: Tables, ctx: string, vip: Addr, ports: seq<int>, listen: (Addr, int) -> bool)
    requires InRange(t) && Listenable(t, ctx, vip, listen)
    ensures StartAll(t, ctx, vip, ports, listen).1 <==> AllListen(vip, ports, listen)
    decreases |ports|
  {
    if ports != [] {
      var key := ForwardKey(ctx, vip, ports[0]);
      StartAloneListenable(t, key, listen);
      AllListenCons(vip, ports, listen);
      var (t1, ok) := StartAlone(t, key, listen(vip, ports[0]));
      if ok {
        StartAllOkIff(t1, ctx, vip, ports[1..], listen);
      }
    }
  }

  predicate AllListen(vip: Addr, ports: seq<int>, listen: (Addr, int) -> bool) {
    forall i :: 0 <= i < |ports| ==> listen(vip, ports[i])
  }

  lemma AllListenCons(vip: Addr, ports: seq<int>, listen: (Addr, int) -> bool)
    requires ports != []
    ensures AllListen(vip, ports, listen) <==> listen(vip, ports[0]) && AllListen(vip, ports[1..], listen)
  {
    assert forall i :: 1 <= i < |ports| ==> ports[i] == ports[1..][i - 1];
  }

  /** A fresh address fails exactly when one of the service's ports cannot be listened on there, even
      if the service repeats a port. */
  lemma StartFailsIff(p: Proxy, q: Query, w: World)
    requires Linked(p) && ServiceKey(q) !in p.a.byKey && w.resolve(q).Some?
    ensures var ip := Allocate(p.a, ServiceKey(q), w.add).1; var ports := w.resolve(q).value;
      StartFails(p, q, w) <==> ip.Some? && !AllListen(ip.value, ports, w.listen)
  {
    var (a, r) := Allocate(p.a, ServiceKey(q), w.add);
    AllocateFromKeeps(p.a, ServiceKey(q), w.add);
    if r.Some? {
      forall k | k in p.t.entries ensures k.vip != r.value {
        assert EntryLinked(p, k);
      }
      StartAllOkIff(p.t, OrCurrent(q.ctx, w.current), r.value, w.resolve(q).value, w.listen);
    }
  }

  // ---------------------------------------------------------------- ports

  /** The ports the resolver reports now, none if it fails. */
  function PortsNow(w: World, q: Query): seq<int> {
    if w.resolve(q).Some? then w.resolve(q).value else []
  }

  ghost predicate PortsCurrent(rs: seq<ContextVip>, base: Query, w: World) {
    forall i :: 0 <= i < |rs| ==> rs[i].ports == PortsNow(w, base.(ctx := rs[i].ctx))
  }

  lemma {:induction false} AnswerPorts(p: Proxy, base: Query, ctxs: seq<string>, w: World)
    requires Ready(p)
    ensures PortsCurrent(ResolveEach(p, base, ctxs, w).1, base, w)
    decreases |ctxs|
  {
    if ctxs != [] {
      var q := base.(ctx := ctxs[0]);
      var (p1, r) := ResolveForContext(p, q, EnvOf(w, q));
      assert r.Some? ==> r.value.ctx == q.ctx && r.value.ports == PortsNow(w, q);
      AnswerPorts(p1, base, ctxs[1..], w);
    }
  }

  function WithPorts(hs: seq<Held>, base: Query, w: World): (rs: seq<ContextVip>)
    ensures Pairs(rs) == hs && PortsCurrent(rs, base, w)
  {
    seq(|hs|, i requires 0 <= i < |hs| => ContextVip(hs[i].ctx, hs[i].vip, PortsNow(w, base.(ctx := hs[i].ctx))))
  }

  function WithoutPorts(hs: seq<Held>): (rs: seq<ContextVip>)
    ensures Pairs(rs) == hs && forall i :: 0 <= i < |rs| ==> rs[i].ports == []
  {
    seq(|hs|, i requires 0 <= i < |hs| => ContextVip(hs[i].ctx, hs[i].vip, []))
  }

  lemma SamePairsSamePorts(rs: seq<ContextVip>, hs: seq<Held>, base: Query, w: World)
    requires Pairs(rs) == hs && PortsCurrent(rs, base, w)
    ensures rs == WithPorts(hs, base, w)
  {
    var ss := WithPorts(hs, base, w);
    forall i | 0 <= i < |rs| ensures rs[i] == ss[i] {
      assert Pairs(rs)[i] == Pairs(ss)[i];
    }
  }

  function TxtFor(a: Alloc, name: string, domain: string, w: World): (rs: seq<ContextVip>)
    ensures Pairs(rs) == FoundFor(a, name, domain, w)
  {
    WithoutPorts(FoundFor(a, name, domain, w))
  }

  function SrvFor(a: Alloc, name: string, domain: string, w: World): (rs: seq<ContextVip>)
    ensures Pairs(rs) == FoundFor(a, name, domain, w)
  {
    match ParseClusterHost(TrimSuffix(name, "."), domain)
    case None => []
    case Some(h) => WithPorts(FoundIn(a, BaseOf(h), ContextsOf(h, w)), BaseOf(h), w)
  }

  /** An SRV lookup right after an A query gives its answers, ports included, if and only if no
      listener failed to start. */
  lemma SrvAfterA(p: Proxy, name: string, domain: string, w: World)
    requires Ready(p) && AllocInv(p.a) && Distinct(w.contexts)
    ensures var (p', rs) := ResolveA(p, name, domain, w);
      rs == SrvFor(p'.a, name, domain, w) <==> !NameStartFails(p, name, domain, w)
  {
    FoundAfterA(p, name, domain, w);
    var (p', rs) := ResolveA(p, name, domain, w);
    var parsed := ParseClusterHost(TrimSuffix(name, "."), domain);
    if parsed.Some? && !NameStartFails(p, name, domain, w) {
      AnswerPorts(p, BaseOf(parsed.value), ContextsOf(parsed.value, w), w);
      SamePairsSamePorts(rs, FoundIn(p'.a, BaseOf(parsed.value), ContextsOf(parsed.value, w)), BaseOf(parsed.value), w);
    }
  }

  // ---------------------------------------------------------------- following an SRV target

  /** Every answer is held for its context once the query is done. */
  lemma AnswerHeld(p: Proxy, base: Query, ctxs: seq<string>, w: World, i: nat)
    requires Ready(p) && AllocInv(p.a) && Distinct(ctxs) && i < |ResolveEach(p, base, ctxs, w).1|
    ensures var (p', rs) := ResolveEach(p, base, ctxs, w);
      Lookup(p'.a, ServiceKey(base.(ctx := rs[i].ctx))) == Some(rs[i].vip)
  {
    var (p', rs) := ResolveEach(p, base, ctxs, w);
    var found := FoundIn(p'.a, base, ctxs);
    FoundAfterResolve(p, base, ctxs, w);
    assert Pairs(rs)[i] == HeldOf(rs[i]);
    SubsequenceWithin(Pairs(rs), found, HeldOf(rs[i]));
    var j :| 0 <= j < |found| && found[j] == HeldOf(rs[i]);
    FoundIsHeld(p'.a, base, ctxs, j);
  }

  /** Asking for the address of the target that a response names for one of its answers gives exactly
      that answer's address, and allocates nothing. */
  lemma TargetFindsAddress(p: Proxy, name: string, domain: string, w: World, i: nat, w': World)
    requires Ready(p) && AllocInv(p.a) && Distinct(w.contexts) && i < |ResolveA(p, name, domain, w).1|
    requires var ctx := ResolveA(p, name, domain, w).1[i].ctx; ctx != "" && '.' !in ctx && !AllLabelsAre(domain, ctx)
    ensures var (p', rs) := ResolveA(p, name, domain, w);
      var (p'', ss) := ResolveA(p', ContextFQDN(name, rs[i].ctx, domain), domain, w');
      Pairs(ss) == [HeldOf(rs[i])] && p''.a == p'.a
  {
    var (p', rs) := ResolveA(p, name, domain, w);
    var h := ParseClusterHost(TrimSuffix(name, "."), domain).value;
    RewriteReparses(name, domain, rs[i].ctx);
    AnswerHeld(p, BaseOf(h), ContextsOf(h, w), w, i);
    ResolveHeld(p', BaseOf(h), rs[i].ctx, rs[i].vip, w');
  }

  lemma ResolveHeld(p: Proxy, base: Query, ctx: string, vip: Addr, w: World)
    requires Ready(p) && Lookup(p.a, ServiceKey(base.(ctx := ctx))) == Some(vip)
    ensures var (p', ss) := ResolveEach(p, base, [ctx], w); Pairs(ss) == [Held(ctx, vip)] && p'.a == p.a
  {
    var q := base.(ctx := ctx);
    var (p1, r) := ResolveForContext(p, q, EnvOf(w, q));
    var ctxs := [ctx];
    assert ctxs[1..] == [] && ResolveEach(p1, base, ctxs[1..], w) == (p1, []);
    assert [r.value] + [] == [r.value];
  }

  // ---------------------------------------------------------------- which contexts answer

  /** Some answer is for this context. */
  ghost predicate Answers(rs: seq<ContextVip>, ctx: string) {
    exists i :: 0 <= i < |rs| && rs[i].ctx == ctx
  }

  lemma AnswersCons(r: Option<ContextVip>, rest: seq<ContextVip>, ctx: string)
    ensures Answers((if r.Some? then [r.value] else []) + rest, ctx) <==> (r.Some? && r.value.ctx == ctx) || Answers(rest, ctx)
  {
    var rs := (if r.Some? then [r.value] else []) + rest;
    var n := |rs| - |rest|;
    assert forall i :: 0 <= i < |rest| ==> rs[i + n] == rest[i];
    if Answers(rest, ctx) {
      var i :| 0 <= i < |rest| && rest[i].ctx == ctx;
      assert rs[i + n].ctx == ctx;
    }
    if Answers(rs, ctx) {
      var i :| 0 <= i < |rs| && rs[i].ctx == ctx;
      assert i >= n ==> rest[i - n].ctx == ctx;
    }
    assert r.Some? ==> rs[0] == r.value;
  }

  /** A context that is asked and holds an address answers; one that knows the service answers unless
      something was refused; one that does not know it, or is not asked, does not. */
  lemma {:induction false} ContextAnswers(p: Proxy, base: Query, ctxs: seq<string>, w: World, ctx: string)
    requires Ready(p) && AllocInv(p.a) && Distinct(ctxs)
    ensures var rs := ResolveEach(p, base, ctxs, w).1; var q := base.(ctx := ctx);
      && (ctx in ctxs && ServiceKey(q) in p.a.byKey ==> Answers(rs, ctx))
      && (ctx in ctxs && KnownIn(p.a, q, w) && !SomeRefused(p, base, ctxs, w) ==> Answers(rs, ctx))
      && (Answers(rs, ctx) ==> ctx in ctxs && KnownIn(p.a, q, w))
    decreases |ctxs|
  {
    if ctxs != [] {
      var first := base.(ctx := ctxs[0]);
      var (p1, r) := ResolveForContext(p, first, EnvOf(w, first));
      ResolveOne(p, first, w);
      ContextAnswers(p1, base, ctxs[1..], w, ctx);
      AnswersCons(r, ResolveEach(p1, base, ctxs[1..], w).1, ctx);
      if ctx != ctxs[0] {
        KnownElsewhere(p, first, ctx, w);
        SamePartsApart(ctx, ctxs[0], base);
        assert Lookup(p1.a, ServiceKey(base.(ctx := ctx))) == Lookup(p.a, ServiceKey(base.(ctx := ctx)));
      }
    }
  }
}
