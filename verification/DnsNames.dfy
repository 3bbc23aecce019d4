/** What the server finds for a name, said in terms of the name's own labels. */
module DnsNames {
  import opened Wrappers
  import opened Strings
  import opened ClusterName
  import opened ServiceKeys
  import opened Allocator
  import opened Resolution
  import opened DnsLookup

  /** The labels of a name: a pod or none, a service, its namespace, and a context or none. */
  datatype Labels = Labels(pod: string, svc: string, ns: string, ctx: string)

  /** The name as asked, with its final dot. */
  function Text(n: Labels, domain: string): string {
    (if n.pod == "" then "" else n.pod + ".") + n.svc + "." + n.ns + "." + domain + (if n.ctx == "" then "" else "." + n.ctx) + "."
  }

  /** The key a context's address for the name is held under. */
  function KeyText(ctx: string, n: Labels): string {
    ctx + "/" + n.ns + "/" + n.svc + (if n.pod == "" then "" else "/" + n.pod)
  }

  /** The contexts a name is asked of: its own, or every known one. */
  function AskedOf(n: Labels, w: World): seq<string> {
    if n.ctx == "" then w.contexts else [n.ctx]
  }

  predicate Plain(n: Labels, domain: string) {
    && '.' !in n.pod && '.' !in n.svc && '.' !in n.ns && '.' !in n.ctx
    && (n.ctx == "" || !AllLabelsAre(domain, n.ctx))
  }

  /** The ports the resolver reports for the service, and for the pod if there is one. */
  function PortsFor(w: World, ctx: string, n: Labels): seq<int> {
    var r := w.resolve(Query(ctx, n.ns, n.svc, n.pod));
    if r.Some? then r.value else []
  }

  predicate KnowsService(a: Alloc, ctx: string, n: Labels, w: World) {
    KeyText(ctx, n) in a.byKey || w.resolve(Query(ctx, n.ns, n.svc, n.pod)).Some?
  }

  lemma ParsesAsWritten(n: Labels, domain: string)
    requires Plain(n, domain)
    ensures ParseClusterHost(TrimSuffix(Text(n, domain), "."), domain) == Some(Host(n.pod, n.svc, n.ns, n.ctx))
  {
    var h := Host(n.pod, n.svc, n.ns, n.ctx);
    assert Text(n, domain) == Print(h, domain) + ".";
    ParseOfPrint(h, domain);
  }

  /** The query the server makes of a context for the name, and its key. */
  lemma QueryAsWritten(n: Labels, ctx: string, w: World)
    ensures var h := Host(n.pod, n.svc, n.ns, n.ctx);
      && BaseOf(h).(ctx := ctx) == Query(ctx, n.ns, n.svc, n.pod) && ContextsOf(h, w) == AskedOf(n, w)
      && ServiceKey(Query(ctx, n.ns, n.svc, n.pod)) == KeyText(ctx, n)
  {
  }

  /** Every answer is the address held for the named service, in the named namespace, of a context that
      was asked, with the ports reported for it. */
  lemma AnswersAreOfTheName(p: Proxy, n: Labels, domain: string, w: World, i: nat)
    requires Ready(p) && AllocInv(p.a) && Distinct(w.contexts) && Plain(n, domain)
    requires i < |ResolveA(p, Text(n, domain), domain, w).1|
    ensures var (p', rs) := ResolveA(p, Text(n, domain), domain, w);
      && rs[i].ctx in AskedOf(n, w)
      && Lookup(p'.a, KeyText(rs[i].ctx, n)) == Some(rs[i].vip)
      && rs[i].ports == PortsFor(w, rs[i].ctx, n)
  {
    ParsesAsWritten(n, domain);
    var h := Host(n.pod, n.svc, n.ns, n.ctx);
    var rs := ResolveEach(p, BaseOf(h), ContextsOf(h, w), w).1;
    QueryAsWritten(n, rs[i].ctx, w);
    AnswerHeld(p, BaseOf(h), ContextsOf(h, w), w, i);
    AnswerPorts(p, BaseOf(h), ContextsOf(h, w), w);
    ContextAnswers(p, BaseOf(h), ContextsOf(h, w), w, rs[i].ctx);
    assert Answers(rs, rs[i].ctx);
  }

  /** A context answers for the name only if it is asked and knows the service; then it does if it holds
      an address, or if nothing was refused. */
  lemma ContextsThatAnswer(p: Proxy, n: Labels, domain: string, w: World, ctx: string)
    requires Ready(p) && AllocInv(p.a) && Distinct(w.contexts) && Plain(n, domain)
    ensures var rs := ResolveA(p, Text(n, domain), domain, w).1;
      && (Answers(rs, ctx) ==> ctx in AskedOf(n, w) && KnowsService(p.a, ctx, n, w))
      && (ctx in AskedOf(n, w) && KeyText(ctx, n) in p.a.byKey ==> Answers(rs, ctx))
      && (ctx in AskedOf(n, w) && KnowsService(p.a, ctx, n, w) && !NameRefused(p, Text(n, domain), domain, w) ==> Answers(rs, ctx))
  {
    ParsesAsWritten(n, domain);
    QueryAsWritten(n, ctx, w);
    var h := Host(n.pod, n.svc, n.ns, n.ctx);
    ContextAnswers(p, BaseOf(h), ContextsOf(h, w), w, ctx);
  }

  /** Exactly the addresses that contexts asked hold for the named service. */
  ghost predicate HeldForName(found: seq<Held>, a: Alloc, n: Labels, w: World) {
    && (forall i :: 0 <= i < |found| ==> found[i].ctx in AskedOf(n, w) && Lookup(a, KeyText(found[i].ctx, n)) == Some(found[i].vip))
    && (forall ctx :: ctx in AskedOf(n, w) && KeyText(ctx, n) in a.byKey ==> exists i :: 0 <= i < |found| && found[i].ctx == ctx)
  }

  /** TXT and SRV find exactly the addresses that contexts asked hold for the named service, SRV with
      the ports reported for it. */
  lemma LookupsAreOfTheName(a: Alloc, n: Labels, domain: string, w: World)
    requires Plain(n, domain)
    ensures HeldForName(Pairs(TxtFor(a, Text(n, domain), domain, w)), a, n, w)
    ensures HeldForName(Pairs(SrvFor(a, Text(n, domain), domain, w)), a, n, w)
    ensures var srv := SrvFor(a, Text(n, domain), domain, w);
      forall i :: 0 <= i < |srv| ==> srv[i].ports == PortsFor(w, srv[i].ctx, n)
  {
    ParsesAsWritten(n, domain);
    var h := Host(n.pod, n.svc, n.ns, n.ctx);
    FoundByText(a, n, h, w);
    QueriesAsWritten(n, w);
  }

  lemma QueriesAsWritten(n: Labels, w: World)
    ensures forall ctx :: BaseOf(Host(n.pod, n.svc, n.ns, n.ctx)).(ctx := ctx) == Query(ctx, n.ns, n.svc, n.pod)
  {
  }

  /** They say that the service exists exactly when one of these contexts knows it. */
  lemma ExistsForTheName(a: Alloc, n: Labels, domain: string, w: World)
    requires Plain(n, domain)
    ensures ServiceExists(a, Text(n, domain), domain, w) <==> exists ctx :: ctx in AskedOf(n, w) && KnowsService(a, ctx, n, w)
  {
    ParsesAsWritten(n, domain);
    ExistsByText(a, n, Host(n.pod, n.svc, n.ns, n.ctx), w);
  }

  lemma FoundByText(a: Alloc, n: Labels, h: Host, w: World)
    requires h == Host(n.pod, n.svc, n.ns, n.ctx)
    ensures HeldForName(FoundIn(a, BaseOf(h), ContextsOf(h, w)), a, n, w)
  {
    var found := FoundIn(a, BaseOf(h), ContextsOf(h, w));
    forall i | 0 <= i < |found| ensures found[i].ctx in AskedOf(n, w) && Lookup(a, KeyText(found[i].ctx, n)) == Some(found[i].vip) {
      FoundIsHeld(a, BaseOf(h), ContextsOf(h, w), i);
      QueryAsWritten(n, found[i].ctx, w);
    }
    forall ctx | ctx in AskedOf(n, w) && KeyText(ctx, n) in a.byKey ensures exists i :: 0 <= i < |found| && found[i].ctx == ctx {
      QueryAsWritten(n, ctx, w);
      HeldIsFound(a, BaseOf(h), ContextsOf(h, w), ctx);
    }
  }

  lemma {:induction false} HeldIsFound(a: Alloc, base: Query, ctxs: seq<string>, ctx: string)
    requires ctx in ctxs && ServiceKey(base.(ctx := ctx)) in a.byKey
    ensures exists i :: 0 <= i < |FoundIn(a, base, ctxs)| && FoundIn(a, base, ctxs)[i].ctx == ctx
    decreases |ctxs|
  {
    var found, rest := FoundIn(a, base, ctxs), FoundIn(a, base, ctxs[1..]);
    if ctx == ctxs[0] {
      assert found[0].ctx == ctx;
    } else {
      HeldIsFound(a, base, ctxs[1..], ctx);
      var i :| 0 <= i < |rest| && rest[i].ctx == ctx;
      assert found[i + |found| - |rest|] == rest[i];
    }
  }

  lemma ExistsByText(a: Alloc, n: Labels, h: Host, w: World)
    requires h == Host(n.pod, n.svc, n.ns, n.ctx)
    ensures ExistsIn(a, BaseOf(h), ContextsOf(h, w), w) <==> exists ctx :: ctx in AskedOf(n, w) && KnowsService(a, ctx, n, w)
  {
    var base, ctxs := BaseOf(h), ContextsOf(h, w);
    forall ctx ensures KnownIn(a, base.(ctx := ctx), w) <==> KnowsService(a, ctx, n, w) {
      QueryAsWritten(n, ctx, w);
    }
    QueryAsWritten(n, "", w);
    if ExistsIn(a, base, ctxs, w) {
      var i :| 0 <= i < |ctxs| && KnownIn(a, base.(ctx := ctxs[i]), w);
      assert ctxs[i] in AskedOf(n, w) && KnowsService(a, ctxs[i], n, w);
    }
    if ctx :| ctx in AskedOf(n, w) && KnowsService(a, ctx, n, w) {
      var i :| 0 <= i < |ctxs| && ctxs[i] == ctx;
      assert KnownIn(a, base.(ctx := ctxs[i]), w);
    }
  }
}
