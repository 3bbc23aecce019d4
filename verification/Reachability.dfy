/** The objects' operations lead from reachable states of the proxy to reachable states, so what is
    proved of every run holds before and after each of them. */
module Reachability {
  import opened Wrappers
  import opened Strings
  import opened ClusterName
  import opened ServiceKeys
  import opened ForwardState
  import opened Resolution
  import opened DnsLookup
  import opened DnsServer
  import S = ProxySystem

  ghost predicate ReachedBy(u: S.Setup, steps: seq<S.Step>, g: S.State) {
    S.ValidSetup(u) && S.IsRun(u, steps) && S.After(u, steps) == g
  }

  /** Some run leads to a state with these tables. */
  ghost predicate Reachable(u: S.Setup, p: Proxy) {
    exists steps, g :: ReachedBy(u, steps, g) && S.ProxyOf(g) == p
  }

  lemma ReachedIsGood(u: S.Setup, steps: seq<S.Step>, g: S.State)
    requires ReachedBy(u, steps, g)
    ensures S.Good(g)
  {
  }

  lemma ReachableLinked(u: S.Setup, p: Proxy)
    requires Reachable(u, p)
    ensures Linked(p) && Ready(p)
  {
    var steps, g :| ReachedBy(u, steps, g) && S.ProxyOf(g) == p;
    ReachedIsGood(u, steps, g);
  }

  /** One more step. */
  lemma Extend(u: S.Setup, steps: seq<S.Step>, g: S.State, step: S.Step) returns (more: seq<S.Step>)
    requires ReachedBy(u, steps, g) && S.Good(g) && S.Enabled(g, step)
    ensures more == steps + [step] && ReachedBy(u, more, S.Apply(g, step))
  {
    more := steps + [step];
    assert more[..|more| - 1] == steps;
  }

  // ---------------------------------------------------------------- stopping a context

  lemma StopReachable(u: S.Setup, p: Proxy, ctx: string)
    requires Reachable(u, p) && InRange(p.t)
    ensures Reachable(u, StopOneContext(p, ctx))
  {
    var steps, g :| ReachedBy(u, steps, g) && S.ProxyOf(g) == p;
    ReachedIsGood(u, steps, g);
    var more := Extend(u, steps, g, S.StopContext(ctx));
    assert S.ProxyOf(S.Apply(g, S.StopContext(ctx))) == StopOneContext(p, ctx);
  }

  // ---------------------------------------------------------------- answering a message

  lemma ResolveReachable(u: S.Setup, p: Proxy, q: Query, env: Env)
    requires Reachable(u, p) && Ready(p)
    ensures Reachable(u, ResolveForContext(p, q, env).0)
  {
    var steps, g :| ReachedBy(u, steps, g) && S.ProxyOf(g) == p;
    ReachedIsGood(u, steps, g);
    var more := Extend(u, steps, g, S.ResolveName(q, env));
    assert S.ProxyOf(S.Apply(g, S.ResolveName(q, env))) == ResolveForContext(p, q, env).0;
  }

  lemma {:induction false} ResolveEachReachable(u: S.Setup, p: Proxy, base: Query, ctxs: seq<string>, w: World)
    requires Reachable(u, p) && Ready(p)
    ensures Reachable(u, ResolveEach(p, base, ctxs, w).0)
    decreases |ctxs|
  {
    if ctxs != [] {
      var q := base.(ctx := ctxs[0]);
      var p1 := ResolveForContext(p, q, EnvOf(w, q)).0;
      ResolveReachable(u, p, q, EnvOf(w, q));
      ResolveEachReachable(u, p1, base, ctxs[1..], w);
    }
  }

  lemma NameReachable(u: S.Setup, p: Proxy, name: string, domain: string, w: World)
    requires Reachable(u, p) && Ready(p)
    ensures Reachable(u, ResolveA(p, name, domain, w).0)
  {
    var parsed := ParseClusterHost(TrimSuffix(name, "."), domain);
    if parsed.Some? {
      ResolveEachReachable(u, p, BaseOf(parsed.value), ContextsOf(parsed.value, w), w);
    }
  }

  lemma AnswerReachable(u: S.Setup, s: Progress, q: Question, domain: string, w: World, p': Proxy)
    requires Reachable(u, s.p) && Ready(s.p)
    requires p' == Answer(s, q, domain, w).p
    ensures Reachable(u, p')
  {
    AnswerProxy(s, q, domain, w);
    if q.qtype == TypeA {
      NameReachable(u, s.p, q.name, domain, w);
    }
  }

  lemma {:induction false} AnswerAllReachable(u: S.Setup, s: Progress, qs: seq<Question>, domain: string, w: World)
    requires Reachable(u, s.p) && Ready(s.p)
    ensures Reachable(u, AnswerAll(s, qs, domain, w).p)
    decreases |qs|
  {
    if qs != [] {
      var s1 := Answer(s, qs[0], domain, w);
      AnswerReachable(u, s, qs[0], domain, w, s1.p);
      AnswerAllReachable(u, s1, qs[1..], domain, w);
    }
  }

  /** Answering any message leads from reachable states to reachable states. */
  lemma RespondReachable(u: S.Setup, p: Proxy, qs: seq<Question>, domain: string, w: World)
    requires Reachable(u, p) && Ready(p)
    ensures Reachable(u, Respond(p, qs, domain, w).0)
  {
    AnswerAllReachable(u, Progress(p, Message(NoError, [], []), false, 0), qs, domain, w);
  }
}
