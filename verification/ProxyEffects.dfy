/** What the steps of the whole proxy do to addresses other than their own, and to their own. */
module ProxyEffects {
  import opened Wrappers
  import opened ServiceKeys
  import opened Allocator
  import opened ForwardState
  import opened Resolution
  import opened ProxySystem
  import FP = ForwardProtocol
  import FS = ForwardSafety
  import FL = ForwardLeftover
  import FH = ForwardHandlers

  // ---------------------------------------------------------------- a teardown

  /** Everything of every address but `vip` is as it was: entries with their listeners, tracked states,
      allocations. States are untouched, and of all timers only `ran` has changed. */
  ghost predicate OthersAsBefore(p: Proxy, p': Proxy, vip: Addr, ran: nat) {
    && (forall k: ForwardKey :: k.vip != vip ==> (k in p'.t.entries <==> k in p.t.entries))
    && (forall k :: k in p.t.entries && k.vip != vip ==> p'.t.entries[k] == p.t.entries[k])
    && |p'.t.listeners| == |p.t.listeners|
    && (forall l :: 0 <= l < |p.t.listeners| && p.t.listeners[l].key.vip != vip ==> p'.t.listeners[l] == p.t.listeners[l])
    && p'.t.states == p.t.states && p'.t.now == p.t.now && p'.t.settings == p.t.settings
    && (forall v :: v != vip ==> (v in p'.t.vipStates <==> v in p.t.vipStates))
    && (forall v :: v in p.t.vipStates && v != vip ==> p'.t.vipStates[v] == p.t.vipStates[v])
    && |p'.t.timers| == |p.t.timers| && (forall i :: 0 <= i < |p.t.timers| && i != ran ==> p'.t.timers[i] == p.t.timers[i])
    && (forall ip :: ip != vip ==> (ip in p'.a.byAddr <==> ip in p.a.byAddr))
    && (forall ip :: ip in p.a.byAddr && ip != vip ==> p'.a.byAddr[ip] == p.a.byAddr[ip])
  }

  /** Nothing of `vip` is left: its listeners are closed and it is neither entered, tracked nor held. */
  ghost predicate NothingOn(p: Proxy, p': Proxy, vip: Addr)
    requires InRange(p.t)
  {
    && (forall k :: k in p'.t.entries ==> k.vip != vip)
    && |p'.t.listeners| == |p.t.listeners|
    && (forall k :: k in p.t.entries && k.vip == vip ==> !p'.t.listeners[p.t.entries[k]].open)
    && vip !in p'.t.vipStates && vip !in p'.a.byAddr && forall key :: key in p'.a.byKey ==> p'.a.byKey[key] != vip
  }

  /** In every run, tearing an address down removes all of it and nothing of any other. */
  lemma TeardownExact(u: Setup, steps: seq<Step>, i: nat)
    requires ValidSetup(u) && IsRun(u, steps) && Enabled(After(u, steps), ExpireNow(i))
    ensures var g := After(u, steps); var p' := ProxyOf(Apply(g, ExpireNow(i))); var vip := g.fm.t.timers[i].vip;
      NothingOn(ProxyOf(g), p', vip) && OthersAsBefore(ProxyOf(g), p', vip, i)
  {
    GoodTeardown(After(u, steps), i);
  }

  lemma GoodTeardown(g: State, i: nat)
    requires Good(g) && Enabled(g, ExpireNow(i))
    ensures var p' := ProxyOf(Apply(g, ExpireNow(i))); var vip := g.fm.t.timers[i].vip;
      NothingOn(ProxyOf(g), p', vip) && OthersAsBefore(ProxyOf(g), p', vip, i)
  {
    StepKeepsGood(g, ExpireNow(i));
    var p, vip := ProxyOf(g), g.fm.t.timers[i].vip;
    ExpiredProxy(p, p.(t := FP.SetStatus(p.t, i, Ran)), vip, i);
  }

  lemma ExpiredProxy(p: Proxy, q: Proxy, vip: Addr, i: nat)
    requires Linked(p) && vip in p.t.vipStates && i < |p.t.timers| && q == p.(t := FP.SetStatus(p.t, i, Ran))
    requires forall k :: k in p.t.entries ==> p.t.listeners[p.t.entries[k]].key == k
    ensures InRange(q.t) && NothingOn(p, Expire(q, vip), vip) && OthersAsBefore(p, Expire(q, vip), vip, i)
  {
    CheckLinked(p, i);
    TearDownClears(q, vip);
    ReleaseKeeps(p.a, vip);
    ClosedListeners(q, vip);
    assert FP.KeysOk(q.t.states[q.t.vipStates[vip]]);
    OthersKept(q, vip, i);
    AfterRun(p, q, Expire(q, vip), vip, i);
  }

  lemma AfterRun(p: Proxy, q: Proxy, p': Proxy, vip: Addr, i: nat)
    requires i < |p.t.timers| && q == p.(t := FP.SetStatus(p.t, i, Ran)) && OthersAsBefore(q, p', vip, i)
    ensures OthersAsBefore(p, p', vip, i)
  {
  }

  lemma OthersKept(p: Proxy, vip: Addr, i: nat)
    requires InRange(p.t) && vip in p.t.vipStates
    requires forall k :: k in p.t.entries ==> p.t.listeners[p.t.entries[k]].key == k
    requires forall k :: k in p.t.states[p.t.vipStates[vip]].forwardKeys ==> k.vip == vip
    ensures OthersAsBefore(p, Expire(p, vip), vip, i)
  {
    DropOnly(p.t, KeySet(p.t.states[p.t.vipStates[vip]].forwardKeys), vip);
  }

  /** Dropping entries of one address leaves the entries and listeners of all others. */
  lemma DropOnly(t: Tables, ks: set<ForwardKey>, vip: Addr)
    requires InRange(t) && (forall k :: k in t.entries ==> t.listeners[t.entries[k]].key == k) && forall k :: k in ks ==> k.vip == vip
    ensures var t' := DropEntries(t, ks);
      && (forall k: ForwardKey :: k.vip != vip ==> (k in t'.entries <==> k in t.entries))
      && (forall k :: k in t.entries && k.vip != vip ==> t'.entries[k] == t.entries[k])
      && |t'.listeners| == |t.listeners|
      && (forall l :: 0 <= l < |t.listeners| && t.listeners[l].key.vip != vip ==> t'.listeners[l] == t.listeners[l])
  {
  }

  lemma ClosedListeners(p: Proxy, vip: Addr)
    requires Linked(p) && vip in p.t.vipStates
    ensures forall k :: k in p.t.entries && k.vip == vip ==> !TearDown(p.t, vip).listeners[p.t.entries[k]].open
  {
    var keys := p.t.states[p.t.vipStates[vip]].forwardKeys;
    forall k | k in p.t.entries && k.vip == vip ensures k in KeySet(keys) {
      assert EntryLinked(p, k);
      var j :| 0 <= j < |keys| && keys[j] == k;
    }
  }

  // ---------------------------------------------------------------- connections

  /** In every run of the proxy, when an address is torn down, no connection that came in on one of its
      listeners is being served on a tracked state: not one that was accepted on that address is
      registered anywhere. */
  lemma NoConnectionTornDown(u: Setup, steps: seq<Step>, i: nat, h: nat)
    requires ValidSetup(u) && IsRun(u, steps) && Expires(After(u, steps).fm, i)
    requires h < |After(u, steps).fm.handlers| && After(u, steps).fm.handlers[h].Serving?
    ensures var g := After(u, steps); var on := FH.AcceptedOn(g.trace);
      && h < |on| && on[h] < |g.fm.t.listeners| && g.fm.t.listeners[on[h]].key.vip != g.fm.t.timers[i].vip
  {
    var g := After(u, steps);
    FH.OwnInEveryRun(g.fm.t.settings, g.trace);
    NotServing(g.fm, i, h);
  }

  lemma NotServing(s: FP.State, i: nat, h: nat)
    requires FP.Inv(s) && FL.SingleIncarnation(s.t) && Expires(s, i) && h < |s.handlers| && s.handlers[h].Serving?
    ensures s.handlers[h].vip != s.t.timers[i].vip
  {
    var vip := s.t.timers[i].vip;
    var a, b := s.t.vipStates[vip], s.handlers[h].sid;
    assert h in FP.ServingOn(s.handlers, b);
    assert FP.VipOf(s.t.states[a]) == vip && FP.VipOf(s.t.states[b]) == s.handlers[h].vip;
    assert a < b || b < a || a == b;
  }

  // ---------------------------------------------------------------- a query that finds its address

  /** The state of `vip` has its idle period restarted: while nobody is connected its timer runs for a
      full period from now, and no other timer of it is armed; otherwise none is. */
  ghost predicate Restarted(t: Tables, t': Tables, vip: Addr)
    requires InRange(t) && vip in t.vipStates
  {
    var sid := t.vipStates[vip];
    && vip in t'.vipStates && t'.vipStates[vip] == sid && sid < |t'.states| && t'.states[sid].activeConns == t.states[sid].activeConns
    && (forall i :: 0 <= i < |t'.timers| && t'.timers[i].owner == sid && t'.timers[i].status == Armed ==>
          t.states[sid].activeConns <= 0 && i == |t.timers| && t'.timers[i].due == t.now + t.settings.idleTimeout)
    && (t.states[sid].activeConns <= 0 ==> |t'.timers| == |t.timers| + 1 && t'.timers[|t.timers|].owner == sid
                                           && t'.timers[|t.timers|].status == Armed)
  }

  /** A query for an address that is held answers with it, restarts its idle period if it is tracked,
      and changes no allocation, entry or listener. */
  lemma HitRestartsIdlePeriod(u: Setup, steps: seq<Step>, q: Query, env: Env)
    requires ValidSetup(u) && IsRun(u, steps) && ServiceKey(q) in After(u, steps).a.byKey
    ensures var g := After(u, steps); var vip := g.a.byKey[ServiceKey(q)];
      var (p', r) := ResolveForContext(ProxyOf(g), q, env);
      && r.Some? && r.value.vip == vip && r.value.ctx == q.ctx
      && p'.a == g.a && p'.t.entries == g.fm.t.entries && p'.t.listeners == g.fm.t.listeners
      && (vip in g.fm.t.vipStates ==> Restarted(g.fm.t, p'.t, vip))
  {
    var g := After(u, steps);
    var vip := g.a.byKey[ServiceKey(q)];
    FS.TouchFrame(g.fm.t, vip);
    if vip in g.fm.t.vipStates {
      TouchRestarts(g.fm.t, vip);
    }
  }

  lemma TouchRestarts(t: Tables, vip: Addr)
    requires FP.StatesOk(t) && FP.TimersOk(t) && vip in t.vipStates
    ensures Restarted(t, Touch(t, vip), vip)
  {
    FS.StopDisarms(t, t.vipStates[vip]);
  }

  // ---------------------------------------------------------------- a fresh address

  /** The listeners of the ports before `n`, entered for `ctx` on `vip` and open, and all that was
      there before. */
  ghost predicate ListensOn(t: Tables, t': Tables, ctx: string, vip: Addr, ports: seq<int>, n: nat)
    requires InRange(t) && InRange(t') && n <= |ports|
  {
    && (forall k :: k in t'.entries <==> k in t.entries || (k.contextName == ctx && k.vip == vip && k.port in ports[..n]))
    && (forall k :: k in t.entries ==> t'.entries[k] == t.entries[k])
    && |t.listeners| <= |t'.listeners| && t'.listeners[..|t.listeners|] == t.listeners
    && (forall k :: k in t'.entries && k !in t.entries ==> t'.listeners[t'.entries[k]] == Listener(k, true))
  }

  lemma StartAloneListens(t: Tables, key: ForwardKey)
    requires InRange(t)
    ensures var (t', ok) := StartAlone(t, key, true);
      ok && ListensOn(t, t', key.contextName, key.vip, [key.port], 1)
  {
    var ports := [key.port];
    assert ports[..1] == ports;
    if key in t.entries {
      FS.TouchFrame(t, key.vip);
    } else {
      FS.InstallFrame(Bind(t, key), key, |t.listeners|);
    }
  }

  lemma ListensCompose(t: Tables, t1: Tables, t2: Tables, ctx: string, vip: Addr, ports: seq<int>, n: nat)
    requires InRange(t) && InRange(t1) && InRange(t2) && 0 < n <= |ports|
    requires ListensOn(t, t1, ctx, vip, [ports[0]], 1) && ListensOn(t1, t2, ctx, vip, ports[1..], n - 1)
    ensures ListensOn(t, t2, ctx, vip, ports, n)
  {
    var first := [ports[0]];
    assert first[..1] == first;
    assert ports[..n] == first + ports[1..][..n - 1];
    assert t2.listeners[..|t.listeners|] == t1.listeners[..|t.listeners|];
  }

  /** What is entered on the address is of the context and can be listened on. */
  ghost predicate Startable(t: Tables, ctx: string, vip: Addr, listen: (Addr, int) -> bool) {
    forall k :: k in t.entries && k.vip == vip ==> k.contextName == ctx && listen(vip, k.port)
  }

  lemma StartAllStep(t: Tables, ctx: string, vip: Addr, ports: seq<int>, listen: (Addr, int) -> bool)
    requires InRange(t) && Startable(t, ctx, vip, listen) && ports != []
    ensures var t1 := StartAlone(t, ForwardKey(ctx, vip, ports[0]), true).0;
      if listen(vip, ports[0])
      then StartAll(t, ctx, vip, ports, listen) == StartAll(t1, ctx, vip, ports[1..], listen)
      else StartAll(t, ctx, vip, ports, listen) == (t, false)
  {
  }

  lemma StillStartable(t: Tables, t1: Tables, ctx: string, vip: Addr, port: int, listen: (Addr, int) -> bool)
    requires InRange(t) && InRange(t1) && Startable(t, ctx, vip, listen) && listen(vip, port)
    requires ListensOn(t, t1, ctx, vip, [port], 1)
    ensures Startable(t1, ctx, vip, listen)
  {
  }

  /** Starting the listeners of an address opens exactly those of the ports before the first that
      cannot be listened on, and closes none. */
  lemma {:induction false} StartAllListens(t: Tables, ctx: string, vip: Addr, ports: seq<int>, listen: (Addr, int) -> bool) returns (n: nat)
    requires InRange(t) && Startable(t, ctx, vip, listen)
    ensures n <= |ports| && (n < |ports| ==> !listen(vip, ports[n]))
    ensures var (t', ok) := StartAll(t, ctx, vip, ports, listen); ok == (n == |ports|) && ListensOn(t, t', ctx, vip, ports, n)
    decreases |ports|
  {
    n := 0;
    if ports != [] {
      StartAllStep(t, ctx, vip, ports, listen);
      if listen(vip, ports[0]) {
        var key := ForwardKey(ctx, vip, ports[0]);
        var t1 := StartAlone(t, key, true).0;
        StartAloneListens(t, key);
        StillStartable(t, t1, ctx, vip, ports[0], listen);
        var m := StartAllListens(t1, ctx, vip, ports[1..], listen);
        n := m + 1;
        ListensCompose(t, t1, StartAll(t1, ctx, vip, ports[1..], listen).0, ctx, vip, ports, n);
      }
    }
  }

  /** A query that allocates an address listens there exactly on the service's ports, up to the first
      that cannot be listened on, in which case it is not answered. */
  lemma FreshAddressListens(u: Setup, steps: seq<Step>, q: Query, env: Env) returns (n: nat)
    requires ValidSetup(u) && IsRun(u, steps) && ServiceKey(q) !in After(u, steps).a.byKey && env.ports.Some?
    requires Allocate(After(u, steps).a, ServiceKey(q), env.add).1.Some?
    ensures n <= |env.ports.value|
    ensures var g := After(u, steps); var (p', r) := ResolveForContext(ProxyOf(g), q, env);
      && ServiceKey(q) in p'.a.byKey
      && var vip := p'.a.byKey[ServiceKey(q)];
      && vip !in g.a.byAddr && env.add(vip) == Added
      && r == (if n == |env.ports.value| then Some(ContextVip(q.ctx, vip, env.ports.value)) else None)
      && (n < |env.ports.value| ==> !env.listen(vip, env.ports.value[n]))
      && ListensOn(g.fm.t, p'.t, if q.ctx == "" then env.current else q.ctx, vip, env.ports.value, n)
  {
    n := LinkedFresh(ProxyOf(After(u, steps)), q, env);
  }

  lemma LinkedFresh(p: Proxy, q: Query, env: Env) returns (n: nat)
    requires Linked(p) && ServiceKey(q) !in p.a.byKey && env.ports.Some? && Allocate(p.a, ServiceKey(q), env.add).1.Some?
    ensures n <= |env.ports.value|
    ensures var (p', r) := ResolveForContext(p, q, env);
      && ServiceKey(q) in p'.a.byKey
      && var vip := p'.a.byKey[ServiceKey(q)];
      && vip !in p.a.byAddr && env.add(vip) == Added
      && r == (if n == |env.ports.value| then Some(ContextVip(q.ctx, vip, env.ports.value)) else None)
      && (n < |env.ports.value| ==> !env.listen(vip, env.ports.value[n]))
      && ListensOn(p.t, p'.t, if q.ctx == "" then env.current else q.ctx, vip, env.ports.value, n)
  {
    AllocateFromKeeps(p.a, ServiceKey(q), env.add);
    var vip := Allocate(p.a, ServiceKey(q), env.add).1.value;
    forall k | k in p.t.entries ensures k.vip != vip {
      assert EntryLinked(p, k);
    }
    n := StartAllListens(p.t, OrCurrent(q.ctx, env.current), vip, env.ports.value, env.listen);
  }

  /** A query that finds no address and cannot resolve the service, or cannot get an address, is not
      answered and leaves tables and assignments alone; an unresolved one changes nothing at all. */
  lemma MissChangesNothing(u: Setup, steps: seq<Step>, q: Query, env: Env)
    requires ValidSetup(u) && IsRun(u, steps) && ServiceKey(q) !in After(u, steps).a.byKey
    requires env.ports.None? || Allocate(After(u, steps).a, ServiceKey(q), env.add).1.None?
    ensures var g := After(u, steps); var (p', r) := ResolveForContext(ProxyOf(g), q, env);
      && r.None? && p'.t == g.fm.t && p'.a.byKey == g.a.byKey && p'.a.byAddr == g.a.byAddr
      && (env.ports.None? ==> p' == ProxyOf(g))
  {
    AllocateFromKeeps(After(u, steps).a, ServiceKey(q), env.add);
  }
}
