/** Hot reload: stopping the tunnels of exactly the contexts that a configuration change affects. */
module Reload {
  import opened Wrappers
  import opened Allocator
  import opened ForwardState
  import opened ForwardProtocol
  import opened ForwardSafety
  import opened Resolution
  import opened KubeConfig
  import P = SpdyPool

  /** Everything a configuration change can disturb. */
  datatype Tunnels = Tunnels(proxy: Proxy, pool: P.Pool)

  ghost predicate WellFormed(w: Tunnels) {
    InRange(w.proxy.t) && P.InRange(w.pool)
  }

  function StopOne(w: Tunnels, ctx: string): (r: Tunnels)
    requires WellFormed(w)
    ensures WellFormed(r)
  {
    Tunnels(StopOneContext(w.proxy, ctx), P.StopKeys(w.pool, P.KeysOfContext(w.pool, ctx)))
  }

  function StopEach(w: Tunnels, names: seq<string>): (r: Tunnels)
    requires WellFormed(w)
    ensures WellFormed(r)
    decreases |names|
  {
    if names == [] then w else StopEach(StopOne(w, names[0]), names[1..])
  }

  // ---------------------------------------------------------------- listeners

  ghost predicate OwnListeners(t: Tables) {
    InRange(t) && forall k :: k in t.entries ==> t.listeners[t.entries[k]].key == k
  }

  /** The listeners of the contexts in `gone` are closed and forgotten; all others are as before. */
  ghost predicate ListenersExact(t: Tables, t': Tables, gone: set<string>)
    requires InRange(t)
  {
    && |t'.listeners| == |t.listeners|
    && (forall k :: k in t'.entries <==> k in t.entries && k.contextName !in gone)
    && (forall k :: k in t'.entries ==> t'.entries[k] == t.entries[k] && t'.listeners[t.entries[k]] == t.listeners[t.entries[k]])
    && (forall k :: k in t.entries && k.contextName in gone ==> !t'.listeners[t.entries[k]].open)
    && (forall l :: 0 <= l < |t.listeners| ==> t'.listeners[l].key == t.listeners[l].key && (t'.listeners[l].open ==> t.listeners[l].open))
  }

  lemma StopOneListeners(t: Tables, ctx: string)
    requires OwnListeners(t)
    ensures ListenersExact(t, ShutdownContext(t, ctx), {ctx}) && OwnListeners(ShutdownContext(t, ctx))
  {
    var ls := set k | k in KeysOf(t, ctx) && k in t.entries :: t.entries[k];
    forall k | k in t.entries && k.contextName != ctx ensures t.entries[k] !in ls {
    }
  }

  lemma ListenersCompose(t: Tables, t1: Tables, t2: Tables, ctx: string, rest: set<string>)
    requires InRange(t) && InRange(t1) && ListenersExact(t, t1, {ctx}) && ListenersExact(t1, t2, rest)
    ensures ListenersExact(t, t2, {ctx} + rest)
  {
  }

  // ---------------------------------------------------------------- states and timers

  /** The context an address's state was created for. */
  function ContextAt(t: Tables, v: Addr): string
    requires StatesOk(t) && v in t.vipStates
  {
    t.states[t.vipStates[v]].forwardKeys[0].contextName
  }

  /** The states of the contexts in `gone` are forgotten and their timers stopped; all other states,
      and the timers they point at, are as before. */
  ghost predicate StatesExact(t: Tables, t': Tables, gone: set<string>)
    requires StatesOk(t)
  {
    && t'.states == t.states && |t'.timers| == |t.timers| && t'.now == t.now && t'.settings == t.settings
    && (forall v :: v in t'.vipStates <==> v in t.vipStates && ContextAt(t, v) !in gone)
    && (forall v :: v in t'.vipStates ==> t'.vipStates[v] == t.vipStates[v])
    && (forall v, i :: v in t'.vipStates && i in TimerOf(t.states[t.vipStates[v]]) ==> t'.timers[i] == t.timers[i])
    && (forall v, i :: v in t.vipStates && v !in t'.vipStates && i in TimerOf(t.states[t.vipStates[v]]) ==> t'.timers[i].status != Armed)
    && (forall i :: 0 <= i < |t.timers| ==> t'.timers[i] == t.timers[i] || t'.timers[i].status != Armed)
  }

  /** The addresses a context's listeners are on are exactly those whose state is of that context. */
  lemma VipsOfContext(p: Proxy, ctx: string, v: Addr)
    requires Linked(p) && v in p.t.vipStates
    ensures v in VipsOf(KeysOf(p.t, ctx)) <==> ContextAt(p.t, v) == ctx
  {
    var first := p.t.states[p.t.vipStates[v]].forwardKeys[0];
    assert KeysOk(p.t.states[p.t.vipStates[v]]) && first.vip == v;
    assert first in p.t.entries && EntryLinked(p, first);
    if v in VipsOf(KeysOf(p.t, ctx)) {
      var k :| k in KeysOf(p.t, ctx) && k.vip == v;
      assert EntryLinked(p, k);
    } else {
      assert first !in KeysOf(p.t, ctx);
    }
  }

  /** Two tracked addresses never share a timer. */
  lemma TimersApart(t: Tables, v: Addr, u: Addr, i: nat)
    requires StatesOk(t) && TimersOk(t) && v in t.vipStates && u in t.vipStates
    requires i in TimerOf(t.states[t.vipStates[v]]) && i in TimerOf(t.states[t.vipStates[u]])
    ensures u == v
  {
    assert PointerOk(t, t.vipStates[v]) && PointerOk(t, t.vipStates[u]);
  }

  lemma StopOneStates(p: Proxy, ctx: string)
    requires Linked(p) && TimersOk(p.t)
    ensures StatesExact(p.t, ShutdownContext(p.t, ctx), {ctx})
  {
    var vips := VipsOf(KeysOf(p.t, ctx));
    forall v | v in p.t.vipStates ensures v in vips <==> ContextAt(p.t, v) == ctx {
      VipsOfContext(p, ctx, v);
    }
    DropExact(p.t, KeysOf(p.t, ctx), vips, ctx);
  }

  lemma DropExact(t: Tables, ks: set<ForwardKey>, vips: set<Addr>, ctx: string)
    requires StatesOk(t) && TimersOk(t)
    requires forall v :: v in t.vipStates ==> (v in vips <==> ContextAt(t, v) == ctx)
    ensures StatesExact(t, DropStates(DropEntries(t, ks), vips), {ctx})
  {
    var ts := TimersOfVips(t, vips);
    forall v, i | v in t.vipStates && v !in vips && i in TimerOf(t.states[t.vipStates[v]]) ensures i !in ts {
      TimerSpared(t, vips, v, i);
    }
    assert TimersOfVips(DropEntries(t, ks), vips) == ts;
    StoppedExact(t, DropStates(DropEntries(t, ks), vips), vips, ts, ctx);
  }

  lemma StoppedExact(t: Tables, t': Tables, vips: set<Addr>, ts: set<nat>, ctx: string)
    requires StatesOk(t)
    requires forall v :: v in t.vipStates ==> (v in vips <==> ContextAt(t, v) == ctx)
    requires t'.states == t.states && t'.now == t.now && t'.settings == t.settings
    requires t'.vipStates == t.vipStates - vips && t'.timers == StopSet(t.timers, ts)
    requires forall v, i :: v in t.vipStates && i in TimerOf(t.states[t.vipStates[v]]) ==> (i in ts <==> v in vips)
    ensures StatesExact(t, t', {ctx})
  {
  }

  lemma TimerSpared(t: Tables, vips: set<Addr>, v: Addr, i: nat)
    requires StatesOk(t) && TimersOk(t) && v in t.vipStates && v !in vips && i in TimerOf(t.states[t.vipStates[v]])
    ensures i !in TimersOfVips(t, vips)
  {
    if i in TimersOfVips(t, vips) {
      var u :| u in vips && u in t.vipStates && i in TimerOf(t.states[t.vipStates[u]]);
      TimersApart(t, v, u, i);
    }
  }

  lemma StatesCompose(t: Tables, t1: Tables, t2: Tables, ctx: string, rest: set<string>)
    requires StatesOk(t) && StatesOk(t1) && StatesExact(t, t1, {ctx}) && StatesExact(t1, t2, rest)
    ensures StatesExact(t, t2, {ctx} + rest)
  {
    assert forall v :: v in t1.vipStates ==> ContextAt(t1, v) == ContextAt(t, v);
  }

  lemma StopKeepsTimers(t: Tables, ctx: string)
    requires StatesOk(t) && TimersOk(t)
    ensures TimersOk(ShutdownContext(t, ctx))
  {
    var ks := KeysOf(t, ctx);
    var ts := TimersOfVips(DropEntries(t, ks), VipsOf(ks));
    StopKeeps(t, ts);
    TimersFrame(t.(timers := StopSet(t.timers, ts)), ShutdownContext(t, ctx));
  }

  lemma TimersFrame(t: Tables, t': Tables)
    requires TimersOk(t) && InRange(t') && t'.states == t.states && t'.timers == t.timers && t'.now == t.now
    ensures TimersOk(t')
  {
    forall i | 0 <= i < |t'.timers| ensures TimerOk(t', i) {
      assert TimerOk(t, i);
    }
    forall sid | 0 <= sid < |t'.states| ensures PointerOk(t', sid) {
      assert PointerOk(t, sid);
    }
  }

  // ---------------------------------------------------------------- addresses

  /** A listener of one of these contexts is on this address. */
  ghost predicate Serves(t: Tables, ip: Addr, ctxs: set<string>) {
    exists k :: k in t.entries && k.vip == ip && k.contextName in ctxs
  }

  /** The addresses given back, if any are, are those that served a context in `gone`. */
  ghost predicate AddressesExact(p: Proxy, p': Proxy, gone: set<string>) {
    && p'.t.settings == p.t.settings
    && (forall ip :: ip in p'.a.byAddr <==> ip in p.a.byAddr && !(p.t.settings.hasReleaser && Serves(p.t, ip, gone)))
    && (forall ip :: ip in p'.a.byAddr ==> p'.a.byAddr[ip] == p.a.byAddr[ip])
  }

  lemma StopOneAddresses(p: Proxy, ctx: string)
    requires Linked(p)
    ensures AddressesExact(p, StopOneContext(p, ctx), {ctx})
  {
    forall ip ensures ip in VipsOf(KeysOf(p.t, ctx)) <==> Serves(p.t, ip, {ctx}) {
      if Serves(p.t, ip, {ctx}) {
        var k :| k in p.t.entries && k.vip == ip && k.contextName in {ctx};
        assert k in KeysOf(p.t, ctx);
      }
    }
  }

  lemma AddressesCompose(p: Proxy, p1: Proxy, p2: Proxy, ctx: string, rest: set<string>)
    requires AddressesExact(p, p1, {ctx}) && AddressesExact(p1, p2, rest)
    requires InRange(p.t) && ListenersExact(p.t, p1.t, {ctx})
    ensures AddressesExact(p, p2, {ctx} + rest)
  {
    forall ip ensures Serves(p.t, ip, {ctx} + rest) <==> Serves(p.t, ip, {ctx}) || Serves(p1.t, ip, rest) {
      if Serves(p.t, ip, {ctx} + rest) {
        var k :| k in p.t.entries && k.vip == ip && k.contextName in {ctx} + rest;
        assert k.contextName == ctx || k in p1.t.entries;
      }
    }
  }

  // ---------------------------------------------------------------- pooled connections

  /** Pooled connections of the contexts in `gone` are closed and forgotten; everything else, pooled
      or not, is as before. */
  ghost predicate PoolExact(p: P.Pool, p': P.Pool, gone: set<string>)
    requires P.InRange(p)
  {
    && |p'.conns| == |p.conns|
    && (forall k :: k in p'.pool <==> k in p.pool && k.contextName !in gone)
    && (forall k :: k in p'.pool ==> p'.pool[k] == p.pool[k])
    && (forall e: nat :: e < |p.conns| && !(P.Pooled(p, e) && p.conns[e].key.contextName in gone) ==> p'.conns[e] == p.conns[e])
    && (forall k :: k in p.pool && k.contextName in gone ==> p'.conns[p.pool[k]].gone)
    && (forall e: nat :: e < |p.conns| ==> p'.conns[e].key == p.conns[e].key)
  }

  lemma StopOnePool(p: P.Pool, ctx: string)
    requires P.InRange(p)
    ensures PoolExact(p, P.StopKeys(p, P.KeysOfContext(p, ctx)), {ctx})
  {
  }

  lemma PoolCompose(p: P.Pool, p1: P.Pool, p2: P.Pool, ctx: string, rest: set<string>)
    requires P.InRange(p) && P.InRange(p1) && PoolExact(p, p1, {ctx}) && PoolExact(p1, p2, rest)
    ensures PoolExact(p, p2, {ctx} + rest)
  {
    forall e: nat | e < |p.conns| && !(P.Pooled(p, e) && p.conns[e].key.contextName in {ctx} + rest)
      ensures p2.conns[e] == p.conns[e]
    {
      assert P.Pooled(p1, e) ==> P.Pooled(p, e);
    }
    forall k | k in p.pool && k.contextName in {ctx} + rest ensures p2.conns[p.pool[k]].gone {
      if k.contextName == ctx {
        assert !P.Pooled(p1, p.pool[k]);
      }
    }
  }

  // ---------------------------------------------------------------- the whole

  /** Nothing of the contexts in `gone` is left, and everything of all other contexts is as before. */
  ghost predicate ExactlyWithout(w: Tunnels, w': Tunnels, gone: set<string>)
    requires WellFormed(w) && StatesOk(w.proxy.t)
  {
    && ListenersExact(w.proxy.t, w'.proxy.t, gone)
    && StatesExact(w.proxy.t, w'.proxy.t, gone)
    && AddressesExact(w.proxy, w'.proxy, gone)
    && PoolExact(w.pool, w'.pool, gone)
  }

  /** What every reachable state of the proxy satisfies. */
  ghost predicate Sound(w: Tunnels) {
    WellFormed(w) && Linked(w.proxy) && TimersOk(w.proxy.t) && OwnListeners(w.proxy.t)
  }

  lemma StopOneExact(w: Tunnels, ctx: string)
    requires Sound(w)
    ensures Sound(StopOne(w, ctx)) && ExactlyWithout(w, StopOne(w, ctx), {ctx})
  {
    StopContextLinked(w.proxy, ctx);
    StopKeepsTimers(w.proxy.t, ctx);
    StopOneListeners(w.proxy.t, ctx);
    StopOneStates(w.proxy, ctx);
    StopOneAddresses(w.proxy, ctx);
    StopOnePool(w.pool, ctx);
  }

  lemma ExactCompose(w: Tunnels, w1: Tunnels, w2: Tunnels, ctx: string, rest: set<string>)
    requires Sound(w) && Sound(w1) && ExactlyWithout(w, w1, {ctx}) && ExactlyWithout(w1, w2, rest)
    ensures ExactlyWithout(w, w2, {ctx} + rest)
  {
    ListenersCompose(w.proxy.t, w1.proxy.t, w2.proxy.t, ctx, rest);
    StatesCompose(w.proxy.t, w1.proxy.t, w2.proxy.t, ctx, rest);
    AddressesCompose(w.proxy, w1.proxy, w2.proxy, ctx, rest);
    PoolCompose(w.pool, w1.pool, w2.pool, ctx, rest);
  }

  /** Stopping the named contexts, in whatever order, removes all of theirs and disturbs nothing else. */
  lemma {:induction false} StopEachExact(w: Tunnels, names: seq<string>)
    requires Sound(w)
    ensures Sound(StopEach(w, names)) && ExactlyWithout(w, StopEach(w, names), Elements(names))
    decreases |names|
  {
    if names == [] {
      StopNothing(w);
    } else {
      var w1 := StopOne(w, names[0]);
      StopOneExact(w, names[0]);
      StopEachExact(w1, names[1..]);
      ExactCompose(w, w1, StopEach(w1, names[1..]), names[0], Elements(names[1..]));
      ElementsCons(names);
    }
  }

  /** For listeners and pooled connections that is so whatever the settings, also without idle expiry. */
  lemma {:induction false} StopEachListeners(w: Tunnels, names: seq<string>)
    requires WellFormed(w) && OwnListeners(w.proxy.t)
    ensures ListenersExact(w.proxy.t, StopEach(w, names).proxy.t, Elements(names))
    ensures PoolExact(w.pool, StopEach(w, names).pool, Elements(names))
    decreases |names|
  {
    if names != [] {
      var w1 := StopOne(w, names[0]);
      StopOneListeners(w.proxy.t, names[0]);
      StopOnePool(w.pool, names[0]);
      StopEachListeners(w1, names[1..]);
      var w2 := StopEach(w1, names[1..]);
      ListenersCompose(w.proxy.t, w1.proxy.t, w2.proxy.t, names[0], Elements(names[1..]));
      PoolCompose(w.pool, w1.pool, w2.pool, names[0], Elements(names[1..]));
      ElementsCons(names);
    }
  }

  lemma ElementsCons(names: seq<string>)
    requires names != []
    ensures Elements(names) == {names[0]} + Elements(names[1..])
  {
  }

  lemma StopNothing(w: Tunnels)
    requires Sound(w)
    ensures ExactlyWithout(w, w, {})
  {
  }
}
