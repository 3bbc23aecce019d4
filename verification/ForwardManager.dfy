/** The forward manager object. Each method is one locked section, or the sequence of them that one
    goroutine runs; its contract ties the new tables to the old ones by the section's function. */
module ForwardManager {
  import opened Wrappers
  import opened ForwardState
  import P = SpdyPool

  class Manager {
    const settings: Settings
    var entries: map<ForwardKey, nat>
    var vipStates: map<Addr, nat>
    var states: seq<VipState>
    var timers: seq<Timer>
    var listeners: seq<Listener>
    var now: nat
    var pool: map<P.SpdyKey, nat>
    var conns: seq<P.Conn>

    ghost function View(): Tables
      reads this
    {
      Tables(settings, entries, vipStates, states, timers, listeners, now)
    }

    ghost function PoolView(): P.Pool
      reads this
    {
      P.Pool(pool, conns)
    }

    ghost predicate Valid()
      reads this
    {
      InRange(View()) && P.InRange(PoolView())
    }

    constructor (settings: Settings)
      ensures Valid() && View() == Empty(settings) && PoolView() == P.Pool(map[], [])
    {
      this.settings := settings;
      entries, vipStates, states, timers, listeners, now := map[], map[], [], [], [], 0;
      pool, conns := map[], [];
    }

    // -------------------------------------------------------------- timers

    /** Stops the timer of a state, if it has one that has not fired. */
    method StopStateTimer(sid: nat)
      requires Valid() && sid < |states|
      modifies this`timers
      ensures Valid() && View() == StopTimer(old(View()), sid)
    {
      if states[sid].timer.Some? {
        var i := states[sid].timer.value;
        if timers[i].status == Armed {
          timers := timers[i := timers[i].(status := Stopped)];
        }
      }
      assert timers == StopSet(old(timers), TimerOf(states[sid]));
    }

    /** A new generation and a fresh timer, overwriting the timer field. */
    method ArmStateTimer(sid: nat, vip: Addr)
      requires Valid() && sid < |states|
      modifies this`timers, this`states
      ensures Valid() && View() == Arm(old(View()), sid, vip)
    {
      var gen := states[sid].generation + 1;
      states := states[sid := states[sid].(generation := gen, timer := Some(|timers|))];
      timers := timers + [Timer(vip, sid, gen, now + settings.idleTimeout, Armed)];
    }

    method TouchVipLocked(vip: Addr)
      requires Valid()
      modifies this`timers, this`states
      ensures Valid() && View() == Touch(old(View()), vip)
    {
      if settings.idleTimeout == 0 || !settings.hasReleaser {
        return;
      }
      if vip !in vipStates {
        return;
      }
      var sid := vipStates[vip];
      StopStateTimer(sid);
      if states[sid].activeConns > 0 {
        return;
      }
      ArmStateTimer(sid, vip);
    }

    // -------------------------------------------------------------- starting a forward

    /** First locked section: an existing entry is only touched. */
    method CheckEntry(key: ForwardKey) returns (found: bool)
      requires Valid()
      modifies this`timers, this`states
      ensures Valid() && found == (key in entries)
      ensures View() == if found then Touch(old(View()), key.vip) else old(View())
    {
      found := key in entries;
      if found {
        TouchVipLocked(key.vip);
      }
    }

    /** Second locked section, with a bound listener: entered, or set aside if a rival was faster. */
    method EnterListener(key: ForwardKey, l: nat) returns (entered: bool)
      requires Valid() && l < |listeners|
      modifies this`timers, this`states, this`entries, this`vipStates
      ensures Valid() && entered == (key !in old(entries))
      ensures View() == if entered then Install(old(View()), key, l) else Touch(old(View()), key.vip)
    {
      if key in entries {
        TouchVipLocked(key.vip);
        return false;
      }
      entries := entries[key := l];
      if settings.idleTimeout > 0 && settings.hasReleaser {
        if key.vip in vipStates {
          var sid := vipStates[key.vip];
          states := states[sid := states[sid].(forwardKeys := states[sid].forwardKeys + [key])];
        } else {
          vipStates := vipStates[key.vip := |states|];
          states := states + [VipState(None, 0, 0, [key])];
        }
        TouchVipLocked(key.vip);
      }
      return true;
    }

    method CloseListener(l: nat)
      requires Valid() && l < |listeners|
      modifies this`listeners
      ensures Valid() && View() == Close(old(View()), l)
    {
      listeners := listeners[l := listeners[l].(open := false)];
      assert listeners == CloseSet(old(listeners), {l});
    }

    /** A whole call with no other goroutine in between; an empty context name means the current one. */
    method StartForward(contextName: string, currentContext: string, vip: Addr, port: int, listenOk: bool) returns (ok: bool)
      requires Valid()
      modifies this`timers, this`states, this`entries, this`vipStates, this`listeners
      ensures Valid()
      ensures var key := ForwardKey(if contextName == "" then currentContext else contextName, vip, port);
        (View(), ok) == StartAlone(old(View()), key, listenOk)
    {
      var key := ForwardKey(if contextName == "" then currentContext else contextName, vip, port);
      var found := CheckEntry(key);
      if found {
        return true;
      }
      if !listenOk {
        return false;
      }
      var l := |listeners|;
      listeners := listeners + [Listener(key, true)];
      var entered := EnterListener(key, l);
      return true;
    }

    // -------------------------------------------------------------- expiry

    method ExpiryCheck(vip: Addr, gen: nat) returns (pass: bool)
      requires Valid()
      ensures pass == PassesCheck(View(), vip, gen)
    {
      if vip !in vipStates {
        return false;
      }
      var st := states[vipStates[vip]];
      if st.generation != gen || st.activeConns > 0 {
        return false;
      }
      return true;
    }

    /** Closes and deletes the listeners of an expired address, then its state. */
    method DeleteVip(vip: Addr)
      requires Valid() && vip in vipStates
      modifies this`entries, this`listeners, this`vipStates
      ensures Valid() && View() == TearDown(old(View()), vip)
      ensures var keys := states[old(vipStates)[vip]].forwardKeys;
        && entries == old(entries) - (set k | k in keys) && vipStates == old(vipStates) - {vip} && |listeners| == |old(listeners)|
        && forall l :: 0 <= l < |listeners| ==>
             listeners[l] == if exists k :: k in keys && k in old(entries) && old(entries)[k] == l
                             then old(listeners)[l].(open := false) else old(listeners)[l]
    {
      var keys := states[vipStates[vip]].forwardKeys;
      ghost var before := View();
      for i := 0 to |keys|
        invariant Valid() && vipStates == before.vipStates
        invariant View() == DropEntries(before, KeySet(keys[..i]))
      {
        DropEntriesCompose(before, KeySet(keys[..i]), {keys[i]});
        KeySetSnoc(keys, i);
        DropEntry(keys[i]);
      }
      assert keys[..|keys|] == keys;
      assert KeySet(keys) == set k | k in keys;
      vipStates := vipStates - {vip};
    }

    /** Closes and deletes one listener, if it is entered. */
    method DropEntry(key: ForwardKey)
      requires Valid()
      modifies this`entries, this`listeners
      ensures Valid() && View() == DropEntries(old(View()), {key})
    {
      ghost var ls := set k | k in {key} && k in entries :: entries[k];
      if key in entries {
        var l := entries[key];
        assert ls == {l};
        listeners := listeners[l := listeners[l].(open := false)];
        entries := entries - {key};
      }
      assert entries == old(entries) - {key};
      assert listeners == CloseSet(old(listeners), ls);
    }

    // -------------------------------------------------------------- connections

    method FetchState(vip: Addr) returns (r: Option<nat>)
      requires Valid()
      ensures r == if Tracking(settings) && vip in vipStates then Some(vipStates[vip]) else None
    {
      if settings.idleTimeout > 0 && settings.hasReleaser && vip in vipStates {
        return Some(vipStates[vip]);
      }
      return None;
    }

    method RegisterConn(sid: nat)
      requires Valid() && sid < |states|
      modifies this`timers, this`states
      ensures Valid() && View() == Register(old(View()), sid)
    {
      StopStateTimer(sid);
      ghost var stopped := View();
      states := states[sid := states[sid].(activeConns := states[sid].activeConns + 1)];
      assert View() == SetConns(stopped, sid, stopped.states[sid].activeConns + 1);
    }

    method DeregisterConn(sid: nat, vip: Addr)
      requires Valid() && sid < |states|
      modifies this`timers, this`states
      ensures Valid() && View() == Deregister(old(View()), sid, vip)
    {
      var n := states[sid].activeConns - 1;
      states := states[sid := states[sid].(activeConns := n)];
      if n == 0 && settings.idleTimeout > 0 {
        ArmStateTimer(sid, vip);
      }
    }

    // -------------------------------------------------------------- shutdown

    /** Closes and deletes the listeners of one context; reports the addresses they were on. */
    method DropContextEntries(ctx: string) returns (vips: set<Addr>)
      requires Valid()
      modifies this`entries, this`listeners
      ensures Valid()
      ensures var ks := KeysOf(old(View()), ctx); View() == DropEntries(old(View()), ks) && vips == VipsOf(ks)
    {
      ghost var before := View();
      ghost var ks := KeysOf(before, ctx);
      var todo := entries.Keys;
      vips := {};
      assert ks - todo == {};
      while todo != {}
        invariant Valid() && todo <= before.entries.Keys
        invariant View() == DropEntries(before, ks - todo) && vips == VipsOf(ks - todo)
        decreases todo
      {
        var key :| key in todo;
        VisitKey(before, ctx, todo, key);
        DropEntriesCompose(before, ks - todo, {key});
        todo := todo - {key};
        if key.contextName == ctx {
          DropEntry(key);
          vips := vips + {key.vip};
        }
      }
      assert ks - todo == ks;
    }

    /** Stops the timers of the given addresses and deletes their states. */
    method DropVips(vips: set<Addr>)
      requires Valid()
      modifies this`timers, this`vipStates
      ensures Valid() && View() == DropStates(old(View()), vips)
    {
      ghost var before := View();
      var todo := vips;
      while todo != {}
        invariant Valid() && todo <= vips
        invariant View() == DropStates(before, vips - todo)
        decreases todo
      {
        var vip :| vip in todo;
        DropStatesCompose(before, vips - todo, {vip});
        assert vips - (todo - {vip}) == vips - todo + {vip};
        todo := todo - {vip};
        DropVip(vip);
      }
      assert vips - todo == vips;
    }

    method DropVip(vip: Addr)
      requires Valid()
      modifies this`timers, this`vipStates
      ensures Valid() && View() == DropStates(old(View()), {vip})
    {
      ghost var ts := TimersOfVips(View(), {vip});
      if vip in vipStates {
        assert ts == TimerOf(states[vipStates[vip]]);
        StopStateTimer(vipStates[vip]);
        vipStates := vipStates - {vip};
      }
      assert vipStates == old(vipStates) - {vip};
      assert timers == StopSet(old(timers), ts);
    }

    method Shutdown()
      requires Valid()
      modifies this
      ensures Valid() && View() == ForwardState.Shutdown(old(View()))
      ensures PoolView() == P.StopKeys(old(PoolView()), old(pool).Keys)
    {
      DropAllEntries();
      DropVips(vipStates.Keys);
      StopPool(pool.Keys);
    }

    method DropAllEntries()
      requires Valid()
      modifies this`entries, this`listeners
      ensures Valid() && View() == DropEntries(old(View()), old(entries).Keys)
    {
      ghost var before := View();
      ghost var done: set<ForwardKey> := {};
      while entries != map[]
        invariant Valid() && View() == DropEntries(before, done)
        invariant done <= before.entries.Keys <= done + entries.Keys
        decreases entries.Keys
      {
        var key :| key in entries;
        DropEntriesCompose(before, done, {key});
        DropEntry(key);
        done := done + {key};
      }
      assert done == before.entries.Keys;
    }

    method ShutdownContext(ctx: string) returns (vips: set<Addr>)
      requires Valid()
      modifies this
      ensures Valid() && vips == VipsOf(KeysOf(old(View()), ctx))
      ensures View() == ForwardState.ShutdownContext(old(View()), ctx)
      ensures PoolView() == P.StopKeys(old(PoolView()), P.KeysOfContext(old(PoolView()), ctx))
    {
      vips := DropContextEntries(ctx);
      DropVips(vips);
      var ks := set k | k in pool && k.contextName == ctx;
      StopPool(ks);
    }

    // -------------------------------------------------------------- the SPDY pool

    /** Closes and removes the pooled connections under the given keys. */
    method StopPool(ks: set<P.SpdyKey>)
      requires Valid() && ks <= pool.Keys
      modifies this`pool, this`conns
      ensures Valid() && PoolView() == P.StopKeys(old(PoolView()), ks)
    {
      ghost var before := PoolView();
      var todo := ks;
      while todo != {}
        invariant Valid() && todo <= ks
        invariant PoolView() == P.StopKeys(before, ks - todo)
        decreases todo
      {
        var key :| key in todo;
        StopKeysSnoc(before, ks - todo, key);
        var e := pool[key];
        conns := conns[e := conns[e].(gone := true, left := Some(P.Stopped))];
        pool := pool - {key};
        assert ks - (todo - {key}) == ks - todo + {key};
        todo := todo - {key};
      }
      assert ks - todo == ks;
    }

    method AcquirePoolEntry(key: P.SpdyKey, dialOk: bool) returns (r: Option<nat>)
      requires Valid()
      modifies this`pool, this`conns
      ensures Valid() && (PoolView(), r) == P.Acquire(old(PoolView()), key, dialOk)
      ensures AcquiresFor(old(PoolView()), PoolView(), r, key, dialOk)
    {
      AcquireMeans(PoolView(), key, dialOk);
      if key in pool {
        var e := pool[key];
        if conns[e].gone {
          pool := pool - {key};
          conns := conns[e := conns[e].(left := Some(P.FoundStale))];
        } else {
          conns := conns[e := conns[e].(refs := conns[e].refs + 1)];
          return Some(e);
        }
      }
      if !dialOk {
        return None;
      }
      r := Some(|conns|);
      pool := pool[key := |conns|];
      conns := conns + [P.Conn(key, 1, false, 0, None, 0)];
    }

    /** The atomic half of the close callback; says whether the count reached zero. */
    method DropReference(e: nat) returns (zero: bool)
      requires Valid() && e < |conns|
      modifies this`conns
      ensures Valid() && PoolView() == P.Decrement(old(PoolView()), e) && zero == (conns[e].refs == 0)
    {
      conns := conns[e := conns[e].(refs := conns[e].refs - 1)];
      zero := conns[e].refs == 0;
    }

    /** The locked half: evicts the entry if it is still the pooled one and unused. */
    method DecideEvict(e: nat) returns (shouldClose: bool)
      requires Valid() && e < |conns|
      modifies this`pool, this`conns
      ensures Valid() && shouldClose == P.Selected(old(PoolView()), e)
      ensures PoolView() == if shouldClose then P.Remove(old(PoolView()), old(conns[e].key), P.LastReference) else old(PoolView())
    {
      var key := conns[e].key;
      shouldClose := key in pool && pool[key] == e && conns[e].refs == 0;
      if shouldClose {
        pool := pool - {key};
        conns := conns[e := conns[e].(left := Some(P.LastReference))];
      }
    }

    /** The retry path's eviction. */
    method EvictEntry(e: nat)
      requires Valid() && e < |conns|
      modifies this`pool, this`conns
      ensures Valid() && PoolView() == P.Evict(old(PoolView()), e)
    {
      var key := conns[e].key;
      if key in pool && pool[key] == e {
        pool := pool - {key};
        conns := conns[e := conns[e].(left := Some(P.Retried))];
      }
      conns := conns[e := conns[e].(leaked := conns[e].leaked + 1)];
    }
  }

  /** A live pooled connection is shared, with one more reference and nothing else changed; otherwise a
      dial that succeeds is pooled for the key and one that fails leaves the key unpooled, and no other
      connection is closed or counted differently. */
  ghost predicate AcquiresFor(p: P.Pool, p': P.Pool, r: Option<nat>, key: P.SpdyKey, dialOk: bool)
    requires P.InRange(p)
  {
    if key in p.pool && !p.conns[p.pool[key]].gone then
      var e := p.pool[key];
      r == Some(e) && p'.pool == p.pool && p'.conns == p.conns[e := p.conns[e].(refs := p.conns[e].refs + 1)]
    else
      && r == (if dialOk then Some(|p.conns|) else None) && (key in p'.pool <==> dialOk)
      && |p'.conns| == |p.conns| + (if dialOk then 1 else 0)
      && (forall e :: 0 <= e < |p.conns| ==> p'.conns[e].gone == p.conns[e].gone && p'.conns[e].refs == p.conns[e].refs)
      && (forall k :: k != key ==> (k in p'.pool <==> k in p.pool) && (k in p.pool ==> p'.pool[k] == p.pool[k]))
  }

  lemma AcquireMeans(p: P.Pool, key: P.SpdyKey, dialOk: bool)
    requires P.InRange(p)
    ensures var (p', r) := P.Acquire(p, key, dialOk); AcquiresFor(p, p', r, key, dialOk)
  {
  }

  lemma StopKeysSnoc(p: P.Pool, done: set<P.SpdyKey>, key: P.SpdyKey)
    requires P.InRange(p) && key in p.pool && key !in done
    ensures var e, q := p.pool[key], P.StopKeys(p, done);
      P.StopKeys(p, done + {key}) == P.Pool(q.pool - {key}, q.conns[e := q.conns[e].(gone := true, left := Some(P.Stopped))])
  {
    var e, q, r := p.pool[key], P.StopKeys(p, done), P.StopKeys(p, done + {key});
    assert r.pool == q.pool - {key};
    assert r.conns == q.conns[e := q.conns[e].(gone := true, left := Some(P.Stopped))];
  }

  lemma VisitKey(t: Tables, ctx: string, todo: set<ForwardKey>, key: ForwardKey)
    requires key in todo && key in t.entries
    ensures var ks := KeysOf(t, ctx);
      if key.contextName == ctx
      then ks - (todo - {key}) == ks - todo + {key} && VipsOf(ks - todo + {key}) == VipsOf(ks - todo) + {key.vip}
      else ks - (todo - {key}) == ks - todo
  {
  }

  lemma KeySetSnoc(keys: seq<ForwardKey>, i: nat)
    requires i < |keys|
    ensures KeySet(keys[..i + 1]) == KeySet(keys[..i]) + {keys[i]}
  {
    forall k | k in KeySet(keys[..i]) ensures k in KeySet(keys[..i + 1]) {
      var j :| 0 <= j < i && keys[..i][j] == k;
      assert keys[..i + 1][j] == k;
    }
    assert keys[..i + 1][i] == keys[i];
  }

  lemma DropEntriesCompose(t: Tables, ks: set<ForwardKey>, more: set<ForwardKey>)
    ensures DropEntries(DropEntries(t, ks), more) == DropEntries(t, ks + more)
  {
    var t1 := DropEntries(t, ks);
    assert t1.entries - more == t.entries - (ks + more);
    var ls := set k | k in ks && k in t.entries :: t.entries[k];
    var ls1 := set k | k in more && k in t1.entries :: t1.entries[k];
    var ls2 := set k | k in ks + more && k in t.entries :: t.entries[k];
    assert ls2 == ls + ls1;
    assert CloseSet(CloseSet(t.listeners, ls), ls1) == CloseSet(t.listeners, ls2);
  }

  lemma TimersOfVipsCompose(t: Tables, vips: set<Addr>, more: set<Addr>)
    requires InRange(t) && InRange(DropStates(t, vips))
    ensures TimersOfVips(t, vips + more) == TimersOfVips(t, vips) + TimersOfVips(DropStates(t, vips), more)
  {
    var t1 := DropStates(t, vips);
    forall i | i in TimersOfVips(t, vips + more) ensures i in TimersOfVips(t, vips) + TimersOfVips(t1, more) {
      var v :| v in vips + more && v in t.vipStates && i in TimerOf(t.states[t.vipStates[v]]);
      if v !in vips {
        assert v in t1.vipStates;
      }
    }
  }

  lemma DropStatesCompose(t: Tables, vips: set<Addr>, more: set<Addr>)
    requires InRange(t)
    ensures InRange(DropStates(t, vips))
    ensures DropStates(DropStates(t, vips), more) == DropStates(t, vips + more)
  {
    var t1 := DropStates(t, vips);
    assert t1.vipStates - more == t.vipStates - (vips + more);
    TimersOfVipsCompose(t, vips, more);
    StopSetCompose(t.timers, TimersOfVips(t, vips), TimersOfVips(t1, more));
  }

  lemma StopSetCompose(timers: seq<Timer>, ts: set<nat>, more: set<nat>)
    ensures StopSet(StopSet(timers, ts), more) == StopSet(timers, ts + more)
  {
  }
}
