/** Hot reload of a proxy in any reachable state. */
module HotReload {
  import opened Wrappers
  import opened KubeConfig
  import opened Reload
  import opened KubeconfigHandler
  import opened Reachability
  import P = SpdyPool
  import R = Resolution
  import FS = ForwardState
  import S = ProxySystem
  import FP = ForwardProtocol

  lemma ReachableSound(u: S.Setup, w: Tunnels)
    requires Reachable(u, w.proxy) && P.InRange(w.pool)
    ensures Sound(w)
  {
    ReachableLinked(u, w.proxy);
    var steps, g :| ReachedBy(u, steps, g) && S.ProxyOf(g) == w.proxy;
    assert FP.Inv(g.fm);
  }

  /** Hot reload is exact. In every reachable state, a change of the merged configuration from `before`
      to `after` removes every listener, address state, address and pooled connection of each old
      context that now stands for something else or nothing, and leaves those of every other context
      as they are. */
  lemma ReloadExact(u: S.Setup, w: Tunnels, w': Tunnels, before: Option<Config>, after: Option<Config>)
    requires Reachable(u, w.proxy) && WellFormed(w) && Stopped(w, w', AffectedOpt(before, after))
    ensures Sound(w) && ExactlyWithout(w, w', AffectedOpt(before, after))
  {
    ReachableSound(u, w);
    StoppedExactly(w, w', AffectedOpt(before, after));
  }

  /** Nothing of the context is left: no listener, no tracked address, no pooled connection, and, if
      addresses are released, no address it was served on. */
  ghost predicate NothingOf(w: Tunnels, w': Tunnels, name: string)
    requires WellFormed(w) && WellFormed(w')
  {
    && (forall k :: k in w'.proxy.t.entries ==> k.contextName != name)
    && |w'.proxy.t.listeners| == |w.proxy.t.listeners|
    && (forall k :: k in w.proxy.t.entries && k.contextName == name ==> !w'.proxy.t.listeners[w.proxy.t.entries[k]].open)
    && (forall k :: k in w.proxy.t.entries && k.contextName == name ==>
          k.vip !in w'.proxy.t.vipStates && (w.proxy.t.settings.hasReleaser ==> k.vip !in w'.proxy.a.byAddr))
    && |w'.pool.conns| == |w.pool.conns|
    && (forall k :: k in w'.pool.pool ==> k.contextName != name)
    && (forall k :: k in w.pool.pool && k.contextName == name ==> w'.pool.conns[w.pool.pool[k]].gone)
  }

  /** Everything of the context is as it was. */
  ghost predicate AllOf(w: Tunnels, w': Tunnels, name: string)
    requires WellFormed(w) && WellFormed(w')
  {
    && |w'.proxy.t.listeners| == |w.proxy.t.listeners| && |w'.pool.conns| == |w.pool.conns| && |w'.proxy.t.timers| == |w.proxy.t.timers|
    && (forall k :: k in w.proxy.t.entries && k.contextName == name ==>
          k in w'.proxy.t.entries && w'.proxy.t.entries[k] == w.proxy.t.entries[k]
          && w'.proxy.t.listeners[w.proxy.t.entries[k]] == w.proxy.t.listeners[w.proxy.t.entries[k]])
    && (forall k :: k in w.proxy.t.entries && k.contextName == name && k.vip in w.proxy.t.vipStates ==> StateKept(w.proxy.t, w'.proxy.t, k.vip))
    && (forall k :: k in w.proxy.t.entries && k.contextName == name ==>
          k.vip in w.proxy.a.byAddr && k.vip in w'.proxy.a.byAddr && w'.proxy.a.byAddr[k.vip] == w.proxy.a.byAddr[k.vip])
    && (forall k :: k in w.pool.pool && k.contextName == name ==>
          k in w'.pool.pool && w'.pool.pool[k] == w.pool.pool[k] && w'.pool.conns[w.pool.pool[k]] == w.pool.conns[w.pool.pool[k]])
  }

  /** The address has the same state, with the same timer in the same status. */
  ghost predicate StateKept(t: FS.Tables, t': FS.Tables, vip: Addr)
    requires FS.InRange(t) && FS.InRange(t') && |t'.timers| == |t.timers| && vip in t.vipStates
  {
    var sid := t.vipStates[vip];
    && vip in t'.vipStates && t'.vipStates[vip] == sid && t'.states[sid] == t.states[sid]
    && (t.states[sid].timer.Some? ==> t'.timers[t.states[sid].timer.value] == t.timers[t.states[sid].timer.value])
  }

  /** The context of an address's state is that of every listener on the address. */
  lemma StateContext(p: R.Proxy, k: FS.ForwardKey)
    requires R.Linked(p) && k in p.t.entries && k.vip in p.t.vipStates
    ensures ContextAt(p.t, k.vip) == k.contextName
  {
    var first := p.t.states[p.t.vipStates[k.vip]].forwardKeys[0];
    assert FP.KeysOk(p.t.states[p.t.vipStates[k.vip]]) && first in p.t.entries;
    assert R.EntryLinked(p, k);
  }

  lemma GoneMeansNothing(w: Tunnels, w': Tunnels, gone: set<string>, name: string)
    requires Sound(w) && WellFormed(w') && ExactlyWithout(w, w', gone) && name in gone
    ensures NothingOf(w, w', name)
  {
    forall k | k in w.proxy.t.entries && k.contextName == name
      ensures k.vip !in w'.proxy.t.vipStates && (w.proxy.t.settings.hasReleaser ==> k.vip !in w'.proxy.a.byAddr)
    {
      assert Serves(w.proxy.t, k.vip, gone);
      if k.vip in w.proxy.t.vipStates {
        StateContext(w.proxy, k);
      }
    }
  }

  lemma KeptMeansAll(w: Tunnels, w': Tunnels, gone: set<string>, name: string)
    requires Sound(w) && WellFormed(w') && ExactlyWithout(w, w', gone) && name !in gone
    ensures AllOf(w, w', name)
  {
    forall k | k in w.proxy.t.entries && k.contextName == name
      ensures k.vip in w.proxy.a.byAddr && k.vip in w'.proxy.a.byAddr && w'.proxy.a.byAddr[k.vip] == w.proxy.a.byAddr[k.vip]
      ensures k.vip in w.proxy.t.vipStates ==> StateKept(w.proxy.t, w'.proxy.t, k.vip)
    {
      assert R.EntryLinked(w.proxy, k);
      if k.vip in w.proxy.t.vipStates {
        StateContext(w.proxy, k);
      }
    }
  }

  /** In every reachable state, context by context: a context of the old configuration that is missing
      from the new one, or whose entry, cluster or user differs, loses everything; every other context,
      known or not, keeps everything. */
  lemma ReloadByContext(u: S.Setup, w: Tunnels, w': Tunnels, before: Config, after: Config, name: string)
    requires Reachable(u, w.proxy) && WellFormed(w) && Stopped(w, w', AffectedOpt(Some(before), Some(after)))
    ensures WellFormed(w')
    ensures if name in before.contexts && Differs(before, after, name) then NothingOf(w, w', name) else AllOf(w, w', name)
  {
    ReachableSound(u, w);
    StoppedExactly(w, w', AffectedOpt(Some(before), Some(after)));
    ListedIff(Some(before), Some(after));
    if name in before.contexts && Differs(before, after, name) {
      GoneMeansNothing(w, w', AffectedOpt(Some(before), Some(after)), name);
    } else {
      KeptMeansAll(w, w', AffectedOpt(Some(before), Some(after)), name);
    }
  }

  /** In particular a context that only the dynamic configuration had is left with nothing by a DELETE,
      and by a PUT that does not have it. */
  lemma VanishedLoseAll(u: S.Setup, w: Tunnels, w': Tunnels, file: Config, dynamic: Config, verb: Verb, body: Option<Config>, name: string)
    requires Reachable(u, w.proxy) && WellFormed(w)
    requires Stopped(w, w', AffectedOpt(MergedOpt(Some(file), Some(dynamic)), MergedOpt(Some(file), NextDynamic(verb, Some(dynamic), body))))
    requires name in dynamic.contexts && name !in file.contexts
    requires verb == Delete || (verb == Put && body.Some? && name !in body.value.contexts)
    ensures WellFormed(w') && NothingOf(w, w', name)
  {
    Vanishes(file, dynamic, verb, body, name);
    ReloadByContext(u, w, w', Merged(file, Some(dynamic)), Merged(file, NextDynamic(verb, Some(dynamic), body)), name);
  }

  lemma Vanishes(file: Config, dynamic: Config, verb: Verb, body: Option<Config>, name: string)
    requires name in dynamic.contexts && name !in file.contexts
    requires verb == Delete || (verb == Put && body.Some? && name !in body.value.contexts)
    ensures var before := Merged(file, Some(dynamic));
      name in before.contexts && Differs(before, Merged(file, NextDynamic(verb, Some(dynamic), body)), name)
  {
  }

  /** A reload leads from reachable states to reachable states, so whatever holds of those holds
      after it. */
  lemma {:induction false} ReloadReachable(u: S.Setup, w: Tunnels, names: seq<string>)
    requires Reachable(u, w.proxy) && WellFormed(w)
    ensures Reachable(u, StopEach(w, names).proxy)
    decreases |names|
  {
    if names != [] {
      StopReachable(u, w.proxy, names[0]);
      ReloadReachable(u, StopOne(w, names[0]), names[1..]);
    }
  }

  // ---------------------------------------------------------------- what each request affects

  /** With a fixed file, a PATCH affects exactly the contexts it does not spare: those it redefines, or
      whose cluster or user it redefines or newly defines. */
  lemma PatchAffectsIff(file: Config, dynamic: Option<Config>, body: Config, name: string)
    ensures var before := Merged(file, dynamic);
      name in AffectedOpt(Some(before), MergedOpt(Some(file), NextDynamic(Patch, dynamic, Some(body))))
      <==> name in before.contexts && !SparesContext(before, body, name)
  {
    PatchMeansOverride(file, dynamic, body);
    var before := Merged(file, dynamic);
    if name in before.contexts {
      OverrideKeepsContext(before, body, name);
    }
  }

  /** A POST leaves every tunnel alone if the addition is harmless to the merged configuration, and
      only then are no contexts affected. */
  lemma HarmlessPostStopsNothing(file: Config, dynamic: Option<Config>, body: Config, w: Tunnels, w': Tunnels)
    requires WellFormed(w) && AdditionHarmless(Merged(file, dynamic), body)
    requires Stopped(w, w', AffectedOpt(MergedOpt(Some(file), dynamic), MergedOpt(Some(file), NextDynamic(Post, dynamic, Some(body)))))
    ensures w' == w
  {
    if NoConflict(dynamic, body) {
      PostAffectsNoneIff(file, dynamic, body);
    }
    StoppedNone(w, w');
  }
}
