/** The allocator and the forward manager's tables joined as the DNS server joins them. */
module Resolution {
  import opened Wrappers
  import opened ServiceKeys
  import opened Allocator
  import opened ForwardState
  import opened ForwardProtocol
  import opened ForwardSafety
  import opened ForwardLeftover

  datatype Proxy = Proxy(a: Alloc, t: Tables)

  /** What one resolution learns from outside: the service's ports if it resolves, what adding an
      address reports, whether an address and port can be listened on, and the current context. */
  datatype Env = Env(ports: Option<seq<int>>, add: Addr -> AddOutcome, listen: (Addr, int) -> bool, current: string)

  datatype ContextVip = ContextVip(ctx: string, vip: Addr, ports: seq<int>)

  /** A forward asked for without a context name is for the current context. */
  function OrCurrent(ctx: string, current: string): string {
    if ctx == "" then current else ctx
  }

  /** Starts a forward for each port in turn, giving up at the first failure. */
  function StartAll(t: Tables, ctx: string, vip: Addr, ports: seq<int>, listen: (Addr, int) -> bool): (r: (Tables, bool))
    requires InRange(t)
    ensures InRange(r.0)
    decreases |ports|
  {
    if ports == [] then (t, true)
    else
      var (t1, ok) := StartAlone(t, ForwardKey(ctx, vip, ports[0]), listen(vip, ports[0]));
      if ok then StartAll(t1, ctx, vip, ports[1..], listen) else (t1, false)
  }

  /** The address of a service in one context: the one it has, which is touched, or a new one with
      its listeners started. */
  function ResolveForContext(p: Proxy, q: Query, env: Env): (r: (Proxy, Option<ContextVip>))
    requires Bounded(p.a) && InRange(p.t)
    ensures Bounded(r.0.a) && InRange(r.0.t)
  {
    var key := ServiceKey(q);
    match Lookup(p.a, key)
    case Some(vip) =>
      (p.(t := Touch(p.t, vip)), Some(ContextVip(q.ctx, vip, if env.ports.Some? then env.ports.value else [])))
    case None =>
      if env.ports.None? then (p, None)
      else
        var (a, r) := Allocate(p.a, key, env.add);
        if r.None? then (p.(a := a), None)
        else
          var (t, ok) := StartAll(p.t, OrCurrent(q.ctx, env.current), r.value, env.ports.value, env.listen);
          (Proxy(a, t), if ok then Some(ContextVip(q.ctx, r.value, env.ports.value)) else None)
  }

  /** The release of several addresses, in whatever order. */
  function ReleaseAll(a: Alloc, vips: set<Addr>): Alloc {
    a.(byAddr := a.byAddr - vips,
       byKey := a.byKey - (set v | v in vips && v in a.byAddr :: a.byAddr[v]),
       released := a.released + (vips * a.byAddr.Keys))
  }

  function Expire(p: Proxy, vip: Addr): Proxy
    requires InRange(p.t) && vip in p.t.vipStates
  {
    Proxy(Release(p.a, vip), TearDown(p.t, vip))
  }

  function StopOneContext(p: Proxy, ctx: string): Proxy
    requires InRange(p.t)
  {
    var vips := VipsOf(KeysOf(p.t, ctx));
    Proxy(if p.t.settings.hasReleaser then ReleaseAll(p.a, vips) else p.a, ShutdownContext(p.t, ctx))
  }

  // ---------------------------------------------------------------- the link between the two

  /** All listeners on the address are of that context. */
  ghost predicate AloneOn(t: Tables, vip: Addr, ctx: string) {
    forall k :: k in t.entries && k.vip == vip ==> k.contextName == ctx
  }

  /** Every listener's address is held and serves one context; with idle expiry, every entry is
      tracked by the state of its address, whose keys are thus exactly the entries on it. */
  ghost predicate EntriesLinked(p: Proxy)
    requires InRange(p.t)
  {
    && (forall k :: k in p.t.entries ==> EntryLinked(p, k))
    && (forall v :: v in p.t.vipStates ==> v in p.a.byAddr)
  }

  ghost predicate EntryLinked(p: Proxy, k: ForwardKey)
    requires InRange(p.t)
  {
    && k.vip in p.a.byAddr && AloneOn(p.t, k.vip, k.contextName)
    && (Tracking(p.t.settings) ==> k.vip in p.t.vipStates && k in p.t.states[p.t.vipStates[k.vip]].forwardKeys)
  }

  /** Every state ever created had an address of its own, issued by the allocator. */
  ghost predicate StatesLinked(p: Proxy)
    requires StatesOk(p.t)
  {
    && (forall i :: 0 <= i < |p.t.states| ==> p.a.base <= VipOf(p.t.states[i]) < p.a.next)
    && SingleIncarnation(p.t)
  }

  ghost predicate Linked(p: Proxy) {
    AllocInv(p.a) && StatesOk(p.t) && EntriesLinked(p) && StatesLinked(p)
  }

  /** Nothing the link speaks of has changed. */
  lemma LinkFrame(p: Proxy, t': Tables)
    requires Linked(p) && StatesOk(t') && t'.entries == p.t.entries && t'.vipStates == p.t.vipStates && t'.settings == p.t.settings
    requires |t'.states| == |p.t.states| && forall i :: 0 <= i < |p.t.states| ==> t'.states[i].forwardKeys == p.t.states[i].forwardKeys
    ensures Linked(p.(t := t'))
  {
    forall k | k in t'.entries ensures EntryLinked(p.(t := t'), k) {
      assert EntryLinked(p, k);
    }
  }

  lemma TouchKeepsKeys(t: Tables, vip: Addr)
    requires InRange(t)
    ensures var t' := Touch(t, vip);
      |t'.states| == |t.states| && forall i :: 0 <= i < |t.states| ==> t'.states[i].forwardKeys == t.states[i].forwardKeys
  {
  }

  lemma TouchStatesOk(t: Tables, vip: Addr)
    requires StatesOk(t)
    ensures StatesOk(Touch(t, vip))
  {
    TouchFrame(t, vip);
    TouchKeepsKeys(t, vip);
  }

  lemma TouchLinked(p: Proxy, vip: Addr)
    requires Linked(p)
    ensures Linked(p.(t := Touch(p.t, vip)))
  {
    TouchStatesOk(p.t, vip);
    TouchFrame(p.t, vip);
    TouchKeepsKeys(p.t, vip);
    LinkFrame(p, Touch(p.t, vip));
  }

  /** The address is tracked, or has never been. */
  ghost predicate TrackedOrNew(t: Tables, vip: Addr)
    requires StatesOk(t)
  {
    vip in t.vipStates || forall i :: 0 <= i < |t.states| ==> VipOf(t.states[i]) != vip
  }

  /** The address is held and serves no other context, so a listener may be entered on it. */
  ghost predicate MayEnter(p: Proxy, ctx: string, vip: Addr)
    requires StatesOk(p.t)
  {
    vip in p.a.byAddr && AloneOn(p.t, vip, ctx) && TrackedOrNew(p.t, vip)
  }

  /** Without idle expiry only the entry is added. */
  lemma AddEntryUntracked(p: Proxy, key: ForwardKey, l: nat)
    requires Linked(p) && !Tracking(p.t.settings) && key !in p.t.entries && l < |p.t.listeners|
    requires MayEnter(p, key.contextName, key.vip)
    ensures Linked(p.(t := AddEntry(p.t, key, l)))
  {
    AddEntryStates(p.t, key, l);
    var t' := AddEntry(p.t, key, l);
    forall k | k in t'.entries ensures EntryLinked(p.(t := t'), k) {
      assert k != key ==> EntryLinked(p, k);
    }
  }

  lemma AddEntryToState(p: Proxy, key: ForwardKey, l: nat)
    requires Tracking(p.t.settings) && Linked(p) && key !in p.t.entries && l < |p.t.listeners|
    requires MayEnter(p, key.contextName, key.vip) && key.vip in p.t.vipStates
    ensures Linked(p.(t := AddEntry(p.t, key, l)))
  {
    AddEntryStates(p.t, key, l);
    AddEntryToStateEntries(p, key, l);
    AddEntryFirstKeys(p.t, key, l);
    SameVips(p, p.(t := AddEntry(p.t, key, l)));
  }

  /** A state's first key, and so its address, never changes. */
  lemma AddEntryFirstKeys(t: Tables, key: ForwardKey, l: nat)
    requires StatesOk(t)
    ensures var t' := AddEntry(t, key, l);
      && |t'.states| == |t.states| + (if Tracking(t.settings) && key.vip !in t.vipStates then 1 else 0)
      && forall i :: 0 <= i < |t.states| ==> t'.states[i].forwardKeys != [] && t'.states[i].forwardKeys[0] == t.states[i].forwardKeys[0]
  {
    AddEntrySame(t, key, l);
  }

  /** The same states on the same addresses. */
  lemma SameVips(p: Proxy, p': Proxy)
    requires StatesOk(p.t) && StatesOk(p'.t) && StatesLinked(p)
    requires |p'.t.states| == |p.t.states| && p'.a.base == p.a.base && p'.a.next >= p.a.next
    requires forall i :: 0 <= i < |p.t.states| ==> p'.t.states[i].forwardKeys[0] == p.t.states[i].forwardKeys[0]
    ensures StatesLinked(p')
  {
    assert forall i :: 0 <= i < |p.t.states| ==> VipOf(p'.t.states[i]) == VipOf(p.t.states[i]);
  }

  lemma AddEntryToStateEntries(p: Proxy, key: ForwardKey, l: nat)
    requires Tracking(p.t.settings) && InRange(p.t) && EntriesLinked(p) && key.vip in p.t.vipStates && l < |p.t.listeners|
    requires key.vip in p.a.byAddr && AloneOn(p.t, key.vip, key.contextName)
    ensures InRange(AddEntry(p.t, key, l)) && EntriesLinked(p.(t := AddEntry(p.t, key, l)))
  {
    var t' := AddEntry(p.t, key, l);
    var sid := p.t.vipStates[key.vip];
    var keys := t'.states[sid].forwardKeys;
    assert keys[|keys| - 1] == key;
    forall k | k in t'.entries ensures EntryLinked(p.(t := t'), k) {
      assert k != key ==> EntryLinked(p, k);
    }
  }

  lemma AddEntryNewState(p: Proxy, key: ForwardKey, l: nat)
    requires Tracking(p.t.settings) && Linked(p) && key !in p.t.entries && l < |p.t.listeners|
    requires MayEnter(p, key.contextName, key.vip) && key.vip !in p.t.vipStates
    ensures Linked(p.(t := AddEntry(p.t, key, l)))
  {
    AddEntryStates(p.t, key, l);
    AddEntryNewStateEntries(p, key, l);
    AppendedVip(p, AddEntry(p.t, key, l));
  }

  /** One more state, on an address that has had none. */
  lemma AppendedVip(p: Proxy, t': Tables)
    requires StatesOk(p.t) && StatesOk(t') && StatesLinked(p)
    requires |t'.states| == |p.t.states| + 1 && t'.states[..|p.t.states|] == p.t.states
    requires var vip := VipOf(t'.states[|p.t.states|]);
      p.a.base <= vip < p.a.next && forall i :: 0 <= i < |p.t.states| ==> VipOf(p.t.states[i]) != vip
    ensures StatesLinked(p.(t := t'))
  {
    assert forall i :: 0 <= i < |p.t.states| ==> t'.states[i] == p.t.states[i];
  }

  lemma AddEntryNewStateEntries(p: Proxy, key: ForwardKey, l: nat)
    requires Tracking(p.t.settings) && InRange(p.t) && EntriesLinked(p) && key.vip !in p.t.vipStates && l < |p.t.listeners|
    requires key.vip in p.a.byAddr && AloneOn(p.t, key.vip, key.contextName)
    ensures InRange(AddEntry(p.t, key, l)) && EntriesLinked(p.(t := AddEntry(p.t, key, l)))
  {
    var t' := AddEntry(p.t, key, l);
    assert t'.states[|p.t.states|].forwardKeys == [key];
    forall k | k in t'.entries ensures EntryLinked(p.(t := t'), k) {
      assert k != key ==> EntryLinked(p, k);
    }
  }

  lemma InstallLinked(p: Proxy, key: ForwardKey, l: nat)
    requires Linked(p) && key !in p.t.entries && l < |p.t.listeners| && MayEnter(p, key.contextName, key.vip)
    ensures Linked(p.(t := Install(p.t, key, l))) && MayEnter(p.(t := Install(p.t, key, l)), key.contextName, key.vip)
  {
    if !Tracking(p.t.settings) {
      AddEntryUntracked(p, key, l);
    } else if key.vip in p.t.vipStates {
      AddEntryToState(p, key, l);
    } else {
      AddEntryNewState(p, key, l);
    }
    var t1 := AddEntry(p.t, key, l);
    TouchLinked(p.(t := t1), key.vip);
    TouchFrame(t1, key.vip);
  }

  lemma BindLinked(p: Proxy, key: ForwardKey)
    requires Linked(p)
    ensures Linked(p.(t := Bind(p.t, key)))
  {
    LinkFrame(p, Bind(p.t, key));
  }

  lemma StartAloneLinked(p: Proxy, key: ForwardKey, listenOk: bool)
    requires Linked(p) && MayEnter(p, key.contextName, key.vip)
    ensures var p' := p.(t := StartAlone(p.t, key, listenOk).0); Linked(p') && MayEnter(p', key.contextName, key.vip)
  {
    if key in p.t.entries {
      TouchLinked(p, key.vip);
      TouchFrame(p.t, key.vip);
    } else if listenOk {
      BindLinked(p, key);
      InstallLinked(p.(t := Bind(p.t, key)), key, |p.t.listeners|);
    }
  }

  lemma {:induction false} StartAllLinked(p: Proxy, ctx: string, vip: Addr, ports: seq<int>, listen: (Addr, int) -> bool)
    requires Linked(p) && MayEnter(p, ctx, vip)
    ensures Linked(p.(t := StartAll(p.t, ctx, vip, ports, listen).0))
    decreases |ports|
  {
    if ports != [] {
      var key := ForwardKey(ctx, vip, ports[0]);
      StartAloneLinked(p, key, listen(vip, ports[0]));
      var (t1, ok) := StartAlone(p.t, key, listen(vip, ports[0]));
      if ok {
        StartAllLinked(p.(t := t1), ctx, vip, ports[1..], listen);
      }
    }
  }

  /** A fresh address extends the allocator without touching what it held. */
  lemma AllocateLinked(p: Proxy, q: Query, add: Addr -> AddOutcome)
    requires Linked(p) && ServiceKey(q) !in p.a.byKey
    ensures var (a, r) := Allocate(p.a, ServiceKey(q), add);
      Linked(p.(a := a)) && (r.Some? ==> forall ctx :: MayEnter(p.(a := a), ctx, r.value))
  {
    AllocateFromKeeps(p.a, ServiceKey(q), add);
    var (a, r) := AllocateFrom(p.a, ServiceKey(q), add);
    Grown(p, a);
    if r.Some? {
      assert r.value !in p.a.byAddr;
      FreshUnused(p, r.value);
    }
  }

  /** The allocator holds at least what it held, and has issued at least what it had. */
  lemma Grown(p: Proxy, a: Alloc)
    requires Linked(p) && AllocInv(a) && a.base == p.a.base && a.next >= p.a.next
    requires forall ip :: ip in p.a.byAddr ==> ip in a.byAddr
    ensures Linked(p.(a := a))
  {
    forall k | k in p.t.entries ensures EntryLinked(p.(a := a), k) {
      assert EntryLinked(p, k);
    }
  }

  /** An address at or above `next` has never been listened on or tracked. */
  lemma FreshUnused(p: Proxy, vip: Addr)
    requires Linked(p) && vip !in p.a.byAddr && vip >= p.a.next
    ensures TrackedOrNew(p.t, vip) && forall ctx :: AloneOn(p.t, vip, ctx)
  {
    forall k | k in p.t.entries ensures k.vip != vip {
      assert EntryLinked(p, k);
    }
  }

  lemma ResolveLinked(p: Proxy, q: Query, env: Env)
    requires Linked(p)
    ensures Linked(ResolveForContext(p, q, env).0)
  {
    var key := ServiceKey(q);
    if key in p.a.byKey {
      TouchLinked(p, p.a.byKey[key]);
    } else if env.ports.Some? {
      AllocateLinked(p, q, env.add);
      var (a, r) := Allocate(p.a, key, env.add);
      if r.Some? {
        StartAllLinked(p.(a := a), OrCurrent(q.ctx, env.current), r.value, env.ports.value, env.listen);
      }
    }
  }

  lemma ExpireLinked(p: Proxy, vip: Addr)
    requires Linked(p) && vip in p.t.vipStates
    ensures Linked(Expire(p, vip))
  {
    ReleaseKeeps(p.a, vip);
    TearDownStates(p.t, vip);
    ExpireEntries(p, vip);
    SameVips(p, Expire(p, vip));
  }

  lemma ExpireEntries(p: Proxy, vip: Addr)
    requires InRange(p.t) && Tracking(p.t.settings) && EntriesLinked(p) && vip in p.t.vipStates
    ensures InRange(Expire(p, vip).t) && EntriesLinked(Expire(p, vip))
  {
    TearDownClears(p, vip);
    var p' := Expire(p, vip);
    forall k | k in p'.t.entries ensures EntryLinked(p', k) {
      assert EntryLinked(p, k) && k.vip != vip;
    }
  }

  /** No listener is left on an address that was torn down. */
  lemma TearDownClears(p: Proxy, vip: Addr)
    requires InRange(p.t) && Tracking(p.t.settings) && EntriesLinked(p) && vip in p.t.vipStates
    ensures forall k :: k in TearDown(p.t, vip).entries ==> k.vip != vip
  {
    var keys := p.t.states[p.t.vipStates[vip]].forwardKeys;
    forall k | k in p.t.entries && k.vip == vip ensures k in KeySet(keys) {
      assert EntryLinked(p, k);
      var i :| 0 <= i < |keys| && keys[i] == k;
    }
  }

  lemma ReleaseAllKeeps(a: Alloc, vips: set<Addr>)
    requires AllocInv(a)
    ensures AllocInv(ReleaseAll(a, vips))
  {
    var b := ReleaseAll(a, vips);
    forall k | k in b.byKey ensures b.byKey[k] in b.byAddr && b.byAddr[b.byKey[k]] == k {
      assert a.byAddr[a.byKey[k]] == k;
    }
    forall ip | ip in b.byAddr ensures b.byAddr[ip] in b.byKey && b.byKey[b.byAddr[ip]] == ip {
    }
  }

  /** Listeners of another context are never on an address of this one. */
  lemma OtherContextsApart(p: Proxy, ctx: string, k: ForwardKey)
    requires Linked(p) && k in p.t.entries && k.contextName != ctx
    ensures k.vip !in VipsOf(KeysOf(p.t, ctx))
  {
    assert EntryLinked(p, k);
    forall j | j in KeysOf(p.t, ctx) ensures j.vip != k.vip {
      assert EntryLinked(p, j);
    }
  }

  lemma StopContextLinked(p: Proxy, ctx: string)
    requires Linked(p)
    ensures Linked(StopOneContext(p, ctx))
  {
    var ks := KeysOf(p.t, ctx);
    ReleaseAllKeeps(p.a, VipsOf(ks));
    DropStatesOk(p.t, ks, VipsOf(ks));
    var p' := StopOneContext(p, ctx);
    forall k | k in p'.t.entries ensures EntryLinked(p', k) {
      assert EntryLinked(p, k);
      OtherContextsApart(p, ctx, k);
    }
  }

  lemma StopAllLinked(p: Proxy)
    requires Linked(p)
    ensures Linked(p.(t := Shutdown(p.t)))
  {
    DropStatesOk(p.t, p.t.entries.Keys, p.t.vipStates.Keys);
  }
}
