/** What is left alone does expire: the counterpart of expiring only what is idle. */
module ProxyProgress {
  import opened Wrappers
  import opened ServiceKeys
  import opened Allocator
  import opened ForwardState
  import opened Resolution
  import opened ProxySystem
  import opened Reachability
  import FP = ForwardProtocol
  import FS = ForwardSafety

  /** Time passes and timers fire; nothing else happens. */
  predicate Waiting(step: Step) {
    step.Forward? && (step.step.Tick? || step.step.Fire?)
  }

  /** `more` continues the run `steps` by waiting. */
  ghost predicate Patient(steps: seq<Step>, more: seq<Step>) {
    |steps| <= |more| && more[..|steps|] == steps && forall k :: |steps| <= k < |more| ==> Waiting(more[k])
  }

  lemma PatientStep(steps: seq<Step>, more: seq<Step>, step: Step)
    requires Patient(steps, more) && Waiting(step)
    ensures Patient(steps, more + [step])
  {
    assert (more + [step])[..|steps|] == more[..|steps|];
  }

  lemma PatientAlready(steps: seq<Step>)
    ensures Patient(steps, steps)
  {
    assert steps[..|steps|] == steps;
  }

  /** The clock shows `now` and everything else is as it was. */
  function AtTime(g: State, now: nat): FP.State {
    g.fm.(t := g.fm.t.(now := now))
  }

  lemma TickStep(s: FP.State)
    requires FP.Inv(s)
    ensures FP.Enabled(s, FP.Tick) && Separate(s, FP.Tick)
    ensures FP.Apply(s, FP.Tick) == s.(t := s.t.(now := s.t.now + 1))
  {
  }

  lemma TickKeeps(g: State)
    requires Good(g)
    ensures Enabled(g, Forward(FP.Tick))
    ensures Good(Apply(g, Forward(FP.Tick))) && Apply(g, Forward(FP.Tick)).fm == FP.Apply(g.fm, FP.Tick)
  {
    TickStep(g.fm);
    StepKeepsGood(g, Forward(FP.Tick));
  }

  /** Waiting until a given time. */
  lemma {:induction false} WaitUntil(u: Setup, steps: seq<Step>, more: seq<Step>, g: State, due: int) returns (longer: seq<Step>, g': State)
    requires ReachedBy(u, more, g) && Good(g) && Patient(steps, more)
    ensures ReachedBy(u, longer, g') && Good(g') && Patient(steps, longer)
    ensures g'.fm.t.now >= due && g'.fm == AtTime(g, g'.fm.t.now)
    decreases due - g.fm.t.now
  {
    if g.fm.t.now >= due {
      longer, g' := more, g;
    } else {
      TickKeeps(g);
      TickStep(g.fm);
      PatientStep(steps, more, Forward(FP.Tick));
      var next := Extend(u, more, g, Forward(FP.Tick));
      longer, g' := WaitUntil(u, steps, next, Apply(g, Forward(FP.Tick)), due);
    }
  }

  lemma FireStep(s: FP.State, i: nat)
    requires FP.Inv(s) && i < |s.t.timers| && s.t.timers[i].status == Armed && s.t.timers[i].due <= s.t.now
    ensures FP.Enabled(s, FP.Fire(i)) && Separate(s, FP.Fire(i))
    ensures FP.Apply(s, FP.Fire(i)) == s.(t := FP.SetStatus(s.t, i, Fired))
  {
  }

  lemma FireKeeps(g: State, i: nat)
    requires Good(g) && i < |g.fm.t.timers| && g.fm.t.timers[i].status == Armed && g.fm.t.timers[i].due <= g.fm.t.now
    ensures Enabled(g, Forward(FP.Fire(i)))
    ensures Good(Apply(g, Forward(FP.Fire(i)))) && Apply(g, Forward(FP.Fire(i))).fm == FP.Apply(g.fm, FP.Fire(i))
  {
    FireStep(g.fm, i);
    StepKeepsGood(g, Forward(FP.Fire(i)));
  }

  /** The address is tracked and nobody is connected to it. */
  predicate Idle(t: Tables, vip: Addr)
    requires InRange(t)
  {
    vip in t.vipStates && t.states[t.vipStates[vip]].activeConns <= 0
  }

  /** Timer `i` belongs to the address, carries its current generation, and can still run. */
  predicate IsCurrent(t: Tables, vip: Addr, i: nat)
    requires InRange(t)
  {
    && vip in t.vipStates && i < |t.timers| && t.timers[i].vip == vip
    && t.timers[i].gen == t.states[t.vipStates[vip]].generation
    && (t.timers[i].status == Armed || t.timers[i].status == Fired)
  }

  lemma PendingCallback(s: FP.State, vip: Addr) returns (i: nat)
    requires FP.Inv(s) && s.expiring.None? && Idle(s.t, vip)
    ensures IsCurrent(s.t, vip, i) && (s.t.timers[i].status != Armed ==> Expires(s, i))
  {
    var sid := s.t.vipStates[vip];
    assert FP.Pending(s.t, sid) && FP.PointerOk(s.t, sid);
    i := s.t.states[sid].timer.value;
    assert FP.TimerOk(s.t, i);
  }

  /** Once it is due and fires, the callback of an idle address passes its check. */
  lemma FiredExpires(s: FP.State, later: FP.State, vip: Addr, i: nat)
    requires FP.Inv(s) && Idle(s.t, vip) && IsCurrent(s.t, vip, i) && s.t.timers[i].status == Armed
    requires later == s.(t := s.t.(now := later.t.now)) && FP.Inv(later) && s.t.timers[i].due <= later.t.now
    ensures FP.Enabled(later, FP.Fire(i))
    ensures var s' := FP.Apply(later, FP.Fire(i)); InRange(s'.t) && Expires(s', i) && s'.t.timers[i].vip == vip
  {
    FireStep(later, i);
  }

  lemma ArmedExpires(u: Setup, steps: seq<Step>, g: State, vip: Addr, i: nat) returns (more: seq<Step>, g': State)
    requires ReachedBy(u, steps, g) && Good(g) && Patient(steps, steps)
    requires Idle(g.fm.t, vip) && IsCurrent(g.fm.t, vip, i) && g.fm.t.timers[i].status == Armed
    ensures ReachedBy(u, more, g') && Patient(steps, more)
    ensures Good(g') && Expires(g'.fm, i) && g'.fm.t.timers[i].vip == vip
  {
    var waited, h := WaitUntil(u, steps, steps, g, g.fm.t.timers[i].due);
    FireKeeps(h, i);
    FiredExpires(g.fm, h.fm, vip, i);
    PatientStep(steps, waited, Forward(FP.Fire(i)));
    more := Extend(u, waited, h, Forward(FP.Fire(i)));
    g' := Apply(h, Forward(FP.Fire(i)));
  }

  /** No idle address is beyond expiry: from every reachable state, letting time pass and its timer
      fire is enough to bring a tracked address without connections to its teardown. */
  lemma IdleAddressExpires(u: Setup, steps: seq<Step>, g: State, vip: Addr) returns (more: seq<Step>, g': State, i: nat)
    requires ReachedBy(u, steps, g) && Good(g) && Idle(g.fm.t, vip)
    ensures ReachedBy(u, more, g') && Patient(steps, more)
    ensures Good(g') && Expires(g'.fm, i) && g'.fm.t.timers[i].vip == vip
  {
    i := PendingCallback(g.fm, vip);
    PatientAlready(steps);
    more, g' := steps, g;
    if g.fm.t.timers[i].status == Armed {
      more, g' := ArmedExpires(u, steps, g, vip, i);
    }
  }

  /** And the teardown leaves nothing of it: no listener, no state, no allocation. */
  lemma ExpiredIsGone(g: State, i: nat)
    requires Good(g) && Expires(g.fm, i) && Enabled(g, ExpireNow(i))
    ensures var g', vip := Apply(g, ExpireNow(i)), g.fm.t.timers[i].vip;
      && vip !in g'.fm.t.vipStates && vip !in g'.a.byAddr && vip !in g'.a.byKey.Values
      && forall k :: k in g'.fm.t.entries ==> k.vip != vip
  {
    StepKeepsGood(g, ExpireNow(i));
    GoneFrom(ProxyOf(CheckStep(g, i)), g.fm.t.timers[i].vip);
  }

  lemma GoneFrom(p: Proxy, vip: Addr)
    requires Linked(p) && vip in p.t.vipStates
    ensures var p' := Expire(p, vip);
      && vip !in p'.t.vipStates && vip !in p'.a.byAddr && vip !in p'.a.byKey.Values
      && forall k :: k in p'.t.entries ==> k.vip != vip
  {
    TearDownClears(p, vip);
    ReleaseKeeps(p.a, vip);
  }

  // ---------------------------------------------------------------- a first resolution

  const SETUP := Setup(0, 24, Settings(1, true))
  const ANSWERED := Env(Some([80]), _ => Added, (_, _) => true, "c")

  function FirstKey(q: Query): ForwardKey {
    ForwardKey(OrCurrent(q.ctx, "c"), 1, 80)
  }

  /** The first address is held for the query and tracked, with one listener. */
  ghost predicate FirstHeld(p: Proxy, q: Query)
    requires InRange(p.t)
  {
    p.a.byKey == map[ServiceKey(q) := 1] && p.t.entries == map[FirstKey(q) := 0] && Idle(p.t, 1)
  }

  /** Resolving a service with one port in a new proxy tracks its first address. */
  lemma FirstResolution(q: Query) returns (steps: seq<Step>, g: State)
    ensures ReachedBy(SETUP, steps, g) && Good(g) && FirstHeld(ProxyOf(g), q)
  {
    InitGood(SETUP);
    g := Init(SETUP);
    steps := [];
    assert ReachedBy(SETUP, steps, g);
    steps := Extend(SETUP, steps, g, ResolveName(q, ANSWERED));
    FirstTables(q);
    StepKeepsGood(g, ResolveName(q, ANSWERED));
    g := Apply(g, ResolveName(q, ANSWERED));
  }

  lemma FirstAddress(key: string)
    ensures var a := Init(SETUP).a; Bounded(a)
    ensures var (a, r) := Allocate(Init(SETUP).a, key, ANSWERED.add); r == Some(1) && a.byKey == map[key := 1]
  {
    assert Pow2(8) == 256;
    assert Init(SETUP).a.next == 1 && Init(SETUP).a.max == 255;
  }

  lemma FirstListener(key: ForwardKey)
    requires key.vip == 1
    ensures var t := StartAlone(Empty(SETUP.settings), key, true).0; InRange(t) && Idle(t, 1) && t.entries == map[key := 0]
  {
    var t1 := AddEntry(Bind(Empty(SETUP.settings), key), key, 0);
    assert t1.vipStates == map[1 := 0] && t1.states == [VipState(None, 0, 0, [key])];
  }

  lemma StartSingle(t: Tables, ctx: string, vip: Addr, port: int, listen: (Addr, int) -> bool)
    requires InRange(t) && listen(vip, port)
    ensures StartAll(t, ctx, vip, [port], listen) == StartAlone(t, ForwardKey(ctx, vip, port), true)
  {
    var ports := [port];
    assert ports[1..] == [];
    var (t1, ok) := StartAlone(t, ForwardKey(ctx, vip, port), true);
    assert StartAll(t1, ctx, vip, ports[1..], listen) == (t1, true);
  }

  lemma FirstTables(q: Query)
    ensures var p := ProxyOf(Init(SETUP)); Bounded(p.a) && InRange(p.t)
    ensures FirstHeld(ResolveForContext(ProxyOf(Init(SETUP)), q, ANSWERED).0, q)
  {
    FirstAddress(ServiceKey(q));
    FirstListener(FirstKey(q));
    StartSingle(Empty(SETUP.settings), OrCurrent(q.ctx, "c"), 1, 80, ANSWERED.listen);
  }

  // ---------------------------------------------------------------- contexts that read the same

  const POD := Query("a", "n", "s", "p")
  const SERVICE := Query("a/n", "s", "p", "")

  /** Once pod "p" of service "s" in namespace "n" of context "a" has an address, asking for service
      "p" in namespace "s" of context "a/n" is answered with it, although only "a" listens there. */
  lemma ShadowedAnswer() returns (steps: seq<Step>, g: State)
    ensures ReachedBy(SETUP, steps, g) && Good(g) && Shadows(SERVICE, POD)
    ensures var (p, r) := ResolveForContext(ProxyOf(g), SERVICE, ANSWERED);
      r == Some(ContextVip("a/n", 1, [80])) && p.t.entries.Keys == {ForwardKey("a", 1, 80)}
  {
    steps, g := FirstResolution(POD);
    SameKey();
    ShadowHit(ProxyOf(g));
  }

  lemma ShadowHit(p: Proxy)
    requires Bounded(p.a) && InRange(p.t) && FirstHeld(p, POD)
    ensures var (p', r) := ResolveForContext(p, SERVICE, ANSWERED);
      r == Some(ContextVip("a/n", 1, [80])) && p'.t.entries.Keys == {ForwardKey("a", 1, 80)}
  {
    SameKey();
    FS.TouchFrame(p.t, 1);
  }

  lemma SameKey()
    ensures Shadows(SERVICE, POD) && ServiceKey(SERVICE) == ServiceKey(POD)
  {
    KeysCollideIff(SERVICE, POD);
  }

  // ---------------------------------------------------------------- a run that expires

  /** So there are runs in which an address is resolved, served and torn down. */
  lemma SomeRunExpires() returns (steps: seq<Step>, g: State, i: nat)
    ensures ReachedBy(SETUP, steps, g) && Good(g) && Expires(g.fm, i) && g.fm.t.timers[i].vip == 1
  {
    var first, f := FirstResolution(POD);
    steps, g, i := IdleAddressExpires(SETUP, first, f, 1);
  }
}
