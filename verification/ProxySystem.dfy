/** The whole proxy as a machine. Resolving a name, and tearing an address down together with its
    release, are each one step; time, timers and connection handlers keep their own steps. */
module ProxySystem {
  import opened Wrappers
  import opened ServiceKeys
  import opened Allocator
  import opened ForwardState
  import opened Resolution
  import FP = ForwardProtocol
  import FS = ForwardSafety
  import FR = ForwardRuns
  import FL = ForwardLeftover

  /** The query an address was issued for, and the context its listeners were started for. */
  datatype Issue = Issue(q: Query, serves: string)

  /** The last two fields are history: the run of the forward manager so far, and what each address
      was issued for. */
  datatype State = State(a: Alloc, fm: FP.State, trace: seq<FP.Step>, issues: map<Addr, Issue>)

  /** The forward manager is where its run leads, so everything proved of its runs applies. */
  ghost predicate Traced(g: State) {
    var c := g.fm.t.settings;
    FR.IsRun(c, g.trace) && FR.After(c, g.trace) == g.fm
  }

  function ProxyOf(g: State): Proxy {
    Proxy(g.a, g.fm.t)
  }

  /** One step of the forward manager. */
  ghost function Do(g: State, step: FP.Step): (g': State)
    requires Traced(g) && FP.Enabled(g.fm, step)
    ensures Traced(g') && g'.a == g.a && g'.fm == FP.Apply(g.fm, step) && g'.issues == g.issues
  {
    FR.Snoc(g.fm.t.settings, g.trace, step);
    FR.StepEvolves(g.fm, step);
    g.(fm := FP.Apply(g.fm, step), trace := g.trace + [step])
  }

  /** One `StartForward` call from start to end. */
  ghost function StartOne(g: State, key: ForwardKey, listenOk: bool): (g': State)
    requires Traced(g) && g.fm.expiring.None?
    ensures Traced(g') && g'.a == g.a && g'.issues == g.issues && g'.fm.expiring.None?
    ensures g'.fm.t == StartAlone(g.fm.t, key, listenOk).0
  {
    var g1 := Do(g, FP.StartCheck(key));
    if key in g.fm.t.entries then g1
    else
      var call := |g.fm.starts|;
      var g2 := Do(g1, FP.BindListener(call, listenOk));
      if !listenOk then g2 else Do(g2, FP.StartRecheck(call))
  }

  ghost function StartEach(g: State, ctx: string, vip: Addr, ports: seq<int>, listen: (Addr, int) -> bool): (g': State)
    requires Traced(g) && g.fm.expiring.None?
    ensures Traced(g') && g'.a == g.a && g'.issues == g.issues && g'.fm.expiring.None?
    ensures g'.fm.t == StartAll(g.fm.t, ctx, vip, ports, listen).0
    decreases |ports|
  {
    if ports == [] then g
    else
      var key := ForwardKey(ctx, vip, ports[0]);
      var g1 := StartOne(g, key, listen(vip, ports[0]));
      if StartAlone(g.fm.t, key, listen(vip, ports[0])).1 then StartEach(g1, ctx, vip, ports[1..], listen) else g1
  }

  /** A resolution records what it allocates an address for. */
  function IssuesAfter(g: State, q: Query, env: Env): map<Addr, Issue>
    requires Bounded(g.a)
  {
    if ServiceKey(q) in g.a.byKey || env.ports.None? then g.issues
    else
      var r := Allocate(g.a, ServiceKey(q), env.add).1;
      if r.None? then g.issues else g.issues[r.value := Issue(q, OrCurrent(q.ctx, env.current))]
  }

  /** A whole resolution: exactly what the sequential function computes, as steps of the machine. */
  ghost function Resolve(g: State, q: Query, env: Env): (g': State)
    requires Traced(g) && g.fm.expiring.None? && Bounded(g.a)
    ensures Traced(g') && g'.fm.expiring.None?
    ensures ProxyOf(g') == ResolveForContext(ProxyOf(g), q, env).0 && g'.issues == IssuesAfter(g, q, env)
  {
    var key := ServiceKey(q);
    if key in g.a.byKey then Do(g, FP.TouchVip(g.a.byKey[key]))
    else if env.ports.None? then g
    else
      var (a, r) := Allocate(g.a, key, env.add);
      var g1 := g.(a := a, issues := IssuesAfter(g, q, env));
      if r.None? then g1 else StartEach(g1, OrCurrent(q.ctx, env.current), r.value, env.ports.value, env.listen)
  }

  datatype Step =
    | ResolveName(q: Query, env: Env)
    | Forward(step: FP.Step)
    | ExpireNow(timer: nat)
    | StopContext(ctx: string)
    | StopEverything

  /** The forward manager's own steps that stay separate: the clock, timers, connection handlers,
      touches, and callbacks that find themselves stale. */
  predicate Separate(s: FP.State, step: FP.Step)
    requires InRange(s.t) && FP.Enabled(s, step)
  {
    step.Tick? || step.Fire? || step.TouchVip? || step.Accept? || step.AcceptError? || step.FetchState?
    || step.RegisterConn? || step.DeregisterConn?
    || (step.ExpireCheck? && !PassesCheck(s.t, s.t.timers[step.timer].vip, s.t.timers[step.timer].gen))
  }

  /** The callback has started and will pass its check. */
  predicate Expires(s: FP.State, i: nat)
    requires InRange(s.t)
  {
    i < |s.t.timers| && s.t.timers[i].status == Fired && PassesCheck(s.t, s.t.timers[i].vip, s.t.timers[i].gen)
  }

  ghost predicate Enabled(g: State, step: Step) {
    && Traced(g)
    && match step
       case ResolveName(_, _) => true
       case Forward(st) => FP.Enabled(g.fm, st) && Separate(g.fm, st)
       case ExpireNow(i) => Expires(g.fm, i)
       case StopContext(_) => true
       case StopEverything => true
  }

  /** A callback passes its check and holds the lock. */
  ghost function CheckStep(g: State, i: nat): (g': State)
    requires Traced(g) && g.fm.expiring.None? && Expires(g.fm, i)
    ensures Traced(g') && g'.fm.expiring == Some(g.fm.t.timers[i].vip)
    ensures ProxyOf(g') == Proxy(g.a, FP.SetStatus(g.fm.t, i, Ran)) && g'.issues == g.issues
    ensures InRange(g'.fm.t) && g.fm.t.timers[i].vip in g'.fm.t.vipStates
  {
    Do(g, FP.ExpireCheck(i))
  }

  /** It deletes the address it holds the lock for. */
  ghost function DeleteStep(g: State): (g': State)
    requires Traced(g) && g.fm.expiring.Some?
    ensures Traced(g') && g'.a == g.a && g'.issues == g.issues && g'.fm.expiring.None?
    ensures g.fm.expiring.value in g.fm.t.vipStates && g'.fm.t == TearDown(g.fm.t, g.fm.expiring.value)
  {
    Do(g, FP.ExpireDelete)
  }

  /** Check, delete and release. */
  ghost function ExpireStep(g: State, i: nat): (g': State)
    requires Traced(g) && g.fm.expiring.None? && Expires(g.fm, i)
    ensures Traced(g') && g'.fm.expiring.None?
    ensures ProxyOf(g') == Expire(ProxyOf(CheckStep(g, i)), g.fm.t.timers[i].vip) && g'.issues == g.issues
  {
    DeleteStep(CheckStep(g, i)).(a := Release(g.a, g.fm.t.timers[i].vip))
  }

  ghost function StopContextStep(g: State, ctx: string): (g': State)
    requires Traced(g) && g.fm.expiring.None?
    ensures Traced(g') && g'.fm.expiring.None? && ProxyOf(g') == StopOneContext(ProxyOf(g), ctx) && g'.issues == g.issues
  {
    Do(g, FP.StopContext(ctx)).(a := StopOneContext(ProxyOf(g), ctx).a)
  }

  ghost function StopAllStep(g: State): (g': State)
    requires Traced(g) && g.fm.expiring.None?
    ensures Traced(g') && g'.fm.expiring.None? && ProxyOf(g') == ProxyOf(g).(t := Shutdown(g.fm.t)) && g'.issues == g.issues
  {
    Do(g, FP.StopAll)
  }

  /** Every held address is held under the key of the query it was issued for, and is listened on
      only for the context it was issued for. */
  ghost predicate Issued(p: Proxy, issues: map<Addr, Issue>) {
    && (forall ip :: ip in p.a.byAddr ==> ip in issues && p.a.byAddr[ip] == ServiceKey(issues[ip].q))
    && (forall k :: k in p.t.entries ==> k.vip in issues && issues[k.vip].serves == k.contextName)
    && (forall ip :: ip in issues && issues[ip].q.ctx != "" ==> issues[ip].serves == issues[ip].q.ctx)
  }

  ghost predicate Good(g: State) {
    Traced(g) && g.fm.expiring.None? && Linked(ProxyOf(g)) && Issued(ProxyOf(g), g.issues)
  }

  ghost function Apply(g: State, step: Step): State
    requires Good(g) && Enabled(g, step)
  {
    match step
    case ResolveName(q, env) => Resolve(g, q, env)
    case Forward(st) => Do(g, st)
    case ExpireNow(i) => ExpireStep(g, i)
    case StopContext(ctx) => StopContextStep(g, ctx)
    case StopEverything => StopAllStep(g)
  }

  // ---------------------------------------------------------------- every step keeps the link

  lemma SeparateKeepsKeys(s: FP.State, step: FP.Step)
    requires FP.Inv(s) && s.expiring.None? && FP.Enabled(s, step) && Separate(s, step)
    ensures var s' := FP.Apply(s, step);
      && s'.expiring.None? && s'.t.entries == s.t.entries && s'.t.vipStates == s.t.vipStates && s'.t.settings == s.t.settings
      && |s'.t.states| == |s.t.states| && forall i :: 0 <= i < |s.t.states| ==> s'.t.states[i].forwardKeys == s.t.states[i].forwardKeys
  {
    if step.TouchVip? {
      FS.TouchFrame(s.t, step.vip);
      TouchKeepsKeys(s.t, step.vip);
    }
  }

  lemma SeparateLinked(g: State, st: FP.Step)
    requires Good(g) && Enabled(g, Forward(st))
    ensures Linked(ProxyOf(Apply(g, Forward(st))))
  {
    SeparateKeepsKeys(g.fm, st);
    FS.StepKeepsInv(g.fm, st);
    LinkFrame(ProxyOf(g), FP.Apply(g.fm, st).t);
  }

  /** That a callback has run is nothing the link speaks of. */
  lemma CheckLinked(p: Proxy, i: nat)
    requires Linked(p) && i < |p.t.timers|
    ensures Linked(p.(t := FP.SetStatus(p.t, i, Ran)))
  {
    LinkFrame(p, FP.SetStatus(p.t, i, Ran));
  }

  lemma ExpireGood(g: State, i: nat)
    requires Good(g) && Enabled(g, ExpireNow(i))
    ensures Linked(ProxyOf(Apply(g, ExpireNow(i))))
  {
    CheckLinked(ProxyOf(g), i);
    ExpireLinked(ProxyOf(CheckStep(g, i)), g.fm.t.timers[i].vip);
  }

  lemma StepKeepsLinked(g: State, step: Step)
    requires Good(g) && Enabled(g, step)
    ensures Linked(ProxyOf(Apply(g, step)))
  {
    if step.ResolveName? {
      ResolveLinked(ProxyOf(g), step.q, step.env);
    } else if step.Forward? {
      SeparateLinked(g, step.step);
    } else if step.ExpireNow? {
      ExpireGood(g, step.timer);
    } else if step.StopContext? {
      StopContextLinked(ProxyOf(g), step.ctx);
    } else {
      StopAllLinked(ProxyOf(g));
    }
  }

  // ---------------------------------------------------------------- every step keeps the record

  /** No address and no entry is added. */
  ghost predicate Shrinks(p: Proxy, p': Proxy) {
    && (forall ip :: ip in p'.a.byAddr ==> ip in p.a.byAddr && p'.a.byAddr[ip] == p.a.byAddr[ip])
    && (forall k :: k in p'.t.entries ==> k in p.t.entries)
  }

  lemma {:induction false} StartAllEntries(t: Tables, ctx: string, vip: Addr, ports: seq<int>, listen: (Addr, int) -> bool)
    requires InRange(t)
    ensures forall k :: k in StartAll(t, ctx, vip, ports, listen).0.entries ==> k in t.entries || (k.vip == vip && k.contextName == ctx)
    decreases |ports|
  {
    if ports != [] {
      var key := ForwardKey(ctx, vip, ports[0]);
      var (t1, ok) := StartAlone(t, key, listen(vip, ports[0]));
      assert forall k :: k in t1.entries ==> k in t.entries || k == key;
      if ok {
        StartAllEntries(t1, ctx, vip, ports[1..], listen);
      }
    }
  }

  lemma FreshIssued(p: Proxy, issues: map<Addr, Issue>, q: Query, env: Env)
    requires Linked(p) && Issued(p, issues) && ServiceKey(q) !in p.a.byKey && env.ports.Some?
    requires Allocate(p.a, ServiceKey(q), env.add).1.Some?
    ensures var vip := Allocate(p.a, ServiceKey(q), env.add).1.value;
      Issued(ResolveForContext(p, q, env).0, issues[vip := Issue(q, OrCurrent(q.ctx, env.current))])
  {
    AllocateFromKeeps(p.a, ServiceKey(q), env.add);
    var vip := Allocate(p.a, ServiceKey(q), env.add).1.value;
    StartAllEntries(p.t, OrCurrent(q.ctx, env.current), vip, env.ports.value, env.listen);
    forall k | k in p.t.entries ensures k.vip != vip {
      assert EntryLinked(p, k);
    }
    IssuedExtends(p, ResolveForContext(p, q, env).0, issues, vip, Issue(q, OrCurrent(q.ctx, env.current)));
  }

  /** One more address, with listeners only for the context it is issued for. */
  lemma IssuedExtends(p: Proxy, p': Proxy, issues: map<Addr, Issue>, vip: Addr, issue: Issue)
    requires Issued(p, issues) && p'.a.byAddr == p.a.byAddr[vip := ServiceKey(issue.q)]
    requires forall k :: k in p'.t.entries ==> if k.vip == vip then k.contextName == issue.serves else k in p.t.entries
    requires issue.q.ctx != "" ==> issue.serves == issue.q.ctx
    ensures Issued(p', issues[vip := issue])
  {
  }

  lemma ResolveIssued(g: State, q: Query, env: Env)
    requires Good(g)
    ensures Issued(ResolveForContext(ProxyOf(g), q, env).0, IssuesAfter(g, q, env))
  {
    if ServiceKey(q) in g.a.byKey {
      FS.TouchFrame(g.fm.t, g.a.byKey[ServiceKey(q)]);
    } else if env.ports.Some? {
      if Allocate(g.a, ServiceKey(q), env.add).1.Some? {
        FreshIssued(ProxyOf(g), g.issues, q, env);
      } else {
        AllocateFromKeeps(g.a, ServiceKey(q), env.add);
      }
    }
  }

  lemma OthersShrink(g: State, step: Step)
    requires Good(g) && Enabled(g, step) && !step.ResolveName?
    ensures Shrinks(ProxyOf(g), ProxyOf(Apply(g, step))) && Apply(g, step).issues == g.issues
  {
    if step.Forward? {
      SeparateKeepsKeys(g.fm, step.step);
    }
  }

  /** Every step keeps the link between the allocator and the forward manager. */
  lemma StepKeepsGood(g: State, step: Step)
    requires Good(g) && Enabled(g, step)
    ensures Good(Apply(g, step))
  {
    StepKeepsLinked(g, step);
    if step.ResolveName? {
      ResolveIssued(g, step.q, step.env);
    } else {
      OthersShrink(g, step);
    }
    StepKeepsRest(g, step);
  }

  lemma StepKeepsRest(g: State, step: Step)
    requires Good(g) && Enabled(g, step)
    ensures Traced(Apply(g, step)) && Apply(g, step).fm.expiring.None?
  {
    if step.Forward? {
      SeparateKeepsKeys(g.fm, step.step);
    }
  }

  // ---------------------------------------------------------------- runs

  /** A proxy at start: an address block, an idle timeout, which may be off, and whether addresses are
      released. */
  datatype Setup = Setup(addr: nat, ones: nat, settings: Settings)

  predicate ValidSetup(u: Setup) {
    u.addr < UINT32 && u.ones <= 32
  }

  function Init(u: Setup): State
    requires ValidSetup(u)
  {
    State(NewAlloc(u.addr, u.ones), FP.Init(u.settings), [], map[])
  }

  lemma InitGood(u: Setup)
    requires ValidSetup(u)
    ensures Good(Init(u))
  {
    NewAllocInv(u.addr, u.ones);
  }

  ghost predicate IsRun(u: Setup, steps: seq<Step>)
    requires ValidSetup(u)
    decreases |steps|, 0
  {
    steps == [] ||
    var n := |steps| - 1;
    IsRun(u, steps[..n]) && Enabled(After(u, steps[..n]), steps[n])
  }

  ghost function After(u: Setup, steps: seq<Step>): (g: State)
    requires ValidSetup(u) && IsRun(u, steps)
    ensures Good(g)
    decreases |steps|, 1
  {
    if steps == [] then
      InitGood(u);
      Init(u)
    else
      var n := |steps| - 1;
      var g := After(u, steps[..n]);
      StepKeepsGood(g, steps[n]);
      Apply(g, steps[n])
  }

  /** In every reachable state all listeners on one address serve one context: the one the address
      was issued for. It is still held under the key of the query it was issued for, whose context it
      serves unless the query named none. */
  lemma OneContextPerAddress(u: Setup, steps: seq<Step>, j: ForwardKey, k: ForwardKey)
    requires ValidSetup(u) && IsRun(u, steps)
    requires j in After(u, steps).fm.t.entries && k in After(u, steps).fm.t.entries
    ensures j.vip == k.vip ==> j.contextName == k.contextName
    ensures var g := After(u, steps);
      && k.vip in g.a.byAddr && k.vip in g.issues
      && g.a.byAddr[k.vip] == ServiceKey(g.issues[k.vip].q) && k.contextName == g.issues[k.vip].serves
      && (g.issues[k.vip].q.ctx != "" ==> k.contextName == g.issues[k.vip].q.ctx)
  {
    var g := After(u, steps);
    assert EntryLinked(ProxyOf(g), k);
  }

  /** So when contexts have no slash, the context can be read off the key. */
  lemma ContextReadOff(u: Setup, steps: seq<Step>, k: ForwardKey)
    requires ValidSetup(u) && IsRun(u, steps) && k in After(u, steps).fm.t.entries
    requires '/' !in k.contextName
    ensures var g := After(u, steps);
      k.vip in g.a.byAddr && k.vip in g.issues && (g.issues[k.vip].q.ctx != "" ==> ContextOf(g.a.byAddr[k.vip]) == k.contextName)
  {
    OneContextPerAddress(u, steps, k, k);
    var g := After(u, steps);
    if g.issues[k.vip].q.ctx != "" {
      ContextOfKey(g.issues[k.vip].q);
    }
  }

  /** The address held for a query serves the query's own context if and only if the query it was
      issued for is not one of another context that reads the same. */
  lemma ServedByOwnContextIff(u: Setup, steps: seq<Step>, q: Query, k: ForwardKey)
    requires ValidSetup(u) && IsRun(u, steps) && k in After(u, steps).fm.t.entries
    requires Lookup(After(u, steps).a, ServiceKey(q)) == Some(k.vip)
    requires q.ctx != "" && PartsSlashFree(q)
    requires k.vip in After(u, steps).issues
    requires var owner := After(u, steps).issues[k.vip].q; owner.ctx != "" && PartsSlashFree(owner)
    ensures var owner := After(u, steps).issues[k.vip].q;
      k.contextName == q.ctx <==> !Shadows(q, owner) && !Shadows(owner, q)
  {
    OneContextPerAddress(u, steps, k, k);
    var g := After(u, steps);
    assert Inverse(g.a);
    KeysCollideIff(q, g.issues[k.vip].q);
  }

  /** In every reachable state the keys a tracked address remembers are exactly the entries on it,
      each once, and they are never none. */
  lemma KeysAreEntries(u: Setup, steps: seq<Step>, vip: Addr)
    requires ValidSetup(u) && IsRun(u, steps) && vip in After(u, steps).fm.t.vipStates
    ensures var t := After(u, steps).fm.t; var keys := t.states[t.vipStates[vip]].forwardKeys;
      && keys != []
      && (forall k :: k in keys <==> k in t.entries && k.vip == vip)
      && (forall i, j :: 0 <= i < j < |keys| ==> keys[i] != keys[j])
  {
    LinkedKeys(ProxyOf(After(u, steps)), vip);
  }

  lemma LinkedKeys(p: Proxy, vip: Addr)
    requires Linked(p) && vip in p.t.vipStates
    ensures var keys := p.t.states[p.t.vipStates[vip]].forwardKeys;
      && keys != []
      && (forall k :: k in keys <==> k in p.t.entries && k.vip == vip)
      && (forall i, j :: 0 <= i < j < |keys| ==> keys[i] != keys[j])
  {
    var st := p.t.states[p.t.vipStates[vip]];
    assert FP.KeysOk(st);
    forall k | k in p.t.entries && k.vip == vip ensures k in st.forwardKeys {
      assert EntryLinked(p, k);
    }
  }

  /** A callback left over from a removed state never tears down a later one: whatever passes the
      check is the callback of the very state it finds. */
  lemma LeftoversHarmless(u: Setup, steps: seq<Step>, i: nat)
    requires ValidSetup(u) && IsRun(u, steps) && Expires(After(u, steps).fm, i)
    ensures OwnCallback(After(u, steps).fm, i)
  {
    GoodOwnCallback(After(u, steps), i);
  }

  ghost predicate OwnCallback(s: FP.State, i: nat) {
    i < |s.t.timers| && FR.Tracks(s, s.t.timers[i].vip, s.t.timers[i].owner)
  }

  lemma GoodOwnCallback(g: State, i: nat)
    requires Good(g) && Expires(g.fm, i)
    ensures OwnCallback(g.fm, i)
  {
    FL.OwnStateOnly(g.fm, i);
  }

  /** In every run of the proxy, an address is torn down only after a full idle period in which it was
      neither touched nor connected to. */
  lemma TornDownOnlyWhenIdle(u: Setup, steps: seq<Step>, i: nat) returns (j: nat)
    requires ValidSetup(u) && IsRun(u, steps) && Expires(After(u, steps).fm, i)
    ensures FR.IdleSince(After(u, steps).fm.t.settings, After(u, steps).trace, i, j)
  {
    j := GoodIdle(After(u, steps), i);
  }

  lemma GoodIdle(g: State, i: nat) returns (j: nat)
    requires Good(g) && Expires(g.fm, i)
    ensures FR.IdleSince(g.fm.t.settings, g.trace, i, j)
  {
    GoodOwnCallback(g, i);
    j := FR.ExpiryOnlyWhenIdle(g.fm.t.settings, g.trace, i);
  }
}
