/** Every step of the pool seen from what it acts on, and the dials seen from what they asked for. */
module PoolEffects {
  import opened Wrappers
  import opened SpdyPool
  import opened PoolProtocol
  import opened PoolSafety
  import opened PoolRuns

  /** The live connection pooled for a key, if there is one. */
  function Live(p: Pool, key: SpdyKey): Option<nat>
    requires InRange(p)
  {
    if key in p.pool && !p.conns[p.pool[key]].gone then Some(p.pool[key]) else None
  }

  // ---------------------------------------------------------------- causes

  /** The step closes connection `e`, or finds that its peer has. */
  predicate GoneBy(s: State, step: Step, e: nat)
    requires Enabled(s, step) && e < |s.p.conns|
  {
    match step
    case PeerCloses(x) => x == e
    case CloseRetried(th) => s.threads[th].e == e
    case CloseLast(th) => s.threads[th].e == e
    case StopContext(ctx) => Pooled(s.p, e) && s.p.conns[e].key.contextName == ctx
    case StopAll => Pooled(s.p, e)
    case _ => false
  }

  /** The step takes connection `e` out of the pool if it is there: a dial that finds it gone, a retry,
      the last reference, or a shutdown. */
  predicate LeavesBy(s: State, step: Step, e: nat)
    requires Enabled(s, step) && e < |s.p.conns|
  {
    match step
    case AcquireEntry(th, _) => s.threads[th].key == s.p.conns[e].key && s.p.conns[e].gone
    case EvictEntry(th) => s.threads[th].e == e
    case DecideEvict(th) => s.threads[th].e == e && s.p.conns[e].refs == 0
    case StopContext(ctx) => s.p.conns[e].key.contextName == ctx
    case StopAll => true
    case _ => false
  }

  // ---------------------------------------------------------------- connections

  /** A connection keeps its key for good and becomes gone exactly by one of the causes. */
  lemma GoneFate(s: State, step: Step, e: nat)
    requires Inv(s) && Enabled(s, step) && e < |s.p.conns|
    ensures var p' := Apply(s, step).p;
      && e < |p'.conns| && p'.conns[e].key == s.p.conns[e].key
      && (p'.conns[e].gone <==> s.p.conns[e].gone || GoneBy(s, step, e))
  {
  }

  /** Its count goes up when a dial shares it while it is pooled and live, down when a stream on it is
      closed, and changes by nothing else. */
  lemma RefsFate(s: State, step: Step, e: nat)
    requires Inv(s) && Enabled(s, step) && e < |s.p.conns|
    ensures var p' := Apply(s, step).p;
      e < |p'.conns| && p'.conns[e].refs == s.p.conns[e].refs
        + (if step.AcquireEntry? && Live(s.p, s.threads[step.th].key) == Some(e) then 1 else 0)
        - (if step.DropReference? && s.threads[step.th].e == e then 1 else 0)
  {
  }

  /** It is pooled after a step exactly when it was and did not leave. */
  lemma PooledFate(s: State, step: Step, e: nat)
    requires Inv(s) && Enabled(s, step) && e < |s.p.conns|
    ensures var p' := Apply(s, step).p; e < |p'.conns| && (Pooled(p', e) <==> Pooled(s.p, e) && !LeavesBy(s, step, e))
  {
    assert ConnOk(s, e);
  }

  /** The only new connection is one that a dial opens because no live one is pooled for its key; it is
      pooled for that key with one reference. */
  lemma NewConnection(s: State, step: Step)
    requires Inv(s) && Enabled(s, step)
    ensures var p', e := Apply(s, step).p, |s.p.conns|;
      if step.AcquireEntry? && step.dialOk && Live(s.p, s.threads[step.th].key).None?
      then var key := s.threads[step.th].key;
           |p'.conns| == e + 1 && p'.conns[e] == Conn(key, 1, false, 0, None, 0) && key in p'.pool && p'.pool[key] == e
      else |p'.conns| == e
  {
  }

  // ---------------------------------------------------------------- dials

  /** Where the thread that takes a step goes. */
  function ThreadAfter(s: State, step: Step): Pc
    requires InRange(s.p) && Enabled(s, step) && !step.BeginDial? && !step.PeerCloses? && !step.StopContext? && !step.StopAll?
    requires step.DropReference? || step.DecideEvict? || step.CloseRetried? ==> s.threads[step.th].e < |s.p.conns|
  {
    var pc := s.threads[step.th];
    match step
    case AcquireEntry(_, ok) =>
      var live := Live(s.p, pc.key);
      if live.Some? then Holding(live.value, pc.retried) else if ok then Holding(|s.p.conns|, pc.retried) else Done
    case CreateStreams(_, ok) => if ok then Open(pc.e) else if pc.retried then Releasing(pc.e) else Evicting(pc.e)
    case EvictEntry(_) => ClosingRetried(pc.e)
    case CloseRetried(_) => Waiting(s.p.conns[pc.e].key, true)
    case CloseStream(_) => Releasing(pc.e)
    case DropReference(_) => if s.p.conns[pc.e].refs == 1 then Deciding(pc.e) else Done
    case DecideEvict(_) =>
      if s.p.conns[pc.e].key in s.p.pool && s.p.pool[s.p.conns[pc.e].key] == pc.e && s.p.conns[pc.e].refs == 0 then ClosingLast(pc.e) else Done
    case CloseLast(_) => Done
  }

  /** A step moves the one thread that takes it. A dial whose key has a live pooled connection gets
      exactly that one. */
  lemma ThreadFate(s: State, step: Step)
    requires Inv(s) && Enabled(s, step)
    ensures Apply(s, step).threads ==
      if step.BeginDial? then s.threads + [Waiting(step.key, false)]
      else if step.PeerCloses? || step.StopContext? || step.StopAll? then s.threads
      else s.threads[step.th := ThreadAfter(s, step)]
  {
  }

  /** The keys of the dials begun in a run, in order. */
  function DialledFor(steps: seq<Step>): seq<SpdyKey> {
    if steps == [] then []
    else
      var n := |steps| - 1;
      DialledFor(steps[..n]) + if steps[n].BeginDial? then [steps[n].key] else []
  }

  /** Dial `th` asked for `key` and still does, or has to do with a connection made for that key. */
  ghost predicate ThreadOwnKey(s: State, th: nat, key: SpdyKey)
    requires th < |s.threads|
  {
    var pc := s.threads[th];
    && (pc.Waiting? ==> pc.key == key)
    && (!pc.Waiting? && !pc.Done? ==> pc.e < |s.p.conns| && s.p.conns[pc.e].key == key)
  }

  ghost predicate OwnKeys(s: State, keys: seq<SpdyKey>) {
    |keys| == |s.threads| && forall th :: 0 <= th < |keys| ==> ThreadOwnKey(s, th, keys[th])
  }

  lemma KeysStay(s: State, step: Step)
    requires Inv(s) && Enabled(s, step)
    ensures var p' := Apply(s, step).p;
      |s.p.conns| <= |p'.conns| && forall e :: 0 <= e < |s.p.conns| ==> p'.conns[e].key == s.p.conns[e].key
  {
    NewConnection(s, step);
    forall e | 0 <= e < |s.p.conns| ensures Apply(s, step).p.conns[e].key == s.p.conns[e].key {
      GoneFate(s, step, e);
    }
  }

  lemma OwnKeysStep(s: State, step: Step, keys: seq<SpdyKey>)
    requires Inv(s) && Enabled(s, step) && OwnKeys(s, keys)
    ensures OwnKeys(Apply(s, step), keys + if step.BeginDial? then [step.key] else [])
  {
    KeysStay(s, step);
    NewConnection(s, step);
    ThreadFate(s, step);
    var s', keys' := Apply(s, step), keys + if step.BeginDial? then [step.key] else [];
    forall th | 0 <= th < |keys'| ensures ThreadOwnKey(s', th, keys'[th]) {
      assert th < |keys| ==> ThreadOwnKey(s, th, keys[th]);
    }
  }

  /** In every run, whatever connection a dial or stream has to do with was made for the key it dialled. */
  lemma {:induction false} HoldsOwnKey(steps: seq<Step>)
    requires IsRun(steps)
    ensures OwnKeys(After(steps), DialledFor(steps))
    decreases |steps|
  {
    if steps != [] {
      var n := |steps| - 1;
      HoldsOwnKey(steps[..n]);
      OwnKeysStep(After(steps[..n]), steps[n], DialledFor(steps[..n]));
    }
  }

  /** In every run, a dial whose key has a live pooled connection holds exactly that one next; it
      creates none and closes none. */
  lemma DialSharesLive(steps: seq<Step>, th: nat, ok: bool)
    requires IsRun(steps) && Enabled(After(steps), AcquireEntry(th, ok))
    ensures th < |DialledFor(steps)|
    ensures var s := After(steps); var s' := Apply(s, AcquireEntry(th, ok)); var live := Live(s.p, DialledFor(steps)[th]);
      live.Some? ==>
        && s'.threads[th].Holding? && s'.threads[th].e == live.value && |s'.p.conns| == |s.p.conns| && s'.p.pool == s.p.pool
        && forall e :: 0 <= e < |s.p.conns| ==> s'.p.conns[e].gone == s.p.conns[e].gone
  {
    HoldsOwnKey(steps);
    var s := After(steps);
    assert ThreadOwnKey(s, th, DialledFor(steps)[th]);
    ThreadFate(s, AcquireEntry(th, ok));
  }

  /** In every run, a connection somebody holds becomes gone only by its peer, by a retry that gave it
      up, or by a shutdown. */
  lemma HeldGoneOnlyBy(steps: seq<Step>, step: Step, e: nat)
    requires IsRun(steps) && Enabled(After(steps), step) && e < |After(steps).p.conns|
    requires !After(steps).p.conns[e].gone && Holders(After(steps).threads, e) != {}
    requires e < |Apply(After(steps), step).p.conns| && Apply(After(steps), step).p.conns[e].gone
    ensures GoneBy(After(steps), step, e) && (step.PeerCloses? || step.CloseRetried? || step.StopContext? || step.StopAll?)
  {
    var s := After(steps);
    GoneFate(s, step, e);
    if step.CloseLast? {
      CloserAlone(s, step.th);
    }
  }

  /** Who closes the last reference closes what nobody holds. */
  lemma CloserAlone(s: State, th: nat)
    requires Inv(s) && th < |s.threads| && s.threads[th].ClosingLast?
    ensures Holders(s.threads, s.threads[th].e) == {}
  {
    assert ConnOk(s, s.threads[th].e) && th in Closers(s.threads, s.threads[th].e);
  }

  /** A shutdown leaves no pooled connection, and every one that was pooled is gone. */
  lemma ShutdownEmptiesPool(steps: seq<Step>)
    requires IsRun(steps)
    ensures var s := After(steps); var p' := Apply(s, StopAll).p;
      && p'.pool == map[] && |p'.conns| == |s.p.conns|
      && forall e: nat :: e < |s.p.conns| && Pooled(s.p, e) ==> p'.conns[e].gone
  {
    var s := After(steps);
    forall e: nat | e < |s.p.conns| && Pooled(s.p, e) ensures Apply(s, StopAll).p.conns[e].gone {
      GoneFate(s, StopAll, e);
    }
  }
}
