/** The pool of SPDY connections: what each locked section and each atomic operation does. A
    connection is the index of its pool entry among all entries ever created. */
module SpdyPool {
  import opened Wrappers

  datatype SpdyKey = SpdyKey(contextName: string, namespace: string, podName: string)

  /** Why an entry left the pool. */
  datatype Exit = LastReference | Retried | FoundStale | Stopped

  /** `gone` is the state of the connection's close channel. The last three fields are history:
      references given up without being returned, how the entry left the pool, and how often the
      reference count has closed the connection. */
  datatype Conn = Conn(key: SpdyKey, refs: int, gone: bool, leaked: nat, left: Option<Exit>, lastCloses: nat)

  datatype Pool = Pool(pool: map<SpdyKey, nat>, conns: seq<Conn>)

  /** Every key of the pool names an entry that was created for that key. */
  ghost predicate InRange(p: Pool) {
    forall k :: k in p.pool ==> p.pool[k] < |p.conns| && p.conns[p.pool[k]].key == k
  }

  predicate Pooled(p: Pool, e: nat)
    requires e < |p.conns|
  {
    p.conns[e].key in p.pool && p.pool[p.conns[e].key] == e
  }

  /** Removes whatever is pooled under `key`, recording why. */
  function Remove(p: Pool, key: SpdyKey, why: Exit): Pool
    requires InRange(p) && key in p.pool
  {
    var e := p.pool[key];
    p.(pool := p.pool - {key}, conns := p.conns[e := p.conns[e].(left := Some(why))])
  }

  function Dial(p: Pool, key: SpdyKey): Pool {
    Pool(p.pool[key := |p.conns|], p.conns + [Conn(key, 1, false, 0, None, 0)])
  }

  /** A live pooled connection is reused; a stale one is dropped and a new one dialled. */
  function Acquire(p: Pool, key: SpdyKey, dialOk: bool): (Pool, Option<nat>)
    requires InRange(p)
  {
    if key in p.pool && !p.conns[p.pool[key]].gone then
      var e := p.pool[key];
      (p.(conns := p.conns[e := p.conns[e].(refs := p.conns[e].refs + 1)]), Some(e))
    else
      var q := if key in p.pool then Remove(p, key, FoundStale) else p;
      if dialOk then (Dial(q, key), Some(|q.conns|)) else (q, None)
  }

  /** The retry path: evict the entry if it is still pooled; its reference is never returned. */
  function Evict(p: Pool, e: nat): Pool
    requires InRange(p) && e < |p.conns|
  {
    var q := if Pooled(p, e) then Remove(p, p.conns[e].key, Retried) else p;
    q.(conns := q.conns[e := q.conns[e].(leaked := q.conns[e].leaked + 1)])
  }

  function CloseConn(p: Pool, e: nat, last: bool): Pool
    requires e < |p.conns|
  {
    p.(conns := p.conns[e := p.conns[e].(gone := true, lastCloses := p.conns[e].lastCloses + if last then 1 else 0)])
  }

  function Decrement(p: Pool, e: nat): Pool
    requires e < |p.conns|
  {
    p.(conns := p.conns[e := p.conns[e].(refs := p.conns[e].refs - 1)])
  }

  /** The locked half of the close callback: is this still the pooled entry, and unused? */
  predicate Selected(p: Pool, e: nat)
    requires e < |p.conns|
  {
    Pooled(p, e) && p.conns[e].refs == 0
  }

  /** Closes and removes every pooled entry whose key is in `ks`. */
  function StopKeys(p: Pool, ks: set<SpdyKey>): Pool
    requires InRange(p)
  {
    Pool(p.pool - ks,
         seq(|p.conns|, e requires 0 <= e < |p.conns| =>
           if Pooled(p, e) && p.conns[e].key in ks then p.conns[e].(gone := true, left := Some(Stopped)) else p.conns[e]))
  }

  function KeysOfContext(p: Pool, ctx: string): set<SpdyKey> {
    set k | k in p.pool && k.contextName == ctx
  }
}

/** The pool under any interleaving of dials, stream closes and shutdowns. */
module PoolProtocol {
  import opened Wrappers
  import opened SpdyPool

  /** A dial or an open stream between two of its atomic steps. `Holding` and `Evicting` are dials
      in flight, `Open` is a stream connection not yet closed, `Releasing` is about to decrement,
      `Deciding` has decremented to zero, the two `Closing` phases are about to close. */
  datatype Pc =
    | Waiting(key: SpdyKey, retried: bool)
    | Holding(e: nat, retried: bool)
    | Evicting(e: nat)
    | ClosingRetried(e: nat)
    | Open(e: nat)
    | Releasing(e: nat)
    | Deciding(e: nat)
    | ClosingLast(e: nat)
    | Done

  datatype State = State(p: Pool, threads: seq<Pc>)

  datatype Step =
    | BeginDial(key: SpdyKey)
    | AcquireEntry(th: nat, dialOk: bool)
    | CreateStreams(th: nat, ok: bool)
    | EvictEntry(th: nat)
    | CloseRetried(th: nat)
    | CloseStream(th: nat)
    | DropReference(th: nat)
    | DecideEvict(th: nat)
    | CloseLast(th: nat)
    | PeerCloses(conn: nat)
    | StopContext(ctx: string)
    | StopAll

  function Init(): State {
    State(Pool(map[], []), [])
  }

  predicate Enabled(s: State, step: Step) {
    match step
    case BeginDial(_) => true
    case AcquireEntry(th, _) => th < |s.threads| && s.threads[th].Waiting?
    case CreateStreams(th, _) => th < |s.threads| && s.threads[th].Holding?
    case EvictEntry(th) => th < |s.threads| && s.threads[th].Evicting?
    case CloseRetried(th) => th < |s.threads| && s.threads[th].ClosingRetried?
    case CloseStream(th) => th < |s.threads| && s.threads[th].Open?
    case DropReference(th) => th < |s.threads| && s.threads[th].Releasing?
    case DecideEvict(th) => th < |s.threads| && s.threads[th].Deciding?
    case CloseLast(th) => th < |s.threads| && s.threads[th].ClosingLast?
    case PeerCloses(e) => e < |s.p.conns|
    case StopContext(_) => true
    case StopAll => true
  }

  function Apply(s: State, step: Step): State
    requires Inv(s) && Enabled(s, step)
  {
    match step
    case BeginDial(key) => s.(threads := s.threads + [Waiting(key, false)])
    case AcquireEntry(th, ok) =>
      var (p, got) := Acquire(s.p, s.threads[th].key, ok);
      State(p, s.threads[th := if got.Some? then Holding(got.value, s.threads[th].retried) else Done])
    case CreateStreams(th, ok) =>
      var e := s.threads[th].e;
      s.(threads := s.threads[th := if ok then Open(e) else if s.threads[th].retried then Releasing(e) else Evicting(e)])
    case EvictEntry(th) => State(Evict(s.p, s.threads[th].e), s.threads[th := ClosingRetried(s.threads[th].e)])
    case CloseRetried(th) =>
      var e := s.threads[th].e;
      State(CloseConn(s.p, e, false), s.threads[th := Waiting(s.p.conns[e].key, true)])
    case CloseStream(th) => s.(threads := s.threads[th := Releasing(s.threads[th].e)])
    case DropReference(th) =>
      var e := s.threads[th].e;
      State(Decrement(s.p, e), s.threads[th := if s.p.conns[e].refs - 1 == 0 then Deciding(e) else Done])
    case DecideEvict(th) =>
      var e := s.threads[th].e;
      if Selected(s.p, e) then State(Remove(s.p, s.p.conns[e].key, LastReference), s.threads[th := ClosingLast(e)])
      else s.(threads := s.threads[th := Done])
    case CloseLast(th) => State(CloseConn(s.p, s.threads[th].e, true), s.threads[th := Done])
    case PeerCloses(e) => s.(p := s.p.(conns := s.p.conns[e := s.p.conns[e].(gone := true)]))
    case StopContext(ctx) => s.(p := StopKeys(s.p, KeysOfContext(s.p, ctx)))
    case StopAll => s.(p := StopKeys(s.p, s.p.pool.Keys))
  }

  // ---------------------------------------------------------------- invariant

  predicate Holds(pc: Pc, e: nat) {
    (pc.Holding? || pc.Evicting? || pc.Open? || pc.Releasing?) && pc.e == e
  }

  function Holders(threads: seq<Pc>, e: nat): set<nat> {
    set i | 0 <= i < |threads| && Holds(threads[i], e)
  }

  function Closers(threads: seq<Pc>, e: nat): set<nat> {
    set i | 0 <= i < |threads| && threads[i] == ClosingLast(e)
  }

  /** Some thread has decremented `e` to zero and is about to decide whether to evict it. */
  predicate HasDecider(threads: seq<Pc>, e: nat) {
    exists i :: 0 <= i < |threads| && threads[i] == Deciding(e)
  }

  /** Some thread is committed to closing `e`. */
  predicate HasCloser(threads: seq<Pc>, e: nat) {
    exists i :: 0 <= i < |threads| && (threads[i] == ClosingRetried(e) || threads[i] == ClosingLast(e))
  }

  predicate Mentions(pc: Pc, e: nat) {
    !pc.Waiting? && !pc.Done? && pc.e == e
  }

  /** What is known of one connection: it is pooled exactly while it has not left; its count is its
      holders plus the references leaked by retries, of which a pooled entry has none; an unused
      pooled entry has somebody about to decide; the reference count closes it at most once, and
      only when it was the one to remove it, with no holder left; and once it has left the pool it
      is closed or somebody is committed to closing it. */
  ghost predicate ConnOk(s: State, e: nat)
    requires e < |s.p.conns|
  {
    var c := s.p.conns[e];
    && (c.left.None? <==> Pooled(s.p, e))
    && c.refs == |Holders(s.threads, e)| + c.leaked
    && (c.left.None? ==> c.leaked == 0)
    && (c.left.None? && c.refs == 0 ==> HasDecider(s.threads, e))
    && (if c.left == Some(LastReference) then c.refs == 0 && c.lastCloses + |Closers(s.threads, e)| == 1
        else c.lastCloses == 0 && Closers(s.threads, e) == {})
    && (c.left.Some? ==> c.gone || HasCloser(s.threads, e))
  }

  ghost predicate Inv(s: State) {
    && InRange(s.p)
    && (forall i :: 0 <= i < |s.threads| && !s.threads[i].Waiting? && !s.threads[i].Done? ==> s.threads[i].e < |s.p.conns|)
    && (forall i :: 0 <= i < |s.threads| && s.threads[i].ClosingRetried? ==> s.p.conns[s.threads[i].e].left.Some?)
    && (forall e :: 0 <= e < |s.p.conns| ==> ConnOk(s, e))
  }
}

/** Every step of every dial, stream and shutdown keeps the pool's invariant. */
module PoolSafety {
  import opened Wrappers
  import opened SpdyPool
  import opened PoolProtocol

  ghost predicate Shape(s: State) {
    && InRange(s.p)
    && (forall i :: 0 <= i < |s.threads| && !s.threads[i].Waiting? && !s.threads[i].Done? ==> s.threads[i].e < |s.p.conns|)
    && (forall i :: 0 <= i < |s.threads| && s.threads[i].ClosingRetried? ==> s.p.conns[s.threads[i].e].left.Some?)
  }

  lemma ShapeKept(s: State, step: Step)
    requires Inv(s) && Enabled(s, step)
    ensures Shape(Apply(s, step))
  {
    if step.AcquireEntry? {
      AcquireShape(s, step);
    } else if step.EvictEntry? || step.DecideEvict? {
      EvictShape(s, step);
    } else if step.StopContext? || step.StopAll? {
      StopShape(s, step);
    }
  }

  lemma AcquireShape(s: State, step: Step)
    requires Inv(s) && Enabled(s, step) && step.AcquireEntry?
    ensures Shape(Apply(s, step))
  {
  }

  lemma EvictShape(s: State, step: Step)
    requires Inv(s) && Enabled(s, step) && (step.EvictEntry? || step.DecideEvict?)
    ensures Shape(Apply(s, step))
  {
    assert ConnOk(s, s.threads[step.th].e);
  }

  lemma StopShape(s: State, step: Step)
    requires Inv(s) && Enabled(s, step) && (step.StopContext? || step.StopAll?)
    ensures Shape(Apply(s, step))
  {
  }

  lemma HoldersUpdate(threads: seq<Pc>, th: nat, pc: Pc, e: nat)
    requires th < |threads|
    ensures Holders(threads[th := pc], e) == if Holds(pc, e) then Holders(threads, e) + {th} else Holders(threads, e) - {th}
    ensures Closers(threads[th := pc], e) == if pc == ClosingLast(e) then Closers(threads, e) + {th} else Closers(threads, e) - {th}
    ensures th in Holders(threads, e) <==> Holds(threads[th], e)
    ensures th in Closers(threads, e) <==> threads[th] == ClosingLast(e)
    ensures (Holds(pc, e) <==> Holds(threads[th], e)) ==> Holders(threads[th := pc], e) == Holders(threads, e)
    ensures (pc == ClosingLast(e) <==> threads[th] == ClosingLast(e)) ==> Closers(threads[th := pc], e) == Closers(threads, e)
  {
  }

  lemma WitnessesUpdate(threads: seq<Pc>, th: nat, pc: Pc, e: nat)
    requires th < |threads|
    ensures HasDecider(threads, e) && threads[th] != Deciding(e) ==> HasDecider(threads[th := pc], e)
    ensures HasCloser(threads, e) && threads[th] != ClosingRetried(e) && threads[th] != ClosingLast(e) ==> HasCloser(threads[th := pc], e)
    ensures pc == Deciding(e) ==> HasDecider(threads[th := pc], e)
    ensures pc == ClosingRetried(e) || pc == ClosingLast(e) ==> HasCloser(threads[th := pc], e)
  {
    var threads' := threads[th := pc];
    assert forall i :: 0 <= i < |threads| && i != th ==> threads'[i] == threads[i];
    assert threads'[th] == pc;
  }

  /** A thread that has nothing to do with `e`, before or after, leaves `e` as it was. */
  lemma Unaffected(s: State, s': State, th: nat, e: nat)
    requires th < |s.threads| == |s'.threads| && s'.threads == s.threads[th := s'.threads[th]]
    requires !Mentions(s.threads[th], e) && !Mentions(s'.threads[th], e)
    requires e < |s.p.conns| && e < |s'.p.conns| && s'.p.conns[e] == s.p.conns[e]
    requires Pooled(s'.p, e) <==> Pooled(s.p, e)
    requires ConnOk(s, e)
    ensures ConnOk(s', e)
  {
    RolesKept(s.threads, th, s'.threads[th], e);
  }

  lemma RolesKept(threads: seq<Pc>, th: nat, pc: Pc, e: nat)
    requires th < |threads| && !Mentions(threads[th], e) && !Mentions(pc, e)
    ensures Holders(threads[th := pc], e) == Holders(threads, e) && Closers(threads[th := pc], e) == Closers(threads, e)
    ensures HasDecider(threads, e) ==> HasDecider(threads[th := pc], e)
    ensures HasCloser(threads, e) ==> HasCloser(threads[th := pc], e)
  {
    HoldersUpdate(threads, th, pc, e);
    WitnessesUpdate(threads, th, pc, e);
  }

  /** A new thread that waits or is done changes nothing. */
  lemma NewThread(s: State, pc: Pc, e: nat)
    requires e < |s.p.conns| && ConnOk(s, e) && pc.Waiting?
    ensures ConnOk(s.(threads := s.threads + [pc]), e)
  {
    var threads := s.threads + [pc];
    assert Holders(threads, e) == Holders(s.threads, e);
    assert Closers(threads, e) == Closers(s.threads, e);
    assert forall i :: 0 <= i < |s.threads| ==> threads[i] == s.threads[i];
  }

  /** The thread's own connection, when the thread neither decides nor closes. */
  lemma HolderMoves(s: State, s': State, th: nat, e: nat)
    requires th < |s.threads| == |s'.threads| && s'.threads == s.threads[th := s'.threads[th]] && s'.p == s.p
    requires Holds(s.threads[th], e) && Holds(s'.threads[th], e)
    requires e < |s.p.conns| && ConnOk(s, e)
    ensures ConnOk(s', e)
  {
    HoldersUpdate(s.threads, th, s'.threads[th], e);
    WitnessesUpdate(s.threads, th, s'.threads[th], e);
  }

  lemma ReuseKeeps(s: State, th: nat, e: nat)
    requires Inv(s) && th < |s.threads| && s.threads[th].Waiting?
    requires s.threads[th].key in s.p.pool && s.p.pool[s.threads[th].key] == e && !s.p.conns[e].gone
    ensures ConnOk(Apply(s, AcquireEntry(th, true)), e) && ConnOk(Apply(s, AcquireEntry(th, false)), e)
  {
    assert ConnOk(s, e);
    HoldersUpdate(s.threads, th, Holding(e, s.threads[th].retried), e);
    WitnessesUpdate(s.threads, th, Holding(e, s.threads[th].retried), e);
  }

  lemma StaleKeeps(s: State, th: nat, ok: bool, e: nat)
    requires Inv(s) && th < |s.threads| && s.threads[th].Waiting?
    requires s.threads[th].key in s.p.pool && s.p.pool[s.threads[th].key] == e && s.p.conns[e].gone
    ensures ConnOk(Apply(s, AcquireEntry(th, ok)), e)
  {
    assert ConnOk(s, e);
    var mid := State(Remove(s.p, s.threads[th].key, FoundStale), s.threads);
    assert ConnOk(mid, e);
    Unaffected(mid, Apply(s, AcquireEntry(th, ok)), th, e);
  }

  lemma FreshKeeps(s: State, th: nat)
    requires Inv(s) && th < |s.threads| && s.threads[th].Waiting?
    requires s.threads[th].key in s.p.pool ==> s.p.conns[s.p.pool[s.threads[th].key]].gone
    ensures ConnOk(Apply(s, AcquireEntry(th, true)), |s.p.conns|)
  {
    var s', e := Apply(s, AcquireEntry(th, true)), |s.p.conns|;
    HoldersUpdate(s.threads, th, s'.threads[th], e);
    NobodyYet(s, e);
    FreshOk(s', e, th);
  }

  /** No thread has anything to do with a connection that does not exist. */
  lemma NobodyYet(s: State, e: nat)
    requires Shape(s) && e >= |s.p.conns|
    ensures Holders(s.threads, e) == {} && Closers(s.threads, e) == {}
  {
  }

  lemma FreshOk(s: State, e: nat, th: nat)
    requires e < |s.p.conns| && Pooled(s.p, e) && Holders(s.threads, e) == {th} && Closers(s.threads, e) == {}
    requires s.p.conns[e] == Conn(s.p.conns[e].key, 1, false, 0, None, 0)
    ensures ConnOk(s, e)
  {
  }

  lemma AcquireKeeps(s: State, step: Step, e: nat)
    requires Inv(s) && Enabled(s, step) && step.AcquireEntry? && e < |Apply(s, step).p.conns|
    ensures ConnOk(Apply(s, step), e)
  {
    var th := step.th;
    var key := s.threads[th].key;
    if e == |s.p.conns| {
      FreshKeeps(s, th);
    } else if key in s.p.pool && s.p.pool[key] == e {
      if s.p.conns[e].gone {
        StaleKeeps(s, th, step.dialOk, e);
      } else {
        ReuseKeeps(s, th, e);
      }
    } else {
      Unaffected(s, Apply(s, step), th, e);
    }
  }

  lemma EvictKeeps(s: State, th: nat)
    requires Inv(s) && Enabled(s, EvictEntry(th))
    ensures ConnOk(Apply(s, EvictEntry(th)), s.threads[th].e)
  {
    var s', e := Apply(s, EvictEntry(th)), s.threads[th].e;
    assert ConnOk(s, e);
    HoldersUpdate(s.threads, th, s'.threads[th], e);
    WitnessesUpdate(s.threads, th, s'.threads[th], e);
  }

  lemma CloseRetriedKeeps(s: State, th: nat)
    requires Inv(s) && Enabled(s, CloseRetried(th))
    ensures ConnOk(Apply(s, CloseRetried(th)), s.threads[th].e)
  {
    var s', e := Apply(s, CloseRetried(th)), s.threads[th].e;
    assert ConnOk(s, e);
    HoldersUpdate(s.threads, th, s'.threads[th], e);
    WitnessesUpdate(s.threads, th, s'.threads[th], e);
  }

  lemma DropKeeps(s: State, th: nat)
    requires Inv(s) && Enabled(s, DropReference(th))
    ensures ConnOk(Apply(s, DropReference(th)), s.threads[th].e)
  {
    var s', e := Apply(s, DropReference(th)), s.threads[th].e;
    assert ConnOk(s, e);
    HoldersUpdate(s.threads, th, s'.threads[th], e);
    WitnessesUpdate(s.threads, th, s'.threads[th], e);
    assert |Holders(s.threads, e)| > 0;
  }

  lemma DecideKeeps(s: State, th: nat)
    requires Inv(s) && Enabled(s, DecideEvict(th))
    ensures ConnOk(Apply(s, DecideEvict(th)), s.threads[th].e)
  {
    if Selected(s.p, s.threads[th].e) {
      SelectKeeps(s, th);
    } else {
      assert ConnOk(s, s.threads[th].e);
      PassKeeps(s, th, s.threads[th].e);
    }
  }

  lemma SelectKeeps(s: State, th: nat)
    requires Inv(s) && Enabled(s, DecideEvict(th)) && Selected(s.p, s.threads[th].e)
    ensures ConnOk(Apply(s, DecideEvict(th)), s.threads[th].e)
  {
    var s', e := Apply(s, DecideEvict(th)), s.threads[th].e;
    assert ConnOk(s, e);
    HoldersUpdate(s.threads, th, ClosingLast(e), e);
    WitnessesUpdate(s.threads, th, ClosingLast(e), e);
    assert Closers(s'.threads, e) == {th};
  }

  /** A decider that does not select leaves everything as it was. */
  lemma PassKeeps(s: State, th: nat, e: nat)
    requires th < |s.threads| && s.threads[th] == Deciding(e) && e < |s.p.conns|
    requires ConnOk(s, e) && !Selected(s.p, e)
    ensures ConnOk(s.(threads := s.threads[th := Done]), e)
  {
    DeciderRoles(s.threads, th, e);
  }

  /** A decider neither holds nor closes. */
  lemma DeciderRoles(threads: seq<Pc>, th: nat, e: nat)
    requires th < |threads| && threads[th] == Deciding(e)
    ensures Holders(threads[th := Done], e) == Holders(threads, e) && Closers(threads[th := Done], e) == Closers(threads, e)
    ensures HasCloser(threads, e) ==> HasCloser(threads[th := Done], e)
  {
    HoldersUpdate(threads, th, Done, e);
    WitnessesUpdate(threads, th, Done, e);
  }

  lemma CloseLastKeeps(s: State, th: nat)
    requires Inv(s) && Enabled(s, CloseLast(th))
    ensures ConnOk(Apply(s, CloseLast(th)), s.threads[th].e)
  {
    var s', e := Apply(s, CloseLast(th)), s.threads[th].e;
    assert ConnOk(s, e);
    CloserRoles(s.threads, th, e);
    ClosedOk(s, s', e);
  }

  /** A thread about to close the last reference closes nothing twice. */
  lemma CloserRoles(threads: seq<Pc>, th: nat, e: nat)
    requires th < |threads| && threads[th] == ClosingLast(e)
    ensures Holders(threads[th := Done], e) == Holders(threads, e)
    ensures |Closers(threads[th := Done], e)| == |Closers(threads, e)| - 1
  {
    HoldersUpdate(threads, th, Done, e);
  }

  lemma ClosedOk(s: State, s': State, e: nat)
    requires e < |s.p.conns| && ConnOk(s, e) && s.p.conns[e].left == Some(LastReference)
    requires s'.p == CloseConn(s.p, e, true)
    requires Holders(s'.threads, e) == Holders(s.threads, e) && |Closers(s'.threads, e)| == |Closers(s.threads, e)| - 1
    ensures ConnOk(s', e)
  {
  }

  lemma StopKeeps(s: State, ks: set<SpdyKey>, e: nat)
    requires Inv(s) && e < |s.p.conns|
    ensures ConnOk(s.(p := StopKeys(s.p, ks)), e)
  {
    assert ConnOk(s, e);
  }

  lemma PeerKeeps(s: State, step: Step, e: nat)
    requires Inv(s) && Enabled(s, step) && step.PeerCloses? && e < |s.p.conns|
    ensures ConnOk(Apply(s, step), e)
  {
    assert ConnOk(s, e);
  }

  lemma ThreadStepKeeps(s: State, step: Step, e: nat)
    requires Inv(s) && Enabled(s, step) && e < |s.p.conns|
    requires step.CreateStreams? || step.EvictEntry? || step.CloseRetried? || step.CloseStream?
             || step.DropReference? || step.DecideEvict? || step.CloseLast?
    ensures ConnOk(Apply(s, step), e)
  {
    var s' := Apply(s, step);
    assert ConnOk(s, e);
    if s.threads[step.th].e != e {
      Unaffected(s, s', step.th, e);
    } else {
      if step.EvictEntry? {
        EvictKeeps(s, step.th);
      } else if step.CloseRetried? {
        CloseRetriedKeeps(s, step.th);
      } else if step.DropReference? {
        DropKeeps(s, step.th);
      } else if step.DecideEvict? {
        DecideKeeps(s, step.th);
      } else if step.CloseLast? {
        CloseLastKeeps(s, step.th);
      } else {
        HolderMoves(s, s', step.th, e);
      }
    }
  }

  lemma ConnKept(s: State, step: Step, e: nat)
    requires Inv(s) && Enabled(s, step) && e < |Apply(s, step).p.conns|
    ensures ConnOk(Apply(s, step), e)
  {
    if step.AcquireEntry? {
      AcquireKeeps(s, step, e);
    } else if step.BeginDial? {
      NewThread(s, Waiting(step.key, false), e);
    } else if step.PeerCloses? {
      PeerKeeps(s, step, e);
    } else if step.StopContext? {
      StopKeeps(s, KeysOfContext(s.p, step.ctx), e);
    } else if step.StopAll? {
      StopKeeps(s, s.p.pool.Keys, e);
    } else {
      ThreadStepKeeps(s, step, e);
    }
  }

  lemma StepKeepsInv(s: State, step: Step)
    requires Inv(s) && Enabled(s, step)
    ensures Inv(Apply(s, step))
  {
    ShapeKept(s, step);
    forall e | 0 <= e < |Apply(s, step).p.conns| ensures ConnOk(Apply(s, step), e) {
      ConnKept(s, step, e);
    }
  }
}

/** What holds of the pool in every run. */
module PoolRuns {
  import opened Wrappers
  import opened SpdyPool
  import opened PoolProtocol
  import opened PoolSafety

  ghost predicate IsRun(steps: seq<Step>)
    decreases |steps|, 0
  {
    steps == [] ||
    var n := |steps| - 1;
    IsRun(steps[..n]) && Enabled(After(steps[..n]), steps[n])
  }

  ghost function After(steps: seq<Step>): (s: State)
    requires IsRun(steps)
    ensures Inv(s)
    decreases |steps|, 1
  {
    if steps == [] then Init()
    else
      var n := |steps| - 1;
      StepKeepsInv(After(steps[..n]), steps[n]);
      Apply(After(steps[..n]), steps[n])
  }

  /** In every reachable state the reference count of a pooled connection is exactly the number of
      dials in flight and streams not yet closed that use it; for one that left the pool it is that
      number plus the references that retries gave up. */
  lemma RefsCountHolders(steps: seq<Step>, e: nat)
    requires IsRun(steps) && e < |After(steps).p.conns|
    ensures var s := After(steps);
      && s.p.conns[e].refs == |Holders(s.threads, e)| + s.p.conns[e].leaked
      && (Pooled(s.p, e) ==> s.p.conns[e].refs == |Holders(s.threads, e)|)
  {
    assert ConnOk(After(steps), e);
  }

  /** A pooled connection is in use, or somebody is about to decide whether to evict it. */
  lemma PooledIsWatched(steps: seq<Step>, e: nat)
    requires IsRun(steps) && e < |After(steps).p.conns| && Pooled(After(steps).p, e)
    ensures var s := After(steps);
      (exists i :: 0 <= i < |s.threads| && Holds(s.threads[i], e)) || HasDecider(s.threads, e)
  {
    var s := After(steps);
    assert ConnOk(s, e);
    if Holders(s.threads, e) != {} {
      var i :| i in Holders(s.threads, e);
      assert Holds(s.threads[i], e);
    }
  }

  /** When nobody uses any connection and nobody is about to decide, the pool is empty. */
  lemma UnusedPoolIsEmpty(steps: seq<Step>)
    requires IsRun(steps)
    requires forall i :: 0 <= i < |After(steps).threads| ==>
      !After(steps).threads[i].Deciding? && forall e: nat :: !Holds(After(steps).threads[i], e)
    ensures After(steps).p.pool == map[]
  {
    var s := After(steps);
    forall k | k in s.p.pool ensures false {
      PooledIsWatched(steps, s.p.pool[k]);
    }
  }

  /** A connection the reference count has selected has no holder, now or in any later state, it is
      closed by that path exactly once in all, and no other path removed it. */
  lemma LastReferenceClosesOnce(steps: seq<Step>, e: nat)
    requires IsRun(steps) && e < |After(steps).p.conns|
    ensures var s := After(steps);
      && s.p.conns[e].lastCloses + |Closers(s.threads, e)| <= 1
      && (s.p.conns[e].lastCloses + |Closers(s.threads, e)| == 1 <==> s.p.conns[e].left == Some(LastReference))
      && (s.p.conns[e].left == Some(LastReference) ==> Holders(s.threads, e) == {} && !Pooled(s.p, e))
  {
    var s := After(steps);
    assert ConnOk(s, e);
  }

  /** A connection that is not pooled is closed, or some thread is committed to closing it. */
  lemma NothingLeaksUnclosed(steps: seq<Step>, e: nat)
    requires IsRun(steps) && e < |After(steps).p.conns| && !Pooled(After(steps).p, e)
    ensures After(steps).p.conns[e].gone || HasCloser(After(steps).threads, e)
  {
    assert ConnOk(After(steps), e);
  }

  lemma LeaveKept(s: State, step: Step, e: nat)
    requires Inv(s) && Enabled(s, step) && e < |s.p.conns| && s.p.conns[e].left.Some?
    ensures var s' := Apply(s, step);
      e < |s'.p.conns| && s'.p.conns[e].left == s.p.conns[e].left
  {
    assert ConnOk(s, e);
  }

  /** Once a connection has left the pool it never comes back, and how it left is never rewritten. */
  lemma {:induction false} LeftForGood(steps: seq<Step>, k: nat, e: nat)
    requires IsRun(steps) && k <= |steps| && IsRun(steps[..k])
    requires e < |After(steps[..k]).p.conns| && !Pooled(After(steps[..k]).p, e)
    ensures e < |After(steps).p.conns| && !Pooled(After(steps).p, e)
    ensures After(steps).p.conns[e].left == After(steps[..k]).p.conns[e].left
    decreases |steps|
  {
    assert ConnOk(After(steps[..k]), e);
    if k == |steps| {
      assert steps[..k] == steps;
    } else {
      var n := |steps| - 1;
      assert steps[..n][..k] == steps[..k];
      LeftForGood(steps[..n], k, e);
      LeaveKept(After(steps[..n]), steps[n], e);
      assert ConnOk(After(steps), e);
    }
  }
}
