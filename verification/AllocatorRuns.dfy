/** The allocator over whole runs: allocations and releases in any order, each release split into
    its locked part and the removal from the interface that follows without the lock. */
module AllocatorRuns {
  import opened Wrappers
  import opened Allocator

  datatype RemovalStatus = Awaiting | Removed | Refused

  /** A release between its two parts. */
  datatype Removal = Removal(ip: Addr, status: RemovalStatus)

  /** `present` are the addresses this allocator added to the interface and has not removed;
      `issued` lists every fresh address handed out, in order. */
  datatype State = State(a: Alloc, removals: seq<Removal>, present: set<Addr>, issued: seq<Addr>)

  datatype Step =
    | DoAllocate(key: string, add: Addr -> AddOutcome)
    | DoRelease(ip: Addr)
    | DoRemove(removal: nat, ok: bool)

  predicate Enabled(s: State, step: Step) {
    step.DoRemove? ==> step.removal < |s.removals| && s.removals[step.removal].status == Awaiting
  }

  function Apply(s: State, step: Step): State
    requires Bounded(s.a) && Enabled(s, step)
  {
    match step
    case DoAllocate(key, add) =>
      var (a, r) := Allocate(s.a, key, add);
      if r.Some? && key !in s.a.byKey
      then s.(a := a, present := s.present + {r.value}, issued := s.issued + [r.value])
      else s.(a := a)
    case DoRelease(ip) =>
      if ip in s.a.byAddr then s.(a := Release(s.a, ip), removals := s.removals + [Removal(ip, Awaiting)]) else s
    case DoRemove(i, ok) =>
      var ip := s.removals[i].ip;
      s.(removals := s.removals[i := Removal(ip, if ok then Removed else Refused)],
         present := if ok then s.present - {ip} else s.present)
  }

  function Init(addr: nat, ones: nat): State
    requires addr < UINT32 && ones <= 32
  {
    State(NewAlloc(addr, ones), [], {}, [])
  }

  // ---------------------------------------------------------------- invariant

  /** Addresses are issued in increasing order, and the issued ones are those held or given back. */
  ghost predicate IssuedOk(s: State) {
    && (forall i, j :: 0 <= i < j < |s.issued| ==> s.issued[i] < s.issued[j])
    && (forall ip :: ip in s.issued <==> ip in s.a.byAddr || ip in s.a.released)
    && (forall ip :: ip in s.issued ==> s.a.base <= ip < s.a.max)
  }

  predicate HasRemoval(removals: seq<Removal>, ip: Addr) {
    exists i :: 0 <= i < |removals| && removals[i].ip == ip
  }

  /** The removal of `ip` has not succeeded, or not yet. */
  predicate Lingers(removals: seq<Removal>, ip: Addr) {
    exists i :: 0 <= i < |removals| && removals[i].ip == ip && removals[i].status != Removed
  }

  /** Each address given back has exactly one removal. */
  ghost predicate RemovalsOk(s: State) {
    && (forall i, j :: 0 <= i < j < |s.removals| ==> s.removals[i].ip != s.removals[j].ip)
    && (forall i :: 0 <= i < |s.removals| ==> s.removals[i].ip in s.a.released)
    && (forall ip :: ip in s.a.released ==> HasRemoval(s.removals, ip))
  }

  /** The addresses on the interface are the held ones and those whose removal has not succeeded. */
  ghost predicate PresentOk(s: State) {
    forall ip :: ip in s.present <==> ip in s.a.byAddr || Lingers(s.removals, ip)
  }

  ghost predicate Inv(s: State) {
    AllocInv(s.a) && IssuedOk(s) && RemovalsOk(s) && PresentOk(s)
  }

  lemma AllocateStepKeeps(s: State, key: string, add: Addr -> AddOutcome)
    requires Inv(s)
    ensures Inv(Apply(s, DoAllocate(key, add)))
  {
    if key !in s.a.byKey {
      AllocateFromKeeps(s.a, key, add);
      var (a, r) := AllocateFrom(s.a, key, add);
      IssueKeeps(s, a, r);
    }
  }

  /** One more address, not below the old `next`, extends the issued list in order. */
  lemma IssueKeeps(s: State, a: Alloc, r: Option<Addr>)
    requires IssuedOk(s) && AllocInv(s.a) && a.base == s.a.base && a.max == s.a.max && a.released == s.a.released
    requires r.Some? ==> s.a.next <= r.value < a.max && a.byAddr.Keys == s.a.byAddr.Keys + {r.value}
    requires r.None? ==> a.byAddr == s.a.byAddr
    ensures IssuedOk(s.(a := a, issued := if r.Some? then s.issued + [r.value] else s.issued))
  {
    forall i | 0 <= i < |s.issued| ensures s.issued[i] < s.a.next {
      assert s.issued[i] in s.issued;
    }
  }

  lemma ReleaseStepKeeps(s: State, ip: Addr)
    requires Inv(s)
    ensures Inv(Apply(s, DoRelease(ip)))
  {
    if ip in s.a.byAddr {
      ReleaseKeeps(s.a, ip);
      ReleaseRemovals(s, ip);
    }
  }

  lemma ReleaseRemovals(s: State, ip: Addr)
    requires RemovalsOk(s) && PresentOk(s) && Partition(s.a) && ip in s.a.byAddr
    ensures RemovalsOk(Released(s, ip)) && PresentOk(Released(s, ip))
  {
    var removals := s.removals + [Removal(ip, Awaiting)];
    AppendRemoval(s.removals, ip);
    assert forall i :: 0 <= i < |s.removals| ==> removals[i] == s.removals[i];
  }

  ghost function Released(s: State, ip: Addr): State {
    s.(a := Release(s.a, ip), removals := s.removals + [Removal(ip, Awaiting)])
  }

  lemma AppendRemoval(removals: seq<Removal>, ip: Addr)
    ensures var removals' := removals + [Removal(ip, Awaiting)];
      && (forall x :: HasRemoval(removals', x) <==> HasRemoval(removals, x) || x == ip)
      && (forall x :: Lingers(removals', x) <==> Lingers(removals, x) || x == ip)
  {
    var removals' := removals + [Removal(ip, Awaiting)];
    assert forall i :: 0 <= i < |removals| ==> removals'[i] == removals[i];
    assert removals'[|removals|] == Removal(ip, Awaiting);
  }

  lemma FinishRemoval(removals: seq<Removal>, i: nat, ok: bool)
    requires i < |removals| && removals[i].status == Awaiting
    requires forall j, k :: 0 <= j < k < |removals| ==> removals[j].ip != removals[k].ip
    ensures var removals' := removals[i := Removal(removals[i].ip, if ok then Removed else Refused)];
      && (forall x :: HasRemoval(removals', x) <==> HasRemoval(removals, x))
      && (forall x :: Lingers(removals', x) <==> Lingers(removals, x) && !(ok && x == removals[i].ip))
  {
    var removals' := removals[i := Removal(removals[i].ip, if ok then Removed else Refused)];
    assert forall j :: 0 <= j < |removals| ==> removals'[j].ip == removals[j].ip && (j != i ==> removals'[j] == removals[j]);
    forall x ensures Lingers(removals', x) <==> Lingers(removals, x) && !(ok && x == removals[i].ip) {
      if x == removals[i].ip {
        assert removals[i].status == Awaiting;
        assert !ok ==> removals'[i].ip == x && removals'[i].status == Refused;
      }
    }
  }

  lemma RemoveStepKeeps(s: State, i: nat, ok: bool)
    requires Inv(s) && Enabled(s, DoRemove(i, ok))
    ensures Inv(Apply(s, DoRemove(i, ok)))
  {
    FinishRemoval(s.removals, i, ok);
    assert s.removals[i].ip in s.a.released;
  }

  lemma StepKeepsInv(s: State, step: Step)
    requires Inv(s) && Enabled(s, step)
    ensures Inv(Apply(s, step))
  {
    match step
    case DoAllocate(key, add) => AllocateStepKeeps(s, key, add);
    case DoRelease(ip) => ReleaseStepKeeps(s, ip);
    case DoRemove(i, ok) => RemoveStepKeeps(s, i, ok);
  }

  // ---------------------------------------------------------------- runs

  ghost predicate IsRun(addr: nat, ones: nat, steps: seq<Step>)
    requires addr < UINT32 && ones <= 32
    decreases |steps|, 0
  {
    steps == [] ||
    var n := |steps| - 1;
    IsRun(addr, ones, steps[..n]) && Enabled(After(addr, ones, steps[..n]), steps[n])
  }

  ghost function After(addr: nat, ones: nat, steps: seq<Step>): (s: State)
    requires addr < UINT32 && ones <= 32 && IsRun(addr, ones, steps)
    ensures Inv(s)
    decreases |steps|, 1
  {
    if steps == [] then
      NewAllocInv(addr, ones);
      Init(addr, ones)
    else
      var n := |steps| - 1;
      var s := After(addr, ones, steps[..n]);
      StepKeepsInv(s, steps[n]);
      Apply(s, steps[n])
  }

  /** Over every run: the two maps are inverses of each other; every address the loop has passed has
      exactly one fate; and no address is issued twice. */
  lemma NeverIssuedTwice(addr: nat, ones: nat, steps: seq<Step>)
    requires addr < UINT32 && ones <= 32 && IsRun(addr, ones, steps)
    ensures var s := After(addr, ones, steps);
      && Inverse(s.a) && Partition(s.a)
      && (forall i, j :: 0 <= i < |s.issued| && 0 <= j < |s.issued| && i != j ==> s.issued[i] != s.issued[j])
      && (forall ip :: ip in s.issued <==> ip in s.a.byAddr || ip in s.a.released)
  {
    var s := After(addr, ones, steps);
    forall i, j | 0 <= i < |s.issued| && 0 <= j < |s.issued| && i != j ensures s.issued[i] != s.issued[j] {
      if i < j {
        assert s.issued[i] < s.issued[j];
      } else {
        assert s.issued[j] < s.issued[i];
      }
    }
  }

  /** The gap between the two parts of a release is harmless: a removal, pending or done, never
      targets an address somebody holds; no address has two removals; and what is on the interface is
      exactly what is held plus what is still to be, or failed to be, removed. */
  lemma RemovalGapHarmless(addr: nat, ones: nat, steps: seq<Step>)
    requires addr < UINT32 && ones <= 32 && IsRun(addr, ones, steps)
    ensures var s := After(addr, ones, steps);
      && (forall i :: 0 <= i < |s.removals| ==> s.removals[i].ip !in s.a.byAddr && s.removals[i].ip !in s.a.byKey.Values)
      && (forall i, j :: 0 <= i < j < |s.removals| ==> s.removals[i].ip != s.removals[j].ip)
      && s.present == s.a.byAddr.Keys + set r | r in s.removals && r.status != Removed :: r.ip
  {
    var s := After(addr, ones, steps);
    LingeringSet(s.removals);
    forall i | 0 <= i < |s.removals| ensures s.removals[i].ip !in s.a.byAddr && s.removals[i].ip !in s.a.byKey.Values {
      assert s.removals[i].ip in s.a.released;
    }
  }

  lemma LingeringSet(removals: seq<Removal>)
    ensures forall ip :: ip in (set r | r in removals && r.status != Removed :: r.ip) <==> Lingers(removals, ip)
  {
    forall ip | Lingers(removals, ip) ensures ip in (set r | r in removals && r.status != Removed :: r.ip) {
      var i :| 0 <= i < |removals| && removals[i].ip == ip && removals[i].status != Removed;
      assert removals[i] in removals;
    }
  }

  // ---------------------------------------------------------------- which addresses are issued

  lemma Pow2Bounds(k: nat)
    requires k <= 32
    ensures Pow2(k) <= UINT32 && (k < 32 ==> 2 * Pow2(k) <= UINT32) && (k == 32 ==> Pow2(k) == UINT32)
    ensures k >= 1 ==> Pow2(k) >= 2
  {
    assert Pow2(8) == 256;
    assert Pow2(16) == 0x1_0000;
    assert Pow2(24) == 0x100_0000;
    assert Pow2(32) == UINT32;
    Pow2Mono(k, 32);
    if k < 32 {
      Pow2Mono(k + 1, 32);
    }
  }

  lemma {:induction false} Pow2Mono(j: nat, k: nat)
    requires j <= k
    ensures Pow2(j) <= Pow2(k)
  {
    if j < k {
      Pow2Mono(j, k - 1);
    }
  }

  lemma {:induction false} Pow2Split(j: nat, k: nat)
    ensures Pow2(j + k) == Pow2(j) * Pow2(k)
  {
    if j > 0 {
      Pow2Split(j - 1, k);
    }
  }

  lemma TimesMono(a: nat, b: nat, p: nat)
    requires a >= b
    ensures a * p >= b * p
  {
  }

  /** A block of size `p` that divides the address space fits in it. */
  lemma BlockFits(addr: nat, p: nat, q: nat)
    requires addr < UINT32 && p >= 1 && p * q == UINT32
    ensures 0 <= addr - addr % p && addr - addr % p + p <= UINT32
  {
    var d := addr / p;
    assert addr - addr % p == d * p;
    if d >= q {
      TimesMono(d, q, p);
    }
    TimesMono(q, d + 1, p);
  }

  /** The one block whose first usable address wraps around. */
  predicate WrapsAround(addr: nat, ones: nat) {
    addr == UINT32 - 1 && ones == 32
  }

  /** Except for 255.255.255.255/32, the bounds are the network and broadcast addresses, although
      both are computed with wrap-around. */
  lemma NewAllocBounds(addr: nat, ones: nat)
    requires addr < UINT32 && ones <= 32
    ensures Network(addr, ones) + Pow2(32 - ones) <= UINT32
    ensures if WrapsAround(addr, ones) then NewAlloc(addr, ones).base == 0 && NewAlloc(addr, ones).max == UINT32 - 1
            else NewAlloc(addr, ones).base == Network(addr, ones) + 1 && NewAlloc(addr, ones).max == Broadcast(addr, ones)
  {
    Pow2Split(32 - ones, ones);
    Pow2Bounds(32);
    BlockFits(addr, Pow2(32 - ones), Pow2(ones));
    Pow2Bounds(32 - ones);
  }

  lemma {:induction false} BoundsFixed(addr: nat, ones: nat, steps: seq<Step>)
    requires addr < UINT32 && ones <= 32 && IsRun(addr, ones, steps)
    ensures var a := After(addr, ones, steps).a;
      a.base == NewAlloc(addr, ones).base && a.max == NewAlloc(addr, ones).max
    decreases |steps|
  {
    if steps != [] {
      var n := |steps| - 1;
      BoundsFixed(addr, ones, steps[..n]);
      var s := After(addr, ones, steps[..n]);
      if steps[n].DoAllocate? && steps[n].key !in s.a.byKey {
        AllocateFromKeeps(s.a, steps[n].key, steps[n].add);
      }
    }
  }

  ghost predicate IssuedInside(addr: nat, ones: nat, s: State)
    requires ones <= 32
  {
    forall ip :: ip in s.issued ==> Network(addr, ones) < ip < Broadcast(addr, ones)
  }

  lemma IssuedInsideNetwork(addr: nat, ones: nat, steps: seq<Step>)
    requires addr < UINT32 && ones <= 32 && IsRun(addr, ones, steps) && !WrapsAround(addr, ones)
    ensures IssuedInside(addr, ones, After(addr, ones, steps))
  {
    NewAllocBounds(addr, ones);
    BoundsFixed(addr, ones, steps);
  }

  /** Allocating once from 255.255.255.255/32 issues 0.0.0.0. */
  lemma WrappedBlockIssuesZero() returns (steps: seq<Step>)
    ensures IsRun(UINT32 - 1, 32, steps)
    ensures After(UINT32 - 1, 32, steps).issued == [0]
  {
    var step := DoAllocate("k", _ => Added);
    steps := [step];
    assert steps[..|steps| - 1] == [] && IsRun(UINT32 - 1, 32, steps[..|steps| - 1]);
    assert Enabled(After(UINT32 - 1, 32, steps[..|steps| - 1]), steps[|steps| - 1]);
    NewAllocBounds(UINT32 - 1, 32);
    var s := Init(UINT32 - 1, 32);
    assert AllocateFrom(s.a, "k", step.add).1 == Some(0);
  }

  /** Every address issued in every run lies strictly between the network and the broadcast address
      if and only if the block is not 255.255.255.255/32. */
  lemma IssuedInsideIff(addr: nat, ones: nat)
    requires addr < UINT32 && ones <= 32
    ensures (forall steps :: IsRun(addr, ones, steps) ==> IssuedInside(addr, ones, After(addr, ones, steps)))
            <==> !WrapsAround(addr, ones)
  {
    if WrapsAround(addr, ones) {
      var steps := WrappedBlockIssuesZero();
      assert 0 in After(addr, ones, steps).issued;
      assert !IssuedInside(addr, ones, After(addr, ones, steps));
    } else {
      forall steps | IsRun(addr, ones, steps) ensures IssuedInside(addr, ones, After(addr, ones, steps)) {
        IssuedInsideNetwork(addr, ones, steps);
      }
    }
  }

  lemma {:induction false} IncreasingFits(xs: seq<nat>, lo: nat, hi: nat)
    requires forall i, j :: 0 <= i < j < |xs| ==> xs[i] < xs[j]
    requires forall i :: 0 <= i < |xs| ==> lo <= xs[i] < hi
    ensures xs == [] || |xs| <= hi - lo
  {
    if |xs| > 1 {
      IncreasingFits(xs[1..], xs[0] + 1, hi);
    }
  }

  /** No run issues more addresses than the block has between its first and its last. */
  lemma IssuedCount(addr: nat, ones: nat, steps: seq<Step>)
    requires addr < UINT32 && ones <= 31 && IsRun(addr, ones, steps)
    ensures |After(addr, ones, steps).issued| <= Pow2(32 - ones) - 2
  {
    var s := After(addr, ones, steps);
    NewAllocBounds(addr, ones);
    BoundsFixed(addr, ones, steps);
    Pow2Bounds(32 - ones);
    assert forall i :: 0 <= i < |s.issued| ==> s.issued[i] in s.issued;
    IncreasingFits(s.issued, s.a.base, s.a.max);
  }
}
