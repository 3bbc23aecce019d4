/** The virtual-address allocator: 32-bit arithmetic, the allocation loop and the two maps. */
module Allocator {
  import opened Wrappers

  const UINT32: nat := 0x1_0000_0000

  /** 32-bit unsigned wrap-around. */
  function Wrap(n: int): (r: nat)
    ensures r < UINT32
    ensures 0 <= n < UINT32 ==> r == n
  {
    n % UINT32
  }

  // ---------------------------------------------------------------- addresses as bytes

  type Byte = b: nat | b < 256

  /** The four-byte form of an address, if it has one. */
  function To4(ip: seq<Byte>): Option<seq<Byte>> {
    if |ip| == 4 then Some(ip)
    else if |ip| == 16 && (forall i :: 0 <= i < 10 ==> ip[i] == 0) && ip[10] == 255 && ip[11] == 255 then Some(ip[12..])
    else None
  }

  function IpToUint32(ip: seq<Byte>): (n: nat)
    ensures n < UINT32
  {
    match To4(ip)
    case None => 0
    case Some(b) =>
      assert |b| == 4;
      ((b[0] as int * 256 + b[1]) * 256 + b[2]) * 256 + b[3]
  }

  function Uint32ToIp(n: nat): (ip: seq<Byte>)
    requires n < UINT32
    ensures |ip| == 4
  {
    [n / 0x100_0000, n / 0x1_0000 % 256, n / 256 % 256, n % 256]
  }

  /** Numbers and four-byte addresses are in one-to-one correspondence, first byte most significant. */
  lemma IpRoundTrip(n: nat, ip: seq<Byte>)
    requires n < UINT32 && |ip| == 4
    ensures IpToUint32(Uint32ToIp(n)) == n
    ensures Uint32ToIp(IpToUint32(ip)) == ip
    ensures IpToUint32(ip) == 0x100_0000 * ip[0] as int + 0x1_0000 * ip[1] as int + 0x100 * ip[2] as int + ip[3] as int
  {
    var m := IpToUint32(ip);
    assert m % 256 == ip[3];
    assert m / 256 == (ip[0] as int * 256 + ip[1]) * 256 + ip[2];
    assert m / 256 % 256 == ip[2];
    assert m / 0x1_0000 == ip[0] as int * 256 + ip[1];
    assert m / 0x1_0000 % 256 == ip[1];
    assert m / 0x100_0000 == ip[0];
  }

  // ---------------------------------------------------------------- the tables

  /** What adding an address to the interface can report. */
  datatype AddOutcome = Added | InUse | Failed

  /** `failed` and `released` are history: addresses that were tried and refused by the interface,
      and addresses that were given back. */
  datatype Alloc = Alloc(
    base: nat, max: nat, next: nat,
    byKey: map<string, Addr>, byAddr: map<Addr, string>, skipped: set<Addr>,
    failed: set<Addr>, released: set<Addr>)

  function Pow2(k: nat): (r: nat)
    ensures r >= 1
  {
    if k == 0 then 1 else 2 * Pow2(k - 1)
  }

  /** Shifting one left by `k` in 32 bits. */
  function ShiftLeft(k: nat): nat {
    if k >= 32 then 0 else Pow2(k)
  }

  /** The network address of `addr/ones` and the last address of that block. */
  function Network(addr: nat, ones: nat): nat
    requires ones <= 32
  {
    var size := Pow2(32 - ones);
    RemainderFits(addr, size);
    addr - addr % size
  }

  /** The network address is the first of the block of 2^(32-ones) addresses around `addr` that starts
      at a multiple of its size, and the broadcast address is the last. */
  lemma BlockAround(addr: nat, ones: nat) returns (k: nat)
    requires ones <= 32
    ensures Network(addr, ones) == k * Pow2(32 - ones)
    ensures Network(addr, ones) <= addr <= Broadcast(addr, ones) == Network(addr, ones) + Pow2(32 - ones) - 1
  {
    k := BlockOf(addr, Pow2(32 - ones));
  }

  lemma BlockOf(n: nat, size: nat) returns (k: nat)
    requires size >= 1
    ensures n - n % size == k * size && n - n % size <= n < n - n % size + size
  {
    k := n / size;
    RemainderFits(n, size);
  }

  lemma RemainderFits(n: nat, size: nat)
    requires size >= 1
    ensures 0 <= n % size <= n && n % size < size && n == n / size * size + n % size
  {
    assert n == n / size * size + n % size;
  }

  function Broadcast(addr: nat, ones: nat): nat
    requires ones <= 32
  {
    Network(addr, ones) + Pow2(32 - ones) - 1
  }

  function NewAlloc(addr: nat, ones: nat): Alloc
    requires addr < UINT32 && ones <= 32
  {
    var base := Network(addr, ones);
    var size := ShiftLeft(32 - ones);
    Alloc(Wrap(base + 1), Wrap(base + size - 1), Wrap(base + 1), map[], map[], {}, {}, {})
  }

  ghost predicate Bounded(a: Alloc) {
    a.next < UINT32 && a.max < UINT32
  }

  /** The allocation loop for a key that has no address. */
  function AllocateFrom(a: Alloc, key: string, add: Addr -> AddOutcome): (r: (Alloc, Option<Addr>))
    requires Bounded(a)
    ensures Bounded(r.0)
    decreases a.max - a.next
  {
    if a.next >= a.max then (a, None)
    else
      var ip := a.next;
      var b := a.(next := Wrap(ip + 1));
      match add(ip)
      case InUse => AllocateFrom(b.(skipped := b.skipped + {ip}), key, add)
      case Failed => (b.(failed := b.failed + {ip}), None)
      case Added => (b.(byKey := b.byKey[key := ip], byAddr := b.byAddr[ip := key]), Some(ip))
  }

  function Allocate(a: Alloc, key: string, add: Addr -> AddOutcome): (Alloc, Option<Addr>)
    requires Bounded(a)
  {
    if key in a.byKey then (a, Some(a.byKey[key])) else AllocateFrom(a, key, add)
  }

  function Lookup(a: Alloc, key: string): Option<Addr> {
    if key in a.byKey then Some(a.byKey[key]) else None
  }

  /** The locked part of a release; says whether the address was allocated. */
  function Release(a: Alloc, ip: Addr): Alloc {
    if ip !in a.byAddr then a
    else a.(byKey := a.byKey - {a.byAddr[ip]}, byAddr := a.byAddr - {ip}, released := a.released + {ip})
  }

  // ---------------------------------------------------------------- invariant

  ghost predicate Inverse(a: Alloc) {
    && (forall k :: k in a.byKey ==> a.byKey[k] in a.byAddr && a.byAddr[a.byKey[k]] == k)
    && (forall ip :: ip in a.byAddr ==> a.byAddr[ip] in a.byKey && a.byKey[a.byAddr[ip]] == ip)
  }

  /** Every address from `base` up to `next` has exactly one fate, and no other address has one. */
  ghost predicate Partition(a: Alloc) {
    && (forall ip :: ip in a.byAddr || ip in a.skipped || ip in a.failed || ip in a.released <==> a.base <= ip < a.next)
    && a.byAddr.Keys !! a.skipped !! a.failed !! a.released
  }

  ghost predicate AllocInv(a: Alloc) {
    Bounded(a) && a.base <= a.next && Inverse(a) && Partition(a)
  }

  lemma NewAllocInv(addr: nat, ones: nat)
    requires addr < UINT32 && ones <= 32
    ensures AllocInv(NewAlloc(addr, ones))
  {
  }

  /** The loop issues at most one address, not below the old `next`, that the interface accepted. */
  ghost predicate IssuesOne(a: Alloc, b: Alloc, r: Option<Addr>, key: string, add: Addr -> AddOutcome) {
    && b.base == a.base && b.max == a.max && b.released == a.released
    && a.next <= b.next && (b.next == a.next || b.next <= a.max)
    && (r.Some? ==> a.next <= r.value < b.next && r.value < a.max && add(r.value) == Added
                    && b.byKey == a.byKey[key := r.value] && b.byAddr == a.byAddr[r.value := key])
    && (r.None? ==> b.byKey == a.byKey && b.byAddr == a.byAddr)
  }

  lemma {:induction false} AllocateFromIssues(a: Alloc, key: string, add: Addr -> AddOutcome)
    requires Bounded(a)
    ensures IssuesOne(a, AllocateFrom(a, key, add).0, AllocateFrom(a, key, add).1, key, add)
    decreases a.max - a.next
  {
    if a.next < a.max && add(a.next) == InUse {
      AllocateFromIssues(a.(next := Wrap(a.next + 1), skipped := a.skipped + {a.next}), key, add);
    }
  }

  lemma {:induction false} AllocateFromInv(a: Alloc, key: string, add: Addr -> AddOutcome)
    requires AllocInv(a) && key !in a.byKey
    ensures AllocInv(AllocateFrom(a, key, add).0)
    decreases a.max - a.next
  {
    if a.next < a.max {
      PassKeeps(a);
      IssueKeeps(a, key);
      if add(a.next) == InUse {
        AllocateFromInv(a.(next := Wrap(a.next + 1), skipped := a.skipped + {a.next}), key, add);
      }
    }
  }

  /** The loop keeps the invariant and issues at most one address. */
  lemma AllocateFromKeeps(a: Alloc, key: string, add: Addr -> AddOutcome)
    requires AllocInv(a) && key !in a.byKey
    ensures var (b, r) := AllocateFrom(a, key, add); AllocInv(b) && IssuesOne(a, b, r, key, add)
  {
    AllocateFromInv(a, key, add);
    AllocateFromIssues(a, key, add);
  }

  /** The next address is skipped, or refused. */
  lemma PassKeeps(a: Alloc)
    requires AllocInv(a) && a.next < a.max
    ensures AllocInv(a.(next := Wrap(a.next + 1), skipped := a.skipped + {a.next}))
    ensures AllocInv(a.(next := Wrap(a.next + 1), failed := a.failed + {a.next}))
  {
  }

  /** The next address is issued. */
  lemma IssueKeeps(a: Alloc, key: string)
    requires AllocInv(a) && a.next < a.max && key !in a.byKey
    ensures AllocInv(a.(next := Wrap(a.next + 1), byKey := a.byKey[key := a.next], byAddr := a.byAddr[a.next := key]))
  {
    assert a.next !in a.byAddr;
  }

  lemma AllocateKeeps(a: Alloc, key: string, add: Addr -> AddOutcome)
    requires AllocInv(a)
    ensures AllocInv(Allocate(a, key, add).0)
  {
    if key !in a.byKey {
      AllocateFromKeeps(a, key, add);
    }
  }

  /** An allocation fails only when the block is exhausted or the interface refuses an address that
      is not merely in use; the loop skips exactly the addresses in use before that. */
  lemma {:induction false} AllocateOutcome(a: Alloc, key: string, add: Addr -> AddOutcome) returns (stop: nat)
    requires AllocInv(a) && key !in a.byKey
    ensures var (b, r) := AllocateFrom(a, key, add);
      && a.next <= stop && (forall ip :: a.next <= ip < stop ==> add(ip) == InUse)
      && (forall ip :: ip in b.skipped <==> ip in a.skipped || a.next <= ip < stop)
      && (if stop >= a.max then r.None? && b.next == stop
          else add(stop) != InUse && b.next == stop + 1 && r == if add(stop) == Added then Some(stop) else None)
    decreases a.max - a.next
  {
    if a.next >= a.max || add(a.next) != InUse {
      stop := a.next;
    } else {
      stop := AllocateOutcome(a.(next := Wrap(a.next + 1), skipped := a.skipped + {a.next}), key, add);
    }
  }

  lemma ReleaseKeeps(a: Alloc, ip: Addr)
    requires AllocInv(a)
    ensures AllocInv(Release(a, ip))
  {
  }

  // ---------------------------------------------------------------- the object

  /** The allocator object; the oracle passed to `Allocate` answers for the interface. */
  class VipAllocator {
    var base: nat
    var max: nat
    var next: nat
    var byKey: map<string, Addr>
    var byAddr: map<Addr, string>
    var skipped: set<Addr>
    ghost var failed: set<Addr>
    ghost var released: set<Addr>

    ghost function Model(): Alloc
      reads this
    {
      Alloc(base, max, next, byKey, byAddr, skipped, failed, released)
    }

    ghost predicate Valid()
      reads this
    {
      AllocInv(Model())
    }

    constructor (addr: nat, ones: nat)
      requires addr < UINT32 && ones <= 32
      ensures Valid() && Model() == NewAlloc(addr, ones)
    {
      var network: int := Network(addr, ones);
      var size: int := ShiftLeft(32 - ones);
      base := Wrap(network + 1);
      max := Wrap(network + size - 1);
      next := Wrap(network + 1);
      byKey, byAddr, skipped := map[], map[], {};
      failed, released := {}, {};
      new;
      NewAllocInv(addr, ones);
    }

    method AllocateVip(serviceKey: string, add: Addr -> AddOutcome) returns (r: Option<Addr>)
      requires Valid()
      modifies this
      ensures Valid() && (Model(), r) == Allocate(old(Model()), serviceKey, add)
    {
      AllocateKeeps(Model(), serviceKey, add);
      if serviceKey in byKey {
        return Some(byKey[serviceKey]);
      }
      r := Scan(serviceKey, add);
    }

    /** The loop: tries addresses in order until one is added, refused, or none is left. */
    method Scan(serviceKey: string, add: Addr -> AddOutcome) returns (r: Option<Addr>)
      requires Bounded(Model())
      modifies this
      ensures (Model(), r) == AllocateFrom(old(Model()), serviceKey, add)
    {
      ghost var spec := AllocateFrom(Model(), serviceKey, add);
      while true
        invariant Bounded(Model()) && AllocateFrom(Model(), serviceKey, add) == spec
        decreases max - next
      {
        if next >= max {
          return None;
        }
        var ip := next;
        next := Wrap(next + 1);
        var outcome := add(ip);
        if outcome == InUse {
          skipped := skipped + {ip};
          continue;
        }
        if outcome == Failed {
          failed := failed + {ip};
          return None;
        }
        byKey := byKey[serviceKey := ip];
        byAddr := byAddr[ip := serviceKey];
        return Some(ip);
      }
    }

    method LookupVip(serviceKey: string) returns (r: Option<Addr>)
      ensures r == Lookup(Model(), serviceKey)
    {
      r := if serviceKey in byKey then Some(byKey[serviceKey]) else None;
    }

    /** The locked part of a release; `tracked` says whether the address is now to be removed. */
    method ReleaseVip(ip: Addr) returns (tracked: bool)
      requires Valid()
      modifies this
      ensures Valid() && Model() == Release(old(Model()), ip) && tracked == (ip in old(byAddr))
    {
      ReleaseKeeps(Model(), ip);
      tracked := ip in byAddr;
      if tracked {
        byKey := byKey - {byAddr[ip]};
        byAddr := byAddr - {ip};
        released := released + {ip};
      }
    }
  }
}
