/** The firmware memory map (GetMemoryMap, section 7.2 of the UEFI Specification) and the
    carving of the page-table pool out of it (kernel/kernel.c, lines 1312-1484). */
module MemoryMap {
  import opened Words

  const EFI_LOADER_DATA: u32 := 2
  const EFI_CONVENTIONAL_MEMORY: u32 := 7
  const EFI_MEMORY_MAPPED_IO: u32 := 11
  const EFI_MEMORY_MAPPED_IO_PORT_SPACE: u32 := 12

  datatype Descriptor = Descriptor(kind: u32, start: u64, virt: u64, pages: u64, attribute: u64)

  function EndChecked(d: Descriptor): (end: Option<u64>) {
    if d.pages > (U64_MAX - d.start) / 4096 then None else Some(d.start + d.pages * 4096)
  }

  predicate Aligned(descs: seq<Descriptor>) {
    forall i :: 0 <= i < |descs| ==> descs[i].start % 4096 == 0
  }

  /** Byte `a` of physical memory lies in descriptor `d`. */
  predicate Holds(d: Descriptor, a: int) {
    d.start <= a < d.start + d.pages * 4096
  }

  predicate Covered(descs: seq<Descriptor>, a: int) {
    exists i :: 0 <= i < |descs| && Holds(descs[i], a)
  }

  predicate Separate(d: Descriptor, e: Descriptor) {
    d.start + d.pages * 4096 <= e.start || e.start + e.pages * 4096 <= d.start
  }

  predicate Disjoint(descs: seq<Descriptor>) {
    forall i, j :: 0 <= i < j < |descs| ==> Separate(descs[i], descs[j])
  }

  function KindPages(descs: seq<Descriptor>, kind: u32): (n: nat) {
    if descs == [] then 0
    else KindPages(descs[..|descs| - 1], kind) + (if descs[|descs| - 1].kind == kind then descs[|descs| - 1].pages else 0)
  }

  // ----- pool selection

  predicate Eligible(d: Descriptor, need: nat) {
    d.kind == EFI_CONVENTIONAL_MEMORY && d.pages >= need
  }

  /** The choice of the selection loop after scanning `descs`. */
  function Lowest(descs: seq<Descriptor>, need: nat): (k: Option<nat>)
    ensures k.Some? ==> k.value < |descs|
  {
    if descs == [] then None
    else
      var n := |descs| - 1;
      var r := Lowest(descs[..n], need);
      if Eligible(descs[n], need) && (r.None? || descs[n].start < descs[r.value].start) then Some(n) else r
  }

  /** The loop finds the first eligible descriptor of least start, when there is one. */
  lemma {:induction false} LowestIsLowest(descs: seq<Descriptor>, need: nat)
    ensures match Lowest(descs, need)
            case None => forall j :: 0 <= j < |descs| ==> !Eligible(descs[j], need)
            case Some(k) =>
              && Eligible(descs[k], need)
              && (forall j :: 0 <= j < |descs| && Eligible(descs[j], need) ==> descs[k].start <= descs[j].start)
              && (forall j :: 0 <= j < k && Eligible(descs[j], need) ==> descs[k].start < descs[j].start)
  {
    if descs != [] {
      var n := |descs| - 1;
      LowestIsLowest(descs[..n], need);
      assert forall j :: 0 <= j < n ==> descs[..n][j] == descs[j];
    }
  }

  // ----- carving

  function PoolStart(d: Descriptor, need: nat): (a: int) {
    d.start + (d.pages - need) * 4096
  }

  function PoolDescriptor(d: Descriptor, need: nat): (p: Descriptor)
    requires EndChecked(d).Some? && need <= d.pages
  {
    Descriptor(EFI_LOADER_DATA, PoolStart(d, need), 0, need, d.attribute)
  }

  /** The map after the top `need` pages of descriptor `k` became loader data. */
  function Carved(descs: seq<Descriptor>, k: nat, need: nat): (r: seq<Descriptor>)
    requires k < |descs| && EndChecked(descs[k]).Some? && need <= descs[k].pages
  {
    if descs[k].pages == need then descs[k := descs[k].(kind := EFI_LOADER_DATA)]
    else descs[k := descs[k].(pages := descs[k].pages - need)] + [PoolDescriptor(descs[k], need)]
  }

  lemma {:induction false} KindPagesUpdate(descs: seq<Descriptor>, k: nat, d: Descriptor, kind: u32)
    requires k < |descs|
    ensures KindPages(descs[k := d], kind) ==
            KindPages(descs, kind) - (if descs[k].kind == kind then descs[k].pages else 0)
                                   + (if d.kind == kind then d.pages else 0)
  {
    var n := |descs| - 1;
    if k == n {
      assert descs[k := d][..n] == descs[..n];
    } else {
      assert descs[k := d][..n] == descs[..n][k := d];
      KindPagesUpdate(descs[..n], k, d, kind);
    }
  }

  /** Exactly `need` pages move from conventional memory to loader data. */
  lemma CarveMovesPages(descs: seq<Descriptor>, k: nat, need: nat, kind: u32)
    requires k < |descs| && EndChecked(descs[k]).Some? && Eligible(descs[k], need)
    ensures KindPages(Carved(descs, k, need), kind) ==
            KindPages(descs, kind) - (if kind == EFI_CONVENTIONAL_MEMORY then need else 0)
                                   + (if kind == EFI_LOADER_DATA then need else 0)
  {
    if descs[k].pages == need {
      KindPagesUpdate(descs, k, descs[k].(kind := EFI_LOADER_DATA), kind);
    } else {
      var shrunk := descs[k].(pages := descs[k].pages - need);
      KindPagesUpdate(descs, k, shrunk, kind);
      var r := Carved(descs, k, need);
      assert r[..|r| - 1] == descs[k := shrunk];
    }
  }

  lemma CarveSplits(descs: seq<Descriptor>, k: nat, need: nat, a: int)
    requires k < |descs| && EndChecked(descs[k]).Some? && need < descs[k].pages
    ensures Holds(descs[k], a) <==>
            Holds(descs[k].(pages := descs[k].pages - need), a) || Holds(PoolDescriptor(descs[k], need), a)
    ensures !(Holds(descs[k].(pages := descs[k].pages - need), a) && Holds(PoolDescriptor(descs[k], need), a))
  {
  }

  /** Carving covers exactly the same bytes. */
  lemma CarveCoversSame(descs: seq<Descriptor>, k: nat, need: nat, a: int)
    requires k < |descs| && EndChecked(descs[k]).Some? && need <= descs[k].pages
    ensures Covered(Carved(descs, k, need), a) <==> Covered(descs, a)
  {
    var r := Carved(descs, k, need);
    if descs[k].pages == need {
      assert forall i :: 0 <= i < |descs| ==> (Holds(r[i], a) <==> Holds(descs[i], a));
    } else {
      CarveSplits(descs, k, need, a);
      var n := |descs|;
      if Covered(descs, a) {
        var i :| 0 <= i < n && Holds(descs[i], a);
        assert Holds(r[i], a) || Holds(r[n], a);
      }
      if Covered(r, a) {
        var i :| 0 <= i < |r| && Holds(r[i], a);
        assert if i == n then Holds(descs[k], a) else Holds(descs[i], a);
      }
    }
  }

  /** The pool is the top of the chosen descriptor: what is left of it lies below, at the old start, and
      every other descriptor is as it was. */
  lemma CarveTakesTop(descs: seq<Descriptor>, k: nat, need: nat, a: int)
    requires k < |descs| && EndChecked(descs[k]).Some? && need <= descs[k].pages
    ensures var r, pool, last := Carved(descs, k, need), PoolStart(descs[k], need), if need == descs[k].pages then k else |descs|;
            && (forall i :: 0 <= i < |descs| && i != k ==> r[i] == descs[i])
            && pool + need * 4096 == EndChecked(descs[k]).value
            && (a < pool ==> (Holds(descs[k], a) <==> Holds(r[k], a) && r[k].kind == descs[k].kind && r[k].start == descs[k].start))
            && (pool <= a ==> (Holds(descs[k], a) <==> Holds(r[last], a) && r[last].kind == EFI_LOADER_DATA))
  {
  }

  /** Disjoint descriptors stay disjoint. */
  lemma CarveStaysDisjoint(descs: seq<Descriptor>, k: nat, need: nat)
    requires k < |descs| && EndChecked(descs[k]).Some? && need <= descs[k].pages && Disjoint(descs)
    ensures Disjoint(Carved(descs, k, need))
  {
    var r := Carved(descs, k, need);
    forall i, j | 0 <= i < j < |r| ensures Separate(r[i], r[j]) {
      if j < |descs| {
        assert Separate(descs[i], descs[j]);
      } else if i < k {
        assert Separate(descs[i], descs[k]);
      } else if k < i {
        assert Separate(descs[k], descs[i]);
      }
    }
  }

  lemma CarveStaysInRange(descs: seq<Descriptor>, k: nat, need: nat, limit: u64)
    requires k < |descs| && EndChecked(descs[k]).Some? && need <= descs[k].pages && Aligned(descs)
    requires forall i :: 0 <= i < |descs| ==> EndChecked(descs[i]).Some? && EndChecked(descs[i]).value <= limit
    ensures Aligned(Carved(descs, k, need))
    ensures forall d :: d in Carved(descs, k, need) ==> EndChecked(d).Some? && EndChecked(d).value <= limit
  {
    var r := Carved(descs, k, need);
    assert descs[k].start % 4096 == 0;
    forall i | 0 <= i < |r| ensures r[i].start % 4096 == 0 {
      if i == |descs| {
        assert r[i].start == descs[k].start + (descs[k].pages - need) * 4096;
      } else if i != k {
        assert r[i] == descs[i];
      }
    }
    forall d | d in r ensures EndChecked(d).Some? && EndChecked(d).value <= limit {
      var i :| 0 <= i < |r| && r[i] == d;
      if i == |descs| || i == k {
        assert EndChecked(descs[k]).Some? && EndChecked(descs[k]).value <= limit;
      } else {
        assert r[i] == descs[i];
      }
    }
  }

  /** The mutable map: a buffer of `capacity` bytes holding descriptors of `size` bytes. */
  class FirmwareMap {
    var descs: seq<Descriptor>
    const capacity: nat
    const size: nat

    constructor (descs: seq<Descriptor>, capacity: nat, size: nat)
      ensures this.descs == descs && this.capacity == capacity && this.size == size
    {
      this.descs, this.capacity, this.size := descs, capacity, size;
    }

    predicate HasRoom(count: nat) {
      count * size + size <= capacity
    }

    method Append(d: Descriptor) returns (ok: bool)
      modifies this`descs
      ensures ok <==> HasRoom(|old(descs)|)
      ensures descs == if ok then old(descs) + [d] else old(descs)
    {
      var used := |descs| * size;
      if used + size > capacity {
        ok := false;
      } else {
        descs := descs + [d];
        ok := true;
      }
    }

    /** `memory_map_contains_range`: some single descriptor holds every byte of the range. */
    method ContainsRange(start: u64, length: u64) returns (yes: bool)
      ensures yes <==> Contains(descs, start, length)
    {
      if length == 0 {
        return true;
      }
      if start > U64_MAX - length {
        return false;
      }
      var end := start + length;
      var i := 0;
      while i < |descs|
        invariant 0 <= i <= |descs|
        invariant forall j :: 0 <= j < i ==> !HoldsRange(descs[j], start, length)
      {
        var e := EndChecked(descs[i]);
        if e.Some? && start >= descs[i].start && end <= e.value {
          return true;
        }
        i := i + 1;
      }
      return false;
    }
  }

  /** The descriptor's end is representable and its bytes include the whole range. */
  predicate HoldsRange(d: Descriptor, start: u64, length: u64) {
    EndChecked(d).Some? && d.start <= start && start + length <= d.start + d.pages * 4096
  }

  predicate Contains(descs: seq<Descriptor>, start: u64, length: u64) {
    length == 0 || (start + length <= U64_MAX && exists i :: 0 <= i < |descs| && HoldsRange(descs[i], start, length))
  }
}
