/** Building the kernel's identity map (kernel/kernel.c, lines 1368-1627). */
module Paging {
  import opened Words
  import opened PageTables
  import opened TableCount
  import opened MemoryMap

  datatype PagingError = PagingOk | ErrLa57 | ErrRange | ErrNoPool | ErrPoolEmpty | ErrTableEntry | ErrMapFull

  const LOW_CANONICAL_LIMIT: u64 := 0x0000_8000_0000_0000

  function AlignUp(x: u64): (r: Option<u64>)
    ensures r.Some? ==> r.value % 4096 == 0 && x <= r.value < x + 4096 && r.value == DivRoundUp(x, 4096) * 4096
  {
    if x == 0 then Some(0)
    else if x > U64_MAX - 4095 then None
    else Some((x + 4095) / 4096 * 4096)
  }

  // ----- the specification: which pages a list of ranges maps, with which flags

  /** A range of bytes to be mapped with the given flags. */
  datatype Span = Span(start: nat, bytes: nat, flags: Flags)

  /** Page `v` overlaps the nonempty range. */
  predicate Touches(sp: Span, v: nat) {
    sp.bytes > 0 && v * 4096 < sp.start + sp.bytes && sp.start < (v + 1) * 4096
  }

  predicate Touched(spans: seq<Span>, v: nat) {
    exists i :: 0 <= i < |spans| && Touches(spans[i], v)
  }

  function Share(sp: Span, v: nat): (f: Flags) {
    if Touches(sp, v) then sp.flags else NO_FLAGS
  }

  /** The union of the flags of all ranges that overlap page `v`. */
  function FlagsAt(spans: seq<Span>, v: nat): (f: Flags) {
    if spans == [] then NO_FLAGS
    else FlagsAt(spans[..|spans| - 1], v).Or(Share(spans[|spans| - 1], v))
  }

  ghost predicate Realises(leaves: map<nat, Flags>, spans: seq<Span>) {
    forall v: nat :: (v in leaves <==> Touched(spans, v)) && (v in leaves ==> leaves[v] == FlagsAt(spans, v))
  }

  lemma FlagsAtUntouched(spans: seq<Span>, v: nat)
    requires !Touched(spans, v)
    ensures FlagsAt(spans, v) == NO_FLAGS
  {
    if spans != [] {
      var n := |spans| - 1;
      assert forall i :: 0 <= i < n ==> spans[..n][i] == spans[i];
      FlagsAtUntouched(spans[..n], v);
      assert !Touches(spans[n], v);
    }
  }

  /** A bit is set on a page exactly when some overlapping range carries it. */
  lemma {:induction false} UncachedExactly(spans: seq<Span>, v: nat)
    ensures FlagsAt(spans, v).pcd <==> exists i :: 0 <= i < |spans| && Touches(spans[i], v) && spans[i].flags.pcd
    ensures FlagsAt(spans, v).pwt <==> exists i :: 0 <= i < |spans| && Touches(spans[i], v) && spans[i].flags.pwt
    ensures FlagsAt(spans, v).present <==> exists i :: 0 <= i < |spans| && Touches(spans[i], v) && spans[i].flags.present
  {
    if spans != [] {
      var n := |spans| - 1;
      UncachedExactly(spans[..n], v);
      assert forall i :: 0 <= i < n ==> spans[..n][i] == spans[i];
    }
  }

  lemma {:induction false} FlagsAtRemove(spans: seq<Span>, k: nat, v: nat)
    requires k < |spans|
    ensures FlagsAt(spans, v) == FlagsAt(spans[..k] + spans[k + 1..], v).Or(Share(spans[k], v))
  {
    var n := |spans| - 1;
    var rest := spans[..k] + spans[k + 1..];
    if k == n {
      assert rest == spans[..n];
    } else {
      FlagsAtRemove(spans[..n], k, v);
      assert spans[..n][..k] + spans[..n][k + 1..] == rest[..n - 1];
      assert rest[n - 1] == spans[n];
    }
  }

  /** Leaf flags do not depend on the order in which the ranges were mapped. */
  lemma {:induction false} FlagsOrderIndependent(a: seq<Span>, b: seq<Span>, v: nat)
    requires multiset(a) == multiset(b)
    ensures FlagsAt(a, v) == FlagsAt(b, v)
    decreases |a|
  {
    if a == [] {
      assert |multiset(b)| == 0;
    } else {
      var n := |a| - 1;
      var last := a[n];
      assert a == a[..n] + [last];
      assert last in multiset(b);
      var k :| 0 <= k < |b| && b[k] == last;
      var rest := b[..k] + b[k + 1..];
      assert b == b[..k] + [last] + b[k + 1..];
      assert multiset(a) == multiset(a[..n]) + multiset{last};
      assert multiset(b) == multiset(b[..k]) + multiset{last} + multiset(b[k + 1..]);
      assert multiset(rest) == multiset(b[..k]) + multiset(b[k + 1..]);
      assert multiset(a[..n]) == multiset(a) - multiset{last} == multiset(rest);
      FlagsOrderIndependent(a[..n], rest, v);
      FlagsAtRemove(b, k, v);
    }
  }

  ghost predicate Extended(before: map<nat, Flags>, after: map<nat, Flags>, sp: Span) {
    forall v: nat ::
      && (v in after <==> v in before || Touches(sp, v))
      && (v in after ==> after[v] == if v in before then before[v].Or(Share(sp, v)) else sp.flags)
  }

  lemma RealisesMore(before: map<nat, Flags>, after: map<nat, Flags>, spans: seq<Span>, sp: Span)
    requires Realises(before, spans) && Extended(before, after, sp)
    ensures Realises(after, spans + [sp])
  {
    var more := spans + [sp];
    assert more[..|spans|] == spans;
    forall v: nat ensures (v in after <==> Touched(more, v)) && (v in after ==> after[v] == FlagsAt(more, v)) {
      assert Touches(more[|spans|], v) <==> Touches(sp, v);
      assert forall i :: 0 <= i < |spans| ==> more[i] == spans[i];
      if v !in before {
        FlagsAtUntouched(spans, v);
      }
    }
  }

  function MemoryFlags(kind: u32): (f: Flags) {
    if kind == EFI_MEMORY_MAPPED_IO || kind == EFI_MEMORY_MAPPED_IO_PORT_SPACE then UNCACHED_FLAGS else TABLE_FLAGS
  }

  predicate SpanInRange(start: u64, bytes: u64) {
    start <= U64_MAX - bytes && AlignUp(start + bytes).Some? && AlignUp(start + bytes).value <= LOW_CANONICAL_LIMIT
  }

  // ----- what `setup_kernel_paging` is asked to map

  datatype Framebuffer = Framebuffer(base: u64, stride: u32, height: u32, size: u64)

  /** The product of three 32-bit quantities wraps in 64-bit arithmetic. */
  function FramebufferBytes(fb: Framebuffer): (n: u64) {
    if fb.size != 0 then fb.size else fb.stride * fb.height * 4 % 0x1_0000_0000_0000_0000
  }

  predicate DescriptorsInRange(descs: seq<Descriptor>) {
    forall i :: 0 <= i < |descs| ==> EndChecked(descs[i]).Some? && EndChecked(descs[i]).value <= LOW_CANONICAL_LIMIT
  }

  function MaxEnd(descs: seq<Descriptor>): (end: u64)
    requires DescriptorsInRange(descs)
    ensures end <= LOW_CANONICAL_LIMIT
    ensures forall i :: 0 <= i < |descs| ==> EndChecked(descs[i]).value <= end
    ensures end == 0 || exists i :: 0 <= i < |descs| && EndChecked(descs[i]).value == end
  {
    if descs == [] then 0
    else
      var n := |descs| - 1;
      assert forall i :: 0 <= i < n ==> descs[..n][i] == descs[i];
      var m, e := MaxEnd(descs[..n]), EndChecked(descs[n]).value;
      if e > m then e else m
  }

  predicate RangesOk(descs: seq<Descriptor>, fb: Framebuffer) {
    DescriptorsInRange(descs) && SpanInRange(fb.base, FramebufferBytes(fb))
  }

  function MaxIdentityEnd(descs: seq<Descriptor>, fb: Framebuffer): (end: u64)
    requires RangesOk(descs, fb)
    ensures end <= LOW_CANONICAL_LIMIT
  {
    var m, e := MaxEnd(descs), AlignUp(fb.base + FramebufferBytes(fb)).value;
    if e > m then e else m
  }

  function Need(descs: seq<Descriptor>, fb: Framebuffer): (pages: nat)
    requires RangesOk(descs, fb)
  {
    EstimatePages(MaxIdentityEnd(descs, fb))
  }

  /** Exactly when setup succeeds; `room` says that the map buffer takes one more descriptor.
      A pool that starts at address 0 fails, because 0 is also the allocator's failure value. */
  predicate SetupSucceeds(la57: bool, descs: seq<Descriptor>, fb: Framebuffer, room: bool) {
    && !la57
    && RangesOk(descs, fb)
    && var need := Need(descs, fb);
       var k := Lowest(descs, need);
       && k.Some?
       && (descs[k.value].pages == need || room)
       && PoolStart(descs[k.value], need) != 0
  }

  function SetupError(la57: bool, descs: seq<Descriptor>, fb: Framebuffer, room: bool): (e: PagingError) {
    if la57 then ErrLa57
    else if !RangesOk(descs, fb) then ErrRange
    else
      var need := Need(descs, fb);
      var k := Lowest(descs, need);
      if k.None? then ErrNoPool
      else if descs[k.value].pages != need && !room then ErrMapFull
      else PagingOk
  }

  function SpanOf(d: Descriptor): (sp: Span) {
    Span(d.start, d.pages * 4096, MemoryFlags(d.kind))
  }

  function DescriptorSpans(descs: seq<Descriptor>): (spans: seq<Span>) {
    if descs == [] then [] else DescriptorSpans(descs[..|descs| - 1]) + [SpanOf(descs[|descs| - 1])]
  }

  function FramebufferSpan(fb: Framebuffer): (sp: Span) {
    Span(fb.base, FramebufferBytes(fb), UNCACHED_FLAGS)
  }

  function AllSpans(descs: seq<Descriptor>, fb: Framebuffer): (spans: seq<Span>) {
    DescriptorSpans(descs) + [FramebufferSpan(fb)]
  }

  lemma {:induction false} DescriptorSpansAt(descs: seq<Descriptor>)
    ensures |DescriptorSpans(descs)| == |descs|
    ensures forall i :: 0 <= i < |descs| ==> DescriptorSpans(descs)[i] == SpanOf(descs[i])
  {
    if descs != [] {
      var n := |descs| - 1;
      DescriptorSpansAt(descs[..n]);
      assert forall i :: 0 <= i < n ==> descs[..n][i] == descs[i];
    }
  }

  lemma OnlyFramesTransitive(a: Memory, b: Memory, c: Memory, lo: nat, hi: nat)
    requires OnlyFrames(a, b, lo, hi) && OnlyFrames(b, c, lo, hi)
    ensures OnlyFrames(a, c, lo, hi)
  {
  }

  lemma OneFrame(a: Memory, frame: nat, lo: nat, hi: nat)
    ensures lo <= frame < hi ==> OnlyFrames(a, a[frame := ZeroPage()], lo, hi)
  {
  }

  lemma OnlyFramesReflexive(a: Memory, lo: nat, hi: nat)
    ensures OnlyFrames(a, a, lo, hi)
  {
  }

  /** The pages from `first` up to `next` have been mapped on top of `before`. */
  ghost predicate MappedUpTo(before: map<nat, Flags>, after: map<nat, Flags>, first: nat, next: nat, flags: Flags) {
    forall v: nat ::
      && (v in after <==> v in before || first <= v < next)
      && (v in after ==>
            after[v] == if first <= v < next then (if v in before then before[v].Or(flags) else flags) else before[v])
  }

  lemma MappedNone(before: map<nat, Flags>, first: nat, flags: Flags)
    ensures MappedUpTo(before, before, first, first, flags)
  {
  }

  lemma MappedOneMore(before: map<nat, Flags>, after: map<nat, Flags>, first: nat, next: nat, flags: Flags)
    requires MappedUpTo(before, after, first, next, flags) && first <= next
    ensures MappedUpTo(before, after[next := if next in after then after[next].Or(flags) else flags],
                       first, next + 1, flags)
  {
  }

  lemma MappedSpan(before: map<nat, Flags>, after: map<nat, Flags>, start: nat, bytes: nat, flags: Flags)
    requires bytes > 0
    requires MappedUpTo(before, after, start / 4096, DivRoundUp(start + bytes, 4096), flags)
    ensures Extended(before, after, Span(start, bytes, flags))
  {
    var sp := Span(start, bytes, flags);
    forall v: nat ensures Touches(sp, v) <==> start / 4096 <= v < DivRoundUp(start + bytes, 4096) {
    }
  }

  /** Everything `WriteLeaf` keeps, on values. */
  lemma LeafAdded(t: Tree, v: nat, flags: Flags, base: nat, count: nat, limit: nat, hi: nat)
    requires TablesFit(t, base, count, limit) && base + count <= hi
    requires Node(1, v / 512) in t.tables && flags.present
    requires v < limit && forall u :: u in t.leaves ==> u < limit
    ensures Placed(t) && t.tables[Node(1, v / 512)] in t.mem
    ensures t.mem[t.tables[Node(1, v / 512)]][v % 512] == LeafEntry(t, v) && (v in t.leaves ==> t.leaves[v].present)
    ensures var t' := WithLeaf(t, v, flags);
            && t' == t.(mem := t'.mem, leaves := t.leaves[v := flags])
            && t'.mem == t.mem[t.tables[Node(1, v / 512)] := t.mem[t.tables[Node(1, v / 512)]][v % 512 := Pte(v, flags)]]
            && TablesFit(t', base, count, limit)
            && OnlyFrames(t.mem, t'.mem, base, hi)
            && |t'.leaves| == |t.leaves| + (if v in t.leaves then 0 else 1)
            && |t'.leaves| <= limit
            && forall u :: u in t'.leaves ==> u < limit
  {
    hide InteriorOk, LeavesOk, Closed, Injective, InBounds;
    EntryAt(t, Node(1, v / 512), v % 512);
    assert v / 512 * 512 + v % 512 == v;
    WithLeafKeeps(t, v, flags);
    var t' := WithLeaf(t, v, flags);
    assert t'.leaves.Keys == if v in t.leaves then t.leaves.Keys else t.leaves.Keys + {v};
    CountPages(t'.leaves, limit);
  }

  /** A bump-used pool of whole pages. */
  predicate Geometry(start: u64, end: u64, next: u64, reserved: u64, used: u64) {
    && start % 4096 == 0
    && end == start + reserved * 4096 && 0 < reserved
    && next == start + used * 4096 && used <= reserved
  }

  // ----- the meaning of a successful setup

  /** Byte `a` lies in the firmware map or in the framebuffer. */
  predicate ByteNeeded(descs: seq<Descriptor>, fb: Framebuffer, a: int) {
    Covered(descs, a) || fb.base <= a < fb.base + FramebufferBytes(fb)
  }

  predicate InPage(v: nat, a: int) {
    v * 4096 <= a < v * 4096 + 4096
  }

  /** Page `v` contains a byte of the firmware map or of the framebuffer. */
  ghost predicate PageNeeded(descs: seq<Descriptor>, fb: Framebuffer, v: nat) {
    exists a :: InPage(v, a) && ByteNeeded(descs, fb, a)
  }

  /** Every linear address translates to itself when its page is needed, and faults otherwise. */
  ghost predicate IdentityMapped(mem: Memory, root: nat, descs: seq<Descriptor>, fb: Framebuffer) {
    forall va: u64 :: Translate(mem, root, va) == if PageNeeded(descs, fb, va / 4096) then Some(va) else None
  }

  /** Every address that translates is writable, no table link changes the caching of what lies below it,
      and the page is uncached exactly if it is a device page. */
  ghost predicate FullRights(mem: Memory, root: nat, descs: seq<Descriptor>, fb: Framebuffer) {
    forall va: u64 :: Translate(mem, root, va).Some? ==>
      var path := Path(mem, root, va);
      && Writable(mem, root, va)
      && (forall k :: 0 <= k < 3 ==> !path[k].flags.pwt && !path[k].flags.pcd)
      && (path[3].flags.Uncached() <==> DevicePage(descs, fb, va / 4096))
  }

  /** What the processor finds on the path of every mapped address. */
  lemma RightsTheorem(t: Tree, limit: nat, descs: seq<Descriptor>, now: seq<Descriptor>, fb: Framebuffer)
    requires WellFormed(t) && limit <= 0x8_0000_0000 && forall v :: v in t.leaves ==> v < limit
    requires CarvedFrom(descs, now, fb) && Realises(t.leaves, AllSpans(now, fb))
    ensures FullRights(t.mem, t.root, descs, fb)
  {
    hide WellFormed, Walk, Realises, CarvedFrom, AllSpans, DevicePage, PathFrom;
    forall va: u64 | Translate(t.mem, t.root, va).Some?
      ensures var path := Path(t.mem, t.root, va);
              && Writable(t.mem, t.root, va)
              && (forall k :: 0 <= k < 3 ==> !path[k].flags.pwt && !path[k].flags.pcd)
              && (path[3].flags.Uncached() <==> DevicePage(descs, fb, va / 4096))
    {
      var low := va % 0x1_0000_0000_0000;
      WalkIsIdentity(t, low);
      assert low == va;
      RightsOfLeaf(t, low);
      UncachedAreDevices(t.leaves, descs, now, fb, va / 4096);
    }
  }

  predicate InSpan(sp: Span, a: int) {
    sp.start <= a < sp.start + sp.bytes
  }

  lemma TouchesByte(sp: Span, v: nat) returns (a: int)
    requires Touches(sp, v)
    ensures InPage(v, a) && InSpan(sp, a)
  {
    a := if sp.start > v * 4096 then sp.start else v * 4096;
  }

  lemma SpansTouchBytes(descs: seq<Descriptor>, fb: Framebuffer, v: nat)
    ensures Touched(AllSpans(descs, fb), v) <==> PageNeeded(descs, fb, v)
  {
    var spans := AllSpans(descs, fb);
    DescriptorSpansAt(descs);
    if Touched(spans, v) {
      var i :| 0 <= i < |spans| && Touches(spans[i], v);
      var a := TouchesByte(spans[i], v);
      if i < |descs| {
        assert Holds(descs[i], a);
      }
      assert ByteNeeded(descs, fb, a);
    }
    if PageNeeded(descs, fb, v) {
      var a :| InPage(v, a) && ByteNeeded(descs, fb, a);
      if Covered(descs, a) {
        var i :| 0 <= i < |descs| && Holds(descs[i], a);
        assert Touches(spans[i], v);
      } else {
        assert Touches(spans[|descs|], v);
      }
    }
  }

  /** Mapping the carved map maps what the firmware's own map asked for. */
  lemma NeededIffTouched(descs: seq<Descriptor>, now: seq<Descriptor>, fb: Framebuffer, v: nat)
    requires CarvedFrom(descs, now, fb)
    ensures Touched(AllSpans(now, fb), v) <==> PageNeeded(descs, fb, v)
  {
    hide Carved, AllSpans, Touched, Need;
    SpansTouchBytes(now, fb, v);
    var need := Need(descs, fb);
    forall a ensures ByteNeeded(now, fb, a) <==> ByteNeeded(descs, fb, a) {
      CarveCoversSame(descs, Lowest(descs, need).value, need, a);
    }
  }

  lemma IdentityTheorem(t: Tree, limit: nat, descs: seq<Descriptor>, fb: Framebuffer)
    requires WellFormed(t) && limit <= 0x8_0000_0000 && forall v :: v in t.leaves ==> v < limit
    requires forall v: nat :: v in t.leaves <==> PageNeeded(descs, fb, v)
    ensures IdentityMapped(t.mem, t.root, descs, fb)
  {
    hide WellFormed, PageNeeded, Translate;
    forall va: u64 ensures Translate(t.mem, t.root, va) == if PageNeeded(descs, fb, va / 4096) then Some(va) else None {
      TranslatesLeaves(t, limit, va);
    }
  }

  /** In a tree over low pages an address translates to itself exactly if its page is a leaf. */
  lemma TranslatesLeaves(t: Tree, limit: nat, va: u64)
    requires WellFormed(t) && limit <= 0x8_0000_0000 && forall v :: v in t.leaves ==> v < limit
    ensures Translate(t.mem, t.root, va) == if va / 4096 in t.leaves then Some(va) else None
  {
    hide WellFormed, Walk;
    if Canonical(va) {
      WalkIsIdentity(t, va % 0x1_0000_0000_0000);
    }
  }

  /** Every byte of every pixel of a framebuffer that gives no size of its own can be written at its address. */
  lemma PixelsAreMapped(mem: Memory, root: nat, descs: seq<Descriptor>, fb: Framebuffer, x: nat, y: nat, byte: nat, a: nat)
    requires RangesOk(descs, fb) && IdentityMapped(mem, root, descs, fb) && FullRights(mem, root, descs, fb)
    requires fb.size == 0 && fb.stride * fb.height * 4 <= U64_MAX && x < fb.stride && y < fb.height && byte < 4
    requires a == fb.base + 4 * (y * fb.stride + x) + byte
    ensures a <= U64_MAX && Translate(mem, root, a) == Some(a) && Writable(mem, root, a) && DevicePage(descs, fb, a / 4096)
  {
    hide Writable, Translate, Path, RangesOk, FramebufferBytes, PageNeeded, DevicePage;
    PixelInside(fb, x, y, byte);
    FramebufferByte(descs, fb, a - fb.base);
  }

  lemma PixelInside(fb: Framebuffer, x: nat, y: nat, byte: nat)
    requires fb.size == 0 && fb.stride * fb.height * 4 <= U64_MAX && x < fb.stride && y < fb.height && byte < 4
    ensures 0 <= 4 * (y * fb.stride + x) + byte < FramebufferBytes(fb)
  {
    RowInside(fb.stride, fb.height, y);
  }

  lemma RowInside(stride: nat, height: nat, y: nat)
    requires y < height
    ensures y * stride + stride <= stride * height
  {
    assert (y + 1) * stride <= height * stride;
  }

  lemma FramebufferByte(descs: seq<Descriptor>, fb: Framebuffer, offset: nat)
    requires RangesOk(descs, fb) && offset < FramebufferBytes(fb)
    ensures var a := fb.base + offset; a <= U64_MAX && PageNeeded(descs, fb, a / 4096) && DevicePage(descs, fb, a / 4096)
  {
    var a := fb.base + offset;
    assert InPage(a / 4096, a) && ByteNeeded(descs, fb, a);
  }

  /** A range accepted by `memory_map_contains_range` translates to itself byte for byte. */
  lemma AcceptedRangeTranslates(mem: Memory, root: nat, descs: seq<Descriptor>, now: seq<Descriptor>, fb: Framebuffer,
                                start: u64, length: u64, a: u64)
    requires CarvedFrom(descs, now, fb) && IdentityMapped(mem, root, descs, fb)
    requires Contains(now, start, length) && start <= a < start + length
    ensures Translate(mem, root, a) == Some(a)
  {
    var i :| 0 <= i < |now| && HoldsRange(now[i], start, length);
    assert Holds(now[i], a);
    var need := Need(descs, fb);
    CarveCoversSame(descs, Lowest(descs, need).value, need, a);
    assert ByteNeeded(descs, fb, a);
    assert InPage(a / 4096, a);
  }

  /** The page tables can be edited through the map they define. */
  lemma PoolIsMapped(mem: Memory, root: nat, descs: seq<Descriptor>, fb: Framebuffer, start: u64, end: u64, pages: u64, a: u64)
    requires PoolIs(descs, fb, start, end, pages) && IdentityMapped(mem, root, descs, fb)
    requires start <= a < end
    ensures Translate(mem, root, a) == Some(a)
  {
    LowestIsLowest(descs, pages);
    var k := Lowest(descs, pages).value;
    assert Holds(descs[k], a);
    assert ByteNeeded(descs, fb, a);
    assert InPage(a / 4096, a);
  }

  predicate IsDevice(d: Descriptor) {
    d.kind == EFI_MEMORY_MAPPED_IO || d.kind == EFI_MEMORY_MAPPED_IO_PORT_SPACE
  }

  /** Page `v` overlaps a memory-mapped I/O range of the firmware map or the framebuffer. */
  predicate DevicePage(descs: seq<Descriptor>, fb: Framebuffer, v: nat) {
    Touches(FramebufferSpan(fb), v) || exists i :: 0 <= i < |descs| && IsDevice(descs[i]) && Touches(SpanOf(descs[i]), v)
  }

  /** Cache-disabled pages are exactly the device pages of the firmware's own map. */
  lemma UncachedAreDevices(leaves: map<nat, Flags>, descs: seq<Descriptor>, now: seq<Descriptor>, fb: Framebuffer, v: nat)
    requires CarvedFrom(descs, now, fb) && Realises(leaves, AllSpans(now, fb)) && v in leaves
    ensures leaves[v].Uncached() <==> DevicePage(descs, fb, v)
    ensures leaves[v].present && leaves[v].rw
  {
    hide Carved, CarvedFrom, FlagsAt;
    var spans := AllSpans(now, fb);
    DescriptorSpansAt(now);
    UncachedExactly(spans, v);
    CarvedDevices(descs, now, fb);
    if leaves[v].pcd {
      var i :| 0 <= i < |spans| && Touches(spans[i], v) && spans[i].flags.pcd;
      assert i < |now| ==> IsDevice(now[i]);
    }
    if DevicePage(descs, fb, v) {
      if Touches(FramebufferSpan(fb), v) {
        assert Touches(spans[|now|], v);
      } else {
        var i :| 0 <= i < |descs| && IsDevice(descs[i]) && Touches(SpanOf(descs[i]), v);
        assert Touches(spans[i], v);
      }
    }
    var j :| 0 <= j < |spans| && Touches(spans[j], v);
    AllReadWrite(spans, v, j);
  }

  /** Carving neither adds nor removes a device descriptor. */
  lemma CarvedDevices(descs: seq<Descriptor>, now: seq<Descriptor>, fb: Framebuffer)
    requires CarvedFrom(descs, now, fb)
    ensures |descs| <= |now|
    ensures forall i :: 0 <= i < |now| && IsDevice(now[i]) ==> i < |descs| && descs[i] == now[i]
    ensures forall i :: 0 <= i < |descs| && IsDevice(descs[i]) ==> now[i] == descs[i]
  {
    LowestIsLowest(descs, Need(descs, fb));
  }

  lemma {:induction false} AllReadWrite(spans: seq<Span>, v: nat, j: nat)
    requires j < |spans| && Touches(spans[j], v) && spans[j].flags.rw && spans[j].flags.present
    ensures FlagsAt(spans, v).rw && FlagsAt(spans, v).present
  {
    FlagsAtRemove(spans, j, v);
  }

  /** `paging_info_t` together with the physical memory it manages. */
  class KernelPaging {
    var mem: Memory
    var cr3: u64
    var loadedCr3: u64
    var poolStart: u64
    var poolEnd: u64
    var poolNext: u64
    var maxIdentityEnd: u64
    var reservedPages: u64
    var allocatedPages: u64
    var mappedPages: u64
    var mappedRanges: nat
    var error: PagingError
    ghost var tables: map<Node, nat>
    ghost var leaves: map<nat, Flags>
    ghost var pageLimit: nat

    ghost predicate PoolOk()
      reads `poolStart, `poolEnd, `poolNext, `reservedPages, `allocatedPages
    {
      Geometry(poolStart, poolEnd, poolNext, reservedPages, allocatedPages)
    }

    ghost function View(): Tree
      reads `mem, `cr3, `tables, `leaves
    {
      Tree(mem, cr3 / 4096, tables, leaves)
    }

    ghost predicate TablesOk()
      reads `mem, `cr3, `tables, `leaves, `poolStart, `allocatedPages, `pageLimit
    {
      cr3 % 4096 == 0 && TablesFit(View(), poolStart / 4096, allocatedPages, pageLimit)
    }

    ghost predicate Valid()
      reads `mem, `cr3, `tables, `leaves, `poolStart, `poolEnd, `poolNext, `reservedPages, `allocatedPages
      reads `pageLimit, `mappedPages
    {
      && PoolOk() && 0 < poolStart && TablesOk()
      && pageLimit <= 0x8_0000_0000
      && mappedPages == |leaves| && (forall v :: v in leaves ==> v < pageLimit)
    }

    /** The pool was sized for all pages below the limit. */
    ghost predicate Roomy()
      reads `pageLimit, `reservedPages
    {
      TableBound(pageLimit) + 16 <= reservedPages
    }

    ghost predicate Exhausted()
      reads `allocatedPages, `reservedPages, `error
    {
      allocatedPages == reservedPages && error == ErrPoolEmpty
    }

    method AllocPage() returns (phys: u64)
      requires PoolOk()
      modifies `mem, `poolNext, `allocatedPages, `error
      ensures PoolOk()
      ensures old(allocatedPages) == reservedPages ==>
        phys == 0 && error == ErrPoolEmpty && mem == old(mem) && allocatedPages == old(allocatedPages)
      ensures old(allocatedPages) < reservedPages ==>
        && phys == old(poolNext) && error == old(error) && allocatedPages == old(allocatedPages) + 1
        && mem == old(mem)[phys / 4096 := ZeroPage()]
    {
      if poolNext > poolEnd - 4096 {
        error := ErrPoolEmpty;
        return 0;
      }
      phys := poolNext;
      poolNext := poolNext + 4096;
      allocatedPages := allocatedPages + 1;
      mem := mem[phys / 4096 := ZeroPage()];
    }

    /** The estimate leaves room for one more table as long as it serves a page below the limit. */
    lemma RoomForTable(n: Node)
      requires Valid() && Roomy() && n !in tables && 1 <= n.level <= 3 && Serves(n, pageLimit)
      ensures allocatedPages + 17 <= reservedPages
    {
      CountPrefixes(tables[n := 0], pageLimit);
    }

    lemma PoolFrames()
      requires PoolOk()
      ensures poolNext % 4096 == 0 && poolNext / 4096 == poolStart / 4096 + allocatedPages && poolStart <= poolNext
      ensures poolEnd / 4096 == poolStart / 4096 + reservedPages && allocatedPages <= reservedPages
    {
    }

    /** Writes the entry that links the zeroed frame of `phys` below node `n` of the tree `t`. */
    method AttachTable(table: u64, index: nat, phys: u64, ghost t: Tree, ghost n: Node)
      requires Placed(t) && n in t.tables && t.tables[n] == table / 4096 && phys / 4096 != t.tables[n]
      requires n.level > 1 && index < 512
      requires mem == t.mem[phys / 4096 := ZeroPage()]
      modifies `mem, `tables
      ensures Tree(mem, t.root, tables, t.leaves) == WithTable(t, n, index, phys / 4096)
    {
      mem := mem[table / 4096 := mem[table / 4096][index := Pte(phys / 4096, TABLE_FLAGS)]];
      tables := t.tables[Child(n, index) := phys / 4096];
    }

    /** Allocates a table and links it below node `n`. */
    method LinkTable(table: u64, ghost n: Node, index: nat) returns (ok: bool, next: u64)
      requires PoolOk() && 0 < poolStart && TablesOk()
      requires table % 4096 == 0 && n in tables && tables[n] == table / 4096
      requires n.level > 1 && index < 512 && Child(n, index) !in tables
      requires Serves(Child(n, index), pageLimit)
      modifies `mem, `poolNext, `allocatedPages, `error, `tables
      ensures PoolOk() && TablesOk() && (ok <==> old(allocatedPages) < reservedPages)
      ensures ok ==> error == old(error) && next % 4096 == 0 && tables == old(tables)[Child(n, index) := next / 4096]
      ensures !ok ==> Exhausted() && mem == old(mem) && tables == old(tables)
      ensures OnlyFrames(old(mem), mem, poolStart / 4096, poolEnd / 4096)
    {
      hide WellFormed, TablesFit, OnlyFrames, Compact, Serves, Placed, ZeroPage;
      ghost var t := View();
      PoolFrames();
      OnlyFramesReflexive(mem, poolStart / 4096, poolEnd / 4096);
      if allocatedPages < reservedPages {
        TableAdded(t, n, index, poolStart / 4096, allocatedPages, pageLimit, poolEnd / 4096);
      }
      hide Geometry;
      var phys := AllocPage();
      ok, next := false, 0;
      if phys != 0 {
        AttachTable(table, index, phys, t, n);
        ok, next := true, phys;
      }
    }

    /** `ensure_next_table`: fails exactly if a table is missing and the pool is used up. */
    method EnsureNextTable(table: u64, ghost n: Node, index: nat) returns (ok: bool, next: u64)
      requires Valid() && table % 4096 == 0 && n in tables && tables[n] == table / 4096
      requires n.level > 1 && index < 512
      requires Serves(Child(n, index), pageLimit)
      modifies `mem, `poolNext, `allocatedPages, `error, `tables
      ensures Valid() && (ok <==> Child(n, index) in old(tables) || old(allocatedPages) < reservedPages) && (Roomy() ==> ok)
      ensures ok ==> error == old(error) && next % 4096 == 0 && Child(n, index) in tables && tables[Child(n, index)] == next / 4096
      ensures !ok ==> Exhausted() && mem == old(mem) && tables == old(tables)
      ensures forall m :: m in old(tables) ==> m in tables && tables[m] == old(tables)[m]
      ensures OnlyFrames(old(mem), mem, poolStart / 4096, poolEnd / 4096)
    {
      hide InteriorOk, LeavesOk, Closed, Injective, OnlyFrames, TableBound, InBounds;
      OnlyFramesReflexive(mem, poolStart / 4096, poolEnd / 4096);
      EntryAt(View(), n, index);
      PoolFrames();
      var entry := mem[table / 4096][index];
      if IsPresent(entry) {
        ok, next := true, EntryAddress(entry, poolEnd);
      } else {
        if Roomy() {
          RoomForTable(Child(n, index));
        }
        ok, next := LinkTable(table, n, index);
      }
    }

    /** The leaf write of `map_identity_range_4k`. */
    method WriteLeaf(pt: u64, addr: u64, flags: Flags) returns (ok: bool)
      requires Valid() && addr % 4096 == 0 && addr / 4096 < pageLimit && flags.present
      requires pt % 4096 == 0 && Node(1, addr / 4096 / 512) in tables && tables[Node(1, addr / 4096 / 512)] == pt / 4096
      modifies `mem, `mappedPages, `error, `leaves
      ensures Valid() && ok && error == old(error)
      ensures var v := addr / 4096;
              leaves == old(leaves)[v := if v in old(leaves) then old(leaves)[v].Or(flags) else flags]
      ensures OnlyFrames(old(mem), mem, poolStart / 4096, poolEnd / 4096)
    {
      hide WellFormed, TablesFit, OnlyFrames, Geometry, TableBound, Placed, WithLeaf;
      ghost var t, v := View(), addr / 4096;
      var index := addr / 0x1000 % 512;
      PoolFrames();
      ghost var now := if v in leaves then leaves[v].Or(flags) else flags;
      LeafAdded(t, v, now, poolStart / 4096, allocatedPages, pageLimit, poolEnd / 4096);
      var entry := mem[pt / 4096][index];
      var clash := IsPresent(entry) && entry.frame != addr / 4096;
      error := if clash then ErrTableEntry else error;
      ok := !clash;
      if IsPresent(entry) && !clash {
        mem := mem[pt / 4096 := mem[pt / 4096][index := Pte(entry.frame, entry.flags.Or(flags))]];
        leaves := leaves[v := now];
        assert View() == WithLeaf(t, v, now);
      } else if !IsPresent(entry) {
        mem := mem[pt / 4096 := mem[pt / 4096][index := Pte(addr / 4096, flags)]];
        mappedPages := mappedPages + 1;
        leaves := leaves[v := now];
        assert View() == WithLeaf(t, v, now);
      }
    }

    /** The limit after mapping pages below `end`. */
    ghost function Raised(end: nat): (limit: nat)
      reads `pageLimit
    {
      if end > pageLimit then end else pageLimit
    }

    /** `map_identity_range_4k`: a range outside the low canonical half is refused; any other is mapped whole
        if the pool was sized for it, and otherwise up to the page for which the pool had no table left. */
    method MapRange(start: u64, bytes: u64, flags: Flags) returns (ok: bool)
      requires Valid() && flags.present
      modifies `mem, `poolNext, `allocatedPages, `error, `tables, `mappedPages, `leaves, `mappedRanges, `pageLimit
      ensures Valid() && OnlyFrames(old(mem), mem, poolStart / 4096, poolEnd / 4096)
      ensures pageLimit == if bytes != 0 && SpanInRange(start, bytes) then old(Raised(DivRoundUp(start + bytes, 4096))) else old(pageLimit)
      ensures ok ==> bytes == 0 || SpanInRange(start, bytes)
      ensures Roomy() && (bytes == 0 || SpanInRange(start, bytes)) ==> ok
      ensures ok ==> error == old(error) && Extended(old(leaves), leaves, Span(start, bytes, flags))
      ensures bytes != 0 && !SpanInRange(start, bytes) ==> error == ErrRange && leaves == old(leaves)
      ensures !ok && SpanInRange(start, bytes) ==>
                Exhausted() && exists stop :: start / 4096 <= stop < DivRoundUp(start + bytes, 4096)
                                              && MappedUpTo(old(leaves), leaves, start / 4096, stop, flags)
    {
      hide InteriorOk, LeavesOk, Closed, Injective, Compact, TableBound, OnlyFrames, Geometry, TablesFit, MappedUpTo;
      OnlyFramesReflexive(mem, poolStart / 4096, poolEnd / 4096);
      if bytes == 0 {
        return true;
      }
      if start > U64_MAX - bytes {
        error := ErrRange;
        return false;
      }
      var rawEnd := start + bytes;
      var mapEnd := AlignUp(rawEnd);
      if mapEnd.None? || mapEnd.value > LOW_CANONICAL_LIMIT {
        error := ErrRange;
        return false;
      }
      mappedRanges := mappedRanges + 1;
      Raise(mapEnd.value / 4096);
      ok := MapPages(start / 4096 * 4096, mapEnd.value, flags);
      if ok {
        MappedSpan(old(leaves), leaves, start, bytes, flags);
      }
    }

    /** A greater limit is a weaker invariant. */
    ghost method Raise(end: nat)
      requires Valid() && end <= 0x8_0000_0000
      modifies `pageLimit
      ensures Valid() && pageLimit == old(Raised(end))
    {
      hide WellFormed, Geometry;
      pageLimit := Raised(end);
    }

    /** The loop of `map_identity_range_4k`. */
    method MapPages(mapStart: u64, mapEnd: u64, flags: Flags) returns (ok: bool)
      requires Valid() && flags.present
      requires mapStart % 4096 == 0 && mapEnd % 4096 == 0 && mapStart <= mapEnd && mapEnd / 4096 <= pageLimit
      modifies `mem, `poolNext, `allocatedPages, `error, `tables, `mappedPages, `leaves
      ensures Valid() && (Roomy() ==> ok) && (if ok then error == old(error) else Exhausted())
      ensures ok ==> MappedUpTo(old(leaves), leaves, mapStart / 4096, mapEnd / 4096, flags)
      ensures !ok ==> exists stop :: mapStart / 4096 <= stop < mapEnd / 4096
                                     && MappedUpTo(old(leaves), leaves, mapStart / 4096, stop, flags)
      ensures OnlyFrames(old(mem), mem, poolStart / 4096, poolEnd / 4096)
    {
      hide Valid, Roomy, Exhausted, OnlyFrames, MappedUpTo;
      ghost var lo, hi, m0, l0, first := poolStart / 4096, poolEnd / 4096, mem, leaves, mapStart / 4096;
      OnlyFramesReflexive(m0, lo, hi);
      MappedNone(l0, first, flags);
      var addr: u64 := mapStart;
      while addr < mapEnd
        invariant Valid() && error == old(error)
        invariant addr % 4096 == 0 && mapStart <= addr <= mapEnd
        invariant MappedUpTo(l0, leaves, first, addr / 4096, flags)
        invariant OnlyFrames(m0, mem, lo, hi)
        decreases mapEnd - addr
      {
        ghost var m1, l1 := mem, leaves;
        ok := MapPage(addr, flags);
        OnlyFramesTransitive(m0, m1, mem, lo, hi);
        if !ok {
          return;
        }
        MappedOneMore(l0, l1, first, addr / 4096, flags);
        addr := addr + 4096;
      }
      ok := true;
    }

    lemma RootFacts()
      requires Valid()
      ensures ROOT in tables && tables[ROOT] == cr3 / 4096 && cr3 % 4096 == 0 && pageLimit <= 0x8_0000_0000
    {
    }

    /** One iteration of the loop of `map_identity_range_4k`. */
    method MapPage(addr: u64, flags: Flags) returns (ok: bool)
      requires Valid() && addr % 4096 == 0 && addr / 4096 < pageLimit && flags.present
      modifies `mem, `poolNext, `allocatedPages, `error, `tables, `mappedPages, `leaves
      ensures Valid() && (Roomy() ==> ok) && (if ok then error == old(error) else Exhausted())
      ensures var v := addr / 4096;
              leaves == if ok then old(leaves)[v := if v in old(leaves) then old(leaves)[v].Or(flags) else flags] else old(leaves)
      ensures OnlyFrames(old(mem), mem, poolStart / 4096, poolEnd / 4096)
    {
      hide Valid, Roomy, Exhausted, OnlyFrames, Child, Serves, Pml4Index, PdptIndex, PdIndex;
      RootFacts();
      var i4, i3, i2 := Pml4Index(addr), PdptIndex(addr), PdIndex(addr);
      ghost var n3, n2, n1 := PathNodes(addr, pageLimit);
      ghost var lo, hi, m0 := poolStart / 4096, poolEnd / 4096, mem;
      var pdpt, pd, pt;
      ok, pdpt := EnsureNextTable(cr3, ROOT, i4);
      if ok {
        ghost var m1 := mem;
        ok, pd := EnsureNextTable(pdpt, n3, i3);
        OnlyFramesTransitive(m0, m1, mem, lo, hi);
        if ok {
          ghost var m2 := mem;
          ok, pt := EnsureNextTable(pd, n2, i2);
          OnlyFramesTransitive(m0, m2, mem, lo, hi);
          if ok {
            ghost var m3 := mem;
            ok := WriteLeaf(pt, addr, flags);
            OnlyFramesTransitive(m0, m3, mem, lo, hi);
          }
        }
      }
    }

    /** The first loop of `setup_kernel_paging`. */
    method ScanDescriptors(fw: FirmwareMap) returns (maxEnd: Option<u64>)
      ensures maxEnd == if DescriptorsInRange(fw.descs) then Some(MaxEnd(fw.descs)) else None
    {
      var end: u64 := 0;
      var i := 0;
      while i < |fw.descs|
        invariant 0 <= i <= |fw.descs|
        invariant DescriptorsInRange(fw.descs[..i]) && end == MaxEnd(fw.descs[..i])
      {
        var e := EndChecked(fw.descs[i]);
        if e.None? || e.value > LOW_CANONICAL_LIMIT {
          return None;
        }
        assert fw.descs[..i + 1][..i] == fw.descs[..i];
        assert fw.descs[..i + 1][i] == fw.descs[i];
        if e.value > end {
          end := e.value;
        }
        i := i + 1;
      }
      assert fw.descs[..i] == fw.descs;
      return Some(end);
    }

    /** The scan of `select_page_table_pool`. */
    method FindPool(fw: FirmwareMap, need: nat) returns (bad: bool, k: Option<nat>)
      ensures bad <==> exists i :: 0 <= i < |fw.descs| && Eligible(fw.descs[i], need) && EndChecked(fw.descs[i]).None?
      ensures !bad ==> k == Lowest(fw.descs, need)
    {
      k := None;
      var i := 0;
      while i < |fw.descs|
        invariant 0 <= i <= |fw.descs|
        invariant forall j :: 0 <= j < i && Eligible(fw.descs[j], need) ==> EndChecked(fw.descs[j]).Some?
        invariant k == Lowest(fw.descs[..i], need)
      {
        var d := fw.descs[i];
        assert fw.descs[..i + 1][..i] == fw.descs[..i];
        if Eligible(d, need) {
          if EndChecked(d).None? {
            return true, None;
          }
          if k.None? || d.start < fw.descs[k.value].start {
            k := Some(i);
          }
        }
        i := i + 1;
      }
      assert fw.descs[..i] == fw.descs;
      bad := false;
    }

    /** `select_page_table_pool`.  When the map is full the source descriptor has already shrunk. */
    method SelectPool(fw: FirmwareMap, need: u64) returns (ok: bool)
      modifies fw`descs, `poolStart, `poolEnd, `poolNext, `reservedPages, `error
      ensures forall i :: 0 <= i < |old(fw.descs)| ==> Eligible(old(fw.descs)[i], need) && EndChecked(old(fw.descs)[i]).None? ==>
                !ok && error == ErrRange && fw.descs == old(fw.descs)
      ensures (forall i :: 0 <= i < |old(fw.descs)| && Eligible(old(fw.descs)[i], need) ==> EndChecked(old(fw.descs)[i]).Some?) ==>
        match Lowest(old(fw.descs), need)
        case None => !ok && error == ErrNoPool && fw.descs == old(fw.descs)
        case Some(k) =>
          var d := old(fw.descs)[k];
          && EndChecked(d).Some? && need <= d.pages
          && poolStart == PoolStart(d, need) && poolNext == poolStart && reservedPages == need
          && poolEnd == poolStart + need * 4096
          && (ok <==> d.pages == need || fw.HasRoom(|old(fw.descs)|))
          && error == (if ok then old(error) else ErrMapFull)
          && fw.descs == if ok then Carved(old(fw.descs), k, need)
                          else old(fw.descs)[k := d.(pages := d.pages - need)]
    {
      var bad, k := FindPool(fw, need);
      if bad {
        error := ErrRange;
        return false;
      }
      if k.None? {
        error := ErrNoPool;
        return false;
      }
      LowestIsLowest(fw.descs, need);
      var d := fw.descs[k.value];
      poolEnd := EndChecked(d).value;
      poolStart := poolEnd - need * 4096;
      poolNext := poolStart;
      reservedPages := need;
      if d.pages == need {
        fw.descs := fw.descs[k.value := d.(kind := EFI_LOADER_DATA)];
        return true;
      }
      fw.descs := fw.descs[k.value := d.(pages := d.pages - need)];
      ok := fw.Append(Descriptor(EFI_LOADER_DATA, poolStart, 0, need, d.attribute));
      if !ok {
        error := ErrMapFull;
      }
    }

    /** The two mapping calls of `setup_kernel_paging`: every descriptor, then the framebuffer. */
    method MapAll(fw: FirmwareMap, fb: Framebuffer) returns (ok: bool)
      requires Valid() && Roomy() && leaves == map[] && RangesOk(fw.descs, fb)
      requires DivRoundUp(MaxIdentityEnd(fw.descs, fb), 4096) <= pageLimit
      modifies `mem, `poolNext, `allocatedPages, `error, `tables, `mappedPages, `leaves, `mappedRanges, `pageLimit
      ensures Valid() && ok && error == old(error) && pageLimit == old(pageLimit)
      ensures Realises(leaves, AllSpans(fw.descs, fb))
      ensures OnlyFrames(old(mem), mem, poolStart / 4096, poolEnd / 4096)
    {
      hide Valid, OnlyFrames, Realises, Extended, MaxEnd, AlignUp, TableBound, FramebufferBytes;
      ghost var lo, hi, m0 := poolStart / 4096, poolEnd / 4096, mem;
      OnlyFramesReflexive(m0, lo, hi);
      RealisesNothing();
      var i := 0;
      ok := true;
      while i < |fw.descs| && ok
        invariant 0 <= i <= |fw.descs| && Valid() && ok && error == old(error) && pageLimit == old(pageLimit)
        invariant Realises(leaves, DescriptorSpans(fw.descs[..i]))
        invariant OnlyFrames(m0, mem, lo, hi)
      {
        var d := fw.descs[i];
        ghost var m1, l1 := mem, leaves;
        DescriptorSpanInRange(fw.descs, fb, i);
        ok := MapRange(d.start, d.pages * 4096, MemoryFlags(d.kind));
        OnlyFramesTransitive(m0, m1, mem, lo, hi);
        RealisesMore(l1, leaves, DescriptorSpans(fw.descs[..i]), SpanOf(d));
        assert fw.descs[..i + 1][..i] == fw.descs[..i];
        i := i + 1;
      }
      assert fw.descs[..i] == fw.descs;
      if ok {
        ghost var m1, l1 := mem, leaves;
        ok := MapRange(fb.base, FramebufferBytes(fb), UNCACHED_FLAGS);
        OnlyFramesTransitive(m0, m1, mem, lo, hi);
        RealisesMore(l1, leaves, DescriptorSpans(fw.descs), FramebufferSpan(fb));
      }
    }

    /** Allocates the root table of the page map. */
    method StartTree() returns (ok: bool)
      requires PoolOk() && allocatedPages == 0 && mappedPages == 0 && cr3 == 0
      requires TableBound(pageLimit) + 16 <= reservedPages && pageLimit <= 0x8_0000_0000
      modifies `mem, `poolNext, `allocatedPages, `error, `cr3, `tables, `leaves
      ensures ok <==> poolStart != 0
      ensures error == old(error) && leaves == map[]
      ensures ok ==> Valid() && Roomy() && cr3 == poolStart && OnlyFrames(old(mem), mem, poolStart / 4096, poolEnd / 4096)
    {
      hide WellFormed, TableBound, ZeroPage, OnlyFrames;
      PoolFrames();
      leaves := map[];
      cr3 := AllocPage();
      EmptyTree(old(mem), cr3 / 4096);
      OneFrame(old(mem), cr3 / 4096, poolStart / 4096, poolEnd / 4096);
      hide Geometry;
      tables := map[ROOT := cr3 / 4096];
      ok := cr3 != 0;
    }

    /** `setup_kernel_paging`. */
    method Setup(fw: FirmwareMap, fb: Framebuffer, la57: bool) returns (ok: bool)
      requires Aligned(fw.descs)
      modifies this, fw`descs
      ensures ok <==> SetupSucceeds(la57, old(fw.descs), fb, fw.HasRoom(|old(fw.descs)|))
      ensures error == SetupError(la57, old(fw.descs), fb, fw.HasRoom(|old(fw.descs)|))
      ensures ok ==> Valid() && Roomy() && cr3 == poolStart && loadedCr3 == cr3
      ensures ok ==> CarvedFrom(old(fw.descs), fw.descs, fb) && Realises(leaves, AllSpans(fw.descs, fb))
      ensures ok ==> PoolIs(old(fw.descs), fb, poolStart, poolEnd, reservedPages)
      ensures ok ==> OnlyFrames(old(mem), mem, poolStart / 4096, poolEnd / 4096)
      ensures ok ==> IdentityMapped(mem, cr3 / 4096, old(fw.descs), fb) && FullRights(mem, cr3 / 4096, old(fw.descs), fb)
      ensures ok ==> poolNext == poolStart + 4096 * allocatedPages && allocatedPages + 16 <= reservedPages
      ensures ok ==> mappedPages == |leaves| && forall v: nat :: v in leaves <==> PageNeeded(old(fw.descs), fb, v)
    {
      hide OnlyFrames, Realises, Valid, IdentityMapped, FullRights, PageNeeded, EstimatePages, CarvedFrom, PoolIs, Lowest, AllSpans;
      hide RangesOk, MaxIdentityEnd, Aligned;
      cr3, loadedCr3, poolStart, poolEnd, poolNext, maxIdentityEnd := 0, 0, 0, 0, 0, 0;
      reservedPages, allocatedPages, mappedPages, mappedRanges, error := 0, 0, 0, 0, PagingOk;
      if la57 {
        error := ErrLa57;
        return false;
      }
      var maxEnd := CheckRanges(fw, fb);
      if maxEnd.None? {
        error := ErrRange;
        return false;
      }
      maxIdentityEnd := maxEnd.value;
      EstimateFits(maxIdentityEnd);
      ok := Build(fw, fb, EstimatePages(maxIdentityEnd));
      if ok {
        loadedCr3 := cr3;
        ValidUsage(old(fw.descs), fw.descs, fb);
      }
    }

    /** The range checks of `setup_kernel_paging`. */
    method CheckRanges(fw: FirmwareMap, fb: Framebuffer) returns (maxEnd: Option<u64>)
      ensures maxEnd == if RangesOk(fw.descs, fb) then Some(MaxIdentityEnd(fw.descs, fb)) else None
    {
      maxEnd := ScanDescriptors(fw);
      if maxEnd.None? {
        return;
      }
      var fbBytes := FramebufferBytes(fb);
      if fb.base > U64_MAX - fbBytes {
        return None;
      }
      var fbEnd := AlignUp(fb.base + fbBytes);
      if fbEnd.None? || fbEnd.value > LOW_CANONICAL_LIMIT {
        return None;
      }
      if fbEnd.value > maxEnd.value {
        maxEnd := fbEnd;
      }
    }

    /** What a successfully built map amounts to. */
    lemma ValidUsage(descs: seq<Descriptor>, now: seq<Descriptor>, fb: Framebuffer)
      requires Valid() && Roomy() && CarvedFrom(descs, now, fb) && Aligned(descs) && Realises(leaves, AllSpans(now, fb))
      ensures IdentityMapped(mem, cr3 / 4096, descs, fb)
      ensures poolNext == poolStart + 4096 * allocatedPages && allocatedPages + 16 <= reservedPages
      ensures mappedPages == |leaves| && forall v: nat :: v in leaves <==> PageNeeded(descs, fb, v)
      ensures FullRights(mem, cr3 / 4096, descs, fb)
    {
      hide FullRights, InteriorOk, LeavesOk, Closed, Injective, InBounds, CarvedFrom, PageNeeded, AllSpans, TableBound;
      CountPrefixes(tables, pageLimit);
      forall v: nat ensures v in leaves <==> PageNeeded(descs, fb, v) {
        NeededIffTouched(descs, now, fb, v);
      }
      IdentityTheorem(View(), pageLimit, descs, fb);
      RightsTheorem(View(), pageLimit, descs, now, fb);
    }

    /** Selects the pool and fixes the page limit it was sized for. */
    method PreparePool(fw: FirmwareMap, fb: Framebuffer, need: u64) returns (ok: bool)
      requires Aligned(fw.descs) && RangesOk(fw.descs, fb) && need == Need(fw.descs, fb) && allocatedPages == 0
      modifies fw`descs, `poolStart, `poolEnd, `poolNext, `reservedPages, `error, `pageLimit
      ensures ok ==> CarvedFrom(old(fw.descs), fw.descs, fb)
      ensures ok ==> PoolIs(old(fw.descs), fb, poolStart, poolEnd, reservedPages) && PoolOk()
      ensures ok ==> RangesOk(fw.descs, fb) && DivRoundUp(MaxIdentityEnd(fw.descs, fb), 4096) <= pageLimit
      ensures ok ==> TableBound(pageLimit) + 16 <= reservedPages && pageLimit <= 0x8_0000_0000
      ensures ok && poolStart != 0 <==> SetupSucceeds(false, old(fw.descs), fb, fw.HasRoom(|old(fw.descs)|))
      ensures ok ==> error == old(error) && SetupError(false, old(fw.descs), fb, fw.HasRoom(|old(fw.descs)|)) == PagingOk
      ensures !ok ==> error == SetupError(false, old(fw.descs), fb, fw.HasRoom(|old(fw.descs)|))
    {
      hide EstimatePages, MaxIdentityEnd, TableBound, DivRoundUp, Lowest, Carved, RangesOk, Geometry, CarvedFrom;
      ghost var descs := fw.descs;
      PoolChoice(descs, need, fb);
      ok := SelectPool(fw, need);
      if ok {
        pageLimit := DivRoundUp(MaxIdentityEnd(descs, fb), 4096);
      }
    }

    /** `setup_kernel_paging` from the pool selection on. */
    method Build(fw: FirmwareMap, fb: Framebuffer, need: u64) returns (ok: bool)
      requires Aligned(fw.descs) && RangesOk(fw.descs, fb) && need == Need(fw.descs, fb)
      requires cr3 == 0 && allocatedPages == 0 && mappedPages == 0 && error == PagingOk
      modifies this, fw`descs
      ensures ok <==> SetupSucceeds(false, old(fw.descs), fb, fw.HasRoom(|old(fw.descs)|))
      ensures error == SetupError(false, old(fw.descs), fb, fw.HasRoom(|old(fw.descs)|))
      ensures ok ==> Valid() && Roomy() && cr3 == poolStart && CarvedFrom(old(fw.descs), fw.descs, fb)
      ensures ok ==> Realises(leaves, AllSpans(fw.descs, fb))
      ensures ok ==> PoolIs(old(fw.descs), fb, poolStart, poolEnd, reservedPages)
      ensures ok ==> OnlyFrames(old(mem), mem, poolStart / 4096, poolEnd / 4096)
    {
      hide OnlyFrames, Realises, Valid, CarvedFrom, PoolIs, SetupSucceeds, SetupError, RangesOk, TableBound, Geometry;
      hide AllSpans, DivRoundUp, Need, Aligned, Covered;
      ghost var m0 := mem;
      ok := PreparePool(fw, fb, need);
      if ok {
        ok := StartTree();
        if ok {
          ghost var m1 := mem;
          ok := MapAll(fw, fb);
          OnlyFramesTransitive(m0, m1, mem, poolStart / 4096, poolEnd / 4096);
        }
      }
    }
  }

  /** The map the kernel goes on with: the chosen descriptor's top pages became loader data. */
  predicate CarvedFrom(descs: seq<Descriptor>, now: seq<Descriptor>, fb: Framebuffer) {
    && RangesOk(descs, fb)
    && var need := Need(descs, fb);
       var k := Lowest(descs, need);
       k.Some? && EndChecked(descs[k.value]).Some? && need <= descs[k.value].pages
       && now == Carved(descs, k.value, need)
  }

  predicate PoolIs(descs: seq<Descriptor>, fb: Framebuffer, start: u64, end: u64, pages: u64) {
    && RangesOk(descs, fb)
    && pages == Need(descs, fb)
    && Lowest(descs, pages).Some?
    && start == PoolStart(descs[Lowest(descs, pages).value], pages)
    && end == start + pages * 4096
  }

  /** What the chosen descriptor offers, before anything is changed. */
  lemma PoolChoice(descs: seq<Descriptor>, need: u64, fb: Framebuffer)
    requires RangesOk(descs, fb) && Aligned(descs) && need == Need(descs, fb)
    ensures forall i :: 0 <= i < |descs| ==> EndChecked(descs[i]).Some?
    ensures var limit := DivRoundUp(MaxIdentityEnd(descs, fb), 4096);
            TableBound(limit) + 16 <= need && limit <= 0x8_0000_0000
    ensures match Lowest(descs, need)
            case None => true
            case Some(k) =>
              var d := descs[k];
              && need <= d.pages && 0 <= PoolStart(d, need) && PoolStart(d, need) + need * 4096 <= U64_MAX
              && Geometry(PoolStart(d, need), PoolStart(d, need) + need * 4096, PoolStart(d, need), need, 0)
              && var now := Carved(descs, k, need);
                 && CarvedFrom(descs, now, fb) && RangesOk(now, fb)
                 && DivRoundUp(MaxIdentityEnd(now, fb), 4096) <= DivRoundUp(MaxIdentityEnd(descs, fb), 4096)
  {
    hide Carved, MaxIdentityEnd, EstimatePages, TableBound, DivRoundUp;
    LowestIsLowest(descs, need);
    EstimateInRange(MaxIdentityEnd(descs, fb));
    var r := Lowest(descs, need);
    if r.Some? {
      assert descs[r.value].start % 4096 == 0;
      CarvedRanges(descs, r.value, need, fb);
    }
  }

  lemma EstimateFits(maxEnd: u64)
    requires maxEnd <= LOW_CANONICAL_LIMIT
    ensures 0 < EstimatePages(maxEnd) <= 0x10_0000_0000
  {
  }

  lemma EstimateInRange(maxEnd: u64)
    ensures EstimatePages(maxEnd) == TableBound(DivRoundUp(maxEnd, 4096)) + 16
    ensures maxEnd <= LOW_CANONICAL_LIMIT ==> DivRoundUp(maxEnd, 4096) <= 0x8_0000_0000
  {
    EstimateIsBound(maxEnd);
  }

  lemma {:induction false} MaxEndAtMost(descs: seq<Descriptor>, bound: u64)
    requires DescriptorsInRange(descs)
    requires forall i :: 0 <= i < |descs| ==> EndChecked(descs[i]).value <= bound
    ensures MaxEnd(descs) <= bound
  {
    if descs != [] {
      var n := |descs| - 1;
      assert forall i :: 0 <= i < n ==> descs[..n][i] == descs[i];
      MaxEndAtMost(descs[..n], bound);
    }
  }

  lemma CarvedRanges(descs: seq<Descriptor>, k: nat, need: nat, fb: Framebuffer)
    requires RangesOk(descs, fb) && Aligned(descs) && k < |descs| && need <= descs[k].pages
    ensures EndChecked(descs[k]).Some? && RangesOk(Carved(descs, k, need), fb)
    ensures Aligned(Carved(descs, k, need))
    ensures MaxIdentityEnd(Carved(descs, k, need), fb) <= MaxIdentityEnd(descs, fb)
    ensures DivRoundUp(MaxIdentityEnd(Carved(descs, k, need), fb), 4096) <= DivRoundUp(MaxIdentityEnd(descs, fb), 4096)
  {
    assert EndChecked(descs[k]).Some?;
    CarveStaysInRange(descs, k, need, MaxEnd(descs));
    var r := Carved(descs, k, need);
    assert forall i :: 0 <= i < |r| ==> r[i] in r;
    MaxEndAtMost(r, MaxEnd(descs));
    DivRoundUpMonotone(MaxIdentityEnd(r, fb), MaxIdentityEnd(descs, fb));
  }

  lemma RealisesNothing()
    ensures Realises(map[], [])
  {
  }

  lemma DivRoundUpMonotone(a: nat, b: nat)
    requires a <= b
    ensures DivRoundUp(a, 4096) <= DivRoundUp(b, 4096)
  {
  }

  lemma DescriptorSpanInRange(descs: seq<Descriptor>, fb: Framebuffer, i: nat)
    requires RangesOk(descs, fb) && i < |descs|
    ensures var d := descs[i];
            && d.pages * 4096 <= U64_MAX && SpanInRange(d.start, d.pages * 4096)
            && DivRoundUp(d.start + d.pages * 4096, 4096) <= DivRoundUp(MaxIdentityEnd(descs, fb), 4096)
  {
    assert EndChecked(descs[i]).value <= MaxEnd(descs);
    DivRoundUpMonotone(descs[i].start + descs[i].pages * 4096, MaxIdentityEnd(descs, fb));
  }

  function Pml4Index(addr: u64): (i: nat)
    ensures i < 512
  {
    addr / 0x80_0000_0000 % 512
  }

  function PdptIndex(addr: u64): (i: nat)
    ensures i < 512
  {
    addr / 0x4000_0000 % 512
  }

  function PdIndex(addr: u64): (i: nat)
    ensures i < 512
  {
    addr / 0x20_0000 % 512
  }

  /** The indices taken from an address below the low canonical limit name its path of nodes. */
  lemma PathNodes(addr: u64, limit: nat) returns (n3: Node, n2: Node, n1: Node)
    requires addr % 4096 == 0 && addr / 4096 < limit <= 0x8_0000_0000
    ensures n3.level == 3 && n2.level == 2 && n1 == Node(1, addr / 4096 / 512)
    ensures Child(ROOT, Pml4Index(addr)) == n3
    ensures Child(n3, PdptIndex(addr)) == n2
    ensures Child(n2, PdIndex(addr)) == n1
    ensures Serves(n3, limit) && Serves(n2, limit) && Serves(n1, limit)
  {
    var p1 := addr / 4096 / 512;
    n3, n2, n1 := Node(3, p1 / 512 / 512), Node(2, p1 / 512), Node(1, p1);
    Indices(addr);
  }

  /** `entry & PTE_ADDR_MASK` for an entry whose frame lies below `limit`. */
  function EntryAddress(e: Pte, ghost limit: u64): (a: u64)
    requires e.frame * 4096 < limit
    ensures a % 4096 == 0 && a / 4096 == e.frame
  {
    e.frame * 4096
  }
}
