/** Four-level page tables in physical memory (kernel/kernel.c, lines 1486-1552) and the
    translation the processor performs on them (section 4.5 of the Intel SDM, Volume 3A). */
module PageTables {
  import opened Words

  /** The entry bits the kernel uses: present, read/write, write-through, cache-disable. */
  datatype Flags = Flags(present: bool, rw: bool, pwt: bool, pcd: bool) {
    function Or(that: Flags): (f: Flags) {
      Flags(present || that.present, rw || that.rw, pwt || that.pwt, pcd || that.pcd)
    }

    predicate Uncached() {
      pwt && pcd
    }

    /** The bits in their positions in the 64-bit entry. */
    function Bits(): (w: bv64) {
      (if present then 0x001 else 0) | (if rw then 0x002 else 0) |
      (if pwt then 0x008 else 0) | (if pcd then 0x010 else 0)
    }
  }

  const NO_FLAGS := Flags(false, false, false, false)
  const TABLE_FLAGS := Flags(true, true, false, false)
  const UNCACHED_FLAGS := Flags(true, true, true, true)

  /** An entry split into its frame field (bits 12 to 51) and its flag bits.
      `EntryFormat` relates this view to the packed word. */
  datatype Pte = Pte(frame: nat, flags: Flags)

  const ZERO_PTE := Pte(0, NO_FLAGS)

  type Page = p: seq<Pte> | |p| == 512 witness seq(512, _ => ZERO_PTE)

  /** Physical memory by page frame number. */
  type Memory = map<nat, Page>

  function ZeroPage(): (p: Page)
    ensures forall i: nat :: i < 512 ==> p[i] == ZERO_PTE
  {
    seq(512, _ => ZERO_PTE)
  }

  predicate IsPresent(e: Pte) {
    e.flags.present
  }

  lemma FlagBits(f: Flags, g: Flags)
    ensures f.Bits() <= 0x01b
    ensures f.Bits() & 0x001 != 0 <==> f.present
    ensures f.Or(g).Bits() == f.Bits() | g.Bits()
  {
  }

  lemma PackedWord(frame: bv64, bits: bv64, more: bv64)
    requires frame <= 0xFF_FFFF_FFFF && bits <= 0xFFF
    ensures ((frame << 12) | bits) & 0x000F_FFFF_FFFF_F000 == frame << 12
    ensures ((frame << 12) | bits) & 0x001 == bits & 0x001
    ensures ((frame << 12) | bits) | more == (frame << 12) | (bits | more)
  {
  }

  /** Masking and or-ing the packed word are field operations on the split view. */
  lemma EntryFormat(frame: bv64, flags: Flags, more: Flags)
    requires frame <= 0xFF_FFFF_FFFF
    ensures var w := (frame << 12) | flags.Bits();
            && w & 0x000F_FFFF_FFFF_F000 == frame << 12
            && (w & 0x001 != 0 <==> flags.present)
            && w | more.Bits() == (frame << 12) | flags.Or(more).Bits()
  {
    FlagBits(flags, more);
    PackedWord(frame, flags.Bits(), more.Bits());
  }

  // ----- the processor's walk

  function Follow(mem: Memory, frame: nat, index: nat): (next: Option<nat>)
    requires index < 512
  {
    if frame in mem && IsPresent(mem[frame][index]) then Some(mem[frame][index].frame) else None
  }

  /** The page frame reached through the four given table indices. */
  function WalkPath(mem: Memory, root: nat, i4: nat, i3: nat, i2: nat, i1: nat): (frame: Option<nat>)
    requires i4 < 512 && i3 < 512 && i2 < 512 && i1 < 512
  {
    match Follow(mem, root, i4)
    case None => None
    case Some(pdpt) =>
      match Follow(mem, pdpt, i3)
      case None => None
      case Some(pd) =>
        match Follow(mem, pd, i2)
        case None => None
        case Some(pt) => Follow(mem, pt, i1)
  }

  /** Translation of the low 48 bits of a linear address. */
  function Walk(mem: Memory, root: nat, va: nat): (pa: Option<nat>) {
    match WalkPath(mem, root, va / 0x80_0000_0000 % 512, va / 0x4000_0000 % 512,
                   va / 0x20_0000 % 512, va / 0x1000 % 512)
    case None => None
    case Some(frame) => Some(frame * 4096 + va % 4096)
  }

  /** A linear address is canonical when bits 47 to 63 agree. */
  predicate Canonical(va: u64) {
    va < 0x0000_8000_0000_0000 || va >= 0xFFFF_8000_0000_0000
  }

  function Translate(mem: Memory, root: nat, va: u64): (pa: Option<nat>) {
    if Canonical(va) then Walk(mem, root, va % 0x1_0000_0000_0000) else None
  }

  /** The four table indices in a linear address, from the top. */
  function Indexes(va: nat): (ix: seq<nat>)
    ensures |ix| == 4 && forall k :: 0 <= k < 4 ==> ix[k] < 512
  {
    [va / 0x80_0000_0000 % 512, va / 0x4000_0000 % 512, va / 0x20_0000 % 512, va / 0x1000 % 512]
  }

  /** The present entries met on the way down. */
  function PathFrom(mem: Memory, frame: nat, ix: seq<nat>): (path: seq<Pte>)
    requires forall k :: 0 <= k < |ix| ==> ix[k] < 512
    decreases |ix|
  {
    if ix == [] || frame !in mem || !IsPresent(mem[frame][ix[0]]) then []
    else [mem[frame][ix[0]]] + PathFrom(mem, mem[frame][ix[0]].frame, ix[1..])
  }

  /** The entries that take part in the translation of an address. */
  function Path(mem: Memory, root: nat, va: u64): (path: seq<Pte>) {
    PathFrom(mem, root, Indexes(va % 0x1_0000_0000_0000))
  }

  /** Supervisor writes need the read/write bit in every entry on the path (section 4.6 of the SDM). */
  predicate Writable(mem: Memory, root: nat, va: u64) {
    var path := Path(mem, root, va);
    |path| == 4 && forall k :: 0 <= k < 4 ==> path[k].flags.rw
  }

  // ----- the abstract tree

  /** The table that serves the virtual page numbers `v` with `v / 512^level == prefix`:
      level 4 is the PML4, level 1 a page table. */
  datatype Node = Node(level: nat, prefix: nat)

  const ROOT := Node(4, 0)

  function Child(n: Node, i: nat): (c: Node)
    requires n.level > 0
  {
    Node(n.level - 1, n.prefix * 512 + i)
  }

  /** What a region of memory holds, read as a page-table tree: which node lives in which
      frame, and which virtual pages are mapped with which flags. */
  datatype Tree = Tree(mem: Memory, root: nat, tables: map<Node, nat>, leaves: map<nat, Flags>)

  predicate Placed(t: Tree) {
    && ROOT in t.tables && t.tables[ROOT] == t.root
    && (forall n :: n in t.tables ==> 1 <= n.level <= 4 && t.tables[n] in t.mem)
    && (forall n :: n in t.tables && n.level == 4 ==> n == ROOT)
  }

  predicate Injective(tables: map<Node, nat>) {
    forall m, n :: m in tables && n in tables && tables[m] == tables[n] ==> m == n
  }

  predicate Closed(t: Tree) {
    && (forall n :: n in t.tables && n.level < 4 ==> Node(n.level + 1, n.prefix / 512) in t.tables)
    && (forall v :: v in t.leaves ==> Node(1, v / 512) in t.tables)
  }

  function InteriorEntry(t: Tree, n: Node, i: nat): (e: Pte)
    requires n.level > 0
  {
    if Child(n, i) in t.tables then Pte(t.tables[Child(n, i)], TABLE_FLAGS) else ZERO_PTE
  }

  function LeafEntry(t: Tree, v: nat): (e: Pte) {
    if v in t.leaves then Pte(v, t.leaves[v]) else ZERO_PTE
  }

  predicate InteriorOk(t: Tree)
    requires Placed(t)
  {
    forall n, i: nat :: n in t.tables && n.level > 1 && i < 512 ==>
      t.mem[t.tables[n]][i] == InteriorEntry(t, n, i)
  }

  predicate LeavesOk(t: Tree)
    requires Placed(t)
  {
    && (forall n, i: nat :: n in t.tables && n.level == 1 && i < 512 ==>
          t.mem[t.tables[n]][i] == LeafEntry(t, n.prefix * 512 + i))
    && (forall v :: v in t.leaves ==> t.leaves[v].present)
  }

  predicate WellFormed(t: Tree) {
    Placed(t) && Injective(t.tables) && Closed(t) && InteriorOk(t) && LeavesOk(t)
  }

  // ----- the walk computes the abstract tree

  lemma Indices(va: nat)
    requires va < 0x1_0000_0000_0000
    ensures var v := va / 4096;
            && va / 0x1000 % 512 == v % 512
            && va / 0x20_0000 % 512 == v / 512 % 512
            && va / 0x4000_0000 % 512 == v / 512 / 512 % 512
            && va / 0x80_0000_0000 % 512 == v / 512 / 512 / 512
            && v / 512 / 512 / 512 < 512
            && va == v * 4096 + va % 4096
  {
    var v := va / 4096;
    assert va / 0x20_0000 == v / 512;
    assert va / 0x4000_0000 == v / 512 / 512;
    assert va / 0x80_0000_0000 == v / 512 / 512 / 512;
  }

  lemma EntryAt(t: Tree, n: Node, i: nat)
    requires WellFormed(t) && n in t.tables && i < 512
    ensures t.mem[t.tables[n]][i] == if n.level > 1 then InteriorEntry(t, n, i) else LeafEntry(t, n.prefix * 512 + i)
    ensures n.level == 1 && n.prefix * 512 + i in t.leaves ==> t.leaves[n.prefix * 512 + i].present
  {
  }

  /** One interior step of the walk arrives at the child node, or faults because it is absent. */
  lemma FollowInterior(t: Tree, n: Node, i: nat)
    requires WellFormed(t) && n in t.tables && n.level > 1 && i < 512
    ensures Follow(t.mem, t.tables[n], i) ==
            if Child(n, i) in t.tables then Some(t.tables[Child(n, i)]) else None
  {
    EntryAt(t, n, i);
  }

  lemma FollowLeaf(t: Tree, n: Node, i: nat)
    requires WellFormed(t) && n in t.tables && n.level == 1 && i < 512
    ensures Follow(t.mem, t.tables[n], i) ==
            var v := n.prefix * 512 + i; if v in t.leaves then Some(v) else None
  {
    EntryAt(t, n, i);
  }

  /** The ancestors of a mapped page are all present. */
  lemma AncestorsPresent(t: Tree, v: nat)
    requires WellFormed(t)
    ensures v in t.leaves ==> Node(1, v / 512) in t.tables
    ensures Node(1, v / 512) in t.tables ==> Node(2, v / 512 / 512) in t.tables
    ensures Node(2, v / 512 / 512) in t.tables ==> Node(3, v / 512 / 512 / 512) in t.tables
  {
  }

  lemma FollowPath(t: Tree, v: nat, p1: nat, p2: nat, p3: nat)
    requires WellFormed(t) && p3 < 512 && p1 == v / 512 && p2 == p1 / 512 && p3 == p2 / 512
    ensures Follow(t.mem, t.root, p3) == if Node(3, p3) in t.tables then Some(t.tables[Node(3, p3)]) else None
    ensures Node(3, p3) in t.tables ==>
      Follow(t.mem, t.tables[Node(3, p3)], p2 % 512) == if Node(2, p2) in t.tables then Some(t.tables[Node(2, p2)]) else None
    ensures Node(2, p2) in t.tables ==>
      Follow(t.mem, t.tables[Node(2, p2)], p1 % 512) == if Node(1, p1) in t.tables then Some(t.tables[Node(1, p1)]) else None
    ensures Node(1, p1) in t.tables ==>
      Follow(t.mem, t.tables[Node(1, p1)], v % 512) == if v in t.leaves then Some(v) else None
  {
    hide Follow, InteriorOk, LeavesOk, Closed, Injective;
    FollowInterior(t, ROOT, p3);
    if Node(3, p3) in t.tables {
      FollowInterior(t, Node(3, p3), p2 % 512);
    }
    if Node(2, p2) in t.tables {
      FollowInterior(t, Node(2, p2), p1 % 512);
    }
    if Node(1, p1) in t.tables {
      FollowLeaf(t, Node(1, p1), v % 512);
    }
  }

  lemma WalkPathFinds(t: Tree, v: nat)
    requires WellFormed(t) && v < 0x10_0000_0000
    ensures v / 512 / 512 / 512 < 512
    ensures WalkPath(t.mem, t.root, v / 512 / 512 / 512, v / 512 / 512 % 512, v / 512 % 512, v % 512) ==
            if v in t.leaves then Some(v) else None
  {
    hide WellFormed, Follow;
    AncestorsPresent(t, v);
    FollowPath(t, v, v / 512, v / 512 / 512, v / 512 / 512 / 512);
  }

  /** For every linear address: mapped pages translate to themselves, all others fault. */
  lemma WalkIsIdentity(t: Tree, va: nat)
    requires WellFormed(t) && va < 0x1_0000_0000_0000
    ensures Walk(t.mem, t.root, va) == if va / 4096 in t.leaves then Some(va) else None
  {
    hide WellFormed, WalkPath;
    WalkPathFinds(t, va / 4096);
    Indices(va);
  }

  lemma PathOfFour(mem: Memory, f4: nat, f3: nat, f2: nat, f1: nat, ix: seq<nat>)
    requires |ix| == 4 && forall k :: 0 <= k < 4 ==> ix[k] < 512
    requires Follow(mem, f4, ix[0]) == Some(f3) && Follow(mem, f3, ix[1]) == Some(f2)
    requires Follow(mem, f2, ix[2]) == Some(f1) && Follow(mem, f1, ix[3]).Some?
    ensures PathFrom(mem, f4, ix) == [mem[f4][ix[0]], mem[f3][ix[1]], mem[f2][ix[2]], mem[f1][ix[3]]]
  {
    assert ix[1..][1..] == ix[2..] && ix[2..][1..] == ix[3..] && ix[3..][1..] == [];
    assert PathFrom(mem, f1, ix[3..]) == [mem[f1][ix[3]]];
    assert PathFrom(mem, f2, ix[2..]) == [mem[f2][ix[2]], mem[f1][ix[3]]];
    assert PathFrom(mem, f3, ix[1..]) == [mem[f3][ix[1]], mem[f2][ix[2]], mem[f1][ix[3]]];
  }

  /** The entries on the path of a mapped page: three links that allow writes and caching, then the leaf. */
  lemma PathOfLeaf(t: Tree, v: nat, ix: seq<nat>)
    requires WellFormed(t) && v < 0x10_0000_0000 && v in t.leaves
    requires ix == [v / 512 / 512 / 512, v / 512 / 512 % 512, v / 512 % 512, v % 512]
    ensures (forall k :: 0 <= k < 4 ==> ix[k] < 512) && |PathFrom(t.mem, t.root, ix)| == 4
    ensures forall k :: 0 <= k < 3 ==>
              var f := PathFrom(t.mem, t.root, ix)[k].flags; f.present && f.rw && !f.pwt && !f.pcd
    ensures PathFrom(t.mem, t.root, ix)[3] == Pte(v, t.leaves[v])
  {
    hide InteriorOk, LeavesOk, Closed, Injective, PathFrom;
    var p1, p2, p3 := v / 512, v / 512 / 512, v / 512 / 512 / 512;
    AncestorsPresent(t, v);
    FollowPath(t, v, p1, p2, p3);
    PathOfFour(t.mem, t.root, t.tables[Node(3, p3)], t.tables[Node(2, p2)], t.tables[Node(1, p1)], ix);
    EntryAt(t, ROOT, ix[0]);
    EntryAt(t, Node(3, p3), ix[1]);
    EntryAt(t, Node(2, p2), ix[2]);
    EntryAt(t, Node(1, p1), ix[3]);
  }

  /** The rights of every address a well-formed tree translates. */
  lemma RightsOfLeaf(t: Tree, va: nat)
    requires WellFormed(t) && va < 0x1_0000_0000_0000 && va / 4096 in t.leaves
    ensures var path := PathFrom(t.mem, t.root, Indexes(va));
            && |path| == 4 && path[3] == Pte(va / 4096, t.leaves[va / 4096])
            && forall k :: 0 <= k < 3 ==> path[k].flags.present && path[k].flags.rw && !path[k].flags.pwt && !path[k].flags.pcd
  {
    hide WellFormed, PathFrom;
    var v := va / 4096;
    Indices(va);
    PathOfLeaf(t, v, [v / 512 / 512 / 512, v / 512 / 512 % 512, v / 512 % 512, v % 512]);
  }

  // ----- the two memory updates

  /** Writing a table pointer to a fresh zeroed frame adds exactly one node. */
  function WithTable(t: Tree, n: Node, i: nat, frame: nat): (t': Tree)
    requires Placed(t) && n in t.tables && n.level > 1 && i < 512 && frame != t.tables[n]
  {
    var mem := t.mem[frame := ZeroPage()];
    var table := mem[t.tables[n]];
    t.(mem := mem[t.tables[n] := table[i := Pte(frame, TABLE_FLAGS)]],
       tables := t.tables[Child(n, i) := frame])
  }

  lemma WithTableInterior(t: Tree, n: Node, i: nat, frame: nat)
    requires Placed(t) && Injective(t.tables) && Closed(t) && InteriorOk(t) && n in t.tables && n.level > 1 && i < 512
    requires Child(n, i) !in t.tables && frame !in t.tables.Values
    ensures frame != t.tables[n] && Placed(WithTable(t, n, i, frame)) && InteriorOk(WithTable(t, n, i, frame))
  {
    assert t.tables[n] in t.tables.Values;
    var t' := WithTable(t, n, i, frame);
    var c := Child(n, i);
    forall m, j: nat | m in t'.tables && m.level > 1 && j < 512
      ensures t'.mem[t'.tables[m]][j] == InteriorEntry(t', m, j)
    {
      if m == c {
        assert Node(Child(m, j).level + 1, Child(m, j).prefix / 512) == m;
        assert Child(m, j) !in t'.tables;
      } else {
        assert t.tables[m] in t.tables.Values;
        assert t.mem[t.tables[m]][j] == InteriorEntry(t, m, j);
        assert Child(m, j) == c ==> m == n && j == i;
      }
    }
  }

  lemma WithTableInjective(tables: map<Node, nat>, c: Node, frame: nat)
    requires Injective(tables) && c !in tables && frame !in tables.Values
    ensures Injective(tables[c := frame])
  {
    var now := tables[c := frame];
    forall a, b | a in now && b in now && now[a] == now[b] ensures a == b {
      assert a != c ==> tables[a] in tables.Values;
      assert b != c ==> tables[b] in tables.Values;
    }
  }

  lemma WithTableLeaves(t: Tree, n: Node, i: nat, frame: nat)
    requires Placed(t) && Closed(t) && LeavesOk(t) && n in t.tables && n.level > 1 && i < 512
    requires Child(n, i) !in t.tables && frame !in t.tables.Values && frame != t.tables[n]
    requires Injective(t.tables) && Placed(WithTable(t, n, i, frame))
    ensures LeavesOk(WithTable(t, n, i, frame))
  {
    var t' := WithTable(t, n, i, frame);
    var c := Child(n, i);
    forall m, j: nat | m in t'.tables && m.level == 1 && j < 512
      ensures t'.mem[t'.tables[m]][j] == LeafEntry(t', m.prefix * 512 + j)
    {
      if m == c {
        assert (m.prefix * 512 + j) / 512 == m.prefix;
      } else {
        assert t.tables[m] in t.tables.Values;
        assert t.mem[t.tables[m]][j] == LeafEntry(t, m.prefix * 512 + j);
      }
    }
  }

  lemma WithTableClosed(t: Tree, n: Node, i: nat, frame: nat)
    requires Placed(t) && Closed(t) && n in t.tables && n.level > 1 && i < 512 && frame != t.tables[n]
    ensures Closed(WithTable(t, n, i, frame))
  {
    assert Child(n, i).prefix / 512 == n.prefix;
  }

  lemma WithTableKeeps(t: Tree, n: Node, i: nat, frame: nat)
    requires WellFormed(t) && n in t.tables && n.level > 1 && i < 512
    requires Child(n, i) !in t.tables && frame !in t.tables.Values
    ensures frame != t.tables[n] && WellFormed(WithTable(t, n, i, frame))
  {
    hide Placed, Injective, Closed, InteriorOk, LeavesOk;
    WithTableInterior(t, n, i, frame);
    WithTableInjective(t.tables, Child(n, i), frame);
    WithTableLeaves(t, n, i, frame);
    WithTableClosed(t, n, i, frame);
  }

  /** Writing a page-table entry for page `v`. */
  function WithLeaf(t: Tree, v: nat, flags: Flags): (t': Tree)
    requires Placed(t) && Node(1, v / 512) in t.tables
  {
    var frame := t.tables[Node(1, v / 512)];
    t.(mem := t.mem[frame := t.mem[frame][v % 512 := Pte(v, flags)]], leaves := t.leaves[v := flags])
  }

  lemma WithLeafInterior(t: Tree, v: nat, flags: Flags)
    requires Placed(t) && Injective(t.tables) && InteriorOk(t) && Node(1, v / 512) in t.tables
    ensures Placed(WithLeaf(t, v, flags)) && InteriorOk(WithLeaf(t, v, flags))
  {
    var t' := WithLeaf(t, v, flags);
    forall m, j: nat | m in t'.tables && m.level > 1 && j < 512
      ensures t'.mem[t'.tables[m]][j] == InteriorEntry(t', m, j)
    {
      assert t.tables[m] != t.tables[Node(1, v / 512)];
      assert t.mem[t.tables[m]][j] == InteriorEntry(t, m, j);
    }
  }

  lemma WithLeafLeaves(t: Tree, v: nat, flags: Flags)
    requires Placed(t) && Injective(t.tables) && LeavesOk(t) && Node(1, v / 512) in t.tables && flags.present
    requires Placed(WithLeaf(t, v, flags))
    ensures LeavesOk(WithLeaf(t, v, flags))
  {
    var t' := WithLeaf(t, v, flags);
    var n := Node(1, v / 512);
    forall m, j: nat | m in t'.tables && m.level == 1 && j < 512
      ensures t'.mem[t'.tables[m]][j] == LeafEntry(t', m.prefix * 512 + j)
    {
      assert t.mem[t.tables[m]][j] == LeafEntry(t, m.prefix * 512 + j);
      assert m.prefix * 512 + j == v <==> m == n && j == v % 512;
    }
  }

  lemma WithLeafKeeps(t: Tree, v: nat, flags: Flags)
    requires WellFormed(t) && Node(1, v / 512) in t.tables && flags.present
    ensures WellFormed(WithLeaf(t, v, flags))
  {
    hide Placed, Injective, InteriorOk, LeavesOk;
    WithLeafInterior(t, v, flags);
    WithLeafLeaves(t, v, flags);
  }

  /** A freshly zeroed root is the empty tree. */
  lemma EmptyTree(mem: Memory, root: nat)
    ensures WellFormed(Tree(mem[root := ZeroPage()], root, map[ROOT := root], map[]))
  {
  }
}
