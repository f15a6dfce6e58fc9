/** The page-table estimate (kernel/kernel.c, lines 1384-1410) and why it bounds allocation:
    every table serves a distinct prefix of some mapped page number. */
module TableCount {
  import opened Words
  import opened PageTables

  function DivRoundUp(value: nat, divisor: nat): (r: nat)
    requires divisor > 0
  {
    if value == 0 then 0 else (value - 1) / divisor + 1
  }

  function EstimatePages(maxEnd: u64): (n: nat) {
    var pages := DivRoundUp(maxEnd, 4096);
    1 + DivRoundUp(pages, 512 * 512 * 512) + DivRoundUp(pages, 512 * 512) + DivRoundUp(pages, 512) + 16
  }

  /** Node `n` serves some page number below `limit`. */
  predicate Serves(n: Node, limit: nat) {
    if n.level == 1 then n.prefix * 512 < limit
    else if n.level == 2 then n.prefix * 262144 < limit
    else n.prefix * 134217728 < limit
  }

  /** Every table below the root serves some page number below `limit`. */
  predicate InBounds(tables: map<Node, nat>, limit: nat) {
    forall n :: n in tables && n.level < 4 ==> Serves(n, limit)
  }

  function LevelSet(level: nat, count: nat): (s: set<Node>)
    ensures |s| == count
    ensures forall n :: n in s <==> n.level == level && n.prefix < count
  {
    if count == 0 then {} else LevelSet(level, count - 1) + {Node(level, count - 1)}
  }

  lemma SubsetCount<T>(a: set<T>, b: set<T>)
    requires a <= b
    ensures |a| <= |b|
  {
    assert b == a + (b - a);
  }

  function TableBound(limit: nat): (n: nat) {
    1 + DivRoundUp(limit, 134217728) + DivRoundUp(limit, 262144) + DivRoundUp(limit, 512)
  }

  /** No more tables than distinct prefixes at each level. */
  lemma CountPrefixes(tables: map<Node, nat>, limit: nat)
    requires InBounds(tables, limit)
    requires forall n :: n in tables ==> 1 <= n.level <= 4 && (n.level == 4 ==> n == ROOT)
    ensures |tables| <= TableBound(limit)
  {
    forall n | n in tables.Keys
      ensures n in AllNodes(limit)
    {
      if n.level < 4 {
        assert Serves(n, limit);
      }
    }
    SubsetCount(tables.Keys, AllNodes(limit));
  }

  /** The estimate leaves sixteen pages beyond what any tree below `maxEnd` can use. */
  lemma EstimateBoundsTables(tables: map<Node, nat>, maxEnd: u64)
    requires InBounds(tables, DivRoundUp(maxEnd, 4096))
    requires forall n :: n in tables ==> 1 <= n.level <= 4 && (n.level == 4 ==> n == ROOT)
    ensures |tables| + 16 <= EstimatePages(maxEnd)
  {
    CountPrefixes(tables, DivRoundUp(maxEnd, 4096));
  }

  lemma EstimateIsBound(maxEnd: u64)
    ensures EstimatePages(maxEnd) == TableBound(DivRoundUp(maxEnd, 4096)) + 16
  {
  }

  lemma Prefixes(p: nat)
    ensures p * 512 / 512 == p && p * 262144 / 512 / 512 == p && p * 134217728 / 512 / 512 / 512 == p
  {
    assert p * 262144 / 512 == p * 512;
    assert p * 134217728 / 512 == p * 262144;
  }

  lemma FullLevels(t: Tree, limit: nat, n: Node)
    requires WellFormed(t) && (forall v: nat :: v < limit ==> v in t.leaves) && 1 <= n.level <= 3 && Serves(n, limit)
    ensures n in t.tables
  {
    hide WellFormed;
    Prefixes(n.prefix);
    var v := if n.level == 1 then n.prefix * 512 else if n.level == 2 then n.prefix * 262144 else n.prefix * 134217728;
    AncestorsPresent(t, v);
  }

  /** The estimate is exact but for its sixteen spare pages: mapping everything below `maxEnd` uses the rest. */
  lemma FullRangeUsesEstimate(t: Tree, maxEnd: u64)
    requires WellFormed(t) && InBounds(t.tables, DivRoundUp(maxEnd, 4096))
    requires forall v: nat :: v < DivRoundUp(maxEnd, 4096) ==> v in t.leaves
    ensures |t.tables| + 16 == EstimatePages(maxEnd)
  {
    hide InteriorOk, LeavesOk, Injective, Closed, DivRoundUp, InBounds, EstimatePages, TableBound, AllNodes, Serves;
    var limit := DivRoundUp(maxEnd, 4096);
    EstimateIsBound(maxEnd);
    EstimateBoundsTables(t.tables, maxEnd);
    forall n | n in AllNodes(limit)
      ensures n in t.tables.Keys
    {
      AllNodesServe(limit, n);
      if n != ROOT {
        FullLevels(t, limit, n);
      }
    }
    SubsetCount(AllNodes(limit), t.tables.Keys);
  }

  /** One node for every prefix of a page number below `limit`. */
  function AllNodes(limit: nat): (s: set<Node>)
    ensures |s| == TableBound(limit)
  {
    var c3, c2, c1 := DivRoundUp(limit, 134217728), DivRoundUp(limit, 262144), DivRoundUp(limit, 512);
    var upper := {ROOT} + LevelSet(3, c3);
    assert |upper| == 1 + c3;
    assert |upper + LevelSet(2, c2)| == 1 + c3 + c2;
    upper + LevelSet(2, c2) + LevelSet(1, c1)
  }

  lemma AllNodesServe(limit: nat, n: Node)
    requires n in AllNodes(limit)
    ensures n == ROOT || (1 <= n.level <= 3 && Serves(n, limit))
  {
  }

  /** The tables occupy `count` distinct frames from `base` on, and serve pages below `limit`. */
  predicate Compact(tables: map<Node, nat>, base: nat, count: nat, limit: nat) {
    && |tables| == count
    && (forall n :: n in tables ==> base <= tables[n] < base + count)
    && InBounds(tables, limit)
  }

  predicate TablesFit(t: Tree, base: nat, count: nat, limit: nat) {
    WellFormed(t) && Compact(t.tables, base, count, limit)
  }

  lemma CompactAdd(tables: map<Node, nat>, c: Node, base: nat, count: nat, limit: nat)
    requires Compact(tables, base, count, limit) && c !in tables && Serves(c, limit)
    ensures base + count !in tables.Values
    ensures Compact(tables[c := base + count], base, count + 1, limit)
  {
    assert tables[c := base + count].Keys == tables.Keys + {c};
  }

  /** Memory outside the frames `lo` to `hi` is as it was; nothing is added there. */
  predicate OnlyFrames(before: Memory, after: Memory, lo: nat, hi: nat) {
    && (forall f :: f in before && !(lo <= f < hi) ==> f in after && after[f] == before[f])
    && (forall f :: f in after && !(lo <= f < hi) ==> f in before)
  }

  /** Linking the next free frame as a new table keeps the tree well formed and compact. */
  lemma TableAdded(t: Tree, n: Node, i: nat, base: nat, count: nat, limit: nat, hi: nat)
    requires TablesFit(t, base, count, limit) && base + count < hi
    requires n in t.tables && n.level > 1 && i < 512 && Child(n, i) !in t.tables
    requires Serves(Child(n, i), limit)
    ensures Placed(t) && base + count != t.tables[n]
    ensures TablesFit(WithTable(t, n, i, base + count), base, count + 1, limit)
    ensures OnlyFrames(t.mem, WithTable(t, n, i, base + count).mem, base, hi)
  {
    hide InteriorOk, LeavesOk, Closed, Injective;
    CompactAdd(t.tables, Child(n, i), base, count, limit);
    WithTableKeeps(t, n, i, base + count);
  }

  function Below(limit: nat): (s: set<nat>)
    ensures |s| == limit
    ensures forall v: nat :: v in s <==> v < limit
  {
    if limit == 0 then {} else Below(limit - 1) + {limit - 1}
  }

  lemma CountPages(leaves: map<nat, Flags>, limit: nat)
    requires forall v :: v in leaves ==> v < limit
    ensures |leaves| <= limit
  {
    SubsetCount(leaves.Keys, Below(limit));
  }
}
