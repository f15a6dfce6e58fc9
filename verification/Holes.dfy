/** The memory-map listing (kernel/kernel.c, lines 4191-4271): descriptors by ascending start, with a HOLE
    row for every gap that the walk meets. */
module Holes {
  import opened Words
  import opened MemoryMap
  import Paging

  const MAX_ROWS: nat := 512

  /** A HOLE row shows the first and last byte and the number of pages; a descriptor row shows the
      descriptor's index. */
  datatype Row = Hole(first: u64, last: u64, pages: u64) | Line(index: nat)

  function Shown(descs: seq<Descriptor>): (d: seq<Descriptor>) {
    if |descs| > MAX_ROWS then descs[..MAX_ROWS] else descs
  }

  /** The 64-bit end that the listing computes; it wraps. */
  function End(d: Descriptor): (e: u64) {
    var start: int, pages: int := d.start, d.pages;
    (start + pages * 4096) % 0x1_0000_0000_0000_0000
  }

  predicate NoOverflow(descs: seq<Descriptor>) {
    forall i :: 0 <= i < |descs| ==> EndChecked(descs[i]).Some?
  }

  // ----- the order of the listing

  /** The inner loop: among the first `m` descriptors not yet used, the first of least start. */
  function BestUpTo(descs: seq<Descriptor>, used: seq<nat>, m: nat): (b: Option<nat>)
    requires m <= |descs|
    ensures b.Some? ==> b.value < m
  {
    if m == 0 then None
    else
      var r := BestUpTo(descs, used, m - 1);
      if m - 1 !in used && (r.None? || descs[m - 1].start < descs[r.value].start) then Some(m - 1) else r
  }

  function OrderTo(descs: seq<Descriptor>, k: nat): (o: seq<nat>)
    ensures forall j :: 0 <= j < |o| ==> o[j] < |descs|
  {
    if k == 0 then []
    else
      var o := OrderTo(descs, k - 1);
      var b := BestUpTo(descs, o, |descs|);
      if b.None? then o else o + [b.value]
  }

  predicate NotAfter(descs: seq<Descriptor>, j: nat, k: nat)
    requires j < |descs| && k < |descs|
  {
    descs[j].start < descs[k].start || (descs[j].start == descs[k].start && j <= k)
  }

  lemma {:induction false} BestIsLeast(descs: seq<Descriptor>, used: seq<nat>, m: nat)
    requires m <= |descs|
    ensures var b := BestUpTo(descs, used, m);
            && (b.None? <==> forall j :: 0 <= j < m ==> j in used)
            && (b.Some? ==> b.value !in used && forall j :: 0 <= j < m && j !in used ==> NotAfter(descs, b.value, j))
  {
    if m > 0 {
      BestIsLeast(descs, used, m - 1);
    }
  }

  predicate Distinct(o: seq<nat>) {
    forall j, k :: 0 <= j < k < |o| ==> o[j] != o[k]
  }

  function Without(o: seq<nat>, p: nat): (r: seq<nat>)
    requires p < |o|
    ensures |r| == |o| - 1 && forall j :: 0 <= j < |r| ==> r[j] == if j < p then o[j] else o[j + 1]
  {
    o[..p] + o[p + 1..]
  }

  lemma WithoutMembers(o: seq<nat>, p: nat)
    requires p < |o| && Distinct(o)
    ensures Distinct(Without(o, p)) && o[p] !in Without(o, p)
    ensures forall i :: i in o <==> i == o[p] || i in Without(o, p)
  {
    var r := Without(o, p);
    forall i | i in o
      ensures i == o[p] || i in r
    {
      var j :| 0 <= j < |o| && o[j] == i;
      if j != p {
        assert r[if j < p then j else j - 1] == i;
      }
    }
  }

  /** Distinct numbers below `n` are all of them exactly if there are `n`. */
  lemma {:induction false} Pigeonhole(o: seq<nat>, n: nat)
    requires Distinct(o) && forall i :: i in o ==> i < n
    ensures |o| <= n && (|o| == n <==> forall i :: 0 <= i < n ==> i in o)
  {
    hide Distinct;
    if o == [] {
      assert n > 0 ==> 0 !in o;
      return;
    }
    assert o[0] in o;
    if n - 1 in o {
      var p :| 0 <= p < |o| && o[p] == n - 1;
      WithoutMembers(o, p);
      Pigeonhole(Without(o, p), n - 1);
    } else {
      Pigeonhole(o, n - 1);
    }
  }

  /** Each index once, by ascending start, equal starts in map order. */
  predicate Listing(descs: seq<Descriptor>, o: seq<nat>) {
    && (forall j :: 0 <= j < |o| ==> o[j] < |descs|)
    && Distinct(o)
    && (forall j, k :: 0 <= j < k < |o| ==> NotAfter(descs, o[j], o[k]))
  }

  lemma {:induction false} OrderIsListing(descs: seq<Descriptor>, k: nat)
    requires k <= |descs|
    ensures |OrderTo(descs, k)| == k && Listing(descs, OrderTo(descs, k))
    ensures forall j, i :: 0 <= j < k && 0 <= i < |descs| && i !in OrderTo(descs, k) ==> NotAfter(descs, OrderTo(descs, k)[j], i)
  {
    if k > 0 {
      var o := OrderTo(descs, k - 1);
      OrderIsListing(descs, k - 1);
      BestIsLeast(descs, o, |descs|);
      Pigeonhole(o, |descs|);
    }
  }

  /** The finished listing shows every descriptor exactly once. */
  lemma OrderIsComplete(descs: seq<Descriptor>)
    ensures var o := OrderTo(descs, |descs|);
            |o| == |descs| && Listing(descs, o) && forall i :: 0 <= i < |descs| ==> i in o
  {
    var o := OrderTo(descs, |descs|);
    OrderIsListing(descs, |descs|);
    Pigeonhole(o, |descs|);
  }

  // ----- the rows

  /** The running cursor after the descriptors listed in `o`. */
  function Cursor(descs: seq<Descriptor>, o: seq<nat>): (c: u64)
    requires forall j :: 0 <= j < |o| ==> o[j] < |descs|
  {
    if o == [] then 0
    else
      var c := Cursor(descs, o[..|o| - 1]);
      var e := End(descs[o[|o| - 1]]);
      if e > c then e else c
  }

  function HoleRow(a: nat, b: nat): (r: Row)
    requires a < b < 0x1_0000_0000_0000_0000
  {
    Hole(a, b - 1, (b - a) / 4096)
  }

  /** The rows after the descriptors listed in `o`. */
  function RowsTo(descs: seq<Descriptor>, o: seq<nat>): (r: seq<Row>)
    requires forall j :: 0 <= j < |o| ==> o[j] < |descs|
  {
    if o == [] then []
    else
      var before := o[..|o| - 1];
      var last := o[|o| - 1];
      var c := Cursor(descs, before);
      RowsTo(descs, before) + (if descs[last].start > c then [HoleRow(c, descs[last].start)] else []) + [Line(last)]
  }

  function AllRows(descs: seq<Descriptor>): (r: seq<Row>) {
    RowsTo(descs, OrderTo(descs, |descs|))
  }

  lemma RowsAppend(descs: seq<Descriptor>, o: seq<nat>, b: nat)
    requires (forall j :: 0 <= j < |o| ==> o[j] < |descs|) && b < |descs|
    ensures var c := Cursor(descs, o);
            && RowsTo(descs, o + [b]) == RowsTo(descs, o) + (if descs[b].start > c then [HoleRow(c, descs[b].start)] else []) + [Line(b)]
            && Cursor(descs, o + [b]) == if End(descs[b]) > c then End(descs[b]) else c
  {
    assert (o + [b])[..|o|] == o;
  }

  /** Later rows never change earlier ones. */
  lemma {:induction false} RowsGrow(descs: seq<Descriptor>, k: nat, n: nat)
    requires k <= n
    ensures RowsTo(descs, OrderTo(descs, k)) <= RowsTo(descs, OrderTo(descs, n))
    ensures BestUpTo(descs, OrderTo(descs, k), |descs|).None? ==> OrderTo(descs, n) == OrderTo(descs, k)
    decreases n
  {
    hide BestUpTo, RowsTo, Cursor;
    if k < n {
      RowsGrow(descs, k, n - 1);
      var o := OrderTo(descs, n - 1);
      var b := BestUpTo(descs, o, |descs|);
      if b.Some? {
        RowsAppend(descs, o, b.value);
      }
    }
  }

  lemma ListStart(descs: seq<Descriptor>)
    ensures OrderTo(descs, 0) == [] && RowsTo(descs, []) == [] && Cursor(descs, []) == 0
  {
  }

  lemma OrderNext(descs: seq<Descriptor>, k: nat, b: nat)
    requires BestUpTo(descs, OrderTo(descs, k), |descs|) == Some(b)
    ensures OrderTo(descs, k + 1) == OrderTo(descs, k) + [b]
  {
  }

  /** The selection loop and the rows it draws; `screen` is the number of rows that fit. */
  method List(memory: seq<Descriptor>, screen: nat) returns (rows: seq<Row>)
    ensures rows == First(AllRows(Shown(memory)), screen)
  {
    hide BestUpTo, RowsTo, Cursor, OrderTo, End, HoleRow;
    var descs := Shown(memory);
    var n := |descs|;
    ListStart(descs);
    var emitted := new bool[n](_ => false);
    var cursor: u64 := 0;
    rows := [];
    ghost var o: seq<nat> := [];
    var printed := 0;
    while printed < n
      invariant 0 <= printed <= n && o == OrderTo(descs, printed)
      invariant rows == RowsTo(descs, o) && |rows| <= screen && cursor == Cursor(descs, o)
      invariant forall i :: 0 <= i < n ==> (emitted[i] <==> i in o)
    {
      var best := Pick(descs, emitted, o);
      RowsGrow(descs, printed, n);
      if best == n {
        return;
      }
      OrderNext(descs, printed, best);
      RowsGrow(descs, printed + 1, n);
      RowsAppend(descs, o, best);
      emitted[best] := true;
      var start := descs[best].start;
      var end := End(descs[best]);
      if start > cursor {
        if |rows| >= screen {
          return;
        }
        rows := rows + [HoleRow(cursor, start)];
      }
      if |rows| >= screen {
        return;
      }
      rows := rows + [Line(best)];
      if end > cursor {
        cursor := end;
      }
      o := o + [best];
      printed := printed + 1;
    }
  }

  /** The inner loop. */
  method Pick(descs: seq<Descriptor>, emitted: array<bool>, ghost used: seq<nat>) returns (best: nat)
    requires emitted.Length == |descs| && forall i :: 0 <= i < |descs| ==> (emitted[i] <==> i in used)
    ensures best <= |descs|
    ensures BestUpTo(descs, used, |descs|) == if best == |descs| then None else Some(best)
  {
    var n := |descs|;
    best := n;
    var bestStart: u64 := U64_MAX;
    var i := 0;
    while i < n
      invariant 0 <= i <= n && best <= n
      invariant BestUpTo(descs, used, i) == if best == n then None else Some(best)
      invariant best < n ==> bestStart == descs[best].start
    {
      if !emitted[i] && (descs[i].start < bestStart || best == n) {
        best := i;
        bestStart := descs[i].start;
      }
      i := i + 1;
    }
  }

  // ----- what the HOLE rows mean

  predicate HasHole(rows: seq<Row>, a: nat, b: nat) {
    a < b < 0x1_0000_0000_0000_0000 && HoleRow(a, b) in rows
  }

  lemma RealEnd(d: Descriptor)
    requires EndChecked(d).Some?
    ensures End(d) == d.start + d.pages * 4096
  {
  }

  /** A hole row of the longer listing is one of the shorter listing or the new one. */
  lemma HoleOrigin(descs: seq<Descriptor>, o: seq<nat>, b: nat, x: nat, y: nat)
    requires (forall j :: 0 <= j < |o| ==> o[j] < |descs|) && b < |descs|
    ensures HasHole(RowsTo(descs, o + [b]), x, y) <==>
            HasHole(RowsTo(descs, o), x, y) || (x == Cursor(descs, o) && y == descs[b].start && x < y)
  {
    RowsAppend(descs, o, b);
    if x < y < 0x1_0000_0000_0000_0000 && Cursor(descs, o) < descs[b].start {
      assert HoleRow(x, y) == HoleRow(Cursor(descs, o), descs[b].start) <==> x == Cursor(descs, o) && y == descs[b].start;
    }
  }

  /** Nothing listed so far reaches past the cursor, and the cursor is 0 or the end of something listed. */
  lemma {:induction false} CursorIsTop(descs: seq<Descriptor>, o: seq<nat>)
    requires forall j :: 0 <= j < |o| ==> o[j] < |descs|
    ensures forall j :: 0 <= j < |o| ==> End(descs[o[j]]) <= Cursor(descs, o)
    ensures Cursor(descs, o) == 0 || exists j :: 0 <= j < |o| && End(descs[o[j]]) == Cursor(descs, o)
  {
    if o != [] {
      var before := o[..|o| - 1];
      CursorIsTop(descs, before);
      assert forall j :: 0 <= j < |before| ==> before[j] == o[j];
    }
  }

  predicate EndsAt(descs: seq<Descriptor>, o: seq<nat>, a: nat)
    requires forall j :: 0 <= j < |o| ==> o[j] < |descs|
  {
    exists j :: 0 <= j < |o| && End(descs[o[j]]) == a
  }

  predicate StartsAt(descs: seq<Descriptor>, o: seq<nat>, b: nat)
    requires forall j :: 0 <= j < |o| ==> o[j] < |descs|
  {
    exists j :: 0 <= j < |o| && descs[o[j]].start == b
  }

  /** Every listed descriptor lies on one side. */
  predicate Clear(descs: seq<Descriptor>, o: seq<nat>, a: nat, b: nat)
    requires forall j :: 0 <= j < |o| ==> o[j] < |descs|
  {
    forall j :: 0 <= j < |o| ==> b <= descs[o[j]].start || End(descs[o[j]]) <= a
  }

  lemma EdgesAppend(descs: seq<Descriptor>, o: seq<nat>, last: nat, a: nat, b: nat)
    requires (forall j :: 0 <= j < |o| ==> o[j] < |descs|) && last < |descs|
    ensures EndsAt(descs, o + [last], a) <==> EndsAt(descs, o, a) || End(descs[last]) == a
    ensures StartsAt(descs, o + [last], b) <==> StartsAt(descs, o, b) || descs[last].start == b
    ensures Clear(descs, o + [last], a, b) <==> Clear(descs, o, a, b) && (b <= descs[last].start || End(descs[last]) <= a)
  {
    hide End;
    var more := o + [last];
    assert more[|o|] == last && forall j :: 0 <= j < |o| ==> more[j] == o[j];
  }

  lemma StartsBefore(descs: seq<Descriptor>, o: seq<nat>, b: nat)
    requires Listing(descs, o) && o != [] && StartsAt(descs, o[..|o| - 1], b)
    ensures b <= descs[o[|o| - 1]].start
  {
    var j :| 0 <= j < |o| - 1 && descs[o[..|o| - 1][j]].start == b;
    assert NotAfter(descs, o[j], o[|o| - 1]);
  }

  /** Every hole starts at 0 or at the end of a descriptor, ends at the start of one, and has no listed
      descriptor's start or end strictly inside. */
  lemma {:induction false} HoleEdges(descs: seq<Descriptor>, o: seq<nat>, a: nat, b: nat)
    requires NoOverflow(descs) && Listing(descs, o) && HasHole(RowsTo(descs, o), a, b)
    ensures a == 0 || EndsAt(descs, o, a)
    ensures StartsAt(descs, o, b) && Clear(descs, o, a, b) && b <= Cursor(descs, o)
  {
    hide End, RowsTo, Cursor, EndsAt, StartsAt, Clear, HasHole, NotAfter;
    assert o != [] by { NoRows(descs, a, b); }
    var before, last := o[..|o| - 1], o[|o| - 1];
    assert o == before + [last] && forall j :: 0 <= j < |before| ==> before[j] == o[j];
    EdgesAppend(descs, before, last, a, b);
    HoleOrigin(descs, before, last, a, b);
    RowsAppend(descs, before, last);
    RealEnd(descs[last]);
    if HasHole(RowsTo(descs, before), a, b) {
      HoleEdges(descs, before, a, b);
      StartsBefore(descs, o, b);
    } else {
      TopEdges(descs, before, a, b);
    }
  }

  /** A hole that starts at the cursor has everything listed so far behind it. */
  lemma TopEdges(descs: seq<Descriptor>, o: seq<nat>, a: nat, b: nat)
    requires NoOverflow(descs) && (forall j :: 0 <= j < |o| ==> o[j] < |descs|) && a == Cursor(descs, o)
    ensures (a == 0 || EndsAt(descs, o, a)) && Clear(descs, o, a, b)
  {
    hide End, Cursor;
    CursorIsTop(descs, o);
  }

  lemma NoRows(descs: seq<Descriptor>, a: nat, b: nat)
    ensures !HasHole(RowsTo(descs, []), a, b)
  {
  }

  /** The greatest end of any descriptor. */
  function Top(descs: seq<Descriptor>): (t: nat) {
    Cursor(descs, OrderTo(descs, |descs|))
  }

  lemma TopIsGreatestEnd(descs: seq<Descriptor>)
    requires NoOverflow(descs)
    ensures forall i :: 0 <= i < |descs| ==> descs[i].start + descs[i].pages * 4096 <= Top(descs)
    ensures Top(descs) == 0 || exists i :: 0 <= i < |descs| && descs[i].start + descs[i].pages * 4096 == Top(descs)
  {
    hide End, Cursor, OrderTo;
    var o := OrderTo(descs, |descs|);
    OrderIsComplete(descs);
    CursorIsTop(descs, o);
    forall i | 0 <= i < |descs|
      ensures End(descs[i]) == descs[i].start + descs[i].pages * 4096 && End(descs[i]) <= Top(descs)
    {
      RealEnd(descs[i]);
      assert i in o;
    }
  }

  // ----- holes and uncovered bytes, for any map

  /** A descriptor whose end is not representable. */
  predicate Wrapped(d: Descriptor) {
    EndChecked(d).None?
  }

  lemma WrappedReachesTop(d: Descriptor)
    ensures End(d) <= d.start + d.pages * 4096
    ensures Wrapped(d) <==> d.start + d.pages * 4096 >= 0x1_0000_0000_0000_0000
    ensures !Wrapped(d) ==> End(d) == d.start + d.pages * 4096
  {
  }

  /** Some descriptor ends above byte `x`. */
  predicate EndsAbove(descs: seq<Descriptor>, x: int) {
    exists i :: 0 <= i < |descs| && x < descs[i].start + descs[i].pages * 4096
  }

  ghost predicate InHole(descs: seq<Descriptor>, x: nat) {
    exists a: nat, b: nat :: HasHole(AllRows(descs), a, b) && a <= x < b
  }

  /** Every hole row was made at one place of the listing. */
  lemma {:induction false} HoleBorn(descs: seq<Descriptor>, o: seq<nat>, a: nat, b: nat)
    requires forall j :: 0 <= j < |o| ==> o[j] < |descs|
    ensures HasHole(RowsTo(descs, o), a, b) <==>
            exists p :: 0 <= p < |o| && a == Cursor(descs, o[..p]) && b == descs[o[p]].start && a < b
  {
    hide RowsTo, Cursor, HasHole;
    if o == [] {
      NoRows(descs, a, b);
    } else {
      var before, last := o[..|o| - 1], o[|o| - 1];
      HoleBorn(descs, before, a, b);
      HoleOrigin(descs, before, last, a, b);
      assert o == before + [last] && forall p :: 0 <= p < |before| ==> before[..p] == o[..p] && before[p] == o[p];
    }
  }

  /** An uncovered byte below some end is shown in a hole, whatever the ends. */
  lemma {:induction false} UncoveredIsShown(descs: seq<Descriptor>, o: seq<nat>, x: nat, j: nat)
    requires (forall k :: 0 <= k < |o| ==> o[k] < |descs|) && j < |o| && x < descs[o[j]].start + descs[o[j]].pages * 4096
    requires forall k :: 0 <= k < |o| ==> !Holds(descs[o[k]], x)
    ensures exists p :: 0 <= p < |o| && Cursor(descs, o[..p]) <= x < descs[o[p]].start
    decreases |o|
  {
    hide Cursor, End;
    var before, last := o[..|o| - 1], o[|o| - 1];
    if i :| 0 <= i < |before| && x < descs[before[i]].start + descs[before[i]].pages * 4096 {
      UncoveredIsShown(descs, before, x, i);
      var p :| 0 <= p < |before| && Cursor(descs, before[..p]) <= x < descs[before[p]].start;
      assert before[..p] == o[..p];
    } else {
      CursorIsTop(descs, before);
      forall k | 0 <= k < |before|
        ensures End(descs[before[k]]) <= x
      {
        WrappedReachesTop(descs[before[k]]);
      }
      assert !Holds(descs[o[j]], x);
    }
  }

  /** A descriptor that starts past everything listed before it, although a wrapped descriptor starts
      below it. */
  predicate Misleading(descs: seq<Descriptor>, k: nat) {
    && k < |descs|
    && (exists i :: 0 <= i < |descs| && Wrapped(descs[i]) && descs[i].start < descs[k].start)
    && (forall j :: 0 <= j < |descs| && j != k && NotAfter(descs, j, k) ==> End(descs[j]) < descs[k].start)
  }

  predicate Misled(descs: seq<Descriptor>) {
    exists k :: 0 <= k < |descs| && Misleading(descs, k)
  }

  /** Such maps exist as inputs of the listing: a descriptor up to the top of the address space, and one
      that starts above it. */
  lemma WrappedEndMisleads(d: Descriptor, e: Descriptor)
    requires d.start < e.start && d.start + d.pages * 4096 == 0x1_0000_0000_0000_0000
    ensures Misled([d, e])
  {
    var descs := [d, e];
    WrappedReachesTop(d);
    assert Wrapped(descs[0]) && End(descs[0]) == 0;
    assert Misleading(descs, 1);
  }

  /** What is listed before place `p` is what does not come after it. */
  lemma ListedBefore(descs: seq<Descriptor>, o: seq<nat>, p: nat, j: nat)
    requires Listing(descs, o) && (forall i :: 0 <= i < |descs| ==> i in o) && p < |o| && j < |descs|
    ensures j in o[..p] <==> j != o[p] && NotAfter(descs, j, o[p])
  {
    assert j in o;
    var q :| 0 <= q < |o| && o[q] == j;
    if q < p {
      assert o[..p][q] == j;
    }
  }

  /** A covered byte inside a hole betrays a wrapped descriptor. */
  lemma FalseHoleMisleads(descs: seq<Descriptor>, o: seq<nat>, p: nat, x: nat)
    requires Listing(descs, o) && (forall i :: 0 <= i < |descs| ==> i in o) && p < |o|
    requires Cursor(descs, o[..p]) <= x < descs[o[p]].start && Covered(descs, x)
    ensures Misleading(descs, o[p])
  {
    hide Cursor, End, Wrapped, NotAfter;
    var i :| 0 <= i < |descs| && Holds(descs[i], x);
    CursorIsTop(descs, o[..p]);
    forall j | 0 <= j < |descs| && j != o[p] && NotAfter(descs, j, o[p])
      ensures End(descs[j]) <= Cursor(descs, o[..p])
    {
      ListedBefore(descs, o, p, j);
    }
    assert NotAfter(descs, i, o[p]) by { Earlier(descs, i, o[p]); }
    WrappedReachesTop(descs[i]);
  }

  lemma Earlier(descs: seq<Descriptor>, i: nat, k: nat)
    requires i < |descs| && k < |descs| && descs[i].start < descs[k].start
    ensures NotAfter(descs, i, k)
  {
  }

  /** A misleading descriptor makes a hole over covered bytes. */
  lemma MisledShowsFalseHole(descs: seq<Descriptor>, o: seq<nat>, k: nat) returns (p: nat, x: nat)
    requires Listing(descs, o) && (forall i :: 0 <= i < |descs| ==> i in o) && Misleading(descs, k)
    ensures p < |o| && Cursor(descs, o[..p]) <= x < descs[o[p]].start && Covered(descs, x)
  {
    hide Cursor, End, Wrapped, NotAfter;
    assert k in o;
    p :| 0 <= p < |o| && o[p] == k;
    var i :| 0 <= i < |descs| && Wrapped(descs[i]) && descs[i].start < descs[k].start;
    CursorIsTop(descs, o[..p]);
    forall q | 0 <= q < p
      ensures End(descs[o[..p][q]]) < descs[k].start
    {
      ListedBefore(descs, o, p, o[..p][q]);
    }
    WrappedReachesTop(descs[i]);
    x := descs[k].start - 1;
    assert Holds(descs[i], x);
  }

  lemma HoleBytes(descs: seq<Descriptor>, o: seq<nat>, x: nat)
    requires (forall j :: 0 <= j < |o| ==> o[j] < |descs|) && o == OrderTo(descs, |descs|)
    ensures InHole(descs, x) <==> exists p :: 0 <= p < |o| && Cursor(descs, o[..p]) <= x < descs[o[p]].start
  {
    hide Cursor, RowsTo, OrderTo, HasHole;
    if a: nat, b: nat :| HasHole(AllRows(descs), a, b) && a <= x < b {
      HoleBorn(descs, o, a, b);
    }
    if p :| 0 <= p < |o| && Cursor(descs, o[..p]) <= x < descs[o[p]].start {
      HoleBorn(descs, o, Cursor(descs, o[..p]), descs[o[p]].start);
      assert HasHole(AllRows(descs), Cursor(descs, o[..p]), descs[o[p]].start);
    }
  }

  /** For any map whatsoever: the HOLE rows hold exactly the uncovered bytes below some end, if and only if
      no descriptor starts past everything listed before it while a wrapped descriptor starts below it. */
  lemma HolesAreTheUncoveredBytesIff(descs: seq<Descriptor>)
    ensures (forall x: nat :: InHole(descs, x) <==> EndsAbove(descs, x) && !Covered(descs, x)) <==> !Misled(descs)
  {
    hide OrderTo, Cursor, End, InHole, Misleading, EndsAbove, Covered;
    var o := OrderTo(descs, |descs|);
    OrderIsComplete(descs);
    if Misled(descs) {
      var k :| 0 <= k < |descs| && Misleading(descs, k);
      var p, x := MisledShowsFalseHole(descs, o, k);
      HoleBytes(descs, o, x);
      assert InHole(descs, x) && Covered(descs, x);
    } else {
      forall x: nat
        ensures InHole(descs, x) <==> EndsAbove(descs, x) && !Covered(descs, x)
      {
        BytesAsShown(descs, o, x);
      }
    }
  }

  lemma BytesAsShown(descs: seq<Descriptor>, o: seq<nat>, x: nat)
    requires Listing(descs, o) && (forall i :: 0 <= i < |descs| ==> i in o) && o == OrderTo(descs, |descs|) && !Misled(descs)
    ensures InHole(descs, x) <==> EndsAbove(descs, x) && !Covered(descs, x)
  {
    hide OrderTo, Cursor, InHole, Misled, EndsAbove, Covered, Distinct, NotAfter;
    HoleBytes(descs, o, x);
    if p :| 0 <= p < |o| && Cursor(descs, o[..p]) <= x < descs[o[p]].start {
      ShownIsUncovered(descs, o, p, x);
    }
    if EndsAbove(descs, x) && !Covered(descs, x) {
      UncoveredIsListed(descs, o, x);
    }
  }

  lemma ShownIsUncovered(descs: seq<Descriptor>, o: seq<nat>, p: nat, x: nat)
    requires Listing(descs, o) && (forall i :: 0 <= i < |descs| ==> i in o) && !Misled(descs)
    requires p < |o| && Cursor(descs, o[..p]) <= x < descs[o[p]].start
    ensures EndsAbove(descs, x) && !Covered(descs, x)
  {
    hide Cursor, Misleading, Covered, Distinct, NotAfter;
    assert x < descs[o[p]].start + descs[o[p]].pages * 4096;
    if Covered(descs, x) {
      FalseHoleMisleads(descs, o, p, x);
      assert false;
    }
  }

  lemma UncoveredIsListed(descs: seq<Descriptor>, o: seq<nat>, x: nat)
    requires (forall k :: 0 <= k < |o| ==> o[k] < |descs|) && (forall i :: 0 <= i < |descs| ==> i in o)
    requires EndsAbove(descs, x) && !Covered(descs, x)
    ensures exists p :: 0 <= p < |o| && Cursor(descs, o[..p]) <= x < descs[o[p]].start
  {
    hide Cursor;
    var i :| 0 <= i < |descs| && x < descs[i].start + descs[i].pages * 4096;
    assert i in o;
    var j :| 0 <= j < |o| && o[j] == i;
    UncoveredIsShown(descs, o, x, j);
  }

  // ----- maps without overflow

  /** The HOLE rows hold exactly the uncovered bytes below the greatest end. */
  lemma HolesAreTheUncoveredBytes(descs: seq<Descriptor>, x: nat)
    requires NoOverflow(descs)
    ensures InHole(descs, x) <==> x < Top(descs) && !Covered(descs, x)
  {
    hide InHole, Top, Covered;
    HolesAreTheUncoveredBytesIff(descs);
    TopIsGreatestEnd(descs);
    assert !Misled(descs);
  }

  /** The kernel lists its map only after paging was set up, and that refuses every end that is not
      representable. */
  lemma ListedMapFits(descs: seq<Descriptor>, now: seq<Descriptor>, fb: Paging.Framebuffer)
    requires Aligned(descs) && Paging.CarvedFrom(descs, now, fb)
    ensures NoOverflow(now) && NoOverflow(Shown(now))
  {
    hide Carved, Lowest;
    var need := Paging.Need(descs, fb);
    Paging.CarvedRanges(descs, Lowest(descs, need).value, need, fb);
  }

  /** Every map the kernel lists, with at most 512 descriptors: the HOLE rows hold exactly the bytes that the
      firmware's own map leaves uncovered below the greatest end. */
  lemma KernelListing(descs: seq<Descriptor>, now: seq<Descriptor>, fb: Paging.Framebuffer, x: nat)
    requires Aligned(descs) && Paging.CarvedFrom(descs, now, fb) && |now| <= MAX_ROWS
    ensures InHole(Shown(now), x) <==> x < Top(now) && !Covered(descs, x)
  {
    hide InHole, Top, Lowest, Carved, Covered;
    ListedMapFits(descs, now, fb);
    HolesAreTheUncoveredBytes(now, x);
    var need := Paging.Need(descs, fb);
    CarveCoversSame(descs, Lowest(descs, need).value, need, x);
  }

  /** A maximal run of uncovered bytes below the greatest end. */
  ghost predicate Gap(descs: seq<Descriptor>, a: nat, b: nat) {
    && a < b <= Top(descs)
    && (forall x :: a <= x < b ==> !Covered(descs, x))
    && (a == 0 || Covered(descs, a - 1))
    && (b == Top(descs) || Covered(descs, b))
  }

  /** No empty descriptor stands in the middle of a gap. */
  predicate Unsplit(descs: seq<Descriptor>) {
    forall i :: 0 <= i < |descs| && descs[i].pages == 0 && 0 < descs[i].start < Top(descs) ==>
      Covered(descs, descs[i].start - 1) || Covered(descs, descs[i].start)
  }

  lemma HoleIsGap(descs: seq<Descriptor>, a: nat, b: nat)
    requires NoOverflow(descs) && Unsplit(descs) && HasHole(AllRows(descs), a, b)
    ensures Gap(descs, a, b)
  {
    hide OrderTo, RowsTo, Cursor, End, Covered, HasHole;
    var o := OrderTo(descs, |descs|);
    OrderIsComplete(descs);
    HoleEdges(descs, o, a, b);
    HoleBounds(AllRows(descs), a, b);
    forall x | a <= x < b
      ensures !Covered(descs, x)
    {
      HolesAreTheUncoveredBytes(descs, x);
    }
    LeftEdge(descs, o, a, b);
    RightEdge(descs, o, a, b);
  }

  lemma HoleBounds(rows: seq<Row>, a: nat, b: nat)
    requires HasHole(rows, a, b)
    ensures a < b
  {
  }

  lemma LeftEdge(descs: seq<Descriptor>, o: seq<nat>, a: nat, b: nat)
    requires NoOverflow(descs) && Unsplit(descs) && Listing(descs, o) && a < b <= Top(descs) && !Covered(descs, a)
    requires a == 0 || EndsAt(descs, o, a)
    ensures a == 0 || Covered(descs, a - 1)
  {
    hide OrderTo, Cursor, End, Top;
    if a > 0 {
      var j :| 0 <= j < |o| && End(descs[o[j]]) == a;
      RealEnd(descs[o[j]]);
      if descs[o[j]].pages > 0 {
        assert Holds(descs[o[j]], a - 1);
      }
    }
  }

  lemma RightEdge(descs: seq<Descriptor>, o: seq<nat>, a: nat, b: nat)
    requires NoOverflow(descs) && Unsplit(descs) && Listing(descs, o) && a < b <= Top(descs) && !Covered(descs, b - 1)
    requires StartsAt(descs, o, b)
    ensures b == Top(descs) || Covered(descs, b)
  {
    hide OrderTo, Cursor, End, Top;
    var j :| 0 <= j < |o| && descs[o[j]].start == b;
    if descs[o[j]].pages > 0 {
      assert Holds(descs[o[j]], b);
    }
  }

  lemma GapIsHole(descs: seq<Descriptor>, a: nat, b: nat)
    requires NoOverflow(descs) && Unsplit(descs) && Gap(descs, a, b)
    ensures HasHole(AllRows(descs), a, b)
  {
    hide OrderTo, RowsTo, Cursor, End, Covered, HasHole, Top, AllRows;
    HolesAreTheUncoveredBytes(descs, a);
    var a': nat, b': nat :| HasHole(AllRows(descs), a', b') && a' <= a < b';
    HoleIsGap(descs, a', b');
    assert a' < a ==> !Covered(descs, a - 1);
    assert b < b' ==> !Covered(descs, b);
    assert b' < b ==> !Covered(descs, b');
  }

  /** An empty descriptor in the middle of a gap cuts it into two HOLE rows. */
  lemma SplitHoles(descs: seq<Descriptor>)
    requires NoOverflow(descs) && !Unsplit(descs)
    ensures exists a: nat, b: nat :: HasHole(AllRows(descs), a, b) && !Gap(descs, a, b)
  {
    hide OrderTo, RowsTo, Cursor, End, Covered, HasHole;
    var o := OrderTo(descs, |descs|);
    OrderIsComplete(descs);
    var i :| 0 <= i < |descs| && descs[i].pages == 0 && 0 < descs[i].start < Top(descs)
             && !Covered(descs, descs[i].start - 1) && !Covered(descs, descs[i].start);
    var s := descs[i].start;
    HolesAreTheUncoveredBytes(descs, s - 1);
    var a: nat, b: nat :| HasHole(AllRows(descs), a, b) && a <= s - 1 < b;
    HoleEdges(descs, o, a, b);
    RealEnd(descs[i]);
    assert i in o;
    assert b == s;
    assert !Gap(descs, a, b);
  }

  /** The HOLE rows are exactly the maximal gaps if and only if no empty descriptor stands in the middle
      of one. */
  lemma HolesAreGapsIffUnsplit(descs: seq<Descriptor>)
    requires NoOverflow(descs)
    ensures (forall a: nat, b: nat :: HasHole(AllRows(descs), a, b) <==> Gap(descs, a, b)) <==> Unsplit(descs)
  {
    hide AllRows, HasHole, Gap, Unsplit;
    if Unsplit(descs) {
      forall a: nat, b: nat
        ensures HasHole(AllRows(descs), a, b) <==> Gap(descs, a, b)
      {
        if HasHole(AllRows(descs), a, b) {
          HoleIsGap(descs, a, b);
        }
        if Gap(descs, a, b) {
          GapIsHole(descs, a, b);
        }
      }
    } else {
      SplitHoles(descs);
    }
  }

  // ----- the rows in sequence

  function Lines(rows: seq<Row>): (o: seq<nat>) {
    if rows == [] then []
    else
      var n := |rows| - 1;
      Lines(rows[..n]) + (if rows[n].Line? then [rows[n].index] else [])
  }

  lemma LinesAppend(rows: seq<Row>, r: Row)
    ensures Lines(rows + [r]) == Lines(rows) + (if r.Line? then [r.index] else [])
  {
    assert (rows + [r])[..|rows|] == rows;
  }

  /** The descriptor rows are the listing, in its order. */
  lemma {:induction false} LinesAreTheListing(descs: seq<Descriptor>, o: seq<nat>)
    requires forall j :: 0 <= j < |o| ==> o[j] < |descs|
    ensures Lines(RowsTo(descs, o)) == o
  {
    if o != [] {
      var before, last := o[..|o| - 1], o[|o| - 1];
      var c := Cursor(descs, before);
      LinesAreTheListing(descs, before);
      if descs[last].start > c {
        LinesAppend(RowsTo(descs, before), HoleRow(c, descs[last].start));
        LinesAppend(RowsTo(descs, before) + [HoleRow(c, descs[last].start)], Line(last));
      } else {
        assert RowsTo(descs, before) + [] == RowsTo(descs, before);
        LinesAppend(RowsTo(descs, before), Line(last));
      }
      assert before + [last] == o;
    }
  }

  /** Every hole row ends below the cursor. */
  lemma {:induction false} HolesBelowCursor(descs: seq<Descriptor>, o: seq<nat>, p: nat)
    requires NoOverflow(descs) && (forall j :: 0 <= j < |o| ==> o[j] < |descs|)
    requires p < |RowsTo(descs, o)| && RowsTo(descs, o)[p].Hole?
    ensures RowsTo(descs, o)[p].last < Cursor(descs, o)
  {
    if o != [] {
      var before, last := o[..|o| - 1], o[|o| - 1];
      RealEnd(descs[last]);
      if p < |RowsTo(descs, before)| {
        HolesBelowCursor(descs, before, p);
      }
    }
  }

  /** HOLE rows ascend and do not overlap. */
  lemma {:induction false} HolesAscend(descs: seq<Descriptor>, o: seq<nat>, p: nat, q: nat)
    requires NoOverflow(descs) && (forall j :: 0 <= j < |o| ==> o[j] < |descs|)
    requires p < q < |RowsTo(descs, o)| && RowsTo(descs, o)[p].Hole? && RowsTo(descs, o)[q].Hole?
    ensures RowsTo(descs, o)[p].last < RowsTo(descs, o)[q].first
  {
    if o != [] {
      var before := o[..|o| - 1];
      if q < |RowsTo(descs, before)| {
        HolesAscend(descs, before, p, q);
      } else {
        HolesBelowCursor(descs, before, p);
      }
    }
  }
}
