/** Completion order and the counter service: what ties the handled counts and result codes of finished
    slots to the AP's own counters (kernel/ap_services.c, lines 33-55). */
module Order {
  import opened Words
  import opened ApRequest
  import opened ApServices
  import opened Protocol
  import opened StreamLive

  /** The BSP's bookkeeping: its shadow counter, the handled count of its last DONE harvest, and bounds
      that the AP's two counters cannot pass, and whether a request other than DONE was harvested. */
  datatype Marks = Marks(shadow: nat, last: nat, top: nat, counterTop: nat, closed: bool)

  predicate IsCounter(req: Request) {
    HandlerFor(req.service, req.iface) == Some(CounterHandler)
  }

  predicate PreBump(w: Stage) {
    w.Claimed? || w.Noting? || w.Beginning? || w.Preparing? || w.Handling?
  }

  predicate PreCount(w: Stage) {
    PreBump(w) || w.Replying? || w.Counting?
  }

  predicate Stamped(w: Stage) {
    w.Finishing? || w.Copying? || w.Committing?
  }

  function PendingCount(s: Sys): (n: nat)
    requires Shape(s)
  {
    One(s.slots[0].state == Pending) + One(s.slots[1].state == Pending) +
    One(s.slots[2].state == Pending) + One(s.slots[3].state == Pending)
  }

  /** Requests whose handler may still count itself. */
  function Uncounted(s: Sys): (n: nat)
    requires Shape(s)
  {
    PendingCount(s) + One(s.pc.Work? && PreCount(s.pc.w))
  }

  /** Requests whose handler may still bump the counter. */
  function Unbumped(s: Sys): (n: nat)
    requires Shape(s)
  {
    PendingCount(s) + One(s.pc.Work? && PreBump(s.pc.w))
  }

  predicate Ready(s: Sys, act: seq<bool>, j: nat)
    requires Shape(s) && |act| == 4 && j < 4
  {
    act[j] && s.slots[j].state == Done
  }

  /** Active DONE counter requests handled no later than number `h`. */
  function CountersUpTo(s: Sys, act: seq<bool>, h: int): (n: nat)
    requires Shape(s) && |act| == 4
  {
    One(Ready(s, act, 0) && IsCounter(s.slots[0].req) && s.slots[0].handled <= h) +
    One(Ready(s, act, 1) && IsCounter(s.slots[1].req) && s.slots[1].handled <= h) +
    One(Ready(s, act, 2) && IsCounter(s.slots[2].req) && s.slots[2].handled <= h) +
    One(Ready(s, act, 3) && IsCounter(s.slots[3].req) && s.slots[3].handled <= h)
  }

  predicate Distinct(s: Sys, act: seq<bool>)
    requires Shape(s) && |act| == 4
  {
    forall j, k :: 0 <= j < k < 4 && Ready(s, act, j) && Ready(s, act, k) ==> s.slots[j].handled != s.slots[k].handled
  }

  /** A DONE slot waiting to be harvested carries the count and the result of its place in the order. */
  predicate ReadyOk(s: Sys, act: seq<bool>, m: Marks, j: nat)
    requires Shape(s) && |act| == 4 && j < 4
  {
    Ready(s, act, j) ==>
      && m.last < s.slots[j].handled <= s.handled
      && (s.pc.Work? && Stamped(s.pc.w) ==> s.slots[j].handled < s.handled)
      && (IsCounter(s.slots[j].req) ==> s.slots[j].reply.result == m.shadow + CountersUpTo(s, act, s.slots[j].handled))
  }

  predicate WorkOrdered(s: Sys, m: Marks)
    requires Shape(s)
  {
    s.pc.Work? ==>
      var slot, w := s.slots[s.pc.i], s.pc.w;
      && (Stamped(w) ==> slot.handled == s.handled && m.last < s.handled)
      && (w.Handling? ==> (w.h.CounterHandler? <==> IsCounter(slot.req)))
      && (IsCounter(slot.req) && w.Replying? ==> w.value == s.counter)
      && (IsCounter(slot.req) && (w.Counting? || Stamped(w)) ==> slot.reply.result == s.counter)
  }

  predicate CounterOk(s: Sys, act: seq<bool>, m: Marks)
    requires Shape(s) && |act| == 4
  {
    s.pc.Scan? || s.pc.TryClaim? || s.pc.Clearing? || s.pc.Work? ==>
      s.counter == m.shadow + CountersUpTo(s, act, s.handled) +
                   One(s.pc.Work? && !PreBump(s.pc.w) && IsCounter(s.slots[s.pc.i].req))
  }

  predicate Ordered(s: Sys, act: seq<bool>, m: Marks) {
    && Shape(s) && |act| == 4
    && m.last <= s.handled && s.handled + Uncounted(s) <= m.top < 0x8000_0000
    && s.counter + Unbumped(s) <= m.counterTop < 0x1_0000_0000
    && WorkOrdered(s, m) && CounterOk(s, act, m) && Distinct(s, act)
    && ReadyOk(s, act, m, 0) && ReadyOk(s, act, m, 1) && ReadyOk(s, act, m, 2) && ReadyOk(s, act, m, 3)
  }

  lemma WorkPending(s: Sys, c: Choice)
    requires Shape(s) && s.pc.Work?
    ensures PendingCount(WorkStep(s, c)) == PendingCount(s)
  {
    hide WorkStep;
    WorkStates(s, c, 0);
    WorkStates(s, c, 1);
    WorkStates(s, c, 2);
    WorkStates(s, c, 3);
  }

  lemma WorkCounters(s: Sys, c: Choice)
    requires Shape(s) && s.pc.Work? && s.handled < 0x8000_0000 && s.counter + One(PreBump(s.pc.w)) < 0x1_0000_0000
    ensures var r := WorkStep(s, c);
            && r.handled == s.handled + One(s.pc.w.Counting?)
            && r.counter == s.counter + One(s.pc.w.Handling? && !c.Offer? && s.pc.w.h.CounterHandler?)
            && (r.pc.Work? && PreCount(r.pc.w) ==> PreCount(s.pc.w) && !s.pc.w.Counting?)
            && (r.pc.Work? && PreBump(r.pc.w) ==> PreBump(s.pc.w) && (s.pc.w.Handling? ==> c.Offer?))
  {
    hide OutboxOf, Appended, Clamped, MissCode, HandlerFor;
    match s.pc.w
    case Preparing =>
    case Handling(_) =>
    case Counting =>
    case Committing =>
    case _ =>
  }

  lemma WorkBounds(s: Sys, c: Choice, m: Marks)
    requires Shape(s) && s.pc.Work? && m.last <= s.handled
    requires s.handled + Uncounted(s) <= m.top < 0x8000_0000 && s.counter + Unbumped(s) <= m.counterTop < 0x1_0000_0000
    ensures var r := WorkStep(s, c);
            && m.last <= r.handled && r.handled + Uncounted(r) <= m.top && r.counter + Unbumped(r) <= m.counterTop
  {
    hide WorkStep, PendingCount;
    WorkPending(s, c);
    WorkCounters(s, c);
  }

  lemma WorkStaysOrdered(s: Sys, c: Choice, m: Marks)
    requires Shape(s) && ApLive(s) && s.pc.Work? && WorkOrdered(s, m)
    requires m.last <= s.handled && s.handled + One(s.pc.w.Counting?) < 0x8000_0000 && s.counter + One(PreBump(s.pc.w)) < 0x1_0000_0000
    ensures WorkOrdered(WorkStep(s, c), m)
  {
    hide OutboxOf, Appended, Clamped, MissCode;
  }

  /** Only the final swap of a completion makes a slot ready. */
  lemma WorkReady(s: Sys, c: Choice, act: seq<bool>, j: nat)
    requires Live(s, act) && s.pc.Work? && j < 4
    ensures var r := WorkStep(s, c);
            && (Ready(r, act, j) <==> Ready(s, act, j) || (act[j] && j == s.pc.i && s.pc.w.Committing?))
            && (Ready(s, act, j) ==> r.slots[j] == s.slots[j])
            && (s.pc.w.Committing? ==> r.slots[j] == s.slots[j].(state := r.slots[j].state) && r.handled == s.handled && r.counter == s.counter && r.pc.Clearing?)
            && r.slots[j].req == s.slots[j].req
  {
    hide OutboxOf, Appended, Clamped, MissCode, HandlerFor;
  }

  /** The number of ready counter requests changes only when one completes. */
  lemma WorkTally(s: Sys, c: Choice, act: seq<bool>, h: int)
    requires Live(s, act) && s.pc.Work? && (Stamped(s.pc.w) ==> s.slots[s.pc.i].handled == s.handled)
    ensures CountersUpTo(WorkStep(s, c), act, h) ==
            CountersUpTo(s, act, h) + One(s.pc.w.Committing? && IsCounter(s.slots[s.pc.i].req) && s.handled <= h)
  {
    hide WorkStep, IsCounter;
    WorkReady(s, c, act, 0);
    WorkReady(s, c, act, 1);
    WorkReady(s, c, act, 2);
    WorkReady(s, c, act, 3);
    assert act[s.pc.i] by { assert SlotLive(s, act, s.pc.i); }
  }

  /** Every ready request is counted by the time of the AP's own count. */
  lemma TallyAll(s: Sys, act: seq<bool>, m: Marks, h: int)
    requires Ordered(s, act, m) && h >= s.handled
    ensures CountersUpTo(s, act, h) == CountersUpTo(s, act, s.handled)
  {
    hide IsCounter, WorkOrdered, CounterOk, Distinct;
  }

  lemma WorkReadyOk(s: Sys, c: Choice, act: seq<bool>, m: Marks, j: nat)
    requires Live(s, act) && Ordered(s, act, m) && s.pc.Work? && j < 4
    ensures ReadyOk(WorkStep(s, c), act, m, j)
  {
    hide WorkStep, IsCounter, SlotLive, CountersUpTo, Distinct, Uncounted, Unbumped;
    WorkReady(s, c, act, j);
    WorkPhase(s, c);
    WorkCounters(s, c) by { assert s.counter + One(PreBump(s.pc.w)) <= s.counter + Unbumped(s) by { BumpBound(s); } }
    if Ready(s, act, j) {
      WorkTally(s, c, act, s.slots[j].handled);
      assert ReadyOk(s, act, m, j);
    } else if j == s.pc.i && s.pc.w.Committing? {
      WorkTally(s, c, act, s.handled);
    }
  }

  lemma BumpBound(s: Sys)
    requires Shape(s)
    ensures One(s.pc.Work? && PreBump(s.pc.w)) <= Unbumped(s)
  {
  }

  lemma WorkDistinct(s: Sys, c: Choice, act: seq<bool>, m: Marks)
    requires Live(s, act) && Ordered(s, act, m) && s.pc.Work?
    ensures Distinct(WorkStep(s, c), act)
  {
    hide WorkStep, IsCounter, SlotLive, CountersUpTo, Uncounted, Unbumped;
    WorkReady(s, c, act, 0);
    WorkReady(s, c, act, 1);
    WorkReady(s, c, act, 2);
    WorkReady(s, c, act, 3);
  }

  lemma WorkCounterOk(s: Sys, c: Choice, act: seq<bool>, m: Marks)
    requires Live(s, act) && Ordered(s, act, m) && s.pc.Work?
    ensures CounterOk(WorkStep(s, c), act, m)
  {
    hide WorkStep, IsCounter, SlotLive, CountersUpTo, Uncounted, Unbumped, Distinct, ReadyOk;
    var r := WorkStep(s, c);
    WorkCounters(s, c) by { BumpBound(s); }
    WorkRequests(s, c, s.pc.i);
    WorkTally(s, c, act, r.handled);
    TallyAll(s, act, m, r.handled);
    WorkPhase(s, c);
  }

  /** Where one step of the handler leads. */
  lemma WorkPhase(s: Sys, c: Choice)
    requires Shape(s) && s.pc.Work? && s.slots[s.pc.i].state == Running && !s.pc.w.RollingBack?
    ensures var r := WorkStep(s, c);
            && (r.pc.Work? || r.pc.Clearing? || r.pc.HaltedPc?) && (r.pc.Work? ==> r.pc.i == s.pc.i)
            && (s.pc.w.Committing? <==> r.pc.Clearing?)
            && (r.pc.Work? && Stamped(r.pc.w) ==> s.pc.w.Counting? || Stamped(s.pc.w))
            && (r.pc.Work? && !PreBump(r.pc.w) ==> !PreBump(s.pc.w) || s.pc.w.Handling? || r.pc.w.Missed?)
            && (s.pc.w.Handling? && !c.Offer? ==> r.pc.Work? && !PreBump(r.pc.w))
            && (!PreBump(s.pc.w) && r.pc.Work? ==> !PreBump(r.pc.w))
            && (r.pc.Work? && r.pc.w.Missed? ==> !IsCounter(s.slots[s.pc.i].req))
            && (s.pc.w.Handling? && c.Offer? ==> r.pc == s.pc)
  {
    hide WorkStep, IsCounter, PreBump, Stamped;
    WorkPc(s, c);
    WorkPhaseAt(s.pc.w, c, WorkStep(s, c).pc, s.slots[s.pc.i].req, s.pc.i, s.pc.g);
  }

  /** The stage after `w`; `h` is the handler of the request in hand. */
  function NextPc(i: nat, g: nat, w: Stage, c: Choice, h: Option<Handler>): (pc: Pc) {
    match w
    case Claimed => Work(i, g, Noting)
    case Noting => Work(i, g, Beginning)
    case Beginning => Work(i, g, Preparing)
    case Preparing => if h.Some? then Work(i, g, Handling(h.value)) else Work(i, g, Missed)
    case Handling(_) => Work(i, g, w)
    case Replying(_) => Work(i, g, Counting)
    case Counting => Work(i, g, Finishing)
    case Finishing => Work(i, g, Copying)
    case Copying => Work(i, g, Committing)
    case Committing => Clearing(i)
    case RollingBack => Clearing(i)
    case Missed => Work(i, g, Halting)
    case Halting => Work(i, g, Dropping)
    case Dropping => Work(i, g, Refusing)
    case Refusing => HaltedPc
  }

  lemma WorkPc(s: Sys, c: Choice)
    requires Shape(s) && s.pc.Work? && s.slots[s.pc.i].state == Running
    ensures var pc := WorkStep(s, c).pc;
            if s.pc.w.Handling? && !c.Offer? then pc.Work? && pc.i == s.pc.i && pc.g == s.pc.g && pc.w.Replying?
            else pc == NextPc(s.pc.i, s.pc.g, s.pc.w, c, HandlerFor(s.slots[s.pc.i].req.service, s.slots[s.pc.i].req.iface))
  {
    hide OutboxOf, Appended, Clamped, MissCode, HandlerFor;
  }

  lemma WorkPhaseAt(w: Stage, c: Choice, pc: Pc, req: Request, i: nat, g: nat)
    requires !w.RollingBack?
    requires if w.Handling? && !c.Offer? then pc.Work? && pc.i == i && pc.g == g && pc.w.Replying?
             else pc == NextPc(i, g, w, c, HandlerFor(req.service, req.iface))
    ensures && (pc.Work? || pc.Clearing? || pc.HaltedPc?) && (pc.Work? ==> pc.i == i)
            && (w.Committing? <==> pc.Clearing?)
            && (pc.Work? && Stamped(pc.w) ==> w.Counting? || Stamped(w))
            && (pc.Work? && !PreBump(pc.w) ==> !PreBump(w) || w.Handling? || pc.w.Missed?)
            && (w.Handling? && !c.Offer? ==> pc.Work? && !PreBump(pc.w))
            && (!PreBump(w) && pc.Work? ==> !PreBump(pc.w))
            && (pc.Work? && pc.w.Missed? ==> !IsCounter(req))
            && (w.Handling? && c.Offer? ==> pc == Work(i, g, w))
  {
    hide HandlerFor;
  }

  lemma WorkOrder(s: Sys, c: Choice, act: seq<bool>, m: Marks)
    requires Live(s, act) && Ordered(s, act, m) && s.pc.Work?
    ensures Ordered(WorkStep(s, c), act, m)
  {
    hide WorkStep, IsCounter, SlotLive, CountersUpTo, PendingCount, Distinct, ReadyOk, CounterOk, WorkOrdered;
    WorkBounds(s, c, m);
    WorkStaysOrdered(s, c, m);
    WorkCounterOk(s, c, act, m);
    WorkDistinct(s, c, act, m);
    WorkReadyOk(s, c, act, m, 0);
    WorkReadyOk(s, c, act, m, 1);
    WorkReadyOk(s, c, act, m, 2);
    WorkReadyOk(s, c, act, m, 3);
  }

  predicate SameReady(s: Sys, r: Sys, act: seq<bool>, j: nat)
    requires Shape(s) && Shape(r) && |act| == 4 && j < 4
  {
    (Ready(r, act, j) <==> Ready(s, act, j)) && (Ready(s, act, j) ==> r.slots[j] == s.slots[j])
  }

  predicate InLoop(pc: Pc) {
    pc.Scan? || pc.TryClaim? || pc.Clearing? || (pc.Work? && PreBump(pc.w))
  }

  /** A step that completes nothing and leaves the handler alone keeps the order. */
  lemma IdleOrder(s: Sys, r: Sys, act: seq<bool>, m: Marks)
    requires Ordered(s, act, m) && Shape(r) && r.handled == s.handled && r.counter == s.counter
    requires SameReady(s, r, act, 0) && SameReady(s, r, act, 1) && SameReady(s, r, act, 2) && SameReady(s, r, act, 3)
    requires Uncounted(r) <= Uncounted(s) && Unbumped(r) <= Unbumped(s)
    requires InLoop(r.pc) ==> InLoop(s.pc)
    requires InLoop(r.pc) || r.pc.Faulting? || r.pc.Dead? || r.pc.HaltedPc?
    requires r.pc.Work? ==> r.pc.w.Claimed?
    ensures Ordered(r, act, m)
  {
    hide IsCounter, Uncounted, Unbumped, CountersUpTo;
    forall h ensures CountersUpTo(r, act, h) == CountersUpTo(s, act, h) {
      SameTally(s, r, act, h);
    }
  }

  lemma SameTally(s: Sys, r: Sys, act: seq<bool>, h: int)
    requires Shape(s) && Shape(r) && |act| == 4
    requires SameReady(s, r, act, 0) && SameReady(s, r, act, 1) && SameReady(s, r, act, 2) && SameReady(s, r, act, 3)
    ensures CountersUpTo(r, act, h) == CountersUpTo(s, act, h)
  {
    hide IsCounter;
  }

  lemma FaultOrder(s: Sys, edit: Option<nat>, act: seq<bool>, m: Marks)
    requires Inv(s, edit) && Live(s, act) && Ordered(s, act, m) && s.pc.Faulting?
    ensures Ordered(FaultStep(s), act, m)
  {
    hide Ordered, FaultStep, Uncounted, Unbumped, SameReady, ApLive, SlotLive, Completed, WorkOk, RunningOwned, BootOk;
    FaultIdle(s, act, 0);
    FaultIdle(s, act, 1);
    FaultIdle(s, act, 2);
    FaultIdle(s, act, 3);
    FaultCounts(s);
    IdleOrder(s, FaultStep(s), act, m);
  }

  lemma FaultIdle(s: Sys, act: seq<bool>, j: nat)
    requires Shape(s) && CurrentOk(s) && s.pc.Faulting? && |act| == 4 && j < 4
    ensures SameReady(s, FaultStep(s), act, j)
    ensures FaultStep(s).slots[j].state == Pending ==> s.slots[j].state == Pending
  {
  }

  lemma FaultCounts(s: Sys)
    requires Shape(s) && CurrentOk(s) && s.pc.Faulting?
    ensures var r := FaultStep(s);
            && r.handled == s.handled && r.counter == s.counter && (r.pc.Faulting? || r.pc.Dead?)
            && Uncounted(r) <= Uncounted(s) && Unbumped(r) <= Unbumped(s)
  {
    FaultIdle(s, [false, false, false, false], 0);
    FaultIdle(s, [false, false, false, false], 1);
    FaultIdle(s, [false, false, false, false], 2);
    FaultIdle(s, [false, false, false, false], 3);
  }

  lemma OtherOrder(s: Sys, c: Choice, act: seq<bool>, m: Marks)
    requires Live(s, act) && Ordered(s, act, m) && (c.FaultNow? || !s.pc.Work?) && !s.pc.Faulting?
    ensures Ordered(ApStep(s, c), act, m)
  {
    hide Ordered, OutboxOf, SlotLive, WorkStep;
    if !s.pc.Dead? && !(s.pc.HaltedPc? && !c.FaultNow?) {
      IdleOrder(s, ApStep(s, c), act, m);
    }
  }

  lemma ApStepOrder(s: Sys, c: Choice, edit: Option<nat>, act: seq<bool>, m: Marks)
    requires Inv(s, edit) && Live(s, act) && Ordered(s, act, m)
    ensures Ordered(ApStep(s, c), act, m)
  {
    hide Ordered, WorkStep, FaultStep, ApLive, SlotLive, WorkOk, RunningOwned, Completed, CurrentOk, BootOk;
    if s.pc.Faulting? {
      FaultOrder(s, edit, act, m);
    } else if s.pc.Work? && !c.FaultNow? {
      WorkOrder(s, c, act, m);
    } else {
      OtherOrder(s, c, act, m);
    }
  }

  /** Ready slots stay as they are, and what becomes ready was handled after everything ready before. */
  predicate Later(s: Sys, r: Sys, act: seq<bool>) {
    && Shape(s) && Shape(r) && |act| == 4
    && (forall j :: 0 <= j < 4 && Ready(s, act, j) ==> Ready(r, act, j) && r.slots[j] == s.slots[j])
    && (forall j, k :: 0 <= j < 4 && 0 <= k < 4 && Ready(s, act, j) && Ready(r, act, k) && !Ready(s, act, k) ==>
          s.slots[j].handled < r.slots[k].handled)
  }

  lemma LaterTransitive(a: Sys, b: Sys, c: Sys, act: seq<bool>)
    requires Later(a, b, act) && Later(b, c, act)
    ensures Later(a, c, act)
  {
  }

  lemma WorkLater(s: Sys, c: Choice, act: seq<bool>, m: Marks)
    requires Live(s, act) && Ordered(s, act, m) && s.pc.Work?
    ensures Later(s, WorkStep(s, c), act)
  {
    hide WorkStep, IsCounter, SlotLive, CountersUpTo, Uncounted, Unbumped, CounterOk, Distinct;
    WorkReady(s, c, act, 0);
    WorkReady(s, c, act, 1);
    WorkReady(s, c, act, 2);
    WorkReady(s, c, act, 3);
  }

  lemma ApStepLater(s: Sys, c: Choice, edit: Option<nat>, act: seq<bool>, m: Marks)
    requires Inv(s, edit) && Live(s, act) && Ordered(s, act, m)
    ensures Later(s, ApStep(s, c), act)
  {
    hide Ordered, WorkStep, FaultStep, ApLive, SlotLive, WorkOk, RunningOwned, Completed, CurrentOk, BootOk;
    if s.pc.Faulting? {
      FaultIdle(s, act, 0);
      FaultIdle(s, act, 1);
      FaultIdle(s, act, 2);
      FaultIdle(s, act, 3);
    } else if s.pc.Work? && !c.FaultNow? {
      WorkLater(s, c, act, m);
    }
  }

  /** Any number of AP steps keep the completion order. */
  lemma {:induction false} RunApOrder(s: Sys, cs: seq<Choice>, edit: Option<nat>, act: seq<bool>, m: Marks)
    requires Shape(s) && Inv(s, edit) && Live(s, act) && Ordered(s, act, m)
    ensures Ordered(RunAp(s, cs), act, m) && Later(s, RunAp(s, cs), act)
    decreases |cs|
  {
    hide Inv, Live, Ordered, ApStep, Later;
    if cs == [] {
      LaterReflexive(s, act, m);
    } else {
      ApStepKeeps(s, cs[0], edit);
      ApStepLive(s, cs[0], edit, act);
      ApStepOrder(s, cs[0], edit, act, m);
      ApStepLater(s, cs[0], edit, act, m);
      RunApOrder(ApStep(s, cs[0]), cs[1..], edit, act, m);
      LaterTransitive(s, ApStep(s, cs[0]), RunAp(s, cs), act);
    }
  }

  lemma LaterReflexive(s: Sys, act: seq<bool>, m: Marks)
    requires Ordered(s, act, m)
    ensures Later(s, s, act)
  {
  }

  // ----- the BSP's writes

  /** Slot `j` is ready in both states with the same request, reply and count, or in neither. */
  predicate Carried(s: Sys, act: seq<bool>, r: Sys, act': seq<bool>, j: nat)
    requires Shape(s) && Shape(r) && |act| == 4 && |act'| == 4 && j < 4
  {
    && (Ready(r, act', j) <==> Ready(s, act, j))
    && (Ready(s, act, j) ==>
          && r.slots[j].handled == s.slots[j].handled && r.slots[j].req == s.slots[j].req
          && r.slots[j].reply == s.slots[j].reply)
  }

  predicate AllCarried(s: Sys, act: seq<bool>, r: Sys, act': seq<bool>) {
    && Shape(s) && Shape(r) && |act| == 4 && |act'| == 4
    && Carried(s, act, r, act', 0) && Carried(s, act, r, act', 1) && Carried(s, act, r, act', 2) && Carried(s, act, r, act', 3)
  }

  lemma CarriedTally(s: Sys, act: seq<bool>, r: Sys, act': seq<bool>, h: int)
    requires AllCarried(s, act, r, act')
    ensures CountersUpTo(r, act', h) == CountersUpTo(s, act, h)
  {
    hide IsCounter;
  }

  lemma CarriedReady(s: Sys, act: seq<bool>, r: Sys, act': seq<bool>, m: Marks, j: nat)
    requires AllCarried(s, act, r, act') && r.pc == s.pc && r.handled == s.handled && j < 4 && ReadyOk(s, act, m, j)
    ensures ReadyOk(r, act', m, j)
  {
    hide IsCounter, CountersUpTo;
    CarriedTally(s, act, r, act', s.slots[j].handled);
  }

  /** A BSP write that leaves the working slot and the ready slots alone keeps the order. */
  lemma WriteOrder(s: Sys, act: seq<bool>, r: Sys, act': seq<bool>, m: Marks, m': Marks, d: nat)
    requires Ordered(s, act, m) && AllCarried(s, act, r, act')
    requires r.pc == s.pc && r.handled == s.handled && r.counter == s.counter
    requires s.pc.Work? ==> r.slots[s.pc.i].handled == s.slots[s.pc.i].handled && r.slots[s.pc.i].req == s.slots[s.pc.i].req
                            && r.slots[s.pc.i].reply == s.slots[s.pc.i].reply
    requires PendingCount(r) <= PendingCount(s) + d
    requires m' == m.(top := m.top + d, counterTop := m.counterTop + d)
    requires d > 0 ==> m'.top < 0x8000_0000 && m'.counterTop < 0x1_0000_0000
    ensures Ordered(r, act', m')
  {
    hide IsCounter, CountersUpTo, PendingCount, ReadyOk;
    CarriedTally(s, act, r, act', s.handled);
    CarriedReady(s, act, r, act', m, 0);
    CarriedReady(s, act, r, act', m, 1);
    CarriedReady(s, act, r, act', m, 2);
    CarriedReady(s, act, r, act', m, 3);
    ReadyMarks(r, act', m, m');
    assert Distinct(r, act') by {
      assert Carried(s, act, r, act', 0) && Carried(s, act, r, act', 1) && Carried(s, act, r, act', 2) && Carried(s, act, r, act', 3);
    }
  }

  lemma ReadyMarks(r: Sys, act: seq<bool>, m: Marks, m': Marks)
    requires Shape(r) && |act| == 4 && m'.last == m.last && m'.shadow == m.shadow
    ensures forall j :: 0 <= j < 4 && ReadyOk(r, act, m, j) ==> ReadyOk(r, act, m', j)
  {
    hide IsCounter, CountersUpTo;
  }

  /** No active slot is DONE. */
  predicate NoReady(s: Sys, act: seq<bool>)
    requires Shape(s) && |act| == 4
  {
    !Ready(s, act, 0) && !Ready(s, act, 1) && !Ready(s, act, 2) && !Ready(s, act, 3)
  }

  /** Nothing is DONE and nothing will be: the AP completes no further request. */
  predicate Sealed(s: Sys, act: seq<bool>)
    requires Shape(s) && |act| == 4
  {
    (Stopping(s) || !s.boot.bootOk) && NoReady(s, act)
  }

  /** Whatever the AP does next. */
  lemma SealedStays(s: Sys, r: Sys, act: seq<bool>)
    requires Live(s, act) && ApMoved(s, r) && Sealed(s, act)
    ensures Sealed(r, act)
  {
    hide ApLive;
  }

  /** The order itself does not depend on the closing mark. */
  lemma OrderedClosed(s: Sys, act: seq<bool>, m: Marks)
    requires Ordered(s, act, m)
    ensures Ordered(s, act, m.(closed := true))
  {
    hide IsCounter, CountersUpTo, Uncounted, Unbumped, Distinct;
  }

  predicate Earliest(s: Sys, act: seq<bool>, j: nat)
    requires Shape(s) && |act| == 4 && j < 4
  {
    Ready(s, act, j) && forall k :: 0 <= k < 4 && Ready(s, act, k) ==> s.slots[j].handled <= s.slots[k].handled
  }

  function Advanced(s: Sys, m: Marks, j: nat): (r: Marks)
    requires Shape(s) && j < 4
  {
    m.(last := s.slots[j].handled, shadow := m.shadow + One(IsCounter(s.slots[j].req)))
  }

  lemma HarvestTally(s: Sys, act: seq<bool>, j: nat, h: int)
    requires Shape(s) && |act| == 4 && j < 4 && Ready(s, act, j) && s.slots[j].handled <= h
    ensures CountersUpTo(s, act, h) == CountersUpTo(s, act[j := false], h) + One(IsCounter(s.slots[j].req))
  {
    hide IsCounter;
  }

  /** Nothing ready precedes the earliest ready slot. */
  lemma EarliestTally(s: Sys, act: seq<bool>, m: Marks, j: nat)
    requires Ordered(s, act, m) && j < 4 && Earliest(s, act, j)
    ensures CountersUpTo(s, act, s.slots[j].handled) == One(IsCounter(s.slots[j].req))
  {
    hide IsCounter, WorkOrdered, CounterOk, ReadyOk, Uncounted, Unbumped;
    assert forall k :: 0 <= k < 4 && k != j && Ready(s, act, k) ==> s.slots[k].handled > s.slots[j].handled;
  }

  lemma HarvestReady(s: Sys, act: seq<bool>, m: Marks, j: nat, k: nat)
    requires Ordered(s, act, m) && j < 4 && k < 4 && Earliest(s, act, j)
    ensures ReadyOk(s, act[j := false], Advanced(s, m, j), k)
  {
    hide IsCounter, CountersUpTo, WorkOrdered, CounterOk, Uncounted, Unbumped;
    if k != j && Ready(s, act, k) {
      assert ReadyOk(s, act, m, k);
      HarvestTally(s, act, j, s.slots[k].handled);
    }
  }

  /** Harvesting the earliest DONE slot advances the order by exactly that slot. */
  lemma HarvestOrder(s: Sys, act: seq<bool>, m: Marks, j: nat)
    requires Ordered(s, act, m) && j < 4 && Earliest(s, act, j)
    ensures m.last < s.slots[j].handled
    ensures IsCounter(s.slots[j].req) ==> s.slots[j].reply.result == m.shadow + 1
    ensures Ordered(s, act[j := false], Advanced(s, m, j))
  {
    hide IsCounter, CountersUpTo, Uncounted, Unbumped;
    assert ReadyOk(s, act, m, j);
    EarliestTally(s, act, m, j);
    HarvestTally(s, act, j, s.handled);
    HarvestReady(s, act, m, j, 0);
    HarvestReady(s, act, m, j, 1);
    HarvestReady(s, act, m, j, 2);
    HarvestReady(s, act, m, j, 3);
  }
}
