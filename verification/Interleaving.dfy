/** All interleavings of one AP with a BSP that may reset, rewrite, publish, time out and stop slots
    at any moment, in particular while the AP is still inside the handler of an earlier request. */
module Interleaving {
  import opened Words
  import opened ApRequest
  import opened ApServices
  import opened Protocol

  /** Single accesses of the BSP (kernel/kernel.c, lines 2349-2376, 2412-2434, 2508-2526). */
  datatype BspMove =
    | OpenSlot(i: nat)                        // slot->state = EMPTY
    | ClearFields                             // the other fields of reset_ap_request_slot
    | ClearOutbox                             // reset_ap_request_outbox
    | Prepare(plan: Plan, target: u32)        // prepare_ap_request_slot_from_plan
    | FaultCode                               // slot->reply.fault_code = fault_vector
    | Publish(st: SlotState)                  // the final store: PENDING, SKIPPED, FAULT, or none
    | StopStore(i: nat, st: SlotState)        // plain store of SKIPPED or FAULT
    | StopFaultCode(i: nat)                   // fault code of a running slot after the AP faulted
    | Expire(i: nat, expected: SlotState)     // compare-and-swap to TIMEOUT
    | Wait(i: nat, loops: u32)                // slot->metrics.wait_loops

  datatype Action = ApActs(c: Choice) | BspActs(m: BspMove)

  /** `edit` is the slot between its reset and its publication. */
  datatype World = World(s: Sys, edit: Option<nat>)

  predicate Enabled(w: World, m: BspMove)
    requires Shape(w.s)
  {
    match m
    case OpenSlot(i) => i < 4 && w.edit.None?
    case ClearFields => w.edit.Some? && w.edit.value < 4
    case ClearOutbox => w.edit.Some? && w.edit.value < 4
    case Prepare(_, _) => w.edit.Some? && w.edit.value < 4
    case FaultCode => w.edit.Some? && w.edit.value < 4
    case Publish(st) => w.edit.Some? && w.edit.value < 4 && st in {Pending, Skipped, Fault, Empty}
    case StopStore(i, st) => i < 4 && w.edit.None? && st in {Skipped, Fault}
    case StopFaultCode(i) => i < 4 && w.s.boot.apState == Faulted && w.s.slots[i].state == Running
    case Expire(i, expected) => i < 4 && w.edit.None? && expected in {Pending, Running}
    case Wait(i, _) => i < 4
  }

  function BspStep(w: World, m: BspMove): (r: World)
    requires Shape(w.s) && Enabled(w, m)
    ensures Shape(r.s)
  {
    match m
    case OpenSlot(i) => World(WithState(w.s, i, Empty), Some(i))
    case ClearFields => w.(s := WithSlot(w.s, w.edit.value, Cleared(w.s.slots[w.edit.value])))
    case ClearOutbox => w.(s := WithCommitted(w.s, w.edit.value, EMPTY_OUTBOX))
    case Prepare(plan, target) => w.(s := WithPlan(w.s, w.edit.value, plan, target))
    case FaultCode => w.(s := WithFaultCode(w.s, w.edit.value))
    case Publish(st) => World(WithState(w.s, w.edit.value, st), None)
    case StopStore(i, st) => w.(s := WithState(w.s, i, st))
    case StopFaultCode(i) => w.(s := WithFaultCode(w.s, i))
    case Expire(i, expected) => w.(s := Swapped(w.s, i, expected, TimedOut))
    case Wait(i, loops) => w.(s := WithWait(w.s, i, loops))
  }

  /** One action of either processor; a BSP move that is not enabled is skipped. */
  function Act(w: World, a: Action): (r: World)
    requires Shape(w.s)
    ensures Shape(r.s)
  {
    match a
    case ApActs(c) => w.(s := ApStep(w.s, c))
    case BspActs(m) => if Enabled(w, m) then BspStep(w, m) else w
  }

  function Play(w: World, run: seq<Action>): (r: World)
    requires Shape(w.s)
    ensures Shape(r.s)
    decreases |run|
  {
    if run == [] then w else Play(Act(w, run[0]), run[1..])
  }

  lemma BspKeeps(w: World, m: BspMove)
    requires Shape(w.s) && Enabled(w, m) && Inv(w.s, w.edit)
    ensures Inv(BspStep(w, m).s, BspStep(w, m).edit)
  {
    hide OutboxOf, WorkOk, RunningOwned, Completed, CurrentOk, BootOk;
    var r := BspStep(w, m);
    match m
    case Expire(i, expected) =>
      if w.s.slots[i].state == expected {
        ReplacedKeeps(w.s, r.s, i, w.edit, r.edit);
      }
    case Wait(i, loops) => WaitKeeps(w.s, i, loops, w.edit);
    case StopFaultCode(i) => FaultCodeKeeps(w.s, i, w.edit);
    case OpenSlot(i) => ReplacedKeeps(w.s, r.s, i, w.edit, r.edit);
    case StopStore(i, _) => ReplacedKeeps(w.s, r.s, i, w.edit, r.edit);
    case _ => ReplacedKeeps(w.s, r.s, w.edit.value, w.edit, r.edit);
  }

  /** Every interleaving keeps the protocol invariant. */
  lemma {:induction false} PlayKeeps(w: World, run: seq<Action>)
    requires Shape(w.s) && Inv(w.s, w.edit)
    ensures Inv(Play(w, run).s, Play(w, run).edit)
    decreases |run|
  {
    hide Inv, ApStep, BspStep, Enabled;
    if run != [] {
      match run[0] {
        case ApActs(c) => ApStepKeeps(w.s, c, w.edit);
        case BspActs(m) =>
          if Enabled(w, m) {
            BspKeeps(w, m);
          }
      }
      PlayKeeps(Act(w, run[0]), run[1..]);
    }
  }

  /** After bring-up: an AP in its claim loop, no request published yet. */
  predicate Start(w: World) {
    && Shape(w.s) && w.edit.None? && w.s.pc == Scan(0) && w.s.current.None?
    && w.s.boot.apState != Faulted && w.s.boot.apState != HaltedState
    && forall j :: 0 <= j < 4 ==> w.s.slots[j].state == Empty
  }

  lemma StartOk(w: World)
    requires Start(w)
    ensures Inv(w.s, w.edit)
  {
  }

  /** No ABA across slot reuse: whenever a slot reads DONE or BAD_OP, it was completed by the run that
      claimed the request it now holds, the reply names that request and carries no fault code, and a refusal
      carries the code for what was not found. */
  lemma NoStaleCompletion(w: World, run: seq<Action>, j: nat)
    requires Start(w) && j < 4
    ensures var s := Play(w, run).s;
            && (s.slots[j].state == Done || s.slots[j].state == BadOp ==> s.doneBy[j] == s.gens[j])
            && (s.slots[j].state == Done || s.slots[j].state == BadOp ==> Answers(s.slots[j].reply, s.slots[j].req))
            && (s.slots[j].state == BadOp ==> s.slots[j].reply.result == MissCode(s.slots[j].req.service, s.slots[j].req.iface))            && (s.slots[j].state == Done || (s.slots[j].state == BadOp && !s.pc.Dead?) ==> s.slots[j].reply.faultCode == 0)
            && (s.slots[j].state == Done && HandlerFor(s.slots[j].req.service, s.slots[j].req.iface) == Some(PingHandler) ==>
                  s.slots[j].reply.result == 0)
  {
    StartOk(w);
    PlayKeeps(w, run);
    assert Completed(Play(w, run).s, j);
  }

  /** A DONE slot's committed outbox is exactly the first four plans its own handler offered,
      followed by zero entries. */
  lemma OutboxIsAtomic(w: World, run: seq<Action>, j: nat)
    requires Start(w) && j < 4 && Play(w, run).s.slots[j].state == Done
    ensures var s := Play(w, run).s;
            && s.doneBy[j] == s.gens[j]
            && s.committed[j] == OutboxOf(s.made[j])
            && (forall k :: 0 <= k < CAPACITY ==>
                  s.committed[j].entries[k] == if k < |s.made[j]| then s.made[j][k] else NO_PLAN)
  {
    StartOk(w);
    PlayKeeps(w, run);
    assert Completed(Play(w, run).s, j);
  }

  // ----- what becomes of an outbox whose completion lost its swap

  /** The AP copies its scratch outbox into slot `i`. */
  predicate Copies(w: World, a: Action, i: nat) {
    a.ApActs? && !a.c.FaultNow? && w.s.pc.Work? && w.s.pc.i == i && w.s.pc.w.Copying?
  }

  /** The AP rolls back slot `i`. */
  predicate RollsBack(w: World, a: Action, i: nat) {
    a.ApActs? && !a.c.FaultNow? && w.s.pc.Work? && w.s.pc.i == i && w.s.pc.w.RollingBack?
  }

  /** The BSP resets the outbox of slot `i`. */
  predicate Resets(w: World, a: Action, i: nat)
    requires Shape(w.s)
  {
    a.BspActs? && a.m.ClearOutbox? && w.edit == Some(i) && Enabled(w, a.m)
  }

  lemma ActOutbox(w: World, a: Action, i: nat)
    requires Shape(w.s) && i < 4 && !Copies(w, a, i)
    ensures Act(w, a).s.committed[i] == if RollsBack(w, a, i) || Resets(w, a, i) then EMPTY_OUTBOX else w.s.committed[i]
  {
    hide OutboxOf, Appended, Clamped, HandlerFor, MissCode;
  }

  predicate NoCopy(w: World, run: seq<Action>, i: nat)
    requires Shape(w.s)
    decreases |run|
  {
    run == [] || (!Copies(w, run[0], i) && NoCopy(Act(w, run[0]), run[1..], i))
  }

  predicate SomeReset(w: World, run: seq<Action>, i: nat)
    requires Shape(w.s)
    decreases |run|
  {
    run != [] && (Resets(w, run[0], i) || SomeReset(Act(w, run[0]), run[1..], i))
  }

  /** The AP's first action, if it acts at all. */
  function FirstChoice(run: seq<Action>): (c: Option<Choice>) {
    if run == [] then None else if run[0].ApActs? then Some(run[0].c) else FirstChoice(run[1..])
  }

  /** An empty outbox stays empty until the AP copies into it. */
  lemma {:induction false} EmptyUntilCopy(w: World, run: seq<Action>, i: nat)
    requires Shape(w.s) && i < 4 && w.s.committed[i] == EMPTY_OUTBOX && NoCopy(w, run, i)
    ensures Play(w, run).s.committed[i] == EMPTY_OUTBOX
    decreases |run|
  {
    hide Act;
    if run != [] {
      ActOutbox(w, run[0], i);
      EmptyUntilCopy(Act(w, run[0]), run[1..], i);
    }
  }

  predicate Stranded(pc: Pc) {
    pc.Faulting? || pc.Dead?
  }

  lemma StrandedStays(w: World, a: Action)
    requires Shape(w.s) && Stranded(w.s.pc)
    ensures Stranded(Act(w, a).s.pc)
  {
  }

  /** A faulted AP leaves every outbox to the BSP. */
  lemma {:induction false} StrandedOutbox(w: World, run: seq<Action>, i: nat)
    requires Shape(w.s) && i < 4 && Stranded(w.s.pc)
    ensures Play(w, run).s.committed[i] == if SomeReset(w, run, i) then EMPTY_OUTBOX else w.s.committed[i]
    decreases |run|
  {
    hide Act, Resets;
    if run != [] {
      ActOutbox(w, run[0], i);
      StrandedStays(w, run[0]);
      StrandedOutbox(Act(w, run[0]), run[1..], i);
    }
  }

  lemma RollBackActs(w: World, a: Action, i: nat)
    requires Shape(w.s) && w.s.pc.Work? && w.s.pc.w.RollingBack? && w.s.pc.i == i
    ensures a.BspActs? ==> Act(w, a).s.pc == w.s.pc
    ensures a.ApActs? && a.c.FaultNow? ==> Stranded(Act(w, a).s.pc)
  {
  }

  lemma {:induction false} RollingBackOutbox(w: World, run: seq<Action>, i: nat)
    requires Shape(w.s) && w.s.pc.Work? && w.s.pc.w.RollingBack? && w.s.pc.i == i && NoCopy(w, run, i)
    ensures var first := FirstChoice(run);
            Play(w, run).s.committed[i] ==
            if (first.Some? && !first.value.FaultNow?) || SomeReset(w, run, i) then EMPTY_OUTBOX else w.s.committed[i]
    decreases |run|
  {
    hide Act, Resets;
    if run != [] {
      var next := Act(w, run[0]);
      ActOutbox(w, run[0], i);
      RollBackActs(w, run[0], i);
      if run[0].BspActs? {
        RollingBackOutbox(next, run[1..], i);
      } else if run[0].c.FaultNow? {
        StrandedOutbox(next, run[1..], i);
      } else {
        EmptyUntilCopy(next, run[1..], i);
      }
    }
  }

  /** After a completion that lost its compare-and-swap, over all actions of both processors up to the AP's
      next copy into that slot: the committed outbox is empty once the AP has acted again or the BSP has
      reset it.  The one exception is a fault as the AP's very next action; then the copied plans stay until
      the BSP resets the outbox. */
  lemma LostCompletionEmptiesOutbox(w: World, run: seq<Action>)
    requires Shape(w.s) && w.s.pc.Work? && w.s.pc.w.Committing? && w.s.slots[w.s.pc.i].state != Running
    requires NoCopy(Act(w, ApActs(Go)), run, w.s.pc.i)
    ensures var i, lost, first := w.s.pc.i, Act(w, ApActs(Go)), FirstChoice(run);
            && lost.s.slots == w.s.slots
            && Play(lost, run).s.committed[i] ==
               if (first.Some? && !first.value.FaultNow?) || SomeReset(lost, run, i) then EMPTY_OUTBOX else w.s.committed[i]
  {
    RollingBackOutbox(Act(w, ApActs(Go)), run, w.s.pc.i);
  }

  // ----- when a finished state is final

  /** The AP is about to store FAULT into slot `j`, having seen it empty. */
  predicate BlindStore(s: Sys, j: nat)
    requires Shape(s) && j < 4
  {
    s.pc.Faulting? && s.pc.f.FStore? && s.current == Some(j) && s.slots[j].state != Fault
  }

  lemma StepKeepsFinished(s: Sys, c: Choice, edit: Option<nat>, j: nat)
    requires Inv(s, edit) && j < 4 && Finished(s.slots[j].state) && !BlindStore(s, j)
    ensures ApStep(s, c).slots[j].state == s.slots[j].state && !BlindStore(ApStep(s, c), j)
  {
    hide OutboxOf, WorkStep, FaultStep, RunningOwned, AllCompleted, BootOk;
    if s.pc.Faulting? {
      FaultKeepsFinished(s, j);
    } else if s.pc.Work? && !c.FaultNow? {
      WorkStates(s, c, j);
      WorkLeavesPc(s, c);
    }
  }

  lemma FaultKeepsFinished(s: Sys, j: nat)
    requires Shape(s) && s.pc.Faulting? && j < 4 && Finished(s.slots[j].state) && !BlindStore(s, j)
    ensures FaultStep(s).slots[j].state == s.slots[j].state && !BlindStore(FaultStep(s), j)
  {
  }

  lemma WorkLeavesPc(s: Sys, c: Choice)
    requires Shape(s) && s.pc.Work?
    ensures !WorkStep(s, c).pc.Faulting?
  {
    hide OutboxOf, Appended, Clamped, HandlerFor, MissCode;
  }

  lemma {:induction false} RunKeepsFinished(s: Sys, cs: seq<Choice>, edit: Option<nat>, j: nat)
    requires Shape(s) && Inv(s, edit) && j < 4 && Finished(s.slots[j].state) && !BlindStore(s, j)
    ensures RunAp(s, cs).slots[j].state == s.slots[j].state
    decreases |cs|
  {
    hide Inv, ApStep, BlindStore;
    if cs != [] {
      StepKeepsFinished(s, cs[0], edit, j);
      ApStepKeeps(s, cs[0], edit);
      RunKeepsFinished(ApStep(s, cs[0]), cs[1..], edit, j);
    }
  }

  /** A finished state is final under every behaviour of the AP if and only if the AP is not about to store
      FAULT there without looking again. */
  lemma FinishedIsFinalIff(s: Sys, edit: Option<nat>, j: nat)
    requires Inv(s, edit) && j < 4 && Finished(s.slots[j].state)
    ensures (forall cs: seq<Choice> :: RunAp(s, cs).slots[j].state == s.slots[j].state) <==> !BlindStore(s, j)
  {
    hide WorkOk, RunningOwned, AllCompleted, CurrentOk, BootOk, RunAp, BlindStore;
    if BlindStore(s, j) {
      StoresBlindly(s, j);
      assert RunAp(s, [Go]).slots[j].state != s.slots[j].state;
    } else {
      forall cs: seq<Choice>
        ensures RunAp(s, cs).slots[j].state == s.slots[j].state
      {
        RunKeepsFinished(s, cs, edit, j);
      }
    }
  }

  lemma StoresBlindly(s: Sys, j: nat)
    requires Shape(s) && j < 4 && BlindStore(s, j)
    ensures RunAp(s, [Go]).slots[j].state == Fault != s.slots[j].state
  {
    assert RunAp(s, [Go]) == ApStep(s, Go);
  }

  // ----- what a faulting AP reports

  /** The BSP's action writes more of slot `j` than its wait count. */
  predicate Rewrites(w: World, a: Action, j: nat)
    requires Shape(w.s)
  {
    a.BspActs? && Enabled(w, a.m) &&
    match a.m
    case OpenSlot(i) => i == j
    case StopStore(i, _) => i == j
    case StopFaultCode(i) => i == j
    case Expire(i, _) => i == j
    case Wait(_, _) => false
    case _ => w.edit == Some(j)
  }

  predicate NoRewrite(w: World, run: seq<Action>, j: nat)
    requires Shape(w.s)
    decreases |run|
  {
    run == [] || (!Rewrites(w, run[0], j) && NoRewrite(Act(w, run[0]), run[1..], j))
  }

  predicate Open(slot: Slot) {
    slot.state == Pending || slot.state == Running
  }

  /** The slot names its request and the vector. */
  predicate Reports(slot: Slot, vector: u64) {
    slot.state == Fault && slot.reply.faultCode == vector % 0x1_0000_0000 && Answers(slot.reply, slot.req)
  }

  /** How far the fault path has come with slot `j`, which was open when the fault struck. */
  predicate OnTheWay(s: Sys, vector: u64, j: nat)
    requires Shape(s) && j < 4
  {
    var slot, mine := s.slots[j], s.current == Some(j);
    && (s.pc.Dead? || (s.pc.Faulting? && s.pc.vector == vector))
    && (!mine ==> Open(slot))
    && (s.pc.Dead? ==> s.boot.apState == Faulted)
    && (s.pc.Dead? || !s.pc.f.FRead? ==> s.boot.faultVector == vector)
    && (mine ==>
          if s.pc.Dead? || s.pc.f.FMark? then Reports(slot, vector)
          else
            && Open(slot) && !s.pc.f.FCheck? && !s.pc.f.FStore?
            && (s.pc.f.FFill? ==> s.pc.seen == slot.state)
            && (s.pc.f.FCasPending? || s.pc.f.FCasRunning? ==> Reports(slot.(state := Fault), vector))
            && (s.pc.f.FCasRunning? ==> slot.state == Running))
  }

  lemma OnTheWayAp(s: Sys, c: Choice, vector: u64, j: nat)
    requires Shape(s) && j < 4 && OnTheWay(s, vector, j)
    ensures OnTheWay(ApStep(s, c), vector, j) && ApStep(s, c).current == s.current
  {
  }

  lemma OnTheWayBsp(w: World, m: BspMove, vector: u64, j: nat)
    requires Shape(w.s) && j < 4 && OnTheWay(w.s, vector, j) && Enabled(w, m) && !Rewrites(w, BspActs(m), j)
    ensures OnTheWay(BspStep(w, m).s, vector, j) && BspStep(w, m).s.current == w.s.current
  {
  }

  lemma {:induction false} OnTheWayPlay(w: World, run: seq<Action>, vector: u64, j: nat)
    requires Shape(w.s) && j < 4 && OnTheWay(w.s, vector, j) && NoRewrite(w, run, j)
    ensures OnTheWay(Play(w, run).s, vector, j) && Play(w, run).s.current == w.s.current
    decreases |run|
  {
    hide OnTheWay, ApStep, BspStep, Enabled, Rewrites;
    if run != [] {
      match run[0] {
        case ApActs(c) => OnTheWayAp(w.s, c, vector, j);
        case BspActs(m) =>
          if Enabled(w, m) {
            OnTheWayBsp(w, m, vector, j);
          }
      }
      OnTheWayPlay(Act(w, run[0]), run[1..], vector, j);
    }
  }

  /** A fault with vector `vector` strikes while slot `j` is open.  As long as the BSP does not rewrite the
      slot: it can only become FAULT by the AP, and then its reply carries the vector and names its request;
      this happens by the time the AP is dead exactly if it is the slot the AP had in hand; and the boot
      record of the dead AP carries the vector. */
  lemma FaultReports(w: World, vector: u64, run: seq<Action>, j: nat)
    requires Shape(w.s) && !w.s.pc.Faulting? && !w.s.pc.Dead? && j < 4 && Open(w.s.slots[j])
    requires NoRewrite(Act(w, ApActs(FaultNow(vector))), run, j)
    ensures var r := Play(Act(w, ApActs(FaultNow(vector))), run).s;
            && (Open(r.slots[j]) || Reports(r.slots[j], vector))
            && (r.pc.Dead? ==> (Reports(r.slots[j], vector) <==> w.s.current == Some(j)))
            && (r.pc.Dead? ==> r.boot.apState == Faulted && r.boot.faultVector == vector)
  {
    OnTheWayPlay(Act(w, ApActs(FaultNow(vector))), run, vector, j);
  }

  // ----- composing runs

  lemma {:induction false} PlayInTurn(w: World, a: seq<Action>, b: seq<Action>)
    requires Shape(w.s)
    ensures Play(Play(w, a), b) == Play(w, a + b)
    decreases |a|
  {
    hide Act;
    if a == [] {
      assert a + b == b;
    } else {
      assert (a + b)[0] == a[0] && (a + b)[1..] == a[1..] + b;
      PlayInTurn(Act(w, a[0]), a[1..], b);
    }
  }

  /** The AP's choices as actions. */
  function ApRun(cs: seq<Choice>): (run: seq<Action>) {
    if cs == [] then [] else [ApActs(cs[0])] + ApRun(cs[1..])
  }

  lemma {:induction false} PlayApRun(w: World, cs: seq<Choice>)
    requires Shape(w.s)
    ensures Play(w, ApRun(cs)) == w.(s := RunAp(w.s, cs))
    decreases |cs|
  {
    hide ApStep;
    if cs != [] {
      assert ApRun(cs)[1..] == ApRun(cs[1..]);
      PlayApRun(w.(s := ApStep(w.s, cs[0])), cs[1..]);
    }
  }
}
