/** The BSP's own writes during a stream keep the stream invariant: rewriting a free slot, publishing it,
    stopping, recording the waiting time, and releasing a harvested slot. */
module StreamEdits {
  import opened Words
  import opened ApRequest
  import opened Protocol
  import opened StreamLive
  import opened StreamBook
  import Order

  /** The invariant of a running stream; the ordering part is tracked only on request. */
  predicate Good(s: Sys, act: seq<bool>, edit: Option<nat>, tracked: bool, m: Order.Marks) {
    && Inv(s, edit) && Live(s, act)
    && (tracked ==> Order.Ordered(s, act, m) && (m.closed ==> Order.Sealed(s, act)))
  }

  /** Any number of AP steps. */
  lemma GoodRun(s: Sys, cs: seq<Choice>, act: seq<bool>, edit: Option<nat>, tracked: bool, m: Order.Marks)
    requires Shape(s) && Good(s, act, edit, tracked, m)
    ensures Good(RunAp(s, cs), act, edit, tracked, m) && ApMoved(s, RunAp(s, cs)) && Kept(s, RunAp(s, cs))
    ensures tracked ==> Order.Later(s, RunAp(s, cs), act)
  {
    hide Inv, Live, Order.Ordered, Order.Later, Order.Sealed, RunAp, ApMoved, Rely, Kept;
    RunApKeeps(s, cs, edit);
    RelyKept(s, RunAp(s, cs));
    RunApLive(s, cs, edit, act);
    if tracked {
      Order.RunApOrder(s, cs, edit, act, m);
      if m.closed {
        Order.SealedStays(s, RunAp(s, cs), act);
      }
    }
  }

  /** Only slot `i` and its publication number differ. */
  predicate OnlySlot(s: Sys, r: Sys, i: nat)
    requires Shape(s) && Shape(r) && i < 4
  {
    r == s.(slots := s.slots[i := r.slots[i]], committed := s.committed[i := r.committed[i]],
            gens := s.gens[i := r.gens[i]], nextGen := r.nextGen)
  }

  lemma EditLive(s: Sys, r: Sys, i: nat, act: seq<bool>, edit: Option<nat>)
    requires Inv(s, edit) && Live(s, act) && Shape(r) && i < 4 && !act[i] && OnlySlot(s, r, i)
    requires r.slots[i].state == Empty || (r.slots[i].state == Fault && s.slots[i].state == Fault)
    ensures Live(r, act)
  {
    hide OutboxOf, WorkOk, Completed;
  }

  lemma WorkerActive(s: Sys, act: seq<bool>)
    requires Live(s, act)
    ensures s.pc.Work? ==> act[s.pc.i] && s.slots[s.pc.i].state == Running
  {
  }

  lemma EditOrdered(s: Sys, r: Sys, i: nat, act: seq<bool>, m: Order.Marks)
    requires Live(s, act) && Order.Ordered(s, act, m) && Shape(r) && i < 4 && !act[i] && OnlySlot(s, r, i)
    requires r.slots[i].state == Empty || r.slots[i].state == Fault
    ensures Order.Ordered(r, act, m)
  {
    hide Order.Ordered, ApLive;
    WorkerActive(s, act);
    Order.WriteOrder(s, act, r, act, m, m, 0);
  }

  /** Rewriting a free slot. */
  lemma EditGood(s: Sys, r: Sys, i: nat, act: seq<bool>, edit: Option<nat>, tracked: bool, m: Order.Marks)
    requires Good(s, act, edit, tracked, m) && Shape(r) && i < 4 && !act[i] && OnlySlot(s, r, i)
    requires r.slots[i].state == Empty || (r.slots[i].state == Fault && s.slots[i].state == Fault)
    ensures Good(r, act, Some(i), tracked, m)
  {
    hide WorkOk, RunningOwned, Completed, CurrentOk, BootOk, ApLive, SlotLive, Order.Ordered;
    ReplacedKeeps(s, r, i, edit, Some(i));
    EditLive(s, r, i, act, edit);
    if tracked {
      EditOrdered(s, r, i, act, m);
    }
  }

  function Grown(m: Order.Marks): (r: Order.Marks) {
    m.(top := m.top + 1, counterTop := m.counterTop + 1)
  }

  lemma PublishLive(s: Sys, i: nat, st: SlotState, act: seq<bool>)
    requires Inv(s, Some(i)) && Live(s, act) && i < 4 && !act[i]
    requires st == Pending || st == Skipped || st == Fault
    requires st == Pending ==> s.boot.bootOk
    requires st == Fault ==> s.boot.apState == Faulted
    requires st == Skipped ==> !s.boot.bootOk || s.boot.apState == HaltedState || s.boot.apState == Faulted
    ensures Live(WithState(s, i, st), act[i := true])
  {
    hide OutboxOf, WorkOk, Completed;
  }

  lemma PublishOrdered(s: Sys, i: nat, st: SlotState, act: seq<bool>, m: Order.Marks)
    requires Inv(s, Some(i)) && Live(s, act) && Order.Ordered(s, act, m) && i < 4 && !act[i]
    requires st == Pending || st == Skipped || st == Fault
    requires m.top + 1 < 0x8000_0000 && m.counterTop + 1 < 0x1_0000_0000
    ensures Order.Ordered(WithState(s, i, st), act[i := true], Grown(m))
  {
    hide Order.Ordered, ApLive, WorkOk, Completed, CurrentOk;
    WorkerActive(s, act);
    Order.WriteOrder(s, act, WithState(s, i, st), act[i := true], m, Grown(m), 1);
  }

  /** The final store of `publish_ap_inbox_request`. */
  lemma PublishGood(s: Sys, i: nat, st: SlotState, act: seq<bool>, tracked: bool, m: Order.Marks)
    requires Good(s, act, Some(i), tracked, m) && i < 4 && !act[i]
    requires st == Pending || st == Skipped || st == Fault
    requires st == Pending ==> s.boot.bootOk
    requires st == Fault ==> s.boot.apState == Faulted
    requires st == Skipped ==> !s.boot.bootOk || s.boot.apState == HaltedState || s.boot.apState == Faulted
    requires tracked ==> m.top + 1 < 0x8000_0000 && m.counterTop + 1 < 0x1_0000_0000 && !m.closed
    ensures Good(WithState(s, i, st), act[i := true], None, tracked, Grown(m))
  {
    hide WorkOk, RunningOwned, Completed, CurrentOk, BootOk, ApLive, SlotLive, Order.Ordered;
    ReplacedKeeps(s, WithState(s, i, st), i, Some(i), None);
    PublishLive(s, i, st, act);
    if tracked {
      PublishOrdered(s, i, st, act, m);
    }
  }

  lemma SkipLive(s: Sys, i: nat, act: seq<bool>)
    requires Inv(s, None) && Live(s, act) && i < 4 && Stopping(s) && s.slots[i].state == Pending
    ensures Live(WithState(s, i, Skipped), act)
  {
    hide OutboxOf, WorkOk, Completed;
  }

  lemma SkipOrdered(s: Sys, i: nat, act: seq<bool>, m: Order.Marks)
    requires Live(s, act) && Order.Ordered(s, act, m) && i < 4 && s.slots[i].state == Pending
    ensures Order.Ordered(WithState(s, i, Skipped), act, m)
  {
    hide Order.Ordered, ApLive;
    WorkerActive(s, act);
    Order.WriteOrder(s, act, WithState(s, i, Skipped), act, m, m, 0);
  }

  /** The plain store of SKIPPED in `stop_ap_request_stream`. */
  lemma SkipGood(s: Sys, i: nat, act: seq<bool>, tracked: bool, m: Order.Marks)
    requires Good(s, act, None, tracked, m) && i < 4 && Stopping(s) && s.slots[i].state == Pending
    ensures Good(WithState(s, i, Skipped), act, None, tracked, m)
  {
    hide WorkOk, RunningOwned, Completed, CurrentOk, BootOk, ApLive, SlotLive, Order.Ordered;
    ReplacedKeeps(s, WithState(s, i, Skipped), i, None, None);
    SkipLive(s, i, act);
    if tracked {
      SkipOrdered(s, i, act, m);
    }
  }

  /** The fault code and plain store of FAULT in `stop_ap_request_stream`; the AP is dead by then. */
  lemma FaultGood(s: Sys, i: nat, act: seq<bool>, tracked: bool, m: Order.Marks)
    requires Good(s, act, None, tracked, m) && i < 4 && s.boot.apState == Faulted && s.slots[i].state != Done
    requires act[i] && s.boot.bootOk
    ensures Good(WithState(WithFaultCode(s, i), i, Fault), act, None, tracked, m)
  {
    hide WorkOk, RunningOwned, Completed, CurrentOk, ApLive, SlotLive, Order.Ordered;
    var r := WithState(WithFaultCode(s, i), i, Fault);
    ReplacedKeeps(s, r, i, None, None);
    FaultLive(s, i, act);
    if tracked {
      FaultOrdered(s, i, act, m);
    }
  }

  lemma FaultLive(s: Sys, i: nat, act: seq<bool>)
    requires Inv(s, None) && Live(s, act) && i < 4 && s.boot.apState == Faulted
    ensures Live(WithState(WithFaultCode(s, i), i, Fault), act)
  {
    hide WorkOk, Completed;
  }

  lemma FaultOrdered(s: Sys, i: nat, act: seq<bool>, m: Order.Marks)
    requires Inv(s, None) && Live(s, act) && Order.Ordered(s, act, m) && i < 4 && s.boot.apState == Faulted && s.slots[i].state != Done
    ensures Order.Ordered(WithState(WithFaultCode(s, i), i, Fault), act, m)
  {
    hide Order.Ordered, ApLive, WorkOk, Completed, CurrentOk;
    Order.WriteOrder(s, act, WithState(WithFaultCode(s, i), i, Fault), act, m, m, 0);
  }

  lemma WaitLive(s: Sys, i: nat, loops: u32, act: seq<bool>)
    requires Live(s, act) && i < 4
    ensures Live(WithWait(s, i, loops), act)
  {
  }

  /** Recording the waiting time changes nothing else. */
  lemma WaitGood(s: Sys, i: nat, loops: u32, act: seq<bool>, tracked: bool, m: Order.Marks)
    requires Good(s, act, None, tracked, m) && i < 4
    ensures Good(WithWait(s, i, loops), act, None, tracked, m)
    ensures Kept(s, WithWait(s, i, loops)) && (Stopping(s) ==> Stopping(WithWait(s, i, loops)))
  {
    hide WorkOk, RunningOwned, Completed, CurrentOk, BootOk, ApLive, SlotLive, Order.Ordered;
    WaitKeeps(s, i, loops, None);
    WaitLive(s, i, loops, act);
    if tracked {
      Order.WriteOrder(s, act, WithWait(s, i, loops), act, m, m, 0);
    }
  }

  lemma ReleaseLive(s: Sys, i: nat, act: seq<bool>)
    requires Live(s, act) && i < 4 && Finished(s.slots[i].state)
    ensures Live(s, act[i := false])
  {
  }

  /** Releasing a slot that finished without DONE while no slot is DONE: none will be any more. */
  lemma ReleaseGood(s: Sys, i: nat, act: seq<bool>, tracked: bool, m: Order.Marks)
    requires Good(s, act, None, tracked, m) && i < 4 && act[i] && Finished(s.slots[i].state) && s.slots[i].state != Done
    requires tracked ==> Order.NoReady(s, act)
    ensures Good(s, act[i := false], None, tracked, m.(closed := true))
  {
    hide Inv, ApLive, Order.Ordered;
    assert SlotLive(s, act, i);
    ReleaseLive(s, i, act);
    if tracked {
      Order.WriteOrder(s, act, s, act[i := false], m, m, 0);
      Order.OrderedClosed(s, act[i := false], m);
    }
  }

  /** Releasing the earliest DONE slot. */
  lemma ReleaseDoneGood(s: Sys, i: nat, act: seq<bool>, tracked: bool, m: Order.Marks)
    requires Good(s, act, None, tracked, m) && i < 4 && act[i] && s.slots[i].state == Done
    requires tracked ==> Order.Earliest(s, act, i)
    ensures Good(s, act[i := false], None, tracked, Order.Advanced(s, m, i))
    ensures tracked ==> !m.closed && m.last < s.slots[i].handled && (Order.IsCounter(s.slots[i].req) ==> s.slots[i].reply.result == m.shadow + 1)
  {
    hide Inv, ApLive, SlotLive, Order.Ordered, Order.IsCounter;
    ReleaseLive(s, i, act);
    if tracked {
      Order.HarvestOrder(s, act, m, i);
    }
  }
}
