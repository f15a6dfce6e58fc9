/** What holds in addition while a stream runs on an AP that was idle when it started: the BSP only
    rewrites slots it has harvested, so the AP is never overtaken (kernel/kernel.c, lines 2528-2633). */
module StreamLive {
  import opened Words
  import opened ApRequest
  import opened ApServices
  import opened Protocol

  predicate Unclaimed(st: SlotState) {
    st == Empty || st == Pending
  }

  /** The AP will claim no further request: it has halted or faulted, or has written the last slot state
      it will ever write. */
  predicate Stopping(s: Sys) {
    s.boot.apState == HaltedState || s.boot.apState == Faulted || (s.pc.Faulting? && s.pc.f.FMark?)
  }

  predicate SlotLive(s: Sys, act: seq<bool>, j: nat)
    requires Shape(s) && |act| == 4 && j < 4
  {
    var st := s.slots[j].state;
    && (st == Pending || st == Running ==> act[j] && s.boot.bootOk)
    && (act[j] && Finished(st) && st != Done ==> Stopping(s) || !s.boot.bootOk)
  }

  /** The AP's own position relative to the stream. */
  predicate ApLive(s: Sys)
    requires Shape(s)
  {
    && (s.boot.bootOk ==> s.boot.online)
    && (s.pc.Work? ==>
          && s.slots[s.pc.i].state == Running && !s.pc.w.RollingBack?
          && (s.pc.w.Dropping? || s.pc.w.Refusing? <==> s.boot.apState == HaltedState))
    && (s.current.Some? || s.pc.Work? || s.pc.Clearing? ==> s.boot.bootOk)
    && (s.pc.Faulting? && !s.pc.f.FMark? && s.current.Some? ==>
          var st := s.slots[s.current.value].state;
          && (s.boot.apState == HaltedState ==> st == Running)
          && (s.pc.f.FFill? && (s.pc.seen == Running || Unclaimed(s.pc.seen)) ==> !Finished(st))
          && (s.pc.f.FStore? ==> !Finished(st)))
  }

  predicate Live(s: Sys, act: seq<bool>) {
    && Shape(s) && |act| == 4
    && ApLive(s)
    && SlotLive(s, act, 0) && SlotLive(s, act, 1) && SlotLive(s, act, 2) && SlotLive(s, act, 3)
  }

  /** How the AP may change slot `j` during a stream: finished slots are final, and once the AP is
      stopping a pending slot stays as it is. */
  predicate Settled(s: Sys, r: Sys, j: nat)
    requires Shape(s) && Shape(r) && j < 4
  {
    && r.slots[j].req == s.slots[j].req
    && (Finished(s.slots[j].state) ==> r.slots[j] == s.slots[j])
    && (Stopping(s) && s.slots[j].state == Pending ==> r.slots[j] == s.slots[j])
    && (Stopping(s) && s.slots[j].state != Done ==> r.slots[j].state != Done)
    && (s.slots[j].state == Empty ==> r.slots[j].state == Empty || r.slots[j].state == Fault)
  }

  predicate ApMoved(s: Sys, r: Sys) {
    && Shape(s) && Shape(r)
    && r.gens == s.gens && r.nextGen == s.nextGen && r.boot.bootOk == s.boot.bootOk
    && (Stopping(s) ==> Stopping(r))
    && (s.boot.apState == Faulted ==> r == s)
    && (s.boot.apState == HaltedState ==> r.boot.apState == HaltedState || r.boot.apState == Faulted)
    && Settled(s, r, 0) && Settled(s, r, 1) && Settled(s, r, 2) && Settled(s, r, 3)
  }

  lemma ApMovedTransitive(a: Sys, b: Sys, c: Sys)
    requires ApMoved(a, b) && ApMoved(b, c)
    ensures ApMoved(a, c)
  {
  }

  lemma WorkApLive(s: Sys, c: Choice)
    requires Shape(s) && ApLive(s) && WorkOk(s) && BootOk(s) && s.pc.Work?
    ensures ApLive(WorkStep(s, c))
    ensures WorkStep(s, c).boot.bootOk == s.boot.bootOk && (Stopping(s) ==> Stopping(WorkStep(s, c)))
    ensures s.boot.apState == HaltedState ==> WorkStep(s, c).boot.apState == HaltedState
    ensures s.pc.w.Refusing? ==> Stopping(WorkStep(s, c))
    ensures s.boot.apState != Faulted
  {
    hide OutboxOf, Appended, Clamped, HandlerFor, MissCode;
  }

  lemma WorkSlotLive(s: Sys, c: Choice, edit: Option<nat>, act: seq<bool>, j: nat)
    requires Inv(s, edit) && Live(s, act) && s.pc.Work? && j < 4
    ensures SlotLive(WorkStep(s, c), act, j) && Settled(s, WorkStep(s, c), j)
  {
    hide WorkStep, OutboxOf, Completed, CurrentOk;
    WorkApLive(s, c);
    WorkStates(s, c, j);
    WorkRequests(s, c, j);
    if j != s.pc.i {
      WorkFrame(s, c, j);
    }
  }

  lemma WorkStaysLive(s: Sys, c: Choice, edit: Option<nat>, act: seq<bool>)
    requires Inv(s, edit) && Live(s, act) && s.pc.Work?
    ensures Live(WorkStep(s, c), act) && ApMoved(s, WorkStep(s, c))
  {
    hide WorkStep, SlotLive, Settled, ApLive, OutboxOf, Completed, CurrentOk, Stopping;
    WorkApLive(s, c);
    WorkStates(s, c, 0);
    WorkRequests(s, c, 0);
    WorkSlotLive(s, c, edit, act, 0);
    WorkSlotLive(s, c, edit, act, 1);
    WorkSlotLive(s, c, edit, act, 2);
    WorkSlotLive(s, c, edit, act, 3);
  }

  lemma FaultApLive(s: Sys)
    requires Shape(s) && ApLive(s) && CurrentOk(s) && BootOk(s) && s.pc.Faulting?
    ensures ApLive(FaultStep(s)) && FaultStep(s).boot.bootOk == s.boot.bootOk && FaultStep(s).nextGen == s.nextGen
    ensures s.boot.apState != Faulted
    ensures Stopping(s) ==> Stopping(FaultStep(s))
    ensures s.boot.apState == HaltedState ==> FaultStep(s).boot.apState in {HaltedState, Faulted}
  {
  }

  lemma FaultSlotLive(s: Sys, act: seq<bool>, j: nat)
    requires Shape(s) && ApLive(s) && CurrentOk(s) && BootOk(s) && s.pc.Faulting? && |act| == 4 && j < 4 && SlotLive(s, act, j)
    ensures SlotLive(FaultStep(s), act, j) && Settled(s, FaultStep(s), j)
  {
  }

  lemma FaultStaysLive(s: Sys, edit: Option<nat>, act: seq<bool>)
    requires Inv(s, edit) && Live(s, act) && s.pc.Faulting?
    ensures Live(FaultStep(s), act) && ApMoved(s, FaultStep(s))
  {
    hide FaultStep, SlotLive, Settled, ApLive, WorkOk, RunningOwned, Completed, CurrentOk, BootOk, Stopping;
    FaultApLive(s);
    FaultFrame(s, 0);
    FaultSlotLive(s, act, 0);
    FaultSlotLive(s, act, 1);
    FaultSlotLive(s, act, 2);
    FaultSlotLive(s, act, 3);
  }

  lemma ScanStaysLive(s: Sys, edit: Option<nat>, act: seq<bool>)
    requires Inv(s, edit) && Live(s, act) && (s.pc.Scan? || s.pc.TryClaim?)
    ensures Live(ScanStep(s), act) && ApMoved(s, ScanStep(s))
  {
    hide WorkOk, RunningOwned, AllCompleted;
  }

  /** A fault strikes, or the AP goes on to its next slot, or does nothing. */
  lemma OtherStaysLive(s: Sys, c: Choice, edit: Option<nat>, act: seq<bool>)
    requires Inv(s, edit) && Live(s, act) && !s.pc.Faulting?
    requires c.FaultNow? || s.pc.Clearing? || s.pc.HaltedPc? || s.pc.Dead?
    ensures Live(ApStep(s, c), act) && ApMoved(s, ApStep(s, c))
  {
    hide AllCompleted, RunningOwned, ScanStep, WorkStep, FaultStep;
  }

  lemma ApStepLive(s: Sys, c: Choice, edit: Option<nat>, act: seq<bool>)
    requires Inv(s, edit) && Live(s, act)
    ensures Live(ApStep(s, c), act) && ApMoved(s, ApStep(s, c))
  {
    hide Live, ApMoved, ScanStep, WorkStep, FaultStep;
    if s.pc.Faulting? {
      FaultStaysLive(s, edit, act);
    } else if s.pc.Work? && !c.FaultNow? {
      WorkStaysLive(s, c, edit, act);
    } else if (s.pc.Scan? || s.pc.TryClaim?) && !c.FaultNow? {
      ScanStaysLive(s, edit, act);
    } else {
      OtherStaysLive(s, c, edit, act);
    }
  }

  lemma {:induction false} RunApLive(s: Sys, cs: seq<Choice>, edit: Option<nat>, act: seq<bool>)
    requires Shape(s) && Inv(s, edit) && Live(s, act)
    ensures Inv(RunAp(s, cs), edit) && Live(RunAp(s, cs), act) && ApMoved(s, RunAp(s, cs))
    decreases |cs|
  {
    hide Inv, Live, ApMoved, ApStep;
    if cs == [] {
      ApMovedReflexive(s);
    } else {
      ApStepKeeps(s, cs[0], edit);
      ApStepLive(s, cs[0], edit, act);
      RunApLive(ApStep(s, cs[0]), cs[1..], edit, act);
      ApMovedTransitive(s, ApStep(s, cs[0]), RunAp(s, cs));
    }
  }

  lemma ApMovedReflexive(s: Sys)
    requires Shape(s)
    ensures ApMoved(s, s)
  {
  }

  lemma ApMovedStops(s: Sys, r: Sys)
    requires ApMoved(s, r)
    ensures Stopping(s) ==> Stopping(r)
    ensures r.boot.bootOk == s.boot.bootOk
    ensures s.boot.apState == Faulted ==> r == s
    ensures s.boot.apState == HaltedState ==> r.boot.apState == HaltedState || r.boot.apState == Faulted
    ensures forall j :: 0 <= j < 4 && Finished(s.slots[j].state) ==> r.slots[j] == s.slots[j]
    ensures forall j :: 0 <= j < 4 && Stopping(s) && s.slots[j].state == Pending ==> r.slots[j] == s.slots[j]
    ensures forall j :: 0 <= j < 4 && Stopping(s) && s.slots[j].state != Done ==> r.slots[j].state != Done
  {
    assert Settled(s, r, 0) && Settled(s, r, 1) && Settled(s, r, 2) && Settled(s, r, 3);
  }

  const NONE_ACTIVE := [false, false, false, false]

  /** The AP works on no request, none is published, and bring-up reported no error only for an AP that
      is online. */
  predicate Idle(s: Sys) {
    && Inv(s, None) && Live(s, NONE_ACTIVE)
  }
}
