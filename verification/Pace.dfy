/** How soon an AP that keeps moving and takes no fault serves a pending request: a bound on its own steps,
    for the request loop of kernel/kernel.c, lines 2269-2347. */
module Pace {
  import opened Words
  import opened ApRequest
  import opened ApServices
  import opened Protocol
  import opened StreamLive

  /** No request waits for more steps of the AP than one turn over four slots takes. */
  const TURN: nat := 52

  /** The AP takes no fault. */
  predicate Calm(cs: seq<Choice>) {
    forall k :: 0 <= k < |cs| ==> !cs[k].FaultNow?
  }

  /** How often the AP goes on; offering a plan does not count. */
  function Gos(cs: seq<Choice>): (n: nat) {
    if cs == [] then 0 else One(cs[0].Go?) + Gos(cs[1..])
  }

  /** Steps taken in the moments from `a` up to `b`. */
  function GosFrom(script: nat -> seq<Choice>, a: nat, b: nat): (n: nat)
    decreases b
  {
    if b <= a then 0 else GosFrom(script, a, b - 1) + Gos(script(b - 1))
  }

  lemma {:induction false} GosFromGrows(script: nat -> seq<Choice>, a: nat, b: nat, c: nat)
    requires b <= c
    ensures GosFrom(script, a, b) <= GosFrom(script, a, c)
    decreases c
  {
    if b < c {
      GosFromGrows(script, a, b, c - 1);
    }
  }

  predicate Known(req: Request) {
    HandlerFor(req.service, req.iface).Some?
  }

  predicate Serving(w: Stage) {
    !w.Missed? && !w.Halting? && !w.Dropping? && !w.Refusing? && !w.RollingBack?
  }

  /** The AP is in its claim loop and every request it may meet is known. */
  predicate Healthy(s: Sys, act: seq<bool>) {
    && Shape(s) && |act| == 4 && Accepting(s.boot)
    && (s.pc.Scan? || s.pc.TryClaim? || s.pc.Clearing? || (s.pc.Work? && Serving(s.pc.w)))
    && (act[0] ==> Known(s.slots[0].req)) && (act[1] ==> Known(s.slots[1].req))
    && (act[2] ==> Known(s.slots[2].req)) && (act[3] ==> Known(s.slots[3].req))
  }

  /** Steps from inside a request to its completion. */
  function Left(w: Stage): (n: nat) {
    match w
    case Claimed => 10
    case Noting => 9
    case Beginning => 8
    case Preparing => 7
    case Handling(_) => 6
    case Replying(_) => 5
    case Counting => 4
    case Finishing => 3
    case Copying => 2
    case _ => 1
  }

  /** Slots from `i` round to `j`. */
  function Gap(i: nat, j: nat): (n: nat)
    requires i < 4 && j < 4
  {
    if i <= j then j - i else 4 + j - i
  }

  /** At most so many steps until the request in slot `j` is complete. */
  function Distance(pc: Pc, j: nat): (n: nat)
    requires PcInRange(pc) && j < 4
    ensures n <= TURN
  {
    match pc
    case Scan(i) => 13 * Gap(i, j) + 12
    case TryClaim(i) => 13 * Gap(i, j) + 11
    case Work(i, _, w) => if i == j then Left(w) else Left(w) + 13 * Gap(i, j)
    case Clearing(i) => if i == j then TURN else 13 * Gap(i, j)
    case _ => 0
  }

  predicate Waits(s: Sys, act: seq<bool>, j: nat)
    requires Shape(s) && |act| == 4 && j < 4
  {
    act[j] && !Finished(s.slots[j].state)
  }

  /** Nothing waits for longer than a turn, `spent` steps of which are over. */
  predicate Prompt(s: Sys, act: seq<bool>, spent: nat, j: nat)
    requires Shape(s) && |act| == 4 && j < 4
  {
    Waits(s, act, j) ==> (s.slots[j].state == Pending || s.slots[j].state == Running) && Distance(s.pc, j) + spent <= TURN
  }

  predicate Brisk(s: Sys, act: seq<bool>, spent: nat) {
    && Healthy(s, act)
    && Prompt(s, act, spent, 0) && Prompt(s, act, spent, 1) && Prompt(s, act, spent, 2) && Prompt(s, act, spent, 3)
  }

  /** Once a turn is over nothing waits. */
  lemma BriskIsServed(s: Sys, act: seq<bool>, spent: nat)
    requires Brisk(s, act, spent) && Inv(s, None) && Live(s, act) && spent >= TURN
    ensures forall j :: 0 <= j < 4 && act[j] ==> Finished(s.slots[j].state)
  {
    hide WorkOk, AllCompleted, CurrentOk, BootOk;
    forall j | 0 <= j < 4 && act[j]
      ensures Finished(s.slots[j].state)
    {
      assert Prompt(s, act, spent, j);
    }
  }

  lemma WorkOnward(s: Sys, c: Choice, j: nat)
    requires Shape(s) && s.pc.Work? && Serving(s.pc.w) && !c.FaultNow? && j < 4
    requires s.slots[s.pc.i].state == Running && Known(s.slots[s.pc.i].req)
    ensures var r := WorkStep(s, c);
            && (r.pc.Clearing? || (r.pc.Work? && Serving(r.pc.w))) && (s.pc.w.Committing? <==> r.pc.Clearing?)
            && (j != s.pc.i || !s.pc.w.Committing? ==> Distance(r.pc, j) + One(c.Go?) <= Distance(s.pc, j))
            && (Accepting(s.boot) ==> Accepting(r.boot))
  {
    hide OutboxOf, Appended, Clamped, MissCode, HandlerFor;
  }

  lemma WorkHealthy(s: Sys, c: Choice, edit: Option<nat>, act: seq<bool>, spent: nat, j: nat)
    requires Inv(s, edit) && Live(s, act) && Brisk(s, act, spent) && s.pc.Work? && !c.FaultNow? && j < 4
    ensures Prompt(WorkStep(s, c), act, spent + One(c.Go?), j)
    ensures act[j] ==> Known(WorkStep(s, c).slots[j].req)
  {
    hide WorkStep, OutboxOf, Distance, HandlerFor, CurrentOk, BootOk, AllCompleted;
    assert SlotLive(s, act, s.pc.i);
    WorkOnward(s, c, j);
    WorkStates(s, c, j);
    WorkRequests(s, c, j);
    assert Prompt(s, act, spent, j);
  }

  lemma WorkBrisk(s: Sys, c: Choice, edit: Option<nat>, act: seq<bool>, spent: nat)
    requires Inv(s, edit) && Live(s, act) && Brisk(s, act, spent) && s.pc.Work? && !c.FaultNow?
    ensures Brisk(WorkStep(s, c), act, spent + One(c.Go?))
  {
    hide WorkStep, OutboxOf, Prompt, HandlerFor, CurrentOk, BootOk, AllCompleted, RunningOwned;
    assert SlotLive(s, act, s.pc.i);
    WorkOnward(s, c, 0);
    WorkHealthy(s, c, edit, act, spent, 0);
    WorkHealthy(s, c, edit, act, spent, 1);
    WorkHealthy(s, c, edit, act, spent, 2);
    WorkHealthy(s, c, edit, act, spent, 3);
  }

  lemma ScanOnward(s: Sys, c: Choice, act: seq<bool>, spent: nat, j: nat)
    requires Live(s, act) && Healthy(s, act) && RunningOwned(s) && !s.pc.Work? && !c.FaultNow? && j < 4 && Prompt(s, act, spent, j)
    ensures Prompt(ApStep(s, c), act, spent + One(c.Go?), j)
  {
    hide HandlerFor, WorkStep, FaultStep, ApLive;
  }

  lemma ScanHealthy(s: Sys, c: Choice, act: seq<bool>)
    requires Live(s, act) && Healthy(s, act) && !s.pc.Work? && !c.FaultNow?
    ensures Healthy(ApStep(s, c), act)
  {
    hide HandlerFor, WorkStep, FaultStep, ApLive, SlotLive;
  }

  lemma ScanBrisk(s: Sys, c: Choice, act: seq<bool>, spent: nat)
    requires Live(s, act) && Brisk(s, act, spent) && RunningOwned(s) && !s.pc.Work? && !c.FaultNow?
    ensures Brisk(ApStep(s, c), act, spent + One(c.Go?))
  {
    hide Prompt, Live, ApStep, Healthy, RunningOwned;
    ScanHealthy(s, c, act);
    ScanOnward(s, c, act, spent, 0);
    ScanOnward(s, c, act, spent, 1);
    ScanOnward(s, c, act, spent, 2);
    ScanOnward(s, c, act, spent, 3);
  }

  lemma {:induction false} BriskRun(s: Sys, cs: seq<Choice>, edit: Option<nat>, act: seq<bool>, spent: nat)
    requires Shape(s) && Inv(s, edit) && Live(s, act) && Brisk(s, act, spent) && Calm(cs)
    ensures Brisk(RunAp(s, cs), act, spent + Gos(cs))
    decreases |cs|
  {
    hide Inv, Live, ApStep, Brisk;
    if cs != [] {
      BriskStep(s, cs[0], edit, act, spent);
      ApStepKeeps(s, cs[0], edit);
      ApStepLive(s, cs[0], edit, act);
      assert forall k :: 0 <= k < |cs| - 1 ==> cs[1..][k] == cs[k + 1];
      BriskRun(ApStep(s, cs[0]), cs[1..], edit, act, spent + One(cs[0].Go?));
    }
  }

  lemma BriskStep(s: Sys, c: Choice, edit: Option<nat>, act: seq<bool>, spent: nat)
    requires Inv(s, edit) && Live(s, act) && Brisk(s, act, spent) && !c.FaultNow?
    ensures Brisk(ApStep(s, c), act, spent + One(c.Go?))
  {
    hide Prompt, WorkStep, FaultStep, WorkOk, RunningOwned, AllCompleted, CurrentOk, BootOk;
    if s.pc.Work? {
      WorkBrisk(s, c, edit, act, spent);
    } else {
      ScanBrisk(s, c, act, spent);
    }
  }

  // ----- the BSP's writes

  /** The AP and all slots but `i` are as they were, and so are the request and state of `i` while it is
      active. */
  predicate Beside(s: Sys, r: Sys, i: nat) {
    && Shape(s) && Shape(r) && i < 4 && r.pc == s.pc && r.boot == s.boot
    && forall k :: 0 <= k < 4 && k != i ==> r.slots[k].req == s.slots[k].req && r.slots[k].state == s.slots[k].state
  }

  /** Rewriting a slot that is not active. */
  lemma BriskEdit(s: Sys, r: Sys, act: seq<bool>, spent: nat, i: nat)
    requires Brisk(s, act, spent) && Beside(s, r, i) && !act[i]
    ensures Brisk(r, act, spent)
  {
    hide HandlerFor, Distance;
  }

  /** Publishing in a slot that is not active starts a new turn. */
  lemma BriskPublish(s: Sys, r: Sys, act: seq<bool>, spent: nat, i: nat)
    requires Brisk(s, act, spent) && Beside(s, r, i) && !act[i] && r.slots[i].state == Pending && Known(r.slots[i].req)
    ensures Brisk(r, act[i := true], 0)
  {
    hide HandlerFor;
  }

  /** Changing neither request nor state. */
  lemma BriskSame(s: Sys, r: Sys, act: seq<bool>, spent: nat, i: nat)
    requires Brisk(s, act, spent) && Beside(s, r, i) && r.slots[i].req == s.slots[i].req && r.slots[i].state == s.slots[i].state
    ensures Brisk(r, act, spent)
  {
    hide HandlerFor, Distance;
  }

  lemma BriskRelease(s: Sys, act: seq<bool>, spent: nat, i: nat)
    requires Brisk(s, act, spent) && i < 4
    ensures Brisk(s, act[i := false], spent)
  {
    hide HandlerFor, Distance;
  }

  lemma BriskLess(s: Sys, act: seq<bool>, spent: nat, less: nat)
    requires Brisk(s, act, spent) && less <= spent
    ensures Brisk(s, act, less)
  {
    hide HandlerFor, Distance;
  }

  /** A healthy AP is not stopping, so that whatever finishes is DONE. */
  lemma HealthyGoesOn(s: Sys, act: seq<bool>)
    requires Inv(s, None) && Live(s, act) && Healthy(s, act)
    ensures !Stopping(s) && s.boot.bootOk
    ensures forall j :: 0 <= j < 4 && act[j] && Finished(s.slots[j].state) ==> s.slots[j].state == Done
  {
    hide HandlerFor, ApLive;
  }

  predicate InClaimLoop(pc: Pc) {
    pc.Scan? || pc.TryClaim? || pc.Clearing?
  }

  /** An AP with nothing to do stands in its claim loop. */
  lemma HealthyEnd(s: Sys, spent: nat)
    requires Inv(s, None) && Live(s, NONE_ACTIVE) && Brisk(s, NONE_ACTIVE, spent)
    ensures Accepting(s.boot) && InClaimLoop(s.pc)
  {
  }

  /** An idle AP in its claim loop. */
  lemma HealthyStart(s: Sys)
    requires Idle(s) && Accepting(s.boot) && InClaimLoop(s.pc)
    ensures forall spent: nat :: Brisk(s, NONE_ACTIVE, spent)
  {
  }

  // ----- waiting

  /** The wait count after the given waits, from 0. */
  function Saturated(waits: seq<Step>, limit: u32): (n: u32)
    ensures n <= limit
  {
    if waits == [] then 0 else Advance(Saturated(waits[..|waits| - 1], limit), waits[|waits| - 1], limit)
  }

  lemma SaturatedMore(waits: seq<Step>, w: Step, limit: u32)
    ensures Saturated(waits + [w], limit) == Advance(Saturated(waits, limit), w, limit)
  {
    assert (waits + [w])[..|waits|] == waits;
  }

  /** Waits of at most `longest` use the time up only if there are enough of them. */
  lemma {:induction false} SaturatedBound(waits: seq<Step>, limit: u32, longest: nat)
    requires forall k :: 0 <= k < |waits| ==> waits[k] <= longest
    ensures Saturated(waits, limit) <= longest * |waits|
  {
    if waits != [] {
      var n := |waits| - 1;
      SaturatedBound(waits[..n], limit, longest);
      assert longest * |waits| == longest * n + longest;
    }
  }

  /** The `pace` moments from `n` on suffice for the steps of a turn. */
  predicate TurnFits(script: nat -> seq<Choice>, n: nat, pace: nat) {
    GosFrom(script, n, n + pace) >= TURN
  }

  lemma Scales(a: nat, b: nat, c: nat)
    requires b <= c
    ensures a * b <= a * c
  {
  }
}
