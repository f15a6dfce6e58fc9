/** `run_ap_broadcast_ping` (kernel/kernel.c, lines 2639-2784): one ping to every AP that accepts requests,
    collected until all have finished or time runs out.  Every AP moves arbitrarily between any two
    accesses, whatever it was doing when the broadcast began. */
module Broadcast {
  import opened Words
  import opened ApRequest
  import opened ApServices
  import opened Protocol
  import opened StreamLive
  import StreamEdits
  import opened Pace

  const SEQUENCE_BASE: u32 := 0xb000
  const PING_SLOT: nat := 0

  /** The entry recorded for one AP. */
  datatype Report = Report(slot: Slot, waitLoops: u32, ok: bool)

  function PingPlan(i: nat): (p: Plan)
    requires i < MAX_CONTEXTS
  {
    Plan(OP_PING, SERVICE_PING, INTERFACE_PING, SEQUENCE_BASE + i, NO_ENVELOPE)
  }

  function PingRequest(i: nat): (r: Request)
    requires i < MAX_CONTEXTS
  {
    RequestFor(PingPlan(i), i + 1)
  }

  /** `ap_broadcast_ping_result_ok`. */
  predicate ResultOk(slot: Slot) {
    && slot.state == Done && slot.req.opcode == OP_PING && slot.req.service == SERVICE_PING && slot.req.iface == INTERFACE_PING
    && slot.reply.result == 0 && slot.reply.faultCode == 0
    && slot.req.idHigh == slot.reply.idHigh && slot.req.idLow == slot.reply.idLow
  }

  /** How many of the flags are set. */
  function Tally(b: seq<bool>): (n: nat) {
    if b == [] then 0 else One(b[0]) + Tally(b[1..])
  }

  lemma {:induction false} TallyUpdate(b: seq<bool>, i: nat, v: bool)
    requires i < |b|
    ensures Tally(b[i := v]) + One(b[i]) == Tally(b) + One(v)
  {
    if i == 0 {
      assert b[i := v][1..] == b[1..];
    } else {
      assert b[i := v][1..] == b[1..][i - 1 := v];
      TallyUpdate(b[1..], i - 1, v);
    }
  }

  lemma {:induction false} TallyNone(b: seq<bool>)
    ensures Tally(b) == 0 <==> forall i :: 0 <= i < |b| ==> !b[i]
  {
    if b != [] {
      TallyNone(b[1..]);
      assert forall i :: 0 <= i < |b| - 1 ==> b[1..][i] == b[i + 1];
      if Tally(b) == 0 {
        assert forall i :: 1 <= i < |b| ==> b[i] == b[1..][i - 1];
      }
    }
  }

  function Flags(n: nat): (b: seq<bool>)
    ensures |b| == n && forall i :: 0 <= i < n ==> !b[i]
  {
    seq(n, i => false)
  }

  function Blank(n: nat): (b: seq<Option<Report>>)
    ensures |b| == n && forall i :: 0 <= i < n ==> b[i] == None
  {
    seq(n, i => None)
  }

  /** A finished ping: what the slot holds for context `i`. */
  predicate Holds(s: Sys, i: nat) {
    Shape(s) && i < MAX_CONTEXTS && s.slots[PING_SLOT].state != Empty && s.slots[PING_SLOT].req == PingRequest(i)
  }

  /** A recorded ping is finished, and counted as good exactly if it is DONE. */
  predicate ReportOk(e: Report, i: nat) {
    i < MAX_CONTEXTS && Finished(e.slot.state) && e.slot.req == PingRequest(i) && (e.ok <==> e.slot.state == Done)
  }

  /** Where the ping of context `i` is: nowhere, in the slot, or recorded once. */
  predicate EntryOk(s: Sys, active: bool, accepted: bool, entry: Option<Report>, writes: nat, i: nat) {
    && (active ==> accepted && Holds(s, i))
    && (entry.Some? <==> accepted && !active)
    && (entry.Some? ==> ReportOk(entry.value, i))
    && writes == One(entry.Some?)
  }

  predicate AllEntries(sys: seq<Sys>, active: seq<bool>, accepted: seq<bool>, entries: seq<Option<Report>>, writes: seq<nat>) {
    && |active| == |sys| && |accepted| == |sys| && |entries| == |sys| && |writes| == |sys|
    && forall i :: 0 <= i < |sys| ==> EntryOk(sys[i], active[i], accepted[i], entries[i], writes[i], i)
  }

  lemma RecordEntries(sys: seq<Sys>, active: seq<bool>, accepted: seq<bool>, entries: seq<Option<Report>>, writes: seq<nat>,
                      i: nat, e: Report)
    requires AllEntries(sys, active, accepted, entries, writes) && i < |sys| && active[i] && ReportOk(e, i)
    ensures entries[i] == None
    ensures AllEntries(sys, active[i := false], accepted, entries[i := Some(e)], writes[i := writes[i] + 1])
  {
    hide Holds, ReportOk;
    assert EntryOk(sys[i], active[i], accepted[i], entries[i], writes[i], i);
  }

  lemma OfferEntries(sys: seq<Sys>, next: seq<Sys>, active: seq<bool>, accepted: seq<bool>, entries: seq<Option<Report>>,
                     writes: seq<nat>, i: nat)
    requires AllEntries(sys, active, accepted, entries, writes) && i < |sys| && !accepted[i]
    requires OthersMoved(sys, next, i) && Holds(next[i], i)
    ensures !active[i]
    ensures AllEntries(next, active[i := true], accepted[i := true], entries, writes)
  {
    hide Holds, ReportOk, Rely, OthersMoved;
    assert EntryOk(sys[i], active[i], accepted[i], entries[i], writes[i], i);
    assert |next| == |sys| by { OthersBoot(sys, next, i); }
    forall k | 0 <= k < |next|
      ensures EntryOk(next[k], active[i := true][k], accepted[i := true][k], entries[k], writes[k], k)
    {
      OthersHolds(sys, next, i, k);
      assert EntryOk(sys[k], active[k], accepted[k], entries[k], writes[k], k);
    }
  }

  lemma NotYetActive(sys: seq<Sys>, active: seq<bool>, accepted: seq<bool>, entries: seq<Option<Report>>, writes: seq<nat>, i: nat)
    requires AllEntries(sys, active, accepted, entries, writes) && i < |sys| && !accepted[i]
    ensures !active[i]
  {
    assert EntryOk(sys[i], active[i], accepted[i], entries[i], writes[i], i);
  }

  lemma RunEntries(sys: seq<Sys>, next: seq<Sys>, active: seq<bool>, accepted: seq<bool>, entries: seq<Option<Report>>,
                   writes: seq<nat>)
    requires AllEntries(sys, active, accepted, entries, writes) && AllMoved(sys, next)
    ensures AllEntries(next, active, accepted, entries, writes)
  {
    hide Holds, ReportOk, Rely;
    forall k | 0 <= k < |next|
      ensures EntryOk(next[k], active[k], accepted[k], entries[k], writes[k], k)
    {
      assert EntryOk(sys[k], active[k], accepted[k], entries[k], writes[k], k);
      if active[k] {
        RelyHolds(sys[k], next[k], k);
      }
    }
  }

  lemma EntryAt(sys: seq<Sys>, active: seq<bool>, accepted: seq<bool>, entries: seq<Option<Report>>, writes: seq<nat>, i: nat)
    requires AllEntries(sys, active, accepted, entries, writes) && i < |sys| && active[i]
    ensures Shape(sys[i]) && i < MAX_CONTEXTS && Holds(sys[i], i)
    ensures sys[i].slots[PING_SLOT].req == PingRequest(i) && sys[i].slots[PING_SLOT].state != Empty
  {
    assert EntryOk(sys[i], active[i], accepted[i], entries[i], writes[i], i);
  }

  /** A DONE ping passes every test of the result. */
  lemma DonePingIsOk(s: Sys, edit: Option<nat>, i: nat)
    requires Inv(s, edit) && i < MAX_CONTEXTS && Holds(s, i)
    ensures ResultOk(s.slots[PING_SLOT]) <==> s.slots[PING_SLOT].state == Done
  {
    assert Completed(s, PING_SLOT);
  }

  lemma RelyHolds(s: Sys, r: Sys, i: nat)
    requires Rely(s, r) && Holds(s, i)
    ensures Holds(r, i)
    ensures Finished(s.slots[PING_SLOT].state) ==> Finished(r.slots[PING_SLOT].state)
    ensures Finished(s.slots[PING_SLOT].state) ==> (r.slots[PING_SLOT].state == Done <==> s.slots[PING_SLOT].state == Done)
    ensures s.slots[PING_SLOT].state != Pending ==> r.slots[PING_SLOT].state != Pending
  {
  }

  // ----- an AP that was idle when the round began

  /** The slots of one AP of which only the ping slot may be in use. */
  function Flag(active: bool): (act: seq<bool>) {
    [active, false, false, false]
  }

  /** The protocol invariant, and for an AP that was idle when the round began and was not timed out also
      the stream invariant, with the ping as the only request. */
  predicate Fit(s: Sys, edit: Option<nat>, active: bool, tame: bool) {
    Inv(s, edit) && (tame ==> Live(s, Flag(active)))
  }

  lemma FitRuns(s: Sys, cs: seq<Choice>, edit: Option<nat>, active: bool, tame: bool)
    requires Shape(s) && Fit(s, edit, active, tame)
    ensures Fit(RunAp(s, cs), edit, active, tame) && Moves(s, RunAp(s, cs))
  {
    hide Inv, Live, Rely, RunAp, ApMoved;
    RunApKeeps(s, cs, edit);
    if tame {
      RunApLive(s, cs, edit, Flag(active));
    }
  }

  lemma FitMoved(s: Sys, r: Sys, edit: Option<nat>, active: bool)
    requires Fit(s, edit, active, true) && Moves(s, r)
    ensures ApMoved(s, r)
  {
    hide Inv, Live, Rely, RunAp, ApMoved;
    var cs :| RunAp(s, cs) == r;
    RunApLive(s, cs, edit, Flag(active));
  }

  lemma RestoreFit(s: Sys, handled: u32, counter: u32, active: bool, tame: bool)
    requires Fit(s, None, active, tame)
    ensures Fit(s.(handled := handled, counter := counter), None, active, tame)
  {
  }

  lemma RestoreBrisk(s: Sys, handled: u32, counter: u32, act: seq<bool>, spent: nat)
    requires Brisk(s, act, spent)
    ensures Brisk(s.(handled := handled, counter := counter), act, spent)
  {
    BriskSame(s, s.(handled := handled, counter := counter), act, spent, PING_SLOT);
  }

  lemma ReleaseFit(s: Sys, tame: bool)
    requires Fit(s, None, true, tame) && Finished(s.slots[PING_SLOT].state)
    ensures Fit(s, None, false, tame)
  {
    hide Inv, Live;
    if tame {
      StreamEdits.ReleaseLive(s, PING_SLOT, Flag(true));
      assert Flag(true)[PING_SLOT := false] == Flag(false);
    }
  }

  /** `edit` is the context whose slot is being rewritten. */
  predicate AllFit(sys: seq<Sys>, active: seq<bool>, tame: seq<bool>, edit: Option<nat>) {
    && |sys| <= MAX_CONTEXTS && |active| == |sys| && |tame| == |sys|
    && forall i :: 0 <= i < |sys| ==> Fit(sys[i], if edit == Some(i) then Some(PING_SLOT) else None, active[i], tame[i])
  }

  lemma ReleaseAllFit(sys: seq<Sys>, active: seq<bool>, tame: seq<bool>, i: nat)
    requires AllFit(sys, active, tame, None) && i < |sys| && active[i] && Shape(sys[i]) && Finished(sys[i].slots[PING_SLOT].state)
    ensures AllFit(sys, active[i := false], tame, None)
  {
    hide Fit;
    ReleaseFit(sys[i], tame[i]);
  }

  lemma IdleAgain(sys: seq<Sys>, active: seq<bool>, tame: seq<bool>)
    requires AllFit(sys, active, tame, None) && forall i :: 0 <= i < |active| ==> !active[i]
    ensures forall i :: 0 <= i < |sys| && tame[i] ==> Idle(sys[i])
  {
    hide Fit, Idle;
    forall i | 0 <= i < |sys| && tame[i]
      ensures Idle(sys[i])
    {
      FitIsIdle(sys[i]);
    }
  }

  lemma FitIsIdle(s: Sys)
    requires Fit(s, None, false, true)
    ensures Idle(s)
  {
  }

  lemma WaitHolds(s: Sys, i: nat, loops: u32, tame: bool)
    requires Fit(s, None, true, tame) && i < MAX_CONTEXTS && Holds(s, i)
    ensures Fit(WithWait(s, PING_SLOT, loops), None, true, tame) && Holds(WithWait(s, PING_SLOT, loops), i)
    ensures WithWait(s, PING_SLOT, loops).slots[PING_SLOT].state == s.slots[PING_SLOT].state
  {
    hide WorkOk, RunningOwned, AllCompleted, CurrentOk, BootOk, ApLive, SlotLive;
    WaitKeeps(s, PING_SLOT, loops, None);
    if tame {
      StreamEdits.WaitLive(s, PING_SLOT, loops, Flag(true));
    }
  }

  lemma SwapHolds(s: Sys, i: nat, expected: SlotState)
    requires Inv(s, None) && i < MAX_CONTEXTS && Holds(s, i) && (expected == Pending || expected == Running)
    ensures var r := Swapped(s, PING_SLOT, expected, TimedOut);
            && Inv(r, None) && Holds(r, i)
            && r.slots[PING_SLOT].state == if s.slots[PING_SLOT].state == expected then TimedOut else s.slots[PING_SLOT].state
  {
    hide WorkOk, RunningOwned, AllCompleted, CurrentOk, BootOk;
    if s.slots[PING_SLOT].state == expected {
      ReplacedKeeps(s, Swapped(s, PING_SLOT, expected, TimedOut), PING_SLOT, None, None);
    }
  }

  lemma EditFits(s: Sys, r: Sys, edit: Option<nat>, tame: bool)
    requires Fit(s, edit, false, tame) && (edit == None || edit == Some(PING_SLOT)) && Shape(r) && StreamEdits.OnlySlot(s, r, PING_SLOT)
    requires r.slots[PING_SLOT].state == Empty || (r.slots[PING_SLOT].state == Fault && s.slots[PING_SLOT].state == Fault)
    ensures Fit(r, Some(PING_SLOT), false, tame)
  {
    hide WorkOk, RunningOwned, AllCompleted, CurrentOk, BootOk, Live;
    ReplacedKeeps(s, r, PING_SLOT, edit, Some(PING_SLOT));
    if tame {
      StreamEdits.EditLive(s, r, PING_SLOT, Flag(false), edit);
    }
  }

  /** The BSP's writes up to the final store of a publication. */
  lemma WritesFit(s: Sys, edit: Option<nat>, plan: Plan, target: u32, tame: bool)
    requires Fit(s, edit, false, tame) && (edit == None || edit == Some(PING_SLOT))
    ensures Fit(WithState(s, PING_SLOT, Empty), Some(PING_SLOT), false, tame)
    ensures edit == Some(PING_SLOT) ==>
              && Fit(WithSlot(s, PING_SLOT, Cleared(s.slots[PING_SLOT])), edit, false, tame)
              && Fit(WithCommitted(s, PING_SLOT, EMPTY_OUTBOX), edit, false, tame)
              && Fit(WithPlan(s, PING_SLOT, plan, target), edit, false, tame)
              && Fit(WithFaultCode(s, PING_SLOT), edit, false, tame)
    ensures Beside(s, WithState(s, PING_SLOT, Empty), PING_SLOT)
    ensures Beside(s, WithSlot(s, PING_SLOT, Cleared(s.slots[PING_SLOT])), PING_SLOT)
    ensures Beside(s, WithCommitted(s, PING_SLOT, EMPTY_OUTBOX), PING_SLOT)
    ensures Beside(s, WithPlan(s, PING_SLOT, plan, target), PING_SLOT) && Beside(s, WithFaultCode(s, PING_SLOT), PING_SLOT)
  {
    hide WorkOk, RunningOwned, AllCompleted, CurrentOk, BootOk, Live;
    EditFits(s, WithState(s, PING_SLOT, Empty), edit, tame);
    if edit == Some(PING_SLOT) {
      EditFits(s, WithSlot(s, PING_SLOT, Cleared(s.slots[PING_SLOT])), edit, tame);
      EditFits(s, WithCommitted(s, PING_SLOT, EMPTY_OUTBOX), edit, tame);
      EditFits(s, WithPlan(s, PING_SLOT, plan, target), edit, tame);
      EditFits(s, WithFaultCode(s, PING_SLOT), edit, tame);
    }
  }

  /** The stored state is one that the boot record still calls for. */
  predicate CalledFor(s: Sys, st: SlotState) {
    && (st == Pending ==> s.boot.bootOk)
    && (st == Fault ==> s.boot.apState == Faulted)
    && (st == Skipped ==> !s.boot.bootOk || s.boot.apState == HaltedState || s.boot.apState == Faulted)
  }

  lemma StoreFits(s: Sys, st: SlotState, tame: bool)
    requires Fit(s, Some(PING_SLOT), false, tame) && (st == Pending || st == Skipped || st == Fault)
    requires tame ==> CalledFor(s, st)
    ensures Fit(WithState(s, PING_SLOT, st), None, true, tame)
  {
    hide WorkOk, RunningOwned, AllCompleted, CurrentOk, BootOk, Live;
    ReplacedKeeps(s, WithState(s, PING_SLOT, st), PING_SLOT, Some(PING_SLOT), None);
    if tame {
      StreamEdits.PublishLive(s, PING_SLOT, st, Flag(false));
      assert Flag(false)[PING_SLOT := true] == Flag(true);
    }
  }

  /** A faulted AP does nothing more. */
  lemma DeadRests(s: Sys, r: Sys, edit: Option<nat>)
    requires Inv(s, edit) && Moves(s, r) && s.boot.apState == Faulted
    ensures r == s
  {
    hide Rely, WorkOk, RunningOwned, AllCompleted, CurrentOk;
    var cs: seq<Choice> :| RunAp(s, cs) == r;
    DeadRuns(s, cs);
  }

  lemma {:induction false} DeadRuns(s: Sys, cs: seq<Choice>)
    requires Shape(s) && s.pc.Dead?
    ensures RunAp(s, cs) == s
    decreases |cs|
  {
    if cs != [] {
      DeadRuns(s, cs[1..]);
    }
  }

  /** On a healthy AP the ping becomes pending. */
  lemma PublishBrisk(s: Sys, i: nat, st: SlotState, spent: nat)
    requires Brisk(s, Flag(false), spent) && i < MAX_CONTEXTS && s.slots[PING_SLOT].req == PingRequest(i)
    requires (st == Pending || st == Skipped || st == Fault) && CalledFor(s, st)
    ensures Brisk(WithState(s, PING_SLOT, st), Flag(true), 0)
  {
    hide Prompt;
    assert Flag(false)[PING_SLOT := true] == Flag(true);
    BriskPublish(s, WithState(s, PING_SLOT, st), Flag(false), spent, PING_SLOT);
  }

  /** For an AP that was idle, what the three reads saw still holds when the state is stored. */
  lemma StillCalledFor(e: Sys, x: Sys, y: Sys, s: Sys, st: SlotState)
    requires Fit(e, Some(PING_SLOT), false, true) && Fit(x, Some(PING_SLOT), false, true) && Fit(y, Some(PING_SLOT), false, true)
    requires e.boot.apState != Faulted && StoreFor(e, x, y, st) && Moves(y, s)
    ensures CalledFor(s, st)
  {
    hide Inv, Moves, ApMoved, Reaches;
    FitMoved(x, y, Some(PING_SLOT), false);
    FitMoved(y, s, Some(PING_SLOT), false);
    ApMovedStops(x, y);
    ApMovedStops(y, s);
  }

  function IdleFlags(sys: seq<Sys>): (b: seq<bool>)
    ensures |b| == |sys| && forall i :: 0 <= i < |b| ==> (b[i] <==> Idle(sys[i]))
  {
    seq(|sys|, i requires 0 <= i < |sys| => Idle(sys[i]))
  }

  function KeenFlags(sys: seq<Sys>): (b: seq<bool>)
    ensures |b| == |sys|
    ensures forall i :: 0 <= i < |b| ==> (b[i] <==> Idle(sys[i]) && Accepting(sys[i].boot) && InClaimLoop(sys[i].pc))
  {
    seq(|sys|, i requires 0 <= i < |sys| => Idle(sys[i]) && Accepting(sys[i].boot) && InClaimLoop(sys[i].pc))
  }

  /** What AP `i` does, moment by moment. */
  function Lane(script: nat -> nat -> seq<Choice>, i: nat): (lane: nat -> seq<Choice>)
    ensures forall n: nat :: lane(n) == script(n)(i)
  {
    (n: nat) => script(n)(i)
  }

  function Ran(sys: seq<Sys>, moves: nat -> seq<Choice>): (r: seq<Sys>)
    requires forall i :: 0 <= i < |sys| ==> Shape(sys[i])
    ensures |r| == |sys| && forall i :: 0 <= i < |sys| ==> r[i] == RunAp(sys[i], moves(i))
  {
    seq(|sys|, i requires 0 <= i < |sys| => RunAp(sys[i], moves(i)))
  }

  class PingRound {
    const timeout: u32
    const script: nat -> nat -> seq<Choice>   // per moment and per AP
    const delay: nat -> Step

    var sys: seq<Sys>
    var tick: nat
    var active: seq<bool>
    var activeCount: nat
    var planned: nat
    var completed: nat
    var good: nat
    var bad: nat
    var entries: seq<Option<Report>>
    var waitLoops: u32
    ghost var accepted: seq<bool>   // APs the ping was published to
    ghost var seen: seq<(Sys, Sys)> // states in which an AP's boot flags and then its boot state were read
    ghost var writes: seq<nat>      // how often each entry was written
    ghost const pace: nat
    ghost const longest: nat
    ghost const keen: seq<bool>     // APs that were idle in their claim loop at first and accepted requests
    ghost var freshTick: nat        // the moment of the last publication
    ghost var sweeps: seq<Swing>    // the passes of the collecting loop
    ghost var waits: seq<Step>      // the waits between them
    ghost var tame: seq<bool>       // APs that were idle at first and whose ping was not timed out

    /** `edit` is the context whose slot is being rewritten. */
    ghost predicate Sound(edit: Option<nat>)
      reads `sys, `active, `tame, `tick, `freshTick
    {
      AllFit(sys, active, tame, edit) && freshTick <= tick && forall i :: 0 <= i < |sys| ==> BriskAt(i)
    }

    /** So far AP `i`, in its claim loop at first, has taken no fault and in every `pace` moments the steps of a
        turn. */
    ghost predicate OnPace(i: nat)
      reads `tick
    {
      && i < |keen| && keen[i]
      && (forall n: nat :: n <= tick ==> Calm(script(n)(i)))
      && (forall n: nat :: n + pace <= tick ==> TurnFits(Lane(script, i), n, pace))
    }

    ghost predicate BriskAt(i: nat)
      requires i < |sys| && |active| == |sys| && |tame| == |sys|
      reads `sys, `active, `tame, `tick, `freshTick
    {
      tame[i] && OnPace(i) ==> Brisk(sys[i], Flag(active[i]), GosFrom(Lane(script, i), freshTick, tick))
    }

    /** No wait so far has been longer than `longest`, and there is time for more than `pace` of them. */
    ghost predicate Patient()
      reads `tick
    {
      longest * (pace + 1) < timeout && forall n: nat :: n <= tick ==> delay(n) <= longest
    }

    ghost predicate Counted()
      reads `sys, `active, `accepted, `entries, `writes, `activeCount, `planned, `completed, `good, `bad
    {
      && |active| == |sys| && |accepted| == |sys| && |entries| == |sys| && |writes| == |sys|
      && activeCount == Tally(active) && planned == Tally(accepted) && planned == completed + activeCount
      && completed == good + bad
      && good == Tally(DoneFlags(entries)) && bad == Tally(FailedFlags(entries))
    }

    ghost predicate Valid()
      reads this
    {
      && Sound(None) && Counted() && AllEntries(sys, active, accepted, entries, writes) && waitLoops <= timeout
      && forall i :: 0 <= i < |entries| && tame[i] && OnPace(i) && entries[i].Some? ==> entries[i].value.ok
    }

    constructor (contexts: seq<Sys>, timeout: u32, script: nat -> nat -> seq<Choice>, delay: nat -> Step,
                 ghost pace: nat, ghost longest: nat)
      requires forall i :: 0 <= i < |contexts| ==> Inv(contexts[i], None)
      ensures Valid() && planned == 0 && waitLoops == 0 && accepted == Flags(|sys|) && seen == []
      ensures sys == contexts[..if |contexts| > MAX_CONTEXTS then MAX_CONTEXTS else |contexts|]
      ensures forall i :: 0 <= i < |sys| ==> (tame[i] <==> Idle(sys[i]))
      ensures this.pace == pace && this.longest == longest && |keen| == |sys| && sweeps == [] && waits == []
      ensures forall i :: 0 <= i < |sys| ==> (keen[i] <==> Idle(sys[i]) && Accepting(sys[i].boot) && InClaimLoop(sys[i].pc))
      ensures this.timeout == timeout && this.script == script && this.delay == delay
    {
      var n := if |contexts| > MAX_CONTEXTS then MAX_CONTEXTS else |contexts|;
      this.timeout, this.script, this.delay := timeout, script, delay;
      this.pace, this.longest, keen := pace, longest, KeenFlags(contexts[..n]);
      freshTick, sweeps, waits := 0, [], [];
      sys, tick, waitLoops := contexts[..n], 0, 0;
      active, activeCount, entries := Flags(n), 0, Blank(n);
      planned, completed, good, bad := 0, 0, 0, 0;
      accepted, writes, seen, tame := Flags(n), seq(n, i => 0), [], IdleFlags(contexts[..n]);
      new;
      forall i | 0 <= i < |sys|
        ensures BriskAt(i)
      {
        if keen[i] {
          HealthyStart(sys[i]);
        }
      }
      TallyNone(active);
      TallyNone(DoneFlags(entries));
      TallyNone(FailedFlags(entries));
    }

    /** Whatever the APs do now. */
    method Interfere(ghost edit: Option<nat>)
      requires Sound(edit)
      modifies this`sys, this`tick
      ensures tick == old(tick) + 1
      ensures Sound(edit) && AllMoved(old(sys), sys)
    {
      hide Inv, Live, RunAp, Moves, Brisk, Gos;
      forall i | 0 <= i < |sys|
        ensures Shape(sys[i])
      {
        InvShape(sys[i], if edit == Some(i) then Some(PING_SLOT) else None);
      }
      var next := Ran(sys, script(tick));
      forall i | 0 <= i < |sys|
        ensures Fit(next[i], if edit == Some(i) then Some(PING_SLOT) else None, active[i], tame[i]) && Moves(sys[i], next[i])
        ensures tame[i] && OnPace(i) ==> Brisk(next[i], Flag(active[i]), GosFrom(Lane(script, i), freshTick, tick + 1))
      {
        var e := if edit == Some(i) then Some(PING_SLOT) else None;
        FitRuns(sys[i], script(tick)(i), e, active[i], tame[i]);
        if tame[i] && OnPace(i) {
          assert BriskAt(i);
          BriskRun(sys[i], script(tick)(i), e, Flag(active[i]), GosFrom(Lane(script, i), freshTick, tick));
        }
      }
      sys := next;
      tick := tick + 1;
    }

    /** Whatever the APs do between two accesses of the main loop. */
    method Pause()
      requires Valid()
      modifies this`sys, this`tick
      ensures old(tick) <= tick
      ensures Valid() && AllMoved(old(sys), sys) && |sys| == |old(sys)| && tick == old(tick) + 1
    {
      hide Inv, Rely, Tally, DoneFlags, FailedFlags, AllEntries, AllMoved;
      Interfere(None);
      AllMovedBoot(old(sys), sys);
      RunEntries(old(sys), sys, active, accepted, entries, writes);
    }

    /** The other APs are as brisk as before. */
    lemma BriskElsewhere(i: nat, r: Sys)
      requires i < |sys| && |active| == |sys| && |tame| == |sys| && forall j :: 0 <= j < |sys| ==> BriskAt(j)
      ensures forall j :: 0 <= j < |sys| && j != i && tame[j] && OnPace(j) ==>
                Brisk(sys[i := r][j], Flag(active[j]), GosFrom(Lane(script, j), freshTick, tick))
    {
      hide Brisk, GosFrom;
      forall j | 0 <= j < |sys| && j != i && tame[j] && OnPace(j)
        ensures Brisk(sys[i := r][j], Flag(active[j]), GosFrom(Lane(script, j), freshTick, tick))
      {
        assert BriskAt(j);
      }
    }

    /** One write to the ping slot of context `i`, then whatever the APs do. */
    method Put(i: nat, r: Sys, ghost edit: Option<nat>)
      requires Sound(edit) && i < |sys| && (edit == None || edit == Some(i)) && Fit(r, Some(PING_SLOT), active[i], tame[i])
      requires !active[i] && Beside(sys[i], r, PING_SLOT)
      modifies this`sys, this`tick
      ensures old(tick) <= tick
      ensures Sound(Some(i)) && |sys| == |old(sys)| && Moves(r, sys[i]) && OthersMoved(old(sys), sys, i)
    {
      hide Fit, Moves, Brisk, Beside;
      if tame[i] && OnPace(i) {
        assert BriskAt(i);
        BriskEdit(sys[i], r, Flag(false), GosFrom(Lane(script, i), freshTick, tick), PING_SLOT);
      }
      BriskElsewhere(i, r);
      sys := sys[i := r];
      Interfere(Some(i));
    }

    /** `publish_ap_inbox_request` for the ping of context `i`. */
    method Publish(i: nat) returns (ghost e: Sys, ghost x: Sys, ghost y: Sys)
      requires Sound(None) && i < |sys| && !active[i]
      modifies this`sys, this`tick, this`active, this`freshTick
      ensures old(tick) <= tick
      ensures Sound(None) && |sys| == |old(sys)| && Holds(sys[i], i) && OthersMoved(old(sys), sys, i)
      ensures active == old(active)[i := true] && StoreFor(e, x, y, sys[i].slots[PING_SLOT].state)
      ensures sys[i].slots[PING_SLOT].state == Fault ==> sys[i].slots[PING_SLOT].reply.faultCode == sys[i].boot.faultVector % 0x1_0000_0000
    {
      hide Inv, Live, Moves, OthersMoved, AllMoved, RequestFor, StoreFor, CalledFor;
      ghost var a := sys;
      Reset(i);
      ghost var b := sys;
      WritesFit(sys[i], Some(PING_SLOT), PingPlan(i), i + 1, tame[i]);
      InvShape(sys[i], Some(PING_SLOT));
      var planned := WithPlan(sys[i], PING_SLOT, PingPlan(i), i + 1);
      Put(i, planned, Some(i));
      ghost var c := sys;
      SameRequest(planned, sys[i]);
      OthersTransitive(a, b, c, i);
      e := sys[i];
      var st;
      st, x, y := ChooseState(i);
      ghost var d := sys;
      OthersTransitive(a, c, d, i);
      StoreFits(sys[i], st, tame[i]);
      StoreWord(i, st);
      OthersStore(a, d, i, sys[i]);
    }

    /** The final store of a publication. */
    method StoreWord(i: nat, st: SlotState)
      requires Sound(Some(i)) && i < |sys| && !active[i] && (st == Pending || st == Skipped || st == Fault)
      requires Fit(WithState(sys[i], PING_SLOT, st), None, true, tame[i]) && (tame[i] ==> CalledFor(sys[i], st))
      requires Shape(sys[i]) && sys[i].slots[PING_SLOT].req == PingRequest(i)
      modifies this`sys, this`active, this`freshTick
      ensures Sound(None) && sys == old(sys)[i := WithState(old(sys)[i], PING_SLOT, st)] && active == old(active)[i := true]
    {
      hide Fit, Brisk, WithState, CalledFor, PingRequest;
      forall j | 0 <= j < |sys| && tame[j] && OnPace(j)
        ensures Brisk(sys[i := WithState(sys[i], PING_SLOT, st)][j], Flag(active[i := true][j]), GosFrom(Lane(script, j), tick, tick))
      {
        assert BriskAt(j);
        if j == i {
          PublishBrisk(sys[i], i, st, GosFrom(Lane(script, i), freshTick, tick));
        } else {
          BriskLess(sys[j], Flag(active[j]), GosFrom(Lane(script, j), freshTick, tick), 0);
        }
      }
      sys := sys[i := WithState(sys[i], PING_SLOT, st)];
      active := active[i := true];
      freshTick := tick;
    }

    /** `reset_ap_inbox_slot`. */
    method Reset(i: nat)
      requires Sound(None) && i < |sys| && !active[i]
      modifies this`sys, this`tick
      ensures old(tick) <= tick
      ensures Sound(Some(i)) && |sys| == |old(sys)| && OthersMoved(old(sys), sys, i)
    {
      hide Inv, Live, Moves, OthersMoved, AllMoved;
      Interfere(None);
      ghost var a := sys;
      AllOthers(old(sys), a, i);
      WritesFit(sys[i], None, NO_PLAN, 0, tame[i]);
      InvShape(sys[i], None);
      Put(i, WithState(sys[i], PING_SLOT, Empty), None);
      ghost var b := sys;
      OthersTransitive(old(sys), a, b, i);
      WritesFit(sys[i], Some(PING_SLOT), NO_PLAN, 0, tame[i]);
      InvShape(sys[i], Some(PING_SLOT));
      Put(i, WithSlot(sys[i], PING_SLOT, Cleared(sys[i].slots[PING_SLOT])), Some(i));
      ghost var c := sys;
      OthersTransitive(old(sys), b, c, i);
      WritesFit(sys[i], Some(PING_SLOT), NO_PLAN, 0, tame[i]);
      InvShape(sys[i], Some(PING_SLOT));
      Put(i, WithCommitted(sys[i], PING_SLOT, EMPTY_OUTBOX), Some(i));
      OthersTransitive(old(sys), c, sys, i);
    }

    /** The reads of the boot record that decide the final store. */
    method ChooseState(i: nat) returns (st: SlotState, ghost x: Sys, ghost y: Sys)
      requires Sound(Some(i)) && i < |sys| && !active[i]
      modifies this`sys, this`tick
      ensures old(tick) <= tick
      ensures Sound(Some(i)) && |sys| == |old(sys)| && OthersMoved(old(sys), sys, i)
      ensures Shape(sys[i]) && Shape(old(sys)[i]) && sys[i].slots[PING_SLOT].req == old(sys)[i].slots[PING_SLOT].req
      ensures (st == Pending || st == Skipped || st == Fault) && StoreFor(old(sys)[i], x, y, st)
      ensures st == Fault ==> sys[i].slots[PING_SLOT].reply.faultCode == sys[i].boot.faultVector % 0x1_0000_0000
      ensures tame[i] ==> CalledFor(sys[i], st)
    {
      hide Inv, Live, Moves, OthersMoved, AllMoved;
      ghost var a := sys;
      InvShape(sys[i], Some(PING_SLOT));
      if sys[i].boot.apState == Faulted {
        WritesFit(sys[i], Some(PING_SLOT), NO_PLAN, 0, tame[i]);
        var coded := WithFaultCode(sys[i], PING_SLOT);
        Put(i, coded, Some(i));
        DeadRests(coded, sys[i], Some(PING_SLOT));
        return Fault, a[i], a[i];
      }
      Interfere(Some(i));
      ghost var b := sys;
      AllOthers(a, b, i);
      x := b[i];
      InvShape(sys[i], Some(PING_SLOT));
      st := if !sys[i].boot.bootOk || !sys[i].boot.online then Skipped else Pending;
      Interfere(Some(i));
      ghost var c := sys;
      AllOthers(b, c, i);
      y := c[i];
      OthersTransitive(a, b, c, i);
      InvShape(sys[i], Some(PING_SLOT));
      st := if st == Pending && sys[i].boot.apState == HaltedState then Skipped else st;
      Interfere(Some(i));
      AllOthers(c, sys, i);
      OthersTransitive(a, c, sys, i);
      InvShape(sys[i], Some(PING_SLOT));
      if tame[i] {
        StillCalledFor(a[i], x, y, sys[i], st);
      }
    }

    /** The fan-out: a ping goes to exactly the APs that accept requests when they are looked at. */
    method FanOut()
      requires Valid() && planned == 0 && accepted == Flags(|sys|) && seen == []
      modifies this`sys, this`tick, this`active, this`activeCount, this`planned, this`accepted, this`seen, this`freshTick
      ensures old(tick) <= tick
      ensures Valid() && |sys| == |old(sys)| && |seen| == |sys|
      ensures forall i :: 0 <= i < |sys| ==> Decided(old(sys)[i], seen[i].0, seen[i].1, accepted[i])
      ensures |tame| == |accepted| == |sys| && forall i :: 0 <= i < |sys| && tame[i] && OnPace(i) ==> accepted[i]
    {
      hide Sound, Tally, DoneFlags, FailedFlags, AllEntries, Moves, Decided;
      var i := 0;
      SoundSizes();
      AllMovedReflexive(sys) by { SoundShapes(); }
      while i < |sys|
        invariant old(tick) <= tick
        invariant 0 <= i <= |sys| == |old(sys)| && Valid() && |seen| == i && |accepted| == |sys|
        invariant forall k :: i <= k < |sys| ==> !accepted[k]
        invariant forall k :: i <= k < |sys| ==> Moves(old(sys)[k], sys[k])
        invariant |tame| == |sys| && forall k :: 0 <= k < i && tame[k] && OnPace(k) ==> accepted[k]
        invariant forall k :: 0 <= k < i ==> Decided(old(sys)[k], seen[k].0, seen[k].1, accepted[k])
      {
        ghost var s1 := sys;
        ghost var a, b := Offer(i);
        seen := seen + [(a, b)];
        DecidedLater(old(sys)[i], s1[i], a, b, accepted[i]);
        forall k | i < k < |sys|
          ensures Moves(old(sys)[k], sys[k])
        {
          MovesTransitive(old(sys)[k], s1[k], sys[k]);
        }
        i := i + 1;
      }
    }

    lemma SoundSizes()
      requires Sound(None)
      ensures |active| == |tame| == |sys|
    {
    }

    lemma SoundShapes()
      requires Sound(None)
      ensures forall i :: 0 <= i < |sys| ==> Shape(sys[i])
    {
    }

    lemma BriskAccepts(i: nat)
      requires Sound(None) && i < |sys|
      ensures |tame| == |sys| && (tame[i] && OnPace(i) ==> Accepting(sys[i].boot))
    {
      hide Fit, Prompt;
      assert BriskAt(i);
    }

    /** `ap_context_can_accept_broadcast_ping`: the boot flags are read in state `a`, the boot state in `b`. */
    method CanAccept(i: nat) returns (yes: bool, ghost a: Sys, ghost b: Sys)
      requires Valid() && i < |sys|
      modifies this`sys, this`tick
      ensures old(tick) <= tick
      ensures Valid() && |sys| == |old(sys)| && AllMoved(old(sys), sys) && Decided(old(sys)[i], a, b, yes)
      ensures |tame| == |sys| && (tame[i] && OnPace(i) ==> yes)
    {
      hide Sound, Counted, AllEntries, Moves;
      Pause();
      BriskAccepts(i);
      a := sys[i];
      yes := sys[i].boot.bootOk && sys[i].boot.online;
      ghost var s1 := sys;
      Pause();
      BriskAccepts(i);
      b := sys[i];
      AllMovedTransitive(old(sys), s1, sys);
      yes := yes && sys[i].boot.apState != HaltedState && sys[i].boot.apState != Faulted;
    }

    /** One context of the fan-out. */
    method Offer(i: nat) returns (ghost a: Sys, ghost b: Sys)
      requires Valid() && i < |sys| && |accepted| == |sys| && !accepted[i]
      modifies this`sys, this`tick, this`active, this`activeCount, this`planned, this`accepted, this`freshTick
      ensures old(tick) <= tick
      ensures Valid() && |sys| == |old(sys)| && OthersMoved(old(sys), sys, i)
      ensures |accepted| == |sys| && accepted == old(accepted)[i := accepted[i]] && Decided(old(sys)[i], a, b, accepted[i])
      ensures |tame| == |sys| && (tame[i] && OnPace(i) ==> accepted[i])
    {
      hide Sound, Counted, OthersMoved, AllMoved, AllEntries, Decided;
      var ready;
      ready, a, b := CanAccept(i);
      AllOthers(old(sys), sys, i);
      SoundSizes();
      if ready {
        ghost var s1 := sys;
        Send(i);
        OthersTransitive(old(sys), s1, sys, i);
        SoundSizes();
      }
    }

    /** The ping to context `i` and its accounts. */
    method Send(i: nat)
      requires Valid() && i < |sys| && |accepted| == |sys| && !accepted[i]
      modifies this`sys, this`tick, this`active, this`activeCount, this`planned, this`accepted, this`freshTick
      ensures old(tick) <= tick
      ensures Valid() && |sys| == |old(sys)| && OthersMoved(old(sys), sys, i) && accepted == old(accepted)[i := true]
    {
      hide Sound, Tally, DoneFlags, FailedFlags, Holds, OthersMoved, AllEntries, StoreFor;
      ghost var act := active;
      SoundSizes();
      NotYetActive(sys, active, accepted, entries, writes, i);
      var _, _, _ := Publish(i);
      OfferEntries(old(sys), sys, act, accepted, entries, writes, i);
      TallyUpdate(act, i, true);
      TallyUpdate(accepted, i, true);
      activeCount := activeCount + 1;
      planned := planned + 1;
      accepted := accepted[i := true];
    }

    lemma BriskIsDone(i: nat)
      requires Sound(None) && i < |sys| && active[i] && Shape(sys[i]) && Finished(sys[i].slots[PING_SLOT].state)
      ensures |tame| == |sys| && (tame[i] && OnPace(i) ==> sys[i].slots[PING_SLOT].state == Done)
    {
      hide Inv, Live, Prompt, GosFrom;
      assert BriskAt(i);
      if tame[i] && OnPace(i) {
        HealthyGoesOn(sys[i], Flag(true));
      }
    }

    /** The entry for a finished ping: the copied result, then the verdict on the slot. */
    method Judge(i: nat, loops: u32) returns (e: Report)
      requires Valid() && i < |sys| && active[i] && Finished(sys[i].slots[PING_SLOT].state)
      modifies this`sys, this`tick
      ensures old(tick) <= tick
      ensures Valid() && |sys| == |old(sys)| && AllMoved(old(sys), sys) && ReportOk(e, i) && e.waitLoops == loops && e.slot == old(sys)[i].slots[PING_SLOT]
      ensures Shape(sys[i]) && Finished(sys[i].slots[PING_SLOT].state)
      ensures |tame| == |sys| && (tame[i] && OnPace(i) ==> e.ok)
    {
      hide Inv, Rely, Holds, Brisk, GosFrom, ResultOk, PingRequest, AllMoved, AllEntries, Counted;
      ghost var s0 := sys;
      EntryAt(sys, active, accepted, entries, writes, i);
      var slot := sys[i].slots[PING_SLOT];
      Pause();
      RelyAt(s0, sys, i);
      RelyHolds(s0[i], sys[i], i);
      EntryAt(sys, active, accepted, entries, writes, i);
      DonePingIsOk(sys[i], None, i);
      BriskIsDone(i);
      e := Report(slot, loops, ResultOk(sys[i].slots[PING_SLOT]));
    }

    lemma ReleaseBrisk(i: nat)
      requires Sound(None) && i < |sys|
      ensures |active| == |tame| == |sys|
      ensures forall j :: 0 <= j < |sys| && tame[j] && OnPace(j) ==>
                Brisk(sys[j], Flag(active[i := false][j]), GosFrom(Lane(script, j), freshTick, tick))
    {
      hide Fit, Brisk, GosFrom;
      forall j | 0 <= j < |sys| && tame[j] && OnPace(j)
        ensures Brisk(sys[j], Flag(active[i := false][j]), GosFrom(Lane(script, j), freshTick, tick))
      {
        assert BriskAt(j);
        if j == i {
          BriskRelease(sys[i], Flag(active[i]), GosFrom(Lane(script, i), freshTick, tick), PING_SLOT);
          assert Flag(active[i])[PING_SLOT := false] == Flag(false);
        }
      }
    }

    /** `record_ap_broadcast_ping_result` and the end of the slot's activity. */
    method Record(i: nat, loops: u32)
      requires Valid() && i < |sys| && active[i] && Finished(sys[i].slots[PING_SLOT].state)
      modifies this`sys, this`tick, this`active, this`activeCount, this`completed, this`good, this`bad, this`entries, this`writes
      ensures old(tick) <= tick
      ensures Valid() && |sys| == |old(sys)| && AllMoved(old(sys), sys) && active == old(active)[i := false]
      ensures entries[i].Some? && entries[i].value.slot == old(sys)[i].slots[PING_SLOT] && entries[i].value.waitLoops == loops
      ensures entries == old(entries)[i := entries[i]]
    {
      hide AllMoved, Sound, Counted, AllEntries, ReportOk;
      SoundSizes();
      var e := Judge(i, loops);
      Enter(i, e);
    }

    /** The entry is written, counted, and the slot released. */
    method Enter(i: nat, e: Report)
      requires Valid() && i < |sys| && active[i] && Shape(sys[i]) && Finished(sys[i].slots[PING_SLOT].state)
      requires ReportOk(e, i) && (tame[i] && OnPace(i) ==> e.ok)
      modifies this`active, this`activeCount, this`completed, this`good, this`bad, this`entries, this`writes
      ensures Valid() && active == old(active)[i := false] && i < |entries| == |old(entries)| && entries == old(entries)[i := Some(e)]
    {
      hide AllFit, Tally, DoneFlags, FailedFlags, AllEntries, ReportOk, Brisk, GosFrom;
      ReleaseAllFit(sys, active, tame, i);
      ReleaseBrisk(i);
      RecordEntries(sys, active, accepted, entries, writes, i, e);
      TallyUpdate(active, i, false);
      RecordTally(entries, i, Some(e));
      entries := entries[i := Some(e)];
      writes := writes[i := writes[i] + 1];
      completed := completed + 1;
      if e.ok {
        good := good + 1;
      } else {
        bad := bad + 1;
      }
      active := active[i := false];
      activeCount := activeCount - 1;
    }

    /** `slot->metrics.wait_loops = ...`. */
    method NoteWait(i: nat, loops: u32)
      requires Valid() && i < |sys| && active[i]
      modifies this`sys, this`tick
      ensures old(tick) <= tick
      ensures Valid() && |sys| == |old(sys)| && OthersMoved(old(sys), sys, i)
      ensures Finished(old(sys)[i].slots[PING_SLOT].state) ==> Finished(sys[i].slots[PING_SLOT].state)
    {
      hide Inv, Live, Rely, Tally, DoneFlags, FailedFlags, Holds, ReportOk, Reaches, Brisk, GosFrom;
      HoldsRequest(sys[i], i);
      WaitHolds(sys[i], i, loops, tame[i]);
      var waited := WithWait(sys[i], PING_SLOT, loops);
      if tame[i] && OnPace(i) {
        assert BriskAt(i);
        BriskSame(sys[i], waited, Flag(active[i]), GosFrom(Lane(script, i), freshTick, tick), PING_SLOT);
      }
      BriskElsewhere(i, waited);
      sys := sys[i := waited];
      Pause();
      RelyHolds(waited, sys[i], i);
    }

    /** One slot of the collecting loop. */
    method Visit(i: nat) returns (ghost mark: Sys)
      requires Valid() && i < |sys|
      modifies this`sys, this`tick, this`active, this`activeCount, this`completed, this`good, this`bad, this`entries, this`writes
      ensures old(tick) < tick && Valid() && |sys| == |old(sys)| && |active| == |sys| == |entries| == |old(entries)|
      ensures Swept(old(sys)[i], old(active)[i], active[i])
      ensures active[i] ==> old(active)[i] && |mark.slots| == 4 && !Finished(mark.slots[PING_SLOT].state)
      ensures entries == old(entries) || (entries == old(entries)[i := entries[i]] && Stamped(entries[i], waitLoops))
      ensures |active| == |old(active)| && active == old(active)[i := active[i]] && OthersMoved(old(sys), sys, i)
    {
      hide AllFit, Brisk, GosFrom, Tally, DoneFlags, FailedFlags, Holds, ReportOk, AllMoved, OthersMoved, AllEntries;
      Pause();
      ghost var s1 := sys;
      mark := sys[i];
      AllOthers(old(sys), s1, i);
      if active[i] {
        EntryAt(sys, active, accepted, entries, writes, i);
        FinishStays(old(sys), s1, i);
        if Finished(sys[i].slots[PING_SLOT].state) {
          NoteWait(i, waitLoops);
          ghost var s2 := sys;
          OthersTransitive(old(sys), s1, s2, i);
          Record(i, waitLoops);
          AllOthers(s2, sys, i);
          OthersTransitive(old(sys), s2, sys, i);
        }
      }
    }

    /** One compare-and-swap to TIMEOUT, then whatever the APs do. */
    method Swap(i: nat, expected: SlotState) returns (swapped: bool)
      requires Valid() && i < |sys| && active[i] && !tame[i] && (expected == Pending || expected == Running)
      modifies this`sys, this`tick
      ensures old(tick) <= tick
      ensures Valid() && |sys| == |old(sys)|
      ensures var was := old(sys)[i].slots[PING_SLOT].state;
              var now := sys[i].slots[PING_SLOT].state;
              && (swapped <==> was == expected)
              && (swapped || Finished(was) ==> Finished(now))
              && (was != Pending || expected == Pending ==> now != Pending) && now != Empty
    {
      hide Inv, Rely, Tally, DoneFlags, FailedFlags, Holds, ReportOk, Brisk, GosFrom;
      HoldsRequest(sys[i], i);
      SwapHolds(sys[i], i, expected);
      BriskElsewhere(i, Swapped(sys[i], PING_SLOT, expected, TimedOut));
      swapped := sys[i].slots[PING_SLOT].state == expected;
      var after := Swapped(sys[i], PING_SLOT, expected, TimedOut);
      sys := sys[i := after];
      Pause();
      HoldsRequest(sys[i], i);
      RelyHolds(after, sys[i], i);
    }

    /** From here on nothing is claimed about AP `i` but the protocol invariant. */
    ghost method GiveUp(i: nat)
      requires Valid() && i < |sys| && |tame| == |sys|
      modifies this`tame
      ensures Valid() && tame == old(tame)[i := false]
    {
      hide Inv, Live, Tally, DoneFlags, FailedFlags, AllEntries, Brisk, GosFrom;
      BriskElsewhere(i, sys[i]);
      tame := tame[i := false];
    }

    /** `timeout_ap_broadcast_ping_slot` and the record of what it leaves.  An AP whose ping is timed out may
        still be busy with it. */
    method Expire(i: nat)
      requires Valid() && i < |sys| && active[i]
      modifies this`sys, this`tick, this`active, this`activeCount, this`completed, this`good, this`bad, this`entries, this`writes, this`tame
      ensures old(tick) <= tick
      ensures Valid() && |sys| == |old(sys)| && active == old(active)[i := false]
      ensures tame == old(tame) || tame == old(tame)[i := false]
      ensures entries[i].Some? && entries[i].value.waitLoops == timeout && entries == old(entries)[i := entries[i]]
    {
      hide Sound, Counted, Holds, AllEntries, AllMoved, OthersMoved;
      SoundSizes();
      NoteWait(i, timeout);
      EntryAt(sys, active, accepted, entries, writes, i);
      if !Finished(sys[i].slots[PING_SLOT].state) {
        GiveUp(i);
        Pause();
        var swapped := Swap(i, Pending);
        if !swapped {
          var _ := Swap(i, Running);
        }
      }
      Record(i, timeout);
    }

    /** One pass: every ping that had finished when it began is recorded; the others were read unfinished. */
    method Sweep() returns (ghost marks: seq<Sys>)
      requires Valid()
      modifies this`sys, this`tick, this`active, this`activeCount, this`completed, this`good, this`bad, this`entries, this`writes
      ensures old(tick) <= tick && (|sys| > 0 ==> old(tick) < tick)
      ensures Valid() && |sys| == |old(sys)| && |active| == |old(active)| == |sys|
      ensures forall k :: 0 <= k < |sys| ==> Swept(old(sys)[k], old(active)[k], active[k])
      ensures |marks| == |sys| && forall k :: 0 <= k < |sys| && active[k] ==> old(active)[k] && Unfinished(Swing(0, marks), k)
      ensures |entries| == |old(entries)| && forall k :: 0 <= k < |entries| ==> entries[k] == old(entries)[k] || Stamped(entries[k], waitLoops)
    {
      hide Sound, AllEntries, Moves, Tally, DoneFlags, FailedFlags, Swept;
      SoundSizes();
      AllMovedReflexive(sys) by { SoundShapes(); }
      marks := [];
      var i := 0;
      while i < |sys|
        invariant old(tick) <= tick && (i > 0 ==> old(tick) < tick)
        invariant 0 <= i <= |sys| == |old(sys)| && Valid() && |active| == |old(active)| == |sys|
        invariant forall k :: i <= k < |sys| ==> Moves(old(sys)[k], sys[k]) && active[k] == old(active)[k]
        invariant forall k :: 0 <= k < i ==> Swept(old(sys)[k], old(active)[k], active[k]) && (active[k] ==> old(active)[k])
        invariant |marks| == i && forall k :: 0 <= k < i && active[k] ==> |marks[k].slots| == 4 && !Finished(marks[k].slots[PING_SLOT].state)
        invariant |entries| == |old(entries)| && forall k :: 0 <= k < |entries| ==> entries[k] == old(entries)[k] || Stamped(entries[k], waitLoops)
      {
        ghost var s1, a1 := sys, active;
        ghost var mark := Visit(i);
        marks := marks + [mark];
        SweptLater(old(sys)[i], s1[i], a1[i], active[i]);
        forall k | i < k < |sys|
          ensures Moves(old(sys)[k], sys[k])
        {
          MovesTransitive(old(sys)[k], s1[k], sys[k]);
        }
        i := i + 1;
      }
    }

    /** The passes and waits so far; what is recorded was recorded in time; nothing brisk is left after
        `pace` waits. */
    ghost predicate Timed()
      reads `sys, `active, `entries, `sweeps, `waits, `waitLoops, `tick, `freshTick, `tame
    {
      && waitLoops == Saturated(waits, timeout) && AllSwings(sweeps, waits, timeout, active)
      && (forall i :: 0 <= i < |entries| && entries[i].Some? ==> entries[i].value.waitLoops < timeout)
      && freshTick + |waits| <= tick && |active| == |tame|
      && AllGiven(waits, delay, tick)
      && (|waits| > pace ==> forall i :: 0 <= i < |active| && tame[i] && OnPace(i) ==> !active[i])
    }

    /** Once the moments of a turn are over, the ping of a brisk AP is finished. */
    lemma TurnIsOver(i: nat)
      requires Sound(None) && i < |sys| && |active| == |tame| == |sys| && freshTick + pace <= tick && tame[i] && OnPace(i) && active[i]
      ensures |sys[i].slots| == 4 && Finished(sys[i].slots[PING_SLOT].state)
    {
      hide Inv, Live, Brisk, GosFrom;
      assert BriskAt(i) && Fit(sys[i], None, active[i], tame[i]);
      GosFromGrows(Lane(script, i), freshTick, freshTick + pace, tick);
      assert TurnFits(Lane(script, i), freshTick, pace);
      BriskIsServed(sys[i], Flag(true), GosFrom(Lane(script, i), freshTick, tick));
      InvShape(sys[i], None);
    }

    /** No brisk AP has an active ping. */
    ghost predicate NoneLeft()
      reads `active, `tame, `tick
    {
      |active| == |tame| && forall i :: 0 <= i < |active| && tame[i] && OnPace(i) ==> !active[i]
    }

    /** A pass with its bookkeeping. */
    method SweepOnce()
      requires Valid() && Timed() && |sweeps| == |waits| && waitLoops < timeout && activeCount > 0
      modifies this`sys, this`tick, this`active, this`activeCount, this`completed, this`good, this`bad, this`entries, this`writes, this`sweeps
      ensures old(tick) <= tick
      ensures Valid() && Timed() && |sys| == |old(sys)| && |sweeps| == |waits| + 1
      ensures freshTick + |waits| < tick && (|waits| >= pace ==> NoneLeft())
    {
      hide AllFit, Brisk, GosFrom, Tally, DoneFlags, FailedFlags, AllEntries, AllSwings, Saturated, AllGiven;
      SoundSizes();
      TallyNone(active);
      ghost var act := active;
      if |waits| >= pace {
        forall i | 0 <= i < |sys| && tame[i] && OnPace(i) && active[i]
          ensures |sys[i].slots| == 4 && Finished(sys[i].slots[PING_SLOT].state)
        {
          TurnIsOver(i);
        }
      }
      ghost var marks := Sweep();
      SoundSizes();
      SwingMore(sweeps, waits, timeout, act, active, Swing(waitLoops, marks));
      GivenLater(waits, delay, old(tick), tick);
      sweeps := sweeps + [Swing(waitLoops, marks)];
    }

    /** The wait after a pass. */
    method WaitOnce()
      requires Valid() && Timed() && |sweeps| == |waits| + 1 && waitLoops < timeout
      requires freshTick + |waits| < tick && (|waits| >= pace ==> NoneLeft())
      modifies this`waitLoops, this`waits
      ensures Valid() && Timed() && |sweeps| == |waits| && old(waitLoops) < waitLoops == Advance(old(waitLoops), delay(tick), timeout)
    {
      hide Sound, Counted, AllEntries, AllSwings, Saturated;
      SaturatedMore(waits, delay(tick), timeout);
      WaitMore(sweeps, waits, timeout, active, delay(tick));
      waitLoops := Advance(waitLoops, delay(tick), timeout);
      waits := waits + [delay(tick)];
    }

    /** The collecting loop: every pass either finishes the round or is followed by a wait. */
    method Collect()
      requires Valid() && Timed() && |sweeps| == |waits|
      modifies this`sys, this`tick, this`active, this`activeCount, this`completed, this`good, this`bad, this`entries, this`writes, this`waitLoops, this`sweeps, this`waits
      ensures old(tick) <= tick
      ensures Valid() && Timed() && |sys| == |old(sys)| && (activeCount == 0 || (waitLoops == timeout && |sweeps| == |waits|))
    {
      hide Sound, Timed, Counted, AllEntries;
      while activeCount > 0 && waitLoops < timeout
        invariant old(tick) <= tick
        invariant Valid() && Timed() && |sys| == |old(sys)| && |sweeps| == |waits|
        decreases timeout - waitLoops
      {
        SweepOnce();
        if activeCount == 0 {
          break;
        }
        WaitOnce();
      }
    }

    method ExpireAll()
      requires Valid()
      modifies this`sys, this`tick, this`active, this`activeCount, this`completed, this`good, this`bad, this`entries, this`writes, this`tame
      ensures old(tick) <= tick
      ensures Valid() && |sys| == |old(sys)| && forall i :: 0 <= i < |sys| ==> !active[i]
      ensures |tame| == |old(tame)| == |entries| == |old(entries)| == |old(active)| == |sys|
      ensures forall i :: 0 <= i < |sys| && (tame[i] != old(tame)[i] || entries[i] != old(entries)[i]) ==> Late(entries[i], timeout) && old(active)[i]
    {
      hide Sound, Tally, DoneFlags, FailedFlags, AllEntries;
      var i := 0;
      SoundSizes();
      while i < |sys|
        invariant old(tick) <= tick
        invariant 0 <= i <= |sys| == |old(sys)| && Valid()
        invariant |tame| == |old(tame)| == |entries| == |old(entries)| == |old(active)| == |active| == |sys|
        invariant forall k :: 0 <= k < |sys| ==> if k < i then !active[k] else active[k] == old(active)[k]
        invariant forall k :: 0 <= k < |sys| && (tame[k] != old(tame)[k] || entries[k] != old(entries)[k]) ==>
                    k < i && Late(entries[k], timeout) && old(active)[k]
      {
        if active[i] {
          Expire(i);
        }
        i := i + 1;
      }
    }

    /** What the passes saw of a ping that was recorded late. */
    ghost predicate LateIsJust()
      reads `entries, `sweeps, `waits, `waitLoops
    {
      forall i :: 0 <= i < |entries| && Late(entries[i], timeout) ==>
        && waitLoops == timeout == Saturated(waits, timeout) && |sweeps| == |waits|
        && (exists t: nat :: AllGiven(waits, delay, t))
        && forall k :: 0 <= k < |sweeps| ==> sweeps[k].wait == Saturated(waits[..k], timeout) && Unfinished(sweeps[k], i)
    }

    /** Collecting and, where time ran out, expiring. */
    method Finish()
      requires Valid() && Timed() && |sweeps| == |waits|
      modifies this`sys, this`tick, this`active, this`activeCount, this`completed, this`good, this`bad, this`entries, this`writes, this`tame, this`waitLoops, this`sweeps, this`waits
      ensures old(tick) <= tick
      ensures Valid() && |sys| == |old(sys)| && activeCount == 0 && forall i :: 0 <= i < |active| ==> !active[i]
      ensures |tame| == |old(tame)| == |entries| == |sys|
      ensures forall i :: 0 <= i < |sys| && tame[i] != old(tame)[i] ==> Late(entries[i], timeout)
      ensures waitLoops < timeout ==> tame == old(tame)
      ensures LateIsJust()
      ensures Patient() ==> forall i :: 0 <= i < |sys| && old(tame)[i] && OnPace(i) ==> tame[i] && !Late(entries[i], timeout)
    {
      hide Sound, Tally, DoneFlags, FailedFlags, AllEntries, Saturated, Unfinished, AllGiven;
      Collect();
      SoundSizes();
      ghost var act, before := active, entries;
      if activeCount > 0 {
        NoTimeLeft();
        assert AllGiven(waits, delay, tick);
        ExpireAll();
      } else {
        TallyNone(active);
      }
      SoundSizes();
      TallyNone(active);
    }

    /** When time is up, more than `pace` waits are over. */
    lemma NoTimeLeft()
      requires Timed() && waitLoops == timeout
      ensures Patient() ==> |waits| > pace
    {
      hide AllSwings, Saturated;
      if Patient() {
        forall k | 0 <= k < |waits|
          ensures waits[k] <= longest
        {
          assert Given(waits[k], delay, tick);
        }
        SaturatedBound(waits, timeout, longest);
        if |waits| <= pace {
          Scales(longest, |waits|, pace + 1);
        }
      }
    }

    /** From the first ping to the last entry. */
    method PingAll()
      requires Valid() && planned == 0 && accepted == Flags(|sys|) && seen == [] && waitLoops == 0 && sweeps == [] && waits == []
      requires forall i :: 0 <= i < |entries| ==> entries[i] == None
      modifies this
      ensures Valid() && |sys| == |old(sys)| && activeCount == 0 && forall i :: 0 <= i < |active| ==> !active[i]
      ensures |tame| == |old(tame)| == |entries| == |accepted| == |sys|
      ensures |seen| == |sys| && forall i :: 0 <= i < |sys| ==> Decided(old(sys)[i], seen[i].0, seen[i].1, accepted[i])
      ensures forall i :: 0 <= i < |sys| && tame[i] != old(tame)[i] ==> Late(entries[i], timeout)
      ensures waitLoops < timeout ==> tame == old(tame)
      ensures LateIsJust()
      ensures Patient() ==> forall i :: 0 <= i < |sys| && old(tame)[i] && OnPace(i) ==> accepted[i] && tame[i] && !Late(entries[i], timeout)
    {
      hide Sound, Counted, AllEntries, Decided, Late, LateIsJust, Timed;
      FanOut();
      NothingYet();
      Finish();
    }

    /** `run_ap_broadcast_ping`: whatever the APs do, the round ends, every AP the ping was sent to is
        recorded exactly once in a finished state, and it counts as good exactly if it is DONE.  A ping is
        recorded late only if every pass, at every partial sum of the waits up to the timeout, read it
        unfinished; the ping of an AP that keeps its pace is recorded DONE in time.  Every AP that was idle
        before is idle again unless its ping was timed out; the counters of the request target are as
        before. */
    method Run(target: Option<nat>)
      requires Valid() && planned == 0 && accepted == Flags(|sys|) && seen == [] && waitLoops == 0 && sweeps == [] && waits == []
      requires forall i :: 0 <= i < |entries| ==> entries[i] == None
      modifies this
      ensures planned == completed == good + bad && activeCount == 0
      ensures |entries| == |accepted| == |writes| == |old(sys)|
      ensures planned == Tally(accepted) && good == Tally(DoneFlags(entries)) && bad == Tally(FailedFlags(entries))
      ensures forall i :: 0 <= i < |entries| ==> writes[i] == One(accepted[i]) && (entries[i].Some? <==> accepted[i])
      ensures forall i :: 0 <= i < |entries| && entries[i].Some? ==> ReportOk(entries[i].value, i)
      ensures |seen| == |accepted| && forall i :: 0 <= i < |seen| ==> Decided(old(sys)[i], seen[i].0, seen[i].1, accepted[i])
      ensures Sound(None) && |sys| == |old(sys)| && |tame| == |old(tame)| == |sys|
      ensures forall i :: 0 <= i < |sys| && tame[i] ==> Idle(sys[i])
      ensures forall i :: 0 <= i < |sys| && tame[i] != old(tame)[i] ==> Late(entries[i], timeout)
      ensures waitLoops < timeout ==> tame == old(tame)
      ensures LateIsJust()
      ensures Patient() ==> forall i :: 0 <= i < |sys| && old(tame)[i] && OnPace(i) ==>
                && accepted[i] && entries[i].Some? && entries[i].value.ok && !Late(entries[i], timeout)
                && tame[i] && Accepting(sys[i].boot) && InClaimLoop(sys[i].pc)
      ensures Patient() && (forall i :: 0 <= i < |sys| && accepted[i] ==> old(tame)[i] && OnPace(i)) ==> good == planned
      ensures target.Some? && target.value < |sys| ==>
                sys[target.value].handled == old(sys)[target.value].handled && sys[target.value].counter == old(sys)[target.value].counter
    {
      hide AllFit, Brisk, GosFrom, Tally, DoneFlags, FailedFlags, ReportOk, Decided, Idle, Holds, Late, LateIsJust;
      var handled := if target.Some? && target.value < |sys| then sys[target.value].handled else 0;
      var counter := if target.Some? && target.value < |sys| then sys[target.value].counter else 0;
      PingAll();
      if target.Some? && target.value < |sys| {
        Restore(target.value, handled, counter);
      }
      IdleAgain(sys, active, tame);
      Conclude();
    }

    lemma NothingYet()
      requires Sound(None) && waitLoops == 0 && sweeps == [] && waits == [] && forall i :: 0 <= i < |entries| ==> entries[i] == None
      ensures Timed()
    {
      hide AllFit, Brisk, GosFrom;
      SoundSizes();
    }

    /** What the round amounts to. */
    lemma Conclude()
      requires Valid() && forall i :: 0 <= i < |active| ==> !active[i]
      ensures |tame| == |sys| == |accepted| == |entries|
      ensures forall i :: 0 <= i < |sys| ==> (entries[i].Some? <==> accepted[i]) && writes[i] == One(accepted[i])
      ensures forall i :: 0 <= i < |sys| && entries[i].Some? ==> ReportOk(entries[i].value, i)
      ensures forall i :: 0 <= i < |sys| && tame[i] && OnPace(i) ==> Accepting(sys[i].boot) && InClaimLoop(sys[i].pc)
      ensures (forall i :: 0 <= i < |sys| && accepted[i] ==> tame[i] && OnPace(i)) ==> bad == 0
    {
      hide Inv, Live, Brisk, GosFrom, ReportOk, Tally;
      SoundSizes();
      forall i | 0 <= i < |sys|
        ensures (entries[i].Some? <==> accepted[i]) && writes[i] == One(accepted[i]) && (entries[i].Some? ==> ReportOk(entries[i].value, i))
      {
        assert EntryOk(sys[i], active[i], accepted[i], entries[i], writes[i], i);
      }
      forall i | 0 <= i < |sys| && tame[i] && OnPace(i)
        ensures Accepting(sys[i].boot) && InClaimLoop(sys[i].pc)
      {
        assert BriskAt(i) && Fit(sys[i], None, active[i], tame[i]);
        HealthyEnd(sys[i], GosFrom(Lane(script, i), freshTick, tick));
      }
      TallyNone(FailedFlags(entries));
    }

    /** The request target's counters are put back. */
    method Restore(i: nat, handled: u32, counter: u32)
      requires Sound(None) && i < |sys|
      modifies this`sys, this`tick
      ensures old(tick) <= tick
      ensures Sound(None) && |sys| == |old(sys)| && sys[i].handled == handled && sys[i].counter == counter
    {
      hide Fit, AllMoved, Brisk, GosFrom;
      Interfere(None);
      AllMovedBoot(old(sys), sys);
      RestoreFit(sys[i], handled, counter, active[i], tame[i]);
      ghost var r := sys[i].(handled := handled, counter := counter);
      if tame[i] && OnPace(i) {
        assert BriskAt(i);
        RestoreBrisk(sys[i], handled, counter, Flag(active[i]), GosFrom(Lane(script, i), freshTick, tick));
      }
      BriskElsewhere(i, r);
      sys := sys[i := sys[i].(handled := handled, counter := counter)];
    }
  }

  /** One pass of the collecting loop: the wait count and, for each context, the state in which its ping was
      read. */
  datatype Swing = Swing(wait: u32, marks: seq<Sys>)

  /** The pass found the ping of context `i` unfinished. */
  predicate Unfinished(w: Swing, i: nat) {
    i < |w.marks| && |w.marks[i].slots| == 4 && !Finished(w.marks[i].slots[PING_SLOT].state)
  }

  /** The passes came at the saturated partial sums of the waits, and found every ping that is still active
      unfinished. */
  predicate AllSwings(sweeps: seq<Swing>, waits: seq<Step>, timeout: u32, active: seq<bool>) {
    && (|sweeps| == |waits| || |sweeps| == |waits| + 1)
    && (forall k :: 0 <= k < |sweeps| ==> sweeps[k].wait == Saturated(waits[..k], timeout))
    && (forall k, i :: 0 <= k < |sweeps| && 0 <= i < |active| && active[i] ==> Unfinished(sweeps[k], i))
  }

  /** Every wait is one that the timer gave by moment `t`. */
  ghost predicate AllGiven(waits: seq<Step>, delay: nat -> Step, t: nat) {
    forall k :: 0 <= k < |waits| ==> Given(waits[k], delay, t)
  }

  ghost predicate Given(w: Step, delay: nat -> Step, t: nat) {
    exists n: nat :: n <= t && w == delay(n)
  }

  lemma GivenLater(waits: seq<Step>, delay: nat -> Step, t: nat, u: nat)
    requires AllGiven(waits, delay, t) && t <= u
    ensures AllGiven(waits, delay, u)
  {
    forall k | 0 <= k < |waits|
      ensures Given(waits[k], delay, u)
    {
      assert Given(waits[k], delay, t);
      var n: nat :| n <= t && waits[k] == delay(n);
    }
  }

  lemma SwingMore(sweeps: seq<Swing>, waits: seq<Step>, timeout: u32, active: seq<bool>, act: seq<bool>, w: Swing)
    requires AllSwings(sweeps, waits, timeout, active) && |sweeps| == |waits| && w.wait == Saturated(waits, timeout)
    requires |act| == |active| && forall i :: 0 <= i < |act| && act[i] ==> active[i] && Unfinished(w, i)
    ensures AllSwings(sweeps + [w], waits, timeout, act)
  {
    hide Unfinished, Saturated;
    assert waits[..|waits|] == waits;
  }

  lemma WaitMore(sweeps: seq<Swing>, waits: seq<Step>, timeout: u32, active: seq<bool>, step: Step)
    requires AllSwings(sweeps, waits, timeout, active) && |sweeps| == |waits| + 1
    ensures AllSwings(sweeps, waits + [step], timeout, active)
  {
    hide Unfinished, Saturated;
    assert forall k :: 0 <= k < |sweeps| ==> (waits + [step])[..k] == waits[..k];
  }

  predicate Stamped(e: Option<Report>, loops: u32) {
    e.Some? && e.value.waitLoops == loops
  }

  /** An entry made after the time had run out. */
  predicate Late(e: Option<Report>, timeout: u32) {
    Stamped(e, timeout)
  }

  function DoneFlags(entries: seq<Option<Report>>): (b: seq<bool>)
    ensures |b| == |entries| && forall i :: 0 <= i < |b| ==> (b[i] <==> entries[i].Some? && entries[i].value.ok)
  {
    seq(|entries|, i requires 0 <= i < |entries| => entries[i].Some? && entries[i].value.ok)
  }

  function FailedFlags(entries: seq<Option<Report>>): (b: seq<bool>)
    ensures |b| == |entries| && forall i :: 0 <= i < |b| ==> (b[i] <==> entries[i].Some? && !entries[i].value.ok)
  {
    seq(|entries|, i requires 0 <= i < |entries| => entries[i].Some? && !entries[i].value.ok)
  }

  /** Some steps of the AP lead from `s` to `r`. */
  ghost predicate Reaches(s: Sys, r: Sys) {
    Shape(s) && exists cs: seq<Choice> :: RunAp(s, cs) == r
  }

  /** The AP went from `s` to `a` to `b`, and accepts according to the flags in `a` and the state in `b`. */
  ghost predicate Decided(s: Sys, a: Sys, b: Sys, yes: bool) {
    && Moves(s, a) && Moves(a, b)
    && (yes <==> Accepting(a.boot.(apState := b.boot.apState)))
  }

  lemma DecidedLater(s: Sys, m: Sys, a: Sys, b: Sys, yes: bool)
    requires Moves(s, m) && Decided(m, a, b, yes)
    ensures Decided(s, a, b, yes)
  {
    hide Moves;
    MovesTransitive(s, m, a);
  }

  /** What is stored for a fault seen in `e`, the boot flags seen in `x` and the boot state seen in `y`. */
  ghost predicate StoreFor(e: Sys, x: Sys, y: Sys, st: SlotState) {
    if e.boot.apState == Faulted then st == Fault
    else
      && Moves(e, x) && Moves(x, y)
      && st == if !x.boot.bootOk || !x.boot.online || y.boot.apState == HaltedState then Skipped else Pending
  }

  /** A ping that had finished is no longer active. */
  predicate Swept(s: Sys, was: bool, now: bool) {
    was && |s.slots| == 4 && Finished(s.slots[PING_SLOT].state) ==> !now
  }

  lemma SweptLater(s: Sys, m: Sys, was: bool, now: bool)
    requires Moves(s, m) && Swept(m, was, now)
    ensures Swept(s, was, now)
  {
    hide Reaches;
  }

  lemma FinishStays(a: seq<Sys>, b: seq<Sys>, i: nat)
    requires AllMoved(a, b) && i < |a|
    ensures Shape(a[i]) && Shape(b[i]) && (Finished(a[i].slots[PING_SLOT].state) ==> Finished(b[i].slots[PING_SLOT].state))
  {
    hide Reaches;
    assert Moves(a[i], b[i]);
  }

  lemma AllMovedReflexive(a: seq<Sys>)
    requires forall j :: 0 <= j < |a| ==> Shape(a[j])
    ensures AllMoved(a, a)
  {
    hide Rely;
    forall j | 0 <= j < |a|
      ensures Moves(a[j], a[j])
    {
      RelyReflexive(a[j], a[j].pc, a[j].current);
      assert RunAp(a[j], []) == a[j];
    }
  }

  ghost predicate Moves(s: Sys, r: Sys) {
    Rely(s, r) && Reaches(s, r)
  }

  lemma {:induction false} RunInTurn(s: Sys, a: seq<Choice>, b: seq<Choice>)
    requires Shape(s)
    ensures RunAp(RunAp(s, a), b) == RunAp(s, a + b)
    decreases |a|
  {
    if a == [] {
      assert a + b == b;
    } else {
      assert (a + b)[1..] == a[1..] + b;
      RunInTurn(ApStep(s, a[0]), a[1..], b);
    }
  }

  lemma MovesTransitive(a: Sys, b: Sys, c: Sys)
    requires Moves(a, b) && Moves(b, c)
    ensures Moves(a, c)
  {
    hide Rely, RunAp;
    RelyTransitive(a, b, c);
    var x :| RunAp(a, x) == b;
    var y :| RunAp(b, y) == c;
    RunInTurn(a, x, y);
  }

  ghost predicate AllMoved(a: seq<Sys>, b: seq<Sys>) {
    |a| == |b| && forall j :: 0 <= j < |a| ==> Moves(a[j], b[j])
  }

  lemma AllMovedTransitive(a: seq<Sys>, b: seq<Sys>, c: seq<Sys>)
    requires AllMoved(a, b) && AllMoved(b, c)
    ensures AllMoved(a, c)
  {
    hide Moves;
    forall j | 0 <= j < |a|
      ensures Moves(a[j], c[j])
    {
      MovesTransitive(a[j], b[j], c[j]);
    }
  }

  ghost predicate OthersMoved(a: seq<Sys>, b: seq<Sys>, i: nat) {
    |a| == |b| && forall j :: 0 <= j < |a| && j != i ==> Moves(a[j], b[j])
  }

  lemma InvShape(s: Sys, edit: Option<nat>)
    requires Inv(s, edit)
    ensures Shape(s)
  {
  }

  lemma SameRequest(s: Sys, r: Sys)
    requires Moves(s, r)
    ensures Shape(s) && Shape(r) && r.slots[PING_SLOT].req == s.slots[PING_SLOT].req
  {
  }

  lemma AllOthers(a: seq<Sys>, b: seq<Sys>, i: nat)
    requires AllMoved(a, b)
    ensures OthersMoved(a, b, i) && |a| == |b|
    ensures i < |a| ==> Moves(a[i], b[i])
    ensures i < |a| ==> Shape(a[i]) && Shape(b[i]) && b[i].slots[PING_SLOT].req == a[i].slots[PING_SLOT].req
  {
  }

  lemma OthersTransitive(a: seq<Sys>, b: seq<Sys>, c: seq<Sys>, i: nat)
    requires OthersMoved(a, b, i) && OthersMoved(b, c, i)
    ensures OthersMoved(a, c, i)
  {
    hide Moves;
    forall j | 0 <= j < |a| && j != i
      ensures Moves(a[j], c[j])
    {
      MovesTransitive(a[j], b[j], c[j]);
    }
  }

  lemma OthersStore(a: seq<Sys>, b: seq<Sys>, i: nat, r: Sys)
    requires OthersMoved(a, b, i) && i < |b|
    ensures OthersMoved(a, b[i := r], i)
  {
    hide Rely;
  }

  lemma AllMovedBoot(a: seq<Sys>, b: seq<Sys>)
    requires AllMoved(a, b)
    ensures |a| == |b| && forall j :: 0 <= j < |a| ==> b[j].boot.bootOk == a[j].boot.bootOk
  {
  }

  lemma OthersBoot(a: seq<Sys>, b: seq<Sys>, i: nat)
    requires OthersMoved(a, b, i)
    ensures |a| == |b| && forall j :: 0 <= j < |a| && j != i ==> b[j].boot.bootOk == a[j].boot.bootOk
  {
  }

  lemma OthersHolds(a: seq<Sys>, b: seq<Sys>, i: nat, k: nat)
    requires OthersMoved(a, b, i) && k < |a|
    ensures k != i && Holds(a[k], k) ==> Holds(b[k], k)
  {
  }

  lemma HoldsRequest(s: Sys, i: nat)
    requires Holds(s, i)
    ensures Shape(s) && i < MAX_CONTEXTS && s.slots[PING_SLOT].req == PingRequest(i) && s.slots[PING_SLOT].state != Empty
  {
  }

  lemma RecordTally(entries: seq<Option<Report>>, i: nat, e: Option<Report>)
    requires i < |entries| && entries[i] == None && e.Some?
    ensures Tally(DoneFlags(entries[i := e])) == Tally(DoneFlags(entries)) + One(e.value.ok)
    ensures Tally(FailedFlags(entries[i := e])) == Tally(FailedFlags(entries)) + One(!e.value.ok)
  {
    hide Tally;
    assert DoneFlags(entries[i := e]) == DoneFlags(entries)[i := e.value.ok];
    assert FailedFlags(entries[i := e]) == FailedFlags(entries)[i := !e.value.ok];
    TallyUpdate(DoneFlags(entries), i, e.value.ok);
    TallyUpdate(FailedFlags(entries), i, !e.value.ok);
  }


  lemma RelyAt(a: seq<Sys>, b: seq<Sys>, i: nat)
    requires AllMoved(a, b) && i < |a|
    ensures |a| == |b| && Rely(a[i], b[i])
  {
  }

  /** What a recorded ping asked for, field by field. */
  lemma ReportedRequest(e: Report, i: nat)
    requires ReportOk(e, i)
    ensures var req := e.slot.req;
            && req.opcode == 1 && req.service == 0x4150_2d53_5643_0001 && req.iface == 0x4150_2d49_4643_0001
            && req.sequence == 0xb000 + i && req.idLow == 0xb000 + i && req.idHigh == 0x4150_2d50_494e_4721
            && req.targetCpu == i + 1 && req.sourceCpu == 0 && req.envelope == NO_ENVELOPE
  {
  }
}
