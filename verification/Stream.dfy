/** `run_ap_request_stream` (kernel/kernel.c, lines 2349-2376 and 2396-2633): the BSP pushes a plan of any
    length through four slots, harvests finished slots in completion order, refills them, and stops on a
    fault, a refused request or a timeout.  The AP moves arbitrarily between any two shared accesses; only
    the wait count, which it never touches, is written together with the read before it. */
module Stream {
  import opened Words
  import opened ApRequest
  import opened ApServices
  import opened Protocol
  import opened StreamLive
  import opened StreamBook
  import opened StreamEdits
  import opened Pace
  import Order
  import Interleaving

  const HISTORY: nat := 8

  // ----- which finished slot comes first

  /** `ap_stream_finished_slot_order`. */
  function SlotOrder(slot: Slot, j: nat): (n: nat) {
    if slot.state == Done && slot.handled != 0 then slot.handled else 0x8000_0000 + j
  }

  predicate Waiting(s: Sys, act: seq<bool>, j: nat)
    requires Shape(s) && |act| == 4 && j < 4
  {
    act[j] && Finished(s.slots[j].state)
  }

  predicate HasLower(s: Sys, act: seq<bool>, j: nat)
    requires Shape(s) && |act| == 4 && j < 4
  {
    exists k :: 0 <= k < 4 && Waiting(s, act, k) && SlotOrder(s.slots[k], k) < SlotOrder(s.slots[j], j)
  }

  /** Some waiting slot has no earlier one. */
  lemma FirstExists(s: Sys, act: seq<bool>, j: nat)
    requires Shape(s) && |act| == 4 && j < 4 && Waiting(s, act, j)
    ensures exists k :: 0 <= k < 4 && Waiting(s, act, k) && !HasLower(s, act, k)
    decreases SlotOrder(s.slots[j], j)
  {
    if HasLower(s, act, j) {
      var k :| 0 <= k < 4 && Waiting(s, act, k) && SlotOrder(s.slots[k], k) < SlotOrder(s.slots[j], j);
      FirstExists(s, act, k);
    }
  }

  lemma KeptWaiting(s: Sys, r: Sys, act: seq<bool>, j: nat)
    requires Kept(s, r) && |act| == 4 && j < 4 && Waiting(s, act, j)
    ensures Waiting(r, act, j) && SlotOrder(r.slots[j], j) == SlotOrder(s.slots[j], j)
  {
  }

  lemma KeptLower(s: Sys, r: Sys, act: seq<bool>, j: nat)
    requires Kept(s, r) && |act| == 4 && j < 4 && Waiting(s, act, j) && HasLower(s, act, j)
    ensures HasLower(r, act, j)
  {
    hide KeptSlot, SlotOrder, Waiting;
    var k :| 0 <= k < 4 && Waiting(s, act, k) && SlotOrder(s.slots[k], k) < SlotOrder(s.slots[j], j);
    KeptWaiting(s, r, act, k);
    KeptWaiting(s, r, act, j);
  }

  lemma OpenKept(s: Sys, r: Sys, act: seq<bool>)
    requires Kept(s, r) && |act| == 4
    ensures OpenCount(r, act) <= OpenCount(s, act)
  {
  }

  /** A pass that harvests nothing although slots are waiting has seen a new finish. */
  lemma PassProgress(s: Sys, r: Sys, act: seq<bool>, j: nat)
    requires Kept(s, r) && |act| == 4 && j < 4 && Waiting(r, act, j)
    requires forall k :: 0 <= k < 4 && Waiting(s, act, k) ==> HasLower(r, act, k)
    ensures OpenCount(r, act) < OpenCount(s, act)
  {
    hide KeptSlot, HasLower, OpenCount;
    FirstExists(r, act, j);
    var k :| 0 <= k < 4 && Waiting(r, act, k) && !HasLower(r, act, k);
    NewFinish(s, r, act, k);
  }

  // ----- what is recorded

  /** `ap_request_is_counter_increment`. */
  predicate CountsUp(req: Request) {
    req.service == SERVICE_COUNTER && req.iface == INTERFACE_COUNTER && req.opcode == OP_COUNTER
  }

  predicate OpcodesMatch(plan: seq<Plan>) {
    forall k :: 0 <= k < |plan| && HandlerFor(plan[k].service, plan[k].iface) == Some(CounterHandler) ==> plan[k].opcode == OP_COUNTER
  }

  /** DONE requests first and by increasing handled count; counter requests with the AP's own result. */
  predicate InOrder(log: seq<Entry>) {
    && (forall k, l :: 0 <= k < l < |log| && log[l].slot.state == Done ==> log[k].slot.state == Done)
    && (forall k, l :: 0 <= k < l < |log| && log[k].slot.state == Done && log[l].slot.state == Done ==>
          log[k].slot.handled < log[l].slot.handled)
    && (forall k :: 0 <= k < |log| && log[k].slot.state == Done && CountsUp(log[k].slot.req) ==>
          log[k].counter == log[k].slot.reply.result)
  }

  predicate UpTo(log: seq<Entry>, last: nat) {
    forall k :: 0 <= k < |log| && log[k].slot.state == Done ==> log[k].slot.handled <= last
  }

  lemma InOrderAppend(log: seq<Entry>, last: nat, e: Entry)
    requires InOrder(log) && UpTo(log, last)
    requires e.slot.state == Done ==> AllDone(log) && last < e.slot.handled && (CountsUp(e.slot.req) ==> e.counter == e.slot.reply.result)
    ensures InOrder(log + [e]) && UpTo(log + [e], if e.slot.state == Done then e.slot.handled else last)
  {
  }

  /** The request history: the first eight harvests. */
  function HistoryOf(log: seq<Entry>): (h: seq<Option<Entry>>)
    ensures |h| == HISTORY
  {
    seq(HISTORY, i requires 0 <= i < HISTORY => if i < |log| then Some(log[i]) else None)
  }

  lemma HistoryAppend(log: seq<Entry>, e: Entry)
    ensures HistoryOf(log + [e]) == if |log| < HISTORY then HistoryOf(log)[|log| := Some(e)] else HistoryOf(log)
  {
  }

  lemma CounterRequests(job: Job, next: nat, gen: nat, req: Request)
    requires Matches(job, next, gen, req) && OpcodesMatch(job.plan)
    ensures CountsUp(req) <==> Order.IsCounter(req)
  {
  }

  // ----- the relation between the states before and after rewriting slot i

  predicate Elsewhere(s: Sys, r: Sys, i: nat)
    requires Shape(s) && Shape(r) && i < 4
  {
    && r.boot.bootOk == s.boot.bootOk
    && (i != 0 ==> KeptSlot(s, r, 0)) && (i != 1 ==> KeptSlot(s, r, 1))
    && (i != 2 ==> KeptSlot(s, r, 2)) && (i != 3 ==> KeptSlot(s, r, 3))
  }

  lemma ElsewhereTransitive(a: Sys, b: Sys, c: Sys, i: nat)
    requires Shape(a) && Shape(b) && Shape(c) && i < 4 && Elsewhere(a, b, i) && Elsewhere(b, c, i)
    ensures Elsewhere(a, c, i)
  {
  }

  lemma OnlySlotElsewhere(s: Sys, m: Sys, r: Sys, i: nat)
    requires Shape(s) && Shape(m) && i < 4 && OnlySlot(s, m, i) && Kept(m, r)
    ensures Elsewhere(s, r, i) && r.gens == m.gens && r.nextGen == m.nextGen && r.slots[i].req == m.slots[i].req
  {
  }

  lemma KeptElsewhere(s: Sys, r: Sys, i: nat)
    requires Kept(s, r) && i < 4
    ensures Elsewhere(s, r, i) && r.gens == s.gens && r.nextGen == s.nextGen && r.slots[i].req == s.slots[i].req
  {
  }

  // ----- the order of ready slots

  predicate Ahead(s: Sys, act: seq<bool>, i: nat, k: nat)
    requires Shape(s) && |act| == 4 && i < 4 && k <= 4
  {
    Order.Ready(s, act, i) && forall l :: 0 <= l < k && Order.Ready(s, act, l) ==> s.slots[i].handled <= s.slots[l].handled
  }

  lemma AheadStays(s: Sys, r: Sys, act: seq<bool>, i: nat, k: nat)
    requires Order.Later(s, r, act) && i < 4 && k <= 4 && Ahead(s, act, i, k)
    ensures Ahead(r, act, i, k) && (k == 4 ==> Order.Earliest(r, act, i))
  {
  }

  lemma AheadStarts(s: Sys, act: seq<bool>, i: nat)
    requires Shape(s) && |act| == 4 && i < 4
    ensures Order.Ready(s, act, i) ==> Ahead(s, act, i, 0)
  {
  }

  lemma AheadSkips(s: Sys, act: seq<bool>, i: nat, k: nat)
    requires Shape(s) && |act| == 4 && i < 4 && k < 4
    ensures Ahead(s, act, i, k) && !Order.Ready(s, act, k) ==> Ahead(s, act, i, k + 1)
  {
  }

  lemma AheadOfAll(s: Sys, act: seq<bool>, i: nat)
    requires Shape(s) && |act| == 4 && i < 4
    ensures Ahead(s, act, i, 4) ==> Order.Earliest(s, act, i)
  {
  }

  lemma NotEarlier(s: Sys, act: seq<bool>, m: Order.Marks, i: nat, k: nat)
    requires Order.Ordered(s, act, m) && i < 4 && k < 4 && Ahead(s, act, i, k)
    requires SlotOrder(s.slots[i], i) <= SlotOrder(s.slots[k], k)
    ensures Ahead(s, act, i, k + 1)
  {
    hide Order.CountersUpTo, Order.IsCounter;
    assert Order.ReadyOk(s, act, m, i) && Order.ReadyOk(s, act, m, k);
  }

  // ----- what the BSP learns from a slot

  /** A slot that finished without DONE shows that the AP claims nothing any more. */
  lemma BadFinish(s: Sys, act: seq<bool>, edit: Option<nat>, tracked: bool, m: Order.Marks, i: nat)
    requires Good(s, act, edit, tracked, m) && i < 4 && act[i] && Finished(s.slots[i].state) && s.slots[i].state != Done
    ensures Stopping(s) || !s.boot.bootOk
  {
    assert SlotLive(s, act, i);
  }

  lemma OpenFinish(s: Sys, act: seq<bool>, edit: Option<nat>, tracked: bool, m: Order.Marks, i: nat)
    requires Good(s, act, edit, tracked, m) && i < 4 && act[i] && (s.slots[i].state == Pending || s.slots[i].state == Running)
    ensures s.boot.bootOk
  {
    assert SlotLive(s, act, i);
  }

  lemma OfflineNotOk(s: Sys, act: seq<bool>, edit: Option<nat>, tracked: bool, m: Order.Marks)
    requires Good(s, act, edit, tracked, m)
    ensures s.boot.bootOk ==> s.boot.online
  {
  }

  lemma CompletedClean(s: Sys, edit: Option<nat>, i: nat)
    requires Inv(s, edit) && i < 4 && s.slots[i].state == Done
    ensures s.slots[i].reply.faultCode == 0
  {
    assert Completed(s, i);
  }

  lemma AccountMatches(s: Sys, act: seq<bool>, job: Job, next: nat, log: seq<Entry>, i: nat)
    requires Account(s, act, job, next, log) && i < 4 && act[i]
    ensures Matches(job, next, s.gens[i], s.slots[i].req) && i < next && s.slots[i].state != Empty
  {
    assert SlotAccount(s, act, job, next, log, i);
  }

  /** Everything recorded about a stream. */
  class RequestStream {
    const job: Job
    const timeout: u32
    const script: nat -> seq<Choice>   // what the AP does between shared accesses
    const race: nat -> seq<Choice>     // what it does between seeing a slot unfinished and reading it again
    const delay: nat -> Step
    ghost const countable: bool        // nothing wraps and opcodes agree with services
    ghost const pace: nat
    ghost const longest: nat
    ghost const apt: bool              // the AP is in its claim loop, knows every request, and there is time enough
    ghost const handledBase: nat
    ghost const counterStart: nat

    var s: Sys
    var tick: nat
    var active: seq<bool>
    var next: nat
    var completed: nat
    var counterBase: u32
    var waitLoops: u32
    var stopped: bool
    var history: seq<Option<Entry>>
    ghost var log: seq<Entry>
    ghost var marks: Order.Marks
    ghost var live: bool
    ghost var freshTick: nat           // the moment of the last publication
    ghost var laps: seq<Lap>           // the passes that were followed by a wait
    ghost var waits: seq<Step>         // those waits
    ghost var quiet: nat               // passes since the last harvest
    ghost var overtaken: bool          // a harvest went ahead of a slot that was handled earlier
    ghost var tracked: bool            // the completion order is still followed

    /** The AP does nothing between shared accesses. */
    ghost predicate Quiet() {
      forall n: nat :: script(n) == []
    }

    /** The services are known, and there is time for `pace + 1` waits of at most `longest` for each plan entry
        and as many again. */
    ghost predicate Feasible() {
      && (forall k :: 0 <= k < |job.plan| ==> HandlerFor(job.plan[k].service, job.plan[k].iface).Some?)
      && 1 <= longest && longest * ((pace + 1) * (|job.plan| + 1)) < timeout
    }

    /** So far the AP has taken no fault and in every `pace` moments the steps of a turn, and no wait has been
        longer than `longest`. */
    ghost predicate OnPace()
      reads `tick
    {
      && apt
      && (forall n: nat :: n <= tick ==> Calm(script(n)) && Calm(race(n)) && delay(n) <= longest)
      && (forall n: nat :: n + pace <= tick ==> TurnFits(script, n, pace))
    }

    /** Steps of the AP since the last publication. */
    ghost function Spent(): (n: nat)
      reads `tick, `freshTick
    {
      GosFrom(script, freshTick, tick)
    }

    /** The shared memory is as it should be; before the final timeout the stream invariant holds too. */
    ghost predicate Sound(edit: Option<nat>)
      reads `s, `active, `live, `tracked, `marks, `tick, `freshTick
    {
      && Shape(s) && |active| == 4 && Inv(s, edit) && freshTick <= tick
      && (live ==> Good(s, active, edit, tracked, marks))
      && (apt ==> Feasible()) && (live && OnPace() ==> Brisk(s, active, Spent()))
    }

    ghost predicate Booked()
      reads `s, `active, `next, `log, `completed, `history, `overtaken
    {
      && |active| == 4 && Account(s, active, job, next, log)
      && completed == |log| && history == HistoryOf(log)
      && (overtaken ==> Inverted(s, active, log) && |job.plan| > 1 && exists n: nat :: race(n) != [])
    }

    ghost predicate Followed()
      reads `tracked, `overtaken
    {
      tracked <==> countable && !overtaken
    }

    /** No wrap-around, and opcodes that agree with the service. */
    ghost predicate Trackable() {
      && handledBase + |job.plan| < 0x8000_0000 && counterStart + |job.plan| < 0x1_0000_0000
      && OpcodesMatch(job.plan)
    }

    ghost predicate Noted()
      reads `tracked, `live, `counterBase, `marks, `log, `next
    {
      tracked && live ==>
        && Trackable()
        && counterBase == marks.shadow && InOrder(log) && UpTo(log, marks.last) && (marks.closed <==> !AllDone(log))
        && marks.top == handledBase + next && marks.counterTop == counterStart + next
    }

    /** What holds whenever the BSP is between two slots of its loop. */
    ghost predicate Valid()
      reads this
    {
      && Shape(s) && |active| == 4
      && live && Sound(None) && Booked() && Noted() && waitLoops <= timeout
      && (4 <= next || next == |job.plan|)
      && (stopped || waitLoops == timeout || next == |job.plan| || ActiveCount(active) == 4)
      && (if stopped then Stopping(s) || !s.boot.bootOk else AllDone(log))
    }

    /** Whatever the AP does now. */
    method Interfere(ghost edit: Option<nat>)
      requires Sound(edit)
      modifies this`s, this`tick
      ensures old(tick) <= tick
      ensures Sound(edit) && Rely(old(s), s) && Kept(old(s), s)
      ensures live ==> ApMoved(old(s), s) && (tracked ==> Order.Later(old(s), s, active))
      ensures s == RunAp(old(s), script(old(tick))) && tick == old(tick) + 1 && (Quiet() ==> s == old(s))
    {
      hide Inv, Live, Order.Ordered, Order.Later, Kept, ApMoved, Rely, Good, Brisk, Gos;
      RunApKeeps(s, script(tick), edit);
      RelyKept(s, RunAp(s, script(tick)));
      if live {
        GoodRun(s, script(tick), active, edit, tracked, marks);
        if OnPace() {
          GoodInv(s, active, edit, tracked, marks);
          BriskRun(s, script(tick), edit, active, Spent());
        }
      }
      s := RunAp(s, script(tick));
      tick := tick + 1;
    }

    /** One write to a free slot, then whatever the AP does. */
    method Edit(i: nat, r: Sys, ghost edit: Option<nat>)
      requires live && Sound(edit) && Shape(r) && i < 4 && !active[i] && OnlySlot(s, r, i)
      requires r.slots[i].state == Empty || (r.slots[i].state == Fault && s.slots[i].state == Fault)
      modifies this`s, this`tick
      ensures old(tick) <= tick
      ensures Sound(Some(i)) && Shape(old(s)) && Elsewhere(old(s), s, i)
      ensures s.gens == r.gens && s.nextGen == r.nextGen && s.slots[i].req == r.slots[i].req
      ensures old(s).boot.apState == Faulted ==> s == r && s.boot.apState == Faulted
      ensures Quiet() ==> Untouched(old(s), s, i)
    {
      hide Good, Inv, Elsewhere, Kept, Settled, RunAp, Brisk, Feasible;
      EditGood(s, r, i, active, edit, tracked, marks) by { GoodInv(s, active, edit, tracked, marks); }
      GoodInv(r, active, Some(i), tracked, marks);
      if OnPace() {
        OnlySlotBeside(s, r, i);
        BriskEdit(s, r, active, Spent(), i);
      }
      s := r;
      Interfere(Some(i));
      OnlySlotElsewhere(old(s), r, s, i);
    }

    /** `reset_ap_inbox_slot`. */
    method ResetSlot(i: nat, ghost edit: Option<nat>)
      requires live && Sound(edit) && i < 4 && !active[i]
      modifies this`s, this`tick
      ensures old(tick) <= tick
      ensures Sound(Some(i)) && Shape(old(s)) && Elsewhere(old(s), s, i)
      ensures s.gens == old(s).gens && s.nextGen == old(s).nextGen
      ensures s.slots[i].state == Empty || s.slots[i].state == Fault
      ensures Quiet() ==> Untouched(old(s), s, i)
    {
      hide Good, Inv, Elsewhere, OnlySlot, Kept, ApMoved, Rely, Order.Later, RunAp, Untouched;
      ghost var s0 := s;
      Interfere(edit);
      ghost var s1 := s;
      KeptElsewhere(s0, s1, i);
      UntouchedReflexive(s0, i);
      EditWrites(s, i, NO_PLAN, 0);
      Edit(i, WithState(s, i, Empty), edit);
      ghost var s2 := s;
      ElsewhereTransitive(s0, s1, s2, i);
      EditWrites(s, i, NO_PLAN, 0);
      EditState(s, i);
      Edit(i, WithSlot(s, i, Cleared(s.slots[i])), Some(i));
      ghost var s3 := s;
      ElsewhereTransitive(s0, s2, s3, i);
      EditWrites(s, i, NO_PLAN, 0);
      EditState(s, i);
      Edit(i, WithCommitted(s, i, EMPTY_OUTBOX), Some(i));
      ElsewhereTransitive(s0, s3, s, i);
      EditState(s, i);
      if Quiet() {
        UntouchedTransitive(s0, s2, s3, i);
        UntouchedTransitive(s0, s3, s, i);
      }
    }

    /** `publish_ap_inbox_request` up to the request fields. */
    method Prepare(i: nat, plan: Plan)
      requires live && Sound(None) && i < 4 && !active[i]
      modifies this`s, this`tick
      ensures old(tick) <= tick
      ensures Sound(Some(i)) && Shape(old(s)) && Elsewhere(old(s), s, i)
      ensures s.gens == old(s).gens[i := old(s).nextGen] && s.nextGen == old(s).nextGen + 1
      ensures s.slots[i].req == RequestFor(plan, job.target)
      ensures Quiet() ==> Untouched(old(s), s, i)
    {
      hide Good, Inv, Elsewhere, OnlySlot, Untouched;
      ResetSlot(i, None);
      ghost var s1 := s;
      EditWrites(s, i, plan, job.target);
      EditState(s, i);
      Edit(i, WithPlan(s, i, plan, job.target), Some(i));
      ElsewhereTransitive(old(s), s1, s, i);
      if Quiet() {
        UntouchedTransitive(old(s), s1, s, i);
      }
    }

    /** What the BSP concludes from the boot record before its final store. */
    method ChooseState(i: nat) returns (st: SlotState)
      requires live && Sound(Some(i)) && i < 4 && !active[i]
      modifies this`s, this`tick
      ensures old(tick) <= tick
      ensures Sound(Some(i)) && Shape(old(s)) && Elsewhere(old(s), s, i)
      ensures s.gens == old(s).gens && s.nextGen == old(s).nextGen && s.slots[i].req == old(s).slots[i].req
      ensures st == Pending || st == Skipped || st == Fault
      ensures st == Pending ==> s.boot.bootOk && old(s).boot.apState != Faulted
      ensures st == Pending && old(s).boot.apState == HaltedState ==> s.boot.apState == Faulted
      ensures st == Fault ==> s.boot.apState == Faulted && s.slots[i].reply.faultCode == s.boot.faultVector % 0x1_0000_0000
      ensures st == Skipped ==> !s.boot.bootOk || s.boot.apState == HaltedState || s.boot.apState == Faulted
      ensures Quiet() ==> Untouched(old(s), s, i) && (Accepting(s.boot) ==> st == Pending)
    {
      hide Good, WorkOk, RunningOwned, AllCompleted, CurrentOk, BootOk, Elsewhere, Kept, ApMoved, Rely, Order.Later, RunAp;
      ghost var s0 := s;
      if s.boot.apState == Faulted {
        Edit(i, WithFaultCode(s, i), Some(i));
        return Fault;
      }
      Interfere(Some(i));
      ghost var s1 := s;
      ApMovedStops(s0, s1);
      KeptElsewhere(s0, s1, i);
      OfflineNotOk(s, active, Some(i), tracked, marks);
      if !s.boot.bootOk || !s.boot.online {
        Interfere(Some(i));
        ApMovedStops(s1, s);
        KeptElsewhere(s1, s, i);
        ElsewhereTransitive(s0, s1, s, i);
        return Skipped;
      }
      Interfere(Some(i));
      ApMovedStops(s1, s);
      KeptElsewhere(s1, s, i);
      ElsewhereTransitive(s0, s1, s, i);
      ghost var s2 := s;
      st := if s.boot.apState == HaltedState then Skipped else Pending;
      Interfere(Some(i));
      ApMovedStops(s2, s);
      KeptElsewhere(s2, s, i);
      ElsewhereTransitive(s0, s2, s, i);
    }

    /** `publish_ap_inbox_request` up to the final store. */
    method Offer(i: nat, plan: Plan) returns (st: SlotState)
      requires live && Sound(None) && i < 4 && !active[i]
      modifies this`s, this`tick
      ensures old(tick) <= tick
      ensures Sound(Some(i)) && Shape(old(s)) && Shape(s) && Elsewhere(old(s), s, i)
      ensures s.gens == old(s).gens[i := old(s).nextGen] && s.nextGen == old(s).nextGen + 1
      ensures s.slots[i].req == RequestFor(plan, job.target)
      ensures st == Pending || st == Skipped || st == Fault
      ensures st == Pending ==> s.boot.bootOk
      ensures st == Fault ==> s.boot.apState == Faulted && s.slots[i].reply.faultCode == s.boot.faultVector % 0x1_0000_0000
      ensures st == Skipped ==> !s.boot.bootOk || s.boot.apState == HaltedState || s.boot.apState == Faulted
      ensures Quiet() ==> Untouched(old(s), s, i) && (Accepting(s.boot) ==> st == Pending)
    {
      hide Inv, Good, Elsewhere, Untouched, RequestFor;
      Prepare(i, plan);
      ghost var s1 := s;
      st := ChooseState(i);
      ElsewhereTransitive(old(s), s1, s, i);
      if Quiet() {
        UntouchedTransitive(old(s), s1, s, i);
      }
    }

    /** `publish_ap_stream_slot` for the next plan entry. */
    method Publish(i: nat)
      requires live && Sound(None) && Booked() && Noted() && AllDone(log)
      requires i < 4 && !active[i] && next < |job.plan| && (4 <= next || i == next)
      modifies this`s, this`tick, this`active, this`marks, this`next, this`freshTick
      ensures old(tick) <= tick
      ensures Sound(None) && Booked() && Noted()
      ensures active == old(active)[i := true] && next == old(next) + 1
      ensures Shape(old(s)) && Elsewhere(old(s), s, i)
      ensures s.slots[i].state == Pending || s.slots[i].state == Skipped || s.slots[i].state == Fault
      ensures s.slots[i].state == Fault ==> s.boot.apState == Faulted && s.slots[i].reply.faultCode == s.boot.faultVector % 0x1_0000_0000
      ensures Quiet() ==> Untouched(old(s), s, i) && (Accepting(s.boot) ==> s.slots[i].state == Pending)
    {
      hide Sound, Booked, Noted, Elsewhere, Untouched, AllDone, RequestFor;
      ghost var s0 := s;
      ghost var booked := Books();
      var st := Offer(i, job.plan[next]);
      Store(i, st, s0);
    }

    /** What `Booked` says, on values. */
    ghost function Books(): (b: (Sys, seq<bool>, nat, seq<Entry>))
      requires Booked()
      reads `s, `active, `next, `log, `completed, `history, `overtaken
      ensures Account(b.0, b.1, job, b.2, b.3) && b == (s, active, next, log) && Shape(s)
      ensures completed == |log| && history == HistoryOf(log)
      ensures overtaken ==> Inverted(s, active, log) && |job.plan| > 1 && exists n: nat :: race(n) != []
    {
      (s, active, next, log)
    }

    /** The final store of a publication; `s0` is the state before it was begun. */
    method Store(i: nat, st: SlotState, ghost s0: Sys)
      requires live && Sound(Some(i)) && Noted() && AllDone(log) && completed == |log| && history == HistoryOf(log)
      requires Account(s0, active, job, next, log)
      requires overtaken ==> Inverted(s0, active, log) && |job.plan| > 1 && exists n: nat :: race(n) != []
      requires i < 4 && !active[i] && next < |job.plan| && (4 <= next || i == next)
      requires Shape(s0) && Elsewhere(s0, s, i) && s.gens == s0.gens[i := s0.nextGen] && s.nextGen == s0.nextGen + 1
      requires s.slots[i].req == RequestFor(job.plan[next], job.target)
      requires st == Pending || st == Skipped || st == Fault
      requires st == Pending ==> s.boot.bootOk
      requires st == Fault ==> s.boot.apState == Faulted
      requires st == Skipped ==> !s.boot.bootOk || s.boot.apState == HaltedState || s.boot.apState == Faulted
      modifies this`s, this`active, this`marks, this`next, this`freshTick
      ensures Sound(None) && Booked() && Noted()
      ensures active == old(active)[i := true] && next == old(next) + 1
      ensures Elsewhere(s0, s, i) && s.slots[i] == old(s).slots[i].(state := st) && s.boot == old(s).boot
      ensures Untouched(s0, old(s), i) ==> Untouched(s0, s, i)
    {
      hide Sound, Elsewhere, Inverted, Untouched, Account, InOrder, UpTo, OpcodesMatch, AllDone, HistoryOf, RequestFor;
      TopsFit();
      StoreWord(i, st, s0);
      next := next + 1;
    }

    /** The store itself; the next plan entry is now in slot `i`. */
    method StoreWord(i: nat, st: SlotState, ghost s0: Sys)
      requires live && Sound(Some(i)) && AllDone(log) && Account(s0, active, job, next, log)
      requires overtaken ==> Inverted(s0, active, log)
      requires i < 4 && !active[i] && next < |job.plan| && (4 <= next || i == next)
      requires Shape(s0) && Elsewhere(s0, s, i) && s.gens == s0.gens[i := s0.nextGen] && s.nextGen == s0.nextGen + 1
      requires s.slots[i].req == RequestFor(job.plan[next], job.target)
      requires st == Pending || st == Skipped || st == Fault
      requires st == Pending ==> s.boot.bootOk
      requires st == Fault ==> s.boot.apState == Faulted
      requires st == Skipped ==> !s.boot.bootOk || s.boot.apState == HaltedState || s.boot.apState == Faulted
      requires tracked ==> marks.top + 1 < 0x8000_0000 && marks.counterTop + 1 < 0x1_0000_0000 && !marks.closed
      modifies this`s, this`active, this`marks, this`freshTick
      ensures Sound(None) && |active| == 4 && Account(s, active, job, next + 1, log) && marks == Grown(old(marks))
      ensures overtaken ==> Inverted(s, active, log)
      ensures active == old(active)[i := true]
      ensures Elsewhere(s0, s, i) && s.slots[i] == old(s).slots[i].(state := st) && s.boot == old(s).boot
      ensures Untouched(s0, old(s), i) ==> Untouched(s0, s, i)
    {
      hide Good, Inv, Elsewhere, Inverted, Untouched, Account, AllDone, WithState, RequestFor, Brisk, HandlerFor, Feasible, GosFrom;
      GosNow(script, tick);
      if OnPace() {
        KnownService(Some(i), next);
        PublishBrisk(s, i, st, active, Spent(), job.plan[next], job.target);
      }
      StorePublished(s0, s, i, st, active, job, next, log, tracked, marks);
      StoreElsewhereOnly(s0, s, i, st);
      s := WithState(s, i, st);
      if overtaken {
        PublishInverted(s0, s, active, log, i);
      }
      active := active[i := true];
      marks := Grown(marks);
      freshTick := tick;
    }

    /** The AP moves while the BSP compares slot `i` with the others. */
    method Glance(i: nat, ghost s0: Sys, ghost k: nat)
      requires live && Sound(None) && i < 4 && k <= 4 && Waiting(s, active, i) && ApMoved(s0, s) && Kept(s0, s)
      requires tracked && s.slots[i].state == Done ==> Ahead(s, active, i, k)
      modifies this`s, this`tick
      ensures old(tick) <= tick
      ensures Sound(None) && ApMoved(s0, s) && Kept(s0, s) && Shape(s)
      ensures forall j :: 0 <= j < 4 && Finished(old(s).slots[j].state) ==> s.slots[j] == old(s).slots[j]
      ensures tracked && s.slots[i].state == Done ==> Ahead(s, active, i, k)
      ensures Quiet() ==> s == old(s)
    {
      hide Inv, Order.Ordered, Order.Later, Kept, ApMoved, Rely, Live, Ahead, RunAp;
      Interfere(None);
      ApMovedStops(old(s), s);
      ApMovedTransitive(s0, old(s), s);
      KeptTransitive(s0, old(s), s);
      if tracked && s.slots[i].state == Done {
        AheadStays(old(s), s, active, i, k);
      }
    }

    lemma TopsFit()
      requires Noted() && next < |job.plan| && AllDone(log)
      ensures tracked && live ==> marks.top + 1 < 0x8000_0000 && marks.counterTop + 1 < 0x1_0000_0000 && !marks.closed
    {
      hide InOrder, UpTo, OpcodesMatch;
    }

    lemma KnownService(edit: Option<nat>, k: nat)
      requires Sound(edit) && apt && k < |job.plan|
      ensures HandlerFor(job.plan[k].service, job.plan[k].iface).Some?
    {
      hide HandlerFor, Good, Inv, Brisk;
    }

    lemma Shaped(edit: Option<nat>)
      requires Sound(edit)
      ensures Shape(s) && |active| == 4 && freshTick <= tick
    {
    }

    lemma GoodHere()
      requires live && Sound(None)
      ensures Good(s, active, None, tracked, marks)
    {
    }

    lemma TrackedHere()
      requires live && tracked && Sound(None)
      ensures Order.Ordered(s, active, marks)
    {
    }

    /** `ap_stream_has_earlier_finished_slot`. */
    method HasEarlier(i: nat) returns (b: bool)
      requires live && Sound(None) && i < 4 && Waiting(s, active, i)
      modifies this`s, this`tick
      ensures old(tick) <= tick
      ensures Sound(None) && ApMoved(old(s), s) && Kept(old(s), s) && s.slots[i] == old(s.slots[i])
      ensures if b then HasLower(s, active, i) else !HasLower(old(s), active, i)
      ensures !b && tracked ==> !Overtakes(s, active, i)
      ensures Quiet() ==> s == old(s)
    {
      hide Good, Overtakes, Sound, Order.Ordered, KeptSlot, ApMoved, SlotOrder, Ahead, Order.Earliest;
      Shaped(None);
      GoodHere();
      var mine := SlotOrder(s.slots[i], i);
      ghost var s0 := s;
      AheadStarts(s, active, i);
      ApMovedReflexive(s);
      KeptReflexive(s);
      var k := 0;
      while k < 4
        invariant old(tick) <= tick
        invariant 0 <= k <= 4 && Sound(None) && Shape(s) && ApMoved(s0, s) && Kept(s0, s) && s.slots[i] == s0.slots[i]
        invariant tracked && s.slots[i].state == Done ==> Ahead(s, active, i, k)
        invariant forall l :: 0 <= l < k && Waiting(s0, active, l) ==> mine <= SlotOrder(s0.slots[l], l)
        invariant Quiet() ==> s == s0
      {
        var lower := IsLower(i, k, mine, s0);
        if lower {
          return true;
        }
        k := k + 1;
      }
      Glance(i, s0, 4);
      if tracked {
        ComparedAll(i, s0);
      }
      return false;
    }

    /** A slot that was compared with all others overtakes none of them. */
    lemma ComparedAll(i: nat, s0: Sys)
      requires live && tracked && Sound(None) && i < 4 && Shape(s) && |active| == 4 && ApMoved(s0, s) && Kept(s0, s)
      requires Waiting(s0, active, i) && s.slots[i] == s0.slots[i] && !HasLower(s0, active, i)
      requires s.slots[i].state == Done ==> Ahead(s, active, i, 4)
      requires Good(s0, active, None, tracked, marks)
      ensures !Overtakes(s, active, i)
    {
      hide Inv, Live, Order.Ordered, ApMoved, Ahead, HasLower, Good;
      if s.slots[i].state == Done {
        AheadOfAll(s, active, i);
        EarliestIsForemost(s, active, i);
      } else {
        NoneReadyBehind(s0, active, marks, i);
        BadFinish(s0, active, None, tracked, marks, i);
        GoodInv(s0, active, None, tracked, marks);
        Order.SealedStays(s0, s, active);
      }
    }

    /** One comparison: slot `k` against the order of slot `i`. */
    method IsLower(i: nat, k: nat, mine: nat, ghost s0: Sys) returns (b: bool)
      requires live && Sound(None) && i < 4 && k < 4 && Shape(s) && |active| == 4 && ApMoved(s0, s) && Kept(s0, s)
      requires Waiting(s, active, i) && s.slots[i] == s0.slots[i] && mine == SlotOrder(s.slots[i], i)
      requires tracked && s.slots[i].state == Done ==> Ahead(s, active, i, k)
      requires Quiet() ==> s == s0
      modifies this`s, this`tick
      ensures old(tick) <= tick
      ensures Sound(None) && Shape(s) && ApMoved(s0, s) && Kept(s0, s) && s.slots[i] == s0.slots[i] && (Quiet() ==> s == s0)
      ensures b ==> HasLower(s, active, i)
      ensures !b ==> (tracked && s.slots[i].state == Done ==> Ahead(s, active, i, k + 1))
      ensures !b && Waiting(s0, active, k) ==> mine <= SlotOrder(s0.slots[k], k)
    {
      hide Sound, Order.Ordered, KeptSlot, ApMoved, SlotOrder, Ahead;
      Glance(i, s0, k);
      if Waiting(s0, active, k) {
        KeptWaiting(s0, s, active, k);
      }
      if k != i && active[k] && Finished(s.slots[k].state) {
        Glance(i, s0, k);
        if SlotOrder(s.slots[k], k) < mine {
          assert Waiting(s, active, k);
          return true;
        }
      }
      if tracked && s.slots[i].state == Done && Order.Ready(s, active, k) {
        TrackedHere();
        NotEarlier(s, active, marks, i, k);
      }
      AheadSkips(s, active, i, k);
      return false;
    }

    /** The record made of a finished slot, and its release (`record_ap_stream_slot`). */
    method Record(i: nat)
      requires Sound(None) && Booked() && Noted() && i < 4 && Waiting(s, active, i)
      requires live && tracked ==> !Overtakes(s, active, i)
      modifies this`active, this`completed, this`counterBase, this`history, this`log, this`marks
      ensures Sound(None) && Booked() && Noted()
      ensures active == old(active)[i := false] && ActiveCount(active) < ActiveCount(old(active))
      ensures log == old(log) + [Entry(s.gens[i], i, s.slots[i], counterBase)]
    {
      hide Inv, Good, Account, InOrder, UpTo, OpcodesMatch, HistoryOf, ActiveCount, Overtakes, CountsUp, Harvested, Inverted, Brisk, Feasible, AllDone, Trackable;
      var slot := s.slots[i];
      var counter := if CountsUp(slot.req) && slot.state == Done && slot.reply.faultCode == 0 then Bump(counterBase) else counterBase;
      var e := Entry(s.gens[i], i, slot, counter);
      HarvestAccount(s, active, job, next, log, i, counter);
      HarvestInverted(s, active, log, i, e);
      ghost var m := marks;
      if live {
        ReleaseSound(i);
        m := Harvested(s, marks, i);
        if tracked {
          MatchingOpcodes();
          RecordOrder(s, active, job, next, log, marks, i, counterBase, counter);
        }
      }
      Enter(i, e, m);
    }

    lemma MatchingOpcodes()
      requires Noted() && tracked && live
      ensures OpcodesMatch(job.plan)
    {
    }

    /** The entry is written and the slot released; `m` is the bookkeeping after it. */
    method Enter(i: nat, e: Entry, ghost m: Order.Marks)
      requires Sound(None) && Booked() && Noted() && i < 4
      requires Account(s, active[i := false], job, next, log + [e]) && ActiveCount(active[i := false]) == ActiveCount(active) - 1
      requires overtaken ==> Inverted(s, active[i := false], log + [e])
      requires live ==> Good(s, active[i := false], None, tracked, m) && (OnPace() ==> Brisk(s, active[i := false], Spent()))
      requires live && tracked ==>
                 && InOrder(log + [e]) && UpTo(log + [e], m.last) && e.counter == m.shadow && (m.closed <==> !AllDone(log + [e]))
                 && m.top == marks.top && m.counterTop == marks.counterTop
      modifies this`active, this`completed, this`counterBase, this`history, this`log, this`marks
      ensures Sound(None) && Booked() && Noted() && active == old(active)[i := false] && log == old(log) + [e] && counterBase == e.counter
    {
      hide Inv, Good, Account, InOrder, UpTo, HistoryOf, ActiveCount, Inverted, Brisk, Feasible, AllDone, Trackable;
      HistoryAppend(log, e);
      if completed < HISTORY {
        history := history[completed := Some(e)];
      }
      counterBase := e.counter;
      active := active[i := false];
      completed := completed + 1;
      log := log + [e];
      marks := m;
    }

    lemma ReleaseSound(i: nat)
      requires live && Sound(None) && i < 4 && Waiting(s, active, i)
      requires tracked ==> !Overtakes(s, active, i)
      ensures Good(s, active[i := false], None, tracked, Harvested(s, marks, i))
      ensures OnPace() ==> Brisk(s, active[i := false], Spent())
    {
      hide Inv, Good, Order.Earliest, Brisk, Feasible, Harvested, Order.IsCounter;
      ReleaseNoted(s, active, tracked, marks, i);
      if OnPace() {
        BriskRelease(s, active, Spent(), i);
      }
    }

    /** `finish_ap_stream_slot`. */
    method Finish(i: nat, loops: u32) returns (done: bool)
      requires Sound(None) && Booked() && Noted() && i < 4
      requires live && tracked ==> !Overtakes(s, active, i)
      modifies this`s, this`tick, this`active, this`completed, this`counterBase, this`history, this`log, this`marks
      ensures old(tick) <= tick
      ensures Sound(None) && Booked() && Noted() && Kept(old(s), s) && Shape(s) && |active| == 4
      ensures live && Stopping(old(s)) ==> Stopping(s)
      ensures !Waiting(old(s), old(active), i) ==> !done && active == old(active) && log == old(log) && s == old(s)
      ensures Waiting(old(s), old(active), i) ==>
                && active == old(active)[i := false] && ActiveCount(active) < ActiveCount(old(active))
                && (done <==> old(s).slots[i].state == Done)
                && |log| == |old(log)| + 1 && log[..|old(log)|] == old(log)
                && (log[|old(log)|].slot.state == Done <==> done) && log[|old(log)|].slot.waitLoops == loops
                && log[|old(log)|].idx == i
                && (live && !done ==> Stopping(s) || !s.boot.bootOk)
                && (done ==> SameResult(log[|old(log)|].slot, old(s).slots[i])) && SameRank(log[|old(log)|].slot, old(s).slots[i])
      ensures Quiet() ==> SameAp(old(s), s)
    {
      hide Sound, Booked, Noted, ActiveCount, Kept, Stopping, Overtakes, SameResult;
      Shaped(None);
      var state := s.slots[i].state;
      if !active[i] || !Finished(state) {
        KeptReflexive(s);
        return false;
      }
      Stamp(i, loops);
      Record(i);
      done := state == Done;
    }

    /** The wait count of a finished slot is written before the slot is copied. */
    method Stamp(i: nat, loops: u32)
      requires Sound(None) && Booked() && Noted() && i < 4 && Waiting(s, active, i)
      requires live && tracked ==> !Overtakes(s, active, i)
      modifies this`s, this`tick
      ensures old(tick) <= tick
      ensures Sound(None) && Booked() && Noted() && Shape(s) && |active| == 4 && Kept(old(s), s)
      ensures Waiting(s, active, i) && s.slots[i].waitLoops == loops && (live && tracked ==> !Overtakes(s, active, i))
      ensures SameRank(s.slots[i], old(s).slots[i]) && (s.slots[i].state == Done ==> SameResult(s.slots[i], old(s).slots[i]))
      ensures live && Stopping(old(s)) ==> Stopping(s)
      ensures live && s.slots[i].state != Done ==> Stopping(s) || !s.boot.bootOk
      ensures Quiet() ==> SameAp(old(s), s)
    {
      hide Sound, Booked, Noted, ApMoved, Rely, Kept, Good, Stopping, RunAp, Overtakes, Order.Later;
      Shaped(None);
      NoteWait(i, loops);
      ghost var s1 := s;
      if live {
        GoodHere();
      }
      Drift();
      KeptTransitive(old(s), s1, s);
      SameWait(s1, s, i);
      KeptState(old(s), s, i);
      if live {
        ApMovedStops(s1, s);
        GoodHere();
        if s.slots[i].state != Done {
          BadFinish(s, active, None, tracked, marks, i);
        }
        if tracked {
          GoodInv(s1, active, None, tracked, marks);
          BadOrDone(s1, active, i);
          ForemostStays(old(s), s1, s, active, i);
        }
      }
    }

    /** `slot->metrics.wait_loops = ...`. */
    method NoteWait(i: nat, loops: u32)
      requires Sound(None) && Booked() && Noted() && i < 4
      modifies this`s
      ensures s == WithWait(old(s), i, loops) && Kept(old(s), s) && Shape(s)
      ensures Sound(None) && Booked() && Noted()
      ensures Stopping(old(s)) ==> Stopping(s)
    {
      hide Inv, Account, Order.Ordered, InOrder, UpTo, OpcodesMatch, HistoryOf, ActiveCount, Live, Good, Brisk, Feasible;
      WaitKeeps(s, i, loops, None);
      if live {
        WaitGood(s, i, loops, active, tracked, marks);
        if OnPace() {
          BriskSame(s, WithWait(s, i, loops), active, Spent(), i);
        }
      }
      KeptBooks(s, WithWait(s, i, loops), active, job, next, log);
      s := WithWait(s, i, loops);
    }

    /** Whatever the AP does while no slot is being rewritten; the books are kept. */
    method Drift()
      requires Sound(None) && Booked() && Noted()
      modifies this`s, this`tick
      ensures old(tick) <= tick
      ensures Sound(None) && Booked() && Noted() && Shape(s) && |active| == 4 && Rely(old(s), s) && Kept(old(s), s)
      ensures live ==> ApMoved(old(s), s) && (tracked ==> Order.Later(old(s), s, active))
      ensures s == RunAp(old(s), script(old(tick))) && tick == old(tick) + 1 && (Quiet() ==> s == old(s))
    {
      hide RunAp, Inverted, Inv, Account, HistoryOf, Order.Later, ApMoved, Rely, Kept, Good;
      Interfere(None);
      KeptBooks(old(s), s, active, job, next, log);
    }

    /** Whatever the AP does while the BSP is between two accesses of its loop. */
    method Pause()
      requires Valid()
      modifies this`s, this`tick
      ensures old(tick) <= tick
      ensures Valid() && Kept(old(s), s) && ApMoved(old(s), s)
      ensures s == RunAp(old(s), script(old(tick))) && tick == old(tick) + 1 && (Quiet() ==> s == old(s))
    {
      hide RunAp, Sound, Booked, Noted, ApMoved, Rely, Kept, Stopping, AllDone, ActiveCount;
      Drift();
      ApMovedStops(old(s), s);
    }

    /** The AP between the check that found a slot unfinished and the second read of its state. */
    method Race()
      requires Valid()
      modifies this`s
      ensures Valid() && Kept(old(s), s) && s == RunAp(old(s), race(old(tick))) && (race(old(tick)) == [] ==> s == old(s))
    {
      hide Brisk, Feasible, Gos, GosFrom, Calm, Inverted, Inv, Account, Order.Ordered, InOrder, UpTo, OpcodesMatch, HistoryOf, Live, Order.Later, ApMoved, Rely, KeptSlot, Good, Stopping, AllDone;
      GoodRun(s, race(tick), active, None, tracked, marks);
      GoodInv(RunAp(s, race(tick)), active, None, tracked, marks);
      KeptBooks(s, RunAp(s, race(tick)), active, job, next, log);
      ApMovedStops(s, RunAp(s, race(tick)));
      if OnPace() {
        GoodInv(s, active, None, tracked, marks);
        BriskRun(s, race(tick), None, active, Spent());
        BriskLess(RunAp(s, race(tick)), active, Spent() + Gos(race(tick)), Spent());
      }
      s := RunAp(s, race(tick));
    }

    /** `ap_request_stream_should_stop`. */
    method ShouldStop() returns (b: bool)
      requires live && Sound(None) && Booked() && Noted()
      modifies this`s, this`tick
      ensures old(tick) < tick
      ensures Sound(None) && Booked() && Noted() && Kept(old(s), s) && Shape(s)
      ensures s.boot.bootOk == old(s).boot.bootOk && s.nextGen == old(s).nextGen
      ensures (Stopping(old(s)) ==> Stopping(s)) && (b ==> Stopping(s))
      ensures !b ==> old(s).boot.apState != Faulted && (old(s).boot.apState == HaltedState ==> s.boot.apState == Faulted)
      ensures Quiet() ==> s == old(s) && (b <==> s.boot.apState == Faulted || s.boot.apState == HaltedState)
    {
      hide RunAp, Sound, Booked, Noted, ApMoved, Rely, KeptSlot;
      Drift();
      ApMovedStops(old(s), s);
      b := s.boot.apState == Faulted;
      if !b {
        ghost var s1 := s;
        Drift();
        ApMovedStops(s1, s);
        KeptTransitive(old(s), s1, s);
        b := s.boot.apState == HaltedState;
      }
    }

    /** One slot of the harvesting loop: it is harvested, or nothing is recorded and it was not finished
        or has an earlier finished slot.  `seen` is the state in which it was checked, `read` the state in
        which it was read again: a slot that finishes in between is harvested without the comparison, and
        overtakes whatever was handled before it. */
    method Visit(i: nat) returns (ghost seen: Sys, ghost read: Sys)
      requires Valid() && Followed() && i < 4
      modifies this`s, this`tick, this`active, this`completed, this`counterBase, this`history, this`log, this`marks, this`next, this`stopped, this`tracked, this`overtaken, this`freshTick
      ensures old(tick) <= tick
      ensures Valid() && Followed() && (old(stopped) ==> stopped && next == old(next))
      ensures |old(log)| <= |log| <= |old(log)| + 1 && log[..|old(log)|] == old(log)
      ensures |log| > |old(log)| ||
              (active == old(active) && Kept(old(s), s) && (Waiting(old(s), active, i) ==> HasLower(s, active, i)))
      ensures Shape(old(s)) && old(active)[i] ==> seen == RunAp(old(s), script(old(tick))) && Shape(seen) && Shape(read)
      ensures old(active)[i] && !Finished(seen.slots[i].state) ==>
                && read == RunAp(seen, race(old(tick) + 1))
                && |log| == |old(log)| + One(Finished(read.slots[i].state))
                && overtaken == (old(overtaken) || Overtakes(read, old(active), i))
      ensures !old(active)[i] || Finished(seen.slots[i].state) ==> overtaken == old(overtaken)
      ensures old(active)[i] && |log| > |old(log)| ==>
                && Kept(seen, read) && |active| == 4 && active == old(active)[i := active[i]] && Elsewhere(read, s, i)
                && (active[i] ==> s.slots[i].state != Done)
                && (read.slots[i].state == Done ==> SameResult(log[|old(log)|].slot, read.slots[i]))
      ensures Quiet() && Waiting(old(s), old(active), i) && |log| == |old(log)| ==> s == old(s)
      ensures LeftBehind(s, active, i, log, |old(log)|, |log|) && (|log| == |old(log)| ==> freshTick == old(freshTick))
    {
      hide Sound, Booked, Noted, ActiveCount, ApMoved, KeptSlot, Stopping, HasLower, RunAp, Elsewhere, AllDone, Overtakes, SameResult;
      seen, read := s, s;
      KeptReflexive(s);
      if !active[i] {
        return;
      }
      Pause();
      seen, read := s, s;
      if Finished(s.slots[i].state) {
        var earlier := Compare(i);
        read := s;
        KeptTransitive(old(s), seen, s);
        if earlier {
          return;
        }
        Harvest(i);
      } else {
        UnfinishedBefore(old(s), s, active, i);
        read := Reread(i);
        if |log| == |old(log)| {
          KeptTransitive(old(s), seen, s);
        }
      }
    }

    /** The second read of a slot that was seen unfinished, and its harvest. */
    method Reread(i: nat) returns (ghost read: Sys)
      requires Valid() && Followed() && i < 4 && active[i] && !Finished(s.slots[i].state)
      modifies this`s, this`tick, this`active, this`completed, this`counterBase, this`history, this`log, this`marks, this`next, this`stopped, this`tracked, this`overtaken, this`freshTick
      ensures old(tick) <= tick
      ensures Valid() && Followed() && (old(stopped) ==> stopped && next == old(next))
      ensures Shape(old(s)) && Shape(read) && read == RunAp(old(s), race(old(tick))) && Kept(old(s), read)
      ensures |log| == |old(log)| + One(Finished(read.slots[i].state)) && log[..|old(log)|] == old(log)
      ensures overtaken == (old(overtaken) || Overtakes(read, old(active), i))
      ensures |active| == 4 && active == old(active)[i := active[i]] && Elsewhere(read, s, i)
      ensures !Finished(read.slots[i].state) ==> active == old(active) && s == read && freshTick == old(freshTick)
      ensures Finished(read.slots[i].state) ==>
                && (active[i] ==> s.slots[i].state != Done) && log[|old(log)|].idx == i
                && (read.slots[i].state == Done ==> SameResult(log[|old(log)|].slot, read.slots[i]))
    {
      hide Sound, Booked, Noted, ActiveCount, KeptSlot, Stopping, RunAp, Elsewhere, AllDone, Order.Earliest;
      Race();
      read := s;
      ghost var overtakes := Overtakes(s, active, i);
      if overtakes {
        assert race(old(tick)) != [];
        StopFollowing(i);
      }
      Harvest(i);
      if overtakes {
        NoteOvertaking(i, read, old(active));
      }
    }

    /** The order is no longer followed; the invariant without it still holds. */
    ghost method StopFollowing(i: nat)
      requires Valid() && i < 4 && Overtakes(s, active, i)
      modifies this`tracked
      ensures Valid() && !tracked && |job.plan| > 1
    {
      hide Inv, Live, Order.Ordered, InOrder, UpTo, OpcodesMatch, HistoryOf, Stopping, AllDone, Inverted, OnePlace, LogAccount, SlotAccount;
      tracked := false;
    }

    ghost method NoteOvertaking(i: nat, read: Sys, act: seq<bool>)
      requires Valid() && !tracked && i < 4 && Shape(read) && |act| == 4 && Overtakes(read, act, i) && Elsewhere(read, s, i)
      requires active == act[i := active[i]] && |job.plan| > 1 && exists n: nat :: race(n) != []
      requires |log| > 0 && SameRank(log[|log| - 1].slot, read.slots[i])
      modifies this`overtaken
      ensures Valid() && Followed() && overtaken
    {
      hide Inv, Live, Good, Account, InOrder, UpTo, OpcodesMatch, HistoryOf, Stopping, AllDone, ActiveCount, Inverted;
      OvertakingInverts(read, s, act, active, log, i);
      overtaken := true;
    }

    /** The comparison with the other finished slots, within the loop. */
    method Compare(i: nat) returns (b: bool)
      requires Valid() && i < 4 && Waiting(s, active, i)
      modifies this`s, this`tick
      ensures old(tick) <= tick
      ensures Valid() && Kept(old(s), s) && Waiting(s, active, i)
      ensures if b then HasLower(s, active, i) else !HasLower(old(s), active, i)
      ensures !b && tracked ==> !Overtakes(s, active, i)
      ensures Quiet() ==> s == old(s)
    {
      hide Inverted, Inv, Account, Order.Ordered, InOrder, UpTo, OpcodesMatch, HistoryOf, ActiveCount, Live, Order.Earliest, ApMoved, KeptSlot, Good, Stopping, HasLower;
      b := HasEarlier(i);
      KeptBooks(old(s), s, active, job, next, log);
      ApMovedStops(old(s), s);
    }

    /** Harvest slot `i` if it has finished, and refill it. */
    method Harvest(i: nat)
      requires Valid() && i < 4 && active[i]
      requires tracked ==> !Overtakes(s, active, i)
      modifies this`s, this`tick, this`active, this`completed, this`counterBase, this`history, this`log, this`marks, this`next, this`stopped, this`freshTick
      ensures old(tick) <= tick
      ensures Valid() && (old(stopped) ==> stopped && next == old(next))
      ensures |log| == |old(log)| + One(Waiting(old(s), old(active), i)) && log[..|old(log)|] == old(log)
      ensures !Waiting(old(s), old(active), i) ==> active == old(active) && s == old(s) && freshTick == old(freshTick)
      ensures Shape(old(s)) && |active| == 4 && active == old(active)[i := active[i]] && Elsewhere(old(s), s, i)
      ensures Waiting(old(s), old(active), i) ==>
                && (active[i] ==> s.slots[i].state != Done) && log[|old(log)|].idx == i
                && (old(s).slots[i].state == Done ==> SameResult(log[|old(log)|].slot, old(s).slots[i]))
                && SameRank(log[|old(log)|].slot, old(s).slots[i])
    {
      hide Sound, Booked, Noted, Elsewhere, ActiveCount, Order.Earliest, Kept, Stopping, SameResult, AllDone, Order.Ready;
      ghost var s0, was, act := s, log, active;
      var done := Finish(i, waitLoops);
      ghost var s1 := s;
      KeptElsewhere(s0, s1, i);
      KeptBoot(s0, s1);
      if !active[i] {
        AllDoneMore(was, log);
        assert active[i := true] == act;
        GoOn(i, done);
        ElsewhereTransitive(s0, s1, s, i);
      }
    }

    /** After the harvest of slot `i`: stop if it did not end well, else refill it if there is more to do. */
    method GoOn(i: nat, done: bool)
      requires live && Shape(s) && Sound(None) && Booked() && Noted() && waitLoops <= timeout
      requires |active| == 4 && i < 4 && !active[i] && (4 <= next || next == |job.plan|)
      requires stopped || waitLoops == timeout || next == |job.plan| || ActiveCount(active[i := true]) == 4
      requires stopped || !done ==> Stopping(s) || !s.boot.bootOk
      requires !stopped && done ==> AllDone(log)
      modifies this`s, this`tick, this`active, this`marks, this`next, this`stopped, this`freshTick
      ensures old(tick) <= tick
      ensures Valid() && (old(stopped) ==> stopped && next == old(next))
      ensures active == old(active)[i := active[i]] && Elsewhere(old(s), s, i) && (active[i] ==> s.slots[i].state != Done)
    {
      hide Sound, Booked, Noted, Elsewhere, ActiveCount, Kept, Stopping, AllDone;
      KeptReflexive(s);
      KeptElsewhere(s, s, i);
      if !done {
        stopped := true;
      }
      NextInPlan();
      if done && !stopped && waitLoops < timeout && next < |job.plan| {
        var stop := Refill(i);
        if stop {
          stopped := true;
        }
      }
    }

    /** The next plan entry goes into the free slot `i` unless the AP has stopped. */
    method Refill(i: nat) returns (stop: bool)
      requires live && Sound(None) && Booked() && Noted() && AllDone(log)
      requires i < 4 && !active[i] && 4 <= next < |job.plan|
      modifies this`s, this`tick, this`active, this`marks, this`next, this`freshTick
      ensures old(tick) <= tick
      ensures Sound(None) && Booked() && Noted() && Shape(old(s)) && Shape(s) && Elsewhere(old(s), s, i)
      ensures stop ==> Stopping(s) && active == old(active) && next == old(next)
      ensures !stop ==> active == old(active)[i := true] && next == old(next) + 1 && s.slots[i].state != Done
    {
      hide Sound, Booked, Noted, Elsewhere, Stopping, Kept, AllDone, Untouched, SameAp;
      Shaped(None);
      stop := ShouldStop();
      ghost var s1 := s;
      KeptElsewhere(old(s), s1, i);
      if !stop {
        Publish(i);
        Shaped(None);
        ElsewhereTransitive(old(s), s1, s, i);
      }
    }

    /** One pass over the slots: something is harvested, or every slot that was finished has an earlier
        finished one.  `marks` and `acts` are the states and flags in which the slots were left. */
    method Pass() returns (ghost marks': seq<Sys>, ghost acts: seq<seq<bool>>)
      requires Valid() && Followed()
      modifies this`s, this`tick, this`active, this`completed, this`counterBase, this`history, this`log, this`marks, this`next, this`stopped, this`tracked, this`overtaken, this`freshTick
      ensures old(tick) <= tick
      ensures Valid() && Followed() && (old(stopped) ==> stopped && next == old(next))
      ensures |old(log)| <= |log| && log[..|old(log)|] == old(log)
      ensures |log| > |old(log)| ||
              (active == old(active) && Kept(old(s), s) && forall k :: 0 <= k < 4 && Waiting(old(s), active, k) ==> HasLower(s, active, k))
      ensures LapOk(Lap(marks', acts, |old(log)|, |log|), log) && (|log| == |old(log)| ==> freshTick == old(freshTick))
    {
      hide Sound, Booked, Noted, KeptSlot, Stopping, HasLower, AllDone, Waiting, ActiveCount, LeftBehind;
      KeptReflexive(s);
      marks', acts := [], [];
      var i := 0;
      while i < 4
        invariant old(tick) <= tick
        invariant 0 <= i <= 4 && Valid() && Followed() && (old(stopped) ==> stopped && next == old(next))
        invariant |old(log)| <= |log| && log[..|old(log)|] == old(log)
        invariant |log| > |old(log)| ||
                  (active == old(active) && Kept(old(s), s) && forall k :: 0 <= k < i && Waiting(old(s), active, k) ==> HasLower(s, active, k))
        invariant |marks'| == |acts| == i && (|log| == |old(log)| ==> freshTick == old(freshTick))
        invariant forall k :: 0 <= k < i ==> LeftBehind(marks'[k], acts[k], k, log, |old(log)|, |log|)
      {
        ghost var s1, l1, m1, a1 := s, log, marks', acts;
        var _, _ := Visit(i);
        assert log[..|old(log)|] == l1[..|old(log)|];
        if |log| == |old(log)| {
          KeptTransitive(old(s), s1, s);
          forall k | 0 <= k <= i && Waiting(old(s), active, k)
            ensures HasLower(s, active, k)
          {
            KeptWaiting(old(s), s1, active, k);
            if k < i {
              KeptLower(s1, s, active, k);
            }
          }
        }
        marks', acts := marks' + [s], acts + [active];
        forall k | 0 <= k <= i
          ensures LeftBehind(marks'[k], acts[k], k, log, |old(log)|, |log|)
        {
          if k < i {
            LeftBehindLater(m1[k], a1[k], k, l1, log, |old(log)|, |l1|, |old(log)|, |log|);
          } else {
            LeftBehindLater(s, active, i, log, log, |l1|, |log|, |old(log)|, |log|);
          }
        }
        i := i + 1;
      }
    }

    /** One slot of `stop_ap_request_stream`.  Its plain stores hit no completed request: by then the AP
        claims nothing any more, and a slot seen open can no longer become DONE. */
    method StopSlot(i: nat)
      requires Valid() && stopped && i < 4
      modifies this`s, this`tick
      ensures old(tick) <= tick
      ensures Valid() && Kept(old(s), s) && (old(s).boot.apState == Faulted ==> s.boot.apState == Faulted)
      ensures active[i] ==> Stopped(old(s), s, i)
    {
      hide Sound, Booked, Noted, KeptSlot, ApMoved, Stopping, AllDone, ActiveCount;
      KeptReflexive(s);
      if !active[i] {
        return;
      }
      Pause();
      ghost var s1 := s;
      ApMovedStops(old(s), s1);
      var state := s.slots[i].state;
      if !Finished(state) {
        StillOpen(i);
      }
      Pause();
      ghost var s2 := s;
      KeptTransitive(old(s), s1, s2);
      ApMovedStops(s1, s2);
      if Finished(state) {
        KeptState(s1, s2, i);
        return;
      }
      NoteWait(i, waitLoops);
      ghost var s3 := s;
      KeptTransitive(old(s), s2, s3);
      Pause();
      ghost var s4 := s;
      KeptTransitive(old(s), s3, s4);
      ApMovedStops(s3, s4);
      if state == Running {
        NoMorePending(s1, s2, i);
        NoMorePending(s3, s4, i);
      }
      StoreStop(i, state);
      KeptTransitive(old(s), s4, s);
    }

    /** A slot that is still open when the stream stops is pending or running, and the AP is stopping. */
    lemma StillOpen(i: nat)
      requires Valid() && stopped && i < 4 && active[i] && !Finished(s.slots[i].state)
      ensures (s.slots[i].state == Pending || s.slots[i].state == Running) && s.boot.bootOk && Stopping(s)
    {
      hide Inv, Account, Good, Stopping, ActiveCount, AllDone;
      AccountMatches(s, active, job, next, log, i);
      OpenFinish(s, active, None, tracked, marks, i);
    }

    /** The store itself, `state` being what was read before. */
    method StoreStop(i: nat, state: SlotState)
      requires Valid() && stopped && i < 4 && active[i] && s.boot.bootOk && Stopping(s) && s.slots[i].state != Done
      requires state == Pending || state == Running
      requires state == Pending <==> s.slots[i].state == Pending
      modifies this`s
      ensures Valid() && Kept(old(s), s) && s.boot == old(s).boot
      ensures s.slots[i].state ==
              if state == Pending then Skipped else if s.boot.apState == Faulted then Fault else old(s).slots[i].state
      ensures state == Running && s.boot.apState == Faulted ==> s.slots[i].reply.faultCode == s.boot.faultVector % 0x1_0000_0000
      ensures s.slots[i].state != old(s).slots[i].state ==> LeftClaimLoop(old(s).pc)
    {
      hide Inv, Account, Order.Ordered, InOrder, UpTo, OpcodesMatch, HistoryOf, Live, Good, AllDone, Kept, Stopping, ActiveCount;
      KeptReflexive(s);
      StoppedForGood(s, None);
      StoppedIsNotBrisk();
      if s.boot.apState == Faulted && state == Running {
        FaultGood(s, i, active, tracked, marks);
        FaultKept(s, i);
        s := WithState(WithFaultCode(s, i), i, Fault);
      } else if state == Pending {
        SkipGood(s, i, active, tracked, marks);
        SkipKept(s, i);
        s := WithState(s, i, Skipped);
      }
      GoodInv(s, active, None, tracked, marks);
      KeptBooks(old(s), s, active, job, next, log);
    }

    /** A stream on a healthy AP is never stopped. */
    lemma StoppedIsNotBrisk()
      requires live && Sound(None) && (Stopping(s) || !s.boot.bootOk)
      ensures !OnPace()
    {
    }

    /** `stop_ap_request_stream`: afterwards no active slot is pending, and if the AP had faulted, all are
        finished. */
    method StopAll()
      requires Valid() && stopped
      modifies this`s, this`tick
      ensures old(tick) <= tick
      ensures Valid() && Kept(old(s), s)
      ensures forall k :: 0 <= k < 4 && active[k] ==> Stopped(old(s), s, k)
    {
      hide Sound, Booked, Noted, Stopping, AllDone, KeptSlot, ActiveCount, Stopped;
      KeptReflexive(s);
      var i := 0;
      while i < 4
        invariant old(tick) <= tick
        invariant 0 <= i <= 4 && Valid() && Kept(old(s), s) && (old(s).boot.apState == Faulted ==> s.boot.apState == Faulted)
        invariant forall k :: 0 <= k < i && active[k] ==> Stopped(old(s), s, k)
      {
        ghost var s1 := s;
        StopSlot(i);
        KeptTransitive(old(s), s1, s);
        forall k | 0 <= k <= i && active[k]
          ensures Stopped(old(s), s, k)
        {
          if k < i {
            StaysStopped(old(s), s1, s, k);
          } else {
            StoppedSince(old(s), s1, s, k);
          }
        }
        i := i + 1;
      }
    }

    /** `active_ap_request_slot_count`. */
    method CountActive() returns (n: nat)
      requires |active| == 4
      ensures n == ActiveCount(active)
    {
      n := 0;
      var i := 0;
      while i < 4
        invariant 0 <= i <= 4
        invariant n == (if i > 0 then One(active[0]) else 0) + (if i > 1 then One(active[1]) else 0) +
                       (if i > 2 then One(active[2]) else 0) + (if i > 3 then One(active[3]) else 0)
      {
        if active[i] {
          n := n + 1;
        }
        i := i + 1;
      }
    }

    /** `ap_request_stream_has_finished_slot`. */
    method HasFinished() returns (b: bool)
      requires Valid()
      modifies this`s, this`tick
      ensures old(tick) <= tick
      ensures Valid() && Kept(old(s), s)
      ensures if b then exists k :: 0 <= k < 4 && Waiting(s, active, k)
              else forall k :: 0 <= k < 4 ==> !Waiting(old(s), active, k)
    {
      hide Sound, Booked, Noted, Stopping, AllDone, KeptSlot, ApMoved, ActiveCount;
      KeptReflexive(s);
      var i := 0;
      while i < 4
        invariant old(tick) <= tick
        invariant 0 <= i <= 4 && Valid() && Kept(old(s), s)
        invariant forall k :: 0 <= k < i ==> !Waiting(old(s), active, k)
      {
        ghost var s1 := s;
        Pause();
        KeptTransitive(old(s), s1, s);
        if Waiting(old(s), active, i) {
          KeptWaiting(old(s), s, active, i);
        }
        if active[i] && Finished(s.slots[i].state) {
          assert Waiting(s, active, i);
          return true;
        }
        i := i + 1;
      }
      return false;
    }

    method MarkStopped()
      requires Valid() && Stopping(s)
      modifies this`stopped
      ensures Valid() && stopped
    {
      hide Sound, Booked, Noted, Stopping, AllDone, ActiveCount;
      stopped := true;
    }

    /** The part of the main loop that touches slots: stop if the AP has, harvest, stop if needed. */
    method Round() returns (ghost lap: Lap)
      requires Valid() && Followed()
      modifies this`s, this`tick, this`active, this`completed, this`counterBase, this`history, this`log, this`marks, this`next, this`stopped, this`tracked, this`overtaken, this`freshTick
      ensures old(tick) < tick
      ensures Valid() && Followed() && (old(stopped) ==> stopped && next == old(next))
      ensures |old(log)| <= |log| && log[..|old(log)|] == old(log)
      ensures |log| > |old(log)| ||
              (active == old(active) && Kept(old(s), s)
               && ((exists k :: 0 <= k < 4 && Waiting(s, active, k)) ==> OpenCount(s, active) < OpenCount(old(s), active)))
      ensures stopped ==> forall k :: 0 <= k < 4 && active[k] ==> s.slots[k].state != Pending
      ensures LapOk(lap, log) && lap.from == |old(log)| && lap.to == |log| && (|log| == |old(log)| ==> freshTick == old(freshTick))
    {
      hide Sound, Booked, Noted, Stopping, AllDone, Kept, HasLower, ActiveCount, OpenCount, Waiting, LapOk;
      var halt := ShouldStop();
      ghost var s1 := s;
      if halt {
        MarkStopped();
        StopAll();
        KeptTransitive(old(s), s1, s);
      }
      ghost var s2 := s;
      ghost var marks', acts := Pass();
      lap := Lap(marks', acts, |old(log)|, |log|);
      ghost var s3 := s;
      KeptReflexive(s);
      if stopped {
        StopAll();
      }
      if |log| == |old(log)| {
        KeptTransitive(old(s), s2, s3);
        KeptTransitive(old(s), s3, s);
        if exists k :: 0 <= k < 4 && Waiting(s, active, k) {
          TurnProgress(old(s), s2, s3, s, active);
        }
      }
    }

    /** The wait count is the saturated sum of the waits taken, and each of them followed a full pass; a wait
        is as long as the timer made it, or 1 once the stream has stopped. */
    ghost predicate Timed()
      reads `waitLoops, `waits, `laps, `log
    {
      && waitLoops == Saturated(waits, timeout) && |laps| == |waits|
      && (forall k :: 0 <= k < |waits| ==> waits[k] == 1 || exists n: nat :: waits[k] == delay(n))
      && forall k :: 0 <= k < |laps| ==> LapOk(laps[k], log)
    }

    /** On a brisk AP: between two harvests at most `pace` passes are followed by a wait. */
    ghost predicate Paced()
      reads `waits, `log, `quiet, `freshTick, `tick
    {
      OnPace() ==>
        && |waits| <= (pace + 1) * |log| + quiet && quiet <= pace && freshTick + quiet <= tick
        && forall k :: 0 <= k < |waits| ==> waits[k] <= longest
    }

    /** Once the moments of a turn are over, every active slot is finished. */
    lemma TurnIsOver()
      requires live && Sound(None) && OnPace() && freshTick + pace <= tick
      ensures OpenCount(s, active) == 0
    {
      hide Inv, Good, Brisk, GosFrom;
      GosFromGrows(script, freshTick, freshTick + pace, tick);
      assert TurnFits(script, freshTick, pace);
      GoodInv(s, active, None, tracked, marks);
      BriskIsServed(s, active, Spent());
    }

    /** The body of the main loop.  Unless it ends the loop it lowers the measure: not yet stopped, time
        left, active slots, active slots that have not finished. */
    method Turn() returns (over: bool)
      requires Valid() && Followed() && Timed() && Paced()
      modifies this`s, this`tick, this`active, this`completed, this`counterBase, this`history, this`log, this`marks, this`next, this`stopped, this`waitLoops, this`tracked, this`overtaken, this`freshTick, this`laps, this`waits, this`quiet
      ensures old(tick) <= tick
      ensures Valid() && Followed() && Timed() && Paced() && (old(stopped) ==> stopped && next == old(next))
      ensures waitLoops == old(waitLoops) || waitLoops == Advance(old(waitLoops), if stopped then 1 else delay(tick), timeout)
      ensures over ==> waitLoops == timeout || (ActiveCount(active) == 0 && (stopped || next == |job.plan|))
      ensures !over ==>
                || (!old(stopped) && stopped)
                || old(waitLoops) < waitLoops
                || (stopped && old(stopped)
                    && (ActiveCount(active) < ActiveCount(old(active))
                        || (active == old(active) && OpenCount(s, active) < OpenCount(old(s), active))))
    {
      hide Sound, Booked, Noted, Stopping, AllDone, Kept, ActiveCount, OpenCount, Waiting, Advance, LapOk, Timed, Paced, TimeToWait;
      Conserved();
      AdvanceBounds();
      ghost var lap, grew := CountedRound();
      Conserved();
      ghost var s1 := s;
      var n := CountActive();
      NextBound();
      if (next >= |job.plan| || stopped) && n == 0 {
        return true;
      }
      if stopped {
        var finished := HasFinished();
        if finished {
          if old(stopped) && |log| == |old(log)| {
            WaitingSoon(old(s), s1, s, active);
          }
          PacedLater();
          return false;
        }
        PacedLater();
        if waitLoops >= timeout {
          return true;
        }
        StoppedMayWait(grew);
        TakeWait(1, lap, grew);
        return false;
      }
      if waitLoops >= timeout {
        return true;
      }
      TakeWait(delay(tick), lap, grew);
      return false;
    }

    /** There is room for another wait in a brisk stream. */
    ghost predicate TimeToWait(grew: bool)
      reads `waits, `log, `quiet, `freshTick, `tick
    {
      OnPace() ==> if grew then quiet == 0 && |waits| + 1 <= (pace + 1) * |log| else quiet < pace && freshTick + quiet < tick
    }

    lemma StoppedMayWait(grew: bool)
      requires Valid() && stopped
      ensures TimeToWait(grew)
    {
      hide Sound, Booked, Noted, Stopping, AllDone, ActiveCount;
      StoppedIsNotBrisk();
    }

    lemma PacedLater()
      requires Valid() && stopped
      ensures Paced()
    {
      hide Sound, Booked, Noted, Stopping, AllDone, ActiveCount;
      StoppedIsNotBrisk();
    }

    /** The pass with its bookkeeping. */
    method CountedRound() returns (ghost lap: Lap, ghost grew: bool)
      requires Valid() && Followed() && Timed() && Paced()
      modifies this`s, this`tick, this`active, this`completed, this`counterBase, this`history, this`log, this`marks, this`next, this`stopped, this`tracked, this`overtaken, this`freshTick, this`quiet
      ensures old(tick) <= tick
      ensures Valid() && Followed() && Timed() && Paced() && (old(stopped) ==> stopped && next == old(next)) && |old(log)| <= |log|
      ensures |log| > |old(log)| ||
              (active == old(active) && Kept(old(s), s)
               && ((exists k :: 0 <= k < 4 && Waiting(s, active, k)) ==> OpenCount(s, active) < OpenCount(old(s), active)))
      ensures LapOk(lap, log) && (grew <==> |log| > |old(log)|)
      ensures ActiveCount(active) > 0 || grew ==> TimeToWait(grew)
    {
      hide Sound, Booked, Noted, Stopping, AllDone, Kept, ActiveCount, OpenCount, Waiting, LapOk, Saturated;
      if OnPace() && quiet == pace {
        TurnIsOver();
      }
      lap := Round();
      LapsLater(laps, old(log), log);
      grew := |log| > |old(log)|;
      Shaped(None);
      if grew {
        EndQuiet(|old(log)|);
      } else if OnPace() && quiet == pace && ActiveCount(active) > 0 {
        ActiveWaits(old(s), s, active);
      }
    }

    /** A harvest ends a quiet period and makes room for another one. */
    ghost method EndQuiet(before: nat)
      requires before < |log| && (OnPace() ==> |waits| <= (pace + 1) * before + quiet && quiet <= pace) && freshTick <= tick
      requires OnPace() ==> forall k :: 0 <= k < |waits| ==> waits[k] <= longest
      modifies this`quiet
      ensures Paced() && quiet == 0 && (OnPace() ==> |waits| + 1 <= (pace + 1) * |log|)
    {
      quiet := 0;
      assert (pace + 1) * |log| == (pace + 1) * before + (pace + 1) * (|log| - before);
      assert (pace + 1) * (|log| - before) >= pace + 1 by { AtLeastOne(pace + 1, |log| - before); }
    }

    lemma LongestWait()
      requires Sound(None) && OnPace()
      ensures 1 <= longest && delay(tick) <= longest
    {
      hide Good, Inv, Brisk, HandlerFor;
    }

    /** A wait after a pass. */
    method TakeWait(step: Step, ghost lap: Lap, ghost grew: bool)
      requires Valid() && Timed() && Paced() && waitLoops < timeout && LapOk(lap, log)
      requires step == 1 || step == delay(tick)
      requires TimeToWait(grew)
      modifies this`waitLoops, this`waits, this`laps, this`quiet
      ensures Valid() && Timed() && Paced() && old(waitLoops) < waitLoops == Advance(old(waitLoops), step, timeout)
    {
      hide Sound, Booked, Noted, Stopping, AllDone, ActiveCount, LapOk, Saturated;
      SaturatedMore(waits, step, timeout);
      if OnPace() {
        LongestWait();
      }
      waitLoops := Advance(waitLoops, step, timeout);
      waits, laps := waits + [step], laps + [lap];
      quiet := if grew then 0 else quiet + 1;
    }

    lemma AdvanceBounds()
      ensures forall loops: u32, step: Step :: loops <= timeout ==> loops <= Advance(loops, step, timeout) <= timeout
    {
    }

    /** Every publication is recorded or active. */
    lemma Conserved()
      requires Booked()
      ensures next == |log| + ActiveCount(active) && completed == |log|
    {
    }

    lemma NextBound()
      requires Valid()
      ensures next <= |job.plan|
    {
    }

    /** The two compare-and-swaps of `finish_timed_out_ap_stream_slots`: whatever the AP does meanwhile,
        the slot is finished afterwards. */
    method Expire(i: nat)
      requires Sound(None) && Booked() && Noted() && !live && i < 4 && active[i]
      modifies this`s, this`tick
      ensures old(tick) <= tick
      ensures Sound(None) && Booked() && Noted() && Kept(old(s), s) && Finished(s.slots[i].state)
    {
      hide Sound, Booked, Noted, KeptSlot, ApMoved, RunAp;
      Drift();
      ghost var s1 := s;
      if !Finished(s.slots[i].state) {
        NoteWait(i, timeout);
        ghost var s2 := s;
        KeptTransitive(old(s), s1, s2);
        Drift();
        KeptTransitive(old(s), s2, s);
        ghost var s3 := s;
        ActiveIsFull(i);
        var swapped := Swap(i, Pending);
        KeptTransitive(old(s), s3, s);
        if !swapped {
          ghost var s4 := s;
          Drift();
          ghost var s5 := s;
          KeptTransitive(old(s), s4, s5);
          NeverPendingAgain(s4, s5, i);
          var _ := Swap(i, Running);
          KeptTransitive(old(s), s5, s);
        }
      }
    }

    lemma ActiveIsFull(i: nat)
      requires Booked() && i < 4 && active[i]
      ensures s.slots[i].state != Empty
    {
      hide Account, Inverted, HistoryOf;
      AccountMatches(s, active, job, next, log, i);
    }

    /** One compare-and-swap to TIMEOUT. */
    method Swap(i: nat, expected: SlotState) returns (swapped: bool)
      requires Sound(None) && Booked() && Noted() && !live && i < 4 && (expected == Pending || expected == Running)
      modifies this`s
      ensures s == Swapped(old(s), i, expected, TimedOut) && (swapped <==> old(s).slots[i].state == expected)
      ensures Sound(None) && Booked() && Noted() && Kept(old(s), s)
    {
      hide Account, InOrder, UpTo, OpcodesMatch, HistoryOf, Live, Good, WorkOk, RunningOwned, AllCompleted, CurrentOk, BootOk;
      swapped := s.slots[i].state == expected;
      ghost var r := Swapped(s, i, expected, TimedOut);
      if swapped {
        ReplacedKeeps(s, r, i, None, None);
      }
      KeptBooks(s, r, active, job, next, log);
      s := Swapped(s, i, expected, TimedOut);
    }

    /** `finish_timed_out_ap_stream_slots`. */
    method FinishTimedOut()
      requires Sound(None) && Booked() && Noted() && (live ==> ActiveCount(active) == 0)
      modifies this`s, this`tick, this`active, this`completed, this`counterBase, this`history, this`log, this`marks
      ensures old(tick) <= tick
      ensures Sound(None) && Booked() && Noted() && ActiveCount(active) == 0
      ensures |old(log)| <= |log| && log[..|old(log)|] == old(log)
      ensures live ==> log == old(log) && s == old(s)
    {
      hide Inv, Account, InOrder, UpTo, OpcodesMatch, HistoryOf, Kept, Live, Good, Order.Earliest;
      var i := 0;
      while i < 4
        invariant old(tick) <= tick
        invariant 0 <= i <= 4 && Sound(None) && Booked() && Noted()
        invariant live ==> ActiveCount(active) == 0 && log == old(log) && s == old(s)
        invariant |old(log)| <= |log| && log[..|old(log)|] == old(log)
        invariant forall k :: 0 <= k < i ==> !active[k]
      {
        if active[i] {
          Expire(i);
          var _ := Finish(i, timeout);
        }
        i := i + 1;
      }
    }

    /** `ap_request_all_done`, once everything is harvested. */
    method AllSlotsDone() returns (b: bool)
      requires Sound(None) && Booked() && Noted() && ActiveCount(active) == 0
      modifies this`s, this`tick
      ensures old(tick) <= tick
      ensures Sound(None) && Booked() && Noted()
      ensures b <==> forall j :: 0 <= j < 4 ==> s.slots[j].state == Done
      ensures live && (Stopping(old(s)) || !old(s).boot.bootOk) ==> Stopping(s) || !s.boot.bootOk
    {
      hide Sound, Booked, Noted, ApMoved, Rely, Stopping, RunAp, ActiveCount;
      Shaped(None);
      var i := 0;
      while i < 4
        invariant old(tick) <= tick
        invariant 0 <= i <= 4 && Sound(None) && Booked() && Noted() && Shape(s)
        invariant forall j :: 0 <= j < i ==> s.slots[j].state == Done
        invariant live && (Stopping(old(s)) || !old(s).boot.bootOk) ==> Stopping(s) || !s.boot.bootOk
      {
        ghost var s1 := s;
        Drift();
        if live {
          ApMovedStops(s1, s);
        }
        if s.slots[i].state != Done {
          return false;
        }
        i := i + 1;
      }
      return true;
    }

    /** The state in which a stream is started. */
    ghost predicate Initial()
      reads this
    {
      && live && Sound(None) && active == NONE_ACTIVE && next == 0 && completed == 0 && log == []
      && s.nextGen == job.base && waitLoops == 0 && !stopped && !overtaken && tracked == countable
      && laps == [] && waits == [] && quiet == 0
      && (tracked ==>
            && Trackable()
            && !marks.closed && counterBase == marks.shadow && marks.top == handledBase && marks.counterTop == counterStart)
    }

    /** A stream starts on an AP that is in its claim loop, halted or faulted, and not busy with a request. */
    constructor (s0: Sys, plan: seq<Plan>, target: u32, timeout: u32,
                 script: nat -> seq<Choice>, race: nat -> seq<Choice>, delay: nat -> Step,
                 ghost pace: nat, ghost longest: nat)
      requires Idle(s0)
      ensures Initial() && job == Job(plan, target, s0.nextGen) && this.timeout == timeout
      ensures this.script == script && this.race == race && this.delay == delay
      ensures countable <==> s0.handled + |plan| < 0x8000_0000 && s0.counter + |plan| < 0x1_0000_0000 && OpcodesMatch(plan)
      ensures this.pace == pace && this.longest == longest && (apt <==> Feasible() && Accepting(s0.boot) && InClaimLoop(s0.pc))
      ensures s == s0 && handledBase == s0.handled && counterStart == s0.counter
    {
      hide Inv, Order.Ordered, Order.Sealed, HistoryOf, HandlerFor, Brisk, GosFrom;
      this.job := Job(plan, target, s0.nextGen);
      this.timeout := timeout;
      this.script, this.race, this.delay := script, race, delay;
      countable := s0.handled + |plan| < 0x8000_0000 && s0.counter + |plan| < 0x1_0000_0000 && OpcodesMatch(plan);
      this.pace, this.longest := pace, longest;
      apt := Accepting(s0.boot) && InClaimLoop(s0.pc)
             && (forall k :: 0 <= k < |plan| ==> HandlerFor(plan[k].service, plan[k].iface).Some?)
             && 1 <= longest && longest * ((pace + 1) * (|plan| + 1)) < timeout;
      freshTick, laps, waits, quiet := 0, [], [], 0;
      handledBase, counterStart := s0.handled, s0.counter;
      s, tick, active, next, completed := s0, 0, NONE_ACTIVE, 0, 0;
      counterBase, waitLoops, stopped, history := s0.counter, 0, false, HistoryOf([]);
      log, marks, live := [], Order.Marks(s0.counter, s0.handled, s0.handled, s0.counter, false), true;
      overtaken, tracked := false, countable;
      new;
      IdleIsGood(s0, tracked);
      if apt {
        HealthyStart(s0);
      }
    }

    /** Clears every slot before the first publication. */
    method ResetAll()
      requires Initial()
      modifies this`s, this`tick, this`history
      ensures old(tick) <= tick
      ensures Initial() && Booked() && Noted() && (Quiet() ==> SameAp(old(s), s))
    {
      hide Good, Inv, Elsewhere, OpcodesMatch, HistoryOf, Brisk, Feasible, GosFrom, Trackable, Account;
      var i := 0;
      ghost var edit: Option<nat> := None;
      while i < 4
        invariant old(tick) <= tick
        invariant 0 <= i <= 4 && Sound(edit) && s.nextGen == job.base && (Quiet() ==> SameAp(old(s), s))
        invariant forall k :: 0 <= k < i ==> s.slots[k].state == Empty || s.slots[k].state == Fault
      {
        ghost var s1 := s;
        ResetSlot(i, edit);
        StaysReset(s1, s, i);
        edit := Some(i);
        i := i + 1;
      }
      SettleEdit(s, active, edit, tracked, marks);
      history := HistoryOf([]);
      EmptyAccount(s, job);
    }

    /** The first publications, one for each slot. */
    method Fill()
      requires Initial() && Booked() && Noted()
      modifies this`s, this`tick, this`active, this`marks, this`next, this`freshTick
      ensures old(tick) <= tick
      ensures Valid() && next == (if |job.plan| < 4 then |job.plan| else 4) && log == old(log)
      ensures forall k :: 0 <= k < 4 ==> (active[k] <==> k < next)
      ensures Quiet() && Accepting(old(s).boot) ==> SameAp(old(s), s) && forall k :: 0 <= k < next ==> s.slots[k].state == Pending
    {
      hide Good, Inv, OpcodesMatch, HistoryOf, InOrder, UpTo, Account;
      var i := 0;
      NextInPlan();
      while i < 4 && next < |job.plan|
        invariant old(tick) <= tick
        invariant 0 <= i <= 4 && next == i <= |job.plan| && Sound(None) && Booked() && Noted()
        invariant forall k :: 0 <= k < 4 ==> (active[k] <==> k < i)
        invariant Quiet() && Accepting(old(s).boot) ==> SameAp(old(s), s) && forall k :: 0 <= k < i ==> s.slots[k].state == Pending
      {
        Publish(i);
        i := i + 1;
      }
    }

    lemma NextInPlan()
      requires Booked()
      ensures next <= |job.plan|
    {
    }

    /** What the accounts say once no slot is active. */
    lemma Finale()
      requires Booked() && ActiveCount(active) == 0
      ensures |active| == 4 && completed == |log| && history == HistoryOf(log)
      ensures overtaken ==> !InOrder(log) && |job.plan| > 1 && exists n: nat :: race(n) != []
      ensures |log| == next <= |job.plan| && LogAccount(job, next, log)
      ensures forall n: nat :: Logged(log, n) == One(job.base <= n < job.base + next)
      ensures (next == |job.plan| && forall j :: 0 <= j < 4 ==> s.slots[j].state == Done)
              <==> 4 <= |job.plan| && next == |job.plan| && AllDone(log)
    {
      hide OnePlace, SlotAccount, LogAccount, ActiveCount, Logged, AllDone, Inverted, InOrder, HistoryOf;
      DrainedAccount(s, active, job, next, log);
      if overtaken {
        InvertedAtEnd(s, active, log);
      }
    }

    /** The main loop; it ends against any behaviour of the AP.  Time is used up by waits alone, each after a
        full pass; a brisk AP is given the time it needs. */
    method Loop()
      requires Valid() && Followed() && Timed() && Paced()
      modifies this`s, this`tick, this`active, this`completed, this`counterBase, this`history, this`log, this`marks, this`next, this`stopped, this`waitLoops, this`tracked, this`overtaken, this`freshTick, this`laps, this`waits, this`quiet
      ensures Valid() && Followed() && Timed()
      ensures waitLoops == timeout || (ActiveCount(active) == 0 && (stopped || next == |job.plan|))
      ensures OnPace() ==> waitLoops < timeout && !stopped
    {
      hide Sound, Booked, Noted, Stopping, AllDone, ActiveCount, OpenCount, Timed, Paced;
      var over := false;
      while !over
        invariant Valid() && Followed() && Timed() && Paced()
        invariant over ==> waitLoops == timeout || (ActiveCount(active) == 0 && (stopped || next == |job.plan|))
        decreases !over, if stopped then 0 else 1, timeout - waitLoops, ActiveCount(active), OpenCount(s, active)
      {
        over := Turn();
      }
      if OnPace() {
        TimeEnough();
        if stopped {
          StoppedIsNotBrisk();
        }
      }
    }

    /** The waits of a brisk stream do not add up to the timeout. */
    lemma TimeEnough()
      requires Valid() && Timed() && Paced() && OnPace()
      ensures waitLoops < timeout
    {
      hide Brisk, Good, Inv, Stopping, AllDone, ActiveCount, Account, LapOk, Saturated;
      NextInPlan();
      Conserved();
      SaturatedBound(waits, timeout, longest);
      EnoughLaps(|waits|, pace, quiet, |log|, |job.plan|, longest);
    }

    /** From the end of the main loop to the end of the timeout tail. */
    method Drain() returns (ghost inTime: nat)
      requires Valid() && (waitLoops == timeout || (ActiveCount(active) == 0 && (stopped || next == |job.plan|)))
      modifies this`s, this`tick, this`active, this`completed, this`counterBase, this`history, this`log, this`marks, this`live
      ensures |old(log)| <= |log| && log[..|old(log)|] == old(log) && (live ==> log == old(log))
      ensures live <==> ActiveCount(old(active)) == 0
      ensures old(tick) <= tick
      ensures Sound(None) && Booked() && Noted() && ActiveCount(active) == 0
      ensures inTime <= |log| && (tracked ==> InOrder(log[..inTime]))
      ensures if live then inTime == |log| else waitLoops == timeout
      ensures live && next != |job.plan| && waitLoops != timeout ==> Stopping(s) || !s.boot.bootOk
    {
      hide Good, Inv, Account, InOrder, UpTo, OpcodesMatch, HistoryOf, AllDone, ActiveCount, Stopping;
      inTime := |log|;
      assert log[..inTime] == log;
      live := ActiveCount(active) == 0;
      FinishTimedOut();
    }

    /** `run_ap_request_stream`.  Whatever the AP does, the call returns; the published requests are a
        prefix of the plan, each harvested exactly once in a finished state; the result is 1 exactly if
        the plan has at least four entries and all of it was published and is DONE. */
    method Run() returns (ok: bool, ghost inTime: nat)
      requires Initial()
      modifies this
      ensures |active| == 4 && ActiveCount(active) == 0
      ensures |log| == next <= |job.plan|
      ensures forall n: nat :: Logged(log, n) == One(job.base <= n < job.base + next)
      ensures LogAccount(job, next, log)
      ensures completed == |log| && history == HistoryOf(log)
      ensures ok <==> 4 <= |job.plan| && next == |job.plan| && AllDone(log)
      ensures inTime <= |log| && (countable && !overtaken ==> InOrder(log[..inTime]))
      ensures overtaken ==> !InOrder(log)
      ensures |job.plan| <= 1 || (forall n: nat :: race(n) == []) ==> !overtaken
      ensures live ==> inTime == |log| && Idle(s)
      ensures !live ==> waitLoops == timeout
      ensures next == |job.plan| || waitLoops == timeout || Stopping(s) || !s.boot.bootOk
      ensures Timed()
      ensures OnPace() ==> next == |job.plan| && AllDone(log) && live && (4 <= |job.plan| ==> ok)
    {
      hide Sound, Booked, Noted, HistoryOf, LogAccount, AllDone, Idle, Kept, ActiveCount, Logged, Stopping, SameAp, LapOk;
      ResetAll();
      var halted := ShouldStop();
      if halted {
        StoppedIsNotBrisk();
        NoneActive();
        Finale();
        IdleAtEnd();
        return false, 0;
      }
      inTime := Serve();
      var all := AllSlotsDone();
      ok := completed == |job.plan| && all;
      Finale();
      if live {
        IdleAtEnd();
      }
    }

    /** From the first publication to the last harvest. */
    method Serve() returns (ghost inTime: nat)
      requires Initial() && Booked() && Noted()
      modifies this
      ensures Sound(None) && Booked() && Noted() && Followed() && |active| == 4 && ActiveCount(active) == 0
      ensures inTime <= |log| && (tracked ==> InOrder(log[..inTime]))
      ensures if live then inTime == |log| else waitLoops == timeout
      ensures live && next != |job.plan| && waitLoops != timeout ==> Stopping(s) || !s.boot.bootOk
      ensures Timed() && (OnPace() ==> next == |job.plan| && AllDone(log) && live)
    {
      hide Sound, Booked, Noted, InOrder, Stopping, AllDone, ActiveCount, LapOk;
      Fill();
      Shaped(None);
      Loop();
      ghost var was := log;
      inTime := Drain();
      Shaped(None);
      LapsLater(laps, was, log);
    }

    lemma IdleAtEnd()
      requires live && Sound(None) && ActiveCount(active) == 0
      ensures Idle(s) && |active| == 4
    {
      hide Inv, Good, ActiveCount;
      NoneActive();
      GoodInv(s, active, None, tracked, marks);
    }
  }

  lemma GoodInv(s: Sys, act: seq<bool>, edit: Option<nat>, tracked: bool, m: Order.Marks)
    requires Good(s, act, edit, tracked, m)
    ensures Inv(s, edit) && Live(s, act)
  {
  }

  lemma StoreElsewhere(s: Sys, m: Sys, i: nat, st: SlotState)
    requires Shape(s) && Shape(m) && i < 4 && Elsewhere(s, m, i)
    requires m.gens == s.gens[i := s.nextGen] && m.nextGen == s.nextGen + 1
    ensures KeptOthers(s, WithState(m, i, st), i)
  {
  }

  function Harvested(s: Sys, m: Order.Marks, i: nat): (r: Order.Marks)
    requires Shape(s) && i < 4
  {
    if s.slots[i].state == Done then Order.Advanced(s, m, i) else m.(closed := true)
  }

  /** Releasing a harvested slot advances the bookkeeping by exactly that slot. */
  lemma ReleaseNoted(s: Sys, act: seq<bool>, tracked: bool, m: Order.Marks, i: nat)
    requires Good(s, act, None, tracked, m) && i < 4 && act[i] && Finished(s.slots[i].state)
    requires tracked ==> !Overtakes(s, act, i)
    ensures Good(s, act[i := false], None, tracked, Harvested(s, m, i))
    ensures s.slots[i].state == Done ==> s.slots[i].reply.faultCode == 0
    ensures tracked && s.slots[i].state == Done ==>
              && !m.closed && m.last < s.slots[i].handled
              && (Order.IsCounter(s.slots[i].req) ==> s.slots[i].reply.result == m.shadow + 1)
  {
    hide Good, Order.Earliest, Order.IsCounter;
    GoodInv(s, act, None, tracked, m);
    if s.slots[i].state == Done {
      CompletedClean(s, None, i);
      if tracked {
        NotOvertaking(s, act, i);
      }
      ReleaseDoneGood(s, i, act, tracked, m);
    } else {
      if tracked {
        NotOvertaking(s, act, i);
      }
      ReleaseGood(s, i, act, tracked, m);
    }
  }

  /** The entry made for the foremost finished slot continues the order and carries the AP's result. */
  lemma RecordOrder(s: Sys, act: seq<bool>, job: Job, next: nat, log: seq<Entry>, m: Order.Marks, i: nat, base: u32, counter: u32)
    requires Shape(s) && Good(s, act, None, true, m) && Account(s, act, job, next, log) && OpcodesMatch(job.plan)
    requires i < 4 && act[i] && Finished(s.slots[i].state) && !Overtakes(s, act, i)
    requires InOrder(log) && UpTo(log, m.last) && base == m.shadow && (m.closed <==> !AllDone(log))
    requires counter == if CountsUp(s.slots[i].req) && s.slots[i].state == Done && s.slots[i].reply.faultCode == 0 then Bump(base) else base
    ensures var more := log + [Entry(s.gens[i], i, s.slots[i], counter)];
            var marks := Harvested(s, m, i);
            && InOrder(more) && UpTo(more, marks.last) && counter == marks.shadow && (marks.closed <==> !AllDone(more))
            && marks.top == m.top && marks.counterTop == m.counterTop
  {
    hide Good, Account, InOrder, UpTo, OpcodesMatch, Overtakes, Matches, CountsUp, Order.IsCounter, AllDone;
    var e := Entry(s.gens[i], i, s.slots[i], counter);
    ReleaseNoted(s, act, true, m, i);
    AccountMatches(s, act, job, next, log, i);
    CounterRequests(job, next, s.gens[i], s.slots[i].req);
    InOrderAppend(log, m.last, e);
    assert (log + [e])[..|log|] == log;
    AllDoneMore(log, log + [e]);
  }

  lemma BadOrDone(s: Sys, act: seq<bool>, i: nat)
    requires Live(s, act) && i < 4 && act[i] && Finished(s.slots[i].state)
    ensures s.slots[i].state == Done || Stopping(s) || !s.boot.bootOk
  {
    assert SlotLive(s, act, i);
  }

  lemma EarliestIsForemost(s: Sys, act: seq<bool>, i: nat)
    requires Shape(s) && |act| == 4 && i < 4 && Order.Earliest(s, act, i)
    ensures !Overtakes(s, act, i)
  {
  }

  /** Among finished slots the DONE ones come first. */
  lemma NoneReadyBehind(s: Sys, act: seq<bool>, m: Order.Marks, i: nat)
    requires Good(s, act, None, true, m) && i < 4 && act[i] && Finished(s.slots[i].state) && s.slots[i].state != Done
    requires !HasLower(s, act, i)
    ensures Order.NoReady(s, act)
  {
    hide HasLower, Good;
    GoodInv(s, act, None, true, m);
    if Order.Ready(s, act, 0) {
      ReadyIsLower(s, act, m, i, 0);
    }
    if Order.Ready(s, act, 1) {
      ReadyIsLower(s, act, m, i, 1);
    }
    if Order.Ready(s, act, 2) {
      ReadyIsLower(s, act, m, i, 2);
    }
    if Order.Ready(s, act, 3) {
      ReadyIsLower(s, act, m, i, 3);
    }
  }

  lemma ReadyIsLower(s: Sys, act: seq<bool>, m: Order.Marks, i: nat, k: nat)
    requires Good(s, act, None, true, m) && i < 4 && k < 4 && s.slots[i].state != Done && Order.Ready(s, act, k)
    ensures HasLower(s, act, i)
  {
    hide Inv, Live, Order.CountersUpTo, Order.IsCounter, Order.WorkOrdered, Order.CounterOk;
    assert Order.ReadyOk(s, act, m, k);
    assert Waiting(s, act, k);
  }

  /** What overtakes nothing still does not after further steps of the AP. */
  lemma ForemostStays(s: Sys, m: Sys, r: Sys, act: seq<bool>, i: nat)
    requires Shape(s) && |act| == 4 && i < 4 && Waiting(s, act, i) && !Overtakes(s, act, i)
    requires exists loops: u32 :: m == WithWait(s, i, loops)
    requires Live(m, act) && ApMoved(m, r) && Order.Later(m, r, act)
    requires s.slots[i].state == Done || Stopping(m) || !m.boot.bootOk
    ensures !Overtakes(r, act, i)
  {
    hide Live, ApMoved;
    if s.slots[i].state != Done {
      Order.SealedStays(m, r, act);
    }
  }

  lemma KeptState(s: Sys, r: Sys, i: nat)
    requires Kept(s, r) && i < 4 && Finished(s.slots[i].state)
    ensures Finished(r.slots[i].state) && (r.slots[i].state == Done <==> s.slots[i].state == Done)
    ensures s.slots[i].state == Done ==> SameResult(r.slots[i], s.slots[i])
  {
  }

  lemma UnfinishedBefore(s: Sys, r: Sys, act: seq<bool>, i: nat)
    requires Kept(s, r) && |act| == 4 && i < 4 && !Finished(r.slots[i].state)
    ensures !Waiting(s, act, i)
  {
  }

  /** A stopped turn that ends with a waiting slot has harvested one or seen a new finish. */
  lemma TurnProgress(s0: Sys, s1: Sys, s2: Sys, s3: Sys, act: seq<bool>)
    requires Kept(s0, s1) && Kept(s1, s2) && Kept(s2, s3) && |act| == 4
    requires forall k :: 0 <= k < 4 && Waiting(s1, act, k) ==> HasLower(s2, act, k)
    requires exists k :: 0 <= k < 4 && Waiting(s3, act, k)
    ensures OpenCount(s3, act) < OpenCount(s0, act)
  {
    hide KeptSlot, HasLower, OpenCount;
    OpenKept(s0, s1, act);
    OpenKept(s1, s2, act);
    OpenKept(s2, s3, act);
    var k :| 0 <= k < 4 && Waiting(s3, act, k);
    if Waiting(s2, act, k) {
      PassProgress(s1, s2, act, k);
    } else {
      NewFinish(s2, s3, act, k);
    }
  }

  /** Program counters from which the AP never claims again. */
  predicate LeftClaimLoop(pc: Pc) {
    pc.HaltedPc? || pc.Faulting? || pc.Dead? || (pc.Work? && (pc.w.Dropping? || pc.w.Refusing?))
  }

  lemma StoppedForGood(s: Sys, edit: Option<nat>)
    requires Inv(s, edit) && Stopping(s)
    ensures LeftClaimLoop(s.pc)
  {
  }

  /** Once a stream may store without compare-and-swap, the AP has left its claim loop whatever it does
      next: it runs no further request, and no request it has not completed becomes DONE. */
  lemma PlainStoresAreSafe(s: Sys, cs: seq<Choice>, edit: Option<nat>, act: seq<bool>, j: nat)
    requires Shape(s) && Inv(s, edit) && Live(s, act) && Stopping(s) && j < 4
    ensures var r := RunAp(s, cs);
            && LeftClaimLoop(r.pc)
            && (s.slots[j].state == Pending || Finished(s.slots[j].state) ==> r.slots[j] == s.slots[j])
            && (r.slots[j].state == Done <==> s.slots[j].state == Done)
  {
    hide Inv, Live, RunAp, ApMoved, Stopping;
    RunApLive(s, cs, edit, act);
    ApMovedStops(s, RunAp(s, cs));
    StoppedForGood(RunAp(s, cs), edit);
  }

  lemma FaultKept(s: Sys, i: nat)
    requires Shape(s) && i < 4 && s.slots[i].state != Done
    ensures Kept(s, WithState(WithFaultCode(s, i), i, Fault))
    ensures Stopping(s) ==> Stopping(WithState(WithFaultCode(s, i), i, Fault))
  {
  }

  lemma SkipKept(s: Sys, i: nat)
    requires Shape(s) && i < 4 && s.slots[i].state == Pending
    ensures Kept(s, WithState(s, i, Skipped))
    ensures Stopping(s) ==> Stopping(WithState(s, i, Skipped))
  {
  }

  lemma NeverPendingAgain(s: Sys, r: Sys, i: nat)
    requires Rely(s, r) && i < 4 && s.slots[i].state != Pending && s.slots[i].state != Empty
    ensures r.slots[i].state == Running || Finished(r.slots[i].state)
  {
  }

  lemma IdleIsGood(s: Sys, tracked: bool)
    requires Idle(s) && (tracked ==> s.handled < 0x8000_0000)
    ensures Good(s, NONE_ACTIVE, None, tracked, Order.Marks(s.counter, s.handled, s.handled, s.counter, false))
  {
  }

  lemma NoneActive()
    ensures ActiveCount(NONE_ACTIVE) == 0
    ensures forall act: seq<bool> :: |act| == 4 && ActiveCount(act) == 0 ==> act == NONE_ACTIVE
  {
  }

  /** After bring-up, with no request published yet, a stream can start; after a stream that did not run
      out of time, the next one can. */
  lemma BringUpIsIdle(w: Interleaving.World)
    requires Interleaving.Start(w) && (w.s.boot.bootOk ==> w.s.boot.online)
    ensures Idle(w.s)
  {
    Interleaving.StartOk(w);
  }

  lemma StaysReset(s: Sys, r: Sys, i: nat)
    requires Shape(s) && Shape(r) && i < 4 && Elsewhere(s, r, i)
    ensures forall k :: 0 <= k < 4 && k != i && (s.slots[k].state == Empty || s.slots[k].state == Fault) ==>
              r.slots[k].state == Empty || r.slots[k].state == Fault
  {
  }

  lemma SettleEdit(s: Sys, act: seq<bool>, edit: Option<nat>, tracked: bool, m: Order.Marks)
    requires Good(s, act, edit, tracked, m)
    ensures Good(s, act, None, tracked, m) && Inv(s, None)
  {
  }

  lemma EmptyAccount(s: Sys, job: Job)
    requires Shape(s) && s.nextGen == job.base
    requires forall k :: 0 <= k < 4 ==> s.slots[k].state == Empty || s.slots[k].state == Fault
    ensures Account(s, NONE_ACTIVE, job, 0, [])
  {
  }

  lemma WaitingSoon(s0: Sys, s1: Sys, s2: Sys, act: seq<bool>)
    requires Kept(s0, s1) && Kept(s1, s2) && |act| == 4
    requires (exists k :: 0 <= k < 4 && Waiting(s1, act, k)) ==> OpenCount(s1, act) < OpenCount(s0, act)
    requires exists k :: 0 <= k < 4 && Waiting(s2, act, k)
    ensures OpenCount(s2, act) < OpenCount(s0, act)
  {
    hide KeptSlot, OpenCount;
    OpenKept(s0, s1, act);
    OpenKept(s1, s2, act);
    var k :| 0 <= k < 4 && Waiting(s2, act, k);
    if !Waiting(s1, act, k) {
      NewFinish(s1, s2, act, k);
    }
  }

  /** The BSP's writes to a free slot touch nothing else. */
  lemma EditWrites(s: Sys, i: nat, plan: Plan, target: u32)
    requires Shape(s) && i < 4
    ensures Shape(WithState(s, i, Empty)) && OnlySlot(s, WithState(s, i, Empty), i)
    ensures Shape(WithSlot(s, i, Cleared(s.slots[i]))) && OnlySlot(s, WithSlot(s, i, Cleared(s.slots[i])), i)
    ensures Shape(WithCommitted(s, i, EMPTY_OUTBOX)) && OnlySlot(s, WithCommitted(s, i, EMPTY_OUTBOX), i)
    ensures Shape(WithPlan(s, i, plan, target)) && OnlySlot(s, WithPlan(s, i, plan, target), i)
  {
  }

  lemma EditState(s: Sys, i: nat)
    requires Inv(s, Some(i))
    ensures i < 4 && (s.slots[i].state == Empty || s.slots[i].state == Fault)
  {
  }

  /** The final store of a publication, in the books and in the shared memory. */
  lemma StorePublished(s0: Sys, s: Sys, i: nat, st: SlotState, act: seq<bool>, job: Job, next: nat, log: seq<Entry>,
                       tracked: bool, m: Order.Marks)
    requires Good(s, act, Some(i), tracked, m) && i < 4 && !act[i]
    requires Account(s0, act, job, next, log) && AllDone(log) && next < |job.plan| && (4 <= next || i == next)
    requires Elsewhere(s0, s, i) && s.gens == s0.gens[i := s0.nextGen] && s.nextGen == s0.nextGen + 1
    requires s.slots[i].req == RequestFor(job.plan[next], job.target)
    requires st == Pending || st == Skipped || st == Fault
    requires st == Pending ==> s.boot.bootOk
    requires st == Fault ==> s.boot.apState == Faulted
    requires st == Skipped ==> !s.boot.bootOk || s.boot.apState == HaltedState || s.boot.apState == Faulted
    requires tracked ==> m.top + 1 < 0x8000_0000 && m.counterTop + 1 < 0x1_0000_0000 && !m.closed
    ensures var r := WithState(s, i, st);
            && Shape(r) && Good(r, act[i := true], None, tracked, Grown(m)) && Inv(r, None)
            && Account(r, act[i := true], job, next + 1, log)
  {
    hide SlotAccount, OnePlace, LogAccount, ActiveCount, AllDone, Elsewhere, KeptOthers, Live, Order.Ordered, WorkOk, RunningOwned, AllCompleted, CurrentOk, BootOk;
    PublishGood(s, i, st, act, tracked, m);
    GoodInv(WithState(s, i, st), act[i := true], None, tracked, Grown(m));
    StoreElsewhere(s0, s, i, st);
    PublishAccount(s0, WithState(s, i, st), act, job, next, log, i);
  }

  lemma SameWait(s: Sys, r: Sys, i: nat)
    requires Rely(s, r) && i < 4
    ensures r.slots[i].waitLoops == s.slots[i].waitLoops
  {
  }

  /** What stopping leaves of an active slot. */
  predicate Stopped(s: Sys, r: Sys, i: nat)
    requires Shape(r) && i < 4
  {
    && r.slots[i].state != Pending
    && (s.boot.apState == Faulted ==> r.boot.apState == Faulted && Finished(r.slots[i].state))
  }

  lemma StaysStopped(s: Sys, m: Sys, r: Sys, i: nat)
    requires Shape(m) && i < 4 && Kept(m, r) && (s.boot.apState == Faulted ==> r.boot.apState == Faulted)
    ensures Stopped(s, m, i) ==> Stopped(s, r, i)
  {
  }

  lemma StoppedSince(s: Sys, m: Sys, r: Sys, i: nat)
    requires Shape(r) && i < 4 && (s.boot.apState == Faulted ==> m.boot.apState == Faulted) && Stopped(m, r, i)
    ensures Stopped(s, r, i)
  {
  }

  lemma NoMorePending(s: Sys, r: Sys, i: nat)
    requires Kept(s, r) && i < 4 && s.slots[i].state != Pending
    ensures r.slots[i].state != Pending
  {
  }

  // ----- overtaking

  /** In the order of harvests: DONE before anything else, and DONE requests as they were handled. */
  predicate Precedes(a: Slot, b: Slot) {
    a.state == Done && (b.state != Done || a.handled < b.handled)
  }

  /** Slot `i` is finished, and another active slot should be harvested before it. */
  predicate Overtakes(s: Sys, act: seq<bool>, i: nat)
    requires Shape(s) && |act| == 4 && i < 4
  {
    Waiting(s, act, i) && WaitingBefore(s, act, s.slots[i])
  }

  /** A harvested request should have been preceded by one that is harvested later or still waiting. */
  predicate Inverted(s: Sys, act: seq<bool>, log: seq<Entry>)
    requires Shape(s) && |act| == 4
  {
    exists p :: 0 <= p < |log| && (FollowedByEarlier(log, p) || WaitingBefore(s, act, log[p].slot))
  }

  predicate FollowedByEarlier(log: seq<Entry>, p: nat)
    requires p < |log|
  {
    exists q :: p < q < |log| && Precedes(log[q].slot, log[p].slot)
  }

  predicate WaitingBefore(s: Sys, act: seq<bool>, slot: Slot)
    requires Shape(s) && |act| == 4
  {
    exists k :: 0 <= k < 4 && Order.Ready(s, act, k) && Precedes(s.slots[k], slot)
  }

  lemma AllDoneMore(was: seq<Entry>, log: seq<Entry>)
    requires |log| == |was| + 1 && log[..|was|] == was
    ensures AllDone(log) <==> AllDone(was) && log[|was|].slot.state == Done
  {
    assert forall k :: 0 <= k < |was| ==> log[k] == was[k];
  }

  lemma KeptBoot(s: Sys, r: Sys)
    requires Kept(s, r)
    ensures r.boot.bootOk == s.boot.bootOk
  {
  }

  lemma NotOvertaking(s: Sys, act: seq<bool>, i: nat)
    requires Shape(s) && |act| == 4 && i < 4 && Waiting(s, act, i) && !Overtakes(s, act, i)
    ensures s.slots[i].state == Done ==> Order.Earliest(s, act, i)
    ensures s.slots[i].state != Done ==> Order.NoReady(s, act)
  {
  }

  lemma KeptReady(s: Sys, r: Sys, act: seq<bool>, k: nat)
    requires Kept(s, r) && |act| == 4 && k < 4 && Order.Ready(s, act, k)
    ensures Order.Ready(r, act, k) && r.slots[k].handled == s.slots[k].handled
  {
  }

  lemma KeptInverted(s: Sys, r: Sys, act: seq<bool>, log: seq<Entry>)
    requires Kept(s, r) && |act| == 4 && Inverted(s, act, log)
    ensures Inverted(r, act, log)
  {
    hide KeptSlot, FollowedByEarlier;
    var p :| 0 <= p < |log| && (FollowedByEarlier(log, p) || WaitingBefore(s, act, log[p].slot));
    if WaitingBefore(s, act, log[p].slot) {
      var k :| 0 <= k < 4 && Order.Ready(s, act, k) && Precedes(s.slots[k], log[p].slot);
      KeptReady(s, r, act, k);
      assert WaitingBefore(r, act, log[p].slot);
    }
  }

  /** What everything but publishing and harvesting keeps of the books. */
  lemma KeptBooks(s: Sys, r: Sys, act: seq<bool>, job: Job, next: nat, log: seq<Entry>)
    requires Account(s, act, job, next, log) && Kept(s, r)
    ensures Account(r, act, job, next, log) && (Inverted(s, act, log) ==> Inverted(r, act, log))
  {
    hide SlotAccount, OnePlace, LogAccount, ActiveCount, KeptSlot, Inverted;
    KeptAccount(s, r, act, job, next, log);
    if Inverted(s, act, log) {
      KeptInverted(s, r, act, log);
    }
  }

  lemma HarvestInverted(s: Sys, act: seq<bool>, log: seq<Entry>, i: nat, e: Entry)
    requires Shape(s) && |act| == 4 && i < 4 && e.slot == s.slots[i]
    ensures Inverted(s, act, log) ==> Inverted(s, act[i := false], log + [e])
  {
    if Inverted(s, act, log) {
      var p :| 0 <= p < |log| && (FollowedByEarlier(log, p) || WaitingBefore(s, act, log[p].slot));
      var more := log + [e];
      assert more[p] == log[p];
      if FollowedByEarlier(log, p) {
        var q :| p < q < |log| && Precedes(log[q].slot, log[p].slot);
        assert more[q] == log[q];
        assert FollowedByEarlier(more, p);
      } else {
        var k :| 0 <= k < 4 && Order.Ready(s, act, k) && Precedes(s.slots[k], log[p].slot);
        if k == i {
          assert more[|log|] == e;
          assert FollowedByEarlier(more, p);
        } else {
          assert Order.Ready(s, act[i := false], k);
          assert WaitingBefore(s, act[i := false], more[p].slot);
        }
      }
    }
  }

  lemma ElsewhereReady(s: Sys, r: Sys, act: seq<bool>, act': seq<bool>, i: nat, k: nat)
    requires Shape(s) && Shape(r) && |act| == 4 && |act'| == 4 && i < 4 && k < 4 && k != i
    requires Elsewhere(s, r, i) && act'[k] == act[k] && Order.Ready(s, act, k)
    ensures Order.Ready(r, act', k) && r.slots[k].handled == s.slots[k].handled
  {
  }

  lemma PublishInverted(s: Sys, r: Sys, act: seq<bool>, log: seq<Entry>, i: nat)
    requires Shape(s) && Shape(r) && |act| == 4 && i < 4 && !act[i] && Elsewhere(s, r, i) && Inverted(s, act, log)
    ensures Inverted(r, act[i := true], log)
  {
    hide Elsewhere, FollowedByEarlier;
    var p :| 0 <= p < |log| && (FollowedByEarlier(log, p) || WaitingBefore(s, act, log[p].slot));
    if WaitingBefore(s, act, log[p].slot) {
      var k :| 0 <= k < 4 && Order.Ready(s, act, k) && Precedes(s.slots[k], log[p].slot);
      ElsewhereReady(s, r, act, act[i := true], i, k);
      assert WaitingBefore(r, act[i := true], log[p].slot);
    }
  }

  /** Harvesting a slot that overtakes another leaves the log inverted. */
  lemma OvertakingInverts(s: Sys, r: Sys, act: seq<bool>, act': seq<bool>, log: seq<Entry>, i: nat)
    requires Shape(s) && Shape(r) && |act| == 4 && |act'| == 4 && i < 4 && Overtakes(s, act, i)
    requires Elsewhere(s, r, i) && act' == act[i := act'[i]]
    requires |log| > 0 && SameRank(log[|log| - 1].slot, s.slots[i])
    ensures Inverted(r, act', log)
  {
    hide Elsewhere;
    var k :| 0 <= k < 4 && Order.Ready(s, act, k) && Precedes(s.slots[k], s.slots[i]);
    ElsewhereReady(s, r, act, act', i, k);
    assert WaitingBefore(r, act', log[|log| - 1].slot);
  }

  /** Both DONE with the same count, or neither DONE. */
  predicate SameRank(a: Slot, b: Slot) {
    (a.state == Done <==> b.state == Done) && (a.state == Done ==> a.handled == b.handled)
  }

  lemma InvertedAtEnd(s: Sys, act: seq<bool>, log: seq<Entry>)
    requires Shape(s) && |act| == 4 && ActiveCount(act) == 0 && Inverted(s, act, log)
    ensures !InOrder(log)
  {
    var p :| 0 <= p < |log| && (FollowedByEarlier(log, p) || WaitingBefore(s, act, log[p].slot));
    var q :| p < q < |log| && Precedes(log[q].slot, log[p].slot);
  }

  // ----- what a quiet AP leaves alone

  predicate SameAp(s: Sys, r: Sys) {
    r.pc == s.pc && r.boot == s.boot && r.handled == s.handled && r.counter == s.counter && r.current == s.current
  }

  predicate Untouched(s: Sys, r: Sys, i: nat) {
    && SameAp(s, r) && |s.slots| == |r.slots| == 4
    && forall k :: 0 <= k < 4 && k != i ==> r.slots[k] == s.slots[k]
  }

  lemma UntouchedTransitive(a: Sys, b: Sys, c: Sys, i: nat)
    requires Untouched(a, b, i) && Untouched(b, c, i)
    ensures Untouched(a, c, i)
  {
  }

  lemma UntouchedReflexive(s: Sys, i: nat)
    requires Shape(s)
    ensures Untouched(s, s, i)
  {
  }

  lemma StoreElsewhereOnly(s: Sys, m: Sys, i: nat, st: SlotState)
    requires Shape(s) && Shape(m) && i < 4 && Elsewhere(s, m, i)
    ensures Elsewhere(s, WithState(m, i, st), i)
    ensures WithState(m, i, st).slots[i] == m.slots[i].(state := st) && WithState(m, i, st).boot == m.boot
    ensures Untouched(s, m, i) ==> Untouched(s, WithState(m, i, st), i)
  {
  }

  // ----- time

  /** One pass over the slots that was followed by a wait: the states and active flags in which the four
      slots were left, and the part of the log it wrote. */
  datatype Lap = Lap(marks: seq<Sys>, acts: seq<seq<bool>>, from: nat, to: nat)

  /** Every slot was left unfinished or behind an earlier finished slot, unless the pass harvested it. */
  predicate LeftBehind(m: Sys, act: seq<bool>, k: nat, log: seq<Entry>, from: nat, to: nat)
    requires k < 4 && from <= to <= |log|
  {
    && Shape(m) && |act| == 4
    && (Waiting(m, act, k) ==> HasLower(m, act, k) || exists p :: from <= p < to && log[p].idx == k)
  }

  predicate LapOk(l: Lap, log: seq<Entry>) {
    && |l.marks| == 4 && |l.acts| == 4 && l.from <= l.to <= |log|
    && forall k :: 0 <= k < 4 ==> LeftBehind(l.marks[k], l.acts[k], k, log, l.from, l.to)
  }

  lemma OnlySlotBeside(s: Sys, r: Sys, i: nat)
    requires Shape(s) && Shape(r) && i < 4 && OnlySlot(s, r, i)
    ensures Beside(s, r, i)
  {
  }

  /** On a healthy AP a publication becomes pending. */
  lemma PublishBrisk(s: Sys, i: nat, st: SlotState, act: seq<bool>, spent: nat, plan: Plan, target: u32)
    requires Brisk(s, act, spent) && i < 4 && !act[i] && s.slots[i].req == RequestFor(plan, target)
    requires HandlerFor(plan.service, plan.iface).Some?
    requires st == Pending || st == Skipped || st == Fault
    requires st == Fault ==> s.boot.apState == Faulted
    requires st == Skipped ==> !s.boot.bootOk || s.boot.apState == HaltedState || s.boot.apState == Faulted
    ensures Shape(WithState(s, i, st)) && Brisk(WithState(s, i, st), act[i := true], 0)
  {
    hide HandlerFor, Prompt;
    BriskPublish(s, WithState(s, i, st), act, spent, i);
  }

  lemma LeftBehindLater(m: Sys, act: seq<bool>, k: nat, was: seq<Entry>, log: seq<Entry>, from: nat, to: nat, from': nat, to': nat)
    requires k < 4 && from <= to <= |was| <= |log| && log[..|was|] == was && from' <= from && to <= to' <= |log|
    requires LeftBehind(m, act, k, was, from, to)
    ensures LeftBehind(m, act, k, log, from', to')
  {
    hide HasLower;
    if Waiting(m, act, k) && !HasLower(m, act, k) {
      var p :| from <= p < to && was[p].idx == k;
      assert log[..|was|][p] == log[p];
    }
  }

  lemma LapsLater(laps: seq<Lap>, was: seq<Entry>, log: seq<Entry>)
    requires |was| <= |log| && log[..|was|] == was && forall k :: 0 <= k < |laps| ==> LapOk(laps[k], was)
    ensures forall k :: 0 <= k < |laps| ==> LapOk(laps[k], log)
  {
    hide LeftBehind;
    forall i | 0 <= i < |laps|
      ensures LapOk(laps[i], log)
    {
      var l := laps[i];
      forall k | 0 <= k < 4
        ensures LeftBehind(l.marks[k], l.acts[k], k, log, l.from, l.to)
      {
        LeftBehindLater(l.marks[k], l.acts[k], k, was, log, l.from, l.to, l.from, l.to);
      }
    }
  }

  /** With nothing open, an active slot waits to be harvested. */
  lemma ActiveWaits(s: Sys, r: Sys, act: seq<bool>)
    requires Kept(s, r) && |act| == 4 && OpenCount(s, act) == 0 && ActiveCount(act) > 0
    ensures exists k :: 0 <= k < 4 && Waiting(r, act, k)
  {
    hide Kept, SlotOrder;
    var k := if act[0] then 0 else if act[1] then 1 else if act[2] then 2 else 3;
    assert Shape(s) && Shape(r) by { KeptShapes(s, r); }
    KeptWaiting(s, r, act, k);
  }

  lemma KeptShapes(s: Sys, r: Sys)
    requires Kept(s, r)
    ensures Shape(s) && Shape(r)
  {
  }

  lemma GosNow(script: nat -> seq<Choice>, n: nat)
    ensures GosFrom(script, n, n) == 0
  {
  }

  lemma AtLeastOne(a: nat, b: nat)
    requires b >= 1
    ensures a * b >= a
  {
  }

  lemma EnoughLaps(waits: nat, pace: nat, quiet: nat, done: nat, all: nat, longest: nat)
    requires waits <= (pace + 1) * done + quiet && quiet <= pace && done <= all
    ensures longest * waits <= longest * ((pace + 1) * (all + 1))
  {
    assert (pace + 1) * (all + 1) == (pace + 1) * done + (pace + 1) * (all - done) + (pace + 1);
    assert waits <= (pace + 1) * (all + 1);
    Scales(longest, waits, (pace + 1) * (all + 1));
  }
}
