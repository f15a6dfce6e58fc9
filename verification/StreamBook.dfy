/** The BSP's accounts of a running stream: which publications are in slots and which were harvested. */
module StreamBook {
  import opened Words
  import opened ApRequest
  import opened Protocol
  import opened StreamLive

  /** A harvested request: publication number, slot, the recorded copy and the recorded counter value. */
  datatype Entry = Entry(gen: nat, idx: nat, slot: Slot, counter: u32)

  function ActiveCount(act: seq<bool>): (n: nat)
    requires |act| == 4
  {
    One(act[0]) + One(act[1]) + One(act[2]) + One(act[3])
  }

  /** Active slots that have not finished. */
  function OpenCount(s: Sys, act: seq<bool>): (n: nat)
    requires Shape(s) && |act| == 4
  {
    One(act[0] && !Finished(s.slots[0].state)) + One(act[1] && !Finished(s.slots[1].state)) +
    One(act[2] && !Finished(s.slots[2].state)) + One(act[3] && !Finished(s.slots[3].state))
  }

  /** How many active slots hold publication `n`. */
  function Here(gens: seq<nat>, act: seq<bool>, n: nat): (c: nat)
    requires |gens| == 4 && |act| == 4
  {
    One(act[0] && gens[0] == n) + One(act[1] && gens[1] == n) + One(act[2] && gens[2] == n) + One(act[3] && gens[3] == n)
  }

  /** How many log entries record publication `n`. */
  function Logged(log: seq<Entry>, n: nat): (c: nat) {
    if log == [] then 0 else Logged(log[..|log| - 1], n) + One(log[|log| - 1].gen == n)
  }

  /** Each of the first `next` publications is in exactly one place, and nothing else is anywhere. */
  ghost predicate OnePlace(gens: seq<nat>, act: seq<bool>, log: seq<Entry>, base: nat, next: nat)
    requires |gens| == 4 && |act| == 4
  {
    forall n: nat :: Logged(log, n) + Here(gens, act, n) == One(base <= n < base + next)
  }

  /** What the stream was asked to do. */
  datatype Job = Job(plan: seq<Plan>, target: u32, base: nat)

  predicate Matches(job: Job, next: nat, gen: nat, req: Request) {
    && job.base <= gen < job.base + next <= job.base + |job.plan|
    && req == RequestFor(job.plan[gen - job.base], job.target)
  }

  predicate BadAt(log: seq<Entry>, j: nat) {
    exists k :: 0 <= k < |log| && log[k].idx == j && log[k].slot.state != Done
  }

  predicate AllDone(log: seq<Entry>) {
    forall k :: 0 <= k < |log| ==> log[k].slot.state == Done
  }

  predicate SlotAccount(s: Sys, act: seq<bool>, job: Job, next: nat, log: seq<Entry>, j: nat)
    requires Shape(s) && |act| == 4 && j < 4
  {
    && (act[j] ==> j < next && s.slots[j].state != Empty && Matches(job, next, s.gens[j], s.slots[j].req) && !BadAt(log, j))
    && (j < next && !act[j] ==> Finished(s.slots[j].state) && (s.slots[j].state != Done <==> BadAt(log, j)))
    && (next <= j ==> s.slots[j].state == Empty || s.slots[j].state == Fault)
  }

  predicate LogAccount(job: Job, next: nat, log: seq<Entry>) {
    forall k :: 0 <= k < |log| ==>
      log[k].idx < 4 && log[k].idx < next && Finished(log[k].slot.state) && Matches(job, next, log[k].gen, log[k].slot.req)
  }

  /** Every published request is in exactly one place: an active slot or the log. */
  ghost predicate Account(s: Sys, act: seq<bool>, job: Job, next: nat, log: seq<Entry>) {
    && Shape(s) && |act| == 4
    && next <= |job.plan| && s.nextGen == job.base + next
    && next == |log| + ActiveCount(act)
    && OnePlace(s.gens, act, log, job.base, next)
    && LogAccount(job, next, log)
    && SlotAccount(s, act, job, next, log, 0) && SlotAccount(s, act, job, next, log, 1)
    && SlotAccount(s, act, job, next, log, 2) && SlotAccount(s, act, job, next, log, 3)
  }

  /** Same result, whatever the recorded waiting time. */
  predicate SameResult(a: Slot, b: Slot) {
    a.(waitLoops := 0) == b.(waitLoops := 0)
  }

  /** What everything except publishing keeps of slot `j`. */
  predicate KeptSlot(s: Sys, r: Sys, j: nat)
    requires Shape(s) && Shape(r) && j < 4
  {
    && r.slots[j].req == s.slots[j].req
    && (s.slots[j].state == Done ==> SameResult(r.slots[j], s.slots[j]))
    && (Finished(s.slots[j].state) && s.slots[j].state != Done ==> Finished(r.slots[j].state) && r.slots[j].state != Done)
    && (s.slots[j].state == Empty ==> r.slots[j].state == Empty || r.slots[j].state == Fault)
    && (s.slots[j].state != Empty ==> r.slots[j].state != Empty)
    && (s.slots[j].state != Pending ==> r.slots[j].state != Pending)
    && (s.slots[j].state == Fault ==> r.slots[j].state == Fault)
  }

  predicate Kept(s: Sys, r: Sys) {
    && Shape(s) && Shape(r)
    && r.gens == s.gens && r.nextGen == s.nextGen && r.boot.bootOk == s.boot.bootOk
    && KeptSlot(s, r, 0) && KeptSlot(s, r, 1) && KeptSlot(s, r, 2) && KeptSlot(s, r, 3)
  }

  lemma KeptTransitive(a: Sys, b: Sys, c: Sys)
    requires Kept(a, b) && Kept(b, c)
    ensures Kept(a, c)
  {
  }

  lemma KeptReflexive(s: Sys)
    requires Shape(s)
    ensures Kept(s, s)
  {
  }

  lemma RelyKept(s: Sys, r: Sys)
    requires Rely(s, r)
    ensures Kept(s, r)
  {
  }

  lemma KeptSlotAccount(s: Sys, r: Sys, act: seq<bool>, job: Job, next: nat, log: seq<Entry>, j: nat)
    requires Shape(s) && Shape(r) && |act| == 4 && j < 4 && r.gens == s.gens
    requires KeptSlot(s, r, j) && SlotAccount(s, act, job, next, log, j)
    ensures SlotAccount(r, act, job, next, log, j)
    ensures One(act[j] && !Finished(r.slots[j].state)) <= One(act[j] && !Finished(s.slots[j].state))
  {
    hide BadAt, Matches;
  }

  lemma KeptAccount(s: Sys, r: Sys, act: seq<bool>, job: Job, next: nat, log: seq<Entry>)
    requires Account(s, act, job, next, log) && Kept(s, r)
    ensures Account(r, act, job, next, log)
    ensures OpenCount(r, act) <= OpenCount(s, act)
  {
    hide LogAccount, OnePlace, SlotAccount, KeptSlot, ActiveCount;
    KeptSlotAccount(s, r, act, job, next, log, 0);
    KeptSlotAccount(s, r, act, job, next, log, 1);
    KeptSlotAccount(s, r, act, job, next, log, 2);
    KeptSlotAccount(s, r, act, job, next, log, 3);
  }

  /** Slots in a finished state stay so; a new one lowers the open count. */
  lemma NewFinish(s: Sys, r: Sys, act: seq<bool>, j: nat)
    requires Kept(s, r) && |act| == 4 && j < 4 && act[j] && !Finished(s.slots[j].state) && Finished(r.slots[j].state)
    ensures OpenCount(r, act) < OpenCount(s, act)
  {
  }

  lemma LoggedAppend(log: seq<Entry>, e: Entry, n: nat)
    ensures Logged(log + [e], n) == Logged(log, n) + One(e.gen == n)
  {
    assert (log + [e])[..|log|] == log;
  }

  lemma BadAtAppend(log: seq<Entry>, e: Entry, j: nat)
    ensures BadAt(log + [e], j) <==> BadAt(log, j) || (e.idx == j && e.slot.state != Done)
  {
    var more := log + [e];
    if BadAt(log, j) {
      var k :| 0 <= k < |log| && log[k].idx == j && log[k].slot.state != Done;
      assert more[k] == log[k];
    }
    if e.idx == j && e.slot.state != Done {
      assert more[|log|] == e;
    }
  }

  lemma HarvestPlace(gens: seq<nat>, act: seq<bool>, log: seq<Entry>, base: nat, next: nat, j: nat, e: Entry)
    requires |gens| == 4 && |act| == 4 && j < 4 && act[j] && e.gen == gens[j] && OnePlace(gens, act, log, base, next)
    ensures OnePlace(gens, act[j := false], log + [e], base, next)
    ensures ActiveCount(act[j := false]) == ActiveCount(act) - 1
  {
    forall n: nat ensures Logged(log + [e], n) + Here(gens, act[j := false], n) == One(base <= n < base + next) {
      LoggedAppend(log, e, n);
      assert Logged(log, n) + Here(gens, act, n) == One(base <= n < base + next);
    }
  }

  lemma HarvestSlot(s: Sys, act: seq<bool>, job: Job, next: nat, log: seq<Entry>, j: nat, e: Entry, k: nat)
    requires Shape(s) && |act| == 4 && j < 4 && k < 4 && act[j] && Finished(s.slots[j].state)
    requires e.idx == j && e.slot == s.slots[j]
    requires SlotAccount(s, act, job, next, log, k)
    ensures SlotAccount(s, act[j := false], job, next, log + [e], k)
  {
    hide Matches, BadAt;
    BadAtAppend(log, e, k);
  }

  /** Harvesting a finished active slot moves its publication from the slots to the log. */
  lemma HarvestAccount(s: Sys, act: seq<bool>, job: Job, next: nat, log: seq<Entry>, j: nat, counter: u32)
    requires Account(s, act, job, next, log) && j < 4 && act[j] && Finished(s.slots[j].state)
    ensures Account(s, act[j := false], job, next, log + [Entry(s.gens[j], j, s.slots[j], counter)])
    ensures ActiveCount(act[j := false]) == ActiveCount(act) - 1
  {
    hide OnePlace, SlotAccount, ActiveCount, LogAccount;
    var e := Entry(s.gens[j], j, s.slots[j], counter);
    HarvestPlace(s.gens, act, log, job.base, next, j, e);
    HarvestLog(s, act, job, next, log, j, e);
    HarvestSlot(s, act, job, next, log, j, e, 0);
    HarvestSlot(s, act, job, next, log, j, e, 1);
    HarvestSlot(s, act, job, next, log, j, e, 2);
    HarvestSlot(s, act, job, next, log, j, e, 3);
  }

  lemma HarvestLog(s: Sys, act: seq<bool>, job: Job, next: nat, log: seq<Entry>, j: nat, e: Entry)
    requires Account(s, act, job, next, log) && j < 4 && act[j] && Finished(s.slots[j].state)
    requires e.gen == s.gens[j] && e.idx == j && e.slot == s.slots[j]
    ensures LogAccount(job, next, log + [e])
  {
    hide Matches, OnePlace, BadAt;
    assert SlotAccount(s, act, job, next, log, j);
  }

  /** Publishing the next plan entry in a free slot whose history so far is all DONE. */
  lemma PublishSlot(s: Sys, r: Sys, act: seq<bool>, job: Job, next: nat, log: seq<Entry>, i: nat, k: nat)
    requires Shape(s) && Shape(r) && |act| == 4 && i < 4 && k < 4 && !act[i] && next < |job.plan|
    requires 4 <= next || i == next
    requires !BadAt(log, i)
    requires k != i ==> r.gens[k] == s.gens[k] && KeptSlot(s, r, k)
    requires k == i ==> r.gens[i] == job.base + next && r.slots[i].req == RequestFor(job.plan[next], job.target) && r.slots[i].state != Empty
    requires SlotAccount(s, act, job, next, log, k)
    ensures SlotAccount(r, act[i := true], job, next + 1, log, k)
  {
    hide BadAt;
  }

  lemma PublishPlace(gens: seq<nat>, act: seq<bool>, log: seq<Entry>, base: nat, next: nat, i: nat)
    requires |gens| == 4 && |act| == 4 && i < 4 && !act[i] && OnePlace(gens, act, log, base, next)
    ensures OnePlace(gens[i := base + next], act[i := true], log, base, next + 1)
    ensures ActiveCount(act[i := true]) == ActiveCount(act) + 1
  {
    forall n: nat
      ensures Logged(log, n) + Here(gens[i := base + next], act[i := true], n) == One(base <= n < base + next + 1)
    {
      assert Logged(log, n) + Here(gens, act, n) == One(base <= n < base + next);
    }
  }

  predicate KeptOthers(s: Sys, r: Sys, i: nat)
    requires Shape(s) && Shape(r) && i < 4
  {
    && r.gens[i] == s.nextGen && r.gens == s.gens[i := s.nextGen] && r.nextGen == s.nextGen + 1
    && r.boot.bootOk == s.boot.bootOk
    && (i != 0 ==> KeptSlot(s, r, 0)) && (i != 1 ==> KeptSlot(s, r, 1))
    && (i != 2 ==> KeptSlot(s, r, 2)) && (i != 3 ==> KeptSlot(s, r, 3))
  }

  lemma PublishAccount(s: Sys, r: Sys, act: seq<bool>, job: Job, next: nat, log: seq<Entry>, i: nat)
    requires Account(s, act, job, next, log) && Shape(r) && i < 4 && !act[i] && next < |job.plan|
    requires (4 <= next || i == next) && AllDone(log) && KeptOthers(s, r, i)
    requires r.slots[i].req == RequestFor(job.plan[next], job.target) && r.slots[i].state != Empty
    ensures Account(r, act[i := true], job, next + 1, log)
  {
    hide OnePlace, SlotAccount, ActiveCount, LogAccount, KeptSlot;
    PublishPlace(s.gens, act, log, job.base, next, i);
    PublishLog(job, next, log);
    PublishSlot(s, r, act, job, next, log, i, 0);
    PublishSlot(s, r, act, job, next, log, i, 1);
    PublishSlot(s, r, act, job, next, log, i, 2);
    PublishSlot(s, r, act, job, next, log, i, 3);
  }

  lemma PublishLog(job: Job, next: nat, log: seq<Entry>)
    requires LogAccount(job, next, log) && next < |job.plan|
    ensures LogAccount(job, next + 1, log)
  {
  }

  /** At the end every published request was harvested exactly once. */
  lemma DrainedAccount(s: Sys, act: seq<bool>, job: Job, next: nat, log: seq<Entry>)
    requires Account(s, act, job, next, log) && ActiveCount(act) == 0
    ensures |log| == next && forall n: nat :: Logged(log, n) == One(job.base <= n < job.base + next)
    ensures LogAccount(job, next, log)
    ensures (next == |job.plan| && forall j :: 0 <= j < 4 ==> s.slots[j].state == Done)
            <==> 4 <= |job.plan| && next == |job.plan| && AllDone(log)
  {
    hide Matches;
    forall n: nat ensures Logged(log, n) == One(job.base <= n < job.base + next) {
      assert Logged(log, n) + Here(s.gens, act, n) == One(job.base <= n < job.base + next);
    }
    if next == |job.plan| && 4 <= next && AllDone(log) {
      assert forall j :: 0 <= j < 4 ==> !BadAt(log, j);
    }
    if forall j :: 0 <= j < 4 ==> s.slots[j].state == Done {
      assert s.slots[3].state == Done;
      assert !BadAt(log, 0) && !BadAt(log, 1) && !BadAt(log, 2) && !BadAt(log, 3);
      forall k | 0 <= k < |log| ensures log[k].slot.state == Done {
        assert log[k].idx < 4;
        assert !BadAt(log, log[k].idx);
      }
    }
  }

  /** What a harvested request asked for, field by field: it is the plan entry of its publication, addressed to
      the stream's target, with the plan's sequence as its identity. */
  lemma LoggedRequest(job: Job, next: nat, log: seq<Entry>, k: nat)
    requires LogAccount(job, next, log) && k < |log|
    ensures var e := log[k];
            && job.base <= e.gen < job.base + |job.plan|
            && var plan, req := job.plan[e.gen - job.base], e.slot.req;
               && req.opcode == plan.opcode && req.service == plan.service && req.iface == plan.iface
               && req.sequence == plan.sequence && req.idLow == plan.sequence && req.idHigh == 0x4150_2d50_494e_4721
               && req.envelope == plan.envelope && req.targetCpu == job.target && req.sourceCpu == 0
  {
    assert Matches(job, next, log[k].gen, log[k].slot.req);
  }
}
