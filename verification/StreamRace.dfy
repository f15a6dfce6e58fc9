/** Two limits of the request stream, shown on whole families of states: why the finished check and the
    harvest must see the same state, and how a late fault store reaches a newer request. */
module StreamRace {
  import opened Words
  import opened ApRequest
  import opened ApServices
  import opened Protocol
  import opened Interleaving
  import opened StreamLive
  import opened StreamBook
  import opened Pace
  import Stream
  import Order

  /** The AP runs undisturbed for `n` steps. */
  function Undisturbed(n: nat): (cs: seq<Choice>)
    ensures |cs| == n
  {
    if n == 0 then [] else [Go] + Undisturbed(n - 1)
  }

  lemma OneStep(s: Sys, n: nat)
    requires Shape(s) && n > 0
    ensures RunAp(s, Undisturbed(n)) == RunAp(ApStep(s, Go), Undisturbed(n - 1))
  {
    assert Undisturbed(n)[1..] == Undisturbed(n - 1);
  }

  lemma NoSteps(s: Sys)
    requires Shape(s)
    ensures RunAp(s, []) == s
  {
  }

  /** From claiming a request to having dispatched it. */
  lemma Dispatches(s: Sys, i: nat)
    requires Shape(s) && i < 4 && s.pc == Scan(i) && s.slots[i].state == Pending
    requires HandlerFor(s.slots[i].req.service, s.slots[i].req.iface).Some?
    ensures var r := RunAp(s, Undisturbed(6));
            && r.pc == Work(i, s.gens[i], Handling(HandlerFor(s.slots[i].req.service, s.slots[i].req.iface).value))
            && r.slots == s.slots[i := r.slots[i]] && r.slots[i].state == Running && r.handled == s.handled
            && r.gens == s.gens && r.slots[i].req == s.slots[i].req
  {
    hide HandlerFor;
    var s1 := ApStep(s, Go);
    var s2 := ApStep(s1, Go);
    var s3 := ApStep(s2, Go);
    var s4 := ApStep(s3, Go);
    var s5 := ApStep(s4, Go);
    OneStep(s, 6);
    OneStep(s1, 5);
    OneStep(s2, 4);
    OneStep(s3, 3);
    OneStep(s4, 2);
    OneStep(s5, 1);
  }

  /** From the handler to the count of the handled request. */
  lemma Counts(s: Sys, i: nat, g: nat, h: Handler)
    requires Shape(s) && i < 4 && s.pc == Work(i, g, Handling(h)) && s.slots[i].state == Running
    ensures var r := RunAp(s, Undisturbed(3));
            && r.pc == Work(i, g, Finishing)
            && r.slots == s.slots[i := r.slots[i]] && r.slots[i].state == Running
            && r.handled == Bump(s.handled) && r.slots[i].handled == r.handled
  {
    hide Clamped, Bump;
    var s1 := ApStep(s, Go);
    var s2 := ApStep(s1, Go);
    OneStep(s, 3);
    OneStep(s1, 2);
    OneStep(s2, 1);
  }

  /** From there to the completing swap. */
  lemma Commits(s: Sys, i: nat, g: nat)
    requires Shape(s) && i < 4 && s.pc == Work(i, g, Finishing) && s.slots[i].state == Running
    ensures var r := RunAp(s, Undisturbed(3));
            r.pc == Clearing(i) && r.slots == s.slots[i := s.slots[i].(state := Done)] && r.handled == s.handled
  {
    hide Clamped, Bump;
    var s1 := ApStep(s, Go);
    var s2 := ApStep(s1, Go);
    OneStep(s, 3);
    OneStep(s1, 2);
    OneStep(s2, 1);
  }

  /** Back to the scan. */
  lemma Clears(s: Sys, i: nat)
    requires Shape(s) && i < 4 && s.pc == Clearing(i)
    ensures var r := RunAp(s, Undisturbed(1));
            r.pc == Scan((i + 1) % 4) && r.slots == s.slots && r.handled == s.handled
  {
    OneStep(s, 1);
  }

  lemma {:induction false} RunTwice(s: Sys, a: nat, b: nat)
    requires Shape(s)
    ensures RunAp(s, Undisturbed(a + b)) == RunAp(RunAp(s, Undisturbed(a)), Undisturbed(b))
    decreases a
  {
    if a > 0 {
      OneStep(s, a + b);
      OneStep(s, a);
      RunTwice(ApStep(s, Go), a - 1, b);
    }
  }

  /** The AP serves one pending request to completion. */
  lemma Serves(s: Sys, i: nat)
    requires Shape(s) && i < 4 && s.pc == Scan(i) && s.slots[i].state == Pending
    requires HandlerFor(s.slots[i].req.service, s.slots[i].req.iface).Some?
    ensures var r := RunAp(s, Undisturbed(13));
            && r.pc == Scan((i + 1) % 4) && r.slots == s.slots[i := r.slots[i]] && r.slots[i].state == Done
            && r.handled == Bump(s.handled) && r.slots[i].handled == r.handled
  {
    hide HandlerFor, Bump, ApStep, RunAp;
    Dispatches(s, i);
    var h := HandlerFor(s.slots[i].req.service, s.slots[i].req.iface).value;
    var m := RunAp(s, Undisturbed(6));
    Counts(m, i, s.gens[i], h);
    var k := RunAp(m, Undisturbed(3));
    Commits(k, i, s.gens[i]);
    var d := RunAp(k, Undisturbed(3));
    Clears(d, i);
    RunTwice(k, 3, 1);
    RunTwice(m, 3, 4);
    RunTwice(s, 6, 7);
  }

  // ----- overtaking

  function Cost(pending: bool): (n: nat) {
    if pending then 13 else 1
  }

  /** The AP passes slot `i`, serving it if it is pending. */
  lemma Passes(s: Sys, i: nat)
    requires Shape(s) && i < 4 && s.pc == Scan(i) && (s.slots[i].state == Pending ==> Known(s.slots[i].req))
    ensures var r := RunAp(s, Undisturbed(Cost(s.slots[i].state == Pending)));
            && r.pc == Scan((i + 1) % 4) && r.slots == s.slots[i := r.slots[i]]
            && (s.slots[i].state == Pending ==>
                  r.slots[i].state == Done && r.handled == Bump(s.handled) && r.slots[i].handled == r.handled)
            && (s.slots[i].state != Pending ==> r.slots == s.slots && r.handled == s.handled)
  {
    if s.slots[i].state == Pending {
      Serves(s, i);
    } else {
      OneStep(s, 1);
    }
  }

  /** Steps for a whole turn over four slots of which `m` are pending. */
  function TurnSteps(m: nat): (n: nat)
    requires m <= 4
  {
    13 * m + (4 - m)
  }

  /** The AP stands at slot 1 while the first `m` slots are pending. */
  predicate AtSecond(s: Sys, m: nat) {
    && Shape(s) && 2 <= m <= 4 && s.pc == Scan(1) && s.handled < 0xffff_fff0
    && (forall k :: 0 <= k < 4 ==> (s.slots[k].state == Pending <==> k < m))
    && (forall k :: 0 <= k < m ==> Known(s.slots[k].req))
  }

  /** The AP has passed the slots from 1 to `k - 1`. */
  predicate PassedTo(s: Sys, r: Sys, m: nat, k: nat)
    requires AtSecond(s, m) && 1 <= k <= 4
  {
    && Shape(r) && r.pc == Scan(k % 4) && r.handled == s.handled + (if k < m then k else m) - 1
    && (forall j :: 0 <= j < 4 && !(1 <= j < k && j < m) ==> r.slots[j] == s.slots[j])
    && (forall j :: 1 <= j < k && j < m ==> r.slots[j].state == Done && r.slots[j].handled == s.handled + j)
  }

  lemma PassesNext(s: Sys, r: Sys, m: nat, k: nat)
    requires AtSecond(s, m) && 1 <= k < 4 && PassedTo(s, r, m, k)
    ensures PassedTo(s, RunAp(r, Undisturbed(Cost(k < m))), m, k + 1)
  {
    hide RunAp, HandlerFor, Undisturbed;
    Passes(r, k);
  }

  /** One turn of the AP then serves slot 1 first and slot 0 last. */
  lemma ServesSecondFirst(s: Sys, m: nat)
    requires AtSecond(s, m)
    ensures var r := RunAp(s, Undisturbed(TurnSteps(m)));
            && (forall k :: 0 <= k < m ==> r.slots[k].state == Done)
            && r.slots[0].handled == s.handled + m
            && forall k :: 1 <= k < m ==> r.slots[k].handled == s.handled + k
  {
    hide RunAp, HandlerFor, Undisturbed;
    PassesNext(s, s, m, 1);
    var s1 := RunAp(s, Undisturbed(13));
    PassesNext(s, s1, m, 2);
    var s2 := RunAp(s1, Undisturbed(Cost(2 < m)));
    PassesNext(s, s2, m, 3);
    var s3 := RunAp(s2, Undisturbed(Cost(3 < m)));
    Passes(s3, 0);
    RunTwice(s2, Cost(3 < m), 13);
    RunTwice(s1, Cost(2 < m), Cost(3 < m) + 13);
    RunTwice(s, 13, Cost(2 < m) + Cost(3 < m) + 13);
  }

  /** An AP that stands at slot 1 with nothing to do: one step after bring-up. */
  lemma StandsAtSecond(w: World)
    requires Start(w) && (w.s.boot.bootOk ==> w.s.boot.online)
    ensures Idle(ApStep(w.s, Go)) && ApStep(w.s, Go).pc == Scan(1) && ApStep(w.s, Go).boot == w.s.boot
  {
    hide WorkStep, FaultStep;
    Stream.BringUpIsIdle(w);
    ApStepKeeps(w.s, Go, None);
    ApStepLive(w.s, Go, None, NONE_ACTIVE);
  }

  /** The visit to slot 0, while the AP moves only between the two reads: slot 0 overtakes slot 1. */
  method VisitFirst(st: Stream.RequestStream, ghost m: nat)
    requires st.Valid() && st.Followed() && st.Quiet() && st.log == [] && AtSecond(st.s, m) && st.s.handled < 0x7fff_fff0
    requires forall k :: 0 <= k < 4 ==> (st.active[k] <==> k < m)
    requires forall n: nat :: st.race(n) == Undisturbed(TurnSteps(m))
    modifies st
    ensures st.Valid() && st.Followed() && st.overtaken
    ensures |st.log| == 1 && st.log[0].slot.state == Done && st.log[0].slot.handled == old(st.s.handled) + m
    ensures st.active[1] && st.s.slots[1].state == Done && st.s.slots[1].handled == old(st.s.handled) + 1
    ensures !Stream.HasLower(st.s, st.active, 1)
  {
    hide Stream.RequestStream.Sound, Stream.RequestStream.Booked, Stream.RequestStream.Noted, HandlerFor, RunAp, Undisturbed, TurnSteps;
    hide Kept, Stream.HasLower, Stream.Elsewhere, Stopping, AllDone, ActiveCount;
    ServesSecondFirst(st.s, m);
    NoSteps(st.s);
    ghost var h, act := st.s.handled, st.active;
    var _, read := st.Visit(0);
    assert Order.Ready(read, act, 0) && Order.Ready(read, act, 1) && read.slots[1].handled < read.slots[0].handled;
    SecondIsNext(read, st.s, act, st.active, h, m);
  }

  /** The visit to slot 1 then records the request that was overtaken. */
  method VisitSecond(st: Stream.RequestStream)
    requires st.Valid() && st.Followed() && st.Quiet() && |st.log| == 1 && st.overtaken
    requires st.active[1] && st.s.slots[1].state == Done && !Stream.HasLower(st.s, st.active, 1)
    requires st.log[0].slot.state == Done && st.s.slots[1].handled < st.log[0].slot.handled
    modifies st
    ensures st.Valid() && st.overtaken && |st.log| == 2 && !Stream.InOrder(st.log)
  {
    hide Stream.RequestStream.Sound, Stream.RequestStream.Booked, Stream.RequestStream.Noted, RunAp;
    hide KeptSlot, Stream.HasLower, Stream.Elsewhere, Stopping, AllDone, ActiveCount;
    NoSteps(st.s);
    ghost var s1, was := st.s, st.log;
    var seen, read := st.Visit(1);
    SameWhenDone(s1, read, 1);
    assert st.log[0] == was[0] && st.log[1].slot.handled < st.log[0].slot.handled;
  }

  lemma SameWhenDone(s: Sys, r: Sys, i: nat)
    requires Kept(s, r) && i < 4 && s.slots[i].state == Done
    ensures SameResult(r.slots[i], s.slots[i])
  {
  }

  /** The order of harvests can break for every plan of two or more entries with known services: on an idle
      AP that stands at slot 1, the steps of `run_ap_request_stream` up to the second harvest, with the AP
      moving only between the two reads of a slot, write a log that is out of order. */
  method OrderBreaks(s0: Sys, plan: seq<Plan>, target: u32, timeout: u32, delay: nat -> Step)
    returns (st: Stream.RequestStream)
    requires Idle(s0) && s0.pc == Scan(1) && Accepting(s0.boot) && s0.handled < 0x7fff_fff0
    requires |plan| >= 2
    requires forall k :: 0 <= k < |plan| ==> HandlerFor(plan[k].service, plan[k].iface).Some?
    ensures fresh(st) && st.Valid() && st.job.plan == plan && st.overtaken
    ensures |st.log| == 2 && !Stream.InOrder(st.log)
  {
    hide Stream.RequestStream.Sound, Stream.RequestStream.Noted, Idle, HandlerFor, RunAp, Undisturbed, TurnSteps;
    hide Account, Kept, Stopping, AllDone, ActiveCount;
    var m := if |plan| < 4 then |plan| else 4;
    var steps := TurnSteps(m);
    st := new Stream.RequestStream(s0, plan, target, timeout, n => [], n => Undisturbed(steps), delay, 0, 0);
    st.ResetAll();
    var stop := st.ShouldStop();
    st.Fill();
    stop := st.ShouldStop();
    FilledIsAtSecond(st.s, st.active, st.job, m, st.log);
    VisitFirst(st, m);
    VisitSecond(st);
  }

  /** After the first publications of a plan with known services. */
  lemma FilledIsAtSecond(s: Sys, act: seq<bool>, job: Job, m: nat, log: seq<Entry>)
    requires Account(s, act, job, m, log) && 2 <= m <= 4 && s.pc == Scan(1) && s.handled < 0xffff_fff0
    requires forall k :: 0 <= k < 4 ==> (act[k] <==> k < m)
    requires forall k :: 0 <= k < m ==> s.slots[k].state == Pending
    requires forall k :: 0 <= k < |job.plan| ==> HandlerFor(job.plan[k].service, job.plan[k].iface).Some?
    ensures AtSecond(s, m)
  {
    hide HandlerFor, OnePlace, LogAccount, BadAt;
    assert SlotAccount(s, act, job, m, log, 0) && SlotAccount(s, act, job, m, log, 1);
    assert SlotAccount(s, act, job, m, log, 2) && SlotAccount(s, act, job, m, log, 3);
  }

  /** Once slot 0 is harvested, slot 1 is the earliest DONE slot. */
  lemma SecondIsNext(s: Sys, r: Sys, act: seq<bool>, act': seq<bool>, h: nat, m: nat)
    requires Shape(s) && Shape(r) && |act| == 4 && |act'| == 4 && 2 <= m <= 4 && h + m < 0x8000_0000
    requires Stream.Elsewhere(s, r, 0) && act' == act[0 := act'[0]] && (act'[0] ==> r.slots[0].state != Done)
    requires forall k :: 0 <= k < 4 ==> (act[k] <==> k < m)
    requires forall k :: 1 <= k < m ==> s.slots[k].state == Done && s.slots[k].handled == h + k
    ensures act'[1] && r.slots[1].state == Done && r.slots[1].handled == h + 1 && !Stream.HasLower(r, act', 1)
  {
  }

  // ----- a late fault store

  /** `publish_ap_inbox_request` without interference. */
  function PublishRun(i: nat, plan: Plan, target: u32): (run: seq<Action>) {
    [BspActs(OpenSlot(i))] + RewriteRun(plan, target)
  }

  /** The same after the first store. */
  function RewriteRun(plan: Plan, target: u32): (run: seq<Action>) {
    [BspActs(ClearFields), BspActs(ClearOutbox), BspActs(Prepare(plan, target)), BspActs(Publish(Pending))]
  }

  lemma Rewrites(w: World, plan: Plan, target: u32)
    requires Shape(w.s) && w.edit.Some? && w.edit.value < 4
    ensures var i, r := w.edit.value, Play(w, RewriteRun(plan, target));
            && r.edit.None? && r.s.slots[i].state == Pending && r.s.slots[i].req == RequestFor(plan, target)
            && r.s.slots[i].reply.faultCode == 0 && r.s.pc == w.s.pc && r.s.current == w.s.current
  {
    hide Play;
    var a1, a2, a3, a4 := BspActs(ClearFields), BspActs(ClearOutbox), BspActs(Prepare(plan, target)), BspActs(Publish(Pending));
    var w1 := Act(w, a1);
    var w2 := Act(w1, a2);
    var w3 := Act(w2, a3);
    PlayFour(w, a1, a2, a3, a4);
  }

  lemma PlayFour(w: World, a1: Action, a2: Action, a3: Action, a4: Action)
    requires Shape(w.s)
    ensures Play(w, [a1, a2, a3, a4]) == Act(Act(Act(Act(w, a1), a2), a3), a4)
  {
    hide Act, Play, Shape;
    var w1 := Act(w, a1);
    var w2 := Act(w1, a2);
    var w3 := Act(w2, a3);
    PlayFirst(w, a1, [a2, a3, a4]);
    PlayFirst(w1, a2, [a3, a4]);
    PlayFirst(w2, a3, [a4]);
    PlayOne(w3, a4);
    assert [a1] + [a2, a3, a4] == [a1, a2, a3, a4];
    assert [a2] + [a3, a4] == [a2, a3, a4];
    assert [a3] + [a4] == [a3, a4];
  }

  lemma PlayFirst(w: World, a: Action, run: seq<Action>)
    requires Shape(w.s)
    ensures Play(w, [a] + run) == Play(Act(w, a), run)
  {
    hide Act;
    assert ([a] + run)[1..] == run;
  }

  lemma PlayOne(w: World, a: Action)
    requires Shape(w.s)
    ensures Play(w, [a]) == Act(w, a)
  {
    assert Play(Act(w, a), []) == Act(w, a);
  }

  /** A fault taken while the slot in hand is empty runs up to the blind store. */
  lemma ReachesStore(s: Sys, i: nat, v: u64)
    requires Shape(s) && i < 4 && s.current == Some(i) && s.slots[i].state == Empty && s.pc == Faulting(FRead, v, Empty)
    ensures var r := RunAp(s, Undisturbed(5));
            r.pc.Faulting? && r.pc.f.FStore? && r.current == Some(i) && r.slots[i].state == Empty
  {
    var s1 := ApStep(s, Go);
    var s2 := ApStep(s1, Go);
    var s3 := ApStep(s2, Go);
    var s4 := ApStep(s3, Go);
    OneStep(s, 5);
    OneStep(s1, 4);
    OneStep(s2, 3);
    OneStep(s3, 2);
    OneStep(s4, 1);
  }

  /** A run of both processors: a request is served, the AP faults just before it forgets the slot, the BSP
      refills the slot and times the new request out. */
  function LateRun(first: Plan, second: Plan, target: u32, v: u64): (run: seq<Action>) {
    ServeRun(first, target) + RefillRun(second, target, v)
  }

  function ServeRun(first: Plan, target: u32): (run: seq<Action>) {
    PublishRun(0, first, target) + ApRun(Undisturbed(12))
  }

  function RefillRun(second: Plan, target: u32, v: u64): (run: seq<Action>) {
    [ApActs(FaultNow(v))] + ([BspActs(OpenSlot(0))] + (ApRun(Undisturbed(5)) + (RewriteRun(second, target) + [BspActs(Expire(0, Pending))])))
  }

  lemma ServeRunEnds(w: World, first: Plan, target: u32)
    requires Start(w) && HandlerFor(first.service, first.iface).Some?
    ensures var r := Play(w, ServeRun(first, target));
            r.edit.None? && r.s.pc == Clearing(0) && r.s.slots[0].state == Done
  {
    hide HandlerFor, Act, Play, RunAp, ApStep;
    var w1 := Play(w, PublishRun(0, first, target));
    PublishRunEnds(w, first, target);
    PlayInTurn(w, PublishRun(0, first, target), ApRun(Undisturbed(12)));
    PlayApRun(w1, Undisturbed(12));
    Dispatches(w1.s, 0);
    var m := RunAp(w1.s, Undisturbed(6));
    Counts(m, 0, w1.s.gens[0], HandlerFor(first.service, first.iface).value);
    var k := RunAp(m, Undisturbed(3));
    Commits(k, 0, w1.s.gens[0]);
    RunTwice(m, 3, 3);
    RunTwice(w1.s, 6, 6);
  }

  lemma PublishRunEnds(w: World, first: Plan, target: u32)
    requires Start(w)
    ensures var r := Play(w, PublishRun(0, first, target));
            r.edit.None? && r.s.pc == Scan(0) && r.s.slots[0].state == Pending && r.s.slots[0].req == RequestFor(first, target)
  {
    hide Play;
    var a := BspActs(OpenSlot(0));
    PlayOne(w, a);
    Rewrites(Act(w, a), first, target);
    PlayInTurn(w, [a], RewriteRun(first, target));
  }

  lemma RefillRunEnds(w: World, second: Plan, target: u32, v: u64)
    requires Shape(w.s) && w.edit.None? && w.s.pc == Clearing(0) && w.s.current == Some(0)
    ensures var r := Play(w, RefillRun(second, target, v));
            && r.edit.None? && r.s.slots[0].state == TimedOut && r.s.slots[0].req == RequestFor(second, target)
            && r.s.slots[0].reply.faultCode == 0 && BlindStore(r.s, 0)
  {
    hide Play, RunAp;
    var a1, a2, a3 := ApActs(FaultNow(v)), BspActs(OpenSlot(0)), BspActs(Expire(0, Pending));
    var tail3 := RewriteRun(second, target) + [a3];
    var tail2 := ApRun(Undisturbed(5)) + tail3;
    PlayOne(w, a1);
    PlayInTurn(w, [a1], [a2] + tail2);
    var w1 := Act(w, a1);
    PlayOne(w1, a2);
    PlayInTurn(w1, [a2], tail2);
    var w2 := Act(w1, a2);
    ReachesStore(w2.s, 0, v);
    PlayApRun(w2, Undisturbed(5));
    PlayInTurn(w2, ApRun(Undisturbed(5)), tail3);
    var w3 := Play(w2, ApRun(Undisturbed(5)));
    Rewrites(w3, second, target);
    PlayInTurn(w3, RewriteRun(second, target), [a3]);
    var w4 := Play(w3, RewriteRun(second, target));
    PlayOne(w4, a3);
  }

  /** The blind store occurs: from every start state, for every two plans of which the first names a known
      service, there is a run after which the newer request reads TIMEOUT and the next step of the AP turns
      it into FAULT, with a cleared fault code.  The BSP's part of that run is what a stream does: publish,
      harvest, refill, time out. */
  lemma LateFaultStore(w: World, first: Plan, second: Plan, target: u32, v: u64)
    requires Start(w) && HandlerFor(first.service, first.iface).Some?
    ensures var before := Play(w, LateRun(first, second, target, v));
            var after := Act(before, ApActs(Go));
            && Inv(before.s, None) && before.s.slots[0].state == TimedOut && BlindStore(before.s, 0)
            && before.s.slots[0].req == RequestFor(second, target)
            && after.s.slots[0].state == Fault && after.s.slots[0].req == RequestFor(second, target)
            && after.s.slots[0].reply.faultCode == 0
  {
    hide HandlerFor, Play, WorkOk, RunningOwned, AllCompleted, BootOk;
    var run := ServeRun(first, target);
    var m := Play(w, run);
    StartOk(w);
    ServeRunEnds(w, first, target);
    PlayKeeps(w, run);
    RefillRunEnds(m, second, target, v);
    PlayKeeps(m, RefillRun(second, target, v));
    PlayInTurn(w, run, RefillRun(second, target, v));
    StoresBlindly(Play(m, RefillRun(second, target, v)).s, 0);
  }

  /** Before a stream's timeout tail no finished slot is exposed to such a store. */
  lemma LiveMeansFinal(s: Sys, edit: Option<nat>, act: seq<bool>, j: nat)
    requires Inv(s, edit) && Live(s, act) && j < 4 && Finished(s.slots[j].state)
    ensures forall cs: seq<Choice> :: RunAp(s, cs).slots[j].state == s.slots[j].state
  {
    FinishedIsFinalIff(s, edit, j);
  }
}
