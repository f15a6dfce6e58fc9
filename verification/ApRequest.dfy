/** Request slots and outboxes shared by the boot processor (BSP) and an application
    processor (AP): kernel/ap_request.h and kernel/ap_request.c. */
module ApRequest {
  import opened Words

  datatype SlotState = Empty | Pending | Running | Done | TimedOut | BadOp | Fault | Skipped

  predicate Finished(st: SlotState) {
    st == Done || st == BadOp || st == Fault || st == TimedOut || st == Skipped
  }

  const ID_HIGH: u64 := 0x4150_2d50_494e_4721
  const OP_NONE: u32 := 0
  const OP_PING: u32 := 1
  const OP_COUNTER: u32 := 2
  const CAPACITY: nat := 4

  datatype Envelope = Envelope(parentHigh: u64, parentLow: u64, replyService: u64, replyInterface: u64,
                               payloadAddr: u64, payloadLen: u32, flags: u32)

  datatype Plan = Plan(opcode: u32, service: u64, iface: u64, sequence: u32, envelope: Envelope)

  datatype Request = Request(sourceCpu: u32, targetCpu: u32, opcode: u32, sequence: u32, service: u64, iface: u64,
                             idHigh: u64, idLow: u64, envelope: Envelope)

  datatype Reply = Reply(result: u32, faultCode: u32, idHigh: u64, idLow: u64)

  datatype Slot = Slot(state: SlotState, req: Request, reply: Reply, handled: u32, waitLoops: u32)

  const NO_ENVELOPE := Envelope(0, 0, 0, 0, 0, 0, 0)
  const NO_PLAN := Plan(0, 0, 0, 0, NO_ENVELOPE)
  const NO_REQUEST := Request(0, 0, OP_NONE, 0, 0, 0, 0, 0, NO_ENVELOPE)
  const NO_REPLY := Reply(0, 0, 0, 0)
  const EMPTY_SLOT := Slot(Empty, NO_REQUEST, NO_REPLY, 0, 0)

  /** `prepare_ap_request_slot_from_plan`. */
  function RequestFor(plan: Plan, target: u32): (r: Request) {
    Request(0, target, plan.opcode, plan.sequence, plan.service, plan.iface, ID_HIGH, plan.sequence, plan.envelope)
  }

  predicate Answers(reply: Reply, req: Request) {
    reply.idHigh == req.idHigh && reply.idLow == req.idLow
  }

  // ----- outboxes as values

  /** Four entries, the first `count` of them in use. */
  datatype Outbox = Outbox(count: nat, entries: seq<Plan>)

  const EMPTY_OUTBOX := Outbox(0, [NO_PLAN, NO_PLAN, NO_PLAN, NO_PLAN])

  /** The outbox that holds the first four of the plans a handler offered, padded with zeros. */
  function OutboxOf(offered: seq<Plan>): (o: Outbox)
    ensures |o.entries| == CAPACITY && o.count <= CAPACITY
  {
    var n := if |offered| < CAPACITY then |offered| else CAPACITY;
    Outbox(n, seq(CAPACITY, i requires 0 <= i < CAPACITY => if i < n then offered[i] else NO_PLAN))
  }

  /** `append_ap_request_outbox` on values: a full outbox drops the plan. */
  function Appended(o: Outbox, p: Plan): (r: Outbox)
    requires |o.entries| == CAPACITY
  {
    if o.count < CAPACITY then Outbox(o.count + 1, o.entries[o.count := p]) else o
  }

  /** Appending one plan at a time keeps exactly the first four. */
  lemma AppendedIsPrefix(offered: seq<Plan>, p: Plan)
    ensures Appended(OutboxOf(offered), p) == OutboxOf(offered + [p])
  {
    var a, b := Appended(OutboxOf(offered), p), OutboxOf(offered + [p]);
    assert a.count == b.count;
    assert a.entries == b.entries;
  }

  lemma NothingOffered()
    ensures OutboxOf([]) == EMPTY_OUTBOX
  {
    assert OutboxOf([]).entries == EMPTY_OUTBOX.entries;
  }

  // ----- outboxes in memory

  /** `ap_request_outbox_t`. */
  class OutboxBuffer {
    var count: nat
    const entries: array<Plan>

    constructor ()
      ensures entries.Length == CAPACITY && fresh(entries) && Valid() && View() == EMPTY_OUTBOX
    {
      entries := new Plan[CAPACITY](_ => NO_PLAN);
      count := 0;
      new;
      assert entries[..] == EMPTY_OUTBOX.entries;
    }

    ghost predicate Valid()
      reads this, entries
    {
      entries.Length == CAPACITY
    }

    ghost function View(): (o: Outbox)
      requires Valid()
      reads this, entries
      ensures |o.entries| == CAPACITY
    {
      Outbox(count, entries[..])
    }

    /** `reset_ap_request_outbox`. */
    method Reset()
      requires Valid()
      modifies this`count, entries
      ensures Valid() && View() == EMPTY_OUTBOX
    {
      count := 0;
      var i := 0;
      while i < CAPACITY
        invariant 0 <= i <= CAPACITY && count == 0 && forall j :: 0 <= j < i ==> entries[j] == NO_PLAN
      {
        entries[i] := NO_PLAN;
        i := i + 1;
      }
      assert entries[..] == EMPTY_OUTBOX.entries;
    }

    /** `append_ap_request_outbox`. */
    method Append(p: Plan) returns (ok: bool)
      requires Valid()
      modifies this`count, entries
      ensures Valid() && View() == Appended(old(View()), p)
      ensures ok <==> old(count) < CAPACITY
    {
      if count >= CAPACITY {
        return false;
      }
      entries[count] := p;
      count := count + 1;
      ok := true;
    }

    /** `copy_ap_request_outbox`: the count is clamped and the unused tail is cleared. */
    method CopyFrom(src: OutboxBuffer)
      requires Valid() && src.Valid() && src.entries != entries
      modifies this`count, entries
      ensures Valid() && View() == Clamped(old(src.View()))
    {
      ghost var from := src.View();
      var n := if src.count > CAPACITY then CAPACITY else src.count;
      count := n;
      var i := 0;
      while i < CAPACITY
        invariant 0 <= i <= CAPACITY && count == n && src.entries[..] == from.entries
        invariant forall j :: 0 <= j < i ==> entries[j] == if j < n then from.entries[j] else NO_PLAN
      {
        entries[i] := if i < n then src.entries[i] else NO_PLAN;
        i := i + 1;
      }
      assert entries[..] == Clamped(from).entries;
    }
  }

  function Clamped(o: Outbox): (r: Outbox)
    requires |o.entries| == CAPACITY
  {
    var n := if o.count > CAPACITY then CAPACITY else o.count;
    Outbox(n, seq(CAPACITY, i requires 0 <= i < CAPACITY => if i < n then o.entries[i] else NO_PLAN))
  }

  /** Copying what a handler built by appending changes nothing. */
  lemma ClampedOutboxOf(offered: seq<Plan>)
    ensures Clamped(OutboxOf(offered)) == OutboxOf(offered)
  {
    assert Clamped(OutboxOf(offered)).entries == OutboxOf(offered).entries;
  }

  /** A request slot's state word. */
  class StateWord {
    var state: SlotState

    method CompareAndSwap(expected: SlotState, desired: SlotState) returns (ok: bool)
      modifies this
      ensures ok <==> old(state) == expected
      ensures state == if ok then desired else old(state)
    {
      ok := state == expected;
      if ok {
        state := desired;
      }
    }
  }

  /** `complete_ap_request_done_with_outbox`: publish the copy only if the request is still running,
      otherwise leave the committed outbox empty. */
  method CompleteDone(word: StateWord, committed: OutboxBuffer, scratch: OutboxBuffer) returns (ok: bool)
    requires committed.Valid() && scratch.Valid() && scratch.entries != committed.entries && scratch != committed
    modifies word, committed`count, committed.entries
    ensures committed.Valid() && (ok <==> old(word.state) == Running)
    ensures word.state == if ok then Done else old(word.state)
    ensures committed.View() == if ok then Clamped(old(scratch.View())) else EMPTY_OUTBOX
  {
    committed.CopyFrom(scratch);
    ok := word.CompareAndSwap(Running, Done);
    if !ok {
      committed.Reset();
    }
  }
}
