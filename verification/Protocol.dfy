/** The request protocol between the BSP and one AP as a transition system: the AP's request loop
    (kernel/kernel.c, lines 2269-2347), its fault path (lines 1754-1821) and the BSP's individual
    accesses to the shared slots.  Every step touches one shared record. */
module Protocol {
  import opened Words
  import opened ApRequest
  import opened ApServices

  datatype ApState = Booting | Online | HaltedState | Faulted

  /** `bootOk` is `error == AP_BOOT_OK`. */
  datatype Boot = Boot(apState: ApState, online: bool, bootOk: bool, faultVector: u64)

  const MAX_CONTEXTS: nat := 8

  /** `ap_context_is_schedulable` and `ap_context_can_accept_broadcast_ping`. */
  predicate Accepting(boot: Boot) {
    boot.bootOk && boot.online && boot.apState != HaltedState && boot.apState != Faulted
  }

  /** Where the AP stands inside one claimed request. */
  datatype Stage =
    | Claimed | Noting | Beginning | Preparing
    | Handling(h: Handler) | Replying(value: u32) | Counting | Finishing
    | Copying | Committing | RollingBack
    | Missed | Halting | Dropping | Refusing

  datatype FaultStage = FRead | FFill | FCasPending | FCasRunning | FCheck | FStore | FMark

  /** `Work(i, g, w)`: busy with slot `i`, claimed when it held publication number `g`. */
  datatype Pc =
    | Scan(i: nat) | TryClaim(i: nat)
    | Work(i: nat, g: nat, w: Stage)
    | Clearing(i: nat)
    | HaltedPc
    | Faulting(f: FaultStage, vector: u64, seen: SlotState)
    | Dead

  /** The shared memory of one AP context, the AP's program counter, and bookkeeping: `gens[i]` numbers
      the publication held by slot `i`, `doneBy[i]` the run that completed it, `made[i]` what that run's
      handler offered to its outbox, `tried` what the current handler has offered so far. */
  datatype Sys = Sys(slots: seq<Slot>, committed: seq<Outbox>, scratch: Outbox, boot: Boot,
                     handled: u32, counter: u32, current: Option<nat>, pc: Pc,
                     gens: seq<nat>, doneBy: seq<nat>, made: seq<seq<Plan>>, tried: seq<Plan>, nextGen: nat)

  /** What the scheduler of interleavings may pick for the AP. */
  datatype Choice = Go | Offer(p: Plan) | FaultNow(vector: u64)

  predicate PcInRange(pc: Pc) {
    match pc
    case Scan(i) => i < 4
    case TryClaim(i) => i < 4
    case Work(i, _, _) => i < 4
    case Clearing(i) => i < 4
    case _ => true
  }

  predicate Shape(s: Sys) {
    && |s.slots| == 4 && |s.committed| == 4 && |s.gens| == 4 && |s.doneBy| == 4 && |s.made| == 4
    && |s.scratch.entries| == CAPACITY
    && PcInRange(s.pc)
    && (s.current.Some? ==> s.current.value < 4)
  }

  function Bump(x: u32): (r: u32) {
    (x + 1) % 0x1_0000_0000
  }

  function WithState(s: Sys, i: nat, st: SlotState): (r: Sys)
    requires |s.slots| == 4 && i < 4
  {
    s.(slots := s.slots[i := s.slots[i].(state := st)])
  }

  function WithReply(s: Sys, i: nat, reply: Reply): (r: Sys)
    requires |s.slots| == 4 && i < 4
  {
    s.(slots := s.slots[i := s.slots[i].(reply := reply)])
  }

  // ----- the AP's steps

  function ScanStep(s: Sys): (r: Sys)
    requires Shape(s) && (s.pc.Scan? || s.pc.TryClaim?)
    ensures Shape(r)
  {
    var i := s.pc.i;
    if s.slots[i].state != Pending then s.(pc := Scan((i + 1) % 4))
    else if s.pc.Scan? then s.(pc := TryClaim(i))
    else WithState(s, i, Running).(pc := Work(i, s.gens[i], Claimed))
  }

  function At(s: Sys, w: Stage): (pc: Pc)
    requires s.pc.Work?
  {
    Work(s.pc.i, s.pc.g, w)
  }

  function WorkStep(s: Sys, c: Choice): (r: Sys)
    requires Shape(s) && s.pc.Work?
    ensures Shape(r)
  {
    var i, slot := s.pc.i, s.slots[s.pc.i];
    match s.pc.w
    case Claimed => s.(current := Some(i), pc := At(s, Noting))
    case Noting => s.(slots := s.slots[i := slot.(handled := s.handled)], pc := At(s, Beginning))
    case Beginning =>
      WithReply(s, i, Reply(0, 0, slot.req.idHigh, slot.req.idLow)).(pc := At(s, Preparing))
    case Preparing =>
      var h := HandlerFor(slot.req.service, slot.req.iface);
      s.(scratch := EMPTY_OUTBOX, tried := [], pc := if h.Some? then At(s, Handling(h.value)) else At(s, Missed))
    case Handling(h) =>
      if c.Offer? then s.(scratch := Appended(s.scratch, c.p), tried := s.tried + [c.p])
      else if h.PingHandler? then s.(pc := At(s, Replying(0)))
      else s.(counter := Bump(s.counter), pc := At(s, Replying(Bump(s.counter))))
    case Replying(value) =>
      WithReply(s, i, slot.reply.(result := value, faultCode := 0)).(pc := At(s, Counting))
    case Counting =>
      s.(handled := Bump(s.handled), slots := s.slots[i := slot.(handled := Bump(s.handled))], pc := At(s, Finishing))
    case Finishing => s.(boot := s.boot.(apState := Online), pc := At(s, Copying))
    case Copying => s.(committed := s.committed[i := Clamped(s.scratch)], pc := At(s, Committing))
    case Committing =>
      if slot.state == Running then
        WithState(s, i, Done).(doneBy := s.doneBy[i := s.pc.g], made := s.made[i := s.tried], pc := Clearing(i))
      else s.(pc := At(s, RollingBack))
    case RollingBack => s.(committed := s.committed[i := EMPTY_OUTBOX], pc := Clearing(i))
    case Missed =>
      WithReply(s, i, slot.reply.(result := MissCode(slot.req.service, slot.req.iface), faultCode := 0)).(pc := At(s, Halting))
    case Halting => s.(boot := s.boot.(apState := HaltedState), pc := At(s, Dropping))
    case Dropping => s.(current := None, pc := At(s, Refusing))
    case Refusing =>
      if slot.state == Running then WithState(s, i, BadOp).(doneBy := s.doneBy[i := s.pc.g], pc := HaltedPc)
      else s.(pc := HaltedPc)
  }

  /** The reply fields written by `ap_fault_dispatch`, by the state it saw on entry. */
  function FaultReply(slot: Slot, seen: SlotState, vector: u64): (r: Reply) {
    if seen == Empty then slot.reply.(faultCode := vector % 0x1_0000_0000)
    else if seen == Pending || seen == Running then
      slot.reply.(idHigh := slot.req.idHigh, idLow := slot.req.idLow, faultCode := vector % 0x1_0000_0000)
    else slot.reply
  }

  function FaultStep(s: Sys): (r: Sys)
    requires Shape(s) && s.pc.Faulting?
    ensures Shape(r)
  {
    var v := s.pc.vector;
    if s.pc.f.FMark? then s.(boot := s.boot.(apState := Faulted, online := true), pc := Dead)
    else if s.current.None? then
      s.(boot := s.boot.(faultVector := v), pc := s.pc.(f := FMark))
    else
      var i := s.current.value;
      var slot := s.slots[i];
      match s.pc.f
      case FRead => s.(boot := s.boot.(faultVector := v), pc := Faulting(FFill, v, slot.state))
      case FFill => WithReply(s, i, FaultReply(slot, s.pc.seen, v)).(pc := s.pc.(f := FCasPending))
      case FCasPending =>
        if slot.state == Pending then WithState(s, i, Fault).(pc := s.pc.(f := FMark)) else s.(pc := s.pc.(f := FCasRunning))
      case FCasRunning =>
        if slot.state == Running then WithState(s, i, Fault).(pc := s.pc.(f := FMark)) else s.(pc := s.pc.(f := FCheck))
      case FCheck => s.(pc := if slot.state == Empty then s.pc.(f := FStore) else s.pc.(f := FMark))
      case FStore => WithState(s, i, Fault).(pc := s.pc.(f := FMark))
      case FMark => s
  }

  /** One step of the AP.  A fault can strike anywhere outside the fault path and its final loop. */
  function ApStep(s: Sys, c: Choice): (r: Sys)
    requires Shape(s)
    ensures Shape(r)
  {
    if s.pc.Dead? then s
    else if s.pc.Faulting? then FaultStep(s)
    else if c.FaultNow? then s.(pc := Faulting(FRead, c.vector, Empty))
    else if s.pc.HaltedPc? then s
    else if s.pc.Work? then WorkStep(s, c)
    else if s.pc.Clearing? then s.(current := None, pc := Scan((s.pc.i + 1) % 4))
    else ScanStep(s)
  }

  function RunAp(s: Sys, cs: seq<Choice>): (r: Sys)
    requires Shape(s)
    ensures Shape(r)
    decreases |cs|
  {
    if cs == [] then s else RunAp(ApStep(s, cs[0]), cs[1..])
  }

  // ----- what every interleaving keeps

  predicate Replied(w: Stage) {
    w.Preparing? || Prepared(w) || w.Missed? || w.Halting? || w.Dropping? || w.Refusing?
  }

  predicate Prepared(w: Stage) {
    w.Handling? || w.Replying? || w.Counting? || w.Finishing? || w.Copying? || w.Committing?
  }

  predicate Clean(w: Stage) {
    w.Counting? || w.Finishing? || w.Copying? || w.Committing?
  }

  predicate IsPing(req: Request) {
    HandlerFor(req.service, req.iface) == Some(PingHandler)
  }

  /** A ping in progress is on its way to result code 0, a refused request to its miss code. */
  predicate ReplyOk(slot: Slot, w: Stage) {
    && (w.Handling? ==> Some(w.h) == HandlerFor(slot.req.service, slot.req.iface))
    && (w.Replying? && IsPing(slot.req) ==> w.value == 0)
    && (Clean(w) && IsPing(slot.req) ==> slot.reply.result == 0)
    && (w.Halting? || w.Dropping? || w.Refusing? ==>
          slot.reply.result == MissCode(slot.req.service, slot.req.iface) && slot.reply.faultCode == 0)
  }

  /** While the AP works on a slot that is still running, the reply under construction belongs to it. */
  predicate WorkOk(s: Sys)
    requires Shape(s)
  {
    s.pc.Work? ==>
      var i, w := s.pc.i, s.pc.w;
      && s.slots[i].state != Done && s.slots[i].state != BadOp
      && (w.RollingBack? ==> s.slots[i].state != Running)
      && (s.slots[i].state == Running ==> s.gens[i] == s.pc.g)
      && (Replied(w) && s.slots[i].state == Running ==> Answers(s.slots[i].reply, s.slots[i].req))
      && (Prepared(w) ==> s.scratch == OutboxOf(s.tried))
      && (w.Committing? && s.slots[i].state == Running ==> s.committed[i] == OutboxOf(s.tried))
      && (Clean(w) && s.slots[i].state == Running ==> s.slots[i].reply.faultCode == 0)
      && (s.slots[i].state == Running ==> ReplyOk(s.slots[i], w))
  }

  /** Only the request the AP is busy with is running. */
  predicate RunningOwned(s: Sys)
    requires Shape(s)
  {
    forall j :: 0 <= j < 4 && s.slots[j].state == Running ==>
      (s.pc.Work? && s.pc.i == j) || s.pc.Faulting? || s.pc.Dead?
  }

  /** A completed slot was completed by the run that claimed this very publication, answers it, and
      carries exactly what that run's handler offered. */
  predicate Completed(s: Sys, j: nat)
    requires Shape(s) && j < 4
  {
    && (s.slots[j].state == Done ==>
          && Answers(s.slots[j].reply, s.slots[j].req) && s.slots[j].reply.faultCode == 0
          && (IsPing(s.slots[j].req) ==> s.slots[j].reply.result == 0)
          && s.doneBy[j] == s.gens[j] && s.committed[j] == OutboxOf(s.made[j]))
    && (s.slots[j].state == BadOp ==>
          && Answers(s.slots[j].reply, s.slots[j].req) && s.doneBy[j] == s.gens[j]
          && s.slots[j].reply.result == MissCode(s.slots[j].req.service, s.slots[j].req.iface)
          && (!s.pc.Dead? ==> s.slots[j].reply.faultCode == 0))
  }

  predicate AllCompleted(s: Sys)
    requires Shape(s)
  {
    Completed(s, 0) && Completed(s, 1) && Completed(s, 2) && Completed(s, 3)
  }

  predicate CurrentOk(s: Sys)
    requires Shape(s)
  {
    match s.pc
    case Scan(_) => s.current.None?
    case TryClaim(_) => s.current.None?
    case HaltedPc => s.current.None?
    case Clearing(i) => s.current == Some(i)
    case Work(i, _, w) => s.current == if w.Claimed? || w.Refusing? then None else Some(i)
    case Faulting(f, _, seen) =>
      s.current.Some? ==>
        var st := s.slots[s.current.value].state;
        && (f.FFill? && (seen == Empty || seen == Pending || seen == Running) ==> st != Done && st != BadOp)
        && (f.FStore? ==> st != Done && st != BadOp)
    case Dead => true
  }

  predicate BootOk(s: Sys) {
    && (s.boot.apState == Faulted <==> s.pc.Dead?)
    && (s.boot.apState == HaltedState ==>
          s.pc.HaltedPc? || s.pc.Faulting? || (s.pc.Work? && (s.pc.w.Dropping? || s.pc.w.Refusing?)))
  }

  /** The invariant; `edit` is the slot the BSP is rewriting, if any. */
  predicate Inv(s: Sys, edit: Option<nat>) {
    && Shape(s)
    && (edit.Some? ==> edit.value < 4 && (s.slots[edit.value].state == Empty || s.slots[edit.value].state == Fault))
    && WorkOk(s) && RunningOwned(s) && AllCompleted(s) && CurrentOk(s) && BootOk(s)
  }

  lemma ScanKeeps(s: Sys, edit: Option<nat>)
    requires Inv(s, edit) && (s.pc.Scan? || s.pc.TryClaim?)
    ensures Inv(ScanStep(s), edit)
  {
    hide OutboxOf, MissCode, HandlerFor;
  }

  lemma WorkKeepsWork(s: Sys, c: Choice)
    requires Shape(s) && WorkOk(s) && RunningOwned(s) && s.pc.Work?
    ensures WorkOk(WorkStep(s, c)) && RunningOwned(WorkStep(s, c))
  {
    hide OutboxOf, Appended, Clamped, HandlerFor, MissCode;
    match s.pc.w
    case Preparing => NothingOffered();
    case Handling(_) =>
      if c.Offer? {
        AppendedIsPrefix(s.tried, c.p);
      }
    case Copying => ClampedOutboxOf(s.tried);
    case _ =>
  }

  /** Nothing of slot `j` changes. */
  predicate SameSlot(s: Sys, r: Sys, j: nat)
    requires Shape(s) && Shape(r) && j < 4
  {
    && r.slots[j] == s.slots[j] && r.committed[j] == s.committed[j] && r.gens[j] == s.gens[j]
    && r.doneBy[j] == s.doneBy[j] && r.made[j] == s.made[j]
  }

  /** The AP touches only the slot it works on. */
  lemma WorkFrame(s: Sys, c: Choice, j: nat)
    requires Shape(s) && s.pc.Work? && j < 4 && j != s.pc.i
    ensures SameSlot(s, WorkStep(s, c), j)
  {
    hide OutboxOf, Appended, Clamped, HandlerFor, MissCode;
    match s.pc.w
    case Copying =>
    case Committing =>
    case RollingBack =>
    case Refusing =>
    case _ =>
  }

  /** The AP never writes a request. */
  lemma WorkRequests(s: Sys, c: Choice, j: nat)
    requires Shape(s) && s.pc.Work? && j < 4
    ensures WorkStep(s, c).gens == s.gens && WorkStep(s, c).slots[j].req == s.slots[j].req
  {
    hide OutboxOf, Appended, Clamped, HandlerFor, MissCode;
  }

  /** The only state words the AP writes while it works are the two completing swaps. */
  lemma WorkStates(s: Sys, c: Choice, j: nat)
    requires Shape(s) && s.pc.Work? && j < 4
    ensures WorkStep(s, c).slots[j].state ==
            if j == s.pc.i && s.slots[j].state == Running && s.pc.w.Committing? then Done
            else if j == s.pc.i && s.slots[j].state == Running && s.pc.w.Refusing? then BadOp
            else s.slots[j].state
    ensures WorkStep(s, c).slots[j].waitLoops == s.slots[j].waitLoops
    ensures WorkStep(s, c).nextGen == s.nextGen && WorkStep(s, c).boot.bootOk == s.boot.bootOk
    ensures WorkStep(s, c).boot.online == s.boot.online
  {
    hide OutboxOf, Appended, Clamped, HandlerFor, MissCode;
    match s.pc.w
    case Noting =>
    case Beginning =>
    case Replying(_) =>
    case Counting =>
    case Committing =>
    case Missed =>
    case Refusing =>
    case _ =>
  }

  lemma WorkKeepsCompleted(s: Sys, c: Choice, j: nat)
    requires Shape(s) && WorkOk(s) && s.pc.Work? && j < 4 && Completed(s, j)
    ensures Completed(WorkStep(s, c), j)
  {
    WorkRequests(s, c, j);
    WorkStates(s, c, j);
    if j != s.pc.i {
      WorkFrame(s, c, j);
    }
    if j == s.pc.i && (s.pc.w.Committing? || s.pc.w.Refusing?) {
      CompletesOwn(s, c);
    }
  }

  lemma CompletesOwn(s: Sys, c: Choice)
    requires Shape(s) && WorkOk(s) && s.pc.Work? && (s.pc.w.Committing? || s.pc.w.Refusing?)
    ensures Completed(WorkStep(s, c), s.pc.i)
  {
    hide OutboxOf, Appended, Clamped, HandlerFor, MissCode;
  }

  lemma WorkKeepsCurrent(s: Sys, c: Choice)
    requires Shape(s) && CurrentOk(s) && s.pc.Work?
    ensures CurrentOk(WorkStep(s, c))
  {
    hide OutboxOf, Appended, Clamped, HandlerFor, MissCode;
    match s.pc.w
    case Claimed =>
    case Committing =>
    case RollingBack =>
    case Dropping =>
    case Refusing =>
    case _ =>
  }

  lemma WorkKeepsBoot(s: Sys, c: Choice)
    requires Shape(s) && BootOk(s) && s.pc.Work?
    ensures BootOk(WorkStep(s, c))
  {
    hide OutboxOf, Appended, Clamped, HandlerFor, MissCode;
    match s.pc.w
    case Finishing =>
    case Halting =>
    case _ =>
  }

  lemma EditUntouched(s: Sys, c: Choice, j: nat)
    requires Shape(s) && s.pc.Work? && j < 4 && (s.slots[j].state == Empty || s.slots[j].state == Fault)
    ensures WorkStep(s, c).slots[j].state == s.slots[j].state
  {
    WorkStates(s, c, j);
  }

  lemma WorkKeeps(s: Sys, c: Choice, edit: Option<nat>)
    requires Inv(s, edit) && s.pc.Work?
    ensures Inv(WorkStep(s, c), edit)
  {
    hide WorkOk, RunningOwned, Completed, CurrentOk, BootOk, WorkStep, Shape;
    WorkKeepsWork(s, c);
    WorkKeepsCompleted(s, c, 0);
    WorkKeepsCompleted(s, c, 1);
    WorkKeepsCompleted(s, c, 2);
    WorkKeepsCompleted(s, c, 3);
    WorkKeepsCurrent(s, c);
    WorkKeepsBoot(s, c);
    if edit.Some? {
      EditUntouched(s, c, edit.value);
    }
  }

  lemma FaultFrame(s: Sys, j: nat)
    requires Shape(s) && s.pc.Faulting? && j < 4
    ensures FaultStep(s).gens == s.gens && FaultStep(s).slots[j].req == s.slots[j].req
    ensures s.current != Some(j) ==> SameSlot(s, FaultStep(s), j)
    ensures FaultStep(s).slots[j].state != s.slots[j].state ==> FaultStep(s).slots[j].state == Fault
  {
  }

  lemma FaultKeepsCompleted(s: Sys, j: nat)
    requires Shape(s) && CurrentOk(s) && s.pc.Faulting? && j < 4 && Completed(s, j)
    ensures Completed(FaultStep(s), j)
  {
    hide OutboxOf;
  }

  lemma FaultKeepsRest(s: Sys, edit: Option<nat>)
    requires Inv(s, edit) && s.pc.Faulting?
    ensures WorkOk(FaultStep(s)) && RunningOwned(FaultStep(s)) && CurrentOk(FaultStep(s)) && BootOk(FaultStep(s))
  {
    hide OutboxOf, Completed;
  }

  lemma FaultSpares(s: Sys)
    requires Shape(s) && CurrentOk(s) && s.pc.Faulting?
    ensures forall j :: 0 <= j < 4 && (s.slots[j].state == Done || s.slots[j].state == BadOp) ==>
              FaultStep(s).slots[j] == s.slots[j] && FaultStep(s).committed[j] == s.committed[j]
  {
  }

  /** The fault path keeps the invariant and leaves completed requests alone. */
  lemma FaultKeeps(s: Sys, edit: Option<nat>)
    requires Inv(s, edit) && s.pc.Faulting?
    ensures Inv(FaultStep(s), edit)
    ensures forall j :: 0 <= j < 4 && (s.slots[j].state == Done || s.slots[j].state == BadOp) ==>
              FaultStep(s).slots[j] == s.slots[j] && FaultStep(s).committed[j] == s.committed[j]
  {
    hide WorkOk, RunningOwned, Completed, CurrentOk, BootOk, FaultStep, Shape;
    FaultKeepsRest(s, edit);
    FaultKeepsCompleted(s, 0);
    FaultKeepsCompleted(s, 1);
    FaultKeepsCompleted(s, 2);
    FaultKeepsCompleted(s, 3);
    if edit.Some? {
      FaultFrame(s, edit.value);
    }
    FaultSpares(s);
  }

  lemma ApStepKeeps(s: Sys, c: Choice, edit: Option<nat>)
    requires Inv(s, edit)
    ensures Inv(ApStep(s, c), edit)
  {
    if s.pc.Work? {
      WorkKeeps(s, c, edit);
    } else if s.pc.Faulting? {
      FaultKeeps(s, edit);
    } else if s.pc.Scan? || s.pc.TryClaim? {
      ScanKeeps(s, edit);
    }
  }

  // ----- what the AP cannot do, whatever it does

  /** How slot `j` may change while only the AP runs. */
  predicate RelySlot(s: Sys, r: Sys, j: nat)
    requires Shape(s) && Shape(r) && j < 4
  {
    var a, b := s.slots[j].state, r.slots[j].state;
    && r.slots[j].req == s.slots[j].req && r.slots[j].waitLoops == s.slots[j].waitLoops
    && (a == Done || a == BadOp ==> r.slots[j] == s.slots[j] && r.committed[j] == s.committed[j])
    && (Finished(a) ==> b == a || b == Fault)
    && (a == Empty ==> b == Empty || b == Fault)
    && (a == Running ==> b != Pending)
    && (a != Empty ==> b != Empty)
  }

  predicate Rely(s: Sys, r: Sys) {
    && Shape(s) && Shape(r)
    && r.gens == s.gens && r.nextGen == s.nextGen
    && r.boot.bootOk == s.boot.bootOk && (s.boot.online ==> r.boot.online)
    && RelySlot(s, r, 0) && RelySlot(s, r, 1) && RelySlot(s, r, 2) && RelySlot(s, r, 3)
  }

  lemma RelyTransitive(a: Sys, b: Sys, c: Sys)
    requires Rely(a, b) && Rely(b, c)
    ensures Rely(a, c)
  {
  }

  lemma WorkRely(s: Sys, c: Choice, j: nat)
    requires Shape(s) && WorkOk(s) && s.pc.Work? && j < 4
    ensures RelySlot(s, WorkStep(s, c), j)
  {
    hide WorkStep;
    WorkRequests(s, c, j);
    WorkStates(s, c, j);
    if j != s.pc.i {
      WorkFrame(s, c, j);
    }
  }

  lemma FaultRely(s: Sys, j: nat)
    requires Shape(s) && CurrentOk(s) && s.pc.Faulting? && j < 4
    ensures RelySlot(s, FaultStep(s), j)
  {
  }

  lemma WorkStepRely(s: Sys, c: Choice)
    requires Shape(s) && WorkOk(s) && s.pc.Work?
    ensures Rely(s, WorkStep(s, c))
  {
    hide WorkStep, RelySlot, WorkOk;
    WorkRequests(s, c, 0);
    WorkStates(s, c, 0);
    WorkRely(s, c, 0);
    WorkRely(s, c, 1);
    WorkRely(s, c, 2);
    WorkRely(s, c, 3);
  }

  lemma FaultStepRely(s: Sys)
    requires Shape(s) && CurrentOk(s) && s.pc.Faulting?
    ensures Rely(s, FaultStep(s))
  {
    hide RelySlot, CurrentOk;
    FaultFrame(s, 0);
    FaultRely(s, 0);
    FaultRely(s, 1);
    FaultRely(s, 2);
    FaultRely(s, 3);
  }

  lemma RelyReflexive(s: Sys, pc: Pc, current: Option<nat>)
    requires Shape(s) && Shape(s.(pc := pc, current := current))
    ensures Rely(s, s) && Rely(s, s.(pc := pc)) && Rely(s, s.(pc := pc, current := current))
  {
  }

  lemma ApStepRely(s: Sys, c: Choice, edit: Option<nat>)
    requires Inv(s, edit)
    ensures Rely(s, ApStep(s, c))
  {
    hide WorkStep, FaultStep, Rely, WorkOk, RunningOwned, Completed, CurrentOk, BootOk;
    if s.pc.Work? && !c.FaultNow? {
      WorkStepRely(s, c);
    } else if s.pc.Faulting? {
      FaultStepRely(s);
    } else if (s.pc.Scan? || s.pc.TryClaim?) && !c.FaultNow? {
      ScanStepRely(s);
    } else {
      RelyReflexive(s, ApStep(s, c).pc, ApStep(s, c).current);
    }
  }

  lemma ScanStepRely(s: Sys)
    requires Shape(s) && (s.pc.Scan? || s.pc.TryClaim?)
    ensures Rely(s, ScanStep(s))
  {
  }

  /** Any number of AP steps keep the invariant and respect the rely. */
  lemma {:induction false} RunApKeeps(s: Sys, cs: seq<Choice>, edit: Option<nat>)
    requires Shape(s) && Inv(s, edit)
    ensures Inv(RunAp(s, cs), edit) && Rely(s, RunAp(s, cs))
    decreases |cs|
  {
    hide Inv, Rely, ApStep;
    if cs == [] {
      RelyReflexive(s, s.pc, s.current);
    } else {
      ApStepKeeps(s, cs[0], edit);
      ApStepRely(s, cs[0], edit);
      RunApKeeps(ApStep(s, cs[0]), cs[1..], edit);
      RelyTransitive(s, ApStep(s, cs[0]), RunAp(s, cs));
    }
  }

  // ----- the BSP's accesses

  /** Everything `reset_ap_request_slot` writes after the state word. */
  function Cleared(slot: Slot): (r: Slot) {
    EMPTY_SLOT.(state := slot.state)
  }

  function WithSlot(s: Sys, i: nat, slot: Slot): (r: Sys)
    requires |s.slots| == 4 && i < 4
  {
    s.(slots := s.slots[i := slot])
  }

  function WithCommitted(s: Sys, i: nat, o: Outbox): (r: Sys)
    requires |s.committed| == 4 && i < 4
  {
    s.(committed := s.committed[i := o])
  }

  /** The request fields for a plan; the slot now holds a new publication. */
  function WithPlan(s: Sys, i: nat, plan: Plan, target: u32): (r: Sys)
    requires Shape(s) && i < 4
  {
    s.(slots := s.slots[i := s.slots[i].(req := RequestFor(plan, target), handled := 0)],
       gens := s.gens[i := s.nextGen], nextGen := s.nextGen + 1)
  }

  function WithFaultCode(s: Sys, i: nat): (r: Sys)
    requires |s.slots| == 4 && i < 4
  {
    WithReply(s, i, s.slots[i].reply.(faultCode := s.boot.faultVector % 0x1_0000_0000))
  }

  function WithWait(s: Sys, i: nat, loops: u32): (r: Sys)
    requires |s.slots| == 4 && i < 4
  {
    s.(slots := s.slots[i := s.slots[i].(waitLoops := loops)])
  }

  function Swapped(s: Sys, i: nat, expected: SlotState, desired: SlotState): (r: Sys)
    requires |s.slots| == 4 && i < 4
  {
    if s.slots[i].state == expected then WithState(s, i, desired) else s
  }

  /** Replacing a slot by one that claims nothing about the AP keeps the invariant. */
  lemma ReplacedKeeps(s: Sys, r: Sys, i: nat, edit: Option<nat>, edit': Option<nat>)
    requires Inv(s, edit) && Shape(r) && i < 4
    requires r == s.(slots := s.slots[i := r.slots[i]], committed := s.committed[i := r.committed[i]],
                     gens := s.gens[i := r.gens[i]], nextGen := r.nextGen)
    requires r.slots[i].state != Running && r.slots[i].state != Done && r.slots[i].state != BadOp
    requires edit' == None || (edit' == Some(i) && (r.slots[i].state == Empty || r.slots[i].state == Fault))
    ensures Inv(r, edit')
  {
    hide OutboxOf;
    assert forall j :: 0 <= j < 4 && j != i ==> SameSlot(s, r, j);
  }

  lemma WaitKeeps(s: Sys, i: nat, loops: u32, edit: Option<nat>)
    requires Inv(s, edit) && i < 4
    ensures Inv(WithWait(s, i, loops), edit)
  {
    hide OutboxOf, ReplyOk, IsPing, Replied, Prepared, Clean, MissCode, HandlerFor, Completed;
    WaitReply(s.slots[i], loops);
    WaitCompleted(s, i, loops);
  }

  lemma WaitCompleted(s: Sys, i: nat, loops: u32)
    requires Shape(s) && AllCompleted(s) && i < 4
    ensures AllCompleted(WithWait(s, i, loops))
  {
    hide OutboxOf, IsPing, MissCode;
  }

  lemma WaitReply(slot: Slot, loops: u32)
    ensures forall w :: ReplyOk(slot.(waitLoops := loops), w) <==> ReplyOk(slot, w)
  {
  }

  /** Once the AP has faulted, nobody else writes the slots. */
  lemma FaultCodeKeeps(s: Sys, i: nat, edit: Option<nat>)
    requires Inv(s, edit) && i < 4 && s.boot.apState == Faulted && s.slots[i].state != Done
    ensures Inv(WithFaultCode(s, i), edit)
  {
    hide OutboxOf;
  }

  // ----- waiting

  /** What waiting for an event adds to the wait count. */
  type Step = x: int | 1 <= x < 0x1_0000_0000 witness 1

  /** `advance_ap_request_wait_loops`: saturating. */
  function Advance(loops: u32, step: Step, limit: u32): (r: u32)
    requires loops <= limit
    ensures loops <= r <= limit && (loops < limit ==> loops < r)
    ensures r == limit || r == loops + step
  {
    if step >= limit - loops then limit else loops + step
  }
}
