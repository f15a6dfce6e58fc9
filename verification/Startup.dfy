/** The kernel's own use of the parts (kernel/kernel.c, lines 4486-4491): a broadcast ping to all APs, then
    the request stream on one of them. */
module Startup {
  import opened Words
  import opened ApRequest
  import opened ApServices
  import opened Protocol
  import opened StreamLive
  import opened StreamBook
  import opened Pace
  import Broadcast
  import Stream

  /** What the other processors and the wait timer do during the two calls. */
  datatype Environment = Environment(
    pings: nat -> nat -> seq<Choice>, pingDelay: nat -> Step,
    script: nat -> seq<Choice>, race: nat -> seq<Choice>, delay: nat -> Step)

  /** On an AP that is idle after bring-up, a broadcast round that does not record that AP's ping late leaves
      it ready for the stream, which then runs with all its guarantees; the AP's counters start where they
      stood before the broadcast.  If the AP accepts requests, keeps its pace in both calls and knows the
      services of the plan, and there is time enough, its ping is DONE and so is every request of the plan. */
  method PingThenStream(contexts: seq<Sys>, k: nat, plan: seq<Plan>, timeout: u32, env: Environment,
                        ghost pace: nat, ghost longest: nat)
    returns (round: Broadcast.PingRound, stream: Option<Stream.RequestStream>, ok: bool)
    requires forall i :: 0 <= i < |contexts| ==> Inv(contexts[i], None)
    requires k < |contexts| && k < MAX_CONTEXTS && Idle(contexts[k])
    ensures round.planned == round.completed == round.good + round.bad && k < |round.entries|
    ensures stream.Some? <==> !Broadcast.Late(round.entries[k], timeout)
    ensures stream.Some? ==>
              var st := stream.value;
              && st.job.plan == plan && st.handledBase == contexts[k].handled && st.counterStart == contexts[k].counter
              && |st.log| == st.next <= |plan| && LogAccount(st.job, st.next, st.log)
              && (forall n: nat :: Logged(st.log, n) == One(st.job.base <= n < st.job.base + st.next))
              && (ok <==> 4 <= |plan| && st.next == |plan| && AllDone(st.log))
    ensures Accepting(contexts[k].boot) && InClaimLoop(contexts[k].pc) && round.Patient() && round.OnPace(k) ==>
              && round.entries[k].Some? && round.entries[k].value.ok && stream.Some?
              && (stream.value.Feasible() ==> stream.value.apt)
              && (stream.value.OnPace() && 4 <= |plan| ==> ok)
  {
    hide Inv, Idle, LogAccount, Logged, AllDone;
    hide Broadcast.PingRound.Sound, Broadcast.Tally, Broadcast.DoneFlags, Broadcast.FailedFlags, Broadcast.Decided, Broadcast.ReportOk, Broadcast.Late;
    hide Broadcast.PingRound.LateIsJust, Broadcast.PingRound.Patient, Broadcast.PingRound.OnPace;
    hide Stream.RequestStream.Timed, Stream.RequestStream.OnPace, Stream.RequestStream.Feasible;
    round := new Broadcast.PingRound(contexts, timeout, env.pings, env.pingDelay, pace, longest);
    round.Run(Some(k));
    stream, ok := None, false;
    if !Broadcast.Late(round.entries[k], timeout) {
      var st := new Stream.RequestStream(round.sys[k], plan, k + 1, timeout, env.script, env.race, env.delay, pace, longest);
      var result, _ := st.Run();
      stream, ok := Some(st), result;
    }
  }
}
