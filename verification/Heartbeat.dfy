/**
  The lease of an analysis job: what a renewal protects against, and the heartbeat
  loop that keeps renewing while anything else may happen in between.
 */
module Heartbeat {

  import opened Wrappers
  import opened AnalysisStatus
  import opened ToolDedup
  import opened ClaimProtocol

  // ------------------------------------------------------ what a lease protects

  /** Token t holds job j, and its lease, if it has one, does not run out before `until`. */
  predicate Protected(s: Sys, j: JobId, t: Token, until: Time) {
    && j in s.jobs && s.jobs[j].token == Some(t)
    && (s.jobs[j].lease.Some? ==> s.jobs[j].lease.value >= until)
  }

  /** A claim or a recovery by worker w that takes job j under token t. */
  predicate Takes(s: Sys, a: Action, j: JobId, t: Token, w: Worker) {
    && ValidWorker(w) && t !in s.sessions
    && ((a.Claim? && a == Claim(w, a.lockedRows, j, t) && NextFresh(s, a.lockedRows, j))
        || (a.Recover? && a == Recover(w, a.lockedRows, j, t) && NextStale(s, a.lockedRows, j)))
  }

  /** Every claim and every recovery protects the job it takes. */
  lemma IssueProtects(s: Sys, a: Action, j: JobId, t: Token, w: Worker)
    requires Takes(s, a, j, t, w)
    ensures Protected(Step(s, a), j, t, s.now + LEASE_SECONDS) && Step(s, a).now == s.now
  {
  }

  /** Writes of the engine and of the clarification service keep the lease or take it away. */
  predicate LeaseKept(a: Job, b: Job) {
    b.token == a.token && (b.lease == a.lease || b.lease.None?)
  }

  lemma FinishKeepsLease(job: Job, attempt: nat, outputs: seq<ToolOutput>, now: Time)
    ensures var e := Finish(job, attempt, outputs, now); e.Commit? ==> LeaseKept(job, e.job)
  {
  }

  lemma AfterToolsKeepsLease(job: Job, plan: seq<PlannedCall>, attempt: nat, end: LoopEnd, now: Time)
    ensures var e := AfterTools(job, plan, attempt, end, now); e.Commit? ==> LeaseKept(job, e.job)
  {
    if end.Finished? {
      FinishKeepsLease(job.(tools := end.rows), attempt, end.outputs, now);
    }
  }

  lemma FirstTransactionKeepsLease(job: Job, t: Token, outcome: Outcome, now: Time)
    ensures var e := FirstTransaction(job, t, outcome, now); e.Commit? ==> LeaseKept(job, e.job)
  {
  }

  lemma LaterTransactionKeepsLease(job: Job, t: Token, phase: Phase, now: Time)
    requires phase.InTool?
    ensures var e := LaterTransaction(job, t, phase, now); e.Commit? ==> LeaseKept(job, e.job)
  {
    if phase.next < |phase.plan| {
      var call := phase.plan[phase.next];
      var end := RunTools(job.tools + [RowFor(call, t)], phase.outputs + [call.output], phase.plan, phase.next + 1, t);
      AfterToolsKeepsLease(job, phase.plan, phase.attempt, end, now);
    }
  }

  lemma ServiceKeepsLease(job: Job, c: nat, now: Time)
    ensures LeaseKept(job, RespondJob(job, c, now)) && LeaseKept(job, ExpireJob(job, c, now)) && LeaseKept(job, CancelJob(job, c))
  {
  }

  predicate KeepsLeases(s: Sys, s': Sys, j: JobId) {
    j in s.jobs ==> j in s'.jobs && LeaseKept(s.jobs[j], s'.jobs[j])
  }

  lemma BeginKeepsLeases(s: Sys, t: Token, outcome: Outcome, j: JobId)
    ensures KeepsLeases(s, StepBegin(s, t, outcome), j)
  {
    if t in s.sessions && s.sessions[t].job in s.jobs {
      FirstTransactionKeepsLease(s.jobs[s.sessions[t].job], t, outcome, s.now);
    }
  }

  lemma ResumeKeepsLeases(s: Sys, t: Token, j: JobId)
    ensures KeepsLeases(s, StepResume(s, t), j)
  {
    if t in s.sessions && s.sessions[t].job in s.jobs && s.sessions[t].phase.InTool? {
      LaterTransactionKeepsLease(s.jobs[s.sessions[t].job], t, s.sessions[t].phase, s.now);
    }
  }

  lemma OtherWritesKeepLeases(s: Sys, t: Token, j: JobId)
    ensures KeepsLeases(s, StepPersistFailure(s, t), j)
    ensures KeepsLeases(s, StepCloseClarification(s, t), j)
    ensures KeepsLeases(s, StepRaise(s, t), j)
    ensures KeepsLeases(s, StepCrash(s, t), j)
  {
  }

  lemma ServiceKeepsLeases(s: Sys, k: JobId, c: nat, j: JobId)
    ensures KeepsLeases(s, StepRespond(s, k, c), j)
    ensures KeepsLeases(s, StepExpireDue(s, k, c), j)
    ensures KeepsLeases(s, StepCancel(s, k, c), j)
  {
    if k in s.jobs {
      ServiceKeepsLease(s.jobs[k], c, s.now);
    }
  }

  lemma RouteKeepsLeases(s: Sys, r: RequestId, k: JobId, j: JobId)
    ensures KeepsLeases(s, StepReadForCancel(s, r, k), j) && KeepsLeases(s, StepWriteCancelled(s, r), j)
  {
  }

  /** Claims and recoveries leave a protected row alone. */
  lemma IssuePassesBy(s: Sys, w: Worker, lockedRows: set<JobId>, k: JobId, u: Token, j: JobId, t: Token, until: Time)
    requires Protected(s, j, t, until) && s.now <= until
    ensures Protected(StepClaim(s, w, lockedRows, k, u), j, t, until)
    ensures Protected(StepRecover(s, w, lockedRows, k, u), j, t, until)
  {
  }

  lemma StepProtects(s: Sys, a: Action, j: JobId, t: Token, until: Time)
    requires Protected(s, j, t, until) && s.now <= until <= s.now + LEASE_SECONDS
    ensures Protected(Step(s, a), j, t, until)
  {
    match a
    case Tick(_) =>
    case Submit(_) =>
    case Claim(w, lockedRows, k, u) => IssuePassesBy(s, w, lockedRows, k, u, j, t, until);
    case Recover(w, lockedRows, k, u) => IssuePassesBy(s, w, lockedRows, k, u, j, t, until);
    case Renew(_, _, _) =>
    case Begin(u, outcome) => BeginKeepsLeases(s, u, outcome, j);
    case Resume(u) => ResumeKeepsLeases(s, u, j);
    case PersistFailure(u) => OtherWritesKeepLeases(s, u, j);
    case CloseClarification(u) => OtherWritesKeepLeases(s, u, j);
    case Raise(u) => OtherWritesKeepLeases(s, u, j);
    case Crash(u) => OtherWritesKeepLeases(s, u, j);
    case Respond(k, c) => ServiceKeepsLeases(s, k, c, j);
    case ExpireDue(k, c) => ServiceKeepsLeases(s, k, c, j);
    case CancelClarification(k, c) => ServiceKeepsLeases(s, k, c, j);
    case ReadForCancel(r, k) => RouteKeepsLeases(s, r, k, j);
    case WriteCancelled(r) => RouteKeepsLeases(s, r, 0, j);
  }

  /** Seconds that pass in a run. */
  function Elapsed(actions: seq<Action>): nat {
    if actions == [] then 0
    else (if actions[0].Tick? then actions[0].seconds else 0) + Elapsed(actions[1..])
  }

  lemma ClockTicks(s: Sys, a: Action)
    ensures Step(s, a).now == s.now + if a.Tick? then a.seconds else 0
  {
  }

  lemma {:induction false} RunProtects(s: Sys, actions: seq<Action>, j: JobId, t: Token, until: Time)
    requires Protected(s, j, t, until) && s.now + Elapsed(actions) <= until <= s.now + LEASE_SECONDS
    ensures Protected(Run(s, actions), j, t, until)
    ensures Run(s, actions).now == s.now + Elapsed(actions)
    decreases |actions|
  {
    if actions != [] {
      ClockTicks(s, actions[0]);
      StepProtects(s, actions[0], j, t, until);
      RunProtects(Step(s, actions[0]), actions[1..], j, t, until);
    }
  }

  predicate Renews(s: Sys, j: JobId, t: Token, w: Worker) {
    ValidWorker(w) && j in s.jobs && Fence(s.jobs[j], t, w)
  }

  /** A renewal keeps the job for its holder for 900 seconds, whatever else runs meanwhile. */
  lemma RenewalHoldsTheJob(s: Sys, j: JobId, t: Token, w: Worker, actions: seq<Action>)
    requires Renews(s, j, t, w) && Elapsed(actions) <= LEASE_SECONDS
    ensures var end := Run(StepRenew(s, j, t, w), actions); j in end.jobs && end.jobs[j].token == Some(t)
  {
    RunProtects(StepRenew(s, j, t, w), actions, j, t, s.now + LEASE_SECONDS);
  }

  // ---------------------------------------------------------- the heartbeat loop

  /**
    One turn: what happens elsewhere while the loop sleeps, whether the engine is done
    by then, and whether the renewal raises.
   */
  datatype Pulse = Pulse(others: seq<Action>, engineDone: bool, raises: bool)

  datatype Beat = Beat(state: Sys, cancelled: bool)

  /** The loop over the pulses; a lost or failed renewal cancels the engine's task. */
  function Beats(s: Sys, j: JobId, t: Token, w: Worker, pulses: seq<Pulse>): Beat
    decreases |pulses|
  {
    if pulses == [] then Beat(s, false)
    else
      var p := pulses[0];
      var later := Run(s, p.others);
      if p.engineDone then Beat(later, false)
      else if p.raises || !Renews(later, j, t, w) then Beat(StepCrash(later, t), true)
      else Beats(StepRenew(later, j, t, w), j, t, w, pulses[1..])
  }

  function BeatActions(s: Sys, j: JobId, t: Token, w: Worker, pulses: seq<Pulse>): seq<Action>
    decreases |pulses|
  {
    if pulses == [] then []
    else
      var p := pulses[0];
      var later := Run(s, p.others);
      if p.engineDone then p.others
      else if p.raises || !Renews(later, j, t, w) then p.others + [Crash(t)]
      else p.others + [Renew(j, t, w)] + BeatActions(StepRenew(later, j, t, w), j, t, w, pulses[1..])
  }

  /** The loop takes steps of the protocol only, so every statement about runs holds with heartbeats in them. */
  lemma {:induction false} HeartbeatIsARun(s: Sys, j: JobId, t: Token, w: Worker, pulses: seq<Pulse>)
    ensures Beats(s, j, t, w, pulses).state == Run(s, BeatActions(s, j, t, w, pulses))
    decreases |pulses|
  {
    if pulses != [] {
      var p := pulses[0];
      var later := Run(s, p.others);
      if !p.engineDone {
        if p.raises || !Renews(later, j, t, w) {
          RunThen(s, p.others, Crash(t));
        } else {
          var next := StepRenew(later, j, t, w);
          RunThen(s, p.others, Renew(j, t, w));
          HeartbeatIsARun(next, j, t, w, pulses[1..]);
          RunAppend(s, p.others + [Renew(j, t, w)], BeatActions(next, j, t, w, pulses[1..]));
        }
      }
    }
  }

  /** The state behind k pulses that all renewed the lease. */
  function AfterPulses(s: Sys, j: JobId, t: Token, w: Worker, pulses: seq<Pulse>, k: nat): Sys
    requires k <= |pulses|
    decreases k
  {
    if k == 0 then s
    else AfterPulses(Step(Run(s, pulses[0].others), Renew(j, t, w)), j, t, w, pulses[1..], k - 1)
  }

  /** The k-th pulse finds the engine at work, and its renewal neither raises nor is refused. */
  predicate PulseRenews(s: Sys, j: JobId, t: Token, w: Worker, pulses: seq<Pulse>, k: nat)
    requires k < |pulses|
  {
    && !pulses[k].engineDone && !pulses[k].raises
    && Renews(Run(AfterPulses(s, j, t, w, pulses, k), pulses[k].others), j, t, w)
  }

  /**
    Where the loop ends: when it is out of pulses; when the engine is done, leaving its
    task alone; or at the first renewal that raises or is refused, and then, and only
    then, the engine's task is cancelled.
   */
  lemma {:induction false} HeartbeatEnds(s: Sys, j: JobId, t: Token, w: Worker, pulses: seq<Pulse>) returns (k: nat)
    ensures k <= |pulses| && forall i: nat :: i < k ==> PulseRenews(s, j, t, w, pulses, i)
    ensures k < |pulses| ==> !PulseRenews(s, j, t, w, pulses, k)
    ensures var at := AfterPulses(s, j, t, w, pulses, k);
            Beats(s, j, t, w, pulses) ==
            if k == |pulses| then Beat(at, false)
            else if pulses[k].engineDone then Beat(Run(at, pulses[k].others), false)
            else Beat(Step(Run(at, pulses[k].others), Crash(t)), true)
    decreases |pulses|
  {
    if pulses == [] || !PulseRenews(s, j, t, w, pulses, 0) {
      k := 0;
    } else {
      var next := Step(Run(s, pulses[0].others), Renew(j, t, w));
      var m := HeartbeatEnds(next, j, t, w, pulses[1..]);
      k := m + 1;
      forall i: nat | i < k ensures PulseRenews(s, j, t, w, pulses, i) {
        if i > 0 {
          assert PulseRenews(next, j, t, w, pulses[1..], i - 1);
        }
      }
    }
  }

  predicate InTime(pulses: seq<Pulse>) {
    forall i :: 0 <= i < |pulses| ==> Elapsed(pulses[i].others) <= LEASE_SECONDS
  }

  lemma {:induction false} BeatsProtect(s: Sys, j: JobId, t: Token, w: Worker, pulses: seq<Pulse>)
    requires Protected(s, j, t, s.now + LEASE_SECONDS) && InTime(pulses)
    ensures var end := Beats(s, j, t, w, pulses).state; j in end.jobs && end.jobs[j].token == Some(t)
    decreases |pulses|
  {
    if pulses != [] {
      var p := pulses[0];
      RunProtects(s, p.others, j, t, s.now + LEASE_SECONDS);
      var later := Run(s, p.others);
      if p.engineDone {
      } else if p.raises || !Renews(later, j, t, w) {
        OtherWritesKeepLeases(later, t, j);
      } else {
        assert InTime(pulses[1..]);
        BeatsProtect(StepRenew(later, j, t, w), j, t, w, pulses[1..]);
      }
    }
  }

  /**
    From the claim or recovery that takes a job to the end of the heartbeat, as long as
    no more than 900 seconds lie between renewals: no other worker takes the job over,
    whatever happens in between.
   */
  lemma NeverTakenOver(s: Sys, a: Action, j: JobId, t: Token, w: Worker, pulses: seq<Pulse>)
    requires Takes(s, a, j, t, w) && InTime(pulses)
    ensures var end := Beats(Step(s, a), j, t, w, pulses).state; j in end.jobs && end.jobs[j].token == Some(t)
  {
    IssueProtects(s, a, j, t, w);
    BeatsProtect(Step(s, a), j, t, w, pulses);
  }
}
