/**
  Jobs whose holder is gone: exactly which of them another worker can still take, and
  that the engine never works on the others again.
 */
module LostJobs {

  import opened Wrappers
  import opened AnalysisStatus
  import opened ToolDedup
  import opened ClaimProtocol
  import opened ClaimInvariants
  import opened ClaimTheorems

  /** The session of job j's current token t has ended. */
  predicate Lost(s: Sys, j: JobId, t: Token) {
    j in s.jobs && s.jobs[j].token == Some(t) && t in s.sessions && s.sessions[t].phase == Over
  }

  /** Some clarification waits for an answer that may still be given. */
  predicate Answerable(job: Job, now: Time) {
    exists c :: 0 <= c < |job.clarifications| && IsAwaiting(job, c) && now <= job.clarifications[c].expiresAt
  }

  /** A lease to run out, a recovery left, and a status recovery lists or an answer leads to. */
  predicate Retakable(job: Job, now: Time) {
    && job.lease.Some? && job.recoveryCount == 0
    && (Recoverable(job.status) || (job.status == NeedsClarification && Answerable(job, now)))
  }

  /** The heartbeat under t has ended with its engine. */
  predicate NoRenewals(actions: seq<Action>, t: Token) {
    forall i :: 0 <= i < |actions| && actions[i].Renew? ==> actions[i].token != t
  }

  predicate TakenOver(s: Sys, j: JobId, t: Token) {
    j in s.jobs && s.jobs[j].token != Some(t)
  }

  // ---------------------------------------------------------- one step of a row

  /** What becomes of a lost row that no other worker takes. */
  predicate Drifts(a: Status, b: Status) {
    b == a || b == Cancelled || (a == NeedsClarification && (b == UnderstandingRequest || b == Expired))
  }

  /** The row keeps its token and what the engine made of it, and becomes no easier to take. */
  predicate StaysLost(a: Job, before: Time, b: Job, after: Time) {
    && b.token == a.token && b.tools == a.tools && b.snapshot == a.snapshot
    && Drifts(a.status, b.status)
    && (Retakable(b, after) ==> Retakable(a, before))
  }

  lemma ServiceKeepsLost(job: Job, c: nat, now: Time)
    ensures StaysLost(job, now, RespondJob(job, c, now), now)
    ensures StaysLost(job, now, CancelJob(job, c), now)
  {
    var answered := RespondJob(job, c, now);
    if answered.status == UnderstandingRequest && job.status == NeedsClarification {
      assert IsAwaiting(job, c) && now <= job.clarifications[c].expiresAt;
    }
  }

  lemma ExpiryKeepsLost(job: Job, c: nat, now: Time)
    requires Terminal(job.status) || job.status == NeedsClarification || !Edge(job.status, Expired)
    ensures StaysLost(job, now, ExpireJob(job, c, now), now)
  {
  }

  lemma OnlyQuestionsExpire(status: Status)
    ensures Terminal(status) || status == NeedsClarification || !Edge(status, Expired)
  {
  }

  lemma WaitingKeepsLost(job: Job, before: Time, after: Time)
    requires before <= after
    ensures StaysLost(job, before, job, after)
  {
  }

  lemma OtherWritesKeepLost(job: Job, attempt: nat, now: Time)
    ensures StaysLost(job, now, CloseJob(job, attempt), now)
    ensures StaysLost(job, now, job.(status := Cancelled), now)
  {
  }

  // -------------------------------------------------------- one step of a state

  predicate StateStaysLost(s: Sys, s': Sys, j: JobId, t: Token) {
    Lost(s, j, t) && Lost(s', j, t) && StaysLost(s.jobs[j], s.now, s'.jobs[j], s'.now)
  }

  predicate Untouched(s: Sys, s': Sys, j: JobId, t: Token) {
    && s'.now == s.now && j in s.jobs && j in s'.jobs && s'.jobs[j] == s.jobs[j]
    && t in s.sessions && t in s'.sessions && s'.sessions[t].phase == s.sessions[t].phase
  }

  lemma UntouchedStaysLost(s: Sys, s': Sys, j: JobId, t: Token)
    requires Lost(s, j, t) && Untouched(s, s', j, t)
    ensures StateStaysLost(s, s', j, t)
  {
    WaitingKeepsLost(s.jobs[j], s.now, s.now);
  }

  lemma WrittenStaysLost(s: Sys, s': Sys, j: JobId, t: Token)
    requires Lost(s, j, t) && s'.now == s.now && j in s'.jobs && t in s'.sessions && s'.sessions[t].phase == Over
    requires StaysLost(s.jobs[j], s.now, s'.jobs[j], s.now)
    ensures StateStaysLost(s, s', j, t)
  {
  }

  /** Sessions of other tokens do not pass the fence, and the lost one does nothing. */
  lemma TransactionsPassBy(s: Sys, u: Token, outcome: Outcome, j: JobId, t: Token)
    requires Lost(s, j, t)
    ensures Untouched(s, StepBegin(s, u, outcome), j, t)
    ensures Untouched(s, StepResume(s, u), j, t)
    ensures Untouched(s, StepPersistFailure(s, u), j, t)
  {
  }

  lemma SessionEndsPassBy(s: Sys, u: Token, j: JobId, t: Token)
    requires Lost(s, j, t)
    ensures Untouched(s, StepRaise(s, u), j, t)
    ensures Untouched(s, StepCrash(s, u), j, t)
  {
  }

  lemma EngineKeepsLost(s: Sys, a: Action, j: JobId, t: Token)
    requires Lost(s, j, t)
    requires a.Begin? || a.Resume? || a.PersistFailure? || a.Raise? || a.Crash?
    ensures StateStaysLost(s, Step(s, a), j, t)
  {
    match a
    case Begin(u, outcome) => TransactionsPassBy(s, u, outcome, j, t);
    case Resume(u) => TransactionsPassBy(s, u, DenyBeforeModel, j, t);
    case PersistFailure(u) => TransactionsPassBy(s, u, DenyBeforeModel, j, t);
    case Raise(u) => SessionEndsPassBy(s, u, j, t);
    case Crash(u) => SessionEndsPassBy(s, u, j, t);
    UntouchedStaysLost(s, Step(s, a), j, t);
  }

  lemma ClosingKeepsLost(s: Sys, u: Token, j: JobId, t: Token)
    requires Lost(s, j, t)
    ensures StateStaysLost(s, StepCloseClarification(s, u), j, t)
  {
    WaitingKeepsLost(s.jobs[j], s.now, s.now);
    if u in s.sessions && s.sessions[u].phase.AfterClarification? {
      OtherWritesKeepLost(s.jobs[j], s.sessions[u].phase.attempt, s.now);
    }
    WrittenStaysLost(s, StepCloseClarification(s, u), j, t);
  }

  lemma RouteKeepsLost(s: Sys, r: RequestId, k: JobId, j: JobId, t: Token)
    requires Lost(s, j, t)
    ensures StateStaysLost(s, StepReadForCancel(s, r, k), j, t)
    ensures StateStaysLost(s, StepWriteCancelled(s, r), j, t)
  {
    WaitingKeepsLost(s.jobs[j], s.now, s.now);
    OtherWritesKeepLost(s.jobs[j], 0, s.now);
    WrittenStaysLost(s, StepReadForCancel(s, r, k), j, t);
    WrittenStaysLost(s, StepWriteCancelled(s, r), j, t);
  }

  lemma ServicesKeepLost(s: Sys, k: JobId, c: nat, j: JobId, t: Token)
    requires Lost(s, j, t)
    ensures StateStaysLost(s, StepRespond(s, k, c), j, t)
    ensures StateStaysLost(s, StepExpireDue(s, k, c), j, t)
    ensures StateStaysLost(s, StepCancel(s, k, c), j, t)
  {
    WaitingKeepsLost(s.jobs[j], s.now, s.now);
    ServiceKeepsLost(s.jobs[j], c, s.now);
    OnlyQuestionsExpire(s.jobs[j].status);
    ExpiryKeepsLost(s.jobs[j], c, s.now);
  }

  lemma RenewalKeepsLost(s: Sys, k: JobId, u: Token, w: Worker, j: JobId, t: Token)
    requires Lost(s, j, t) && u != t
    ensures StateStaysLost(s, StepRenew(s, k, u, w), j, t)
  {
    WaitingKeepsLost(s.jobs[j], s.now, s.now);
  }

  lemma ClaimKeepsLost(s: Sys, w: Worker, lockedRows: set<JobId>, k: JobId, u: Token, j: JobId, t: Token)
    requires Lost(s, j, t)
    ensures StateStaysLost(s, StepClaim(s, w, lockedRows, k, u), j, t)
  {
    WaitingKeepsLost(s.jobs[j], s.now, s.now);
  }

  lemma RecoveryOfLost(s: Sys, w: Worker, lockedRows: set<JobId>, k: JobId, u: Token, j: JobId, t: Token)
    requires Lost(s, j, t)
    ensures var s' := StepRecover(s, w, lockedRows, k, u);
            StateStaysLost(s, s', j, t) || (Stale(s.jobs[j], s.now) && TakenOver(s', j, t))
  {
    WaitingKeepsLost(s.jobs[j], s.now, s.now);
  }

  lemma ServiceStepOfLost(s: Sys, a: Action, j: JobId, t: Token)
    requires Lost(s, j, t) && IsService(a)
    ensures StateStaysLost(s, Step(s, a), j, t)
  {
    match a
    case Respond(k, c) => ServicesKeepLost(s, k, c, j, t);
    case ExpireDue(k, c) => ServicesKeepLost(s, k, c, j, t);
    case CancelClarification(k, c) => ServicesKeepLost(s, k, c, j, t);
  }

  lemma OtherStepOfLost(s: Sys, a: Action, j: JobId, t: Token)
    requires Lost(s, j, t) && (a.Renew? ==> a.token != t)
    requires a.Tick? || a.Submit? || a.Claim? || a.Renew? || a.CloseClarification? || a.ReadForCancel? || a.WriteCancelled?
    ensures StateStaysLost(s, Step(s, a), j, t)
  {
    match a
    case Tick(seconds) => WaitingKeepsLost(s.jobs[j], s.now, s.now + seconds);
    case Submit(_) => UntouchedStaysLost(s, Step(s, a), j, t);
    case Claim(w, lockedRows, k, u) => ClaimKeepsLost(s, w, lockedRows, k, u, j, t);
    case Renew(k, u, w) => RenewalKeepsLost(s, k, u, w, j, t);
    case CloseClarification(u) => ClosingKeepsLost(s, u, j, t);
    case ReadForCancel(r, k) => RouteKeepsLost(s, r, k, j, t);
    case WriteCancelled(r) => RouteKeepsLost(s, r, 0, j, t);
  }

  /** A lost job stays lost, or it was stale and is taken by a recovery. */
  lemma StepOfLost(s: Sys, a: Action, j: JobId, t: Token)
    requires Lost(s, j, t) && (a.Renew? ==> a.token != t)
    ensures StateStaysLost(s, Step(s, a), j, t) || (Stale(s.jobs[j], s.now) && TakenOver(Step(s, a), j, t))
  {
    if a.Recover? {
      RecoveryOfLost(s, a.worker, a.lockedRows, a.job, a.token, j, t);
    } else if IsService(a) {
      ServiceStepOfLost(s, a, j, t);
    } else if a.Begin? || a.Resume? || a.PersistFailure? || a.Raise? || a.Crash? {
      EngineKeepsLost(s, a, j, t);
    } else {
      OtherStepOfLost(s, a, j, t);
    }
  }

  // ----------------------------------------------------------------- no way back

  /** Lost, and not to be taken by anyone. */
  predicate Stuck(s: Sys, j: JobId, t: Token) {
    Lost(s, j, t) && !Retakable(s.jobs[j], s.now)
  }

  /**
    A stuck job stays stuck in every continuation: its token is final, and the engine
    adds no tool row and no snapshot. Its status changes only by an answer, an expiry or
    a cancellation.
   */
  lemma {:induction false} StuckForever(s: Sys, actions: seq<Action>, j: JobId, t: Token)
    requires Inv(s) && Stuck(s, j, t) && NoRenewals(actions, t)
    ensures Stuck(Run(s, actions), j, t)
    ensures var a, b := s.jobs[j], Run(s, actions).jobs[j];
            b.tools == a.tools && b.snapshot == a.snapshot && Drifts(a.status, b.status)
    decreases |actions|
  {
    if actions != [] {
      assert actions[0].Renew? ==> actions[0].token != t;
      StepOfLost(s, actions[0], j, t);
      StepKeepsInv(s, actions[0]);
      assert NoRenewals(actions[1..], t);
      StuckForever(Step(s, actions[0]), actions[1..], j, t);
    }
  }

  // ---------------------------------------------------------------- the way back

  lemma {:induction false} Above(keys: set<nat>) returns (u: nat)
    ensures forall k :: k in keys ==> k < u
  {
    if keys == {} {
      u := 0;
    } else {
      var k :| k in keys;
      var v := Above(keys - {k});
      u := if k < v then v else k + 1;
      assert forall l :: l in keys ==> l == k || l in keys - {k};
    }
  }

  function Overdue(lease: Time, now: Time): nat {
    if lease < now then 0 else lease - now + 1
  }

  /** The rows of all other jobs are locked; the lease runs out; another worker recovers. */
  function Recovery(s: Sys, j: JobId, u: Token): seq<Action>
    requires j in s.jobs && s.jobs[j].lease.Some?
  {
    [Tick(Overdue(s.jobs[j].lease.value, s.now))] + [Recover("a", s.jobs.Keys - {j}, j, u)]
  }

  lemma RecoveryTakes(s: Sys, j: JobId, t: Token, u: Token)
    requires Lost(s, j, t) && u !in s.sessions
    requires Recoverable(s.jobs[j].status) && s.jobs[j].lease.Some? && s.jobs[j].recoveryCount == 0
    ensures TakenOver(Run(s, Recovery(s, j, u)), j, t)
  {
    ValidNames();
    var tick := Tick(Overdue(s.jobs[j].lease.value, s.now));
    var later := Step(s, tick);
    RunThen(s, [tick], Recover("a", s.jobs.Keys - {j}, j, u));
    RunThen(s, [], tick);
    assert [] + [tick] == [tick];
    assert NextStale(later, s.jobs.Keys - {j}, j);
  }

  /** An answer in time puts the job back among the recoverable ones, lease and recovery untouched. */
  lemma AnswerReopens(s: Sys, j: JobId, t: Token) returns (c: nat)
    requires Inv(s) && Lost(s, j, t) && s.jobs[j].status == NeedsClarification && Answerable(s.jobs[j], s.now)
    ensures var s' := Step(s, Respond(j, c));
            && Lost(s', j, t) && s'.jobs[j].status == UnderstandingRequest && s'.sessions == s.sessions
            && s'.jobs[j].lease == s.jobs[j].lease && s'.jobs[j].recoveryCount == s.jobs[j].recoveryCount
  {
    var job := s.jobs[j];
    assert JobOk(j, job, s.sessions);
    c :| 0 <= c < |job.clarifications| && IsAwaiting(job, c) && s.now <= job.clarifications[c].expiresAt;
    OpenAttemptOk(job);
  }

  lemma SomeoneTakes(s: Sys, j: JobId, t: Token) returns (actions: seq<Action>)
    requires Inv(s) && Lost(s, j, t) && Retakable(s.jobs[j], s.now)
    ensures NoRenewals(actions, t) && TakenOver(Run(s, actions), j, t)
  {
    var u := Above(s.sessions.Keys);
    if Recoverable(s.jobs[j].status) {
      RecoveryTakes(s, j, t, u);
      actions := Recovery(s, j, u);
    } else {
      var c := AnswerReopens(s, j, t);
      var answer := Respond(j, c);
      var s' := Step(s, answer);
      RecoveryTakes(s', j, t, u);
      actions := [answer] + Recovery(s', j, u);
      RunAppend(s, [answer], Recovery(s', j, u));
      RunThen(s, [], answer);
      assert [] + [answer] == [answer];
    }
  }

  /**
    A job whose engine has ended can be taken by another worker in some continuation if
    and only if it has a lease and an unused recovery, and its status is one that recovery
    lists or waits for an answer that may still come.
   */
  lemma LostJobRetakenExactly(s: Sys, j: JobId, t: Token)
    requires Inv(s) && Lost(s, j, t)
    ensures (exists actions :: NoRenewals(actions, t) && TakenOver(Run(s, actions), j, t)) <==> Retakable(s.jobs[j], s.now)
  {
    if Retakable(s.jobs[j], s.now) {
      var actions := SomeoneTakes(s, j, t);
    }
    if actions :| NoRenewals(actions, t) && TakenOver(Run(s, actions), j, t) {
      if !Retakable(s.jobs[j], s.now) {
        StuckForever(s, actions, j, t);
        assert false;
      }
    }
  }

  // ------------------------------------------- three ways to get stuck, from the start

  /** The worker is lost behind a tool that ended its transaction. */
  function LostInTheToolPhase(): seq<Action> {
    [Submit(0)] + [Claim("a", {}, 0, 1)] + [Begin(1, ExecutePlan([COMMITTING]))] + [Crash(1)]
  }

  lemma ToolPhaseIsReached()
    ensures var s := Step(ClaimedState(), Begin(1, ExecutePlan([COMMITTING])));
            0 in s.jobs && s.jobs[0].status == ExecutingTools && s.jobs[0].token == Some(1) && 1 in s.sessions
  {
    assert RunTools([], [], [COMMITTING], 0, 1) == Stopped([], [], 0);
    assert FirstTransaction(ClaimedState().jobs[0], 1, ExecutePlan([COMMITTING]), 0).Commit?;
  }

  lemma LostInToolsIsStuck(s: Sys, lost: Sys, j: JobId, t: Token)
    requires j in s.jobs && s.jobs[j].status == ExecutingTools && s.jobs[j].token == Some(t) && t in s.sessions
    requires lost == Step(s, Crash(t))
    ensures Stuck(lost, j, t) && lost.jobs[j].status == ExecutingTools
  {
  }

  lemma ToolPhaseIsFinal(actions: seq<Action>)
    requires NoRenewals(actions, 1)
    ensures var s := Run(Start(0), LostInTheToolPhase());
            && Stuck(s, 0, 1) && s.jobs[0].status == ExecutingTools
            && Stuck(Run(s, actions), 0, 1)
  {
    ClaimedIsReached();
    ToolPhaseIsReached();
    var r := [Submit(0)] + [Claim("a", {}, 0, 1)];
    var lost := Run(Start(0), LostInTheToolPhase());
    RunThen(Start(0), r + [Begin(1, ExecutePlan([COMMITTING]))], Crash(1));
    RunThen(Start(0), r, Begin(1, ExecutePlan([COMMITTING])));
    LostInToolsIsStuck(Step(ClaimedState(), Begin(1, ExecutePlan([COMMITTING]))), lost, 0, 1);
    ReachableInv(0, LostInTheToolPhase());
    StuckForever(lost, actions, 0, 1);
  }

  /** Nothing is lost: the engine asks and closes, and the user answers. */
  function AnsweredInOrder(): seq<Action> {
    [Submit(0)] + [Claim("a", {}, 0, 1)] + [Begin(1, AskClarification)] + [CloseClarification(1)] + [Respond(0, 0)]
  }

  lemma AnswerFollowsClosing()
    ensures var s := Step(Step(AskedState(), CloseClarification(1)), Respond(0, 0));
            Lost(s, 0, 1) && s.jobs[0].status == UnderstandingRequest && s.jobs[0].lease == None
  {
  }

  /** An answered clarification is never worked on: the closing write has taken the lease that recovery looks for. */
  lemma AnsweredIsFinal(actions: seq<Action>)
    requires NoRenewals(actions, 1)
    ensures var s := Run(Start(0), AnsweredInOrder());
            && Stuck(s, 0, 1) && s.jobs[0].status == UnderstandingRequest
            && Stuck(Run(s, actions), 0, 1)
  {
    AskedIsReached();
    AnswerFollowsClosing();
    var r := [Submit(0)] + [Claim("a", {}, 0, 1)] + [Begin(1, AskClarification)];
    RunThen(Start(0), r + [CloseClarification(1)], Respond(0, 0));
    RunThen(Start(0), r, CloseClarification(1));
    RunOfThree(Start(0), Submit(0), Claim("a", {}, 0, 1), Begin(1, AskClarification));
    ReachableInv(0, AnsweredInOrder());
    StuckForever(Run(Start(0), AnsweredInOrder()), actions, 0, 1);
  }

  /** Two workers are lost before either wrote anything. */
  function LostTwice(): seq<Action> {
    [Submit(0)] + [Claim("a", {}, 0, 1)] + [Crash(1)] + [Tick(901)] + [Recover("b", {}, 0, 2)] + [Crash(2)]
  }

  lemma SecondLossFollows()
    ensures var s := Step(Step(Step(Step(ClaimedState(), Crash(1)), Tick(901)), Recover("b", {}, 0, 2)), Crash(2));
            Lost(s, 0, 2) && s.jobs[0].status == Received && s.jobs[0].recoveryCount == 1
  {
    ValidNames();
    var s := Step(Step(ClaimedState(), Crash(1)), Tick(901));
    assert NextStale(s, {}, 0);
  }

  lemma SecondLossIsFinal(actions: seq<Action>)
    requires NoRenewals(actions, 2)
    ensures var s := Run(Start(0), LostTwice());
            && Stuck(s, 0, 2) && s.jobs[0].status == Received
            && Stuck(Run(s, actions), 0, 2)
  {
    ClaimedIsReached();
    SecondLossFollows();
    var r := [Submit(0)] + [Claim("a", {}, 0, 1)];
    RunThen(Start(0), r + [Crash(1)] + [Tick(901)] + [Recover("b", {}, 0, 2)], Crash(2));
    RunThen(Start(0), r + [Crash(1)] + [Tick(901)], Recover("b", {}, 0, 2));
    RunThen(Start(0), r + [Crash(1)], Tick(901));
    RunThen(Start(0), r, Crash(1));
    ReachableInv(0, LostTwice());
    StuckForever(Run(Start(0), LostTwice()), actions, 0, 2);
  }
}
