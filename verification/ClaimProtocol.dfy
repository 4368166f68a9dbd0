/**
  Claim, lease and fencing of analysis jobs as a state machine over committed
  states (migration 031, engine.py, analysis_worker.py, clarification_service.py,
  and the cancel route of routers/analyses.py).

  A fence test holds the job row until the transaction ends, so the test and all
  writes behind it are one step. Steps that find their guard false leave the state
  as it is, as the SQL they stand for does; a run is any list of actions.
 */
module ClaimProtocol {

  import opened Wrappers
  import opened AnalysisStatus
  import opened ToolDedup

  type JobId = nat
  type Worker = string
  type Time = int

  /** Fifteen minutes, for the lease and for the answer to a clarification. */
  const LEASE_SECONDS: Time := 900
  const CLARIFICATION_SECONDS: Time := 900

  /** Statuses from which a job with an expired lease may be recovered. */
  predicate Recoverable(s: Status) {
    || s.Received? || s.UnderstandingRequest? || s.Planning? || s.PolicyCheck?
    || s.RetrievingInternalSources? || s.ValidatingSources?
  }

  /** Statuses under which the fence and the lease renewal let the holder act. */
  predicate Active(s: Status) {
    || Recoverable(s)
    || s.ExecutingTools? || s.ReconcilingResults? || s.GeneratingStructuredResult? || s.QualityGate?
  }

  // ----------------------------------------------------------------- rows

  datatype AttemptStatus =
    | AttemptInProgress | AttemptRunning | AttemptAbandoned | AttemptCompleted
    | AttemptFailed | AttemptRejected | AttemptNeedsClarification

  datatype Attempt = Attempt(number: nat, status: AttemptStatus)

  datatype ClarificationStatus = Awaiting | Answered | ClarificationExpired | ClarificationCancelled

  datatype Clarification = Clarification(status: ClarificationStatus, expiresAt: Time, attemptNumber: nat)

  datatype Snapshot = Snapshot(datasetId: string, takenAt: Time)

  /** The job row together with the rows that hang off it. */
  datatype Job = Job(
    status: Status,
    lockedBy: Option<Worker>,
    token: Option<Token>,
    lease: Option<Time>,
    recoveryCount: int,
    createdAt: Time,
    attempts: seq<Attempt>,
    clarifications: seq<Clarification>,
    tools: seq<ToolRow>,
    snapshot: Option<Snapshot>
  )

  function NewJob(now: Time): Job {
    Job(Received, None, None, None, 0, now, [], [], [], None)
  }

  // ------------------------------------------------------------- sessions

  /** Where the one engine run that belongs to an issued token stands. */
  datatype Phase =
    | Claimed                                    // execute_job not begun
    | InTool(plan: seq<PlannedCall>, next: nat, attempt: nat, outputs: seq<ToolOutput>)
                                                 // a tool ended the transaction; its row is not written yet
    | AfterClarification(attempt: nat)           // the request for clarification is committed, the closing write is not
    | Failing(committedAttempt: Option<nat>)     // an exception was rolled back; the failure transaction is due
    | Over

  datatype Session = Session(job: JobId, worker: Worker, phase: Phase)

  type RequestId = nat

  /** `cancels` are the cancel requests whose check of the status has passed and whose write is still to come. */
  datatype Sys = Sys(now: Time, jobs: map<JobId, Job>, sessions: map<Token, Session>, cancels: map<RequestId, JobId>)

  /** How the first transaction goes, as far as policy, normaliser and planner decide it. */
  datatype Outcome =
    | DenyBeforeModel
    | AskClarification
    | DenyAtPolicyCheck
    | ExecutePlan(plan: seq<PlannedCall>)

  datatype Action =
    | Tick(seconds: nat)
    | Submit(job: JobId)
    | Claim(worker: Worker, lockedRows: set<JobId>, job: JobId, token: Token)
    | Recover(worker: Worker, lockedRows: set<JobId>, job: JobId, token: Token)
    | Renew(job: JobId, token: Token, worker: Worker)
    | Begin(token: Token, outcome: Outcome)
    | Resume(token: Token)
    | CloseClarification(token: Token)
    | Raise(token: Token)
    | PersistFailure(token: Token)
    | Crash(token: Token)
    | Respond(job: JobId, clarification: nat)
    | ExpireDue(job: JobId, clarification: nat)
    | CancelClarification(job: JobId, clarification: nat)
    | ReadForCancel(request: RequestId, job: JobId)
    | WriteCancelled(request: RequestId)

  // ------------------------------------------------ claim, recovery, lease

  /** Not blank, at most 100 characters, no control characters. */
  predicate ValidWorker(w: Worker) {
    && |w| <= 100
    && (exists i :: 0 <= i < |w| && w[i] != ' ')
    && (forall i :: 0 <= i < |w| ==> ' ' <= w[i] && w[i] != '\U{7f}')
  }

  predicate Fresh(job: Job) {
    job.status == Received && job.token.None? && job.lockedBy.None? && job.lease.None?
  }

  predicate Stale(job: Job, now: Time) {
    && Recoverable(job.status)
    && job.token.Some?
    && job.lease.Some? && job.lease.value < now
    && job.recoveryCount == 0
  }

  predicate CreatedBefore(a: Job, x: JobId, b: Job, y: JobId) {
    a.createdAt < b.createdAt || (a.createdAt == b.createdAt && x <= y)
  }

  predicate ExpiredBefore(a: Job, x: JobId, b: Job, y: JobId)
    requires a.lease.Some? && b.lease.Some?
  {
    a.lease.value < b.lease.value || (a.lease.value == b.lease.value && CreatedBefore(a, x, b, y))
  }

  /** `j` is the fresh job the claim query returns when `lockedRows` are skipped. */
  predicate NextFresh(s: Sys, lockedRows: set<JobId>, j: JobId) {
    && j in s.jobs && j !in lockedRows && Fresh(s.jobs[j])
    && forall k :: k in s.jobs && k !in lockedRows && Fresh(s.jobs[k]) ==> CreatedBefore(s.jobs[j], j, s.jobs[k], k)
  }

  /** `j` is the stale job the recovery query returns when `lockedRows` are skipped. */
  predicate NextStale(s: Sys, lockedRows: set<JobId>, j: JobId) {
    && j in s.jobs && j !in lockedRows && Stale(s.jobs[j], s.now)
    && forall k :: k in s.jobs && k !in lockedRows && Stale(s.jobs[k], s.now) ==> ExpiredBefore(s.jobs[j], j, s.jobs[k], k)
  }

  /** The row after a token has been issued for it. */
  function Issue(job: Job, worker: Worker, token: Token, now: Time): Job {
    job.(status := Received, lockedBy := Some(worker), token := Some(token), lease := Some(now + LEASE_SECONDS))
  }

  function AbandonRunning(attempts: seq<Attempt>): seq<Attempt> {
    seq(|attempts|, i requires 0 <= i < |attempts| =>
      if attempts[i].status.AttemptRunning? then attempts[i].(status := AttemptAbandoned) else attempts[i])
  }

  function RecoverJob(job: Job, worker: Worker, token: Token, now: Time): Job {
    Issue(job, worker, token, now).(attempts := AbandonRunning(job.attempts), recoveryCount := job.recoveryCount + 1)
  }

  /** The (claim_token, locked_by, status) test; it does not look at the lease. */
  predicate Fence(job: Job, token: Token, worker: Worker) {
    job.token == Some(token) && job.lockedBy == Some(worker) && Active(job.status)
  }

  // --------------------------------------------------------- engine

  /** What one engine transaction commits, or that it raised and was rolled back. */
  datatype Effect = Commit(job: Job, phase: Phase) | Raised

  predicate NumberTaken(attempts: seq<Attempt>, number: nat) {
    exists i :: 0 <= i < |attempts| && attempts[i].number == number
  }

  function WithAttempt(job: Job, i: nat, status: AttemptStatus): Job {
    if i < |job.attempts| then job.(attempts := job.attempts[i := job.attempts[i].(status := status)]) else job
  }

  /** Results, quality gate and snapshot: the last leg of a run that executed its plan. */
  function Finish(job: Job, attempt: nat, outputs: seq<ToolOutput>, now: Time): Effect {
    if outputs == [] || outputs[0].datasetId.None? then Raised      // DATASET_NOT_FOUND
    else if job.snapshot.Some? then Raised                          // uq_snapshot_analysis_job
    else Commit(
      WithAttempt(job, attempt, AttemptCompleted).(
        status := Completed, lease := None, snapshot := Some(Snapshot(outputs[0].datasetId.value, now))),
      Over)
  }

  function AfterTools(job: Job, plan: seq<PlannedCall>, attempt: nat, end: LoopEnd, now: Time): Effect {
    match end
    case Finished(rows, outputs) => Finish(job.(tools := rows), attempt, outputs, now)
    case Stopped(rows, outputs, next) => Commit(job.(tools := rows), InTool(plan, next, attempt, outputs))
  }

  /** The job with a new attempt in progress. */
  function OpenAttempt(job: Job): Job {
    job.(attempts := job.attempts + [Attempt(|job.attempts| + 1, AttemptInProgress)])
  }

  /** The first transaction of execute_job, from the fence on. */
  function FirstTransaction(job: Job, token: Token, outcome: Outcome, now: Time): Effect {
    var attempt := |job.attempts|;
    var started := OpenAttempt(job);
    if !Edge(job.status, UnderstandingRequest) then Raised
    else match outcome
      case DenyBeforeModel =>
        Commit(WithAttempt(started, attempt, AttemptRejected).(status := RejectedByPolicy, lease := None), Over)
      case AskClarification =>
        Commit(started.(status := NeedsClarification,
                       clarifications := started.clarifications
                         + [Clarification(Awaiting, now + CLARIFICATION_SECONDS, attempt + 1)]),
               AfterClarification(attempt))
      case DenyAtPolicyCheck =>
        Commit(WithAttempt(started, attempt, AttemptRejected).(status := RejectedByPolicy, lease := None), Over)
      case ExecutePlan(plan) =>
        AfterTools(started.(status := ExecutingTools), plan, attempt, RunTools(job.tools, [], plan, 0, token), now)
  }

  /** The transaction that follows a tool which ended the one before. */
  function LaterTransaction(job: Job, token: Token, phase: Phase, now: Time): Effect
    requires phase.InTool?
  {
    if phase.next >= |phase.plan| then Raised
    else
      var call := phase.plan[phase.next];
      AfterTools(job, phase.plan, phase.attempt,
        RunTools(job.tools + [RowFor(call, token)], phase.outputs + [call.output], phase.plan, phase.next + 1, token), now)
  }

  /** The fenced failure update. */
  function FailJob(job: Job, committedAttempt: Option<nat>): Job {
    var marked := if committedAttempt.Some? then WithAttempt(job, committedAttempt.value, AttemptFailed) else job;
    marked.(status := Failed, lease := None)
  }

  /** The writes behind the request for clarification: no fence, only the primary keys. */
  function CloseJob(job: Job, attempt: nat): Job {
    WithAttempt(job, attempt, AttemptNeedsClarification).(lease := None)
  }

  // --------------------------------------------------------- clarification

  predicate IsAwaiting(job: Job, c: nat) {
    c < |job.clarifications| && job.clarifications[c].status.Awaiting?
  }

  function MarkClarification(job: Job, c: nat, status: ClarificationStatus): Job
    requires c < |job.clarifications|
  {
    job.(clarifications := job.clarifications[c := job.clarifications[c].(status := status)])
  }

  function RespondJob(job: Job, c: nat, now: Time): Job {
    if job.status != NeedsClarification || !IsAwaiting(job, c) then job
    else if now > job.clarifications[c].expiresAt then
      MarkClarification(job, c, ClarificationExpired).(status := Expired)
    else
      var number := job.clarifications[c].attemptNumber + 1;
      if NumberTaken(job.attempts, number) then job                 // uq_job_attempt_number
      else MarkClarification(job, c, Answered).(
        status := UnderstandingRequest, attempts := job.attempts + [Attempt(number, AttemptInProgress)])
  }

  function ExpireJob(job: Job, c: nat, now: Time): Job {
    if !IsAwaiting(job, c) || job.clarifications[c].expiresAt > now then job
    else if Terminal(job.status) then MarkClarification(job, c, ClarificationExpired)
    else if !Edge(job.status, Expired) then job
    else MarkClarification(job, c, ClarificationExpired).(status := Expired)
  }

  /** A clarification already answered or expired is immutable, so the cancellation through it raises. */
  function CancelJob(job: Job, c: nat): Job {
    if c >= |job.clarifications| || !Edge(job.status, Cancelled) then job
    else if job.clarifications[c].status.Answered? || job.clarifications[c].status.ClarificationExpired? then job
    else MarkClarification(job, c, ClarificationCancelled).(status := Cancelled)
  }

  // ------------------------------------------------------------------ steps

  function Update(s: Sys, t: Token, job: Job, phase: Phase): Sys
    requires t in s.sessions
  {
    var se := s.sessions[t];
    s.(jobs := s.jobs[se.job := job], sessions := s.sessions[t := se.(phase := phase)])
  }

  function MovePhase(s: Sys, t: Token, phase: Phase): Sys
    requires t in s.sessions
  {
    s.(sessions := s.sessions[t := s.sessions[t].(phase := phase)])
  }

  function Take(s: Sys, t: Token, effect: Effect, rolledBack: Phase): Sys
    requires t in s.sessions
  {
    match effect
    case Commit(job, phase) => Update(s, t, job, phase)
    case Raised => MovePhase(s, t, rolledBack)
  }

  function StepBegin(s: Sys, t: Token, outcome: Outcome): Sys {
    if t !in s.sessions || !s.sessions[t].phase.Claimed? || s.sessions[t].job !in s.jobs then s
    else
      var se := s.sessions[t];
      var job := s.jobs[se.job];
      // Ownership lost, or a duplicate attempt number: raised before the failure handler is in place.
      if !Fence(job, t, se.worker) || NumberTaken(job.attempts, |job.attempts| + 1) then MovePhase(s, t, Over)
      else Take(s, t, FirstTransaction(job, t, outcome, s.now), Failing(None))
  }

  function StepResume(s: Sys, t: Token): Sys {
    if t !in s.sessions || !s.sessions[t].phase.InTool? || s.sessions[t].job !in s.jobs then s
    else
      var se := s.sessions[t];
      var job := s.jobs[se.job];
      if !Fence(job, t, se.worker) then MovePhase(s, t, Over)
      else Take(s, t, LaterTransaction(job, t, se.phase, s.now), Failing(Some(se.phase.attempt)))
  }

  function StepPersistFailure(s: Sys, t: Token): Sys {
    if t !in s.sessions || !s.sessions[t].phase.Failing? || s.sessions[t].job !in s.jobs then s
    else
      var se := s.sessions[t];
      var job := s.jobs[se.job];
      if !Fence(job, t, se.worker) then MovePhase(s, t, Over)
      else Update(s, t, FailJob(job, se.phase.committedAttempt), Over)
  }

  function StepCloseClarification(s: Sys, t: Token): Sys {
    if t !in s.sessions || !s.sessions[t].phase.AfterClarification? || s.sessions[t].job !in s.jobs then s
    else Update(s, t, CloseJob(s.jobs[s.sessions[t].job], s.sessions[t].phase.attempt), Over)
  }

  function StepRenew(s: Sys, j: JobId, t: Token, w: Worker): Sys {
    if !ValidWorker(w) || j !in s.jobs || !Fence(s.jobs[j], t, w) then s
    else WithJob(s, j, s.jobs[j].(lease := Some(s.now + LEASE_SECONDS)))
  }

  function StepRaise(s: Sys, t: Token): Sys {
    if t !in s.sessions then s
    else match s.sessions[t].phase
      case Claimed => MovePhase(s, t, Failing(None))
      case InTool(_, _, attempt, _) => MovePhase(s, t, Failing(Some(attempt)))
      case AfterClarification(attempt) => MovePhase(s, t, Failing(Some(attempt)))
      case _ => s
  }

  function WithJob(s: Sys, j: JobId, job: Job): Sys {
    s.(jobs := s.jobs[j := job])
  }

  function StepSubmit(s: Sys, j: JobId): Sys {
    if j in s.jobs then s else WithJob(s, j, NewJob(s.now))
  }

  /** Job j now carries token t, and t's session is about to start. */
  function IssueState(s: Sys, j: JobId, job: Job, t: Token, w: Worker): Sys {
    WithJob(s, j, job).(sessions := s.sessions[t := Session(j, w, Claimed)])
  }

  function StepClaim(s: Sys, w: Worker, lockedRows: set<JobId>, j: JobId, t: Token): Sys {
    if !ValidWorker(w) || t in s.sessions || !NextFresh(s, lockedRows, j) then s
    else IssueState(s, j, Issue(s.jobs[j], w, t, s.now), t, w)
  }

  function StepRecover(s: Sys, w: Worker, lockedRows: set<JobId>, j: JobId, t: Token): Sys {
    if !ValidWorker(w) || t in s.sessions || !NextStale(s, lockedRows, j) then s
    else IssueState(s, j, RecoverJob(s.jobs[j], w, t, s.now), t, w)
  }

  function StepCrash(s: Sys, t: Token): Sys {
    if t in s.sessions then MovePhase(s, t, Over) else s
  }

  function StepRespond(s: Sys, j: JobId, c: nat): Sys {
    if j in s.jobs then WithJob(s, j, RespondJob(s.jobs[j], c, s.now)) else s
  }

  function StepExpireDue(s: Sys, j: JobId, c: nat): Sys {
    if j in s.jobs then WithJob(s, j, ExpireJob(s.jobs[j], c, s.now)) else s
  }

  function StepCancel(s: Sys, j: JobId, c: nat): Sys {
    if j in s.jobs then WithJob(s, j, CancelJob(s.jobs[j], c)) else s
  }

  /** The cancel route up to its check of the status: no lock is taken. */
  function StepReadForCancel(s: Sys, r: RequestId, j: JobId): Sys {
    if r in s.cancels || j !in s.jobs || !Edge(s.jobs[j].status, Cancelled) then s
    else s.(cancels := s.cancels[r := j])
  }

  /** The route's write by primary key, whatever the status has become since it was read. */
  function StepWriteCancelled(s: Sys, r: RequestId): Sys {
    if r !in s.cancels || s.cancels[r] !in s.jobs then s
    else WithJob(s, s.cancels[r], s.jobs[s.cancels[r]].(status := Cancelled)).(cancels := s.cancels - {r})
  }

  function Step(s: Sys, a: Action): Sys {
    match a
    case Tick(seconds) => s.(now := s.now + seconds)
    case Submit(j) => StepSubmit(s, j)
    case Claim(w, lockedRows, j, t) => StepClaim(s, w, lockedRows, j, t)
    case Recover(w, lockedRows, j, t) => StepRecover(s, w, lockedRows, j, t)
    case Renew(j, t, w) => StepRenew(s, j, t, w)
    case Begin(t, outcome) => StepBegin(s, t, outcome)
    case Resume(t) => StepResume(s, t)
    case CloseClarification(t) => StepCloseClarification(s, t)
    case Raise(t) => StepRaise(s, t)
    case PersistFailure(t) => StepPersistFailure(s, t)
    case Crash(t) => StepCrash(s, t)
    case Respond(j, c) => StepRespond(s, j, c)
    case ExpireDue(j, c) => StepExpireDue(s, j, c)
    case CancelClarification(j, c) => StepCancel(s, j, c)
    case ReadForCancel(r, j) => StepReadForCancel(s, r, j)
    case WriteCancelled(r) => StepWriteCancelled(s, r)
  }

  /** The state a run of actions ends in. */
  function Run(s: Sys, actions: seq<Action>): Sys
    decreases |actions|
  {
    if actions == [] then s else Run(Step(s, actions[0]), actions[1..])
  }

  function Start(now: Time): Sys {
    Sys(now, map[], map[], map[])
  }

  lemma {:induction false} RunAppend(s: Sys, a: seq<Action>, b: seq<Action>)
    ensures Run(s, a + b) == Run(Run(s, a), b)
    decreases |a|
  {
    if a == [] {
      assert a + b == b;
    } else {
      assert (a + b)[1..] == a[1..] + b;
      RunAppend(Step(s, a[0]), a[1..], b);
    }
  }

  lemma RunThen(s: Sys, others: seq<Action>, a: Action)
    ensures Run(s, others + [a]) == Step(Run(s, others), a)
  {
    RunAppend(s, others, [a]);
    assert [a][1..] == [];
    assert Run(Step(Run(s, others), a), []) == Step(Run(s, others), a);
  }
}
