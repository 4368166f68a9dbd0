/**
  The ingestion command protocol as a state machine over committed states
  (claim_ingestion_job and the replay log of migration 009, ingestion_worker.py,
  services/state_machine.py): a claim and its log row in one transaction, fenced
  processing, and retry accounting after a rollback.
 */
module Ingestion {

  import opened Wrappers
  import CommandEnvelope

  type JobId = CommandEnvelope.Uuid
  type CommandId = CommandEnvelope.Uuid
  type Org = nat
  type Token = nat
  type Worker = string
  type Time = int

  const RECLAIM_SECONDS: Time := 900

  /** Statuses the worker reads or writes, of a job and of its document version. */
  datatype Status = Queued | Parsing | Completed | CompletedWithWarnings | AwaitingReview | Rejected | Failed

  predicate Open(s: Status) {
    s.Queued? || s.Parsing?
  }

  /** JOB_TRANSITIONS between these statuses. */
  predicate JobEdge(a: Status, b: Status) {
    match a
    case Queued => b.Parsing? || b.Failed?
    case Parsing => !b.Parsing?
    case Failed => b.Queued?
    case _ => false
  }

  /** VERSION_TRANSITIONS between these statuses. */
  predicate VersionEdge(a: Status, b: Status) {
    match a
    case Queued => b.Parsing? || b.Failed?
    case Parsing => !b.Parsing?
    case _ => false
  }

  /** `writer` is the claim token under which the row was written. */
  datatype AttemptRow = AttemptRow(number: nat, status: Status, writer: Token)

  /** A job row, its attempt rows, the status of its document version (None: no such row), and how often it was claimed. */
  datatype Job = Job(
    org: Org, status: Status, current: nat, max: nat,
    lockedBy: Option<Worker>, lockedAt: Option<Time>, token: Option<Token>,
    version: Option<Status>, attempts: seq<AttemptRow>, claims: nat)

  datatype LogRow = LogRow(command: CommandId, job: JobId, org: Org, key: string)

  /** Where the processing of an issued token stands. */
  datatype Phase = Claimed | FailureDue(attempt: nat) | Over

  datatype Session = Session(job: JobId, worker: Worker, phase: Phase)

  datatype Sys = Sys(now: Time, jobs: map<JobId, Job>, logs: seq<LogRow>, sessions: map<Token, Session>)

  /** How parsing goes: one of the five parser statuses, or an exception. */
  datatype Outcome = ParserSays(status: Status) | Throws

  datatype Action =
    | Tick(seconds: nat)
    | Enqueue(job: JobId, org: Org, max: nat)
    | Deliver(envelope: CommandEnvelope.Envelope, verdict: Option<CommandEnvelope.EnvelopeError>,
              worker: Worker, token: Token, rowLocked: bool)
    | Process(token: Token, rowLocked: bool, outcome: Outcome)
    | RecordFailure(token: Token)
    | Crash(token: Token)

  // -------------------------------------------------------------------- claim

  predicate Claimable(job: Job, now: Time) {
    || job.status.Queued?
    || (job.status.Parsing? && job.lockedAt.Some? && job.lockedAt.value < now - RECLAIM_SECONDS && job.current < job.max)
  }

  function ClaimRow(job: Job, worker: Worker, token: Token, now: Time): Job {
    job.(status := Parsing, lockedBy := Some(worker), token := Some(token), lockedAt := Some(now), claims := job.claims + 1)
  }

  /** The primary key and uq_command_log_idempotency. */
  predicate Replayed(logs: seq<LogRow>, row: LogRow) {
    exists i :: 0 <= i < |logs| && (logs[i].command == row.command || (logs[i].org == row.org && logs[i].key == row.key))
  }

  /** Claim and log row commit together or not at all. */
  function StepDeliver(s: Sys, e: CommandEnvelope.Envelope, verdict: Option<CommandEnvelope.EnvelopeError>,
                       worker: Worker, token: Token, rowLocked: bool): Sys {
    if verdict.Some? || token in s.sessions || e.jobId !in s.jobs then s
    else if rowLocked || !Claimable(s.jobs[e.jobId], s.now) then s
    else
      var row := LogRow(e.commandId, e.jobId, s.jobs[e.jobId].org, e.idempotencyKey);
      if Replayed(s.logs, row) then s
      else Sys(s.now, s.jobs[e.jobId := ClaimRow(s.jobs[e.jobId], worker, token, s.now)], s.logs + [row],
               s.sessions[token := Session(e.jobId, worker, Claimed)])
  }

  // --------------------------------------------------------------- processing

  predicate Holds(job: Job, token: Token, worker: Worker) {
    job.lockedBy == Some(worker) && job.token == Some(token)
  }

  /** What the processing transaction does to the row. */
  datatype Effect = Commit(job: Job) | RolledBack(attempt: nat) | RaisedOutside

  function AddAttempt(job: Job, status: Status): Job
    requires job.token.Some?
  {
    job.(current := job.current + 1, attempts := job.attempts + [AttemptRow(job.current + 1, status, job.token.value)])
  }

  function ProcessRow(job: Job, outcome: Outcome): Effect
    requires job.token.Some?
  {
    if job.version.None? then Commit(AddAttempt(job, Failed).(status := Failed))       // DOCUMENT_VERSION_NOT_FOUND
    else if !VersionEdge(job.version.value, Parsing) then RaisedOutside                // before the handler is in place
    else match outcome
      case Throws => RolledBack(job.current + 1)
      case ParserSays(status) =>
        if Open(status) then RolledBack(job.current + 1)                               // UNKNOWN_PARSER_STATUS
        else Commit(AddAttempt(job, status).(status := status, version := Some(status)))
  }

  function StepProcess(s: Sys, t: Token, rowLocked: bool, outcome: Outcome): Sys {
    if t !in s.sessions || !s.sessions[t].phase.Claimed? || s.sessions[t].job !in s.jobs then s
    else
      var se := s.sessions[t];
      var job := s.jobs[se.job];
      if rowLocked || !Holds(job, t, se.worker) || !Open(job.status) then EndSession(s, t, Over)
      else Conclude(s, t, ProcessRow(job, outcome))
  }

  function Conclude(s: Sys, t: Token, effect: Effect): Sys
    requires t in s.sessions
  {
    match effect
    case Commit(done) => EndSession(s.(jobs := s.jobs[s.sessions[t].job := done]), t, Over)
    case RolledBack(attempt) => EndSession(s, t, FailureDue(attempt))
    case RaisedOutside => EndSession(s, t, Over)
  }

  function EndSession(s: Sys, t: Token, phase: Phase): Sys
    requires t in s.sessions
  {
    s.(sessions := s.sessions[t := s.sessions[t].(phase := phase)])
  }

  // ---------------------------------------------------------- failure accounting

  /** The failure transaction; None when a status transition is refused and everything rolls back. */
  function FailRow(job: Job, attempt: nat): Option<Job>
    requires job.token.Some?
  {
    var next := if attempt < job.max then Queued else Failed;
    if job.status != next && !JobEdge(job.status, next) then None
    else if job.version.Some? && job.version.value != next && !VersionEdge(job.version.value, next) then None
    else Some(job.(status := next, current := attempt,
                   attempts := job.attempts + [AttemptRow(attempt, Failed, job.token.value)],
                   version := if job.version.Some? then Some(next) else None))
  }

  function StepRecordFailure(s: Sys, t: Token): Sys {
    if t !in s.sessions || !s.sessions[t].phase.FailureDue? || s.sessions[t].job !in s.jobs then s
    else
      var se := s.sessions[t];
      var job := s.jobs[se.job];
      if !Holds(job, t, se.worker) then EndSession(s, t, Over)
      else
        var failed := FailRow(job, se.phase.attempt);
        if failed.None? then EndSession(s, t, Over)
        else EndSession(s.(jobs := s.jobs[se.job := failed.value]), t, Over)
  }

  function NewJob(org: Org, max: nat): Job {
    Job(org, Queued, 0, max, None, None, None, Some(Queued), [], 0)
  }

  function StepEnqueue(s: Sys, j: JobId, org: Org, max: nat): Sys {
    if j in s.jobs || max == 0 then s else s.(jobs := s.jobs[j := NewJob(org, max)])
  }

  function Step(s: Sys, a: Action): Sys {
    match a
    case Tick(seconds) => s.(now := s.now + seconds)
    case Enqueue(j, org, max) => StepEnqueue(s, j, org, max)
    case Deliver(e, verdict, w, t, rowLocked) => StepDeliver(s, e, verdict, w, t, rowLocked)
    case Process(t, rowLocked, outcome) => StepProcess(s, t, rowLocked, outcome)
    case RecordFailure(t) => StepRecordFailure(s, t)
    case Crash(t) => if t in s.sessions then EndSession(s, t, Over) else s
  }

  function Run(s: Sys, actions: seq<Action>): Sys
    decreases |actions|
  {
    if actions == [] then s else Run(Step(s, actions[0]), actions[1..])
  }

  function Start(now: Time): Sys {
    Sys(now, map[], [], map[])
  }

  // ---------------------------------------------------------------- invariants

  predicate AttemptsOk(attempts: seq<AttemptRow>) {
    forall i :: 0 <= i < |attempts| ==> attempts[i].number == i + 1
  }

  predicate JobOk(job: Job) {
    && job.current <= job.max
    && (Open(job.status) ==> job.current < job.max)
    && |job.attempts| == job.current && AttemptsOk(job.attempts)
    && job.version.Some?
    && (Open(job.status) ==> job.version == Some(Queued))
    && (!Open(job.status) ==> job.version == Some(job.status) && job.attempts != []
                              && job.attempts[job.current - 1].status == job.status)
  }

  predicate SessionOk(t: Token, se: Session, jobs: map<JobId, Job>) {
    && se.job in jobs
    && jobs[se.job].token.Some?
    && (jobs[se.job].token == Some(t) && !se.phase.Over? ==> jobs[se.job].status == Parsing)
    && (jobs[se.job].token == Some(t) && se.phase.FailureDue? ==> se.phase.attempt == jobs[se.job].current + 1)
  }

  predicate LogsDistinct(logs: seq<LogRow>) {
    forall i, j :: 0 <= i < j < |logs| ==>
      && logs[i].command != logs[j].command
      && (logs[i].org != logs[j].org || logs[i].key != logs[j].key)
  }

  /** Replay-log rows of a job. */
  function CountLogs(logs: seq<LogRow>, j: JobId): nat {
    if logs == [] then 0
    else CountLogs(logs[..|logs| - 1], j) + if logs[|logs| - 1].job == j then 1 else 0
  }

  ghost predicate Inv(s: Sys) {
    && (forall j :: j in s.jobs ==> JobOk(s.jobs[j]) && s.jobs[j].claims == CountLogs(s.logs, j))
    && (forall j :: j in s.jobs && s.jobs[j].token.Some? ==>
          s.jobs[j].token.value in s.sessions && s.sessions[s.jobs[j].token.value].job == j)
    && (forall t :: t in s.sessions ==> SessionOk(t, s.sessions[t], s.jobs))
    && LogsDistinct(s.logs)
    && (forall i :: 0 <= i < |s.logs| ==> s.logs[i].job in s.jobs && s.logs[i].org == s.jobs[s.logs[i].job].org)
  }

  lemma NoLogsYet(logs: seq<LogRow>, j: JobId)
    requires forall i :: 0 <= i < |logs| ==> logs[i].job != j
    ensures CountLogs(logs, j) == 0
  {
  }

  lemma EnqueueKeepsInv(s: Sys, j: JobId, org: Org, max: nat)
    requires Inv(s)
    ensures Inv(StepEnqueue(s, j, org, max))
  {
    if j !in s.jobs && max > 0 {
      NoLogsYet(s.logs, j);
      var s' := StepEnqueue(s, j, org, max);
      forall t | t in s'.sessions ensures SessionOk(t, s'.sessions[t], s'.jobs) {
        assert SessionOk(t, s.sessions[t], s.jobs);
      }
      assert JobOk(NewJob(org, max));
    }
  }

  lemma DeliverKeepsInv(s: Sys, e: CommandEnvelope.Envelope, verdict: Option<CommandEnvelope.EnvelopeError>,
                        worker: Worker, token: Token, rowLocked: bool)
    requires Inv(s)
    ensures Inv(StepDeliver(s, e, verdict, worker, token, rowLocked))
  {
    var s' := StepDeliver(s, e, verdict, worker, token, rowLocked);
    if s' != s {
      var row := s'.logs[|s.logs|];
      assert s'.logs[..|s'.logs| - 1] == s.logs;
      assert !Replayed(s.logs, row);
      forall i, k | 0 <= i < k < |s'.logs|
        ensures s'.logs[i].command != s'.logs[k].command
        ensures s'.logs[i].org != s'.logs[k].org || s'.logs[i].key != s'.logs[k].key
      {
        if k == |s.logs| {
          assert s'.logs[i] == s.logs[i];
        }
      }
      forall u | u in s'.sessions ensures SessionOk(u, s'.sessions[u], s'.jobs) {
        if u != token {
          assert SessionOk(u, s.sessions[u], s.jobs);
        }
      }
    }
  }

  lemma EndKeepsInv(s: Sys, t: Token)
    requires Inv(s) && t in s.sessions
    ensures Inv(EndSession(s, t, Over))
  {
    forall u | u in s.sessions ensures SessionOk(u, EndSession(s, t, Over).sessions[u], s.jobs) {
      assert SessionOk(u, s.sessions[u], s.jobs);
    }
  }

  /** The row of t's session rewritten, and the session over. */
  function Recorded(s: Sys, t: Token, job: Job): Sys
    requires t in s.sessions
  {
    EndSession(s.(jobs := s.jobs[s.sessions[t].job := job]), t, Over)
  }

  lemma OutcomeKeepsSession(s: Sys, t: Token, job: Job, u: Token)
    requires t in s.sessions && u in s.sessions && s.sessions[t].job in s.jobs && SessionOk(u, s.sessions[u], s.jobs)
    requires s.jobs[s.sessions[t].job].token == Some(t) && job.token == Some(t)
    ensures SessionOk(u, Recorded(s, t, job).sessions[u], Recorded(s, t, job).jobs)
  {
  }

  /** The holder's row write, with the end of its session. */
  lemma OutcomeKeepsInv(s: Sys, t: Token, job: Job)
    requires Inv(s) && t in s.sessions && s.sessions[t].job in s.jobs
    requires s.jobs[s.sessions[t].job].token == Some(t)
    requires JobOk(job)
    requires job.token == Some(t) && job.claims == s.jobs[s.sessions[t].job].claims && job.org == s.jobs[s.sessions[t].job].org
    ensures Inv(Recorded(s, t, job))
  {
    var s' := Recorded(s, t, job);
    forall u | u in s'.sessions ensures SessionOk(u, s'.sessions[u], s'.jobs) {
      assert SessionOk(u, s.sessions[u], s.jobs);
      OutcomeKeepsSession(s, t, job, u);
    }
  }

  lemma RollbackKeepsInv(s: Sys, t: Token)
    requires Inv(s) && t in s.sessions && s.sessions[t].phase.Claimed? && s.sessions[t].job in s.jobs
    ensures Inv(EndSession(s, t, FailureDue(s.jobs[s.sessions[t].job].current + 1)))
  {
    var s' := EndSession(s, t, FailureDue(s.jobs[s.sessions[t].job].current + 1));
    forall u | u in s'.sessions ensures SessionOk(u, s'.sessions[u], s'.jobs) {
      assert SessionOk(u, s.sessions[u], s.jobs);
    }
  }

  lemma ProcessRowOk(job: Job, outcome: Outcome)
    requires JobOk(job) && Open(job.status) && job.token.Some?
    ensures var e := ProcessRow(job, outcome);
            e.Commit? ==> JobOk(e.job) && e.job.token == job.token && e.job.claims == job.claims && e.job.org == job.org
  {
  }

  lemma ConcludeKeepsInv(s: Sys, t: Token, outcome: Outcome)
    requires Inv(s) && t in s.sessions && s.sessions[t].phase.Claimed? && s.sessions[t].job in s.jobs
    requires s.jobs[s.sessions[t].job].token == Some(t) && Open(s.jobs[s.sessions[t].job].status)
    ensures Inv(Conclude(s, t, ProcessRow(s.jobs[s.sessions[t].job], outcome)))
  {
    var job := s.jobs[s.sessions[t].job];
    match ProcessRow(job, outcome)
    case Commit(done) => ProcessRowOk(job, outcome); OutcomeKeepsInv(s, t, done);
    case RaisedOutside => EndKeepsInv(s, t);
    case RolledBack(attempt) => RollbackKeepsInv(s, t);
  }

  lemma ProcessKeepsInv(s: Sys, t: Token, rowLocked: bool, outcome: Outcome)
    requires Inv(s)
    ensures Inv(StepProcess(s, t, rowLocked, outcome))
  {
    if t in s.sessions && s.sessions[t].phase.Claimed? {
      assert SessionOk(t, s.sessions[t], s.jobs);
      var job := s.jobs[s.sessions[t].job];
      if rowLocked || !Holds(job, t, s.sessions[t].worker) || !Open(job.status) {
        EndKeepsInv(s, t);
      } else {
        ConcludeKeepsInv(s, t, outcome);
      }
    }
  }

  lemma RecordFailureKeepsInv(s: Sys, t: Token)
    requires Inv(s)
    ensures Inv(StepRecordFailure(s, t))
  {
    if t in s.sessions && s.sessions[t].phase.FailureDue? {
      assert SessionOk(t, s.sessions[t], s.jobs);
      var job := s.jobs[s.sessions[t].job];
      if Holds(job, t, s.sessions[t].worker) && FailRow(job, s.sessions[t].phase.attempt).Some? {
        OutcomeKeepsInv(s, t, FailRow(job, s.sessions[t].phase.attempt).value);
      } else {
        EndKeepsInv(s, t);
      }
    }
  }

  lemma StepKeepsInv(s: Sys, a: Action)
    requires Inv(s)
    ensures Inv(Step(s, a))
  {
    match a
    case Tick(_) =>
    case Enqueue(j, org, max) => EnqueueKeepsInv(s, j, org, max);
    case Deliver(e, verdict, w, t, rowLocked) => DeliverKeepsInv(s, e, verdict, w, t, rowLocked);
    case Process(t, rowLocked, outcome) => ProcessKeepsInv(s, t, rowLocked, outcome);
    case RecordFailure(t) => RecordFailureKeepsInv(s, t);
    case Crash(t) => if t in s.sessions { EndKeepsInv(s, t); }
  }

  lemma {:induction false} RunKeepsInv(s: Sys, actions: seq<Action>)
    requires Inv(s)
    ensures Inv(Run(s, actions))
    decreases |actions|
  {
    if actions != [] {
      StepKeepsInv(s, actions[0]);
      RunKeepsInv(Step(s, actions[0]), actions[1..]);
    }
  }

  // ------------------------------------------------------------------ theorems

  /**
    In every run: an open job has an attempt left, the attempt rows are exactly
    1..current_attempt, current_attempt never passes its maximum, and a stopped
    job, its last attempt and its document version agree on the outcome.
   */
  lemma AttemptAccounting(now: Time, actions: seq<Action>, j: JobId)
    requires j in Run(Start(now), actions).jobs
    ensures var job := Run(Start(now), actions).jobs[j];
            && job.current <= job.max && (Open(job.status) ==> job.current < job.max)
            && |job.attempts| == job.current
            && (forall i :: 0 <= i < |job.attempts| ==> job.attempts[i].number == i + 1)
            && (!Open(job.status) ==> job.version == Some(job.status) && |job.attempts| > 0
                                      && job.attempts[|job.attempts| - 1].status == job.status)
  {
    RunKeepsInv(Start(now), actions);
  }

  /** Committed claims of a job are its replay-log rows; command ids and keys are used once. */
  lemma ClaimsAreLogRows(now: Time, actions: seq<Action>, j: JobId)
    requires j in Run(Start(now), actions).jobs
    ensures var s := Run(Start(now), actions);
            s.jobs[j].claims == CountLogs(s.logs, j) && LogsDistinct(s.logs)
  {
    RunKeepsInv(Start(now), actions);
  }

  lemma StepKeepsLogs(s: Sys, a: Action)
    ensures s.logs <= Step(s, a).logs
  {
  }

  lemma {:induction false} RunKeepsLogs(s: Sys, actions: seq<Action>)
    ensures s.logs <= Run(s, actions).logs
    decreases |actions|
  {
    if actions != [] {
      StepKeepsLogs(s, actions[0]);
      RunKeepsLogs(Step(s, actions[0]), actions[1..]);
    }
  }

  /**
    Once a command has been consumed, delivering its command id, or its key within
    the organization, changes nothing ever again: the rollback undoes the claim too.
   */
  lemma ReplayChangesNothing(s: Sys, between: seq<Action>, a: Action, i: nat)
    requires Inv(s) && i < |s.logs| && a.Deliver?
    requires a.envelope.jobId in Run(s, between).jobs ==>
               || a.envelope.commandId == s.logs[i].command
               || (a.envelope.idempotencyKey == s.logs[i].key && Run(s, between).jobs[a.envelope.jobId].org == s.logs[i].org)
    ensures Step(Run(s, between), a) == Run(s, between)
  {
    RunKeepsLogs(s, between);
    var later := Run(s, between);
    assert later.logs[i] == s.logs[i];
    if a.envelope.jobId in later.jobs {
      assert Replayed(later.logs, LogRow(a.envelope.commandId, a.envelope.jobId, later.jobs[a.envelope.jobId].org, a.envelope.idempotencyKey));
    }
  }

  /** Only the holder of the current token records anything on a job. */
  lemma OnlyTheHolderRecords(s: Sys, a: Action, j: JobId)
    requires Inv(s) && j in s.jobs && !a.Deliver?
    ensures j in Step(s, a).jobs
    ensures Step(s, a).jobs[j] != s.jobs[j] ==>
              && (a.Process? || a.RecordFailure?)
              && s.jobs[j].token == Some(a.token) && s.sessions[a.token].job == j
              && Step(s, a).jobs[j].current == s.jobs[j].current + 1
  {
    if (a.Process? || a.RecordFailure?) && a.token in s.sessions {
      assert SessionOk(a.token, s.sessions[a.token], s.jobs);
    }
  }

  /** Nothing is refused to the holder: status transitions of job and version never raise in a reachable state. */
  lemma HolderIsNeverRefused(now: Time, actions: seq<Action>, t: Token, outcome: Outcome)
    requires t in Run(Start(now), actions).sessions
    requires var s := Run(Start(now), actions);
             s.sessions[t].job in s.jobs && s.jobs[s.sessions[t].job].token == Some(t)
    ensures var s := Run(Start(now), actions);
            var job := s.jobs[s.sessions[t].job];
            && (s.sessions[t].phase.Claimed? ==> Open(job.status) && !ProcessRow(job, outcome).RaisedOutside?)
            && (s.sessions[t].phase.FailureDue? ==> FailRow(job, s.sessions[t].phase.attempt).Some?)
  {
    RunKeepsInv(Start(now), actions);
    var s := Run(Start(now), actions);
    assert SessionOk(t, s.sessions[t], s.jobs);
  }

  /** Stopped jobs stay as they are, in every continuation. */
  lemma {:induction false} StoppedForever(s: Sys, actions: seq<Action>, j: JobId)
    requires Inv(s) && j in s.jobs && !Open(s.jobs[j].status)
    ensures j in Run(s, actions).jobs && Run(s, actions).jobs[j] == s.jobs[j]
    decreases |actions|
  {
    if actions != [] {
      StepKeepsInv(s, actions[0]);
      var a := actions[0];
      if !a.Deliver? {
        OnlyTheHolderRecords(s, a, j);
        if (a.Process? || a.RecordFailure?) && a.token in s.sessions {
          assert SessionOk(a.token, s.sessions[a.token], s.jobs);
        }
      }
      assert Step(s, a).jobs[j] == s.jobs[j];
      StoppedForever(Step(s, a), actions[1..], j);
    }
  }
}
