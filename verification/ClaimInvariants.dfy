/** What every step of the claim protocol keeps. */
module ClaimInvariants {

  import opened Wrappers
  import opened AnalysisStatus
  import opened ToolDedup
  import opened ClaimProtocol

  /** Statuses a transaction of the protocol can leave behind. */
  predicate Committed(s: Status) {
    || BeforeTools(s) || s.ExecutingTools? || s.Completed? || s.Failed? || s.Cancelled?
  }

  /** Committed statuses under which no tool has been recorded. */
  predicate BeforeTools(s: Status) {
    s.Received? || s.UnderstandingRequest? || s.NeedsClarification? || s.RejectedByPolicy? || s.Expired?
  }

  predicate AttemptsOk(attempts: seq<Attempt>) {
    forall i :: 0 <= i < |attempts| ==> attempts[i].number == i + 1 && !attempts[i].status.AttemptRunning?
  }

  predicate ClarificationsOk(job: Job) {
    forall c :: 0 <= c < |job.clarifications| && job.clarifications[c].status.Awaiting? ==>
      || (job.status == NeedsClarification && c == |job.clarifications| - 1
          && job.clarifications[c].attemptNumber == |job.attempts|)
      || Terminal(job.status)
  }

  predicate HolderOk(j: JobId, job: Job, sessions: map<Token, Session>)
    requires job.token.Some?
  {
    && job.token.value in sessions
    && sessions[job.token.value].job == j
    && job.lockedBy == Some(sessions[job.token.value].worker)
    && WrittenBy(job.tools, job.token.value)
  }

  predicate SnapshotOk(job: Job) {
    && (job.status == Completed ==> job.snapshot.Some?)
    && (job.snapshot.Some? ==> job.status == Completed || job.status == Cancelled)
    && (job.snapshot.Some? ==> DatasetRecorded(job.snapshot.value.datasetId, job.tools))
  }

  predicate DatasetRecorded(id: string, rows: seq<ToolRow>) {
    exists k :: 0 <= k < |rows| && rows[k].output.datasetId == Some(id)
  }

  predicate JobOk(j: JobId, job: Job, sessions: map<Token, Session>) {
    && 0 <= job.recoveryCount <= 1
    && Committed(job.status)
    && (job.token.None? ==> job == NewJob(job.createdAt) || job == NewJob(job.createdAt).(status := Cancelled))
    && (job.token.Some? ==> HolderOk(j, job, sessions))
    && SnapshotOk(job)
    && (BeforeTools(job.status) ==> job.tools == [])
    && Distinct(job.tools)
    && AttemptsOk(job.attempts)
    && ClarificationsOk(job)
  }

  predicate PhaseOk(t: Token, phase: Phase, job: Job) {
    match phase
    case Claimed => true
    case InTool(plan, next, attempt, outputs) =>
      && job.token == Some(t)
      && (job.status.ExecutingTools? || job.status.Cancelled?)
      && next < |plan| && |outputs| == next && attempt < |job.attempts|
      && AnswersPlan(outputs, plan, job.tools)
      && !Recorded(job.tools, plan[next].tool, plan[next].args)
    case AfterClarification(attempt) => attempt < |job.attempts|
    case Failing(committed) => committed.Some? ==> committed.value < |job.attempts|
    case Over => true
  }

  predicate SessionOk(t: Token, se: Session, jobs: map<JobId, Job>) {
    se.job in jobs && jobs[se.job].token.Some? && PhaseOk(t, se.phase, jobs[se.job])
  }

  /** The tokens ever issued for job j. */
  function TokensOf(s: Sys, j: JobId): set<Token> {
    set t | t in s.sessions && s.sessions[t].job == j
  }

  function IssuedFor(job: Job): int {
    if job.token.None? then 0 else 1 + job.recoveryCount
  }

  ghost predicate Inv(s: Sys) {
    && (forall j :: j in s.jobs ==> JobOk(j, s.jobs[j], s.sessions))
    && (forall t :: t in s.sessions ==> SessionOk(t, s.sessions[t], s.jobs))
    && (forall j :: j in s.jobs ==> |TokensOf(s, j)| == IssuedFor(s.jobs[j]))
  }

  // ---------------------------------------------------------------- frames

  /** Columns that only a claim or a recovery writes. */
  predicate SameOwner(a: Job, b: Job) {
    a.token == b.token && a.lockedBy == b.lockedBy && a.recoveryCount == b.recoveryCount && a.createdAt == b.createdAt
  }

  /** The same tokens, each for the same job and worker. */
  predicate SameSessions(a: map<Token, Session>, b: map<Token, Session>) {
    && a.Keys == b.Keys
    && forall u :: u in a ==> a[u].job == b[u].job && a[u].worker == b[u].worker
  }

  /** A row's invariant looks at sessions only for their job and worker. */
  lemma JobOkFrame(j: JobId, job: Job, a: map<Token, Session>, b: map<Token, Session>)
    requires JobOk(j, job, a) && SameSessions(a, b)
    ensures JobOk(j, job, b)
  {
  }

  lemma TokensFrame(s: Sys, s': Sys, j: JobId)
    requires SameSessions(s.sessions, s'.sessions)
    ensures TokensOf(s', j) == TokensOf(s, j)
  {
  }

  /** One row rewritten in place, sessions kept: the invariant holds when the row's and the sessions' parts do. */
  lemma RowWriteKeepsInv(s: Sys, s': Sys, j: JobId, job: Job)
    requires Inv(s) && j in s.jobs && s'.jobs == s.jobs[j := job]
    requires SameSessions(s.sessions, s'.sessions) && SameOwner(s.jobs[j], job)
    requires JobOk(j, job, s.sessions)
    requires forall u :: u in s'.sessions ==> SessionOk(u, s'.sessions[u], s'.jobs)
    ensures Inv(s')
  {
    forall k | k in s'.jobs
      ensures JobOk(k, s'.jobs[k], s'.sessions) && |TokensOf(s', k)| == IssuedFor(s'.jobs[k])
    {
      assert JobOk(k, s.jobs[k], s.sessions);
      JobOkFrame(k, s'.jobs[k], s.sessions, s'.sessions);
      TokensFrame(s, s', k);
    }
  }

  lemma MovePhaseKeepsSessions(s: Sys, t: Token, phase: Phase, u: Token)
    requires Inv(s) && t in s.sessions && u in s.sessions
    requires s.sessions[t].job in s.jobs && PhaseOk(t, phase, s.jobs[s.sessions[t].job])
    ensures SessionOk(u, MovePhase(s, t, phase).sessions[u], s.jobs)
  {
    assert SessionOk(u, s.sessions[u], s.jobs);
  }

  lemma MovePhaseMovesOnlyPhase(s: Sys, t: Token, phase: Phase)
    requires t in s.sessions
    ensures MovePhase(s, t, phase).jobs == s.jobs && SameSessions(s.sessions, MovePhase(s, t, phase).sessions)
  {
  }

  lemma MovePhaseKeepsInv(s: Sys, t: Token, phase: Phase)
    requires Inv(s) && t in s.sessions
    requires PhaseOk(t, phase, s.jobs[s.sessions[t].job])
    ensures Inv(MovePhase(s, t, phase))
  {
    FenceMeansHolder(s, t);
    MovePhaseMovesOnlyPhase(s, t, phase);
    forall u | u in s.sessions ensures SessionOk(u, MovePhase(s, t, phase).sessions[u], s.jobs) {
      MovePhaseKeepsSessions(s, t, phase, u);
    }
    SessionMoveKeepsInv(s, MovePhase(s, t, phase), s.sessions[t].job);
  }

  lemma SessionMoveKeepsInv(s: Sys, s': Sys, j: JobId)
    requires Inv(s) && j in s.jobs && s'.jobs == s.jobs && SameSessions(s.sessions, s'.sessions)
    requires forall u :: u in s'.sessions ==> SessionOk(u, s'.sessions[u], s'.jobs)
    ensures Inv(s')
  {
    assert JobOk(j, s.jobs[j], s.sessions);
    assert s.jobs[j := s.jobs[j]] == s.jobs;
    RowWriteKeepsInv(s, s', j, s.jobs[j]);
  }

  /** What a write that leaves the tools alone means to a session of the row. */
  lemma PhaseSurvivesWrite(t: Token, phase: Phase, before: Job, after: Job)
    requires PhaseOk(t, phase, before) && before.token == after.token && after.tools == before.tools
    requires |before.attempts| <= |after.attempts|
    requires before.status == after.status || after.status == Cancelled || before.status != ExecutingTools
    requires before.status == Cancelled ==> after.status == Cancelled
    ensures PhaseOk(t, phase, after)
  {
  }

  /** A write to one job row that leaves its owner alone. */
  lemma WithJobKeepsInv(s: Sys, j: JobId, job: Job)
    requires Inv(s) && j in s.jobs
    requires SameOwner(s.jobs[j], job) && |s.jobs[j].attempts| <= |job.attempts|
    requires JobOk(j, job, s.sessions)
    requires job.tools == s.jobs[j].tools
    requires s.jobs[j].status == job.status || job.status == Cancelled || s.jobs[j].status != ExecutingTools
    requires s.jobs[j].status == Cancelled ==> job.status == Cancelled
    ensures Inv(WithJob(s, j, job))
  {
    var s' := WithJob(s, j, job);
    forall u | u in s'.sessions ensures SessionOk(u, s'.sessions[u], s'.jobs) {
      assert SessionOk(u, s.sessions[u], s.jobs);
      if s.sessions[u].job == j {
        PhaseSurvivesWrite(u, s.sessions[u].phase, s.jobs[j], job);
      }
    }
    RowWriteKeepsInv(s, s', j, job);
  }

  /** What the holder's write means to a session that is not the holder's. */
  lemma PhaseSurvivesHolder(u: Token, phase: Phase, before: Job, after: Job)
    requires PhaseOk(u, phase, before) && before.token.Some? && before.token != Some(u)
    requires |before.attempts| <= |after.attempts|
    ensures PhaseOk(u, phase, after)
  {
  }

  /** The holder's write to its job together with the move of its own session. */
  lemma HolderUpdateKeepsInv(s: Sys, t: Token, job: Job, phase: Phase)
    requires Inv(s) && t in s.sessions
    requires var old_ := s.jobs[s.sessions[t].job];
             SameOwner(old_, job) && |old_.attempts| <= |job.attempts| && old_.token == Some(t)
    requires JobOk(s.sessions[t].job, job, s.sessions)
    requires PhaseOk(t, phase, job)
    ensures Inv(Update(s, t, job, phase))
  {
    var s' := Update(s, t, job, phase);
    var j := s.sessions[t].job;
    assert SessionOk(t, s.sessions[t], s.jobs);
    forall u | u in s'.sessions ensures SessionOk(u, s'.sessions[u], s'.jobs) {
      assert SessionOk(u, s.sessions[u], s.jobs);
      if u != t && s.sessions[u].job == j {
        PhaseSurvivesHolder(u, s.sessions[u].phase, s.jobs[j], job);
      }
    }
    RowWriteKeepsInv(s, s', j, job);
  }

  // ------------------------------------------------------ claim and recovery

  lemma AbandonRunningDoesNothing(attempts: seq<Attempt>)
    requires AttemptsOk(attempts)
    ensures AbandonRunning(attempts) == attempts
  {
  }

  /** The only committed statuses a recovery can find. */
  lemma RecoverableCommitted(status: Status)
    requires Recoverable(status) && Committed(status)
    ensures status == Received || status == UnderstandingRequest
  {
  }

  lemma IssueKeepsSessions(s: Sys, j: JobId, job: Job, t: Token, w: Worker, u: Token)
    requires Inv(s) && j in s.jobs && t !in s.sessions && u in s.sessions
    requires job.token.Some? && s.jobs[j].attempts == job.attempts
    requires Recoverable(s.jobs[j].status)
    ensures SessionOk(u, s.sessions[u], IssueState(s, j, job, t, w).jobs)
  {
    assert SessionOk(u, s.sessions[u], s.jobs);
    if s.sessions[u].job == j {
      assert !s.sessions[u].phase.InTool?;
    }
  }

  /** Issuing a token that was never used, to a row whose tools are not begun. */
  lemma IssueKeepsInv(s: Sys, j: JobId, job: Job, t: Token, w: Worker)
    requires Inv(s) && j in s.jobs && t !in s.sessions
    requires job.token == Some(t)
    requires JobOk(j, job, s.sessions[t := Session(j, w, Claimed)])
    requires s.jobs[j].attempts == job.attempts
    requires Recoverable(s.jobs[j].status)
    requires IssuedFor(job) == IssuedFor(s.jobs[j]) + 1
    ensures Inv(IssueState(s, j, job, t, w))
  {
    var s' := IssueState(s, j, job, t, w);
    forall k | k in s'.jobs ensures JobOk(k, s'.jobs[k], s'.sessions) {
      assert JobOk(k, s.jobs[k], s.sessions);
    }
    forall u | u in s'.sessions ensures SessionOk(u, s'.sessions[u], s'.jobs) {
      if u != t {
        IssueKeepsSessions(s, j, job, t, w, u);
      }
    }
    forall k | k in s'.jobs ensures |TokensOf(s', k)| == IssuedFor(s'.jobs[k]) {
      IssueCounts(s, j, job, t, w, k);
    }
  }

  lemma IssueCounts(s: Sys, j: JobId, job: Job, t: Token, w: Worker, k: JobId)
    requires t !in s.sessions
    ensures |TokensOf(IssueState(s, j, job, t, w), k)| == |TokensOf(s, k)| + if k == j then 1 else 0
  {
    assert TokensOf(IssueState(s, j, job, t, w), k) == TokensOf(s, k) + (if k == j then {t} else {});
    assert t !in TokensOf(s, k);
  }

  lemma ClaimKeepsInv(s: Sys, w: Worker, lockedRows: set<JobId>, j: JobId, t: Token)
    requires Inv(s)
    ensures Inv(StepClaim(s, w, lockedRows, j, t))
  {
    if ValidWorker(w) && t !in s.sessions && NextFresh(s, lockedRows, j) {
      assert JobOk(j, s.jobs[j], s.sessions);
      IssueKeepsInv(s, j, Issue(s.jobs[j], w, t, s.now), t, w);
    }
  }

  lemma RecoverKeepsInv(s: Sys, w: Worker, lockedRows: set<JobId>, j: JobId, t: Token)
    requires Inv(s)
    ensures Inv(StepRecover(s, w, lockedRows, j, t))
  {
    if ValidWorker(w) && t !in s.sessions && NextStale(s, lockedRows, j) {
      assert JobOk(j, s.jobs[j], s.sessions);
      RecoverJobOk(j, s.jobs[j], s.sessions, w, t, s.now);
      IssueKeepsInv(s, j, RecoverJob(s.jobs[j], w, t, s.now), t, w);
    }
  }

  lemma RecoverJobOk(j: JobId, job: Job, sessions: map<Token, Session>, w: Worker, t: Token, now: Time)
    requires JobOk(j, job, sessions) && Stale(job, now) && t !in sessions
    ensures JobOk(j, RecoverJob(job, w, t, now), sessions[t := Session(j, w, Claimed)])
    ensures RecoverJob(job, w, t, now).attempts == job.attempts
  {
    AbandonRunningDoesNothing(job.attempts);
    RecoverableCommitted(job.status);
  }

  // ------------------------------------------------------------------ engine

  lemma FenceMeansHolder(s: Sys, t: Token)
    requires Inv(s) && t in s.sessions
    ensures s.sessions[t].job in s.jobs
    ensures JobOk(s.sessions[t].job, s.jobs[s.sessions[t].job], s.sessions)
    ensures PhaseOk(t, s.sessions[t].phase, s.jobs[s.sessions[t].job])
  {
    assert SessionOk(t, s.sessions[t], s.jobs);
  }

  /** What the last leg commits satisfies the row invariant. */
  lemma FinishOk(j: JobId, job: Job, sessions: map<Token, Session>, attempt: nat, plan: seq<PlannedCall>, outputs: seq<ToolOutput>, now: Time)
    requires job.token.Some? && HolderOk(j, job, sessions) && 0 <= job.recoveryCount <= 1
    requires Distinct(job.tools) && AnswersPlan(outputs, plan, job.tools) && AttemptsOk(job.attempts)
    requires ClarificationsOk(job.(status := Completed))
    ensures var e := Finish(job, attempt, outputs, now);
            e.Commit? ==> JobOk(j, e.job, sessions) && SameOwner(job, e.job) && |e.job.attempts| == |job.attempts| && e.phase == Over
  {
    var e := Finish(job, attempt, outputs, now);
    if e.Commit? {
      assert AnswerRecorded(outputs[0], plan[0], job.tools);
      var k :| 0 <= k < |job.tools| && SameCall(job.tools[k], plan[0].tool, plan[0].args) && job.tools[k].output == outputs[0];
      assert DatasetRecorded(outputs[0].datasetId.value, job.tools);
    }
  }

  /** A transaction that runs the tool loop from rows satisfying its conditions. */
  lemma AfterToolsOk(j: JobId, job: Job, sessions: map<Token, Session>, plan: seq<PlannedCall>, start: nat,
                     attempt: nat, rows: seq<ToolRow>, outputs: seq<ToolOutput>, t: Token, now: Time)
    requires job.token == Some(t) && HolderOk(j, job, sessions) && 0 <= job.recoveryCount <= 1
    requires job.status == ExecutingTools && job.snapshot.None?
    requires LoopState(rows, outputs, plan, start, t) && attempt < |job.attempts|
    requires AttemptsOk(job.attempts) && ClarificationsOk(job)
    ensures var e := AfterTools(job, plan, attempt, RunTools(rows, outputs, plan, start, t), now);
            e.Commit? ==> JobOk(j, e.job, sessions) && SameOwner(job, e.job)
                          && |e.job.attempts| == |job.attempts| && PhaseOk(t, e.phase, e.job)
  {
    RunToolsKeepsRows(rows, outputs, plan, start, t);
    var end := RunTools(rows, outputs, plan, start, t);
    if end.Finished? {
      FinishOk(j, job.(tools := end.rows), sessions, attempt, plan, end.outputs, now);
    }
  }

  lemma OpenAttemptOk(job: Job)
    requires AttemptsOk(job.attempts)
    ensures AttemptsOk(OpenAttempt(job).attempts)
    ensures !NumberTaken(job.attempts, |job.attempts| + 1)
  {
  }

  lemma FirstTransactionOk(j: JobId, job: Job, sessions: map<Token, Session>, t: Token, outcome: Outcome, now: Time)
    requires JobOk(j, job, sessions) && job.token == Some(t) && Active(job.status)
    ensures var e := FirstTransaction(job, t, outcome, now);
            e.Commit? ==> JobOk(j, e.job, sessions) && SameOwner(job, e.job)
                          && |job.attempts| < |e.job.attempts| && PhaseOk(t, e.phase, e.job)
  {
    if Edge(job.status, UnderstandingRequest) {
      assert job.status == Received;
      OpenAttemptOk(job);
      match outcome
      case DenyBeforeModel => RejectOk(j, job, sessions);
      case AskClarification => AskOk(j, job, sessions, now);
      case DenyAtPolicyCheck => RejectOk(j, job, sessions);
      case ExecutePlan(plan) =>
        AfterToolsOk(j, OpenAttempt(job).(status := ExecutingTools), sessions, plan, 0, |job.attempts|, [], [], t, now);
    }
  }

  lemma RejectOk(j: JobId, job: Job, sessions: map<Token, Session>)
    requires JobOk(j, job, sessions) && job.token.Some? && BeforeTools(job.status)
    ensures JobOk(j, WithAttempt(OpenAttempt(job), |job.attempts|, AttemptRejected).(status := RejectedByPolicy, lease := None), sessions)
  {
  }

  lemma AskOk(j: JobId, job: Job, sessions: map<Token, Session>, now: Time)
    requires JobOk(j, job, sessions) && job.token.Some? && job.status == Received
    ensures JobOk(j, OpenAttempt(job).(status := NeedsClarification,
                       clarifications := job.clarifications
                         + [Clarification(Awaiting, now + CLARIFICATION_SECONDS, |job.attempts| + 1)]), sessions)
  {
  }

  lemma BeginKeepsInv(s: Sys, t: Token, outcome: Outcome)
    requires Inv(s)
    ensures Inv(StepBegin(s, t, outcome))
  {
    if t in s.sessions && s.sessions[t].phase.Claimed? {
      FenceMeansHolder(s, t);
      var job := s.jobs[s.sessions[t].job];
      if !Fence(job, t, s.sessions[t].worker) || NumberTaken(job.attempts, |job.attempts| + 1) {
        MovePhaseKeepsInv(s, t, Over);
      } else {
        FirstTransactionOk(s.sessions[t].job, job, s.sessions, t, outcome, s.now);
        match FirstTransaction(job, t, outcome, s.now)
        case Commit(job', phase) => HolderUpdateKeepsInv(s, t, job', phase);
        case Raised => MovePhaseKeepsInv(s, t, Failing(None));
      }
    }
  }

  lemma LaterTransactionOk(s: Sys, t: Token)
    requires Inv(s) && t in s.sessions && s.sessions[t].phase.InTool? && s.sessions[t].job in s.jobs
    requires Fence(s.jobs[s.sessions[t].job], t, s.sessions[t].worker)
    ensures var j := s.sessions[t].job;
            var job := s.jobs[j];
            var e := LaterTransaction(job, t, s.sessions[t].phase, s.now);
            e.Commit? ==> JobOk(j, e.job, s.sessions) && SameOwner(job, e.job)
                          && |e.job.attempts| == |job.attempts| && PhaseOk(t, e.phase, e.job)
  {
    FenceMeansHolder(s, t);
    var j := s.sessions[t].job;
    var job := s.jobs[j];
    var phase := s.sessions[t].phase;
    var call := phase.plan[phase.next];
    var row := RowFor(call, t);
    RecordedTurn(job.tools, phase.outputs, phase.plan, phase.next, t);
    AfterToolsOk(j, job, s.sessions, phase.plan, phase.next + 1, phase.attempt,
                 job.tools + [row], phase.outputs + [call.output], t, s.now);
  }

  lemma ResumeKeepsInv(s: Sys, t: Token)
    requires Inv(s)
    ensures Inv(StepResume(s, t))
  {
    if t in s.sessions && s.sessions[t].phase.InTool? {
      FenceMeansHolder(s, t);
      var job := s.jobs[s.sessions[t].job];
      if !Fence(job, t, s.sessions[t].worker) {
        MovePhaseKeepsInv(s, t, Over);
      } else {
        LaterTransactionOk(s, t);
        match LaterTransaction(job, t, s.sessions[t].phase, s.now)
        case Commit(job', phase) => HolderUpdateKeepsInv(s, t, job', phase);
        case Raised => MovePhaseKeepsInv(s, t, Failing(Some(s.sessions[t].phase.attempt)));
      }
    }
  }

  lemma PersistFailureKeepsInv(s: Sys, t: Token)
    requires Inv(s)
    ensures Inv(StepPersistFailure(s, t))
  {
    if t in s.sessions && s.sessions[t].phase.Failing? {
      FenceMeansHolder(s, t);
      var job := s.jobs[s.sessions[t].job];
      if !Fence(job, t, s.sessions[t].worker) {
        MovePhaseKeepsInv(s, t, Over);
      } else {
        HolderUpdateKeepsInv(s, t, FailJob(job, s.sessions[t].phase.committedAttempt), Over);
      }
    }
  }

  lemma CloseClarificationKeepsInv(s: Sys, t: Token)
    requires Inv(s)
    ensures Inv(StepCloseClarification(s, t))
  {
    if t in s.sessions && s.sessions[t].phase.AfterClarification? {
      FenceMeansHolder(s, t);
      var j := s.sessions[t].job;
      var closed := CloseJob(s.jobs[j], s.sessions[t].phase.attempt);
      WithJobKeepsInv(s, j, closed);
      MovePhaseKeepsInv(WithJob(s, j, closed), t, Over);
      assert Update(s, t, closed, Over) == MovePhase(WithJob(s, j, closed), t, Over);
    }
  }

  lemma RaiseKeepsInv(s: Sys, t: Token)
    requires Inv(s)
    ensures Inv(StepRaise(s, t))
  {
    if t in s.sessions {
      FenceMeansHolder(s, t);
      match s.sessions[t].phase
      case Claimed => MovePhaseKeepsInv(s, t, Failing(None));
      case InTool(_, _, attempt, _) => MovePhaseKeepsInv(s, t, Failing(Some(attempt)));
      case AfterClarification(attempt) => MovePhaseKeepsInv(s, t, Failing(Some(attempt)));
      case _ =>
    }
  }

  // ----------------------------------------------- other writers of the row

  /** A renewal that takes effect writes the lease of a row that has a token, and nothing else. */
  lemma RenewalWrites(s: Sys, j: JobId, t: Token, w: Worker)
    ensures StepRenew(s, j, t, w) == s
            || (j in s.jobs && s.jobs[j].token.Some?
                && StepRenew(s, j, t, w) == WithJob(s, j, s.jobs[j].(lease := Some(s.now + LEASE_SECONDS))))
  {
  }

  lemma RenewKeepsInv(s: Sys, j: JobId, t: Token, w: Worker)
    requires Inv(s)
    ensures Inv(StepRenew(s, j, t, w))
  {
    RenewalWrites(s, j, t, w);
    if j in s.jobs && s.jobs[j].token.Some? {
      LeaseWriteKeepsInv(s, j, s.jobs[j].(lease := Some(s.now + LEASE_SECONDS)));
    }
  }

  lemma LeaseWriteKeepsInv(s: Sys, j: JobId, renewed: Job)
    requires Inv(s) && j in s.jobs && s.jobs[j].token.Some?
    requires renewed == s.jobs[j].(lease := renewed.lease)
    ensures Inv(WithJob(s, j, renewed))
  {
    assert JobOk(j, s.jobs[j], s.sessions);
    assert renewed.tools == s.jobs[j].tools;
    WithJobKeepsInv(s, j, renewed);
  }

  lemma RespondKeepsInv(s: Sys, j: JobId, c: nat)
    requires Inv(s)
    ensures Inv(StepRespond(s, j, c))
  {
    if j in s.jobs {
      RespondJobOk(j, s.jobs[j], s.sessions, c, s.now);
      WithJobKeepsInv(s, j, RespondJob(s.jobs[j], c, s.now));
    }
  }

  lemma RespondJobOk(j: JobId, job: Job, sessions: map<Token, Session>, c: nat, now: Time)
    requires JobOk(j, job, sessions)
    ensures JobOk(j, RespondJob(job, c, now), sessions)
    ensures SameOwner(job, RespondJob(job, c, now)) && RespondJob(job, c, now).tools == job.tools
    ensures |job.attempts| <= |RespondJob(job, c, now).attempts|
  {
  }

  lemma ExpireDueKeepsInv(s: Sys, j: JobId, c: nat)
    requires Inv(s)
    ensures Inv(StepExpireDue(s, j, c))
  {
    if j in s.jobs {
      ExpireJobOk(j, s.jobs[j], s.sessions, c, s.now);
      WithJobKeepsInv(s, j, ExpireJob(s.jobs[j], c, s.now));
    }
  }

  lemma ExpireJobOk(j: JobId, job: Job, sessions: map<Token, Session>, c: nat, now: Time)
    requires JobOk(j, job, sessions)
    ensures JobOk(j, ExpireJob(job, c, now), sessions)
  {
  }

  lemma CancelKeepsInv(s: Sys, j: JobId, c: nat)
    requires Inv(s)
    ensures Inv(StepCancel(s, j, c))
  {
    if j in s.jobs {
      CancelJobOk(j, s.jobs[j], s.sessions, c);
      WithJobKeepsInv(s, j, CancelJob(s.jobs[j], c));
    }
  }

  lemma CancelJobOk(j: JobId, job: Job, sessions: map<Token, Session>, c: nat)
    requires JobOk(j, job, sessions)
    ensures JobOk(j, CancelJob(job, c), sessions)
  {
  }

  lemma CancelledRowOk(j: JobId, job: Job, sessions: map<Token, Session>)
    requires JobOk(j, job, sessions)
    ensures JobOk(j, job.(status := Cancelled), sessions)
  {
  }

  lemma WriteCancelledKeepsInv(s: Sys, r: RequestId)
    requires Inv(s)
    ensures Inv(StepWriteCancelled(s, r))
  {
    if r in s.cancels && s.cancels[r] in s.jobs {
      var j := s.cancels[r];
      CancelledRowOk(j, s.jobs[j], s.sessions);
      WithJobKeepsInv(s, j, s.jobs[j].(status := Cancelled));
      CancelsPlayNoPart(WithJob(s, j, s.jobs[j].(status := Cancelled)), s.cancels - {r});
    }
  }

  lemma CancelsPlayNoPart(s: Sys, cancels: map<RequestId, JobId>)
    requires Inv(s)
    ensures Inv(s.(cancels := cancels))
  {
    var s' := s.(cancels := cancels);
    forall j | j in s'.jobs ensures |TokensOf(s', j)| == IssuedFor(s'.jobs[j]) {
      TokensFrame(s, s', j);
    }
  }

  lemma SubmitKeepsInv(s: Sys, j: JobId)
    requires Inv(s)
    ensures Inv(StepSubmit(s, j))
  {
    if j !in s.jobs {
      var s' := StepSubmit(s, j);
      forall k | k in s'.jobs ensures JobOk(k, s'.jobs[k], s'.sessions) && |TokensOf(s', k)| == IssuedFor(s'.jobs[k]) {
        if k == j {
          forall t | t in s.sessions ensures s.sessions[t].job != j {
            assert SessionOk(t, s.sessions[t], s.jobs);
          }
          assert TokensOf(s', j) == {};
        } else {
          assert JobOk(k, s.jobs[k], s.sessions);
          assert TokensOf(s', k) == TokensOf(s, k);
        }
      }
      forall t | t in s'.sessions ensures SessionOk(t, s'.sessions[t], s'.jobs) {
        assert SessionOk(t, s.sessions[t], s.jobs);
      }
    }
  }

  lemma TickKeepsInv(s: Sys, seconds: nat)
    requires Inv(s)
    ensures Inv(Step(s, Tick(seconds)))
  {
    var s' := Step(s, Tick(seconds));
    forall j | j in s'.jobs ensures |TokensOf(s', j)| == IssuedFor(s'.jobs[j]) {
      TokensFrame(s, s', j);
    }
  }

  /** The steps of the engine's own sessions. */
  predicate IsEngineStep(a: Action) {
    a.Begin? || a.Resume? || a.CloseClarification? || a.Raise? || a.PersistFailure? || a.Crash?
  }

  lemma CrashKeepsInv(s: Sys, t: Token)
    requires Inv(s)
    ensures Inv(StepCrash(s, t))
  {
    if t in s.sessions {
      FenceMeansHolder(s, t);
      MovePhaseKeepsInv(s, t, Over);
    }
  }

  lemma EngineStepKeepsInv(s: Sys, a: Action)
    requires Inv(s) && IsEngineStep(a)
    ensures Inv(Step(s, a))
  {
    match a
    case Begin(t, outcome) => BeginKeepsInv(s, t, outcome);
    case Resume(t) => ResumeKeepsInv(s, t);
    case CloseClarification(t) => CloseClarificationKeepsInv(s, t);
    case Raise(t) => RaiseKeepsInv(s, t);
    case PersistFailure(t) => PersistFailureKeepsInv(s, t);
    case Crash(t) => CrashKeepsInv(s, t);
  }

  lemma OtherStepKeepsInv(s: Sys, a: Action)
    requires Inv(s) && !IsEngineStep(a)
    ensures Inv(Step(s, a))
  {
    match a
    case Tick(seconds) => TickKeepsInv(s, seconds);
    case Submit(j) => SubmitKeepsInv(s, j);
    case Claim(w, lockedRows, j, t) => ClaimKeepsInv(s, w, lockedRows, j, t);
    case Recover(w, lockedRows, j, t) => RecoverKeepsInv(s, w, lockedRows, j, t);
    case Renew(j, t, w) => RenewKeepsInv(s, j, t, w);
    case Respond(j, c) => RespondKeepsInv(s, j, c);
    case ExpireDue(j, c) => ExpireDueKeepsInv(s, j, c);
    case CancelClarification(j, c) => CancelKeepsInv(s, j, c);
    case ReadForCancel(r, j) => CancelsPlayNoPart(s, StepReadForCancel(s, r, j).cancels);
    case WriteCancelled(r) => WriteCancelledKeepsInv(s, r);
  }

  /** Every step of the protocol keeps the invariant. */
  lemma StepKeepsInv(s: Sys, a: Action)
    requires Inv(s)
    ensures Inv(Step(s, a))
  {
    if IsEngineStep(a) {
      EngineStepKeepsInv(s, a);
    } else {
      OtherStepKeepsInv(s, a);
    }
  }

  /** The invariant holds after every run. */
  lemma {:induction false} RunKeepsInv(s: Sys, actions: seq<Action>)
    requires Inv(s)
    ensures Inv(Run(s, actions))
    decreases |actions|
  {
    if actions != [] {
      StepKeepsInv(s, actions[0]);
      RunKeepsInv(Step(s, actions[0]), actions[1..]);
    }
  }

  lemma StartInv(now: Time)
    ensures Inv(Start(now))
  {
  }

  /** The invariant holds in every reachable state. */
  lemma ReachableInv(now: Time, actions: seq<Action>)
    ensures Inv(Run(Start(now), actions))
  {
    StartInv(now);
    RunKeepsInv(Start(now), actions);
  }
}
