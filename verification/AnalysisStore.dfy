/**
  The database functions of migration 031 and the engine's transactions, written
  over mutable tables and proved to take exactly the protocol's steps.
 */
module AnalysisStore {

  import opened Wrappers
  import opened AnalysisStatus
  import opened ToolDedup
  import opened ClaimProtocol
  import opened ClaimInvariants
  import opened Heartbeat

  datatype ClaimError = InvalidWorkerId

  /** ORDER BY created_at, id LIMIT 1 has an answer on every non-empty set of rows. */
  lemma {:induction false} CreatedLeastExists(jobs: map<JobId, Job>, candidates: set<JobId>) returns (j: JobId)
    requires candidates <= jobs.Keys && candidates != {}
    ensures j in candidates && forall k :: k in candidates ==> CreatedBefore(jobs[j], j, jobs[k], k)
  {
    j :| j in candidates;
    if other :| other in candidates && other != j {
      assert other in candidates - {j};
      var k := CreatedLeastExists(jobs, candidates - {j});
      if CreatedBefore(jobs[k], k, jobs[j], j) {
        j := k;
      }
    }
  }

  /** ORDER BY lease_expires_at, created_at, id LIMIT 1 likewise. */
  lemma {:induction false} ExpiredLeastExists(jobs: map<JobId, Job>, candidates: set<JobId>) returns (j: JobId)
    requires candidates <= jobs.Keys && candidates != {}
    requires forall k :: k in candidates ==> jobs[k].lease.Some?
    ensures j in candidates && forall k :: k in candidates ==> ExpiredBefore(jobs[j], j, jobs[k], k)
  {
    j :| j in candidates;
    if other :| other in candidates && other != j {
      assert other in candidates - {j};
      var k := ExpiredLeastExists(jobs, candidates - {j});
      if ExpiredBefore(jobs[k], k, jobs[j], j) {
        j := k;
      }
    }
  }

  // ------------------------------------------- transactions on a row in memory

  /** A guarded status assignment; None is the raised exception. */
  method Move(row: Job, next: Status) returns (moved: Option<Job>)
    ensures moved == if Edge(row.status, next) then Some(row.(status := next)) else None
  {
    var invalid := ValidateTransition(row.status, next);
    if invalid.Some? {
      return None;
    }
    return Some(row.(status := next));
  }

  /** From the tool loop to the end of the transaction. */
  method ToolsAndResult(start: Job, t: Token, plan: seq<PlannedCall>, from: nat, attempt: nat,
                        rows: seq<ToolRow>, outputs: seq<ToolOutput>, now: Time)
    returns (e: Effect)
    requires from <= |plan| && start.status == ExecutingTools
    ensures e == AfterTools(start, plan, attempt, RunTools(rows, outputs, plan, from, t), now)
  {
    var loop := ExecuteTools(rows, outputs, plan, from, t);
    var row := start.(tools := loop.rows);
    if loop.Stopped? {
      return Commit(row, InTool(plan, loop.next, attempt, loop.outputs));
    }
    var moved := Move(row, ReconcilingResults);
    if moved.None? { return Raised; }
    moved := Move(moved.value, GeneratingStructuredResult);
    if moved.None? { return Raised; }
    if loop.outputs == [] || loop.outputs[0].datasetId.None? {
      return Raised;
    }
    moved := Move(moved.value, QualityGate);
    if moved.None? { return Raised; }
    moved := Move(moved.value, Completed);
    if moved.None? { return Raised; }
    row := moved.value.(lease := None);
    row := WithAttempt(row, attempt, AttemptCompleted);
    if row.snapshot.Some? {
      return Raised;
    }
    return Commit(row.(snapshot := Some(Snapshot(loop.outputs[0].datasetId.value, now))), Over);
  }

  /** execute_job behind its fence and attempt number, up to the first end of a transaction. */
  method FirstTransactionOf(job: Job, t: Token, outcome: Outcome, now: Time) returns (e: Effect)
    ensures e == FirstTransaction(job, t, outcome, now)
  {
    var attempt := |job.attempts|;
    var row := job.(attempts := job.attempts + [Attempt(attempt + 1, AttemptInProgress)]);
    var moved := Move(row, UnderstandingRequest);
    if moved.None? { return Raised; }
    row := moved.value;
    if outcome.DenyBeforeModel? {
      row := row.(status := RejectedByPolicy, lease := None);
      row := WithAttempt(row, attempt, AttemptRejected);
      return Commit(row, Over);
    }
    if outcome.AskClarification? {
      // require_clarification commits by itself; CloseAfterClarification is what follows
      moved := Move(row, NeedsClarification);
      if moved.None? { return Raised; }
      row := moved.value.(clarifications :=
        row.clarifications + [Clarification(Awaiting, now + CLARIFICATION_SECONDS, attempt + 1)]);
      return Commit(row, AfterClarification(attempt));
    }
    moved := Move(row, Planning);
    if moved.None? { return Raised; }
    moved := Move(moved.value, PolicyCheck);
    if moved.None? { return Raised; }
    if outcome.DenyAtPolicyCheck? {
      row := moved.value.(status := RejectedByPolicy, lease := None);
      row := WithAttempt(row, attempt, AttemptRejected);
      return Commit(row, Over);
    }
    moved := Move(moved.value, RetrievingInternalSources);
    if moved.None? { return Raised; }
    moved := Move(moved.value, ValidatingSources);
    if moved.None? { return Raised; }
    moved := Move(moved.value, ExecutingTools);
    if moved.None? { return Raised; }
    e := ToolsAndResult(moved.value, t, outcome.plan, 0, attempt, job.tools, [], now);
  }

  class Store {
    var now: Time
    var jobs: map<JobId, Job>
    var sessions: map<Token, Session>
    var cancels: map<RequestId, JobId>

    ghost function State(): Sys
      reads this
    {
      Sys(now, jobs, sessions, cancels)
    }

    constructor (start: Time)
      ensures State() == Start(start)
    {
      now, jobs, sessions, cancels := start, map[], map[], map[];
    }

    /** claim_next_analysis_job: the oldest unlocked fresh row, or none. */
    method ClaimNextAnalysisJob(worker: Worker, lockedRows: set<JobId>, token: Token)
      returns (r: Result<Option<JobId>, ClaimError>)
      requires token !in sessions
      modifies this
      ensures r.Err? <==> !ValidWorker(worker)
      ensures r.Ok? && r.value.Some? ==>
                && NextFresh(old(State()), lockedRows, r.value.value)
                && State() == StepClaim(old(State()), worker, lockedRows, r.value.value, token)
                && token in sessions && sessions[token] == Session(r.value.value, worker, Claimed)
      ensures r.Err? || r.value.None? ==> State() == old(State())
      ensures r.Ok? && r.value.None? ==> forall j :: j in jobs && Fresh(jobs[j]) ==> j in lockedRows
    {
      if !ValidWorker(worker) {
        return Err(InvalidWorkerId);
      }
      var candidates := set j | j in jobs && j !in lockedRows && Fresh(jobs[j]);
      if candidates == {} {
        assert forall j :: j in jobs && j !in lockedRows && Fresh(jobs[j]) ==> j in candidates;
        return Ok(None);
      }
      ghost var first := CreatedLeastExists(jobs, candidates);
      var j :| j in candidates && forall k :: k in candidates ==> CreatedBefore(jobs[j], j, jobs[k], k);
      jobs := jobs[j := Issue(jobs[j], worker, token, now)];
      sessions := sessions[token := Session(j, worker, Claimed)];
      return Ok(Some(j));
    }

    /** recover_next_stale_analysis_job: the unlocked row whose lease ran out first, or none. */
    method RecoverNextStaleAnalysisJob(worker: Worker, lockedRows: set<JobId>, token: Token)
      returns (r: Result<Option<JobId>, ClaimError>)
      requires token !in sessions
      modifies this
      ensures r.Err? <==> !ValidWorker(worker)
      ensures r.Ok? && r.value.Some? ==>
                && NextStale(old(State()), lockedRows, r.value.value)
                && State() == StepRecover(old(State()), worker, lockedRows, r.value.value, token)
                && token in sessions && sessions[token] == Session(r.value.value, worker, Claimed)
      ensures r.Err? || r.value.None? ==> State() == old(State())
      ensures r.Ok? && r.value.None? ==> forall j :: j in jobs && Stale(jobs[j], now) ==> j in lockedRows
    {
      if !ValidWorker(worker) {
        return Err(InvalidWorkerId);
      }
      var candidates := set j | j in jobs && j !in lockedRows && Stale(jobs[j], now);
      if candidates == {} {
        assert forall j :: j in jobs && j !in lockedRows && Stale(jobs[j], now) ==> j in candidates;
        return Ok(None);
      }
      ghost var first := ExpiredLeastExists(jobs, candidates);
      var j :| j in candidates && forall k :: k in candidates ==> ExpiredBefore(jobs[j], j, jobs[k], k);
      jobs := jobs[j := jobs[j].(attempts := AbandonRunning(jobs[j].attempts))];
      jobs := jobs[j := Issue(jobs[j], worker, token, now).(recoveryCount := jobs[j].recoveryCount + 1)];
      sessions := sessions[token := Session(j, worker, Claimed)];
      return Ok(Some(j));
    }

    /** renew_analysis_job_lease: true exactly when a row was updated. */
    method RenewAnalysisJobLease(j: JobId, token: Token, worker: Worker) returns (renewed: bool)
      modifies this
      ensures State() == StepRenew(old(State()), j, token, worker)
      ensures renewed <==> ValidWorker(worker) && j in old(jobs) && Fence(old(jobs)[j], token, worker)
      ensures renewed ==> j in jobs && jobs[j].lease == Some(now + LEASE_SECONDS)
    {
      if !ValidWorker(worker) {
        return false;
      }
      if j !in jobs || !Fence(jobs[j], token, worker) {
        return false;
      }
      jobs := jobs[j := jobs[j].(lease := Some(now + LEASE_SECONDS))];
      return true;
    }

    /** The heartbeat: sleep, then renew, and cancel the engine's task when that fails. */
    method HeartbeatLoop(j: JobId, token: Token, worker: Worker, pulses: seq<Pulse>) returns (cancelled: bool)
      modifies this
      ensures Beat(State(), cancelled) == Beats(old(State()), j, token, worker, pulses)
    {
      assert pulses[0..] == pulses;
      for k := 0 to |pulses|
        invariant Beats(State(), j, token, worker, pulses[k..]) == Beats(old(State()), j, token, worker, pulses)
      {
        assert pulses[k..][0] == pulses[k] && pulses[k..][1..] == pulses[k + 1..];
        var later := Run(Sys(now, jobs, sessions, cancels), pulses[k].others);
        now, jobs, sessions, cancels := later.now, later.jobs, later.sessions, later.cancels;
        if pulses[k].engineDone {
          return false;
        }
        var renewed := false;
        if !pulses[k].raises {
          renewed := RenewAnalysisJobLease(j, token, worker);
        }
        if !renewed {
          if token in sessions {
            sessions := sessions[token := sessions[token].(phase := Over)];
          }
          return true;
        }
      }
      return false;
    }

    /** run_once up to the engine: a fresh job if there is one, else a stale one. */
    method Poll(worker: Worker, lockedFirst: set<JobId>, lockedSecond: set<JobId>, token: Token)
      returns (r: Result<Option<JobId>, ClaimError>)
      requires token !in sessions
      modifies this
      ensures r.Err? <==> !ValidWorker(worker)
      ensures r.Err? || r.value.None? ==> State() == old(State())
      ensures r.Ok? && r.value.None? ==> forall j :: j in jobs && Fresh(jobs[j]) ==> j in lockedFirst
      ensures r.Ok? && r.value.None? ==> forall j :: j in jobs && Stale(jobs[j], now) ==> j in lockedSecond
      ensures r.Ok? && r.value.Some? ==>
                || State() == StepClaim(old(State()), worker, lockedFirst, r.value.value, token)
                || ((forall j :: j in old(jobs) && Fresh(old(jobs)[j]) ==> j in lockedFirst)
                    && State() == StepRecover(old(State()), worker, lockedSecond, r.value.value, token))
    {
      r := ClaimNextAnalysisJob(worker, lockedFirst, token);
      if r.Ok? && r.value.None? {
        r := RecoverNextStaleAnalysisJob(worker, lockedSecond, token);
      }
    }

    /** Commit the effect of a transaction, or roll it back into `rolledBack`. */
    method End(t: Token, e: Effect, rolledBack: Phase)
      requires t in sessions
      modifies this
      ensures State() == Take(old(State()), t, e, rolledBack)
    {
      match e
      case Commit(row, phase) =>
        jobs := jobs[sessions[t].job := row];
        sessions := sessions[t := sessions[t].(phase := phase)];
      case Raised =>
        sessions := sessions[t := sessions[t].(phase := rolledBack)];
    }

    /** execute_job up to its first commit, rollback or transaction-ending tool. */
    method ExecuteJob(t: Token, outcome: Outcome) returns (fenced: bool)
      requires t in sessions && sessions[t].phase.Claimed? && sessions[t].job in jobs
      modifies this
      ensures State() == StepBegin(old(State()), t, outcome)
      ensures fenced <==> Fence(old(jobs)[old(sessions)[t].job], t, old(sessions)[t].worker)
    {
      var row := jobs[sessions[t].job];
      fenced := Fence(row, t, sessions[t].worker);
      if !fenced || NumberTaken(row.attempts, |row.attempts| + 1) {
        End(t, Raised, Over);
        return;
      }
      var e := FirstTransactionOf(row, t, outcome, now);
      End(t, e, Failing(None));
    }

    /** The engine after a tool that ended its transaction: fence first, then the owed row. */
    method ResumeAfterTool(t: Token) returns (fenced: bool)
      requires t in sessions && sessions[t].phase.InTool? && sessions[t].job in jobs
      requires Inv(State())
      modifies this
      ensures State() == StepResume(old(State()), t)
      ensures fenced <==> Fence(old(jobs)[old(sessions)[t].job], t, old(sessions)[t].worker)
    {
      FenceMeansHolder(State(), t);
      var row := jobs[sessions[t].job];
      var phase := sessions[t].phase;
      fenced := Fence(row, t, sessions[t].worker);
      if !fenced {
        End(t, Raised, Over);
        return;
      }
      var call := phase.plan[phase.next];
      var e := ToolsAndResult(row, t, phase.plan, phase.next + 1, phase.attempt,
                              row.tools + [RowFor(call, t)], phase.outputs + [call.output], now);
      End(t, e, Failing(Some(phase.attempt)));
    }

    /** The failure transaction: the fence is asked again before anything is written. */
    method PersistFailureOf(t: Token) returns (persisted: bool)
      requires t in sessions && sessions[t].phase.Failing? && sessions[t].job in jobs
      modifies this
      ensures State() == StepPersistFailure(old(State()), t)
      ensures persisted <==> Fence(old(jobs)[old(sessions)[t].job], t, old(sessions)[t].worker)
    {
      var j := sessions[t].job;
      var row := jobs[j];
      if !Fence(row, t, sessions[t].worker) {
        End(t, Raised, Over);
        return false;
      }
      var committed := sessions[t].phase.committedAttempt;
      row := row.(status := Failed, lease := None);
      if committed.Some? {
        row := WithAttempt(row, committed.value, AttemptFailed);
      }
      End(t, Commit(row, Over), Over);
      return true;
    }

    /** cancel_analysis up to its guard: the status is read without a lock. */
    method ReadForCancel(r: RequestId, j: JobId) returns (passed: bool)
      requires r !in cancels
      modifies this
      ensures State() == StepReadForCancel(old(State()), r, j)
      ensures passed <==> j in jobs && Edge(jobs[j].status, Cancelled)
    {
      if j !in jobs {
        return false;
      }
      var moved := Move(jobs[j], Cancelled);
      if moved.None? {
        return false;
      }
      cancels := cancels[r := j];
      return true;
    }

    /** cancel_analysis from its guard to its commit. */
    method WriteCancelled(r: RequestId)
      requires r in cancels && cancels[r] in jobs
      modifies this
      ensures State() == StepWriteCancelled(old(State()), r)
    {
      var j := cancels[r];
      jobs := jobs[j := jobs[j].(status := Cancelled)];
      cancels := cancels - {r};
    }

    /** The writes after require_clarification has committed: nothing asks who holds the row. */
    method CloseAfterClarification(t: Token)
      requires t in sessions && sessions[t].phase.AfterClarification? && sessions[t].job in jobs
      modifies this
      ensures State() == StepCloseClarification(old(State()), t)
    {
      var j := sessions[t].job;
      var row := WithAttempt(jobs[j], sessions[t].phase.attempt, AttemptNeedsClarification);
      row := row.(lease := None);
      End(t, Commit(row, Over), Over);
    }
  }
}
