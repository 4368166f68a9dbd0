/** The ingestion worker's transactions over mutable tables, proved to take exactly the protocol's steps. */
module IngestionStore {

  import opened Wrappers
  import opened Ingestion
  import CommandEnvelope

  datatype Delivery =
    | InvalidWorker
    | EnvelopeRejected(error: CommandEnvelope.EnvelopeError)
    | NoJobClaimed
    | CommandReplayed
    | JobClaimed(job: JobId)

  datatype Processing = StaleClaimAborted | Recorded(status: Status) | RolledBackInto(attempt: nat) | RaisedToCaller

  /** Not blank and at most 255 characters. */
  predicate ValidWorker(w: Worker) {
    |w| <= 255 && exists i :: 0 <= i < |w| && w[i] !in {' ', '\t', '\n', '\r'}
  }

  class Store {
    var now: Time
    var jobs: map<JobId, Job>
    var logs: seq<LogRow>
    var sessions: map<Token, Session>

    ghost function State(): Sys
      reads this
    {
      Sys(now, jobs, logs, sessions)
    }

    constructor (start: Time)
      ensures State() == Start(start)
    {
      now, jobs, logs, sessions := start, map[], [], map[];
    }

    /** claim_ingestion_job: lock the one row asked for, if it can be claimed, and mark it. */
    method ClaimIngestionJob(j: JobId, worker: Worker, token: Token, rowLocked: bool) returns (claimed: bool)
      modifies this`jobs
      ensures claimed <==> j in old(jobs) && !rowLocked && Claimable(old(jobs)[j], now)
      ensures jobs == if claimed then old(jobs)[j := ClaimRow(old(jobs)[j], worker, token, now)] else old(jobs)
    {
      if j !in jobs || rowLocked {
        return false;
      }
      var row := jobs[j];
      if row.status.Queued? || (row.status.Parsing? && row.lockedAt.Some? && row.lockedAt.value < now - RECLAIM_SECONDS && row.current < row.max) {
        jobs := jobs[j := row.(status := Parsing, lockedBy := Some(worker), token := Some(token),
                               lockedAt := Some(now), claims := row.claims + 1)];
        return true;
      }
      return false;
    }

    /** The insert into the replay log; false is the integrity error of either unique rule. */
    method InsertLog(row: LogRow) returns (inserted: bool)
      modifies this`logs
      ensures inserted <==> !Replayed(old(logs), row)
      ensures logs == if inserted then old(logs) + [row] else old(logs)
    {
      if Replayed(logs, row) {
        return false;
      }
      logs := logs + [row];
      return true;
    }

    /** claim_and_process_envelope up to the commit of claim and log row. */
    method ClaimEnvelope(e: CommandEnvelope.Envelope, worker: Worker, token: Token, rowLocked: bool,
                         clock: CommandEnvelope.Micros, resolver: string -> string, pf: CommandEnvelope.Platform)
      returns (d: Delivery)
      requires token !in sessions
      modifies this
      ensures d.InvalidWorker? <==> !ValidWorker(worker)
      ensures d.InvalidWorker? ==> State() == old(State())
      ensures !d.InvalidWorker? ==>
                State() == StepDeliver(old(State()), e, CommandEnvelope.ValidateEnvelope(e, clock, resolver, pf), worker, token, rowLocked)
      ensures var verdict := CommandEnvelope.ValidateEnvelope(e, clock, resolver, pf);
              var free := e.jobId in old(jobs) && !rowLocked && Claimable(old(jobs)[e.jobId], now);
              !d.InvalidWorker? ==>
                d == if verdict.Some? then EnvelopeRejected(verdict.value)
                     else if !free then NoJobClaimed
                     else if Replayed(old(logs), LogRow(e.commandId, e.jobId, old(jobs)[e.jobId].org, e.idempotencyKey)) then CommandReplayed
                     else JobClaimed(e.jobId)
    {
      if !ValidWorker(worker) {
        return InvalidWorker;
      }
      var verdict := CommandEnvelope.ValidateEnvelope(e, clock, resolver, pf);
      if verdict.Some? {
        return EnvelopeRejected(verdict.value);
      }
      var savedJobs := jobs;
      var claimed := ClaimIngestionJob(e.jobId, worker, token, rowLocked);
      if !claimed {
        return NoJobClaimed;
      }
      var inserted := InsertLog(LogRow(e.commandId, e.jobId, jobs[e.jobId].org, e.idempotencyKey));
      if !inserted {
        jobs := savedJobs;   // rollback
        return CommandReplayed;
      }
      sessions := sessions[token := Session(e.jobId, worker, Claimed)];
      return JobClaimed(e.jobId);
    }

    /** _process_claimed_job up to its commit or rollback. */
    method ProcessClaimedJob(t: Token, rowLocked: bool, outcome: Outcome) returns (p: Processing)
      requires t in sessions && sessions[t].phase.Claimed? && sessions[t].job in jobs
      modifies this
      ensures State() == StepProcess(old(State()), t, rowLocked, outcome)
      ensures p.StaleClaimAborted? <==>
                rowLocked || !Holds(old(jobs)[old(sessions)[t].job], t, old(sessions)[t].worker)
                || !Open(old(jobs)[old(sessions)[t].job].status)
      ensures p.Recorded? ==> jobs[sessions[t].job].status == p.status && !Open(p.status)
      ensures Inv(old(State())) && !p.StaleClaimAborted? ==>
                p == if outcome.ParserSays? && !Open(outcome.status) then Recorded(outcome.status)
                     else RolledBackInto(old(jobs)[old(sessions)[t].job].current + 1)
    {
      ghost var before := State();
      assert Inv(before) ==> SessionOk(t, before.sessions[t], before.jobs) && JobOk(before.jobs[before.sessions[t].job]);
      var j := sessions[t].job;
      var job := jobs[j];
      if rowLocked || job.lockedBy != Some(sessions[t].worker) || job.token != Some(t) || !Open(job.status) {
        sessions := sessions[t := sessions[t].(phase := Over)];
        return StaleClaimAborted;
      }
      var row := job.(status := Parsing, current := job.current + 1);
      row := row.(attempts := row.attempts + [AttemptRow(row.current, Parsing, t)]);
      var last := |row.attempts| - 1;
      if row.version.None? {
        row := row.(status := Failed, attempts := row.attempts[last := AttemptRow(row.current, Failed, t)]);
        assert row == AddAttempt(job, Failed).(status := Failed);
        jobs := jobs[j := row];
        sessions := sessions[t := sessions[t].(phase := Over)];
        return Recorded(Failed);
      }
      if !VersionEdge(row.version.value, Parsing) {
        sessions := sessions[t := sessions[t].(phase := Over)];
        return RaisedToCaller;
      }
      row := row.(version := Some(Parsing));
      if outcome.Throws? || Open(outcome.status) {
        sessions := sessions[t := sessions[t].(phase := FailureDue(row.current))];
        return RolledBackInto(row.current);
      }
      row := row.(attempts := row.attempts[last := AttemptRow(row.current, outcome.status, t)]);
      row := row.(status := outcome.status, version := Some(outcome.status));
      assert row == AddAttempt(job, outcome.status).(status := outcome.status, version := Some(outcome.status));
      jobs := jobs[j := row];
      sessions := sessions[t := sessions[t].(phase := Over)];
      return Recorded(outcome.status);
    }

    /** The accounting after a rollback: re-lock, re-check the holder, count the attempt. */
    method RecordFailureOf(t: Token) returns (p: Processing)
      requires t in sessions && sessions[t].phase.FailureDue? && sessions[t].job in jobs
      modifies this
      ensures State() == StepRecordFailure(old(State()), t)
      ensures p.StaleClaimAborted? <==> !Holds(old(jobs)[old(sessions)[t].job], t, old(sessions)[t].worker)
      ensures var job, attempt := old(jobs)[old(sessions)[t].job], old(sessions)[t].phase.attempt;
              Inv(old(State())) && !p.StaleClaimAborted? ==>
                && attempt == job.current + 1 && attempt <= job.max
                && p == Recorded(if attempt < job.max then Queued else Failed)
                && jobs == old(jobs)[old(sessions)[t].job :=
                     job.(status := p.status, version := Some(p.status), current := attempt,
                          attempts := job.attempts + [AttemptRow(attempt, Failed, t)])]
    {
      ghost var before := State();
      assert Inv(before) ==> SessionOk(t, before.sessions[t], before.jobs) && JobOk(before.jobs[before.sessions[t].job]);
      var j := sessions[t].job;
      var job := jobs[j];
      var attempt := sessions[t].phase.attempt;
      if job.lockedBy != Some(sessions[t].worker) || job.token != Some(t) {
        sessions := sessions[t := sessions[t].(phase := Over)];
        return StaleClaimAborted;
      }
      var next := if attempt < job.max then Queued else Failed;
      var row := job;
      if row.status != next {
        if !JobEdge(row.status, next) {
          sessions := sessions[t := sessions[t].(phase := Over)];
          return RaisedToCaller;
        }
        row := row.(status := next);
      }
      row := row.(current := attempt);
      row := row.(attempts := row.attempts + [AttemptRow(attempt, Failed, t)]);
      if row.version.Some? && row.version.value != next {
        if !VersionEdge(row.version.value, next) {
          sessions := sessions[t := sessions[t].(phase := Over)];
          return RaisedToCaller;
        }
        row := row.(version := Some(next));
      }
      jobs := jobs[j := row];
      sessions := sessions[t := sessions[t].(phase := Over)];
      return Recorded(next);
    }
  }
}
