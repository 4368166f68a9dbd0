/**
  What a delivery, a processing and the failure accounting do to a job, column by
  column, and what a job comes to whose every attempt fails.
 */
module IngestionOutcomes {

  import opened Wrappers
  import opened Ingestion
  import opened IngestionLosses
  import CommandEnvelope

  /** Only the phase of session t is written. */
  predicate WroteNoRow(s: Sys, s': Sys, t: Token, phase: Phase)
    requires t in s.sessions
  {
    s' == Sys(s.now, s.jobs, s.logs, s.sessions[t := Session(s.sessions[t].job, s.sessions[t].worker, phase)])
  }

  /** Only the row of session t's job and the end of the session are written. */
  predicate Wrote(s: Sys, s': Sys, t: Token, row: Job)
    requires t in s.sessions
  {
    s' == Sys(s.now, s.jobs[s.sessions[t].job := row], s.logs,
              s.sessions[t := Session(s.sessions[t].job, s.sessions[t].worker, Over)])
  }

  /** The claim of session t still stands. */
  predicate Standing(s: Sys, t: Token) {
    && t in s.sessions && s.sessions[t].job in s.jobs
    && s.jobs[s.sessions[t].job].token == Some(t) && s.jobs[s.sessions[t].job].lockedBy == Some(s.sessions[t].worker)
  }

  // ------------------------------------------------------------------ one step

  /** Waiting, or its parsing begun more than 900 seconds ago with an attempt left. */
  predicate ToBeHad(job: Job, now: Time) {
    || job.status == Queued
    || (job.status == Parsing && job.lockedAt.Some? && job.lockedAt.value < now - 900 && job.current < job.max)
  }

  predicate Unseen(logs: seq<LogRow>, command: CommandId, org: Org, key: string) {
    forall i :: 0 <= i < |logs| ==> logs[i].command != command && (logs[i].org != org || logs[i].key != key)
  }

  /** A delivery claims exactly when the envelope is accepted, the row can be had and neither id nor key was seen. */
  lemma DeliverOutcome(s: Sys, e: CommandEnvelope.Envelope, verdict: Option<CommandEnvelope.EnvelopeError>,
                       w: Worker, t: Token, rowLocked: bool)
    ensures var s' := Step(s, Deliver(e, verdict, w, t, rowLocked));
            if verdict == None && t !in s.sessions && e.jobId in s.jobs && !rowLocked && ToBeHad(s.jobs[e.jobId], s.now)
               && Unseen(s.logs, e.commandId, s.jobs[e.jobId].org, e.idempotencyKey)
            then
              var job := s.jobs[e.jobId];
              s' == Sys(s.now,
                        s.jobs[e.jobId := job.(status := Parsing, lockedBy := Some(w), token := Some(t),
                                               lockedAt := Some(s.now), claims := job.claims + 1)],
                        s.logs + [LogRow(e.commandId, e.jobId, job.org, e.idempotencyKey)],
                        s.sessions[t := Session(e.jobId, w, Claimed)])
            else s' == s
  {
    if e.jobId in s.jobs {
      UnseenIsNotReplayed(s.logs, LogRow(e.commandId, e.jobId, s.jobs[e.jobId].org, e.idempotencyKey));
    }
  }

  lemma UnseenIsNotReplayed(logs: seq<LogRow>, row: LogRow)
    ensures Unseen(logs, row.command, row.org, row.key) <==> !Replayed(logs, row)
  {
  }

  /** A job with one more attempt, which ended in this status. */
  function Attempted(job: Job, status: Status, t: Token): Job {
    job.(status := status, version := Some(status), current := job.current + 1,
         attempts := job.attempts + [AttemptRow(job.current + 1, status, t)])
  }

  lemma StandingJob(s: Sys, t: Token)
    requires Inv(s) && Standing(s, t) && s.sessions[t].phase != Over
    ensures var job := s.jobs[s.sessions[t].job];
            && job.status == Parsing && job.version == Some(Queued) && job.current < job.max && |job.attempts| == job.current
            && (s.sessions[t].phase.FailureDue? ==> s.sessions[t].phase.attempt == job.current + 1)
  {
    assert SessionOk(t, s.sessions[t], s.jobs);
    assert JobOk(s.jobs[s.sessions[t].job]);
  }

  /**
    Processing under a standing claim: what the parser says is what job, version and
    attempt become; an exception, or a status that is not an outcome, is rolled back into
    failure accounting; without the claim nothing is written.
   */
  lemma ProcessOutcome(s: Sys, t: Token, rowLocked: bool, outcome: Outcome)
    requires Inv(s) && t in s.sessions && s.sessions[t].phase == Claimed
    ensures s.sessions[t].job in s.jobs
    ensures var job, s' := s.jobs[s.sessions[t].job], Step(s, Process(t, rowLocked, outcome));
            if rowLocked || !Standing(s, t) then WroteNoRow(s, s', t, Over)
            else if outcome.ParserSays? && outcome.status != Queued && outcome.status != Parsing then
              Wrote(s, s', t, Attempted(job, outcome.status, t))
            else WroteNoRow(s, s', t, FailureDue(job.current + 1))
  {
    assert SessionOk(t, s.sessions[t], s.jobs);
    if Standing(s, t) {
      StandingJob(s, t);
    }
  }

  /**
    The accounting after an exception under a standing claim: the attempt is counted
    and recorded FAILED, and job and version wait again while an attempt is left, and
    are FAILED with the last; without the claim nothing is written.
   */
  lemma FailureOutcome(s: Sys, t: Token)
    requires Inv(s) && t in s.sessions && s.sessions[t].phase.FailureDue?
    ensures s.sessions[t].job in s.jobs
    ensures var job, s' := s.jobs[s.sessions[t].job], Step(s, RecordFailure(t));
            var attempt := s.sessions[t].phase.attempt;
            if !Standing(s, t) then WroteNoRow(s, s', t, Over)
            else
              && attempt == job.current + 1 && attempt <= job.max
              && Wrote(s, s', t,
                       job.(status := if attempt == job.max then Failed else Queued,
                            version := Some(if attempt == job.max then Failed else Queued), current := attempt,
                            attempts := job.attempts + [AttemptRow(attempt, Failed, t)]))
  {
    assert SessionOk(t, s.sessions[t], s.jobs);
    if Standing(s, t) {
      StandingJob(s, t);
    }
  }

  // --------------------------------------------------------------- failing for ever

  predicate NeverParses(actions: seq<Action>) {
    forall i :: 0 <= i < |actions| ==>
      (actions[i].Process? ==> actions[i].outcome.Throws? || actions[i].outcome.status == Queued || actions[i].outcome.status == Parsing)
  }

  /** Open while an attempt is left, FAILED after the last, every attempt FAILED. */
  predicate OnlyFailures(job: Job) {
    && (job.current < job.max ==> job.status == Queued || job.status == Parsing)
    && (job.current == job.max ==> job.status == Failed && job.version == Some(Failed))
    && forall i :: 0 <= i < |job.attempts| ==> job.attempts[i].status == Failed
  }

  ghost predicate AllOnlyFailures(s: Sys) {
    forall j :: j in s.jobs ==> OnlyFailures(s.jobs[j])
  }

  lemma StepKeepsFailures(s: Sys, a: Action, j: JobId)
    requires Inv(s) && AllOnlyFailures(s) && NeverParses([a]) && j in Step(s, a).jobs
    ensures OnlyFailures(Step(s, a).jobs[j])
  {
    assert [a][0] == a;
    match a
    case Tick(_) =>
    case Crash(_) =>
    case Enqueue(_, _, _) =>
    case Deliver(e, verdict, w, t, rowLocked) =>
    case Process(t, rowLocked, outcome) =>
      if t in s.sessions && s.sessions[t].phase == Claimed {
        ProcessOutcome(s, t, rowLocked, outcome);
      }
    case RecordFailure(t) =>
      if t in s.sessions && s.sessions[t].phase.FailureDue? {
        FailureOutcome(s, t);
      }
  }

  lemma {:induction false} RunKeepsFailures(s: Sys, actions: seq<Action>)
    requires Inv(s) && AllOnlyFailures(s) && NeverParses(actions)
    ensures Inv(Run(s, actions)) && AllOnlyFailures(Run(s, actions))
    decreases |actions|
  {
    if actions != [] {
      var s' := Step(s, actions[0]);
      StepKeepsInv(s, actions[0]);
      forall j | j in s'.jobs ensures OnlyFailures(s'.jobs[j]) {
        StepKeepsFailures(s, actions[0], j);
      }
      RunKeepsFailures(s', actions[1..]);
    }
  }

  /**
    In every run in which nothing is ever parsed, a job is open, and can be claimed again,
    exactly while attempts are left, and FAILED once max_attempts of them are recorded.
   */
  lemma RetriedWhileAttemptsAreLeft(now: Time, actions: seq<Action>, j: JobId)
    requires NeverParses(actions) && j in Run(Start(now), actions).jobs
    ensures var job := Run(Start(now), actions).jobs[j];
            && (job.status == Failed <==> |job.attempts| == job.max)
            && (job.status == Queued || job.status == Parsing <==> |job.attempts| < job.max)
            && forall i :: 0 <= i < |job.attempts| ==> job.attempts[i].number == i + 1 && job.attempts[i].status == Failed
  {
    RunKeepsFailures(Start(now), actions);
    AttemptAccounting(now, actions, j);
    assert OnlyFailures(Run(Start(now), actions).jobs[j]);
  }

  // ------------------------------------------- round by round, with real commands

  /** The n-th command is delivered, parsing throws, the failure is recorded, some time goes by. */
  function FailingRound(n: nat, resolver: string -> string, pf: CommandEnvelope.Platform): seq<Action>
    requires resolver(KEY_ID) != ""
  {
    var e := Command(n, resolver, pf);
    [Deliver(e, CommandEnvelope.ValidateEnvelope(e, SentAt(n), resolver, pf), "w", n, false),
     Process(n, false, Throws), RecordFailure(n), Tick(901)]
  }

  function FailingRounds(n: nat, max: nat, resolver: string -> string, pf: CommandEnvelope.Platform): seq<Action>
    requires resolver(KEY_ID) != ""
  {
    if n == 0 then [Enqueue(0, 0, max)] else FailingRounds(n - 1, max, resolver, pf) + FailingRound(n - 1, resolver, pf)
  }

  /** n attempts recorded, all failed, and the job waiting again unless n is the maximum. */
  predicate FailedTimes(s: Sys, n: nat, max: nat) {
    && 1_000_000 * s.now == SentAt(n)
    && s.jobs.Keys == {0}
    && s.jobs[0].status == (if n == max then Failed else Queued) && s.jobs[0].version == Some(s.jobs[0].status)
    && s.jobs[0].current == n && s.jobs[0].max == max && s.jobs[0].org == 0
    && |s.jobs[0].attempts| == n && (forall i :: 0 <= i < n ==> s.jobs[0].attempts[i] == AttemptRow(i + 1, Failed, i))
    && (forall t :: t in s.sessions ==> t < n)
    && |s.logs| == n && forall i :: 0 <= i < n ==> s.logs[i] == LogRow(i, 0, 0, seq(i, k => 'k'))
  }

  lemma NewCommand(s: Sys, n: nat, max: nat)
    requires FailedTimes(s, n, max)
    ensures Unseen(s.logs, n, 0, seq(n, k => 'k'))
  {
    forall i | 0 <= i < |s.logs| ensures s.logs[i].key != seq(n, k => 'k') {
      assert |s.logs[i].key| == i;
    }
  }

  lemma RunOfFour(s: Sys, a: Action, b: Action, c: Action, d: Action)
    ensures Run(s, [a, b, c, d]) == Step(Step(Step(Step(s, a), b), c), d)
  {
    assert [a, b, c, d][1..] == [b, c, d] && [b, c, d][1..] == [c, d] && [c, d][1..] == [d] && [d][1..] == [];
    var s1 := Step(s, a);
    var s2 := Step(s1, b);
    var s3 := Step(s2, c);
    assert Run(s3, [d]) == Run(Step(s3, d), []);
    assert Run(s2, [c, d]) == Run(s3, [d]);
    assert Run(s1, [b, c, d]) == Run(s2, [c, d]);
  }

  /** A job claimed by "w" under t, its attempt failed and recorded. */
  function FailedOnce(job: Job, t: Token, now: Time): Job {
    var next := if job.current + 1 == job.max then Failed else Queued;
    Job(job.org, next, job.current + 1, job.max, Some("w"), Some(now), Some(t), Some(next),
        job.attempts + [AttemptRow(job.current + 1, Failed, t)], job.claims + 1)
  }

  lemma ThrowAndRecord(s: Sys, t: Token)
    requires Inv(s) && Standing(s, t) && s.sessions[t].phase == Claimed
    ensures var job := s.jobs[s.sessions[t].job];
            var next := if job.current + 1 == job.max then Failed else Queued;
            && job.current + 1 <= job.max
            && Wrote(s, Step(Step(s, Process(t, false, Throws)), RecordFailure(t)), t,
                     job.(status := next, version := Some(next), current := job.current + 1,
                          attempts := job.attempts + [AttemptRow(job.current + 1, Failed, t)]))
  {
    ProcessOutcome(s, t, false, Throws);
    StepKeepsInv(s, Process(t, false, Throws));
    FailureOutcome(Step(s, Process(t, false, Throws)), t);
  }

  /** A job claimed by "w" under t. */
  function ClaimedBy(job: Job, t: Token, now: Time): Job {
    Job(job.org, Parsing, job.current, job.max, Some("w"), Some(now), Some(t), job.version, job.attempts, job.claims + 1)
  }

  lemma RoundFails(s: Sys, e: CommandEnvelope.Envelope, t: Token) returns (claimed: Sys)
    requires Inv(s) && t !in s.sessions && e.jobId in s.jobs && s.jobs[e.jobId].status == Queued
    requires Unseen(s.logs, e.commandId, s.jobs[e.jobId].org, e.idempotencyKey)
    ensures claimed == Sys(s.now, s.jobs[e.jobId := ClaimedBy(s.jobs[e.jobId], t, s.now)],
                           s.logs + [LogRow(e.commandId, e.jobId, s.jobs[e.jobId].org, e.idempotencyKey)],
                           s.sessions[t := Session(e.jobId, "w", Claimed)])
    ensures s.jobs[e.jobId].current + 1 <= s.jobs[e.jobId].max
    ensures Wrote(claimed, Step(Step(Step(s, Deliver(e, None, "w", t, false)), Process(t, false, Throws)), RecordFailure(t)), t,
                  FailedOnce(s.jobs[e.jobId], t, s.now))
  {
    DeliverOutcome(s, e, None, "w", t, false);
    claimed := Step(s, Deliver(e, None, "w", t, false));
    StepKeepsInv(s, Deliver(e, None, "w", t, false));
    ThrowAndRecord(claimed, t);
  }

  /** The three transactions of a failing round, on any waiting job. */
  lemma RoundCounts(s: Sys, e: CommandEnvelope.Envelope, t: Token)
    requires Inv(s) && t !in s.sessions && e.jobId in s.jobs && s.jobs[e.jobId].status == Queued
    requires Unseen(s.logs, e.commandId, s.jobs[e.jobId].org, e.idempotencyKey)
    ensures s.jobs[e.jobId].current + 1 <= s.jobs[e.jobId].max
    ensures Step(Step(Step(s, Deliver(e, None, "w", t, false)), Process(t, false, Throws)), RecordFailure(t))
            == Sys(s.now, s.jobs[e.jobId := FailedOnce(s.jobs[e.jobId], t, s.now)],
                   s.logs + [LogRow(e.commandId, e.jobId, s.jobs[e.jobId].org, e.idempotencyKey)],
                   s.sessions[t := Session(e.jobId, "w", Over)])
  {
    var claimed := RoundFails(s, e, t);
    WrittenOver(s, claimed, Step(Step(Step(s, Deliver(e, None, "w", t, false)), Process(t, false, Throws)), RecordFailure(t)), e.jobId, t,
                ClaimedBy(s.jobs[e.jobId], t, s.now), FailedOnce(s.jobs[e.jobId], t, s.now));
  }

  lemma WrittenOver(s: Sys, mid: Sys, end: Sys, j: JobId, t: Token, a: Job, b: Job)
    requires mid.jobs == s.jobs[j := a] && mid.sessions == s.sessions[t := Session(j, "w", Claimed)] && Wrote(mid, end, t, b)
    ensures end == Sys(mid.now, s.jobs[j := b], mid.logs, s.sessions[t := Session(j, "w", Over)])
  {
  }

  lemma FailingRoundCounts(s: Sys, n: nat, max: nat, resolver: string -> string, pf: CommandEnvelope.Platform)
    requires Inv(s) && FailedTimes(s, n, max) && n < max && resolver(KEY_ID) != ""
    ensures FailedTimes(Run(s, FailingRound(n, resolver, pf)), n + 1, max)
  {
    var e := Command(n, resolver, pf);
    CommandAccepted(n, resolver, pf);
    NewCommand(s, n, max);
    RoundCounts(s, e, n);
    RunOfFour(s, Deliver(e, None, "w", n, false), Process(n, false, Throws), RecordFailure(n), Tick(901));
    var s3 := Step(Step(Step(s, Deliver(e, None, "w", n, false)), Process(n, false, Throws)), RecordFailure(n));
    assert s3.jobs.Keys == {0};
  }

  lemma OneMoreRound(s: Sys, before: seq<Action>, n: nat, max: nat, resolver: string -> string, pf: CommandEnvelope.Platform)
    returns (s': Sys)
    requires n < max && resolver(KEY_ID) != "" && s == Run(Start(0), before) && FailedTimes(s, n, max)
    ensures s' == Run(Start(0), before + FailingRound(n, resolver, pf)) && FailedTimes(s', n + 1, max)
  {
    RunKeepsInv(Start(0), before);
    RunConcat(Start(0), before, FailingRound(n, resolver, pf));
    s' := Run(s, FailingRound(n, resolver, pf));
    FailingRoundCounts(s, n, max, resolver, pf);
  }

  lemma NoRoundYet(max: nat, resolver: string -> string, pf: CommandEnvelope.Platform)
    requires max > 0 && resolver(KEY_ID) != ""
    ensures FailedTimes(Run(Start(0), FailingRounds(0, max, resolver, pf)), 0, max)
  {
    assert FailingRounds(0, max, resolver, pf)[1..] == [];
    assert Run(Start(0), FailingRounds(0, max, resolver, pf)) == Step(Start(0), Enqueue(0, 0, max));
  }

  lemma {:induction false} RoundsCount(n: nat, max: nat, resolver: string -> string, pf: CommandEnvelope.Platform) returns (s: Sys)
    requires n <= max && max > 0 && resolver(KEY_ID) != ""
    ensures s == Run(Start(0), FailingRounds(n, max, resolver, pf)) && FailedTimes(s, n, max)
  {
    if n == 0 {
      s := Run(Start(0), FailingRounds(0, max, resolver, pf));
      NoRoundYet(max, resolver, pf);
    } else {
      s := RoundsCount(n - 1, max, resolver, pf);
      s := OneMoreRound(s, FailingRounds(n - 1, max, resolver, pf), n - 1, max, resolver, pf);
    }
  }

  /**
    A job of max attempts whose every attempt throws waits again after each of the
    first max - 1 and is FAILED after the last; every command in between is accepted.
   */
  lemma RetriedToTheLast(n: nat, max: nat, resolver: string -> string, pf: CommandEnvelope.Platform)
    requires n <= max && max > 0 && resolver(KEY_ID) != ""
    ensures FailedTimes(Run(Start(0), FailingRounds(n, max, resolver, pf)), n, max)
    ensures forall i: nat :: i < n ==>
              CommandEnvelope.ValidateEnvelope(Command(i, resolver, pf), SentAt(i), resolver, pf).None?
  {
    forall i: nat | i < n
      ensures CommandEnvelope.ValidateEnvelope(Command(i, resolver, pf), SentAt(i), resolver, pf).None?
    {
      CommandAccepted(i, resolver, pf);
    }
    var s := RoundsCount(n, max, resolver, pf);
  }
}
