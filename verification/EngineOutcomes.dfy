/**
  What the engine's transactions come to, column by column: the two denials, the request
  for clarification, the execution of a plan up to COMPLETED or to its failure, and the
  failure transaction. What a plan records is read off the plan itself.
 */
module EngineOutcomes {

  import opened Wrappers
  import opened AnalysisStatus
  import opened ToolDedup
  import opened ClaimProtocol
  import opened ClaimInvariants
  import opened ClaimTheorems

  /** Session t passes the fence on its job. */
  predicate Holding(s: Sys, t: Token) {
    && t in s.sessions && s.sessions[t].job in s.jobs
    && s.jobs[s.sessions[t].job].token == Some(t)
    && s.jobs[s.sessions[t].job].lockedBy == Some(s.sessions[t].worker)
    && Active(s.jobs[s.sessions[t].job].status)
  }

  /** Between s and s' only job j's row and the phase of session t were written. */
  predicate Wrote(s: Sys, s': Sys, t: Token, row: Job, phase: Phase)
    requires t in s.sessions
  {
    && s'.now == s.now && s'.cancels == s.cancels
    && s'.jobs == s.jobs[s.sessions[t].job := row]
    && s'.sessions == s.sessions[t := Session(s.sessions[t].job, s.sessions[t].worker, phase)]
  }

  predicate WroteNoRow(s: Sys, s': Sys, t: Token, phase: Phase)
    requires t in s.sessions
  {
    && s'.now == s.now && s'.cancels == s.cancels && s'.jobs == s.jobs
    && s'.sessions == s.sessions[t := Session(s.sessions[t].job, s.sessions[t].worker, phase)]
  }

  /** The attempt at position i with another status. */
  function Marked(attempts: seq<Attempt>, i: nat, status: AttemptStatus): seq<Attempt>
    requires i < |attempts|
  {
    attempts[i := Attempt(attempts[i].number, status)]
  }

  // --------------------------------------------------------- executing a plan

  /** The dataset in the recorded answer to the plan's first call. */
  function FirstDataset(plan: seq<PlannedCall>, rows: seq<ToolRow>): Option<string> {
    if plan == [] then None
    else
      var answer := Reused(rows, plan[0].tool, plan[0].args);
      if answer.Some? then answer.value.datasetId else None
  }

  /** The row of a job whose plan is carried out. */
  function CompletedRow(job: Job, tools: seq<ToolRow>, attempt: nat, dataset: string, now: Time): Job
    requires attempt < |job.attempts|
  {
    Job(Completed, job.lockedBy, job.token, None, job.recoveryCount, job.createdAt,
        Marked(job.attempts, attempt, AttemptCompleted), job.clarifications, tools, Some(Snapshot(dataset, now)))
  }

  /** Behind a tool that ended its transaction: no snapshot yet, the owed call new, the calls before it answered from their rows. */
  predicate ToolsPending(job: Job, p: Phase, t: Token) {
    && p.InTool? && job.status == ExecutingTools && job.snapshot.None? && p.attempt < |job.attempts| && p.next < |p.plan|
    && NewCall(job.tools, p.plan, p.next, p.next)
    && LoopState(job.tools, p.outputs, p.plan, p.next, t)
  }

  /** The effect of a transaction that executes plan[start..], new calls counted from `from`. */
  ghost predicate PlanEffect(job: Job, plan: seq<PlannedCall>, from: nat, start: nat, attempt: nat, t: Token, now: Time, e: Effect)
    requires from <= start <= |plan| && attempt < |job.attempts|
  {
    && (forall k :: StopsAt(job.tools, plan, from, start, k) ==>
          && e.Commit? && e.job == job.(status := ExecutingTools, tools := job.tools + NewRows(job.tools, plan, from, k, t))
          && e.phase.InTool? && e.phase == InTool(plan, k, attempt, e.phase.outputs)
          && ToolsPending(e.job, e.phase, t))
    && (NeverStops(job.tools, plan, from, start) ==>
          var tools := job.tools + NewRows(job.tools, plan, from, |plan|, t);
          var dataset := FirstDataset(plan, tools);
          if dataset.Some? then e == Commit(CompletedRow(job, tools, attempt, dataset.value, now), Over) else e == Raised)
  }

  lemma OneRow(rows: seq<ToolRow>, call: PlannedCall, i: nat, k: nat)
    requires Distinct(rows) && i < |rows| && k < |rows|
    requires SameCall(rows[i], call.tool, call.args) && SameCall(rows[k], call.tool, call.args)
    ensures i == k
  {
  }

  /** With one row per call there is one answer to each. */
  lemma TheAnswer(rows: seq<ToolRow>, call: PlannedCall, o: ToolOutput)
    requires Distinct(rows) && AnswerRecorded(o, call, rows)
    ensures Reused(rows, call.tool, call.args) == Some(o)
  {
    var k :| 0 <= k < |rows| && SameCall(rows[k], call.tool, call.args) && rows[k].output == o;
    assert Recorded(rows, call.tool, call.args);
    var r := Reused(rows, call.tool, call.args);
    var i :| 0 <= i < |rows| && SameCall(rows[i], call.tool, call.args) && rows[i].output == r.value;
    OneRow(rows, call, i, k);
  }

  lemma FirstAnswer(rows: seq<ToolRow>, outputs: seq<ToolOutput>, plan: seq<PlannedCall>)
    requires Distinct(rows) && AnswersPlan(outputs, plan, rows) && |outputs| == |plan|
    ensures FirstDataset(plan, rows) == if outputs == [] then None else outputs[0].datasetId
  {
    if plan != [] {
      assert AnswerRecorded(outputs[0], plan[0], rows);
      TheAnswer(rows, plan[0], outputs[0]);
    }
  }

  lemma FinishCompletes(job: Job, attempt: nat, outputs: seq<ToolOutput>, plan: seq<PlannedCall>, now: Time)
    requires job.snapshot.None? && attempt < |job.attempts|
    requires Distinct(job.tools) && AnswersPlan(outputs, plan, job.tools) && |outputs| == |plan|
    ensures var dataset := FirstDataset(plan, job.tools);
            Finish(job, attempt, outputs, now) ==
            if dataset.Some? then Commit(CompletedRow(job, job.tools, attempt, dataset.value, now), Over) else Raised
  {
    FirstAnswer(job.tools, outputs, plan);
  }

  lemma OneStop(rows: seq<ToolRow>, plan: seq<PlannedCall>, from: nat, start: nat, k: nat, l: nat)
    requires StopsAt(rows, plan, from, start, k) && StopsAt(rows, plan, from, start, l)
    ensures k == l
  {
  }

  lemma NewWhenUnrecorded(rows: seq<ToolRow>, plan: seq<PlannedCall>, next: nat)
    requires next < |plan| && !Recorded(rows, plan[next].tool, plan[next].args)
    ensures NewCall(rows, plan, next, next)
  {
  }

  lemma LoopComesTo(job: Job, plan: seq<PlannedCall>, from: nat, start: nat, attempt: nat,
                    written: seq<ToolRow>, outputs: seq<ToolOutput>, t: Token, now: Time)
    requires from <= start <= |plan| && attempt < |job.attempts| && job.snapshot.None? && job.status == ExecutingTools
    requires written == job.tools + NewRows(job.tools, plan, from, start, t)
    requires LoopState(written, outputs, plan, start, t)
    ensures PlanEffect(job, plan, from, start, attempt, t, now,
                       AfterTools(job, plan, attempt, RunTools(written, outputs, plan, start, t), now))
  {
    var end := RunTools(written, outputs, plan, start, t);
    RunToolsKeepsRows(written, outputs, plan, start, t);
    RunToolsExactly(job.tools, outputs, plan, from, start, t, written);
    match end
    case Finished(rows, outs) =>
      FinishCompletes(job.(tools := rows), attempt, outs, plan, now);
    case Stopped(rows, outs, next) =>
      NewWhenUnrecorded(rows, plan, next);
      StoppedEffect(job, plan, from, start, attempt, rows, outs, next, t, now);
  }

  lemma StoppedEffect(job: Job, plan: seq<PlannedCall>, from: nat, start: nat, attempt: nat,
                      rows: seq<ToolRow>, outputs: seq<ToolOutput>, next: nat, t: Token, now: Time)
    requires from <= start <= |plan| && attempt < |job.attempts| && job.snapshot.None? && job.status == ExecutingTools
    requires StopsAt(job.tools, plan, from, start, next) && rows == job.tools + NewRows(job.tools, plan, from, next, t)
    requires LoopState(rows, outputs, plan, next, t) && NewCall(rows, plan, next, next)
    ensures PlanEffect(job, plan, from, start, attempt, t, now, Commit(job.(tools := rows), InTool(plan, next, attempt, outputs)))
  {
    forall k | StopsAt(job.tools, plan, from, start, k) ensures k == next {
      OneStop(job.tools, plan, from, start, k, next);
    }
  }

  lemma {:induction false} StopsOrNot(rows: seq<ToolRow>, plan: seq<PlannedCall>, from: nat, start: nat) returns (k: Option<nat>)
    requires from <= start <= |plan|
    ensures k.Some? ==> StopsAt(rows, plan, from, start, k.value)
    ensures k.None? ==> NeverStops(rows, plan, from, start)
    decreases |plan| - start
  {
    if start == |plan| {
      k := None;
    } else if NewCall(rows, plan, from, start) && plan[start].endsTransaction {
      k := Some(start);
    } else {
      k := StopsOrNot(rows, plan, from, start + 1);
    }
  }

  // ------------------------------------------------------------ what a state comes to

  /** What executing plan[start..] for session t makes of state s, starting from row `job`. */
  ghost predicate PlanOutcome(s: Sys, s': Sys, t: Token, job: Job, plan: seq<PlannedCall>, from: nat, start: nat, attempt: nat, rolledBack: Phase)
    requires t in s.sessions && from <= start <= |plan| && attempt < |job.attempts|
  {
    && (forall k :: StopsAt(job.tools, plan, from, start, k) ==>
          && t in s'.sessions && s'.sessions[t].phase.InTool?
          && var outputs := s'.sessions[t].phase.outputs;
             var tools := job.tools + NewRows(job.tools, plan, from, k, t);
             var row, phase := job.(status := ExecutingTools, tools := tools), InTool(plan, k, attempt, outputs);
             Wrote(s, s', t, row, phase) && ToolsPending(row, phase, t))
    && (NeverStops(job.tools, plan, from, start) ==>
          var tools := job.tools + NewRows(job.tools, plan, from, |plan|, t);
          var dataset := FirstDataset(plan, tools);
          if dataset.Some? then Wrote(s, s', t, CompletedRow(job, tools, attempt, dataset.value, s.now), Over)
          else WroteNoRow(s, s', t, rolledBack))
  }

  lemma EffectTaken(s: Sys, t: Token, job: Job, plan: seq<PlannedCall>, from: nat, start: nat, attempt: nat, e: Effect, rolledBack: Phase)
    requires t in s.sessions && from <= start <= |plan| && attempt < |job.attempts|
    requires PlanEffect(job, plan, from, start, attempt, t, s.now, e)
    ensures PlanOutcome(s, Take(s, t, e, rolledBack), t, job, plan, from, start, attempt, rolledBack)
  {
  }

  lemma OwedIsNew(s: Sys, t: Token)
    requires Inv(s) && Holding(s, t) && s.sessions[t].phase.InTool?
    ensures ToolsPending(s.jobs[s.sessions[t].job], s.sessions[t].phase, t)
  {
    FenceMeansHolder(s, t);
  }

  lemma OwedRow(job: Job, p: Phase, t: Token, now: Time)
    requires ToolsPending(job, p, t)
    ensures PlanEffect(job, p.plan, p.next, p.next + 1, p.attempt, t, now, LaterTransaction(job, t, p, now))
  {
    var call := p.plan[p.next];
    assert job.tools + NewRows(job.tools, p.plan, p.next, p.next, t) == job.tools;
    NextRow(job.tools, p.plan, p.next, p.next, t);
    RecordedTurn(job.tools, p.outputs, p.plan, p.next, t);
    LoopComesTo(job, p.plan, p.next, p.next + 1, p.attempt, job.tools + [RowFor(call, t)], p.outputs + [call.output], t, now);
  }

  /**
    The engine behind a tool that ended its transaction, for every holder in every
    state: the call's own row and those of the new calls after it are recorded, up to the
    next one that ends its transaction; if there is none, the job is COMPLETED, lease
    gone, attempt COMPLETED and the snapshot naming the dataset in the first answer, or, if
    that answer has no dataset, nothing is written and the failure transaction is due.
   */
  lemma ResumeOutcome(s: Sys, t: Token)
    requires Inv(s) && Holding(s, t) && s.sessions[t].phase.InTool?
    ensures ToolsPending(s.jobs[s.sessions[t].job], s.sessions[t].phase, t)
    ensures var job, p := s.jobs[s.sessions[t].job], s.sessions[t].phase;
            PlanOutcome(s, Step(s, Resume(t)), t, job, p.plan, p.next, p.next + 1, p.attempt, Failing(Some(p.attempt)))
  {
    OwedIsNew(s, t);
    ResumeFrom(s, t);
  }

  lemma ResumeFrom(s: Sys, t: Token)
    requires Holding(s, t) && ToolsPending(s.jobs[s.sessions[t].job], s.sessions[t].phase, t)
    ensures var job, p := s.jobs[s.sessions[t].job], s.sessions[t].phase;
            PlanOutcome(s, Step(s, Resume(t)), t, job, p.plan, p.next, p.next + 1, p.attempt, Failing(Some(p.attempt)))
  {
    var job, p := s.jobs[s.sessions[t].job], s.sessions[t].phase;
    OwedRow(job, p, t, s.now);
    EffectTaken(s, t, job, p.plan, p.next, p.next + 1, p.attempt, LaterTransaction(job, t, p, s.now), Failing(Some(p.attempt)));
    TakesLater(s, t);
  }

  lemma TakesLater(s: Sys, t: Token)
    requires Holding(s, t) && s.sessions[t].phase.InTool?
    ensures var job, p := s.jobs[s.sessions[t].job], s.sessions[t].phase;
            Step(s, Resume(t)) == Take(s, t, LaterTransaction(job, t, p, s.now), Failing(Some(p.attempt)))
  {
  }

  // -------------------------------------------------------- the first transaction

  /** A claimed job as its engine run finds it: received, no tools, no snapshot, attempts 1..n. */
  predicate Untouched(job: Job, t: Token) {
    && job.status == Received && job.token == Some(t) && job.tools == [] && job.snapshot.None?
    && AttemptsOk(job.attempts)
  }

  lemma ClaimedIsUntouched(s: Sys, t: Token)
    requires Inv(s) && Holding(s, t) && s.jobs[s.sessions[t].job].status == Received
    ensures Untouched(s.jobs[s.sessions[t].job], t)
  {
    FenceMeansHolder(s, t);
  }

  lemma TakesFirst(s: Sys, t: Token, outcome: Outcome)
    requires Holding(s, t) && s.sessions[t].phase.Claimed? && AttemptsOk(s.jobs[s.sessions[t].job].attempts)
    ensures Step(s, Begin(t, outcome)) ==
            Take(s, t, FirstTransaction(s.jobs[s.sessions[t].job], t, outcome, s.now), Failing(None))
  {
    OpenAttemptOk(s.jobs[s.sessions[t].job]);
  }

  function NextAttempt(job: Job, status: AttemptStatus): seq<Attempt> {
    job.attempts + [Attempt(|job.attempts| + 1, status)]
  }

  lemma RejectedRow(job: Job, t: Token, outcome: Outcome, now: Time)
    requires Untouched(job, t) && (outcome.DenyBeforeModel? || outcome.DenyAtPolicyCheck?)
    ensures FirstTransaction(job, t, outcome, now) ==
            Commit(job.(status := RejectedByPolicy, lease := None, attempts := NextAttempt(job, AttemptRejected)), Over)
  {
    assert OpenAttempt(job).attempts[|job.attempts| := Attempt(|job.attempts| + 1, AttemptRejected)] == NextAttempt(job, AttemptRejected);
  }

  /** Both denials reject the job, take the lease away and leave one more attempt, REJECTED_BY_POLICY. */
  lemma DenialOutcome(s: Sys, t: Token, outcome: Outcome)
    requires Inv(s) && Holding(s, t) && s.sessions[t].phase.Claimed? && s.jobs[s.sessions[t].job].status == Received
    requires outcome.DenyBeforeModel? || outcome.DenyAtPolicyCheck?
    ensures var job := s.jobs[s.sessions[t].job];
            Wrote(s, Step(s, Begin(t, outcome)), t,
                  job.(status := RejectedByPolicy, lease := None, attempts := NextAttempt(job, AttemptRejected)), Over)
  {
    ClaimedIsUntouched(s, t);
    TakesFirst(s, t, outcome);
    RejectedRow(s.jobs[s.sessions[t].job], t, outcome, s.now);
  }

  /** The request for clarification: open for 900 seconds, its attempt in progress, the lease still there. */
  lemma AskOutcome(s: Sys, t: Token)
    requires Inv(s) && Holding(s, t) && s.sessions[t].phase.Claimed? && s.jobs[s.sessions[t].job].status == Received
    ensures var job := s.jobs[s.sessions[t].job];
            Wrote(s, Step(s, Begin(t, AskClarification)), t,
                  job.(status := NeedsClarification, attempts := NextAttempt(job, AttemptInProgress),
                       clarifications := job.clarifications + [Clarification(Awaiting, s.now + 900, |job.attempts| + 1)]),
                  AfterClarification(|job.attempts|))
  {
    ClaimedIsUntouched(s, t);
    TakesFirst(s, t, AskClarification);
    AskedRow(s.jobs[s.sessions[t].job], t, s.now);
  }

  lemma AskedRow(job: Job, t: Token, now: Time)
    requires Untouched(job, t)
    ensures FirstTransaction(job, t, AskClarification, now) ==
            Commit(job.(status := NeedsClarification, attempts := NextAttempt(job, AttemptInProgress),
                        clarifications := job.clarifications + [Clarification(Awaiting, now + 900, |job.attempts| + 1)]),
                   AfterClarification(|job.attempts|))
  {
  }

  /** The writes behind it, whoever holds the row: lease gone, that attempt NEEDS_CLARIFICATION, nothing else. */
  lemma CloseOutcome(s: Sys, t: Token)
    requires Inv(s) && t in s.sessions && s.sessions[t].phase.AfterClarification?
    ensures s.sessions[t].job in s.jobs
    ensures var job, i := s.jobs[s.sessions[t].job], s.sessions[t].phase.attempt;
            && i < |job.attempts|
            && Wrote(s, Step(s, CloseClarification(t)), t,
                     job.(lease := None, attempts := Marked(job.attempts, i, AttemptNeedsClarification)), Over)
  {
    SessionHasRow(s, t);
    ClosingWrites(s, t);
  }

  lemma ClosingWrites(s: Sys, t: Token)
    requires HasRow(s, t) && s.sessions[t].phase.AfterClarification?
    ensures var job, i := s.jobs[s.sessions[t].job], s.sessions[t].phase.attempt;
            Wrote(s, Step(s, CloseClarification(t)), t,
                  job.(lease := None, attempts := Marked(job.attempts, i, AttemptNeedsClarification)), Over)
  {
  }

  function Opened(job: Job): Job {
    job.(attempts := NextAttempt(job, AttemptInProgress))
  }

  lemma PlannedRow(job: Job, t: Token, plan: seq<PlannedCall>, now: Time)
    requires Untouched(job, t)
    ensures PlanEffect(Opened(job), plan, 0, 0, |job.attempts|, t, now, FirstTransaction(job, t, ExecutePlan(plan), now))
  {
    var started := Opened(job).(status := ExecutingTools);
    LoopComesTo(started, plan, 0, 0, |job.attempts|, [], [], t, now);
    EffectOfStatus(Opened(job), plan, |job.attempts|, t, now, FirstTransaction(job, t, ExecutePlan(plan), now));
  }

  /** The status a row had before its tools plays no part. */
  lemma EffectOfStatus(job: Job, plan: seq<PlannedCall>, attempt: nat, t: Token, now: Time, e: Effect)
    requires attempt < |job.attempts| && PlanEffect(job.(status := ExecutingTools), plan, 0, 0, attempt, t, now, e)
    ensures PlanEffect(job, plan, 0, 0, attempt, t, now, e)
  {
  }

  /** The first transaction of a plan: as behind a tool, with the attempt opened and nothing recorded yet. */
  lemma BeginOutcome(s: Sys, t: Token, plan: seq<PlannedCall>)
    requires Inv(s) && Holding(s, t) && s.sessions[t].phase.Claimed? && s.jobs[s.sessions[t].job].status == Received
    ensures var job := s.jobs[s.sessions[t].job];
            && job.tools == []
            && PlanOutcome(s, Step(s, Begin(t, ExecutePlan(plan))), t, Opened(job), plan, 0, 0, |job.attempts|, Failing(None))
  {
    ClaimedIsUntouched(s, t);
    var job := s.jobs[s.sessions[t].job];
    var e := FirstTransaction(job, t, ExecutePlan(plan), s.now);
    TakesFirst(s, t, ExecutePlan(plan));
    PlannedRow(job, t, plan, s.now);
    EffectTaken(s, t, Opened(job), plan, 0, 0, |job.attempts|, e, Failing(None));
  }

  /** A run that starts on a row no longer RECEIVED raises: it writes nothing, and its failure transaction is due. */
  lemma LateBeginOutcome(s: Sys, t: Token, outcome: Outcome)
    requires Inv(s) && Holding(s, t) && s.sessions[t].phase.Claimed? && s.jobs[s.sessions[t].job].status != Received
    ensures WroteNoRow(s, Step(s, Begin(t, outcome)), t, Failing(None))
  {
    SessionHasRow(s, t);
    TakesFirst(s, t, outcome);
    LateRow(s.jobs[s.sessions[t].job], t, outcome, s.now);
  }

  lemma LateRow(job: Job, t: Token, outcome: Outcome, now: Time)
    requires Committed(job.status) && Active(job.status) && job.status != Received
    ensures FirstTransaction(job, t, outcome, now) == Raised
  {
  }

  // ------------------------------------------------------------------ failures

  /** The attempt an exception marks, if it had been committed by then. */
  function AttemptBegun(p: Phase): Option<nat> {
    match p
    case InTool(_, _, attempt, _) => Some(attempt)
    case AfterClarification(attempt) => Some(attempt)
    case Failing(committed) => committed
    case _ => None
  }

  function FailedRow(job: Job, begun: Option<nat>): Job
    requires begun.Some? ==> begun.value < |job.attempts|
  {
    job.(status := Failed, lease := None,
         attempts := if begun.Some? then Marked(job.attempts, begun.value, AttemptFailed) else job.attempts)
  }

  /** What the invariant says of a session's row. */
  predicate HasRow(s: Sys, t: Token) {
    && t in s.sessions && s.sessions[t].job in s.jobs
    && var job, begun := s.jobs[s.sessions[t].job], AttemptBegun(s.sessions[t].phase);
       Committed(job.status) && AttemptsOk(job.attempts) && (begun.Some? ==> begun.value < |job.attempts|)
  }

  lemma SessionHasRow(s: Sys, t: Token)
    requires Inv(s) && t in s.sessions
    ensures HasRow(s, t)
  {
    FenceMeansHolder(s, t);
  }

  lemma FailureWrites(s: Sys, t: Token)
    requires HasRow(s, t) && s.sessions[t].phase.Failing?
    ensures var job, begun := s.jobs[s.sessions[t].job], s.sessions[t].phase.committedAttempt;
            if Holding(s, t) then Wrote(s, Step(s, PersistFailure(t)), t, FailedRow(job, begun), Over)
            else WroteNoRow(s, Step(s, PersistFailure(t)), t, Over)
  {
  }

  /** The failure transaction: for a holder the job is FAILED, lease gone, a committed attempt FAILED; else nothing is written. */
  lemma PersistOutcome(s: Sys, t: Token)
    requires Inv(s) && t in s.sessions && s.sessions[t].phase.Failing?
    ensures HasRow(s, t)
    ensures var job, begun := s.jobs[s.sessions[t].job], s.sessions[t].phase.committedAttempt;
            if Holding(s, t) then Wrote(s, Step(s, PersistFailure(t)), t, FailedRow(job, begun), Over)
            else WroteNoRow(s, Step(s, PersistFailure(t)), t, Over)
  {
    SessionHasRow(s, t);
    FailureWrites(s, t);
  }

  /** An exception at any point of a run under way makes its failure transaction due. */
  lemma RaiseOutcome(s: Sys, t: Token)
    requires t in s.sessions && !s.sessions[t].phase.Over? && !s.sessions[t].phase.Failing?
    ensures WroteNoRow(s, Step(s, Raise(t)), t, Failing(AttemptBegun(s.sessions[t].phase)))
  {
  }

  lemma PhaseThenRow(s: Sys, mid: Sys, s': Sys, t: Token, p: Phase, row: Job, q: Phase)
    requires t in s.sessions && WroteNoRow(s, mid, t, p)
    ensures Wrote(mid, s', t, row, q) ==> Wrote(s, s', t, row, q)
    ensures WroteNoRow(mid, s', t, q) ==> WroteNoRow(s, s', t, q)
  {
  }

  lemma RaisedHasRow(s: Sys, mid: Sys, t: Token)
    requires HasRow(s, t) && WroteNoRow(s, mid, t, Failing(AttemptBegun(s.sessions[t].phase)))
    ensures HasRow(mid, t) && (Holding(mid, t) <==> Holding(s, t))
  {
  }

  /**
    An exception anywhere in a run and the failure transaction behind it: for a
    holder the job is FAILED, lease gone, its attempt FAILED if it had been committed; for
    any other session no row is touched.
   */
  lemma ExceptionOutcome(s: Sys, t: Token)
    requires Inv(s) && t in s.sessions && !s.sessions[t].phase.Over? && !s.sessions[t].phase.Failing?
    ensures HasRow(s, t)
    ensures var job, begun := s.jobs[s.sessions[t].job], AttemptBegun(s.sessions[t].phase);
            var s' := Step(Step(s, Raise(t)), PersistFailure(t));
            if Holding(s, t) then Wrote(s, s', t, FailedRow(job, begun), Over) else WroteNoRow(s, s', t, Over)
  {
    SessionHasRow(s, t);
    RaiseOutcome(s, t);
    RaisedFails(s, Step(s, Raise(t)), t);
  }

  lemma RaisedFails(s: Sys, mid: Sys, t: Token)
    requires HasRow(s, t) && WroteNoRow(s, mid, t, Failing(AttemptBegun(s.sessions[t].phase)))
    ensures var row := FailedRow(s.jobs[s.sessions[t].job], AttemptBegun(s.sessions[t].phase));
            var s' := Step(mid, PersistFailure(t));
            if Holding(s, t) then Wrote(s, s', t, row, Over) else WroteNoRow(s, s', t, Over)
  {
    var begun := AttemptBegun(s.sessions[t].phase);
    RaisedHasRow(s, mid, t);
    FailureWrites(mid, t);
    PhaseThenRow(s, mid, Step(mid, PersistFailure(t)), t, Failing(begun), FailedRow(s.jobs[s.sessions[t].job], begun), Over);
  }

  /** A session that does not pass the fence ends without a write. */
  lemma UnfencedOutcome(s: Sys, t: Token, outcome: Outcome)
    requires Inv(s) && t in s.sessions && !Holding(s, t)
    ensures s.sessions[t].phase.Claimed? ==> WroteNoRow(s, Step(s, Begin(t, outcome)), t, Over)
    ensures s.sessions[t].phase.InTool? ==> WroteNoRow(s, Step(s, Resume(t)), t, Over)
  {
    SessionHasRow(s, t);
    UnfencedWrites(s, t, outcome);
  }

  lemma UnfencedWrites(s: Sys, t: Token, outcome: Outcome)
    requires HasRow(s, t) && !Holding(s, t)
    ensures s.sessions[t].phase.Claimed? ==> WroteNoRow(s, Step(s, Begin(t, outcome)), t, Over)
    ensures s.sessions[t].phase.InTool? ==> WroteNoRow(s, Step(s, Resume(t)), t, Over)
  {
  }
}
