/** Runs in which nobody interferes: every plan is carried through to COMPLETED or FAILED. */
module PlanRuns {

  import opened Wrappers
  import opened AnalysisStatus
  import opened ToolDedup
  import opened ClaimProtocol
  import opened ClaimInvariants
  import opened ClaimTheorems
  import opened EngineOutcomes

  /** The engine going on behind n tools in a row. */
  function Resumes(t: Token, n: nat): seq<Action> {
    if n == 0 then [] else [Resume(t)] + Resumes(t, n - 1)
  }

  lemma WroteTwice(s: Sys, mid: Sys, e: Sys, t: Token, row: Job, p: Phase, later: Job, q: Phase)
    requires t in s.sessions && Wrote(s, mid, t, row, p) && Wrote(mid, e, t, later, q)
    ensures Wrote(s, e, t, later, q)
  {
  }

  lemma WroteOnce(s: Sys, e: Sys, t: Token, phase: Phase)
    requires t in s.sessions && s.sessions[t].job in s.jobs && WroteNoRow(s, e, t, phase)
    ensures Wrote(s, e, t, s.jobs[s.sessions[t].job], phase)
  {
    assert s.jobs[s.sessions[t].job := s.jobs[s.sessions[t].job]] == s.jobs;
  }

  lemma StillHolding(s: Sys, mid: Sys, t: Token, row: Job, phase: Phase)
    requires Holding(s, t) && Wrote(s, mid, t, row, phase)
    requires row.token == Some(t) && row.lockedBy == Some(s.sessions[t].worker) && row.status == ExecutingTools
    ensures Holding(mid, t) && mid.sessions[t].phase == phase && mid.jobs[mid.sessions[t].job] == row
    ensures mid.sessions[t].job == s.sessions[t].job && mid.now == s.now
  {
  }

  lemma RunFirst(s: Sys, a: Action, rest: seq<Action>)
    ensures Run(s, [a] + rest) == Run(Step(s, a), rest)
  {
    assert ([a] + rest)[1..] == rest;
  }

  /** The row a plan ends in that is left at `from`: COMPLETED, unless its first answer names no dataset. */
  function DoneRow(job: Job, plan: seq<PlannedCall>, from: nat, attempt: nat, t: Token, now: Time): Option<Job>
    requires from <= |plan| && attempt < |job.attempts|
  {
    var tools := job.tools + NewRows(job.tools, plan, from, |plan|, t);
    var dataset := FirstDataset(plan, tools);
    if dataset.Some? then Some(CompletedRow(job, tools, attempt, dataset.value, now)) else None
  }

  /** Written to the end, or to a failure that is still to be persisted. */
  predicate Ended(s: Sys, e: Sys, t: Token, done: Option<Job>, kept: Job, failing: Phase)
    requires t in s.sessions
  {
    if done.Some? then Wrote(s, e, t, done.value, Over) else Wrote(s, e, t, kept, failing)
  }

  /** Where a transaction stops in between makes no difference to the end. */
  lemma DoneRowSame(job: Job, row: Job, plan: seq<PlannedCall>, from: nat, k: nat, attempt: nat, t: Token, now: Time)
    requires from <= k <= |plan| && attempt < |job.attempts|
    requires row == job.(tools := job.tools + NewRows(job.tools, plan, from, k, t))
    ensures DoneRow(row, plan, k, attempt, t, now) == DoneRow(job, plan, from, attempt, t, now)
  {
    NewRowsSplit(job.tools, plan, from, k, |plan| - k, t, row.tools);
  }

  lemma EndsCompose(s: Sys, mid: Sys, e: Sys, t: Token, row: Job, phase: Phase, done: Option<Job>, kept: Job, failing: Phase)
    requires t in s.sessions && Wrote(s, mid, t, row, phase) && Ended(mid, e, t, done, kept, failing)
    ensures Ended(s, e, t, done, kept, failing)
  {
    WroteTwice(s, mid, e, t, row, phase, if done.Some? then done.value else kept, if done.Some? then Over else failing);
  }

  /** One transaction, when it is the last of its plan. */
  lemma LastTransaction(s: Sys, e: Sys, t: Token, plan: seq<PlannedCall>, from: nat, start: nat, attempt: nat, failing: Phase)
    requires Holding(s, t) && from <= start <= |plan| && attempt < |s.jobs[s.sessions[t].job].attempts|
    requires NeverStops(s.jobs[s.sessions[t].job].tools, plan, from, start)
    requires PlanOutcome(s, e, t, s.jobs[s.sessions[t].job], plan, from, start, attempt, failing)
    ensures var job := s.jobs[s.sessions[t].job]; Ended(s, e, t, DoneRow(job, plan, from, attempt, t, s.now), job, failing)
  {
    var job := s.jobs[s.sessions[t].job];
    if DoneRow(job, plan, from, attempt, t, s.now).None? {
      WroteOnce(s, e, t, failing);
    }
  }

  lemma GoesOn(s: Sys, mid: Sys, t: Token, k: nat) returns (row: Job, phase: Phase)
    requires Holding(s, t) && ToolsPending(s.jobs[s.sessions[t].job], s.sessions[t].phase, t)
    requires var job, p := s.jobs[s.sessions[t].job], s.sessions[t].phase;
             && StopsAt(job.tools, p.plan, p.next, p.next + 1, k)
             && PlanOutcome(s, mid, t, job, p.plan, p.next, p.next + 1, p.attempt, Failing(Some(p.attempt)))
    ensures var job, p := s.jobs[s.sessions[t].job], s.sessions[t].phase;
            && row == job.(tools := job.tools + NewRows(job.tools, p.plan, p.next, k, t))
            && phase.InTool? && phase.plan == p.plan && phase.next == k && phase.attempt == p.attempt
            && Wrote(s, mid, t, row, phase) && Holding(mid, t) && ToolsPending(row, phase, t)
            && mid.sessions[t].phase == phase && mid.jobs[mid.sessions[t].job] == row
  {
    var job, p := s.jobs[s.sessions[t].job], s.sessions[t].phase;
    row := job.(tools := job.tools + NewRows(job.tools, p.plan, p.next, k, t));
    phase := InTool(p.plan, k, p.attempt, mid.sessions[t].phase.outputs);
    assert row == job.(status := ExecutingTools, tools := row.tools);
    StillHolding(s, mid, t, row, phase);
  }

  /** Where the one transaction that starts behind a tool leads: to the plan's end, or behind the next tool. */
  predicate Leads(s: Sys, mid: Sys, t: Token, job: Job, p: Phase, row: Job, phase: Phase, done: Option<Job>)
    requires t in s.sessions
  {
    if phase.InTool? then
      && Wrote(s, mid, t, row, phase) && Holding(mid, t) && ToolsPending(row, phase, t)
      && mid.now == s.now && mid.sessions[t].phase == phase && mid.jobs[mid.sessions[t].job] == row
      && p.InTool? && phase.plan == p.plan && p.next < phase.next <= |p.plan| && phase.attempt == p.attempt
      && row == job.(tools := row.tools)
      && DoneRow(row, phase.plan, phase.next, phase.attempt, t, s.now) == done
    else
      p.InTool? && Ended(s, mid, t, done, job, Failing(Some(p.attempt)))
  }

  lemma OneTransaction(s: Sys, t: Token, job: Job, p: Phase, done: Option<Job>) returns (row: Job, phase: Phase)
    requires Holding(s, t) && job == s.jobs[s.sessions[t].job] && p == s.sessions[t].phase && ToolsPending(job, p, t)
    requires done == DoneRow(job, p.plan, p.next, p.attempt, t, s.now)
    ensures Leads(s, Step(s, Resume(t)), t, job, p, row, phase, done)
  {
    ResumeFrom(s, t);
    var mid := Step(s, Resume(t));
    var k := StopsOrNot(job.tools, p.plan, p.next, p.next + 1);
    if k.None? {
      row, phase := job, Over;
      LastTransaction(s, mid, t, p.plan, p.next, p.next + 1, p.attempt, Failing(Some(p.attempt)));
    } else {
      row, phase := GoesOn(s, mid, t, k.value);
      DoneRowSame(job, row, p.plan, p.next, k.value, p.attempt, t, s.now);
    }
  }

  /**
    Left to itself behind a tool, the engine comes to the plan's end in at most one
    transaction per call left: COMPLETED with a row for every new call and the snapshot of
    the first answer's dataset exactly when that answer names one, else at its failure.
   */
  lemma {:induction false} ResumesToTheEnd(s: Sys, t: Token, job: Job, p: Phase, done: Option<Job>) returns (n: nat, kept: Job)
    requires Holding(s, t) && job == s.jobs[s.sessions[t].job] && p == s.sessions[t].phase && ToolsPending(job, p, t)
    requires done == DoneRow(job, p.plan, p.next, p.attempt, t, s.now)
    ensures n <= |p.plan| - p.next && kept == job.(tools := kept.tools)
    ensures Ended(s, Run(s, Resumes(t, n)), t, done, kept, Failing(Some(p.attempt)))
    decreases |p.plan| - p.next
  {
    var row, phase := OneTransaction(s, t, job, p, done);
    var mid := Step(s, Resume(t));
    if !phase.InTool? {
      n, kept := 1, job;
      RunFirst(s, Resume(t), []);
    } else {
      var m;
      m, kept := ResumesToTheEnd(mid, t, row, phase, done);
      n := m + 1;
      RunFirst(s, Resume(t), Resumes(t, m));
      EndsCompose(s, mid, Run(mid, Resumes(t, m)), t, row, phase, done, kept, Failing(Some(p.attempt)));
    }
  }

  // ------------------------------------------------------- from the claim to the end

  /** Where the first transaction of a plan leads. */
  predicate Starts(s: Sys, mid: Sys, t: Token, plan: seq<PlannedCall>, attempt: nat, row: Job, phase: Phase, done: Option<Job>, job: Job)
    requires t in s.sessions
  {
    if phase.InTool? then
      && Wrote(s, mid, t, row, phase) && Holding(mid, t) && ToolsPending(row, phase, t)
      && mid.now == s.now && mid.sessions[t].phase == phase && mid.jobs[mid.sessions[t].job] == row
      && phase.plan == plan && phase.next <= |plan| && phase.attempt == attempt
      && row.snapshot.None? && row.status == ExecutingTools && row.token == job.token && row.lockedBy == job.lockedBy
      && DoneRow(row, plan, phase.next, attempt, t, s.now) == done
    else
      Ended(s, mid, t, done, job, Failing(None))
  }

  lemma FirstOfPlan(s: Sys, t: Token, plan: seq<PlannedCall>, job: Job, done: Option<Job>) returns (row: Job, phase: Phase)
    requires Inv(s) && Holding(s, t) && s.sessions[t].phase.Claimed?
    requires job == s.jobs[s.sessions[t].job] && job.status == Received
    requires done == DoneRow(Opened(job), plan, 0, |job.attempts|, t, s.now)
    ensures Starts(s, Step(s, Begin(t, ExecutePlan(plan))), t, plan, |job.attempts|, row, phase, done, job)
  {
    BeginOutcome(s, t, plan);
    var mid := Step(s, Begin(t, ExecutePlan(plan)));
    var k := StopsOrNot(job.tools, plan, 0, 0);
    if k.None? {
      row, phase := job, Over;
      if done.None? {
        WroteOnce(s, mid, t, Failing(None));
      }
    } else {
      row := Opened(job).(status := ExecutingTools, tools := job.tools + NewRows(job.tools, plan, 0, k.value, t));
      phase := InTool(plan, k.value, |job.attempts|, mid.sessions[t].phase.outputs);
      StillHolding(s, mid, t, row, phase);
      DoneRowSame(Opened(job).(status := ExecutingTools), row, plan, 0, k.value, |job.attempts|, t, s.now);
    }
  }

  /** The whole of a plan without its failure transaction. */
  lemma BeginToEnd(s: Sys, t: Token, plan: seq<PlannedCall>, job: Job, done: Option<Job>)
    returns (n: nat, kept: Job, failing: Phase)
    requires Inv(s) && Holding(s, t) && s.sessions[t].phase.Claimed?
    requires job == s.jobs[s.sessions[t].job] && job.status == Received
    requires done == DoneRow(Opened(job), plan, 0, |job.attempts|, t, s.now)
    ensures n <= |plan| && failing.Failing? && kept.snapshot.None?
    ensures Active(kept.status) && kept.token == job.token && kept.lockedBy == job.lockedBy
    ensures Ended(s, Run(s, [Begin(t, ExecutePlan(plan))] + Resumes(t, n)), t, done, kept, failing)
  {
    ClaimedIsUntouched(s, t);
    var row, phase := FirstOfPlan(s, t, plan, job, done);
    var mid := Step(s, Begin(t, ExecutePlan(plan)));
    if !phase.InTool? {
      n, kept, failing := 0, job, Failing(None);
      RunFirst(s, Begin(t, ExecutePlan(plan)), []);
    } else {
      n, kept := ResumesToTheEnd(mid, t, row, phase, done);
      failing := Failing(Some(phase.attempt));
      RunFirst(s, Begin(t, ExecutePlan(plan)), Resumes(t, n));
      EndsCompose(s, mid, Run(mid, Resumes(t, n)), t, row, phase, done, kept, failing);
    }
  }

  lemma FailsAtTheEnd(s: Sys, e: Sys, t: Token, kept: Job, failing: Phase)
    requires Holding(s, t) && HasRow(e, t) && Wrote(s, e, t, kept, failing) && failing.Failing?
    requires Active(kept.status) && kept.token == Some(t) && kept.lockedBy == Some(s.sessions[t].worker)
    ensures var f, j := Step(e, PersistFailure(t)), s.sessions[t].job;
            && j in f.jobs && f.jobs[j].status == Failed && f.jobs[j].lease.None? && f.jobs[j].snapshot == kept.snapshot
            && t in f.sessions && f.sessions[t].phase == Over
  {
    FailureWrites(e, t);
  }

  /**
    Every claimed job whose plan nobody interferes with is finished by its engine: with
    at most one further transaction per call, it is COMPLETED with a row for each of the
    plan's calls and the snapshot of the first answer's dataset, exactly when there is such
    a dataset; otherwise the failure transaction makes it FAILED, without a snapshot.
   */
  lemma PlanCarriedOut(s: Sys, t: Token, plan: seq<PlannedCall>) returns (n: nat)
    requires Inv(s) && Holding(s, t) && s.sessions[t].phase.Claimed? && s.jobs[s.sessions[t].job].status == Received
    ensures n <= |plan|
    ensures var job, j := s.jobs[s.sessions[t].job], s.sessions[t].job;
            var e := Run(s, [Begin(t, ExecutePlan(plan))] + Resumes(t, n));
            var rows := NewRows([], plan, 0, |plan|, t);
            var dataset := FirstDataset(plan, rows);
            && (dataset.Some? ==>
                  Wrote(s, e, t, CompletedRow(Opened(job), rows, |job.attempts|, dataset.value, s.now), Over))
            && (dataset.None? ==>
                  var f := Step(e, PersistFailure(t));
                  && j in f.jobs && f.jobs[j].status == Failed && f.jobs[j].lease.None? && f.jobs[j].snapshot.None?
                  && t in f.sessions && f.sessions[t].phase == Over)
  {
    ClaimedIsUntouched(s, t);
    var job := s.jobs[s.sessions[t].job];
    var rows := NewRows([], plan, 0, |plan|, t);
    assert [] + rows == rows;
    var done := DoneRow(Opened(job), plan, 0, |job.attempts|, t, s.now);
    var kept, failing;
    n, kept, failing := BeginToEnd(s, t, plan, job, done);
    if done.None? {
      var actions := [Begin(t, ExecutePlan(plan))] + Resumes(t, n);
      RunKeepsInv(s, actions);
      SessionHasRow(Run(s, actions), t);
      FailsAtTheEnd(s, Run(s, actions), t, kept, failing);
    }
  }

  // ------------------------------------------------------- the engine's own plan, from the start

  /** The one step the planner always plans, whose tool commits. */
  function OrdinaryRun(): seq<Action> {
    [Submit(0)] + [Claim("a", {}, 0, 1)] + [Begin(1, ExecutePlan([COMMITTING]))] + [Resume(1)]
  }

  lemma OneCall()
    ensures StopsAt([], [COMMITTING], 0, 0, 0) && NeverStops([], [COMMITTING], 0, 1)
    ensures NewRows([], [COMMITTING], 0, 0, 1) == [] && NewRows([], [COMMITTING], 0, 1, 1) == [RowFor(COMMITTING, 1)]
    ensures FirstDataset([COMMITTING], [RowFor(COMMITTING, 1)]) == Some("d")
  {
    var rows := [RowFor(COMMITTING, 1)];
    assert Reused(rows, COMMITTING.tool, COMMITTING.args) == Some(COMMITTING.output);
  }

  lemma OrdinaryFirst() returns (outputs: seq<ToolOutput>)
    ensures var row := Issue(NewJob(0), "a", 1, 0).(status := ExecutingTools, attempts := [Attempt(1, AttemptInProgress)]);
            && Wrote(ClaimedState(), Step(ClaimedState(), Begin(1, ExecutePlan([COMMITTING]))), 1, row, InTool([COMMITTING], 0, 0, outputs))
            && ToolsPending(row, InTool([COMMITTING], 0, 0, outputs), 1)
  {
    ClaimedIsReached();
    ReachableInv(0, [Submit(0)] + [Claim("a", {}, 0, 1)]);
    var s := ClaimedState();
    var job := s.jobs[0];
    OneCall();
    BeginOutcome(s, 1, [COMMITTING]);
    outputs := Step(s, Begin(1, ExecutePlan([COMMITTING]))).sessions[1].phase.outputs;
    assert NextAttempt(job, AttemptInProgress) == [Attempt(1, AttemptInProgress)];
    assert job.tools + NewRows(job.tools, [COMMITTING], 0, 0, 1) == [];
  }

  lemma OrdinaryLast(mid: Sys, row: Job, p: Phase)
    requires Holding(mid, 1) && mid.sessions[1].phase == p && mid.sessions[1].job == 0 && mid.jobs[0] == row
    requires p.InTool? && p.plan == [COMMITTING] && p.next == 0 && p.attempt == 0 && ToolsPending(row, p, 1)
    requires row.tools == [] && row.attempts == [Attempt(1, AttemptInProgress)]
    ensures Wrote(mid, Step(mid, Resume(1)), 1,
                  row.(status := Completed, lease := None, attempts := [Attempt(1, AttemptCompleted)],
                       tools := [RowFor(COMMITTING, 1)], snapshot := Some(Snapshot("d", mid.now))), Over)
  {
    OneCall();
    ResumeFrom(mid, 1);
    assert row.tools + NewRows(row.tools, [COMMITTING], 0, 1, 1) == [RowFor(COMMITTING, 1)];
    assert Marked(row.attempts, 0, AttemptCompleted) == [Attempt(1, AttemptCompleted)];
  }

  /** Submitted, claimed, planned, resumed behind the tool: COMPLETED, every column as it should be. */
  lemma OrdinaryRunCompletes()
    ensures Run(Start(0), OrdinaryRun()).jobs ==
            map[0 := Job(Completed, Some("a"), Some(1), None, 0, 0, [Attempt(1, AttemptCompleted)], [],
                         [ToolRow("compare_institutions", "", ToolOutput(Some("d"), ""), 1)], Some(Snapshot("d", 0)))]
  {
    var outputs := OrdinaryFirst();
    var s, p := ClaimedState(), InTool([COMMITTING], 0, 0, outputs);
    var mid := Step(s, Begin(1, ExecutePlan([COMMITTING])));
    var row := Issue(NewJob(0), "a", 1, 0).(status := ExecutingTools, attempts := [Attempt(1, AttemptInProgress)]);
    StillHolding(s, mid, 1, row, p);
    OrdinaryLast(mid, row, p);
    ClaimedIsReached();
    var r := [Submit(0)] + [Claim("a", {}, 0, 1)];
    RunThen(Start(0), r + [Begin(1, ExecutePlan([COMMITTING]))], Resume(1));
    RunThen(Start(0), r, Begin(1, ExecutePlan([COMMITTING])));
  }
}
