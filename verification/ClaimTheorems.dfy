/** What the claim protocol guarantees over whole runs. */
module ClaimTheorems {

  import opened Wrappers
  import opened AnalysisStatus
  import opened ToolDedup
  import opened ClaimProtocol
  import opened ClaimInvariants

  // ------------------------------------------------------- one step of a row

  /** Status changes still ahead of a job: three for an unused recovery, then its own distance to a stop. */
  function Distance(status: Status): nat {
    match status
    case Received => 3
    case NeedsClarification => 2
    case UnderstandingRequest => 1
    case ExecutingTools => 1
    case _ => 0
  }

  function Potential(job: Job): int {
    3 * (1 - job.recoveryCount) + Distance(job.status)
  }

  /** Committed with the tool phase begun, or stopped. */
  predicate ToolsOrLater(status: Status) {
    status == ExecutingTools || Terminal(status)
  }

  predicate Evolves(a: Job, b: Job) {
    && a.recoveryCount <= b.recoveryCount
    && Potential(b) <= Potential(a)
    && (b.status != a.status ==> Potential(b) < Potential(a))
    && (ToolsOrLater(a.status) ==> ToolsOrLater(b.status) && b.token == a.token && a.tools <= b.tools)
    && (b.snapshot == a.snapshot || b.status == Completed)
    && (Terminal(a.status) ==> b.status == a.status && b.tools == a.tools && b.snapshot == a.snapshot)
  }

  predicate NewTokenIsUnused(a: Job, b: Job, sessions: map<Token, Session>) {
    b.token != a.token ==> b.token.Some? && b.token.value !in sessions
  }

  lemma LoopExtendsRows(rows: seq<ToolRow>, outputs: seq<ToolOutput>, plan: seq<PlannedCall>, next: nat, writer: Token)
    requires next <= |plan|
    ensures rows <= RunTools(rows, outputs, plan, next, writer).rows
    decreases |plan| - next
  {
  }

  lemma FirstTransactionEvolves(job: Job, t: Token, outcome: Outcome, now: Time)
    requires Active(job.status)
    ensures var e := FirstTransaction(job, t, outcome, now);
            e.Commit? ==> Evolves(job, e.job) && e.job.token == job.token
  {
    if outcome.ExecutePlan? {
      LoopExtendsRows(job.tools, [], outcome.plan, 0, t);
    }
  }

  lemma FinishEvolves(before: Job, job: Job, attempt: nat, outputs: seq<ToolOutput>, now: Time)
    requires before.status == ExecutingTools && job.status == ExecutingTools
    requires SameOwner(before, job) && before.tools <= job.tools
    ensures var e := Finish(job, attempt, outputs, now);
            e.Commit? ==> Evolves(before, e.job) && e.job.token == before.token
  {
  }

  lemma AfterToolsEvolves(job: Job, plan: seq<PlannedCall>, attempt: nat, end: LoopEnd, now: Time)
    requires job.status == ExecutingTools && job.tools <= end.rows
    ensures var e := AfterTools(job, plan, attempt, end, now);
            e.Commit? ==> Evolves(job, e.job) && e.job.token == job.token
  {
    if end.Finished? {
      FinishEvolves(job, job.(tools := end.rows), attempt, end.outputs, now);
    }
  }

  lemma OwedRowExtends(tools: seq<ToolRow>, row: ToolRow, outputs: seq<ToolOutput>, plan: seq<PlannedCall>, next: nat, t: Token)
    requires next <= |plan|
    ensures tools <= RunTools(tools + [row], outputs, plan, next, t).rows
  {
    var rows := tools + [row];
    LoopExtendsRows(rows, outputs, plan, next, t);
    var end := RunTools(rows, outputs, plan, next, t).rows;
    assert end[..|tools|] == rows[..|tools|] == tools;
  }

  lemma LaterTransactionEvolves(job: Job, t: Token, phase: Phase, now: Time)
    requires phase.InTool? && job.status == ExecutingTools
    ensures var e := LaterTransaction(job, t, phase, now);
            e.Commit? ==> Evolves(job, e.job) && e.job.token == job.token
  {
    var e := LaterTransaction(job, t, phase, now);
    if e.Commit? {
      var call := phase.plan[phase.next];
      var rows, outputs := job.tools + [RowFor(call, t)], phase.outputs + [call.output];
      var end := RunTools(rows, outputs, phase.plan, phase.next + 1, t);
      assert e == AfterTools(job, phase.plan, phase.attempt, end, now);
      assert job.tools <= end.rows by { OwedRowExtends(job.tools, RowFor(call, t), outputs, phase.plan, phase.next + 1, t); }
      AfterToolsEvolves(job, phase.plan, phase.attempt, end, now);
    }
  }

  lemma BeginEvolves(s: Sys, t: Token, outcome: Outcome, j: JobId)
    requires Inv(s) && j in s.jobs
    ensures j in StepBegin(s, t, outcome).jobs
    ensures Evolves(s.jobs[j], StepBegin(s, t, outcome).jobs[j]) && s.jobs[j].token == StepBegin(s, t, outcome).jobs[j].token
  {
    if t in s.sessions && s.sessions[t].phase.Claimed? && s.sessions[t].job in s.jobs {
      var job := s.jobs[s.sessions[t].job];
      if Fence(job, t, s.sessions[t].worker) {
        FirstTransactionEvolves(job, t, outcome, s.now);
      }
    }
  }

  lemma ResumeEvolves(s: Sys, t: Token, j: JobId)
    requires Inv(s) && j in s.jobs
    ensures j in StepResume(s, t).jobs
    ensures Evolves(s.jobs[j], StepResume(s, t).jobs[j]) && s.jobs[j].token == StepResume(s, t).jobs[j].token
  {
    if t in s.sessions && s.sessions[t].phase.InTool? {
      FenceMeansHolder(s, t);
      var job := s.jobs[s.sessions[t].job];
      if Fence(job, t, s.sessions[t].worker) {
        LaterTransactionEvolves(job, t, s.sessions[t].phase, s.now);
      }
    }
  }

  lemma FailureEvolves(s: Sys, t: Token, j: JobId)
    requires Inv(s) && j in s.jobs
    ensures j in StepPersistFailure(s, t).jobs
    ensures Evolves(s.jobs[j], StepPersistFailure(s, t).jobs[j]) && s.jobs[j].token == StepPersistFailure(s, t).jobs[j].token
  {
    if t in s.sessions && s.sessions[t].phase.Failing? {
      FenceMeansHolder(s, t);
      FailEvolves(s.jobs[s.sessions[t].job], s.sessions[t].phase.committedAttempt);
    }
  }

  lemma FailEvolves(job: Job, committedAttempt: Option<nat>)
    ensures Active(job.status) && Committed(job.status) ==> Evolves(job, FailJob(job, committedAttempt))
    ensures FailJob(job, committedAttempt).token == job.token
  {
  }

  lemma ClaimEvolves(s: Sys, w: Worker, lockedRows: set<JobId>, k: JobId, t: Token, j: JobId)
    requires Inv(s) && j in s.jobs
    ensures j in StepClaim(s, w, lockedRows, k, t).jobs
    ensures Evolves(s.jobs[j], StepClaim(s, w, lockedRows, k, t).jobs[j])
    ensures NewTokenIsUnused(s.jobs[j], StepClaim(s, w, lockedRows, k, t).jobs[j], s.sessions)
  {
  }

  lemma RecoverJobEvolves(job: Job, w: Worker, t: Token, now: Time)
    requires Stale(job, now) && Committed(job.status)
    ensures Evolves(job, RecoverJob(job, w, t, now))
  {
    RecoverableCommitted(job.status);
  }

  lemma RecoverEvolves(s: Sys, w: Worker, lockedRows: set<JobId>, k: JobId, t: Token, j: JobId)
    requires Inv(s) && j in s.jobs
    ensures j in StepRecover(s, w, lockedRows, k, t).jobs
    ensures Evolves(s.jobs[j], StepRecover(s, w, lockedRows, k, t).jobs[j])
    ensures NewTokenIsUnused(s.jobs[j], StepRecover(s, w, lockedRows, k, t).jobs[j], s.sessions)
  {
    if StepRecover(s, w, lockedRows, k, t) != s {
      assert JobOk(k, s.jobs[k], s.sessions);
      RecoverJobEvolves(s.jobs[k], w, t, s.now);
    }
  }

  lemma RowServiceEvolves(job: Job, c: nat, now: Time)
    ensures Evolves(job, RespondJob(job, c, now)) && RespondJob(job, c, now).token == job.token
    ensures Evolves(job, ExpireJob(job, c, now)) && ExpireJob(job, c, now).token == job.token
    ensures Committed(job.status) ==> Evolves(job, CancelJob(job, c))
    ensures CancelJob(job, c).token == job.token
  {
  }

  lemma ServiceEvolves(s: Sys, k: JobId, c: nat, j: JobId)
    requires j in s.jobs && Committed(s.jobs[j].status)
    ensures j in StepRespond(s, k, c).jobs && j in StepExpireDue(s, k, c).jobs && j in StepCancel(s, k, c).jobs
    ensures Evolves(s.jobs[j], StepRespond(s, k, c).jobs[j]) && StepRespond(s, k, c).jobs[j].token == s.jobs[j].token
    ensures Evolves(s.jobs[j], StepExpireDue(s, k, c).jobs[j]) && StepExpireDue(s, k, c).jobs[j].token == s.jobs[j].token
    ensures Evolves(s.jobs[j], StepCancel(s, k, c).jobs[j]) && StepCancel(s, k, c).jobs[j].token == s.jobs[j].token
  {
    RowServiceEvolves(s.jobs[j], c, s.now);
  }

  lemma RenewEvolves(s: Sys, k: JobId, t: Token, w: Worker, j: JobId)
    requires j in s.jobs
    ensures j in StepRenew(s, k, t, w).jobs
    ensures Evolves(s.jobs[j], StepRenew(s, k, t, w).jobs[j]) && s.jobs[j].token == StepRenew(s, k, t, w).jobs[j].token
  {
  }

  lemma CloseEvolves(s: Sys, t: Token, j: JobId)
    requires j in s.jobs
    ensures j in StepCloseClarification(s, t).jobs
    ensures Evolves(s.jobs[j], StepCloseClarification(s, t).jobs[j])
    ensures s.jobs[j].token == StepCloseClarification(s, t).jobs[j].token
  {
  }

  lemma QuietSteps(s: Sys, t: Token)
    ensures StepRaise(s, t).jobs == s.jobs && StepCrash(s, t).jobs == s.jobs
  {
  }

  lemma Unchanged(s: Sys, j: JobId)
    requires j in s.jobs
    ensures Evolves(s.jobs[j], s.jobs[j])
  {
  }

  /** What one step may do to job j. */
  predicate Grows(s: Sys, s': Sys, j: JobId)
    requires j in s.jobs
  {
    j in s'.jobs && Evolves(s.jobs[j], s'.jobs[j]) && NewTokenIsUnused(s.jobs[j], s'.jobs[j], s.sessions)
  }

  predicate IsTransaction(a: Action) {
    a.Begin? || a.Resume? || a.PersistFailure?
  }

  predicate IsSessionEnd(a: Action) {
    a.CloseClarification? || a.Raise? || a.Crash?
  }

  lemma KeptTokenGrows(s: Sys, s': Sys, j: JobId)
    requires j in s.jobs && j in s'.jobs
    requires Evolves(s.jobs[j], s'.jobs[j]) && s.jobs[j].token == s'.jobs[j].token
    ensures Grows(s, s', j)
  {
  }

  lemma BeginGrows(s: Sys, t: Token, outcome: Outcome, j: JobId)
    requires Inv(s) && j in s.jobs
    ensures Grows(s, StepBegin(s, t, outcome), j)
  {
    BeginEvolves(s, t, outcome, j);
    KeptTokenGrows(s, StepBegin(s, t, outcome), j);
  }

  lemma ResumeGrows(s: Sys, t: Token, j: JobId)
    requires Inv(s) && j in s.jobs
    ensures Grows(s, StepResume(s, t), j)
  {
    ResumeEvolves(s, t, j);
    KeptTokenGrows(s, StepResume(s, t), j);
  }

  lemma FailureGrows(s: Sys, t: Token, j: JobId)
    requires Inv(s) && j in s.jobs
    ensures Grows(s, StepPersistFailure(s, t), j)
  {
    FailureEvolves(s, t, j);
    KeptTokenGrows(s, StepPersistFailure(s, t), j);
  }

  lemma TransactionEvolves(s: Sys, a: Action, j: JobId)
    requires Inv(s) && j in s.jobs && IsTransaction(a)
    ensures Grows(s, Step(s, a), j)
  {
    match a
    case Begin(t, outcome) => BeginGrows(s, t, outcome, j);
    case Resume(t) => ResumeGrows(s, t, j);
    case PersistFailure(t) => FailureGrows(s, t, j);
  }

  lemma SessionEndEvolves(s: Sys, a: Action, j: JobId)
    requires j in s.jobs && IsSessionEnd(a)
    ensures Grows(s, Step(s, a), j)
  {
    Unchanged(s, j);
    match a
    case CloseClarification(t) => CloseEvolves(s, t, j);
    case Raise(t) => QuietSteps(s, t);
    case Crash(t) => QuietSteps(s, t);
  }

  // --------------------------------------------------------- the cancel route

  /** The cancel route's write finds the job stopped, otherwise than by a cancellation, since its check of the status. */
  predicate LateWrite(s: Sys, a: Action, j: JobId) {
    && a.WriteCancelled? && a.request in s.cancels && s.cancels[a.request] == j
    && j in s.jobs && Terminal(s.jobs[j].status) && s.jobs[j].status != Cancelled
  }

  lemma CancelEvolves(job: Job)
    requires Committed(job.status) && (Terminal(job.status) ==> job.status == Cancelled)
    ensures Evolves(job, job.(status := Cancelled))
  {
  }

  lemma WriteCancelledEvolves(s: Sys, r: RequestId, j: JobId)
    requires Inv(s) && j in s.jobs
    ensures j in StepWriteCancelled(s, r).jobs
    ensures StepWriteCancelled(s, r).jobs[j] ==
            if r in s.cancels && s.cancels[r] == j then s.jobs[j].(status := Cancelled) else s.jobs[j]
    ensures !LateWrite(s, WriteCancelled(r), j) ==> Evolves(s.jobs[j], StepWriteCancelled(s, r).jobs[j])
  {
    assert JobOk(j, s.jobs[j], s.sessions);
    Unchanged(s, j);
    if !Terminal(s.jobs[j].status) || s.jobs[j].status == Cancelled {
      CancelEvolves(s.jobs[j]);
    }
  }

  predicate IsService(a: Action) {
    a.Respond? || a.ExpireDue? || a.CancelClarification?
  }

  lemma ServiceStepEvolves(s: Sys, a: Action, j: JobId)
    requires j in s.jobs && Committed(s.jobs[j].status) && IsService(a)
    ensures Grows(s, Step(s, a), j)
  {
    match a
    case Respond(k, c) => ServiceEvolves(s, k, c, j);
    case ExpireDue(k, c) => ServiceEvolves(s, k, c, j);
    case CancelClarification(k, c) => ServiceEvolves(s, k, c, j);
  }

  lemma OtherStepEvolves(s: Sys, a: Action, j: JobId)
    requires Inv(s) && j in s.jobs
    requires !IsTransaction(a) && !IsSessionEnd(a) && !IsService(a) && !a.WriteCancelled?
    ensures Grows(s, Step(s, a), j)
  {
    Unchanged(s, j);
    match a
    case Tick(_) =>
    case Submit(_) =>
    case Claim(w, lockedRows, k, t) => ClaimEvolves(s, w, lockedRows, k, t, j);
    case Recover(w, lockedRows, k, t) => RecoverEvolves(s, w, lockedRows, k, t, j);
    case Renew(k, t, w) => RenewEvolves(s, k, t, w, j);
    case ReadForCancel(_, _) =>
  }

  /**
    Every step of the protocol, seen from one job row: it moves the row on, unless it is
    the cancel route overwriting a stop, which changes the status and nothing else.
   */
  lemma StepEvolves(s: Sys, a: Action, j: JobId)
    requires Inv(s) && j in s.jobs
    ensures j in Step(s, a).jobs
    ensures !LateWrite(s, a, j) ==> Evolves(s.jobs[j], Step(s, a).jobs[j])
    ensures LateWrite(s, a, j) ==> Step(s, a).jobs[j] == s.jobs[j].(status := Cancelled)
    ensures NewTokenIsUnused(s.jobs[j], Step(s, a).jobs[j], s.sessions)
  {
    if IsTransaction(a) {
      TransactionEvolves(s, a, j);
    } else if IsSessionEnd(a) {
      SessionEndEvolves(s, a, j);
    } else if IsService(a) {
      assert JobOk(j, s.jobs[j], s.sessions);
      ServiceStepEvolves(s, a, j);
    } else if a.WriteCancelled? {
      WriteCancelledEvolves(s, a.request, j);
    } else {
      OtherStepEvolves(s, a, j);
    }
  }

  lemma StepKeepsSessions(s: Sys, a: Action, t: Token)
    requires t in s.sessions
    ensures t in Step(s, a).sessions
    ensures Step(s, a).sessions[t].job == s.sessions[t].job && Step(s, a).sessions[t].worker == s.sessions[t].worker
  {
  }

  // -------------------------------------------------------- former holders

  /** The claim token a step acts under, if any. */
  function Actor(a: Action): Option<Token> {
    match a
    case Renew(_, t, _) => Some(t)
    case Begin(t, _) => Some(t)
    case Resume(t) => Some(t)
    case CloseClarification(t) => Some(t)
    case Raise(t) => Some(t)
    case PersistFailure(t) => Some(t)
    case Crash(t) => Some(t)
    case _ => None
  }

  predicate FormerHolder(s: Sys, t: Token) {
    t in s.sessions && s.sessions[t].job in s.jobs && s.jobs[s.sessions[t].job].token != Some(t)
  }

  /** The one write of a run that no fence guards. */
  predicate UnfencedWrite(s: Sys, a: Action) {
    && a.CloseClarification? && a.token in s.sessions && s.sessions[a.token].phase.AfterClarification?
    && s.sessions[a.token].job in s.jobs
    && s.sessions[a.token].phase.attempt < |s.jobs[s.sessions[a.token].job].attempts|
    && var job := s.jobs[s.sessions[a.token].job];
       var attempt := s.sessions[a.token].phase.attempt;
       job.lease.Some? || job.attempts[attempt].status != AttemptNeedsClarification
  }

  lemma FenceStopsFormerHolder(s: Sys, a: Action, t: Token)
    requires FormerHolder(s, t) && Actor(a) == Some(t) && !a.Renew? && !a.CloseClarification?
    ensures Step(s, a).jobs == s.jobs
  {
  }

  /** Another job's current token is some other session's, so a former holder cannot renew there either. */
  lemma RenewalStopsFormerHolder(s: Sys, k: JobId, t: Token, w: Worker)
    requires Inv(s) && FormerHolder(s, t)
    ensures StepRenew(s, k, t, w) == s
  {
    if k in s.jobs {
      assert JobOk(k, s.jobs[k], s.sessions);
    }
  }

  lemma CloseChangesExactly(s: Sys, t: Token)
    requires t in s.sessions && s.sessions[t].job in s.jobs
    requires s.sessions[t].phase.AfterClarification? ==> s.sessions[t].phase.attempt < |s.jobs[s.sessions[t].job].attempts|
    ensures var s' := StepCloseClarification(s, t);
            && (s'.jobs != s.jobs <==> UnfencedWrite(s, CloseClarification(t)))
            && (s'.jobs != s.jobs ==>
                  s'.jobs == s.jobs[s.sessions[t].job := CloseJob(s.jobs[s.sessions[t].job], s.sessions[t].phase.attempt)])
  {
    if s.sessions[t].phase.AfterClarification? {
      var j, attempt := s.sessions[t].job, s.sessions[t].phase.attempt;
      var job, closed := s.jobs[j], CloseJob(s.jobs[j], attempt);
      assert s.jobs[j := closed][j] == closed;
      if job.lease.None? && job.attempts[attempt].status == AttemptNeedsClarification {
        assert closed.attempts == job.attempts;
        assert s.jobs[j := closed] == s.jobs;
      } else if job.lease.None? {
        assert closed.attempts[attempt] != job.attempts[attempt];
      }
    }
  }

  /**
    A former holder changes job rows exactly by the unfenced write behind a
    request for clarification, and that write touches the lease and its own attempt only.
   */
  lemma FormerHolderChangesExactly(s: Sys, a: Action, t: Token)
    requires Inv(s) && FormerHolder(s, t) && Actor(a) == Some(t)
    ensures SessionOk(t, s.sessions[t], s.jobs)
    ensures Step(s, a).jobs != s.jobs <==> UnfencedWrite(s, a)
    ensures Step(s, a).jobs != s.jobs ==>
              Step(s, a).jobs == s.jobs[s.sessions[t].job :=
                CloseJob(s.jobs[s.sessions[t].job], s.sessions[t].phase.attempt)]
  {
    FenceMeansHolder(s, t);
    if a.Renew? {
      RenewalStopsFormerHolder(s, a.job, t, a.worker);
    } else if a.CloseClarification? {
      CloseChangesExactly(s, t);
    } else {
      FenceStopsFormerHolder(s, a, t);
    }
  }

  /** A replaced token never becomes current again, whatever runs. */
  lemma {:induction false} FormerHolderForever(s: Sys, actions: seq<Action>, t: Token)
    requires Inv(s) && FormerHolder(s, t)
    ensures FormerHolder(Run(s, actions), t)
    decreases |actions|
  {
    if actions != [] {
      var s' := Step(s, actions[0]);
      StepKeepsInv(s, actions[0]);
      StepKeepsSessions(s, actions[0], t);
      StepEvolves(s, actions[0], s.sessions[t].job);
      FormerHolderForever(s', actions[1..], t);
    }
  }

  /** A job whose holder has asked for a clarification nobody has answered. */
  predicate Closing(job: Job, t: Token) {
    job.token == Some(t) && (job.status.NeedsClarification? || job.status.Expired? || job.status.Cancelled?)
  }

  predicate ClosingIsCurrentFor(s: Sys, t: Token) {
    t in s.sessions && s.sessions[t].phase.AfterClarification? && s.sessions[t].job in s.jobs ==>
      Closing(s.jobs[s.sessions[t].job], t)
  }

  /** As long as no clarification is answered, a session between its two writes is still the holder. */
  ghost predicate ClosingIsCurrent(s: Sys) {
    forall t :: t in s.sessions ==> ClosingIsCurrentFor(s, t)
  }

  predicate NoAnswers(actions: seq<Action>) {
    forall i :: 0 <= i < |actions| ==> !actions[i].Respond?
  }

  lemma NobodyElseTouchesClosing(s: Sys, a: Action, u: Token)
    requires u in s.sessions && s.sessions[u].phase.AfterClarification? && s.sessions[u].job in s.jobs
    requires ClosingIsCurrentFor(s, u) && !a.Respond?
    ensures ClosingIsCurrentFor(Step(s, a), u)
  {
  }

  lemma OnlyBeginEnters(s: Sys, a: Action, u: Token)
    requires u !in s.sessions || !s.sessions[u].phase.AfterClarification?
    requires !a.Begin?
    ensures ClosingIsCurrentFor(Step(s, a), u)
  {
  }

  lemma BeginEnters(s: Sys, t: Token, outcome: Outcome, u: Token)
    requires u !in s.sessions || !s.sessions[u].phase.AfterClarification?
    ensures ClosingIsCurrentFor(StepBegin(s, t, outcome), u)
  {
  }

  lemma StepKeepsClosing(s: Sys, a: Action)
    requires Inv(s) && ClosingIsCurrent(s) && !a.Respond?
    ensures ClosingIsCurrent(Step(s, a))
  {
    forall u | u in Step(s, a).sessions ensures ClosingIsCurrentFor(Step(s, a), u) {
      if u in s.sessions && s.sessions[u].phase.AfterClarification? {
        FenceMeansHolder(s, u);
        NobodyElseTouchesClosing(s, a, u);
      } else {
        if a.Begin? {
          BeginEnters(s, a.token, a.outcome, u);
        } else {
          OnlyBeginEnters(s, a, u);
        }
      }
    }
  }

  lemma {:induction false} RunKeepsClosing(s: Sys, actions: seq<Action>)
    requires Inv(s) && ClosingIsCurrent(s) && NoAnswers(actions)
    ensures Inv(Run(s, actions)) && ClosingIsCurrent(Run(s, actions))
    decreases |actions|
  {
    if actions != [] {
      StepKeepsInv(s, actions[0]);
      StepKeepsClosing(s, actions[0]);
      RunKeepsClosing(Step(s, actions[0]), actions[1..]);
    }
  }

  /**
    In every run in which no clarification is answered, once a job's token has
    been replaced no step of its former holder changes any job row.
   */
  lemma FormerHolderIsSilent(now: Time, actions: seq<Action>, a: Action, t: Token)
    requires NoAnswers(actions)
    requires FormerHolder(Run(Start(now), actions), t) && Actor(a) == Some(t)
    ensures Step(Run(Start(now), actions), a).jobs == Run(Start(now), actions).jobs
  {
    RunKeepsClosing(Start(now), actions);
    FormerHolderChangesExactly(Run(Start(now), actions), a, t);
  }

  /** The run that shows the restriction is needed: the answer lets a recovery in between the two writes. */
  function AnsweredTooEarly(): seq<Action> {
    [Submit(0), Claim("a", {}, 0, 1), Begin(1, AskClarification), Respond(0, 0), Tick(901), Recover("b", {}, 0, 2)]
  }

  lemma RunOfThree(s: Sys, a: Action, b: Action, c: Action)
    ensures Run(s, [a] + [b] + [c]) == Step(Step(Step(s, a), b), c)
  {
    RunThen(s, [a] + [b], c);
    RunThen(s, [a], b);
    RunThen(s, [], a);
    assert [] + [a] == [a];
  }

  lemma ValidNames()
    ensures ValidWorker("a") && ValidWorker("b")
  {
    assert "a"[0] != ' ' && "b"[0] != ' ';
  }

  function AskedJob(): Job {
    Job(NeedsClarification, Some("a"), Some(1), Some(900), 0, 0,
        [Attempt(1, AttemptInProgress)], [Clarification(Awaiting, 900, 1)], [], None)
  }

  function AskedState(): Sys {
    Sys(0, map[0 := AskedJob()], map[1 := Session(0, "a", AfterClarification(0))], map[])
  }

  function AnsweredJob(): Job {
    Job(UnderstandingRequest, Some("a"), Some(1), Some(900), 0, 0,
        [Attempt(1, AttemptInProgress), Attempt(2, AttemptInProgress)], [Clarification(Answered, 900, 1)], [], None)
  }

  lemma AskedIsReached()
    ensures Step(Step(Step(Start(0), Submit(0)), Claim("a", {}, 0, 1)), Begin(1, AskClarification)) == AskedState()
  {
    ValidNames();
    var s1 := Step(Start(0), Submit(0));
    assert NextFresh(s1, {}, 0);
    var s2 := Step(s1, Claim("a", {}, 0, 1));
    assert s2.jobs == map[0 := Issue(NewJob(0), "a", 1, 0)];
    var s3 := Step(s2, Begin(1, AskClarification));
    assert s3.jobs[0] == AskedJob();
    assert s3.jobs == map[0 := AskedJob()];
    assert s3.sessions == AskedState().sessions;
  }

  lemma RecoveredIsReached()
    ensures var s := Step(Step(Step(AskedState(), Respond(0, 0)), Tick(901)), Recover("b", {}, 0, 2));
            && s.jobs == map[0 := RecoverJob(AnsweredJob(), "b", 2, 901)]
            && 1 in s.sessions && s.sessions[1] == Session(0, "a", AfterClarification(0))
  {
    ValidNames();
    var s4 := Step(AskedState(), Respond(0, 0));
    assert s4.jobs[0].attempts == AnsweredJob().attempts;
    assert s4.jobs[0].clarifications == AnsweredJob().clarifications;
    assert s4.jobs[0] == AnsweredJob();
    assert s4.jobs == map[0 := AnsweredJob()];
    var s5 := Step(s4, Tick(901));
    assert NextStale(s5, {}, 0);
  }

  lemma LateCloseClears(s: Sys)
    requires s.jobs == map[0 := RecoverJob(AnsweredJob(), "b", 2, 901)]
    requires 1 in s.sessions && s.sessions[1] == Session(0, "a", AfterClarification(0))
    ensures FormerHolder(s, 1) && s.jobs[0].token == Some(2) && s.jobs[0].lease == Some(1801)
    ensures 0 in Step(s, CloseClarification(1)).jobs && Step(s, CloseClarification(1)).jobs[0].lease == None
  {
  }

  /** The late writer clears the lease the new holder was just given. */
  lemma FormerHolderCanClearTheLease()
    ensures var s := Run(Start(0), AnsweredTooEarly());
            && FormerHolder(s, 1)
            && s.jobs[0].token == Some(2) && s.jobs[0].lease == Some(1801)
            && 0 in Step(s, CloseClarification(1)).jobs
            && Step(s, CloseClarification(1)).jobs[0].lease == None
  {
    AskedIsReached();
    RecoveredIsReached();
    var r := AnsweredTooEarly();
    assert r == [r[0]] + [r[1]] + [r[2]] + [r[3]] + [r[4]] + [r[5]];
    RunThen(Start(0), [r[0]] + [r[1]] + [r[2]] + [r[3]] + [r[4]], r[5]);
    RunThen(Start(0), [r[0]] + [r[1]] + [r[2]] + [r[3]], r[4]);
    RunThen(Start(0), [r[0]] + [r[1]] + [r[2]], r[3]);
    RunOfThree(Start(0), r[0], r[1], r[2]);
    LateCloseClears(Run(Start(0), AnsweredTooEarly()));
  }

  // -------------------------------------------------- token, tools, snapshot

  /**
    Once a job is committed as executing its tools, or stopped, its token is
    final; recorded tool calls are only ever added, all under that token, each
    tool and argument checksum at most once.
   */
  lemma {:induction false} TokenFrozenFromTools(s: Sys, actions: seq<Action>, j: JobId)
    requires Inv(s) && j in s.jobs && ToolsOrLater(s.jobs[j].status)
    ensures j in Run(s, actions).jobs
    ensures var job := Run(s, actions).jobs[j];
            && ToolsOrLater(job.status)
            && job.token == s.jobs[j].token
            && s.jobs[j].tools <= job.tools
            && Distinct(job.tools)
            && (job.token.Some? ==> WrittenBy(job.tools, job.token.value))
    decreases |actions|
  {
    if actions == [] {
      assert JobOk(j, s.jobs[j], s.sessions);
    } else {
      var s' := Step(s, actions[0]);
      StepKeepsInv(s, actions[0]);
      StepEvolves(s, actions[0], j);
      TokenFrozenFromTools(s', actions[1..], j);
      assert s.jobs[j].tools <= s'.jobs[j].tools <= Run(s, actions).jobs[j].tools;
    }
  }

  /** A late write that finds the job COMPLETED. */
  predicate Overwrites(s: Sys, a: Action, j: JobId) {
    LateWrite(s, a, j) && s.jobs[j].status == Completed
  }

  predicate Overwritten(s: Sys, actions: seq<Action>, j: JobId)
    decreases |actions|
  {
    actions != [] && (Overwrites(s, actions[0], j) || Overwritten(Step(s, actions[0]), actions[1..], j))
  }

  /** A snapshot on a cancelled job. */
  predicate Torn(s: Sys, j: JobId) {
    j in s.jobs && s.jobs[j].status == Cancelled && s.jobs[j].snapshot.Some?
  }

  lemma StepTears(s: Sys, a: Action, j: JobId)
    requires Inv(s)
    ensures Torn(Step(s, a), j) <==> Torn(s, j) || Overwrites(s, a, j)
  {
    if j in s.jobs {
      assert JobOk(j, s.jobs[j], s.sessions);
      StepEvolves(s, a, j);
    } else {
      SubmitIsTheOnlyBirth(s, a, j);
    }
  }

  lemma {:induction false} RunTears(s: Sys, actions: seq<Action>, j: JobId)
    requires Inv(s)
    ensures Torn(Run(s, actions), j) <==> Torn(s, j) || Overwritten(s, actions, j)
    decreases |actions|
  {
    if actions != [] {
      StepTears(s, actions[0], j);
      StepKeepsInv(s, actions[0]);
      RunTears(Step(s, actions[0]), actions[1..], j);
    }
  }

  /**
    In every reachable state a snapshot exists exactly for the completed jobs, if and
    only if the cancel route never overwrote a COMPLETED of the job. Whatever it did, a
    completed job has a snapshot, a snapshot names a dataset that a recorded tool call of
    the same job returned, attempts are numbered from 1 without gaps, so the unique
    attempt number is never hit, and a recovery finds no running attempt to abandon.
   */
  lemma ReachableRows(now: Time, actions: seq<Action>, j: JobId)
    requires j in Run(Start(now), actions).jobs
    ensures var job := Run(Start(now), actions).jobs[j];
            && ((job.snapshot.Some? <==> job.status == Completed) <==> !Overwritten(Start(now), actions, j))
            && (job.status == Completed ==> job.snapshot.Some?)
            && (job.snapshot.Some? ==> DatasetRecorded(job.snapshot.value.datasetId, job.tools))
            && (forall i :: 0 <= i < |job.attempts| ==> job.attempts[i].number == i + 1)
            && !NumberTaken(job.attempts, |job.attempts| + 1)
            && AbandonRunning(job.attempts) == job.attempts
  {
    ReachableInv(now, actions);
    StartInv(now);
    RunTears(Start(now), actions, j);
    var s := Run(Start(now), actions);
    assert JobOk(j, s.jobs[j], s.sessions);
  }

  /** A call that yields a dataset, and a call that ends the engine's transaction. */
  const COMPARISON := PlannedCall("compare_institutions", "", ToolOutput(Some("d"), ""), false)
  const COMMITTING := PlannedCall("compare_institutions", "", ToolOutput(Some("d"), ""), true)

  /** A job claimed by "a" under token 1, as the claim leaves it. */
  function ClaimedState(): Sys {
    Sys(0, map[0 := Issue(NewJob(0), "a", 1, 0)], map[1 := Session(0, "a", Claimed)], map[])
  }

  lemma ClaimedIsReached()
    ensures Run(Start(0), [Submit(0)] + [Claim("a", {}, 0, 1)]) == ClaimedState()
  {
    ValidNames();
    RunThen(Start(0), [Submit(0)], Claim("a", {}, 0, 1));
    RunThen(Start(0), [], Submit(0));
    assert [] + [Submit(0)] == [Submit(0)];
    var s1 := Step(Start(0), Submit(0));
    assert NextFresh(s1, {}, 0);
    assert Step(s1, Claim("a", {}, 0, 1)) == ClaimedState();
  }

  /** The check passes while the job is under way, the worker completes, and the write comes last. */
  function CancelledTooLate(): seq<Action> {
    [Submit(0)] + [Claim("a", {}, 0, 1)] + [ReadForCancel(7, 0)] + [Begin(1, ExecutePlan([COMPARISON]))] + [WriteCancelled(7)]
  }

  lemma CompletedBehindTheCheck()
    ensures var s := Step(Step(ClaimedState(), ReadForCancel(7, 0)), Begin(1, ExecutePlan([COMPARISON])));
            && 0 in s.jobs && s.jobs[0].status == Completed && s.jobs[0].snapshot.Some?
            && s.cancels == map[7 := 0]
  {
    var s := Step(ClaimedState(), ReadForCancel(7, 0));
    assert Edge(Received, Cancelled) && s.cancels == map[7 := 0];
    var job := s.jobs[0];
    var end := RunTools([], [], [COMPARISON], 0, 1);
    assert [] + [RowFor(COMPARISON, 1)] == [RowFor(COMPARISON, 1)] && [] + [COMPARISON.output] == [COMPARISON.output];
    assert RunTools([RowFor(COMPARISON, 1)], [COMPARISON.output], [COMPARISON], 1, 1) == Finished([RowFor(COMPARISON, 1)], [COMPARISON.output]);
    assert end == Finished([RowFor(COMPARISON, 1)], [COMPARISON.output]);
    assert FirstTransaction(job, 1, ExecutePlan([COMPARISON]), 0).Commit?;
  }

  lemma LateWriteTears(s: Sys)
    requires 0 in s.jobs && s.jobs[0].status == Completed && s.jobs[0].snapshot.Some? && s.cancels == map[7 := 0]
    ensures Torn(Step(s, WriteCancelled(7)), 0)
  {
  }

  /** The cancel route can leave a snapshot on a CANCELLED job. */
  lemma SnapshotOnACancelledJob()
    ensures Torn(Run(Start(0), CancelledTooLate()), 0)
  {
    ClaimedIsReached();
    CompletedBehindTheCheck();
    var r := [Submit(0)] + [Claim("a", {}, 0, 1)];
    RunThen(Start(0), r + [ReadForCancel(7, 0)] + [Begin(1, ExecutePlan([COMPARISON]))], WriteCancelled(7));
    RunThen(Start(0), r + [ReadForCancel(7, 0)], Begin(1, ExecutePlan([COMPARISON])));
    RunThen(Start(0), r, ReadForCancel(7, 0));
    LateWriteTears(Run(Start(0), r + [ReadForCancel(7, 0)] + [Begin(1, ExecutePlan([COMPARISON]))]));
  }

  // ----------------------------------------------------- tokens and progress

  /** A job is issued one token per claim or recovery, never more than two. */
  lemma AtMostTwoTokens(now: Time, actions: seq<Action>, j: JobId)
    requires j in Run(Start(now), actions).jobs
    ensures var s := Run(Start(now), actions);
            && 0 <= s.jobs[j].recoveryCount <= 1
            && |TokensOf(s, j)| == (if s.jobs[j].token.None? then 0 else 1 + s.jobs[j].recoveryCount)
            && |TokensOf(s, j)| <= 2
  {
    ReachableInv(now, actions);
    var s := Run(Start(now), actions);
    assert JobOk(j, s.jobs[j], s.sessions);
  }

  function Changed(s: Sys, a: Action, j: JobId): nat {
    if j in s.jobs && j in Step(s, a).jobs && Step(s, a).jobs[j].status != s.jobs[j].status then 1 else 0
  }

  /** How often a run changes the status of job j. */
  function StatusChanges(s: Sys, actions: seq<Action>, j: JobId): nat
    decreases |actions|
  {
    if actions == [] then 0
    else Changed(s, actions[0], j) + StatusChanges(Step(s, actions[0]), actions[1..], j)
  }

  function PotentialAt(s: Sys, j: JobId): int {
    if j in s.jobs then Potential(s.jobs[j]) else 6
  }

  /** How often a run overwrites a stop of job j by a late write of the cancel route. */
  function LateWrites(s: Sys, actions: seq<Action>, j: JobId): nat
    decreases |actions|
  {
    if actions == [] then 0
    else (if LateWrite(s, actions[0], j) then 1 else 0) + LateWrites(Step(s, actions[0]), actions[1..], j)
  }

  /** A cancelled job is not overwritten, so at most one late write ever takes effect. */
  lemma {:induction false} AtMostOneLateWrite(s: Sys, actions: seq<Action>, j: JobId)
    requires Inv(s)
    ensures LateWrites(s, actions, j) <= 1
    ensures j in s.jobs && s.jobs[j].status == Cancelled ==> LateWrites(s, actions, j) == 0
    decreases |actions|
  {
    if actions != [] {
      StepKeepsInv(s, actions[0]);
      if j in s.jobs {
        StepEvolves(s, actions[0], j);
      }
      AtMostOneLateWrite(Step(s, actions[0]), actions[1..], j);
    }
  }

  lemma StepIsPaidFor(s: Sys, a: Action, j: JobId)
    requires Inv(s)
    ensures Changed(s, a, j) + PotentialAt(Step(s, a), j) <= PotentialAt(s, j) + if LateWrite(s, a, j) then 1 else 0
  {
    if j in s.jobs {
      StepEvolves(s, a, j);
    } else {
      SubmitIsTheOnlyBirth(s, a, j);
    }
  }

  /**
    Each status change is paid for by the potential, which never rises and never goes
    below zero, or is a late write of the cancel route.
   */
  lemma {:induction false} ChangesArePaidFor(s: Sys, actions: seq<Action>, j: JobId)
    requires Inv(s)
    ensures StatusChanges(s, actions, j) + PotentialAt(Run(s, actions), j) <= PotentialAt(s, j) + LateWrites(s, actions, j)
    ensures PotentialAt(Run(s, actions), j) >= 0
    decreases |actions|
  {
    if actions == [] {
      if j in s.jobs {
        assert JobOk(j, s.jobs[j], s.sessions);
      }
    } else {
      StepKeepsInv(s, actions[0]);
      StepIsPaidFor(s, actions[0], j);
      ChangesArePaidFor(Step(s, actions[0]), actions[1..], j);
    }
  }

  lemma TakeMakesNoRows(s: Sys, t: Token, e: Effect, rolledBack: Phase)
    requires t in s.sessions && s.sessions[t].job in s.jobs
    ensures Take(s, t, e, rolledBack).jobs.Keys == s.jobs.Keys
  {
  }

  lemma TransactionsMakeNoRows(s: Sys, a: Action)
    requires IsTransaction(a)
    ensures Step(s, a).jobs.Keys == s.jobs.Keys
  {
    var t := a.token;
    if t in s.sessions && s.sessions[t].job in s.jobs {
      var job, phase := s.jobs[s.sessions[t].job], s.sessions[t].phase;
      if a.Begin? {
        TakeMakesNoRows(s, t, FirstTransaction(job, t, a.outcome, s.now), Failing(None));
      } else if a.Resume? && phase.InTool? {
        TakeMakesNoRows(s, t, LaterTransaction(job, t, phase, s.now), Failing(Some(phase.attempt)));
      }
    }
  }

  lemma SessionEndsMakeNoRows(s: Sys, a: Action)
    requires IsSessionEnd(a)
    ensures Step(s, a).jobs.Keys == s.jobs.Keys
  {
  }

  lemma SubmitIsTheOnlyBirth(s: Sys, a: Action, j: JobId)
    requires j !in s.jobs
    ensures j in Step(s, a).jobs ==> Step(s, a).jobs[j] == NewJob(s.now)
  {
    if IsTransaction(a) {
      TransactionsMakeNoRows(s, a);
    } else if IsSessionEnd(a) {
      SessionEndsMakeNoRows(s, a);
    }
  }

  /** No run changes the status of a job more than six times, one late write of the cancel route apart. */
  lemma AtMostSixStatusChanges(now: Time, actions: seq<Action>, j: JobId)
    ensures StatusChanges(Start(now), actions, j) <= 6 + LateWrites(Start(now), actions, j)
    ensures LateWrites(Start(now), actions, j) <= 1
  {
    StartInv(now);
    ChangesArePaidFor(Start(now), actions, j);
    AtMostOneLateWrite(Start(now), actions, j);
  }

  /**
    Stopped statuses absorb: no continuation changes tools, snapshot or token, and the
    status stays exactly as long as no late write of the cancel route makes it CANCELLED.
   */
  lemma {:induction false} StopsAbsorb(s: Sys, actions: seq<Action>, j: JobId)
    requires Inv(s) && j in s.jobs && Terminal(s.jobs[j].status)
    ensures j in Run(s, actions).jobs
    ensures var job := Run(s, actions).jobs[j];
            && job.tools == s.jobs[j].tools && job.snapshot == s.jobs[j].snapshot && job.token == s.jobs[j].token
            && job.status == (if LateWrites(s, actions, j) == 0 then s.jobs[j].status else Cancelled)
    ensures s.jobs[j].status == Cancelled ==> LateWrites(s, actions, j) == 0
    decreases |actions|
  {
    if actions != [] {
      StepKeepsInv(s, actions[0]);
      StepEvolves(s, actions[0], j);
      StopsAbsorb(Step(s, actions[0]), actions[1..], j);
    }
    AtMostOneLateWrite(s, actions, j);
  }
}
