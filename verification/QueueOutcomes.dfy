/**
  What the other writers of a job row do to it, column by column: claim, recovery and
  renewal, the clarification service and the cancel route.
 */
module QueueOutcomes {

  import opened Wrappers
  import opened AnalysisStatus
  import opened ToolDedup
  import opened ClaimProtocol
  import opened ClaimInvariants

  // ------------------------------------------------------ claim, recovery, renewal

  /** Received and never touched by a worker. */
  predicate Unclaimed(job: Job) {
    job.status == Received && job.token == None && job.lockedBy == None && job.lease == None
  }

  /** j comes before k when it is older, ties broken by identifier. */
  predicate Older(s: Sys, j: JobId, k: JobId)
    requires j in s.jobs && k in s.jobs
  {
    s.jobs[j].createdAt < s.jobs[k].createdAt || (s.jobs[j].createdAt == s.jobs[k].createdAt && j <= k)
  }

  ghost predicate OldestUnclaimed(s: Sys, lockedRows: set<JobId>, j: JobId) {
    && j in s.jobs && j !in lockedRows && Unclaimed(s.jobs[j])
    && forall k :: k in s.jobs && k !in lockedRows && Unclaimed(s.jobs[k]) ==> Older(s, j, k)
  }

  /** A claim takes effect exactly on the oldest job never claimed among the rows not locked. */
  lemma ClaimOutcome(s: Sys, w: Worker, lockedRows: set<JobId>, j: JobId, t: Token)
    ensures var s' := Step(s, Claim(w, lockedRows, j, t));
            if ValidWorker(w) && t !in s.sessions && OldestUnclaimed(s, lockedRows, j) then
              s' == Sys(s.now,
                        s.jobs[j := s.jobs[j].(lockedBy := Some(w), token := Some(t), lease := Some(s.now + 900))],
                        s.sessions[t := Session(j, w, Claimed)], s.cancels)
            else s' == s
  {
    FreshIsUnclaimed(s, lockedRows, j);
  }

  lemma FreshIsUnclaimed(s: Sys, lockedRows: set<JobId>, j: JobId)
    ensures NextFresh(s, lockedRows, j) <==> OldestUnclaimed(s, lockedRows, j)
  {
    if NextFresh(s, lockedRows, j) {
      forall k | k in s.jobs && k !in lockedRows && Unclaimed(s.jobs[k]) ensures Older(s, j, k) {
        assert Fresh(s.jobs[k]);
      }
    }
    if OldestUnclaimed(s, lockedRows, j) {
      forall k | k in s.jobs && k !in lockedRows && Fresh(s.jobs[k]) ensures CreatedBefore(s.jobs[j], j, s.jobs[k], k) {
        assert Unclaimed(s.jobs[k]);
      }
    }
  }

  /** Claimed, not yet in its tools, the lease run out, and never recovered. */
  predicate Abandoned(job: Job, now: Time) {
    && (job.status == Received || job.status == UnderstandingRequest || job.status == Planning || job.status == PolicyCheck
        || job.status == RetrievingInternalSources || job.status == ValidatingSources)
    && job.token != None && job.recoveryCount == 0
    && job.lease.Some? && job.lease.value < now
  }

  predicate Overdue(s: Sys, j: JobId, k: JobId)
    requires j in s.jobs && k in s.jobs && s.jobs[j].lease.Some? && s.jobs[k].lease.Some?
  {
    s.jobs[j].lease.value < s.jobs[k].lease.value || (s.jobs[j].lease.value == s.jobs[k].lease.value && Older(s, j, k))
  }

  ghost predicate LongestAbandoned(s: Sys, lockedRows: set<JobId>, j: JobId) {
    && j in s.jobs && j !in lockedRows && Abandoned(s.jobs[j], s.now)
    && forall k :: k in s.jobs && k !in lockedRows && Abandoned(s.jobs[k], s.now) ==> Overdue(s, j, k)
  }

  lemma StaleIsAbandoned(s: Sys, lockedRows: set<JobId>, j: JobId)
    ensures NextStale(s, lockedRows, j) <==> LongestAbandoned(s, lockedRows, j)
  {
    if NextStale(s, lockedRows, j) {
      forall k | k in s.jobs && k !in lockedRows && Abandoned(s.jobs[k], s.now) ensures Overdue(s, j, k) {
        assert Stale(s.jobs[k], s.now);
      }
    }
    if LongestAbandoned(s, lockedRows, j) {
      forall k | k in s.jobs && k !in lockedRows && Stale(s.jobs[k], s.now) ensures ExpiredBefore(s.jobs[j], j, s.jobs[k], k) {
        assert Abandoned(s.jobs[k], s.now);
      }
    }
  }

  /** A recovery takes effect exactly on the job whose lease ran out first; its running attempts are abandoned. */
  lemma RecoverOutcome(s: Sys, w: Worker, lockedRows: set<JobId>, j: JobId, t: Token)
    ensures var s' := Step(s, Recover(w, lockedRows, j, t));
            if ValidWorker(w) && t !in s.sessions && LongestAbandoned(s, lockedRows, j) then
              && j in s'.jobs
              && s' == Sys(s.now,
                           s.jobs[j := s.jobs[j].(status := Received, lockedBy := Some(w), token := Some(t), lease := Some(s.now + 900),
                                                  recoveryCount := 1, attempts := s'.jobs[j].attempts)],
                           s.sessions[t := Session(j, w, Claimed)], s.cancels)
              && |s'.jobs[j].attempts| == |s.jobs[j].attempts|
              && forall i :: 0 <= i < |s.jobs[j].attempts| ==>
                   s'.jobs[j].attempts[i] ==
                   if s.jobs[j].attempts[i].status == AttemptRunning then Attempt(s.jobs[j].attempts[i].number, AttemptAbandoned)
                   else s.jobs[j].attempts[i]
            else s' == s
  {
    StaleIsAbandoned(s, lockedRows, j);
  }

  /** A renewal sets the lease of a job whose current holder asks, in a status under way, and nothing else. */
  lemma RenewOutcome(s: Sys, j: JobId, t: Token, w: Worker)
    ensures var s' := Step(s, Renew(j, t, w));
            if ValidWorker(w) && j in s.jobs && s.jobs[j].token == Some(t) && s.jobs[j].lockedBy == Some(w) && Active(s.jobs[j].status)
            then s' == s.(jobs := s.jobs[j := s.jobs[j].(lease := Some(s.now + 900))])
            else s' == s
  {
  }

  lemma ActiveExactly(status: Status)
    ensures Active(status) <==> status == Received || 1 <= Stages(status) <= 9
  {
  }

  // ------------------------------------------------------------ clarifications

  predicate Waiting(job: Job, c: nat) {
    c < |job.clarifications| && job.clarifications[c].status == Awaiting
  }

  function Stamped(job: Job, c: nat, status: ClarificationStatus): seq<Clarification>
    requires c < |job.clarifications|
  {
    job.clarifications[c := Clarification(status, job.clarifications[c].expiresAt, job.clarifications[c].attemptNumber)]
  }

  function RowAfter(s: Sys, a: Action, j: JobId): Option<Job> {
    if j in Step(s, a).jobs then Some(Step(s, a).jobs[j]) else None
  }

  /**
    An answer in time: the clarification ANSWERED, the job UNDERSTANDING_REQUEST again
    with one more attempt in progress. Too late: both EXPIRED. Else nothing happens.
   */
  lemma RespondOutcome(s: Sys, j: JobId, c: nat)
    requires Inv(s) && j in s.jobs
    ensures var job := s.jobs[j];
            RowAfter(s, Respond(j, c), j) == Some(
              if job.status != NeedsClarification || !Waiting(job, c) then job
              else if s.now <= job.clarifications[c].expiresAt then
                job.(status := UnderstandingRequest, clarifications := Stamped(job, c, Answered),
                     attempts := job.attempts + [Attempt(|job.attempts| + 1, AttemptInProgress)])
              else job.(status := Expired, clarifications := Stamped(job, c, ClarificationExpired)))
  {
    RowHolds(s, j);
    AnsweredRow(s.jobs[j], c, s.now);
  }

  lemma RowHolds(s: Sys, j: JobId)
    requires Inv(s) && j in s.jobs
    ensures AttemptsOk(s.jobs[j].attempts) && ClarificationsOk(s.jobs[j])
  {
    assert JobOk(j, s.jobs[j], s.sessions);
  }

  lemma AnsweredRow(job: Job, c: nat, now: Time)
    requires AttemptsOk(job.attempts) && ClarificationsOk(job)
    ensures RespondJob(job, c, now) ==
            if job.status != NeedsClarification || !Waiting(job, c) then job
            else if now <= job.clarifications[c].expiresAt then
              job.(status := UnderstandingRequest, clarifications := Stamped(job, c, Answered),
                   attempts := job.attempts + [Attempt(|job.attempts| + 1, AttemptInProgress)])
            else job.(status := Expired, clarifications := Stamped(job, c, ClarificationExpired))
  {
    if job.status == NeedsClarification && Waiting(job, c) {
      assert job.clarifications[c].attemptNumber == |job.attempts|;
      assert !NumberTaken(job.attempts, |job.attempts| + 1);
    }
  }

  /** A clarification past its time is EXPIRED, and so is its job unless it has stopped. */
  lemma ExpireOutcome(s: Sys, j: JobId, c: nat)
    requires Inv(s) && j in s.jobs
    ensures var job := s.jobs[j];
            RowAfter(s, ExpireDue(j, c), j) == Some(
              if !Waiting(job, c) || s.now < job.clarifications[c].expiresAt then job
              else job.(status := if Terminal(job.status) then job.status else Expired,
                        clarifications := Stamped(job, c, ClarificationExpired)))
  {
    RowHolds(s, j);
    ExpiredRow(s.jobs[j], c, s.now);
  }

  lemma ExpiredRow(job: Job, c: nat, now: Time)
    requires ClarificationsOk(job)
    ensures ExpireJob(job, c, now) ==
            if !Waiting(job, c) || now < job.clarifications[c].expiresAt then job
            else job.(status := if Terminal(job.status) then job.status else Expired,
                      clarifications := Stamped(job, c, ClarificationExpired))
  {
  }

  /** A cancellation through a clarification not yet answered or expired cancels both, unless the job has stopped. */
  lemma CancelOutcome(s: Sys, j: JobId, c: nat)
    requires j in s.jobs
    ensures var job := s.jobs[j];
            RowAfter(s, CancelClarification(j, c), j) == Some(
              if Terminal(job.status) || c >= |job.clarifications| || job.clarifications[c].status == Answered
                 || job.clarifications[c].status == ClarificationExpired then job
              else job.(status := Cancelled, clarifications := Stamped(job, c, ClarificationCancelled)))
  {
    EdgesExactly(s.jobs[j].status, Cancelled);
  }

  /** The cancel route: the check passes for a job that has not stopped, the write sets the status and nothing else. */
  lemma CancelRouteOutcome(s: Sys, r: RequestId, j: JobId)
    ensures Step(s, ReadForCancel(r, j)) ==
            if r !in s.cancels && j in s.jobs && !Terminal(s.jobs[j].status) then s.(cancels := s.cancels[r := j]) else s
    ensures Step(s, WriteCancelled(r)) ==
            if r in s.cancels && s.cancels[r] in s.jobs then
              s.(jobs := s.jobs[s.cancels[r] := s.jobs[s.cancels[r]].(status := Cancelled)], cancels := s.cancels - {r})
            else s
  {
    if j in s.jobs {
      EdgesExactly(s.jobs[j].status, Cancelled);
    }
  }
}
