/**
  The lifecycle of an analysis job (services/api/app/orchestration/state_machine.py):
  the transition table, its guard, and what the table implies for whole paths.
 */
module AnalysisStatus {

  import opened Wrappers

  datatype Status =
    | Received
    | UnderstandingRequest
    | Planning
    | PolicyCheck
    | RetrievingInternalSources
    | ValidatingSources
    | ExecutingTools
    | ReconcilingResults
    | GeneratingStructuredResult
    | QualityGate
    | Completed
    | NeedsClarification
    | RejectedByPolicy
    | Failed
    | Cancelled
    | Expired
    | BudgetExceeded
    | AwaitingHumanReview

  /** The states that are never left: TERMINAL_STATES. */
  predicate Terminal(s: Status) {
    s.Completed? || s.RejectedByPolicy? || s.Failed? || s.Cancelled? || s.Expired? || s.BudgetExceeded?
  }

  /** One row of the transition table; statuses without a row allow nothing. */
  function ValidTransitions(current: Status): set<Status> {
    match current
    case Received => {UnderstandingRequest, Cancelled}
    case UnderstandingRequest => {NeedsClarification, Planning, RejectedByPolicy, Failed, Cancelled}
    case NeedsClarification => {UnderstandingRequest, Expired, Cancelled, Failed}
    case Planning => {PolicyCheck, Failed, Cancelled}
    case PolicyCheck => {RetrievingInternalSources, RejectedByPolicy, Failed, Cancelled}
    case RetrievingInternalSources => {ValidatingSources, Failed, BudgetExceeded, Cancelled}
    case ValidatingSources => {ExecutingTools, NeedsClarification, Failed, Cancelled}
    case ExecutingTools => {ReconcilingResults, Failed, BudgetExceeded, Cancelled}
    case ReconcilingResults => {GeneratingStructuredResult, Failed, Cancelled}
    case GeneratingStructuredResult => {QualityGate, Failed, Cancelled}
    case QualityGate => {Completed, AwaitingHumanReview, Failed, Cancelled}
    case AwaitingHumanReview => {Completed, RejectedByPolicy, Failed, Cancelled}
    case _ => {}
  }

  datatype TransitionError = TerminalStateMutationProhibited | InvalidStateTransition

  /** The guard every status change asks for. */
  function ValidateTransition(current: Status, next: Status): Option<TransitionError> {
    if Terminal(current) then Some(TerminalStateMutationProhibited)
    else if next !in ValidTransitions(current) then Some(InvalidStateTransition)
    else None
  }

  predicate Edge(current: Status, next: Status) {
    ValidateTransition(current, next).None?
  }

  // ---------------------------------------------------------------- paths

  /** A history of statuses the guard lets through, from submission on. */
  predicate IsPath(p: seq<Status>) {
    && |p| > 0
    && p[0] == Received
    && forall i :: 0 < i < |p| ==> Edge(p[i - 1], p[i])
  }

  /** The fixed order of work between understanding a request and its quality gate. */
  const PIPELINE: seq<Status> := [
    UnderstandingRequest, Planning, PolicyCheck, RetrievingInternalSources, ValidatingSources,
    ExecutingTools, ReconcilingResults, GeneratingStructuredResult, QualityGate
  ]

  /** How many pipeline stages a path standing at `s` has behind it, its own included. */
  function Stages(s: Status): nat {
    match s
    case UnderstandingRequest => 1
    case Planning => 2
    case PolicyCheck => 3
    case RetrievingInternalSources => 4
    case ValidatingSources => 5
    case ExecutingTools => 6
    case ReconcilingResults => 7
    case GeneratingStructuredResult => 8
    case QualityGate => 9
    case _ => 0
  }

  /**
    The whole table: one stage forward; a cancellation of anything not stopped and a
    failure of anything under way; and the few edges that leave the pipeline.
   */
  lemma EdgesExactly(a: Status, b: Status)
    ensures Edge(a, b) <==>
              || (a == Received && b == UnderstandingRequest)
              || (1 <= Stages(a) < 9 && Stages(b) == Stages(a) + 1)
              || (b == Cancelled && !Terminal(a))
              || (b == Failed && !Terminal(a) && a != Received)
              || (b == NeedsClarification && (a == UnderstandingRequest || a == ValidatingSources))
              || (a == NeedsClarification && (b == UnderstandingRequest || b == Expired))
              || (b == RejectedByPolicy && (a == UnderstandingRequest || a == PolicyCheck || a == AwaitingHumanReview))
              || (b == BudgetExceeded && (a == RetrievingInternalSources || a == ExecutingTools))
              || (a == QualityGate && (b == Completed || b == AwaitingHumanReview))
              || (a == AwaitingHumanReview && b == Completed)
  {
  }

  /**
    Whatever clarification cycles came before, the last Stages(s) statuses of a
    path ending in pipeline status s are exactly the pipeline up to s.
   */
  lemma {:induction false} PipelineSuffix(p: seq<Status>)
    requires IsPath(p)
    ensures Stages(p[|p| - 1]) < |p|
    ensures p[|p| - Stages(p[|p| - 1])..] == PIPELINE[..Stages(p[|p| - 1])]
  {
    var k := Stages(p[|p| - 1]);
    if k > 1 {
      var q := p[..|p| - 1];
      assert Edge(p[|p| - 2], p[|p| - 1]);
      assert Stages(q[|q| - 1]) == k - 1;
      PipelineSuffix(q);
      assert p[|p| - k..] == q[|q| - (k - 1)..] + [PIPELINE[k - 1]];
      assert PIPELINE[..k] == PIPELINE[..k - 1] + [PIPELINE[k - 1]];
    } else if k == 1 {
      assert |p| > 1;
    }
  }

  /**
    Every arrival at COMPLETED, directly or through human review, ends with one
    uninterrupted run of the whole pipeline: in particular the policy check and
    the quality gate of that run were passed since the request was last understood.
   */
  lemma CompletionHasPassedEveryGate(p: seq<Status>) returns (u: nat)
    requires IsPath(p)
    requires p[|p| - 1] == Completed
    ensures 0 < u < |p|
    ensures p[u..] == PIPELINE + [Completed] || p[u..] == PIPELINE + [AwaitingHumanReview, Completed]
    ensures p[u] == UnderstandingRequest && UnderstandingRequest !in p[u + 1..]
  {
    var n := |p|;
    assert Edge(p[n - 2], p[n - 1]);
    var cut := if p[n - 2] == QualityGate then n - 1 else n - 2;
    if p[n - 2] != QualityGate {
      assert Edge(p[n - 3], p[n - 2]);
    }
    var q := p[..cut];
    assert q[|q| - 1] == QualityGate;
    PipelineSuffix(q);
    u := cut - 9;
    assert q[u..] == PIPELINE;
    assert p[u..] == q[u..] + p[cut..];
    assert p[u] == p[u..][0];
    assert p[u + 1..] == p[u..][1..];
  }

  /** `rounds` clarification cycles followed by one straight run to COMPLETED. */
  function CycledPath(rounds: nat): seq<Status> {
    if rounds == 0 then [Received] + PIPELINE + [Completed]
    else [Received, UnderstandingRequest, NeedsClarification] + CycledPath(rounds - 1)[1..]
  }

  /** The clarification cycle really can be taken any number of times before completion. */
  lemma {:induction false} ClarificationMayRepeat(rounds: nat)
    ensures IsPath(CycledPath(rounds))
    ensures |CycledPath(rounds)| == 11 + 2 * rounds
    ensures CycledPath(rounds)[1] == UnderstandingRequest
    ensures CycledPath(rounds)[|CycledPath(rounds)| - 1] == Completed
  {
    var p := CycledPath(rounds);
    if rounds > 0 {
      ClarificationMayRepeat(rounds - 1);
      var q := CycledPath(rounds - 1);
      forall i | 0 < i < |p| ensures Edge(p[i - 1], p[i]) {
        if i > 3 {
          assert p[i] == q[i - 2] && p[i - 1] == q[i - 3];
        }
      }
    }
  }
}
