/**
  What the attempt limit of ingestion counts: the claims whose holder recorded an
  attempt, and not the claims whose holder was lost before it did.
 */
module IngestionLosses {

  import opened Wrappers
  import opened Ingestion
  import CommandEnvelope

  /** The tokens ever issued for job j. */
  function TokensOf(s: Sys, j: JobId): set<Token> {
    set t | t in s.sessions && s.sessions[t].job == j
  }

  /** The tokens under which an attempt was recorded. */
  function Writers(attempts: seq<AttemptRow>): set<Token> {
    if attempts == [] then {} else Writers(attempts[..|attempts| - 1]) + {attempts[|attempts| - 1].writer}
  }

  /** The tokens of a job under which no attempt was recorded. */
  function Unrecorded(s: Sys, j: JobId): set<Token>
    requires j in s.jobs
  {
    TokensOf(s, j) - Writers(s.jobs[j].attempts)
  }

  // -------------------------------------------------------------- the invariant

  /** Every attempt was recorded by an ended session of the job, each session at most once. */
  predicate WritersOk(attempts: seq<AttemptRow>, j: JobId, sessions: map<Token, Session>) {
    && (forall i :: 0 <= i < |attempts| ==>
          attempts[i].writer in sessions && sessions[attempts[i].writer].job == j && sessions[attempts[i].writer].phase == Over)
    && forall i, k :: 0 <= i < k < |attempts| ==> attempts[i].writer != attempts[k].writer
  }

  predicate JobLedger(s: Sys, j: JobId)
    requires j in s.jobs
  {
    |TokensOf(s, j)| == s.jobs[j].claims && WritersOk(s.jobs[j].attempts, j, s.sessions)
  }

  ghost predicate Ledger(s: Sys) {
    forall j :: j in s.jobs ==> JobLedger(s, j)
  }

  /** The same tokens for the same jobs; ended sessions stay ended. */
  predicate Follows(a: map<Token, Session>, b: map<Token, Session>) {
    && a.Keys == b.Keys
    && forall u :: u in a ==> b[u].job == a[u].job && (a[u].phase == Over ==> b[u].phase == Over)
  }

  lemma LedgerFollows(s: Sys, s': Sys, j: JobId)
    requires j in s.jobs && JobLedger(s, j) && Follows(s.sessions, s'.sessions)
    requires j in s'.jobs && s'.jobs[j].attempts == s.jobs[j].attempts && s'.jobs[j].claims == s.jobs[j].claims
    ensures JobLedger(s', j)
  {
    assert TokensOf(s', j) == TokensOf(s, j);
  }

  /** One row written by session t, which has ended with it and had recorded nothing before. */
  lemma RecordingKeepsLedger(s: Sys, s': Sys, j: JobId, t: Token)
    requires j in s.jobs && JobLedger(s, j) && Follows(s.sessions, s'.sessions)
    requires t in s.sessions && s.sessions[t].job == j && s.sessions[t].phase != Over && s'.sessions[t].phase == Over
    requires j in s'.jobs && s'.jobs[j].claims == s.jobs[j].claims
    requires |s'.jobs[j].attempts| == |s.jobs[j].attempts| + 1 && s.jobs[j].attempts <= s'.jobs[j].attempts
    requires s'.jobs[j].attempts[|s.jobs[j].attempts|].writer == t
    ensures JobLedger(s', j)
  {
    assert TokensOf(s', j) == TokensOf(s, j);
    var a, b := s.jobs[j].attempts, s'.jobs[j].attempts;
    assert forall i :: 0 <= i < |a| ==> b[i] == a[i];
  }

  lemma IssuingKeepsLedger(s: Sys, s': Sys, j: JobId, token: Token, se: Session)
    requires j in s.jobs && JobLedger(s, j) && token !in s.sessions && s'.sessions == s.sessions[token := se]
    requires j in s'.jobs && s'.jobs[j].attempts == s.jobs[j].attempts
    requires s'.jobs[j].claims == s.jobs[j].claims + if se.job == j then 1 else 0
    ensures JobLedger(s', j)
  {
    assert TokensOf(s', j) == TokensOf(s, j) + (if se.job == j then {token} else {});
    assert token !in TokensOf(s, j);
  }

  lemma DeliveryKeepsLedger(s: Sys, e: CommandEnvelope.Envelope, verdict: Option<CommandEnvelope.EnvelopeError>,
                            worker: Worker, token: Token, rowLocked: bool, j: JobId)
    requires j in s.jobs && JobLedger(s, j)
    ensures var s' := StepDeliver(s, e, verdict, worker, token, rowLocked); j in s'.jobs && JobLedger(s', j)
  {
    var s' := StepDeliver(s, e, verdict, worker, token, rowLocked);
    if s' != s {
      IssuingKeepsLedger(s, s', j, token, Session(e.jobId, worker, Claimed));
    }
  }

  lemma ProcessKeepsLedger(s: Sys, t: Token, rowLocked: bool, outcome: Outcome, j: JobId)
    requires j in s.jobs && JobLedger(s, j)
    ensures var s' := StepProcess(s, t, rowLocked, outcome); j in s'.jobs && JobLedger(s', j)
  {
    var s' := StepProcess(s, t, rowLocked, outcome);
    assert Follows(s.sessions, s'.sessions);
    if s'.jobs[j].attempts == s.jobs[j].attempts {
      LedgerFollows(s, s', j);
    } else {
      RecordingKeepsLedger(s, s', j, t);
    }
  }

  lemma FailureKeepsLedger(s: Sys, t: Token, j: JobId)
    requires j in s.jobs && JobLedger(s, j)
    ensures var s' := StepRecordFailure(s, t); j in s'.jobs && JobLedger(s', j)
  {
    var s' := StepRecordFailure(s, t);
    assert Follows(s.sessions, s'.sessions);
    if s'.jobs[j].attempts == s.jobs[j].attempts {
      LedgerFollows(s, s', j);
    } else {
      RecordingKeepsLedger(s, s', j, t);
    }
  }

  lemma EnqueueKeepsLedger(s: Sys, k: JobId, org: Org, max: nat, j: JobId)
    requires Inv(s) && j in StepEnqueue(s, k, org, max).jobs && (j in s.jobs ==> JobLedger(s, j))
    ensures JobLedger(StepEnqueue(s, k, org, max), j)
  {
    if j in s.jobs {
      LedgerFollows(s, StepEnqueue(s, k, org, max), j);
    } else {
      forall t | t in s.sessions ensures s.sessions[t].job != j {
        assert SessionOk(t, s.sessions[t], s.jobs);
      }
      assert TokensOf(StepEnqueue(s, k, org, max), j) == {};
    }
  }

  lemma CrashKeepsLedger(s: Sys, t: Token, j: JobId)
    requires j in s.jobs && JobLedger(s, j)
    ensures var s' := Step(s, Crash(t)); j in s'.jobs && JobLedger(s', j)
  {
    LedgerFollows(s, Step(s, Crash(t)), j);
  }

  lemma StepKeepsJobLedger(s: Sys, a: Action, j: JobId)
    requires j in s.jobs && JobLedger(s, j) && !a.Enqueue?
    ensures var s' := Step(s, a); j in s'.jobs && JobLedger(s', j)
  {
    match a
    case Tick(_) => LedgerFollows(s, Step(s, a), j);
    case Deliver(e, verdict, w, t, rowLocked) => DeliveryKeepsLedger(s, e, verdict, w, t, rowLocked, j);
    case Process(t, rowLocked, outcome) => ProcessKeepsLedger(s, t, rowLocked, outcome, j);
    case RecordFailure(t) => FailureKeepsLedger(s, t, j);
    case Crash(t) => CrashKeepsLedger(s, t, j);
  }

  lemma OnlyEnqueueMakesJobs(s: Sys, a: Action)
    requires !a.Enqueue?
    ensures Step(s, a).jobs.Keys == s.jobs.Keys
  {
  }

  lemma StepKeepsLedger(s: Sys, a: Action)
    requires Inv(s) && Ledger(s)
    ensures Ledger(Step(s, a))
  {
    forall j | j in Step(s, a).jobs ensures JobLedger(Step(s, a), j) {
      if a.Enqueue? {
        EnqueueKeepsLedger(s, a.job, a.org, a.max, j);
      } else {
        OnlyEnqueueMakesJobs(s, a);
        StepKeepsJobLedger(s, a, j);
      }
    }
  }

  lemma {:induction false} RunKeepsLedger(s: Sys, actions: seq<Action>)
    requires Inv(s) && Ledger(s)
    ensures Inv(Run(s, actions)) && Ledger(Run(s, actions))
    decreases |actions|
  {
    if actions != [] {
      StepKeepsInv(s, actions[0]);
      StepKeepsLedger(s, actions[0]);
      RunKeepsLedger(Step(s, actions[0]), actions[1..]);
    }
  }

  lemma {:induction false} WritersCount(attempts: seq<AttemptRow>, j: JobId, sessions: map<Token, Session>)
    requires WritersOk(attempts, j, sessions)
    ensures |Writers(attempts)| == |attempts|
    ensures forall t :: t in Writers(attempts) <==> exists i :: 0 <= i < |attempts| && attempts[i].writer == t
  {
    if attempts != [] {
      var init, last := attempts[..|attempts| - 1], attempts[|attempts| - 1];
      assert forall i :: 0 <= i < |init| ==> init[i] == attempts[i];
      WritersCount(init, j, sessions);
      assert last.writer !in Writers(init);
      forall t | exists i :: 0 <= i < |attempts| && attempts[i].writer == t ensures t in Writers(attempts) {
        var i :| 0 <= i < |attempts| && attempts[i].writer == t;
        if i < |init| { assert init[i].writer == t; }
      }
    }
  }

  // ------------------------------------------------------------------ theorems

  /**
    In every run a job was claimed once for each recorded attempt and once for each token
    that recorded none, so claims stay within the maximum exactly while no more tokens
    went without an attempt than attempts are left.
   */
  lemma ClaimsAreAttemptsAndLosses(now: Time, actions: seq<Action>, j: JobId)
    requires j in Run(Start(now), actions).jobs
    ensures var s := Run(Start(now), actions);
            var job := s.jobs[j];
            && job.claims == job.current + |Unrecorded(s, j)|
            && (job.claims <= job.max <==> |Unrecorded(s, j)| <= job.max - job.current)
  {
    RunKeepsLedger(Start(now), actions);
    var s := Run(Start(now), actions);
    var writers := Writers(s.jobs[j].attempts);
    assert JobLedger(s, j) && JobOk(s.jobs[j]);
    WritersCount(s.jobs[j].attempts, j, s.sessions);
    assert writers <= TokensOf(s, j);
    assert TokensOf(s, j) == writers + Unrecorded(s, j);
  }

  // ----------------------------------------- any number of losses, with real commands

  const KEY_ID := "key-v1"

  /** When the n-th command is delivered, in microseconds of the run's clock. */
  function SentAt(n: nat): CommandEnvelope.Micros {
    1_000_000 * (901 * n)
  }

  /** The n-th command, signed with the secret of its key. */
  function Command(n: nat, resolver: string -> string, pf: CommandEnvelope.Platform): CommandEnvelope.Envelope
    requires resolver(KEY_ID) != ""
  {
    CommandEnvelope.WithSignature(
      CommandEnvelope.Envelope(0, n, CommandEnvelope.COMMAND_TYPE, SentAt(n), SentAt(n) + 900_000_000,
                               seq(n, i => 'k'), CommandEnvelope.SCHEMA_VERSION, KEY_ID, ""),
      resolver(KEY_ID), pf).value
  }

  lemma CommandAccepted(n: nat, resolver: string -> string, pf: CommandEnvelope.Platform)
    requires resolver(KEY_ID) != ""
    ensures CommandEnvelope.ValidateEnvelope(Command(n, resolver, pf), SentAt(n), resolver, pf).None?
    ensures Command(n, resolver, pf).jobId == 0 && Command(n, resolver, pf).commandId == n
    ensures Command(n, resolver, pf).idempotencyKey == seq(n, i => 'k')
  {
    CommandEnvelope.SignedEnvelopeAcceptedExactly(
      CommandEnvelope.Envelope(0, n, CommandEnvelope.COMMAND_TYPE, SentAt(n), SentAt(n) + 900_000_000,
                               seq(n, i => 'k'), CommandEnvelope.SCHEMA_VERSION, KEY_ID, ""),
      SentAt(n), resolver, pf);
  }

  /** Deliver what the validator says of the command at that moment, lose the holder, wait until the claim is stale. */
  function LossRound(n: nat, resolver: string -> string, pf: CommandEnvelope.Platform): seq<Action>
    requires resolver(KEY_ID) != ""
  {
    var e := Command(n, resolver, pf);
    [Deliver(e, CommandEnvelope.ValidateEnvelope(e, SentAt(n), resolver, pf), "w", n, false), Crash(n), Tick(901)]
  }

  function LossRounds(n: nat, resolver: string -> string, pf: CommandEnvelope.Platform): seq<Action>
    requires resolver(KEY_ID) != ""
  {
    if n == 0 then [Enqueue(0, 0, 1)] else LossRounds(n - 1, resolver, pf) + LossRound(n - 1, resolver, pf)
  }

  /** Claimed n times with a limit of one attempt, each holder lost before it recorded anything. */
  predicate LostTimes(s: Sys, n: nat) {
    && 1_000_000 * s.now == SentAt(n)
    && s.jobs.Keys == {0} && s.jobs[0].status == (if n == 0 then Queued else Parsing)
    && s.jobs[0].claims == n && s.jobs[0].current == 0 && s.jobs[0].max == 1 && s.jobs[0].org == 0
    && (n > 0 ==> s.jobs[0].lockedAt.Some? && s.jobs[0].lockedAt.value < s.now - RECLAIM_SECONDS)
    && (forall t :: t in s.sessions ==> t < n)
    && |s.logs| == n && forall i :: 0 <= i < n ==> s.logs[i] == LogRow(i, 0, 0, seq(i, k => 'k'))
  }

  lemma {:induction false} RunConcat(s: Sys, a: seq<Action>, b: seq<Action>)
    ensures Run(s, a + b) == Run(Run(s, a), b)
    decreases |a|
  {
    if a == [] {
      assert a + b == b;
    } else {
      assert (a + b)[1..] == a[1..] + b;
      RunConcat(Step(s, a[0]), a[1..], b);
    }
  }

  lemma NotReplayed(s: Sys, n: nat)
    requires LostTimes(s, n)
    ensures !Replayed(s.logs, LogRow(n, 0, 0, seq(n, k => 'k')))
  {
    forall i | 0 <= i < |s.logs| ensures s.logs[i].key != seq(n, k => 'k') {
      assert |s.logs[i].key| == i;
    }
  }

  lemma LossRoundCounts(s: Sys, n: nat, resolver: string -> string, pf: CommandEnvelope.Platform)
    requires LostTimes(s, n) && resolver(KEY_ID) != ""
    ensures LostTimes(Run(s, LossRound(n, resolver, pf)), n + 1)
  {
    var r := LossRound(n, resolver, pf);
    CommandAccepted(n, resolver, pf);
    NotReplayed(s, n);
    var s1 := Step(s, r[0]);
    var s2 := Step(s1, r[1]);
    var s3 := Step(s2, r[2]);
    assert r[1..] == [r[1], r[2]] && [r[1], r[2]][1..] == [r[2]];
    assert Run(s2, [r[2]]) == Run(s3, []);
    assert Run(s1, [r[1], r[2]]) == Run(s2, [r[2]]);
    assert Run(s, r) == s3;
  }

  /**
    However often the worker is lost while it holds the job, no attempt is counted and the
    job stays claimable: for every n, n accepted commands claim a job of one attempt n times.
   */
  lemma {:induction false} LossesAreNotCounted(n: nat, resolver: string -> string, pf: CommandEnvelope.Platform)
    requires resolver(KEY_ID) != ""
    ensures LostTimes(Run(Start(0), LossRounds(n, resolver, pf)), n)
    ensures forall i: nat :: i < n ==>
              CommandEnvelope.ValidateEnvelope(Command(i, resolver, pf), SentAt(i), resolver, pf).None?
  {
    if n == 0 {
      assert LossRounds(0, resolver, pf)[1..] == [];
      assert Run(Start(0), LossRounds(0, resolver, pf)) == Step(Start(0), Enqueue(0, 0, 1));
    } else {
      LossesAreNotCounted(n - 1, resolver, pf);
      RunConcat(Start(0), LossRounds(n - 1, resolver, pf), LossRound(n - 1, resolver, pf));
      LossRoundCounts(Run(Start(0), LossRounds(n - 1, resolver, pf)), n - 1, resolver, pf);
      CommandAccepted(n - 1, resolver, pf);
    }
  }
}
