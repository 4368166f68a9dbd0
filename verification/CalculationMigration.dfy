/**
  Migrations 014 and 015 over an arbitrary calculations table: the backfill of
  requests and attempts, the preflight that follows it, the rewriting of hashes and
  the constraints added at the end.

  SHA-256, MD5 and the text of UUIDs are parameters.
 */
module CalculationMigration {

  import opened Wrappers

  type Uuid = nat
  type Hash = string
  type Time = int

  /** PENDING is the only other status the attempts table accepts in 014. */
  datatype CalcStatus = Completed | Failed | Pending | OtherStatus(name: string)

  /** The columns a request is identified by. */
  datatype Identity = Identity(org: Uuid, formulaCode: string, formulaVersion: string, institution: Uuid,
                               period: Uuid, comparison: Option<Uuid>)

  /** `reconciled`: the migrating role sees a row of calculation_reconciliations that belongs to it. */
  datatype Calculation = Calculation(
    id: Uuid, identity: Identity, requestedBy: Uuid, status: CalcStatus,
    idempotencyHash: Hash, implementationChecksum: Hash, specChecksum: Option<Hash>,
    errorCode: Option<string>, completedAt: Option<Time>, createdAt: Time,
    reconciled: bool, request: Option<Uuid>, attempt: Option<Uuid>)

  datatype Request = Request(id: Uuid, identity: Identity, fingerprint: Hash, requestedBy: Uuid, createdAt: Time)

  datatype Attempt = Attempt(
    id: Uuid, org: Uuid, request: Uuid, number: nat, executionHash: Option<Hash>, status: CalcStatus,
    errorCode: Option<string>, specChecksum: Option<Hash>, implementationChecksum: Option<Hash>,
    completedAt: Option<Time>, createdAt: Time)

  /** `nextId` is where generated identifiers continue; they are never used twice. */
  datatype Tables = Tables(calculations: seq<Calculation>, requests: seq<Request>, attempts: seq<Attempt>, nextId: Uuid)

  datatype Platform = Platform(sha256: string -> Hash, md5: string -> string, idText: Uuid -> string)

  datatype MigrationError =
    | LineageImmutable
    | AttemptStatusInvalid
    | OrphanCalculations
    | NonCompletedCalculations
    | RowCountMismatch
    | DuplicateIdempotencyHash
    | AttemptConstraintViolated
    | CalculationConstraintViolated

  // ------------------------------------------------------------- 014, one row

  function FormulaText(i: Identity): string {
    i.formulaCode + i.formulaVersion
  }

  /** The identifying columns one after another, with nothing in between. */
  function FingerprintText(i: Identity, pf: Platform): string {
    pf.idText(i.org) + FormulaText(i) + pf.idText(i.institution) + pf.idText(i.period)
    + if i.comparison.Some? then pf.idText(i.comparison.value) else ""
  }

  function Fingerprint(i: Identity, pf: Platform): Hash {
    pf.sha256(FingerprintText(i, pf))
  }

  function FindRequest(requests: seq<Request>, org: Uuid, fingerprint: Hash): (r: Option<Uuid>)
    ensures r.Some? ==> exists i :: 0 <= i < |requests| && requests[i].id == r.value
                                    && requests[i].identity.org == org && requests[i].fingerprint == fingerprint
    ensures r.None? ==> forall i :: 0 <= i < |requests| ==>
                          requests[i].identity.org != org || requests[i].fingerprint != fingerprint
  {
    if requests == [] then None
    else
      var last := requests[|requests| - 1];
      if last.identity.org == org && last.fingerprint == fingerprint then Some(last.id)
      else
        var r := FindRequest(requests[..|requests| - 1], org, fingerprint);
        assert forall i :: 0 <= i < |requests| - 1 ==> requests[..|requests| - 1][i] == requests[i];
        r
  }

  /** COALESCE(MAX(attempt_number), 0) of one request. */
  function MaxNumber(attempts: seq<Attempt>, org: Uuid, request: Uuid): nat {
    if attempts == [] then 0
    else
      var rest := MaxNumber(attempts[..|attempts| - 1], org, request);
      var last := attempts[|attempts| - 1];
      if last.org == org && last.request == request && last.number > rest then last.number else rest
  }

  function RequestOf(c: Calculation, id: Uuid, pf: Platform): Request {
    Request(id, c.identity, Fingerprint(c.identity, pf), c.requestedBy, c.createdAt)
  }

  function AttemptOf(c: Calculation, id: Uuid, request: Uuid, number: nat): Attempt {
    var done := c.status.Completed?;
    Attempt(id, c.identity.org, request, number,
      if done then Some(c.idempotencyHash) else None,
      c.status,
      if done then None else Some(if c.errorCode.Some? then c.errorCode.value else "CALCULATION_INTERNAL_ERROR"),
      if done then c.specChecksum else None,
      if done then Some(c.implementationChecksum) else None,
      c.completedAt, c.createdAt)
  }

  /** One turn of the backfill loop, for the calculation at position i. */
  function BackfillRow(t: Tables, i: nat, pf: Platform): Tables
    requires i < |t.calculations|
  {
    var c := t.calculations[i];
    var found := FindRequest(t.requests, c.identity.org, Fingerprint(c.identity, pf));
    var request := if found.Some? then found.value else t.nextId;
    var requests := if found.Some? then t.requests else t.requests + [RequestOf(c, request, pf)];
    var attempt := if found.Some? then t.nextId else t.nextId + 1;
    var number := MaxNumber(t.attempts, c.identity.org, request) + 1;
    Tables(t.calculations[i := c.(request := Some(request), attempt := Some(attempt))],
           requests, t.attempts + [AttemptOf(c, attempt, request, number)], attempt + 1)
  }

  function Fresh(calculations: seq<Calculation>): Tables {
    Tables(calculations, [], [], 0)
  }

  /** The tables after the first n turns. */
  function Backfill(calculations: seq<Calculation>, n: nat, pf: Platform): (t: Tables)
    requires n <= |calculations|
    ensures |t.calculations| == |calculations|
  {
    if n == 0 then Fresh(calculations) else BackfillRow(Backfill(calculations, n - 1, pf), n - 1, pf)
  }

  function OnlyCompleted(calculations: seq<Calculation>): (r: seq<Calculation>)
    ensures forall i :: 0 <= i < |r| ==> r[i] in calculations && r[i].status.Completed?
  {
    if calculations == [] then []
    else
      var rest := OnlyCompleted(calculations[..|calculations| - 1]);
      if calculations[|calculations| - 1].status.Completed? then rest + [calculations[|calculations| - 1]] else rest
  }

  predicate Acceptable014(c: Calculation) {
    !c.status.OtherStatus?
  }

  predicate AcceptableUpTo(calculations: seq<Calculation>, n: nat)
    requires n <= |calculations|
  {
    forall i :: 0 <= i < n ==> Acceptable014(calculations[i])
  }

  lemma AcceptableExtends(calculations: seq<Calculation>, n: nat)
    requires n < |calculations| && AcceptableUpTo(calculations, n) && Acceptable014(calculations[n])
    ensures AcceptableUpTo(calculations, n + 1)
  {
  }

  /** 013's trigger lets no lineage row under such a calculation be updated. */
  predicate LineageLocked(c: Calculation) {
    c.reconciled && CompletedOrFailed(c)
  }

  predicate NoneLocked(calculations: seq<Calculation>) {
    forall i :: 0 <= i < |calculations| ==> !LineageLocked(calculations[i])
  }

  /** Updates every reconciliation, then fills in requests and attempts. */
  function Upgrade014(calculations: seq<Calculation>, pf: Platform): Result<Tables, MigrationError> {
    if !NoneLocked(calculations) then Err(LineageImmutable)
    else if !AcceptableUpTo(calculations, |calculations|) then Err(AttemptStatusInvalid)
    else
      var t := Backfill(calculations, |calculations|, pf);
      Ok(t.(calculations := OnlyCompleted(t.calculations)))
  }

  // -------------------------------------------------------------------- 015

  predicate IsHexDigit(ch: char) {
    '0' <= ch <= '9' || 'a' <= ch <= 'f'
  }

  predicate IsHex(s: string) {
    forall i :: 0 <= i < |s| ==> IsHexDigit(s[i])
  }

  predicate IsHex64(s: string) {
    |s| == 64 && IsHex(s)
  }

  /** What MD5 is known to produce. */
  ghost predicate Md5Shape(pf: Platform) {
    forall s :: |pf.md5(s)| == 32 && IsHex(pf.md5(s))
  }

  function Repair(h: Option<Hash>, id: Uuid, pf: Platform): Hash {
    if h.Some? && IsHex64(h.value) then h.value
    else
      var seed := if h.Some? then h.value else pf.idText(id);
      pf.md5(seed) + pf.md5(seed)
  }

  function Coalesce(a: Option<Time>, b: Time): Option<Time> {
    if a.Some? then a else Some(b)
  }

  function RepairAttempt(a: Attempt, pf: Platform): Attempt {
    if a.status.Completed? then
      a.(executionHash := Some(Repair(a.executionHash, a.id, pf)),
         specChecksum := Some(Repair(a.specChecksum, a.id, pf)),
         implementationChecksum := Some(Repair(a.implementationChecksum, a.id, pf)),
         completedAt := Coalesce(a.completedAt, a.createdAt))
    else if a.status.Failed? then
      a.(errorCode := if a.errorCode.Some? then a.errorCode else Some("CALCULATION_FAILED"),
         completedAt := Coalesce(a.completedAt, a.createdAt))
    else a
  }

  function RepairCalculation(c: Calculation, pf: Platform): Calculation {
    c.(idempotencyHash := Repair(Some(c.idempotencyHash), c.id, pf),
       implementationChecksum := Repair(Some(c.implementationChecksum), c.id, pf))
  }

  function RepairAttempts(attempts: seq<Attempt>, pf: Platform): seq<Attempt> {
    seq(|attempts|, i requires 0 <= i < |attempts| => RepairAttempt(attempts[i], pf))
  }

  function RepairCalculations(calculations: seq<Calculation>, pf: Platform): seq<Calculation> {
    seq(|calculations|, i requires 0 <= i < |calculations| => RepairCalculation(calculations[i], pf))
  }

  predicate HexOrNull(h: Option<Hash>) {
    h.Some? ==> IsHex64(h.value)
  }

  /** The CHECK constraints 015 puts on calculation_attempts. */
  predicate AttemptOk(a: Attempt) {
    && !a.status.OtherStatus?
    && (a.status.Completed? ==> a.executionHash.Some? && a.specChecksum.Some? && a.implementationChecksum.Some?
                                && a.errorCode.None? && a.completedAt.Some?)
    && (a.status.Failed? ==> a.errorCode.Some? && a.completedAt.Some?)
    && (a.status.Pending? ==> a.errorCode.None? && a.completedAt.None?)
    && a.number > 0
    && HexOrNull(a.specChecksum) && HexOrNull(a.implementationChecksum) && HexOrNull(a.executionHash)
  }

  /** The CHECK constraints 015 puts on calculations. */
  predicate CalculationOk(c: Calculation) {
    c.status.Completed? && IsHex64(c.idempotencyHash) && IsHex64(c.implementationChecksum)
  }

  /** uq_calculations_active_idempotency of migration 011, on completed rows. */
  predicate HashesDistinct(calculations: seq<Calculation>) {
    forall i, j :: 0 <= i < j < |calculations| ==>
      calculations[i].identity.org != calculations[j].identity.org
      || calculations[i].idempotencyHash != calculations[j].idempotencyHash
  }

  function CountCompleted(attempts: seq<Attempt>): nat {
    if attempts == [] then 0
    else CountCompleted(attempts[..|attempts| - 1]) + if attempts[|attempts| - 1].status.Completed? then 1 else 0
  }

  function Preflight015(t: Tables): Option<MigrationError> {
    if exists i :: 0 <= i < |t.calculations| && (t.calculations[i].request.None? || t.calculations[i].attempt.None?)
      then Some(OrphanCalculations)
    else if exists i :: 0 <= i < |t.calculations| && !t.calculations[i].status.Completed? then Some(NonCompletedCalculations)
    else if |t.calculations| != CountCompleted(t.attempts) then Some(RowCountMismatch)
    else None
  }

  function Upgrade015(t: Tables, pf: Platform): Result<Tables, MigrationError> {
    if Preflight015(t).Some? then Err(Preflight015(t).value)
    else
      var attempts := RepairAttempts(t.attempts, pf);
      var calculations := RepairCalculations(t.calculations, pf);
      if !HashesDistinct(calculations) then Err(DuplicateIdempotencyHash)
      else if exists i :: 0 <= i < |attempts| && !AttemptOk(attempts[i]) then Err(AttemptConstraintViolated)
      else if exists i :: 0 <= i < |calculations| && !CalculationOk(calculations[i]) then Err(CalculationConstraintViolated)
      else Ok(t.(attempts := attempts, calculations := calculations))
  }

  function MigrateBoth(calculations: seq<Calculation>, pf: Platform): Result<Tables, MigrationError> {
    match Upgrade014(calculations, pf)
    case Err(e) => Err(e)
    case Ok(t) => Upgrade015(t, pf)
  }

  // ------------------------------------------------------ the backfill invariant

  function CountFor(attempts: seq<Attempt>, request: Uuid): nat {
    if attempts == [] then 0
    else CountFor(attempts[..|attempts| - 1], request) + if attempts[|attempts| - 1].request == request then 1 else 0
  }

  /** Each attempt's number is its position among the attempts of its request. */
  predicate Numbered(attempts: seq<Attempt>) {
    forall i :: 0 <= i < |attempts| ==> attempts[i].number == CountFor(attempts[..i], attempts[i].request) + 1
  }

  predicate RequestFits(requests: seq<Request>, k: int, c: Calculation, a: Attempt, pf: Platform) {
    && 0 <= k < |requests|
    && requests[k].id == a.request
    && requests[k].identity.org == c.identity.org
    && requests[k].fingerprint == Fingerprint(c.identity, pf)
  }

  ghost predicate AttemptFits(t: Tables, i: nat, c: Calculation, pf: Platform) {
    && i < |t.attempts| && i < |t.calculations|
    && t.attempts[i] == AttemptOf(c, t.attempts[i].id, t.attempts[i].request, t.attempts[i].number)
    && t.attempts[i].id < t.nextId
    && t.calculations[i] == c.(request := Some(t.attempts[i].request), attempt := Some(t.attempts[i].id))
    && exists k :: RequestFits(t.requests, k, c, t.attempts[i], pf)
  }

  /** Request identifiers grow, and organization and fingerprint are unique. */
  ghost predicate RequestKeys(requests: seq<Request>, nextId: Uuid) {
    && (forall k :: 0 <= k < |requests| ==> requests[k].id < nextId)
    && (forall k, l :: 0 <= k < l < |requests| ==>
          requests[k].id < requests[l].id
          && (requests[k].identity.org != requests[l].identity.org || requests[k].fingerprint != requests[l].fingerprint))
  }

  /** What holds after n turns, against the table the loop started from. */
  ghost predicate Progress(calculations: seq<Calculation>, n: nat, t: Tables, pf: Platform)
    requires n <= |calculations|
  {
    && |t.calculations| == |calculations| && |t.attempts| == n
    && t.calculations[n..] == calculations[n..]
    && (forall i :: 0 <= i < n ==> AttemptFits(t, i, calculations[i], pf))
    && (forall i, j :: 0 <= i < j < n ==> t.attempts[i].id < t.attempts[j].id)
    && RequestKeys(t.requests, t.nextId)
    && Numbered(t.attempts)
  }

  /** Rows of one request all carry its organization, so MAX and COUNT agree. */
  lemma {:induction false} MaxIsCount(attempts: seq<Attempt>, org: Uuid, request: Uuid)
    requires Numbered(attempts)
    requires forall i :: 0 <= i < |attempts| && attempts[i].request == request ==> attempts[i].org == org
    ensures MaxNumber(attempts, org, request) == CountFor(attempts, request)
  {
    if attempts != [] {
      var init := attempts[..|attempts| - 1];
      assert forall i :: 0 <= i < |init| ==> init[i] == attempts[i] && init[..i] == attempts[..i];
      MaxIsCount(init, org, request);
      assert attempts[|attempts| - 1].number == CountFor(init, attempts[|attempts| - 1].request) + 1;
    }
  }

  lemma SameRequestSameOrg(calculations: seq<Calculation>, n: nat, t: Tables, pf: Platform, request: Uuid, org: Uuid, k: nat)
    requires n <= |calculations| && Progress(calculations, n, t, pf)
    requires k < |t.requests| && t.requests[k].id == request && t.requests[k].identity.org == org
    ensures forall i :: 0 <= i < n && t.attempts[i].request == request ==> t.attempts[i].org == org
  {
    forall i | 0 <= i < n && t.attempts[i].request == request ensures t.attempts[i].org == org {
      assert AttemptFits(t, i, calculations[i], pf);
      var l :| RequestFits(t.requests, l, calculations[i], t.attempts[i], pf);
      assert k == l;
    }
  }

  lemma NewRequestUnused(calculations: seq<Calculation>, n: nat, t: Tables, pf: Platform)
    requires n <= |calculations| && Progress(calculations, n, t, pf)
    ensures forall i :: 0 <= i < n ==> t.attempts[i].request != t.nextId
  {
    forall i | 0 <= i < n ensures t.attempts[i].request != t.nextId {
      assert AttemptFits(t, i, calculations[i], pf);
      var l :| RequestFits(t.requests, l, calculations[i], t.attempts[i], pf);
    }
  }

  lemma NumberedExtends(attempts: seq<Attempt>, a: Attempt)
    requires Numbered(attempts) && a.number == CountFor(attempts, a.request) + 1
    ensures Numbered(attempts + [a])
  {
    var more := attempts + [a];
    forall i | 0 <= i < |more| ensures more[i].number == CountFor(more[..i], more[i].request) + 1 {
      if i < |attempts| {
        assert more[..i] == attempts[..i];
      } else {
        assert more[..i] == attempts;
      }
    }
  }

  /** The turn's request exists afterwards, and its next number is its count plus one. */
  lemma TurnRequest(calculations: seq<Calculation>, n: nat, t: Tables, pf: Platform)
    requires n < |calculations| && Progress(calculations, n, t, pf)
    ensures var t' := BackfillRow(t, n, pf);
            && |t'.attempts| == n + 1
            && (exists k :: RequestFits(t'.requests, k, calculations[n], t'.attempts[n], pf))
            && Numbered(t'.attempts)
  {
    var c := calculations[n];
    var t' := BackfillRow(t, n, pf);
    var a := t'.attempts[n];
    var found := FindRequest(t.requests, c.identity.org, Fingerprint(c.identity, pf));
    if found.Some? {
      var k :| 0 <= k < |t.requests| && t.requests[k].id == found.value
               && t.requests[k].identity.org == c.identity.org && t.requests[k].fingerprint == Fingerprint(c.identity, pf);
      assert RequestFits(t'.requests, k, c, a, pf);
      SameRequestSameOrg(calculations, n, t, pf, found.value, c.identity.org, k);
    } else {
      assert RequestFits(t'.requests, |t.requests|, c, a, pf);
      NewRequestUnused(calculations, n, t, pf);
    }
    MaxIsCount(t.attempts, c.identity.org, a.request);
    NumberedExtends(t.attempts, a);
  }

  /** A row's facts survive when rows are appended after it. */
  lemma FitSurvives(t: Tables, t': Tables, i: nat, c: Calculation, pf: Platform)
    requires AttemptFits(t, i, c, pf)
    requires t.attempts <= t'.attempts && t.requests <= t'.requests && t.nextId <= t'.nextId
    requires i < |t'.calculations| && t'.calculations[i] == t.calculations[i]
    ensures AttemptFits(t', i, c, pf)
  {
    var k :| RequestFits(t.requests, k, c, t.attempts[i], pf);
    assert RequestFits(t'.requests, k, c, t'.attempts[i], pf);
  }

  lemma TurnKeepsKeys(t: Tables, n: nat, pf: Platform)
    requires n < |t.calculations| && RequestKeys(t.requests, t.nextId)
    ensures var t' := BackfillRow(t, n, pf);
            RequestKeys(t'.requests, t'.nextId) && t.requests <= t'.requests && t.attempts <= t'.attempts && t.nextId < t'.nextId
  {
  }

  lemma TurnKeepsProgress(calculations: seq<Calculation>, n: nat, t: Tables, pf: Platform)
    requires n < |calculations| && Progress(calculations, n, t, pf)
    ensures Progress(calculations, n + 1, BackfillRow(t, n, pf), pf)
  {
    var t' := BackfillRow(t, n, pf);
    TurnRequest(calculations, n, t, pf);
    TurnKeepsKeys(t, n, pf);
    assert t.calculations[n] == calculations[n] by {
      assert t.calculations[n..][0] == calculations[n..][0];
    }
    assert t'.calculations[n + 1..] == t.calculations[n..][1..] == calculations[n..][1..] == calculations[n + 1..];
    forall i | 0 <= i < n ensures AttemptFits(t', i, calculations[i], pf) && t.attempts[i].id < t'.attempts[n].id {
      assert AttemptFits(t, i, calculations[i], pf);
      FitSurvives(t, t', i, calculations[i], pf);
    }
    assert AttemptFits(t', n, calculations[n], pf);
  }

  lemma {:induction false} BackfillProgress(calculations: seq<Calculation>, n: nat, pf: Platform)
    requires n <= |calculations|
    ensures Progress(calculations, n, Backfill(calculations, n, pf), pf)
  {
    if n > 0 {
      BackfillProgress(calculations, n - 1, pf);
      TurnKeepsProgress(calculations, n - 1, Backfill(calculations, n - 1, pf), pf);
    }
  }

  // ------------------------------------------------------------- 014's result

  lemma AttemptsNumbered(calculations: seq<Calculation>, pf: Platform)
    ensures Numbered(Backfill(calculations, |calculations|, pf).attempts)
    ensures |Backfill(calculations, |calculations|, pf).attempts| == |calculations|
  {
    BackfillProgress(calculations, |calculations|, pf);
  }

  /** The rows ahead of the cursor are still as they were. */
  lemma AheadOfCursor(calculations: seq<Calculation>, n: nat, pf: Platform)
    requires n < |calculations|
    ensures Backfill(calculations, n, pf).calculations[n] == calculations[n]
  {
    BackfillProgress(calculations, n, pf);
    assert Backfill(calculations, n, pf).calculations[n..][0] == calculations[n..][0];
  }

  lemma OnlyLinksChange(calculations: seq<Calculation>, pf: Platform)
    ensures forall i :: 0 <= i < |calculations| ==>
              SameButLinks(calculations[i], Backfill(calculations, |calculations|, pf).calculations[i])
  {
    var t := Backfill(calculations, |calculations|, pf);
    BackfillProgress(calculations, |calculations|, pf);
    forall i | 0 <= i < |calculations| ensures SameButLinks(calculations[i], t.calculations[i]) {
      assert AttemptFits(t, i, calculations[i], pf);
    }
  }

  lemma {:induction false} NumbersBounded(attempts: seq<Attempt>, i: nat)
    requires Numbered(attempts) && i < |attempts|
    ensures 1 <= attempts[i].number <= CountFor(attempts, attempts[i].request)
  {
    var init := attempts[..|attempts| - 1];
    if i < |init| {
      NumberedPrefix(attempts);
      NumbersBounded(init, i);
    }
  }

  lemma NumberedPrefix(attempts: seq<Attempt>)
    requires Numbered(attempts) && attempts != []
    ensures Numbered(attempts[..|attempts| - 1])
  {
    var init := attempts[..|attempts| - 1];
    forall i | 0 <= i < |init| ensures init[i].number == CountFor(init[..i], init[i].request) + 1 {
      assert init[..i] == attempts[..i];
    }
  }

  lemma {:induction false} NumberTaken(attempts: seq<Attempt>, request: Uuid, m: nat) returns (i: nat)
    requires Numbered(attempts) && 1 <= m <= CountFor(attempts, request)
    ensures i < |attempts| && attempts[i].request == request && attempts[i].number == m
  {
    var init := attempts[..|attempts| - 1];
    NumberedPrefix(attempts);
    if m <= CountFor(init, request) {
      i := NumberTaken(init, request, m);
    } else {
      i := |attempts| - 1;
    }
  }

  /** Of two attempts of one request the later has the greater number. */
  lemma {:induction false} NumbersGrow(attempts: seq<Attempt>, i: nat, j: nat)
    requires Numbered(attempts) && i < j < |attempts| && attempts[i].request == attempts[j].request
    ensures attempts[i].number < attempts[j].number
  {
    assert Numbered(attempts[..j]) by {
      forall k | 0 <= k < j ensures attempts[..j][k].number == CountFor(attempts[..j][..k], attempts[..j][k].request) + 1 {
        assert attempts[..j][..k] == attempts[..k];
      }
    }
    NumbersBounded(attempts[..j], i);
  }

  /** The attempts of every request carry the numbers 1..k, each once. */
  lemma NumbersAreExact(calculations: seq<Calculation>, pf: Platform, request: Uuid, m: nat)
    ensures var attempts := Backfill(calculations, |calculations|, pf).attempts;
            (exists i :: 0 <= i < |attempts| && attempts[i].request == request && attempts[i].number == m)
            <==> 1 <= m <= CountFor(attempts, request)
    ensures var attempts := Backfill(calculations, |calculations|, pf).attempts;
            forall i, j :: 0 <= i < j < |attempts| && attempts[i].request == attempts[j].request ==>
              attempts[i].number < attempts[j].number
  {
    AttemptsNumbered(calculations, pf);
    ExactNumbers(Backfill(calculations, |calculations|, pf).attempts, request, m);
  }

  lemma ExactNumbers(attempts: seq<Attempt>, request: Uuid, m: nat)
    requires Numbered(attempts)
    ensures (exists i :: 0 <= i < |attempts| && attempts[i].request == request && attempts[i].number == m)
            <==> 1 <= m <= CountFor(attempts, request)
    ensures forall i, j :: 0 <= i < j < |attempts| && attempts[i].request == attempts[j].request ==>
              attempts[i].number < attempts[j].number
  {
    forall i | 0 <= i < |attempts| ensures 1 <= attempts[i].number <= CountFor(attempts, attempts[i].request) {
      NumbersBounded(attempts, i);
    }
    forall i, j | 0 <= i < j < |attempts| && attempts[i].request == attempts[j].request
      ensures attempts[i].number < attempts[j].number
    {
      NumbersGrow(attempts, i, j);
    }
    if 1 <= m <= CountFor(attempts, request) {
      var i := NumberTaken(attempts, request, m);
    }
  }

  /** Two calculations share a request exactly when organization and fingerprint agree. */
  lemma SharedRequests(calculations: seq<Calculation>, pf: Platform, i: nat, j: nat)
    requires i < |calculations| && j < |calculations|
    ensures var t := Backfill(calculations, |calculations|, pf);
            && |t.attempts| == |calculations|
            && (t.attempts[i].request == t.attempts[j].request <==>
                calculations[i].identity.org == calculations[j].identity.org
                && Fingerprint(calculations[i].identity, pf) == Fingerprint(calculations[j].identity, pf))
  {
    var t := Backfill(calculations, |calculations|, pf);
    BackfillProgress(calculations, |calculations|, pf);
    assert AttemptFits(t, i, calculations[i], pf) && AttemptFits(t, j, calculations[j], pf);
    var k :| RequestFits(t.requests, k, calculations[i], t.attempts[i], pf);
    var l :| RequestFits(t.requests, l, calculations[j], t.attempts[j], pf);
  }

  function UuidsOf(i: Identity): set<Uuid> {
    {i.org, i.institution, i.period} + if i.comparison.Some? then {i.comparison.value} else {}
  }

  /** The texts of these UUIDs have 36 characters and tell them apart. */
  predicate UuidTexts(ids: set<Uuid>, pf: Platform) {
    && (forall u :: u in ids ==> |pf.idText(u)| == 36)
    && forall u, v :: u in ids && v in ids && pf.idText(u) == pf.idText(v) ==> u == v
  }

  predicate NoCollision(x: string, y: string, pf: Platform) {
    pf.sha256(x) == pf.sha256(y) ==> x == y
  }

  /** The identity with a comparison period reads as the other one, every UUID in the place before its own. */
  predicate Shifted(longer: Identity, shorter: Identity, pf: Platform) {
    && FormulaText(shorter) == FormulaText(longer) + pf.idText(longer.institution)
    && shorter.institution == longer.period && Some(shorter.period) == longer.comparison
  }

  predicate ReadsAlike(a: Identity, b: Identity, pf: Platform) {
    if a.comparison.Some? == b.comparison.Some? then
      FormulaText(a) == FormulaText(b) && a.institution == b.institution && a.period == b.period && a.comparison == b.comparison
    else if a.comparison.Some? then Shifted(a, b, pf)
    else Shifted(b, a, pf)
  }

  lemma EndsAgree(x: string, y: string, u: string, v: string)
    requires |u| == |v|
    ensures x + u == y + v <==> x == y && u == v
  {
    if x + u == y + v {
      assert |x| == |y| && x == (x + u)[..|x|] && u == (x + u)[|x|..];
      assert y == (y + v)[..|y|] && v == (y + v)[|y|..];
    }
  }

  lemma StartsAgree(p: string, x: string, y: string)
    ensures p + x == p + y <==> x == y
  {
    if p + x == p + y {
      assert x == (p + x)[|p|..] && y == (p + y)[|p|..];
    }
  }

  /** Five texts in a row, when both rows have all five. */
  lemma FivesAgree(p: string, f: string, i: string, q: string, c: string, f': string, i': string, q': string, c': string)
    requires |i| == |i'| && |q| == |q'| && |c| == |c'|
    ensures p + f + i + q + c == p + f' + i' + q' + c' <==> f == f' && i == i' && q == q' && c == c'
  {
    EndsAgree(p + f + i + q, p + f' + i' + q', c, c');
    EndsAgree(p + f + i, p + f' + i', q, q');
    EndsAgree(p + f, p + f', i, i');
    StartsAgree(p, f, f');
  }

  /** Five texts against four. */
  lemma FiveAndFourAgree(p: string, f: string, i: string, q: string, c: string, f': string, i': string, q': string)
    requires |i| == |q| == |c| == |i'| == |q'|
    ensures p + f + i + q + c == p + f' + i' + q' + "" <==> f' == f + i && i' == q && q' == c
  {
    assert p + f' + i' + q' + "" == p + f' + i' + q';
    EndsAgree(p + f + i + q, p + f' + i', c, q');
    EndsAgree(p + f + i, p + f', q, i');
    assert p + f + i == p + (f + i);
    StartsAgree(p, f + i, f');
  }

  /** When two identities of an organization are given one fingerprint. */
  lemma SameFingerprintExactly(a: Identity, b: Identity, pf: Platform)
    requires a.org == b.org && UuidTexts(UuidsOf(a) + UuidsOf(b), pf)
    requires NoCollision(FingerprintText(a, pf), FingerprintText(b, pf), pf)
    ensures Fingerprint(a, pf) == Fingerprint(b, pf) <==> ReadsAlike(a, b, pf)
  {
    var p, f, f' := pf.idText(a.org), FormulaText(a), FormulaText(b);
    var i, i' := pf.idText(a.institution), pf.idText(b.institution);
    var q, q' := pf.idText(a.period), pf.idText(b.period);
    var c := if a.comparison.Some? then pf.idText(a.comparison.value) else "";
    var c' := if b.comparison.Some? then pf.idText(b.comparison.value) else "";
    if a.comparison.Some? == b.comparison.Some? {
      FivesAgree(p, f, i, q, c, f', i', q', c');
    } else if a.comparison.Some? {
      FiveAndFourAgree(p, f, i, q, c, f', i', q');
    } else {
      FiveAndFourAgree(p, f', i', q', c', f, i, q);
    }
  }

  /**
    Which calculations share a request, told from their columns: those of an organization
    whose identities read alike, the ends of code, version and UUIDs not being marked.
   */
  lemma SharedRequestsExactly(calculations: seq<Calculation>, pf: Platform, i: nat, j: nat)
    requires i < |calculations| && j < |calculations|
    requires UuidTexts(UuidsOf(calculations[i].identity) + UuidsOf(calculations[j].identity), pf)
    requires NoCollision(FingerprintText(calculations[i].identity, pf), FingerprintText(calculations[j].identity, pf), pf)
    ensures var t := Backfill(calculations, |calculations|, pf);
            && |t.attempts| == |calculations|
            && (t.attempts[i].request == t.attempts[j].request <==>
                calculations[i].identity.org == calculations[j].identity.org
                && ReadsAlike(calculations[i].identity, calculations[j].identity, pf))
  {
    SharedRequests(calculations, pf, i, j);
    if calculations[i].identity.org == calculations[j].identity.org {
      SameFingerprintExactly(calculations[i].identity, calculations[j].identity, pf);
    }
  }

  /** Formula A1 in version 1 and formula A in version 11 are one request. */
  lemma TwoFormulasOneRequest(c: Calculation, d: Calculation, pf: Platform)
    requires c.identity.formulaCode == "A1" && c.identity.formulaVersion == "1"
    requires d.identity == c.identity.(formulaCode := "A", formulaVersion := "11")
    ensures c.identity != d.identity
    ensures var t := Backfill([c, d], 2, pf);
            |t.attempts| == 2 && t.attempts[0].request == t.attempts[1].request
  {
    assert FormulaText(c.identity) == "A11" == FormulaText(d.identity);
    SharedRequests([c, d], pf, 0, 1);
  }

  /**
    Every column of the attempt that a calculation gets: hash, checksums and no error
    when it is COMPLETED, and else an error, its own or the default, and none of these.
   */
  lemma AttemptColumns(calculations: seq<Calculation>, pf: Platform, i: nat)
    requires i < |calculations|
    ensures var t := Backfill(calculations, |calculations|, pf);
            && |t.attempts| == |calculations|
            && var a, c := t.attempts[i], calculations[i];
               && a.org == c.identity.org && a.status == c.status
               && a.completedAt == c.completedAt && a.createdAt == c.createdAt
               && (c.status == Completed ==>
                     && a.executionHash == Some(c.idempotencyHash) && a.errorCode == None
                     && a.specChecksum == c.specChecksum && a.implementationChecksum == Some(c.implementationChecksum))
               && (c.status != Completed ==>
                     && a.executionHash == None && a.specChecksum == None && a.implementationChecksum == None
                     && (c.errorCode.Some? ==> a.errorCode == c.errorCode)
                     && (c.errorCode.None? ==> a.errorCode == Some("CALCULATION_INTERNAL_ERROR")))
  {
    BackfillProgress(calculations, |calculations|, pf);
    assert AttemptFits(Backfill(calculations, |calculations|, pf), i, calculations[i], pf);
  }

  /** The calculation keeps all its columns and is linked to that attempt and its request. */
  lemma CalculationColumns(calculations: seq<Calculation>, pf: Platform, i: nat)
    requires i < |calculations|
    ensures var t := Backfill(calculations, |calculations|, pf);
            && |t.attempts| == |t.calculations| == |calculations|
            && t.calculations[i] == calculations[i].(request := Some(t.attempts[i].request), attempt := Some(t.attempts[i].id))
  {
    BackfillProgress(calculations, |calculations|, pf);
    assert AttemptFits(Backfill(calculations, |calculations|, pf), i, calculations[i], pf);
  }

  /** Request k was made for the calculation at position i, the first of its request. */
  predicate MadeFor(t: Tables, calculations: seq<Calculation>, pf: Platform, k: nat, i: nat) {
    && k < |t.requests| && i < |t.attempts| && i < |calculations|
    && t.attempts[i].request == t.requests[k].id
    && (forall j :: 0 <= j < i ==> t.attempts[j].request != t.requests[k].id)
    && t.requests[k].identity == calculations[i].identity && t.requests[k].requestedBy == calculations[i].requestedBy
    && t.requests[k].createdAt == calculations[i].createdAt && t.requests[k].fingerprint == Fingerprint(calculations[i].identity, pf)
  }

  lemma MadeForSurvives(t: Tables, t': Tables, calculations: seq<Calculation>, pf: Platform, k: nat, i: nat)
    requires MadeFor(t, calculations, pf, k, i) && t.requests <= t'.requests && t.attempts <= t'.attempts
    ensures MadeFor(t', calculations, pf, k, i)
  {
  }

  lemma OneTurn(t: Tables, n: nat, pf: Platform)
    requires n < |t.calculations|
    ensures var t' := BackfillRow(t, n, pf);
            t.requests <= t'.requests && t.attempts <= t'.attempts && |t'.requests| <= |t.requests| + 1
  {
  }

  lemma NewRequestColumns(calculations: seq<Calculation>, n: nat, t: Tables, pf: Platform)
    requires n < |calculations| && Progress(calculations, n, t, pf) && t.calculations[n] == calculations[n]
    ensures |BackfillRow(t, n, pf).requests| > |t.requests| ==> MadeFor(BackfillRow(t, n, pf), calculations, pf, |t.requests|, n)
  {
    NewRequestUnused(calculations, n, t, pf);
  }

  ghost predicate Made(t: Tables, calculations: seq<Calculation>, pf: Platform, k: nat) {
    exists i: nat :: MadeFor(t, calculations, pf, k, i)
  }

  lemma TurnKeepsMade(calculations: seq<Calculation>, n: nat, t: Tables, t': Tables, pf: Platform, k: nat)
    requires n < |calculations| && Progress(calculations, n, t, pf) && t.calculations[n] == calculations[n]
    requires t' == BackfillRow(t, n, pf) && k < |t'.requests|
    requires k < |t.requests| ==> Made(t, calculations, pf, k)
    ensures Made(t', calculations, pf, k)
  {
    OneTurn(t, n, pf);
    if k < |t.requests| {
      var i: nat :| MadeFor(t, calculations, pf, k, i);
      MadeForSurvives(t, t', calculations, pf, k, i);
      assert MadeFor(t', calculations, pf, k, i);
    } else {
      NewRequestColumns(calculations, n, t, pf);
      assert MadeFor(t', calculations, pf, k, n);
    }
  }

  ghost predicate AllMade(t: Tables, calculations: seq<Calculation>, pf: Platform) {
    forall k: nat :: k < |t.requests| ==> Made(t, calculations, pf, k)
  }

  lemma TurnKeepsAllMade(calculations: seq<Calculation>, n: nat, t: Tables, pf: Platform)
    requires n < |calculations| && Progress(calculations, n, t, pf) && AllMade(t, calculations, pf)
    ensures AllMade(BackfillRow(t, n, pf), calculations, pf)
  {
    var t' := BackfillRow(t, n, pf);
    assert t.calculations[n] == calculations[n] by {
      assert t.calculations[n..][0] == calculations[n..][0];
    }
    forall k: nat | k < |t'.requests| ensures Made(t', calculations, pf, k) {
      TurnKeepsMade(calculations, n, t, t', pf, k);
    }
  }

  lemma {:induction false} RequestsMade(calculations: seq<Calculation>, n: nat, pf: Platform)
    requires n <= |calculations|
    ensures AllMade(Backfill(calculations, n, pf), calculations, pf)
  {
    if n > 0 {
      RequestsMade(calculations, n - 1, pf);
      BackfillProgress(calculations, n - 1, pf);
      TurnKeepsAllMade(calculations, n - 1, Backfill(calculations, n - 1, pf), pf);
    }
  }

  /** Every column of a request is that of the first calculation it was made for. */
  lemma RequestColumns(calculations: seq<Calculation>, pf: Platform, k: nat) returns (i: nat)
    requires k < |Backfill(calculations, |calculations|, pf).requests|
    ensures MadeFor(Backfill(calculations, |calculations|, pf), calculations, pf, k, i)
  {
    RequestsMade(calculations, |calculations|, pf);
    assert Made(Backfill(calculations, |calculations|, pf), calculations, pf, k);
    i :| MadeFor(Backfill(calculations, |calculations|, pf), calculations, pf, k, i);
  }

  /** One attempt per original calculation, deleted ones included, in order and with the calculation's own data. */
  lemma OneAttemptPerCalculation(calculations: seq<Calculation>, pf: Platform, i: nat)
    requires i < |calculations|
    ensures var t := Backfill(calculations, |calculations|, pf);
            && |t.attempts| == |calculations|
            && t.calculations[i].attempt == Some(t.attempts[i].id) && t.calculations[i].request == Some(t.attempts[i].request)
            && t.attempts[i].org == calculations[i].identity.org && t.attempts[i].status == calculations[i].status
            && (calculations[i].status.Completed? ==> t.attempts[i].executionHash == Some(calculations[i].idempotencyHash))
            && Numbered(t.attempts)
            && forall j :: 0 <= j < |t.attempts| && j != i ==> t.attempts[j].id != t.attempts[i].id
  {
    BackfillProgress(calculations, |calculations|, pf);
    assert AttemptFits(Backfill(calculations, |calculations|, pf), i, calculations[i], pf);
  }

  // ------------------------------------------------------------- 015's result

  predicate CompletedOrFailed(c: Calculation) {
    c.status.Completed? || c.status.Failed?
  }

  predicate AllCompletedOrFailed(calculations: seq<Calculation>) {
    forall i :: 0 <= i < |calculations| ==> CompletedOrFailed(calculations[i])
  }

  predicate NoneReconciled(calculations: seq<Calculation>) {
    forall i :: 0 <= i < |calculations| ==> !calculations[i].reconciled
  }

  /** No two completed calculations of an organization end up with one hash. */
  predicate RepairedHashesDistinct(calculations: seq<Calculation>, pf: Platform) {
    HashesDistinct(RepairCalculations(OnlyCompleted(calculations), pf))
  }

  /** The rows 014 keeps are the completed ones with their links filled in, in order. */
  lemma {:induction false} KeptRows(before: seq<Calculation>, after: seq<Calculation>)
    requires |before| == |after|
    requires forall i :: 0 <= i < |before| ==> SameButLinks(before[i], after[i])
    ensures |OnlyCompleted(before)| == |OnlyCompleted(after)|
    ensures forall i :: 0 <= i < |OnlyCompleted(before)| ==> SameButLinks(OnlyCompleted(before)[i], OnlyCompleted(after)[i])
  {
    if before != [] {
      var b, a := before[..|before| - 1], after[..|after| - 1];
      assert forall i :: 0 <= i < |b| ==> b[i] == before[i] && a[i] == after[i];
      KeptRows(b, a);
      assert SameButLinks(before[|before| - 1], after[|after| - 1]);
    }
  }

  predicate SameButLinks(a: Calculation, b: Calculation) {
    a.(request := b.request, attempt := b.attempt) == b
  }

  lemma {:induction false} CountsAgree(calculations: seq<Calculation>, attempts: seq<Attempt>)
    requires |calculations| == |attempts|
    requires forall i :: 0 <= i < |attempts| ==> attempts[i].status == calculations[i].status
    ensures |OnlyCompleted(calculations)| == CountCompleted(attempts)
  {
    if calculations != [] {
      var c, a := calculations[..|calculations| - 1], attempts[..|attempts| - 1];
      assert forall i :: 0 <= i < |a| ==> a[i] == attempts[i] && c[i] == calculations[i];
      CountsAgree(c, a);
    }
  }

  lemma RepairShape(h: Option<Hash>, id: Uuid, pf: Platform)
    requires Md5Shape(pf)
    ensures IsHex64(Repair(h, id, pf))
  {
  }

  lemma RepairedAttemptOk(c: Calculation, id: Uuid, request: Uuid, number: nat, pf: Platform)
    requires Md5Shape(pf) && number > 0 && !c.status.OtherStatus?
    ensures AttemptOk(RepairAttempt(AttemptOf(c, id, request, number), pf)) <==> CompletedOrFailed(c)
  {
    var a := AttemptOf(c, id, request, number);
    RepairShape(a.executionHash, id, pf);
    RepairShape(a.specChecksum, id, pf);
    RepairShape(a.implementationChecksum, id, pf);
  }

  lemma RowsFilledIn(calculations: seq<Calculation>, pf: Platform)
    ensures var t := Backfill(calculations, |calculations|, pf);
            && |t.attempts| == |calculations|
            && (forall c :: c in t.calculations ==> c.request.Some? && c.attempt.Some?)
            && |OnlyCompleted(t.calculations)| == CountCompleted(t.attempts)
  {
    var t := Backfill(calculations, |calculations|, pf);
    BackfillProgress(calculations, |calculations|, pf);
    forall i | 0 <= i < |calculations|
      ensures t.calculations[i].request.Some? && t.calculations[i].attempt.Some?
      ensures t.attempts[i].status == t.calculations[i].status
    {
      assert AttemptFits(t, i, calculations[i], pf);
    }
    CountsAgree(t.calculations, t.attempts);
  }

  lemma KeepingCompletedPasses(t: Tables)
    requires forall c :: c in t.calculations ==> c.request.Some? && c.attempt.Some?
    requires |OnlyCompleted(t.calculations)| == CountCompleted(t.attempts)
    ensures Preflight015(t.(calculations := OnlyCompleted(t.calculations))).None?
  {
  }

  /** A text that is no 64 hexadecimal digits is replaced by twice its MD5. */
  function Rewritten(text: string, pf: Platform): Hash {
    pf.md5(text) + pf.md5(text)
  }

  predicate SixtyFourHexDigits(text: string) {
    |text| == 64 && forall i :: 0 <= i < 64 ==> text[i] in "0123456789abcdef"
  }

  /** Well-formed ones stay; what is malformed is derived from itself, and what is missing from the row's identifier. */
  lemma RepairExactly(h: Option<Hash>, id: Uuid, pf: Platform)
    ensures h.Some? && SixtyFourHexDigits(h.value) ==> Repair(h, id, pf) == h.value
    ensures h.Some? && !SixtyFourHexDigits(h.value) ==> Repair(h, id, pf) == Rewritten(h.value, pf)
    ensures h.None? ==> Repair(h, id, pf) == Rewritten(pf.idText(id), pf)
  {
    if h.Some? {
      HexDigits(h.value);
    }
  }

  lemma HexDigits(text: string)
    ensures IsHex64(text) <==> SixtyFourHexDigits(text)
  {
    forall i | 0 <= i < |text| ensures IsHexDigit(text[i]) <==> text[i] in "0123456789abcdef" {
      HexDigit(text[i]);
    }
  }

  lemma HexDigit(ch: char)
    ensures IsHexDigit(ch) <==> ch in "0123456789abcdef"
  {
    var digits := "0123456789abcdef";
    assert digits[0] == '0' && digits[1] == '1' && digits[2] == '2' && digits[3] == '3';
    assert digits[4] == '4' && digits[5] == '5' && digits[6] == '6' && digits[7] == '7';
    assert digits[8] == '8' && digits[9] == '9' && digits[10] == 'a' && digits[11] == 'b';
    assert digits[12] == 'c' && digits[13] == 'd' && digits[14] == 'e' && digits[15] == 'f';
  }

  /** What the hardened column of a COMPLETED row says, given the column before. */
  predicate Hardened(before: Option<Hash>, after: Option<Hash>, id: Uuid, pf: Platform) {
    && after.Some?
    && (before.Some? && SixtyFourHexDigits(before.value) ==> after == before)
    && (before.Some? && !SixtyFourHexDigits(before.value) ==> after.value == Rewritten(before.value, pf))
    && (before.None? ==> after.value == Rewritten(pf.idText(id), pf))
  }

  /** What 015 makes of an attempt: hashes and checksums of a COMPLETED one, error and time of the others that ended. */
  lemma HardenedAttempt(a: Attempt, pf: Platform)
    ensures var b := RepairAttempt(a, pf);
            && b.id == a.id && b.org == a.org && b.request == a.request && b.number == a.number
            && b.status == a.status && b.createdAt == a.createdAt
            && (a.status == Completed ==>
                  && Hardened(a.executionHash, b.executionHash, a.id, pf) && Hardened(a.specChecksum, b.specChecksum, a.id, pf)
                  && Hardened(a.implementationChecksum, b.implementationChecksum, a.id, pf) && b.errorCode == a.errorCode)
            && (a.status != Completed ==>
                  && b.executionHash == a.executionHash && b.specChecksum == a.specChecksum
                  && b.implementationChecksum == a.implementationChecksum)
            && (a.status == Failed ==> b.errorCode == if a.errorCode.Some? then a.errorCode else Some("CALCULATION_FAILED"))
            && (a.status == Completed || a.status == Failed ==>
                  b.completedAt == Some(if a.completedAt.Some? then a.completedAt.value else a.createdAt))
            && (a.status != Completed && a.status != Failed ==> b == a)
  {
    RepairExactly(a.executionHash, a.id, pf);
    RepairExactly(a.specChecksum, a.id, pf);
    RepairExactly(a.implementationChecksum, a.id, pf);
  }

  /** Every attempt of the migrated tables, column by column, from the calculation it stands for. */
  lemma MigratedColumns(calculations: seq<Calculation>, pf: Platform, i: nat)
    requires i < |calculations| && MigrateBoth(calculations, pf).Ok?
    ensures var t := MigrateBoth(calculations, pf).value;
            && |t.attempts| == |calculations|
            && var a, c := t.attempts[i], calculations[i];
               && a.org == c.identity.org && a.status == c.status && a.createdAt == c.createdAt
               && a.completedAt == Some(if c.completedAt.Some? then c.completedAt.value else c.createdAt)
               && (c.status == Completed ==>
                     && a.errorCode == None && Hardened(Some(c.idempotencyHash), a.executionHash, a.id, pf)
                     && Hardened(c.specChecksum, a.specChecksum, a.id, pf)
                     && Hardened(Some(c.implementationChecksum), a.implementationChecksum, a.id, pf))
               && (c.status == Failed ==>
                     && a.executionHash == None && a.specChecksum == None && a.implementationChecksum == None
                     && a.errorCode == Some(if c.errorCode.Some? then c.errorCode.value else "CALCULATION_INTERNAL_ERROR"))
               && (c.status == Completed || c.status == Failed)
  {
    AttemptColumns(calculations, pf, i);
    var before := Backfill(calculations, |calculations|, pf).attempts[i];
    HardenedAttempt(before, pf);
    RepairedInPlace(calculations, pf, i);
  }

  lemma RepairedInPlace(calculations: seq<Calculation>, pf: Platform, i: nat)
    requires i < |calculations| && MigrateBoth(calculations, pf).Ok?
    requires |Backfill(calculations, |calculations|, pf).attempts| == |calculations|
    ensures var t := MigrateBoth(calculations, pf).value;
            && |t.attempts| == |calculations|
            && t.attempts[i] == RepairAttempt(Backfill(calculations, |calculations|, pf).attempts[i], pf)
            && AttemptOk(t.attempts[i])
  {
  }

  /** What 015 makes of a calculation: two columns hardened, everything else kept. */
  lemma HardenedCalculation(c: Calculation, pf: Platform)
    ensures var d := RepairCalculation(c, pf);
            && d == c.(idempotencyHash := d.idempotencyHash, implementationChecksum := d.implementationChecksum)
            && Hardened(Some(c.idempotencyHash), Some(d.idempotencyHash), c.id, pf)
            && Hardened(Some(c.implementationChecksum), Some(d.implementationChecksum), c.id, pf)
  {
    RepairExactly(Some(c.idempotencyHash), c.id, pf);
    RepairExactly(Some(c.implementationChecksum), c.id, pf);
  }

  /** Of the rows the completed ones are kept, in their order, and no others. */
  lemma {:induction false} KeptInOrder(a: seq<Calculation>, b: seq<Calculation>)
    ensures OnlyCompleted(a + b) == OnlyCompleted(a) + OnlyCompleted(b)
    ensures |b| == 1 ==> OnlyCompleted(b) == if b[0].status == Completed then b else []
  {
    if b == [] {
      assert a + b == a;
    } else {
      var init, last := b[..|b| - 1], b[|b| - 1];
      assert (a + b)[..|a + b| - 1] == a + init;
      KeptInOrder(a, init);
      if |b| == 1 {
        assert init == [] && b == [last];
      }
    }
  }

  /** An attempt that repair cannot make acceptable. */
  predicate BeyondRepair(a: Attempt) {
    || a.status.OtherStatus? || a.number == 0
    || (a.status == Completed && a.errorCode != None)
    || (a.status == Pending && (a.errorCode != None || a.completedAt != None))
    || (a.status != Completed && !(Formed(a.executionHash) && Formed(a.specChecksum) && Formed(a.implementationChecksum)))
  }

  predicate Formed(h: Option<Hash>) {
    h.Some? ==> SixtyFourHexDigits(h.value)
  }

  /**
    Which tables 015 accepts, whatever wrote them: every calculation linked and
    COMPLETED, as many of them as completed attempts, no attempt beyond repair, and no
    two calculations of an organization with one hash once it is repaired.
   */
  lemma HardenedExactly(t: Tables, pf: Platform)
    requires Md5Shape(pf)
    ensures Upgrade015(t, pf).Ok? <==>
              && (forall i :: 0 <= i < |t.calculations| ==>
                    t.calculations[i].request != None && t.calculations[i].attempt != None && t.calculations[i].status == Completed)
              && |t.calculations| == CountCompleted(t.attempts)
              && (forall i :: 0 <= i < |t.attempts| ==> !BeyondRepair(t.attempts[i]))
              && HashesDistinct(RepairCalculations(t.calculations, pf))
  {
    forall i | 0 <= i < |t.attempts| ensures AttemptOk(RepairAttempts(t.attempts, pf)[i]) <==> !BeyondRepair(t.attempts[i]) {
      RepairedUnlessBeyond(t.attempts[i], pf);
    }
    if Preflight015(t).None? {
      RepairedCalculationsOk(t.calculations, pf);
    }
  }

  lemma RepairedUnlessBeyond(a: Attempt, pf: Platform)
    requires Md5Shape(pf)
    ensures AttemptOk(RepairAttempt(a, pf)) <==> !BeyondRepair(a)
  {
    RepairShape(a.executionHash, a.id, pf);
    RepairShape(a.specChecksum, a.id, pf);
    RepairShape(a.implementationChecksum, a.id, pf);
    if a.executionHash.Some? { HexDigits(a.executionHash.value); }
    if a.specChecksum.Some? { HexDigits(a.specChecksum.value); }
    if a.implementationChecksum.Some? { HexDigits(a.implementationChecksum.value); }
  }

  /** 014 always leaves tables that pass 015's preflight. */
  lemma PreflightPasses(calculations: seq<Calculation>, pf: Platform)
    requires Upgrade014(calculations, pf).Ok?
    ensures Preflight015(Upgrade014(calculations, pf).value).None?
  {
    RowsFilledIn(calculations, pf);
    KeepingCompletedPasses(Backfill(calculations, |calculations|, pf));
  }

  /** Every kept calculation is linked to a completed attempt of its organization with its hash. */
  predicate Linked(c: Calculation, attempts: seq<Attempt>, k: int) {
    && 0 <= k < |attempts| && c.attempt == Some(attempts[k].id) && c.request == Some(attempts[k].request)
    && attempts[k].org == c.identity.org && attempts[k].status.Completed?
    && attempts[k].executionHash == Some(c.idempotencyHash)
  }

  ghost predicate HasLink(c: Calculation, attempts: seq<Attempt>) {
    exists k :: Linked(c, attempts, k)
  }

  lemma {:induction false} KeptRowIndex(calculations: seq<Calculation>, i: nat) returns (k: nat)
    requires i < |OnlyCompleted(calculations)|
    ensures k < |calculations| && calculations[k] == OnlyCompleted(calculations)[i] && calculations[k].status.Completed?
  {
    var init := calculations[..|calculations| - 1];
    if i < |OnlyCompleted(init)| {
      k := KeptRowIndex(init, i);
    } else {
      k := |calculations| - 1;
    }
  }

  lemma LinkSurvivesRepair(c: Calculation, attempts: seq<Attempt>, k: int, pf: Platform)
    requires Linked(c, attempts, k)
    ensures Linked(RepairCalculation(c, pf), RepairAttempts(attempts, pf), k)
  {
  }

  /** Links play no part in the repaired hashes. */
  lemma RepairIgnoresLinks(before: seq<Calculation>, after: seq<Calculation>, pf: Platform)
    requires |before| == |after| && forall i :: 0 <= i < |before| ==> SameButLinks(before[i], after[i])
    ensures HashesDistinct(RepairCalculations(before, pf)) <==> HashesDistinct(RepairCalculations(after, pf))
  {
    var x, y := RepairCalculations(before, pf), RepairCalculations(after, pf);
    forall i | 0 <= i < |x| ensures x[i].identity == y[i].identity && x[i].idempotencyHash == y[i].idempotencyHash {
      assert SameButLinks(before[i], after[i]);
    }
  }

  /** The repaired hashes of the kept rows are those of the original completed rows. */
  lemma RepairedHashesOfKeptRows(calculations: seq<Calculation>, pf: Platform)
    ensures var t := Backfill(calculations, |calculations|, pf);
            HashesDistinct(RepairCalculations(OnlyCompleted(t.calculations), pf)) <==> RepairedHashesDistinct(calculations, pf)
  {
    OnlyLinksChange(calculations, pf);
    var after := Backfill(calculations, |calculations|, pf).calculations;
    KeptRows(calculations, after);
    RepairIgnoresLinks(OnlyCompleted(calculations), OnlyCompleted(after), pf);
  }

  lemma RepairedAttemptsOk(calculations: seq<Calculation>, pf: Platform)
    requires Md5Shape(pf) && forall i :: 0 <= i < |calculations| ==> Acceptable014(calculations[i])
    ensures var repaired := RepairAttempts(Backfill(calculations, |calculations|, pf).attempts, pf);
            && |repaired| == |calculations|
            && forall i :: 0 <= i < |calculations| ==> (AttemptOk(repaired[i]) <==> CompletedOrFailed(calculations[i]))
  {
    var t := Backfill(calculations, |calculations|, pf);
    BackfillProgress(calculations, |calculations|, pf);
    forall i | 0 <= i < |calculations|
      ensures AttemptOk(RepairAttempt(t.attempts[i], pf)) <==> CompletedOrFailed(calculations[i])
    {
      assert AttemptFits(t, i, calculations[i], pf);
      NumbersBounded(t.attempts, i);
      RepairedAttemptOk(calculations[i], t.attempts[i].id, t.attempts[i].request, t.attempts[i].number, pf);
    }
  }

  lemma RepairedCalculationsOk(kept: seq<Calculation>, pf: Platform)
    requires Md5Shape(pf) && forall i :: 0 <= i < |kept| ==> kept[i].status.Completed?
    ensures forall i :: 0 <= i < |kept| ==> CalculationOk(RepairCalculations(kept, pf)[i])
  {
    forall i | 0 <= i < |kept| ensures CalculationOk(RepairCalculations(kept, pf)[i]) {
      RepairShape(Some(kept[i].idempotencyHash), kept[i].id, pf);
      RepairShape(Some(kept[i].implementationChecksum), kept[i].id, pf);
    }
  }

  lemma HardeningSucceedsExactly(calculations: seq<Calculation>, t: Tables, pf: Platform)
    requires Preflight015(t).None? && |t.attempts| == |calculations|
    requires forall i :: 0 <= i < |calculations| ==>
               (AttemptOk(RepairAttempts(t.attempts, pf)[i]) <==> CompletedOrFailed(calculations[i]))
    requires forall i :: 0 <= i < |t.calculations| ==> CalculationOk(RepairCalculations(t.calculations, pf)[i])
    ensures Upgrade015(t, pf).Ok? <==>
              AllCompletedOrFailed(calculations) && HashesDistinct(RepairCalculations(t.calculations, pf))
  {
  }

  /**
    The two migrations go through on a table exactly when every calculation is
    COMPLETED or FAILED, none has a reconciliation to update, and no two completed ones
    of an organization are given one hash by the rewriting.
   */
  lemma MigrationSucceedsExactly(calculations: seq<Calculation>, pf: Platform)
    requires Md5Shape(pf)
    ensures MigrateBoth(calculations, pf).Ok? <==>
              NoneReconciled(calculations) && AllCompletedOrFailed(calculations) && RepairedHashesDistinct(calculations, pf)
  {
    if !NoneLocked(calculations) {
    } else if !AcceptableUpTo(calculations, |calculations|) {
      var i :| 0 <= i < |calculations| && !Acceptable014(calculations[i]);
      assert !CompletedOrFailed(calculations[i]);
    } else {
      PreflightPasses(calculations, pf);
      RepairedHashesOfKeptRows(calculations, pf);
      RepairedAttemptsOk(calculations, pf);
      RepairedCalculationsOk(OnlyCompleted(Backfill(calculations, |calculations|, pf).calculations), pf);
      HardeningSucceedsExactly(calculations, Upgrade014(calculations, pf).value, pf);
    }
  }

  lemma KeptRowLinked(calculations: seq<Calculation>, pf: Platform, i: nat)
    requires i < |OnlyCompleted(Backfill(calculations, |calculations|, pf).calculations)|
    ensures var t := Backfill(calculations, |calculations|, pf);
            HasLink(OnlyCompleted(t.calculations)[i], t.attempts)
  {
    var t := Backfill(calculations, |calculations|, pf);
    BackfillProgress(calculations, |calculations|, pf);
    var k := KeptRowIndex(t.calculations, i);
    assert AttemptFits(t, k, calculations[k], pf);
    assert Linked(t.calculations[k], t.attempts, k);
  }

  lemma TwoCompleted(a: Calculation, b: Calculation)
    requires a.status.Completed? && b.status.Completed?
    ensures OnlyCompleted([a, b]) == [a, b]
  {
    assert [a, b][..1] == [a] && [a][..0] == [];
    assert OnlyCompleted([a]) == [a];
  }

  /** The row whose hash is what another's is rewritten to. */
  function Twin(c: Calculation, pf: Platform): Calculation {
    c.(id := c.id + 1, idempotencyHash := pf.md5(c.idempotencyHash) + pf.md5(c.idempotencyHash))
  }

  lemma TwinsCollide(c: Calculation, pf: Platform)
    requires Md5Shape(pf) && !IsHex64(c.idempotencyHash)
    ensures HashesDistinct([c, Twin(c, pf)]) && !HashesDistinct(RepairCalculations([c, Twin(c, pf)], pf))
  {
    var rows := RepairCalculations([c, Twin(c, pf)], pf);
    assert rows[0].idempotencyHash == rows[1].idempotencyHash && rows[0].identity == rows[1].identity;
  }

  /**
    A table that 014 accepts and 015 does not: two completed rows whose hashes differ,
    one of them being what the other is rewritten to.
   */
  lemma RewritingCanCollide(c: Calculation, pf: Platform)
    requires Md5Shape(pf) && c.status.Completed? && !IsHex64(c.idempotencyHash)
    ensures var row := c.(reconciled := false);
            var table := [row, Twin(row, pf)];
            && HashesDistinct(table) && AllCompletedOrFailed(table) && NoneReconciled(table)
            && Upgrade014(table, pf).Ok? && MigrateBoth(table, pf).Err?
  {
    var row := c.(reconciled := false);
    TwinsCollide(row, pf);
    TwoCompleted(row, Twin(row, pf));
    MigrationSucceedsExactly([row, Twin(row, pf)], pf);
  }

  lemma RepairedRowsLinked(kept: seq<Calculation>, attempts: seq<Attempt>, pf: Platform)
    requires forall i :: 0 <= i < |kept| ==> HasLink(kept[i], attempts)
    ensures var rows := RepairCalculations(kept, pf);
            forall i :: 0 <= i < |rows| ==> HasLink(rows[i], RepairAttempts(attempts, pf))
  {
    var rows := RepairCalculations(kept, pf);
    forall i | 0 <= i < |rows| ensures HasLink(rows[i], RepairAttempts(attempts, pf)) {
      var k :| Linked(kept[i], attempts, k);
      LinkSurvivesRepair(kept[i], attempts, k, pf);
    }
  }

  ghost predicate Consistent(t: Tables) {
    && (forall i :: 0 <= i < |t.attempts| ==> AttemptOk(t.attempts[i]))
    && (forall i :: 0 <= i < |t.calculations| ==> CalculationOk(t.calculations[i]))
    && HashesDistinct(t.calculations)
    && forall i :: 0 <= i < |t.calculations| ==> HasLink(t.calculations[i], t.attempts)
  }

  lemma RepairConsistent(t: Tables, pf: Platform)
    requires Upgrade015(t, pf).Ok?
    requires forall i :: 0 <= i < |t.calculations| ==> HasLink(t.calculations[i], t.attempts)
    ensures Consistent(Upgrade015(t, pf).value) && |Upgrade015(t, pf).value.attempts| == |t.attempts|
  {
    RepairedRowsLinked(t.calculations, t.attempts, pf);
  }

  /** After both migrations every constraint holds and each calculation still has its attempt's hash. */
  lemma MigratedTablesAgree(calculations: seq<Calculation>, pf: Platform)
    requires MigrateBoth(calculations, pf).Ok?
    ensures Consistent(MigrateBoth(calculations, pf).value)
    ensures |MigrateBoth(calculations, pf).value.attempts| == |calculations|
  {
    AttemptsNumbered(calculations, pf);
    var kept := OnlyCompleted(Backfill(calculations, |calculations|, pf).calculations);
    forall i | 0 <= i < |kept|
      ensures HasLink(kept[i], Backfill(calculations, |calculations|, pf).attempts)
    {
      KeptRowLinked(calculations, pf, i);
    }
    RepairConsistent(Upgrade014(calculations, pf).value, pf);
  }

  // --------------------------------------------------------- over mutable tables

  class Database {
    var calculations: seq<Calculation>
    var requests: seq<Request>
    var attempts: seq<Attempt>
    var nextId: Uuid

    ghost function State(): Tables
      reads this
    {
      Tables(calculations, requests, attempts, nextId)
    }

    constructor (rows: seq<Calculation>)
      ensures State() == Fresh(rows)
    {
      calculations, requests, attempts, nextId := rows, [], [], 0;
    }

    method GenRandomUuid() returns (id: Uuid)
      modifies this`nextId
      ensures id == old(nextId) && nextId == old(nextId) + 1
    {
      id := nextId;
      nextId := nextId + 1;
    }

    /** One turn of the DO block of 014; the attempts table refuses a status it does not know. */
    method BackfillOne(i: nat, c: Calculation, pf: Platform) returns (ok: bool)
      requires i < |calculations| && calculations[i] == c
      modifies this
      ensures ok <==> Acceptable014(c)
      ensures ok ==> State() == BackfillRow(old(State()), i, pf)
    {
      var fingerprint := Fingerprint(c.identity, pf);
      var found := FindRequest(requests, c.identity.org, fingerprint);
      var request;
      if found.None? {
        request := GenRandomUuid();
        requests := requests + [RequestOf(c, request, pf)];
      } else {
        request := found.value;
      }
      var number := MaxNumber(attempts, c.identity.org, request) + 1;
      var attempt := GenRandomUuid();
      if c.status.OtherStatus? {
        return false;
      }
      attempts := attempts + [AttemptOf(c, attempt, request, number)];
      calculations := calculations[i := c.(request := Some(request), attempt := Some(attempt))];
      return true;
    }

    method NextTurn(cursor: seq<Calculation>, i: nat, pf: Platform) returns (ok: bool)
      requires i < |cursor| && State() == Backfill(cursor, i, pf)
      modifies this
      ensures ok <==> Acceptable014(cursor[i])
      ensures ok ==> State() == Backfill(cursor, i + 1, pf)
    {
      AheadOfCursor(cursor, i, pf);
      ok := BackfillOne(i, cursor[i], pf);
    }

    /** The loop runs over the rows as they stood when it began. */
    method BackfillLoop(cursor: seq<Calculation>, pf: Platform) returns (error: Option<MigrationError>)
      requires State() == Backfill(cursor, 0, pf)
      modifies this
      ensures error.None? ==> State() == Backfill(cursor, |cursor|, pf) && AcceptableUpTo(cursor, |cursor|)
      ensures error.Some? ==> error.value == AttemptStatusInvalid && exists j :: 0 <= j < |cursor| && !Acceptable014(cursor[j])
    {
      for i := 0 to |cursor|
        invariant State() == Backfill(cursor, i, pf)
        invariant AcceptableUpTo(cursor, i)
      {
        var ok := NextTurn(cursor, i, pf);
        if !ok {
          return Some(AttemptStatusInvalid);
        }
        AcceptableExtends(cursor, i);
      }
      return None;
    }

    /** 014: the reconciliations' update, then the DO block's loop over the rows as they stood when it began. */
    method BackfillRequestsAndAttempts(pf: Platform) returns (error: Option<MigrationError>)
      requires State() == Fresh(calculations)
      modifies this
      ensures error.None? ==> Upgrade014(old(calculations), pf) == Ok(State())
      ensures error.Some? ==> Upgrade014(old(calculations), pf) == Err(error.value)
    {
      var cursor := calculations;
      if !NoneLocked(cursor) {
        return Some(LineageImmutable);
      }
      error := BackfillLoop(cursor, pf);
      if error.None? {
        calculations := OnlyCompleted(calculations);
      }
    }

    /** 015 from its preflight to its constraints. */
    method HardenIntegrity(pf: Platform) returns (error: Option<MigrationError>)
      modifies this
      ensures error.None? ==> Upgrade015(old(State()), pf) == Ok(State())
      ensures error.Some? ==> Upgrade015(old(State()), pf) == Err(error.value) && State() == old(State())
    {
      error := Preflight015(Tables(calculations, requests, attempts, nextId));
      if error.Some? {
        return;
      }
      var repairedAttempts := RepairAttempts(attempts, pf);
      var repairedCalculations := RepairCalculations(calculations, pf);
      if !HashesDistinct(repairedCalculations) {
        return Some(DuplicateIdempotencyHash);
      }
      if exists i :: 0 <= i < |repairedAttempts| && !AttemptOk(repairedAttempts[i]) {
        return Some(AttemptConstraintViolated);
      }
      if exists i :: 0 <= i < |repairedCalculations| && !CalculationOk(repairedCalculations[i]) {
        return Some(CalculationConstraintViolated);
      }
      attempts, calculations := repairedAttempts, repairedCalculations;
    }
  }
}
