/**
  Signed ingestion commands (services/worker/app/command_envelope.py): the
  length-prefixed payload, its signature and the fail-closed validation.

  HMAC (section 2 of RFC 2104), the text of UUIDs and of timestamps are parameters.
 */
module CommandEnvelope {

  import opened Wrappers
  import opened DecimalText

  type Uuid = nat
  type Micros = int

  const SCHEMA_VERSION := "2.0.0"
  const COMMAND_TYPE := "PROCESS_INGESTION_JOB"
  const MAX_SKEW: Micros := 300_000_000

  datatype Envelope = Envelope(
    jobId: Uuid, commandId: Uuid, commandType: string, issuedAt: Micros, expiresAt: Micros,
    idempotencyKey: string, schemaVersion: string, keyId: string, signature: string)

  datatype EnvelopeError =
    | CommandSchemaRejected | CommandTypeInvalid | CommandExpired | CommandClockSkew
    | CommandKeyUnavailable | CommandSignatureInvalid

  /** Text of identifiers and timestamps, and the keyed hash. */
  datatype Platform = Platform(uuidText: Uuid -> string, isoText: Micros -> string, hmac: (string, string) -> string)

  // ---------------------------------------------------------------- encoding

  function EncodePart(p: string): string {
    Digits(|p|) + ":" + p
  }

  /** "|".join(f"{len(p)}:{p}" for p in parts) */
  function Encode(parts: seq<string>): string {
    if parts == [] then ""
    else if |parts| == 1 then EncodePart(parts[0])
    else EncodePart(parts[0]) + "|" + Encode(parts[1..])
  }

  /** Position of the first colon. */
  function FirstColon(s: string): (r: Option<nat>)
    ensures r.Some? ==> r.value < |s| && s[r.value] == ':' && forall i :: 0 <= i < r.value ==> s[i] != ':'
    ensures r.None? ==> ':' !in s
  {
    if s == "" then None
    else if s[0] == ':' then Some(0)
    else
      var r := FirstColon(s[1..]);
      if r.Some? then Some(r.value + 1) else None
  }

  /** A reader that needs no separator: each length says where its part ends. */
  function Decode(s: string): Option<seq<string>>
    decreases |s|
  {
    if s == "" then Some([])
    else
      var colon := FirstColon(s);
      if colon.None? || colon.value == 0 || !AllDigits(s[..colon.value]) then None
      else
        var size := Value(s[..colon.value]);
        var body := s[colon.value + 1..];
        if |body| < size then None
        else if |body| == size then Some([body])
        else if body[size] != '|' || size + 1 == |body| then None
        else
          var rest := Decode(body[size + 1..]);
          if rest.None? then None else Some([body[..size]] + rest.value)
  }

  lemma {:induction false} FirstColonAfterDigits(d: string, t: string)
    requires AllDigits(d)
    ensures FirstColon(d + ":" + t) == Some(|d|)
  {
    var s := d + ":" + t;
    if d != "" {
      assert s[1..] == d[1..] + ":" + t;
      FirstColonAfterDigits(d[1..], t);
    }
  }

  lemma {:induction false} EncodeNonEmpty(parts: seq<string>)
    requires parts != []
    ensures Encode(parts) != ""
  {
  }

  /** Decoding reads off the first part and goes on behind the bar. */
  lemma DecodeFirst(p: string, tail: string)
    requires tail == "" || (|tail| > 1 && tail[0] == '|')
    ensures Decode(Digits(|p|) + ":" + (p + tail)) ==
            if tail == "" then Some([p])
            else match Decode(tail[1..]) case None => None case Some(rest) => Some([p] + rest)
  {
    var d, body := Digits(|p|), p + tail;
    var s := d + ":" + body;
    FirstColonAfterDigits(d, body);
    assert s[..|d|] == d && s[|d| + 1..] == body;
    ValueOfDigits(|p|);
    assert body[..|p|] == p;
    if tail == "" {
      assert body == p;
    } else {
      assert body[|p|] == '|' && body[|p| + 1..] == tail[1..];
    }
  }

  /** What stands behind the first part. */
  function Tail(parts: seq<string>): string
    requires parts != []
  {
    if |parts| == 1 then "" else "|" + Encode(parts[1..])
  }

  lemma EncodeSplits(parts: seq<string>)
    requires parts != []
    ensures Encode(parts) == Digits(|parts[0]|) + ":" + (parts[0] + Tail(parts))
    ensures |parts| > 1 ==> |Tail(parts)| > 1 && Tail(parts)[0] == '|' && Tail(parts)[1..] == Encode(parts[1..])
  {
    if |parts| > 1 {
      EncodeNonEmpty(parts[1..]);
    }
  }

  /** The encoding loses nothing, whatever colons, bars or digits the parts contain. */
  lemma {:induction false} DecodeInvertsEncode(parts: seq<string>)
    ensures Decode(Encode(parts)) == Some(parts)
  {
    if parts != [] {
      EncodeSplits(parts);
      DecodeFirst(parts[0], Tail(parts));
      if |parts| > 1 {
        DecodeInvertsEncode(parts[1..]);
        assert [parts[0]] + parts[1..] == parts;
      } else {
        assert [parts[0]] == parts;
      }
    }
  }

  lemma EncodeInjective(a: seq<string>, b: seq<string>)
    requires Encode(a) == Encode(b)
    ensures a == b
  {
    DecodeInvertsEncode(a);
    DecodeInvertsEncode(b);
  }

  // -------------------------------------------------------------- signatures

  function SignedParts(e: Envelope, pf: Platform): seq<string> {
    [e.schemaVersion, pf.uuidText(e.commandId), pf.uuidText(e.jobId), e.commandType,
     pf.isoText(e.issuedAt), pf.isoText(e.expiresAt), e.idempotencyKey, e.keyId]
  }

  function CanonicalPayload(e: Envelope, pf: Platform): string {
    Encode(SignedParts(e, pf))
  }

  function ComputeSignature(e: Envelope, secret: string, pf: Platform): Result<string, EnvelopeError> {
    if secret == "" then Err(CommandKeyUnavailable) else Ok(pf.hmac(secret, CanonicalPayload(e, pf)))
  }

  function WithSignature(e: Envelope, secret: string, pf: Platform): Result<Envelope, EnvelopeError> {
    match ComputeSignature(e, secret, pf)
    case Err(error) => Err(error)
    case Ok(sig) => Ok(e.(signature := sig))
  }

  function Distance(a: Micros, b: Micros): Micros {
    if a < b then b - a else a - b
  }

  /** The checks in their order; None is acceptance. */
  function ValidateEnvelope(e: Envelope, now: Micros, resolver: string -> string, pf: Platform): Option<EnvelopeError> {
    if e.schemaVersion != SCHEMA_VERSION then Some(CommandSchemaRejected)
    else if e.commandType != COMMAND_TYPE then Some(CommandTypeInvalid)
    else if now > e.expiresAt then Some(CommandExpired)
    else if Distance(now, e.issuedAt) > MAX_SKEW then Some(CommandClockSkew)
    else match ComputeSignature(e, resolver(e.keyId), pf)
      case Err(error) => Some(error)
      case Ok(expected) => if e.signature != expected then Some(CommandSignatureInvalid) else None
  }

  ghost predicate FaithfulText(pf: Platform) {
    && (forall a, b :: pf.uuidText(a) == pf.uuidText(b) ==> a == b)
    && (forall a, b :: pf.isoText(a) == pf.isoText(b) ==> a == b)
  }

  predicate SameSignedFields(a: Envelope, b: Envelope) {
    a.(signature := b.signature) == b
  }

  /** Equal payloads mean equal envelopes up to the signature: all eight signed fields agree. */
  lemma PayloadDeterminesFields(a: Envelope, b: Envelope, pf: Platform)
    requires FaithfulText(pf)
    ensures CanonicalPayload(a, pf) == CanonicalPayload(b, pf) <==> SameSignedFields(a, b)
  {
    if CanonicalPayload(a, pf) == CanonicalPayload(b, pf) {
      EncodeInjective(SignedParts(a, pf), SignedParts(b, pf));
      var x, y := SignedParts(a, pf), SignedParts(b, pf);
      assert x[0] == y[0] && x[1] == y[1] && x[2] == y[2] && x[3] == y[3];
      assert x[4] == y[4] && x[5] == y[5] && x[6] == y[6] && x[7] == y[7];
    }
  }

  /** Signing twice with one secret is signing once. */
  lemma ResigningIsIdempotent(e: Envelope, secret: string, pf: Platform)
    requires secret != ""
    ensures WithSignature(e, secret, pf).Ok?
    ensures WithSignature(WithSignature(e, secret, pf).value, secret, pf) == WithSignature(e, secret, pf)
    ensures SameSignedFields(e, WithSignature(e, secret, pf).value)
  {
    assert SignedParts(e, pf) == SignedParts(WithSignature(e, secret, pf).value, pf);
  }

  /**
    An envelope signed with the secret its key resolves to is accepted exactly
    when version, type, expiry and clock skew allow it.
   */
  lemma SignedEnvelopeAcceptedExactly(e: Envelope, now: Micros, resolver: string -> string, pf: Platform)
    requires resolver(e.keyId) != ""
    ensures var signed := WithSignature(e, resolver(e.keyId), pf).value;
            ValidateEnvelope(signed, now, resolver, pf).None? <==>
              && e.schemaVersion == SCHEMA_VERSION && e.commandType == COMMAND_TYPE
              && now <= e.expiresAt && e.issuedAt - MAX_SKEW <= now <= e.issuedAt + MAX_SKEW
  {
    assert SignedParts(e, pf) == SignedParts(WithSignature(e, resolver(e.keyId), pf).value, pf);
  }

  /** The wire format on an example: each part behind its length and a colon, bars between parts. */
  lemma EncodedExample()
    ensures Encode(["2.0.0", "", "a|1:b"]) == "5:2.0.0|0:|5:a|1:b"
  {
    assert Digits(5) == "5" && Digits(0) == "0";
    var parts := ["2.0.0", "", "a|1:b"];
    assert parts[1..] == ["", "a|1:b"] && parts[1..][1..] == ["a|1:b"];
    assert Encode(["a|1:b"]) == "5:a|1:b";
    assert Encode(["", "a|1:b"]) == "0:" + "|" + "5:a|1:b";
  }

  /** Which error any envelope meets, the first of the failed checks in this order counting, and when it meets none. */
  lemma ValidatedExactly(e: Envelope, now: Micros, resolver: string -> string, pf: Platform)
    ensures var schema := e.schemaVersion == "2.0.0";
            var type_ := e.commandType == "PROCESS_INGESTION_JOB";
            var current := now <= e.expiresAt;
            var near := e.issuedAt - 300_000_000 <= now <= e.issuedAt + 300_000_000;
            var known := resolver(e.keyId) != "";
            var signed := e.signature == pf.hmac(resolver(e.keyId), CanonicalPayload(e, pf));
            var verdict := ValidateEnvelope(e, now, resolver, pf);
            && (verdict == None <==> schema && type_ && current && near && known && signed)
            && (verdict == Some(CommandSchemaRejected) <==> !schema)
            && (verdict == Some(CommandTypeInvalid) <==> schema && !type_)
            && (verdict == Some(CommandExpired) <==> schema && type_ && !current)
            && (verdict == Some(CommandClockSkew) <==> schema && type_ && current && !near)
            && (verdict == Some(CommandKeyUnavailable) <==> schema && type_ && current && near && !known)
            && (verdict == Some(CommandSignatureInvalid) <==> schema && type_ && current && near && known && !signed)
  {
  }

  /** Accepting a second envelope under the signature of another one takes a collision of the keyed hash. */
  lemma ReusedSignatureIsCollision(a: Envelope, b: Envelope, now: Micros, resolver: string -> string, pf: Platform)
    requires FaithfulText(pf) && a.signature == b.signature && a.keyId == b.keyId && a != b
    requires ValidateEnvelope(a, now, resolver, pf).None? && ValidateEnvelope(b, now, resolver, pf).None?
    ensures CanonicalPayload(a, pf) != CanonicalPayload(b, pf)
    ensures pf.hmac(resolver(a.keyId), CanonicalPayload(a, pf)) == pf.hmac(resolver(a.keyId), CanonicalPayload(b, pf))
  {
    PayloadDeterminesFields(a, b, pf);
  }
}
