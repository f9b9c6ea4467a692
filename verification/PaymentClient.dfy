// The Python side of the payment boundary: reading one reply line from the socket,
// and deciding what an answer of the sidecar means.
module PaymentClient {
  import opened Prelude
  import opened CanonicalJson
  import opened Canary

  datatype PaymentError =
    | BoundaryUnavailable
    | AuthorizationError
    | PreflightRejected
    | OutcomeUnknown
    | PolicyConflict

  // ------------------------------------------------------------- the transport

  type Bytes = seq<bv8>

  const NEWLINE: bv8 := 10

  // What the socket does: a chunk may be empty (end of stream), and a read may fail.
  datatype Receive = Chunk(data: Bytes) | ReceiveFailed

  datatype Transport = Transport(connects: bool, sends: bool, receives: seq<Receive>)

  // The bytes collected until a newline or the end of the stream; None when a read
  // fails, times out or the size cap is passed.
  function Collected(receives: seq<Receive>, total: nat, cap: nat): Option<Bytes>
    decreases |receives|
  {
    if receives == [] || receives[0].ReceiveFailed? then None
    else
      var chunk := receives[0].data;
      if chunk == [] then Some([])
      else if total + |chunk| > cap then None
      else if NEWLINE in chunk then Some(chunk)
      else Prepended(chunk, Collected(receives[1..], total + |chunk|, cap))
  }

  function Prepended(data: Bytes, rest: Option<Bytes>): Option<Bytes> {
    if rest.Some? then Some(data + rest.value) else None
  }

  lemma PrependedSome(a: Bytes, b: Bytes)
    ensures Prepended(a, Some(b)) == Some(a + b)
    ensures Prepended(a, None) == None
  {
  }

  lemma PrependedTwice(a: Bytes, b: Bytes, rest: Option<Bytes>)
    ensures Prepended(a, Prepended(b, rest)) == Prepended(a + b, rest)
    ensures Prepended([], rest) == rest
  {
    if rest.Some? {
      assert a + (b + rest.value) == (a + b) + rest.value;
      assert [] + rest.value == rest.value;
    }
  }

  function FirstLine(data: Bytes): Bytes {
    if data == [] || data[0] == NEWLINE then [] else [data[0]] + FirstLine(data[1..])
  }

  // The whole stream up to its end.
  function Stream(receives: seq<Receive>): Bytes
    decreases |receives|
  {
    if receives == [] || receives[0].ReceiveFailed? || receives[0].data == [] then []
    else receives[0].data + Stream(receives[1..])
  }

  // The reply line of a call, or how it fails: nothing sent means plainly unavailable,
  // anything later means the outcome is unknown.
  function ReplyLine(t: Transport, cap: nat): Result<Bytes, PaymentError> {
    if !t.connects then Err(BoundaryUnavailable)
    else if !t.sends then Err(OutcomeUnknown)
    else match Collected(t.receives, 0, cap) {
      case None => Err(OutcomeUnknown)
      case Some(data) => if FirstLine(data) == [] then Err(OutcomeUnknown) else Ok(FirstLine(data))
    }
  }

  // The receive loop.
  method CollectChunks(receives: seq<Receive>, cap: nat) returns (r: Option<Bytes>)
    ensures r == Collected(receives, 0, cap)
  {
    hide Prepended;
    var chunks: Bytes := [];
    var total := 0;
    var i := 0;
    assert receives[0..] == receives;
    PrependedTwice([], [], Collected(receives, 0, cap));
    while i < |receives| && receives[i].Chunk?
      invariant 0 <= i <= |receives| && total == |chunks|
      invariant Collected(receives, 0, cap) == Prepended(chunks, Collected(receives[i..], total, cap))
    {
      var chunk := receives[i].data;
      if chunk == [] {
        PrependedSome(chunks, chunk);
        return Some(chunks + chunk);
      }
      if total + |chunk| > cap {
        PrependedSome(chunks, chunk);
        return None;
      }
      if NEWLINE in chunk {
        PrependedSome(chunks, chunk);
        return Some(chunks + chunk);
      }
      assert receives[i..][1..] == receives[i + 1..];
      PrependedTwice(chunks, chunk, Collected(receives[i + 1..], total + |chunk|, cap));
      chunks := chunks + chunk;
      total := total + |chunk|;
      i := i + 1;
    }
    PrependedSome(chunks, chunks);
    return None;
  }

  // One call over the socket. `decode` parses a reply line, when it is a JSON object.
  method Request(t: Transport, cap: nat, decode: Bytes -> Option<Json>) returns (r: Result<Json, PaymentError>)
    ensures r == match ReplyLine(t, cap) {
                   case Err(e) => Err(e)
                   case Ok(line) => if decode(line).Some? then Ok(decode(line).value) else Err(OutcomeUnknown)
                 }
  {
    hide Collected, FirstLine;
    var requestMayHaveRun := false;
    if !t.connects { return if requestMayHaveRun then Err(OutcomeUnknown) else Err(BoundaryUnavailable); }
    requestMayHaveRun := true;
    if !t.sends { return if requestMayHaveRun then Err(OutcomeUnknown) else Err(BoundaryUnavailable); }
    var data := CollectChunks(t.receives, cap);
    if data.None? { return if requestMayHaveRun then Err(OutcomeUnknown) else Err(BoundaryUnavailable); }
    var raw := FirstLine(data.value);
    if raw == [] { return if requestMayHaveRun then Err(OutcomeUnknown) else Err(BoundaryUnavailable); }
    var value := decode(raw);
    if value.None? { return if requestMayHaveRun then Err(OutcomeUnknown) else Err(BoundaryUnavailable); }
    return Ok(value.value);
  }

  // Plain unavailability is reported exactly when nothing was sent.
  lemma UnavailableMeansUnsent(t: Transport, cap: nat)
    ensures ReplyLine(t, cap) == Err(BoundaryUnavailable) <==> !t.connects
    ensures ReplyLine(t, cap).Err? && t.connects ==> ReplyLine(t, cap) == Err(OutcomeUnknown)
  {
    hide Collected, FirstLine;
  }

  lemma {:induction false} FirstLineStops(data: Bytes, more: Bytes)
    requires NEWLINE in data
    ensures FirstLine(data + more) == FirstLine(data)
  {
    if data[0] != NEWLINE {
      assert (data + more)[1..] == data[1..] + more;
      FirstLineStops(data[1..], more);
    }
  }

  lemma {:induction false} FirstLineExtends(data: Bytes, a: Bytes, b: Bytes)
    requires FirstLine(a) == FirstLine(b)
    ensures FirstLine(data + a) == FirstLine(data + b)
  {
    if data == [] {
      assert data + a == a && data + b == b;
    } else if data[0] != NEWLINE {
      assert (data + a)[1..] == data[1..] + a && (data + b)[1..] == data[1..] + b;
      FirstLineExtends(data[1..], a, b);
    }
  }

  // A reply line does not depend on how the stream was cut into chunks: whenever a
  // reply is accepted, it is the first line of the whole stream.
  lemma {:induction false} ReplyIsFirstLineOfStream(receives: seq<Receive>, total: nat, cap: nat)
    requires Collected(receives, total, cap).Some?
    ensures FirstLine(Collected(receives, total, cap).value) == FirstLine(Stream(receives))
    decreases |receives|
  {
    var chunk := receives[0].data;
    if chunk != [] {
      if NEWLINE in chunk {
        FirstLineStops(chunk, Stream(receives[1..]));
      } else {
        ReplyIsFirstLineOfStream(receives[1..], total + |chunk|, cap);
        FirstLineExtends(chunk, Collected(receives[1..], total + |chunk|, cap).value, Stream(receives[1..]));
      }
    }
  }

  // ---------------------------------------------------------------- the answer

  datatype SettlementEvidence = SettlementEvidence(
    headerSha256: string, signature: string, success: bool, network: string)

  datatype CanaryEvidence = CanaryEvidence(
    ok: bool,
    mode: string,
    operationId: string,
    bindingSha256: string,
    challengeSha256: string,
    challengeValidated: bool,
    paymentAttempted: bool,
    paidStatus: Option<int>,
    paidBodySha256: Option<string>,
    settlement: Option<SettlementEvidence>,
    verification: Option<Json>)

  // A success of the sidecar; an undefined body or verification is left out of the text.
  datatype SidecarSuccess = SidecarSuccess(
    operationId: string,
    attemptId: string,
    status: int,
    body: Option<Json>,
    bodySha256: string,
    challengeSha256: string,
    targetSha256: string,
    settlementSha256: string,
    signature: string,
    receivedAt: int,
    verification: Option<Json>,
    evidence: CanaryEvidence)

  datatype Answer = Success(paid: SidecarSuccess) | Failure(code: string, operationId: Option<string>)

  // The patterns text fields are checked against.
  datatype Formats = Formats(isHash: string -> bool, isId: string -> bool, isSignature: string -> bool)

  function ErrorForCode(code: string): PaymentError {
    if code == "AUTHORIZATION_FAILED" then AuthorizationError
    else if code in {"PAYMENT_OUTCOME_UNKNOWN", "PAYMENT_IN_PROGRESS", "INCOMPLETE_SETTLEMENT_EVIDENCE",
                     "RECONCILED_PAYMENT_RESPONSE_UNAVAILABLE", "JOURNAL_FAILURE"}
    then OutcomeUnknown
    else if code in {"IDEMPOTENCY_CONFLICT", "IDEMPOTENCY_CONSUMED", "PAYMENT_BUDGET_EXHAUSTED"}
    then PolicyConflict
    else PreflightRejected
  }

  predicate VerificationChecked(v: Json) {
    && v.Obj?
    && Prop(v, "confirmed_transaction") == Some(Bool(true))
    && Prop(v, "transaction_error") == Some(Bool(false))
    && Prop(v, "transaction_signature_matches") == Some(Bool(true))
    && Prop(v, "fee_payer_verified") == Some(Bool(true))
    && Prop(v, "token_movement").Some?
    && Prop(v, "token_movement").value.Obj?
    && HasText(Prop(v, "token_movement").value, "status", "verified")
  }

  predicate EvidenceChecked(p: SidecarSuccess) {
    var e := p.evidence;
    && e.ok && e.mode == "execute" && e.operationId == p.operationId
    && e.challengeValidated && e.paymentAttempted && e.challengeSha256 == p.challengeSha256
    && e.settlement == Some(SettlementEvidence(p.settlementSha256, p.signature, true, DEVNET_NETWORK))
    && e.verification.Some? && VerificationChecked(e.verification.value)
    && e.paidStatus == Some(p.status)
    && e.paidBodySha256 == Some(p.bodySha256)
    && e.bindingSha256 == p.targetSha256
  }

  // What the Python client makes of an answer.
  function ReadAnswer(f: Formats, a: Answer): Result<SidecarSuccess, PaymentError> {
    match a
    case Failure(code, _) => Err(ErrorForCode(code))
    case Success(p) =>
      if p.body.None? || p.verification.None? then Err(BoundaryUnavailable)
      else if !f.isId(p.operationId) || !f.isId(p.attemptId) then Err(PolicyConflict)
      else if !f.isHash(p.challengeSha256) || !f.isHash(p.targetSha256) || !f.isHash(p.settlementSha256)
              || !f.isSignature(p.signature) || !f.isHash(p.bodySha256)
      then Err(PolicyConflict)
      else if !EvidenceChecked(p) then Err(BoundaryUnavailable)
      else if !(200 <= p.status <= 299) then Err(BoundaryUnavailable)
      else Ok(p)
  }

  lemma {:induction false} LookupAt(fs: seq<Field>, i: nat)
    requires DistinctKeys(fs) && i < |fs|
    ensures Lookup(fs, fs[i].key) == Some(fs[i].value)
  {
    if i > 0 {
      LookupAt(fs[1..], i - 1);
    }
  }

  lemma FullyVerifiedPropsHold(v: Verification)
    requires FullyVerified(v)
    ensures VerificationChecked(VerificationJson(v))
  {
    hide MovementJson, Lookup;
    VerificationJsonWellFormed(v);
    MovementJsonWellFormed(v);
    var fs := VerificationJson(v).fields;
    LookupAt(fs, 1);
    LookupAt(fs, 3);
    LookupAt(fs, 4);
    LookupAt(fs, 5);
    LookupAt(fs, 6);
    MovementStatus(v);
  }

  lemma MovementStatus(v: Verification)
    ensures MovementJson(v).Obj? && HasText(MovementJson(v), "status", MovementText(v.movement))
  {
    hide IntText, MovementText;
  }

  // The checks read the verification as a map: key order and a trip through text do
  // not matter.
  lemma CheckedReadsMaps(v: Json, w: Json)
    requires SameWellFormed(v, w) && VerificationChecked(v)
    ensures VerificationChecked(w)
  {
    hide Prop, HasText, WellFormed;
    SameValueSameProp(v, w, "confirmed_transaction");
    SameValueSameProp(v, w, "transaction_error");
    SameValueSameProp(v, w, "transaction_signature_matches");
    SameValueSameProp(v, w, "fee_payer_verified");
    SameValueSameProp(v, w, "token_movement");
    SameValueSameProp(Prop(v, "token_movement").value, Prop(w, "token_movement").value, "status");
  }

  ghost predicate SameWellFormed(v: Json, w: Json) {
    WellFormed(v) && WellFormed(w) && SameValue(v, w)
  }
}
