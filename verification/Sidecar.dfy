// The payment sidecar as a protocol: many handlers over one journal, each a program
// counter with its locals, yielding at every await. The miner, the signer, the RPC node
// and the storage answer through the actions; a crash may come between any two.
module Sidecar {
  import opened Prelude
  import opened CanonicalJson
  import opened JournalSpec
  import opened Canary
  import opened PaymentClient

  // A value a JSON parser can return.
  type ParsedJson = v: Json | WellFormed(v) witness Null

  datatype PaidRequest = PaidRequest(
    principalId: string,
    idempotencyKey: string,
    requestFingerprint: string,
    minerId: string,
    endpoint: string,
    params: seq<Field>)

  // A request as the server parses it.
  type ParsedRequest = r: PaidRequest | WellFormed(Obj(r.params)) witness PaidRequest("", "", "", "", "", [])

  datatype ReconcileRequest = ReconcileRequest(
    principalId: string,
    idempotencyKey: string,
    operationId: string,
    artifactSha256: string,
    signature: string,
    bodySha256: Option<string>)

  // `targetOf` digests the target built for a request, if one can be built.
  datatype Config = Config(
    hash: string -> string,
    jsonParse: string -> Option<Json>,
    targetOf: (string, string, seq<Field>) -> Option<string>,
    resourceMatches: (PaidRequest, string) -> bool,
    validSignature: string -> bool,
    route: string,
    dispatcherUrl: string,
    allowedMiners: seq<string>,
    allowedEndpoints: seq<string>,
    signer: string,
    rpcUrl: string,
    maxAmount: int,
    maxTotal: int,
    maxRequests: int)

  // ------------------------------------------------------------ what a request binds

  function FingerprintJson(r: PaidRequest): (v: Json)
    ensures v.Obj?
  {
    Obj([Field("version", Num(1)),
         Field("principal_id", Str(r.principalId)),
         Field("idempotency_key", Str(r.idempotencyKey)),
         Field("miner_id", Str(r.minerId)),
         Field("endpoint", Str(r.endpoint)),
         Field("params", Obj(r.params))])
  }

  function FingerprintOf(c: Config, r: PaidRequest): string {
    c.hash(CanonicalText(FingerprintJson(r)))
  }

  function OperationJson(r: PaidRequest, target: string): (v: Json)
    ensures v.Obj?
  {
    Obj([Field("principal_id", Str(r.principalId)),
         Field("idempotency_key", Str(r.idempotencyKey)),
         Field("request_fingerprint", Str(r.requestFingerprint)),
         Field("target_sha256", Str(target))])
  }

  // The digest is cut to 60 digits; the cut digest is taken as the digest itself.
  function OperationIdFor(c: Config, r: PaidRequest, target: string): string {
    "app-" + c.hash(CanonicalText(OperationJson(r, target)))
  }

  function Texts(xs: seq<string>): seq<Json> {
    if xs == [] then [] else [Str(xs[0])] + Texts(xs[1..])
  }

  function PolicyJson(c: Config, target: string): Json {
    Obj([Field("policy_version", Str("oathcast.application.payment.v1")),
         Field("target_sha256", Str(target)),
         Field("route", Str(c.route)),
         Field("dispatcher_url_sha256", Str(c.hash(c.dispatcherUrl))),
         Field("network", Str(DEVNET_NETWORK)),
         Field("asset", Str(DEVNET_USDC)),
         Field("pay_to", Str(EXPECTED_PAY_TO)),
         Field("fee_payer", Str(EXPECTED_FEE_PAYER)),
         Field("expected_signer_address", Str(c.signer)),
         Field("allowed_miner_ids", Arr(Texts(Sort(c.allowedMiners, TextLe)))),
         Field("allowed_endpoints", Arr(Texts(Sort(c.allowedEndpoints, TextLe)))),
         Field("max_amount_micro_usdc", Str(IntText(c.maxAmount))),
         Field("max_total_micro_usdc", Str(IntText(c.maxTotal))),
         Field("max_requests", Num(c.maxRequests))])
  }

  function PolicySha256(c: Config, target: string): string {
    c.hash(CanonicalText(PolicyJson(c, target)))
  }

  // The locals fixed before the first await.
  datatype Plan = Plan(request: PaidRequest, target: string, operationId: string, policySha256: string)

  function PlanFor(c: Config, r: PaidRequest, target: string): Plan {
    Plan(r, target, OperationIdFor(c, r, target), PolicySha256(c, target))
  }

  function ChallengeSha256(c: Config, challenge: Json): string { c.hash(CanonicalText(challenge)) }

  function BindingFor(c: Config, p: Plan, challenge: Json, amount: int): Binding {
    Binding(p.operationId, p.request.principalId, p.request.idempotencyKey, p.request.requestFingerprint,
            p.policySha256, p.request.minerId, p.request.endpoint, p.target,
            ChallengeSha256(c, challenge), amount)
  }

  function Matcher(c: Config, r: PaidRequest): string -> bool {
    (url: string) => c.resourceMatches(r, url)
  }

  function Select(c: Config, r: PaidRequest, challenge: Json): Result<int, string> {
    ValidateChallenge(challenge, Matcher(c, r), c.maxAmount)
  }

  // ------------------------------------------------------------------------ the state

  datatype Handler =
    | Preflighting(plan: Plan)
    | Executing(plan: Plan, challenge: ParsedJson)
    | Signing(plan: Plan, challenge: ParsedJson, amount: int)
    | Armed(plan: Plan, challenge: ParsedJson, amount: int)
    | Paid(plan: Plan, challenge: ParsedJson, amount: int)
    | Reconciling(query: ReconcileRequest, snapshot: Row)
    // `sent`: the paid fetch was sent while this handler ran; `readFailed`: the read of
    // the journal after the run threw, which leaves the handler through the socket's
    // catch-all.
    | Finished(request: Option<PaidRequest>, answer: Answer, sent: bool, readFailed: bool)

  datatype Fetch = Fetch(operationId: string, principalId: string, idempotencyKey: string, amount: int, logLength: nat)

  // `fetches` is the history of paid requests sent.
  datatype System = System(journal: Journal, up: bool, handlers: map<nat, Handler>, fetches: seq<Fetch>)

  const START := System(EMPTY, false, map[], [])

  function Stored<T>(j: Journal, call: (Result<T, JournalError>, Journal), fault: Fault)
    : (Result<T, JournalError>, Journal)
  {
    match fault
    case Clean => call
    case RolledBack => (Err(StorageFailure), j)
    case CommittedThenThrew => (Err(StorageFailure), call.1)
  }

  // The storage while a handler concludes.
  datatype Storage = Storage(readOk: bool, first: Fault, second: Fault, now: int)

  // A run of the canary up to its challenge: it may throw or refuse with a code.
  datatype Reply = Threw | Refused(code: string) | Challenge(value: ParsedJson)

  datatype ChainReply = SignerMismatch | LookupFailed | Chain(answer: ChainAnswer)

  datatype Action =
    | Arrive(id: nat, request: ParsedRequest)
    | PreflightReply(id: nat, reply: Reply, fault: Fault, now: int)
    | ExecuteReply(id: nat, reply: Reply, storage: Storage)
    | SigningFailed(id: nat, code: string, storage: Storage)
    | Submit(id: nat, fault: Fault, storage: Storage)
    | Send(id: nat)
    | PaidReply(id: nat, outcome: PaidOutcome, storage: Storage)
    | CanaryThrew(id: nat, storage: Storage)
    | ReconcileArrive(id: nat, query: ReconcileRequest)
    | ReconcileReply(id: nat, chain: ChainReply, fault: Fault, now: int)
    | Crash
    | RecoverOne(operationId: string, now: int)
    | Restart(now: int)

  // -------------------------------------------------------------------------- answers

  function StatusOf(j: Journal, op: string): Option<Status> {
    if op in j.rows then Some(j.rows[op].status) else None
  }

  // The paid body as the first response carries it: parsed, or the text itself.
  function FreshBody(c: Config, text: string): Json {
    match c.jsonParse(text)
    case Some(v) => if v == Null then Str(text) else v
    case None => Str(text)
  }

  function DecodeStoredBody(c: Config, e: Evidence): Option<Json> {
    match e.bodyText
    case None => None
    case Some(text) =>
      if e.bodyIsJson == Some(true) && c.jsonParse(text).Some? then c.jsonParse(text) else Some(Str(text))
  }

  function OrEmpty(s: Option<string>): string { if s.Some? then s.value else "" }

  function StoredSuccess(c: Config, row: Row, target: string, verification: Option<Json>): SidecarSuccess {
    var b, e := row.binding, row.evidence;
    SidecarSuccess(
      b.operationId, b.operationId,
      if e.responseStatus.Some? then e.responseStatus.value else 200,
      DecodeStoredBody(c, e),
      if e.bodySha256.Some? then e.bodySha256.value else c.hash(OrEmpty(e.bodyText)),
      b.challengeSha256, b.targetSha256, OrEmpty(e.settlementSha256), OrEmpty(e.signature), row.updatedAt,
      verification,
      CanaryEvidence(true, "execute", b.operationId, target, b.challengeSha256, true, true,
                     e.responseStatus, e.bodySha256,
                     Some(SettlementEvidence(OrEmpty(e.settlementSha256), OrEmpty(e.signature), true, DEVNET_NETWORK)),
                     verification))
  }

  function ReplayResponse(c: Config, row: Row, target: string): Answer {
    if row.status != SettledVerified
    then Failure("RECONCILED_PAYMENT_RESPONSE_UNAVAILABLE", Some(row.binding.operationId))
    else Success(StoredSuccess(c, row, target,
           match row.evidence.verificationJson
           case None => None
           case Some(text) => c.jsonParse(text)))
  }

  // What a request whose key is already stored is told.
  function AnswerExisting(c: Config, p: Plan, row: Row): Answer {
    if row.binding.operationId != p.operationId
       || row.binding.requestFingerprint != p.request.requestFingerprint
       || row.binding.policySha256 != p.policySha256
       || row.binding.minerId != p.request.minerId
       || row.binding.endpoint != p.request.endpoint
    then Failure("IDEMPOTENCY_CONFLICT", Some(p.operationId))
    else match row.status {
      case SettledVerified | ReconciledVerified => ReplayResponse(c, row, p.target)
      case Unknown | Submitted => Failure("PAYMENT_OUTCOME_UNKNOWN", Some(p.operationId))
      case Reserved => Failure("PAYMENT_IN_PROGRESS", Some(p.operationId))
      case Aborted => Failure("IDEMPOTENCY_CONSUMED", Some(p.operationId))
    }
  }

  function ReserveErrorCode(e: JournalError): string {
    match e
    case BudgetExceeded => "PAYMENT_BUDGET_EXHAUSTED"
    case OutcomeUnknown => "PAYMENT_OUTCOME_UNKNOWN"
    case InProgress => "PAYMENT_IN_PROGRESS"
    case Duplicate => "IDEMPOTENCY_CONSUMED"
    case Conflict => "IDEMPOTENCY_CONFLICT"
    case StorageFailure => "JOURNAL_FAILURE"
  }

  function Finish(s: System, id: nat, r: PaidRequest, answer: Answer, sent: bool): System {
    s.(handlers := s.handlers[id := Finished(Some(r), answer, sent, false)])
  }

  function Reject(s: System, id: nat, p: Plan, code: string, sent: bool): System {
    Finish(s, id, p.request, Failure(code, Some(p.operationId)), sent)
  }

  // ----------------------------------------------------------------------- the steps

  // The checks before the journal is read.
  function GateCode(c: Config, r: PaidRequest): Option<string> {
    if r.minerId !in c.allowedMiners || r.endpoint !in c.allowedEndpoints then Some("ALLOWLIST_REJECTED")
    else if FingerprintOf(c, r) != r.requestFingerprint then Some("REQUEST_FINGERPRINT_MISMATCH")
    else if c.targetOf(r.minerId, r.endpoint, r.params).None? then Some("TARGET_REJECTED")
    else None
  }

  // How a paid request starts, up to its first await.
  function Arrival(c: Config, j: Journal, r: PaidRequest): Handler {
    match GateCode(c, r)
    case Some(code) => Finished(Some(r), Failure(code, None), false, false)
    case None =>
      var p := PlanFor(c, r, c.targetOf(r.minerId, r.endpoint, r.params).value);
      match ByPrincipalKey(j, r.principalId, r.idempotencyKey)
      case Some(row) => Finished(Some(r), AnswerExisting(c, p, row), false, false)
      case None => Preflighting(p)
  }

  function PreflightStep(c: Config, s: System, id: nat, p: Plan, reply: Reply, fault: Fault, now: int): System {
    match reply
    case Threw => Reject(s, id, p, "PREFLIGHT_FETCH_FAILED", false)
    case Refused(code) => Reject(s, id, p, code, false)
    case Challenge(v) =>
      match Select(c, p.request, v)
      case Err(code) => Reject(s, id, p, code, false)
      case Ok(amount) =>
        if !SafePositive(amount) then Reject(s, id, p, "CHALLENGE_AMOUNT_INVALID", false)
        else ReserveStep(c, s, id, p, v, amount, fault, now)
  }

  function ReserveStep(c: Config, s: System, id: nat, p: Plan, v: ParsedJson, amount: int, fault: Fault, now: int)
    : System
  {
    var (r: Result<Reservation, JournalError>, k) := Stored(s.journal,
                         JournalSpec.Reserve(s.journal, BindingFor(c, p, v, amount), c.maxTotal, c.maxRequests, now),
                         fault);
    var t := s.(journal := k);
    match r
    case Ok(Replay(row)) => Finish(t, id, p.request, ReplayResponse(c, row, p.target), false)
    case Ok(Fresh(_)) => t.(handlers := t.handlers[id := Executing(p, v)])
    case Err(e) => Reject(t, id, p, ReserveErrorCode(e), false)
  }

  function ExecuteStep(c: Config, s: System, id: nat, p: Plan, first: ParsedJson, reply: Reply, st: Storage): System {
    match reply
    case Threw => ThrewStep(s, id, p, false, st)
    case Refused(code) => Conclude(c, s, id, p, Unpaid(code), false, st)
    case Challenge(v) =>
      match Select(c, p.request, v)
      case Err(code) => Conclude(c, s, id, p, Unpaid(code), false, st)
      case Ok(amount) =>
        if ChallengeSha256(c, v) != ChallengeSha256(c, first)
        then Conclude(c, s, id, p, Unpaid("CHALLENGE_BINDING_MISMATCH"), false, st)
        else s.(handlers := s.handlers[id := Signing(p, first, amount)])
  }

  function Env(c: Config): CanaryEnv { CanaryEnv(c.hash, c.validSignature, c.rpcUrl, c.signer) }

  // `beforePaidRequest`: a failed write ends the run before anything is sent.
  function SubmitStep(c: Config, s: System, id: nat, h: Handler, fault: Fault, st: Storage): System
    requires h.Signing?
  {
    var (r, k) := Stored(s.journal, MarkSubmitted(s.journal, h.plan.operationId, st.now), fault);
    var t := s.(journal := k);
    if r.Ok? then t.(handlers := t.handlers[id := Armed(h.plan, h.challenge, h.amount)])
    else Conclude(c, t, id, h.plan, Unsent(Env(c), h.amount, "PAID_REQUEST_OUTCOME_UNKNOWN"), false, st)
  }

  function SendStep(s: System, id: nat, h: Handler): System
    requires h.Armed?
  {
    var p := h.plan;
    s.(handlers := s.handlers[id := Paid(p, h.challenge, h.amount)],
       fetches := s.fetches + [Fetch(p.operationId, p.request.principalId, p.request.idempotencyKey,
                                     h.amount, |s.journal.events|)])
  }

  function NonEmpty(s: string): Option<string> { if s == "" then None else Some(s) }

  // The evidence kept for an outcome that needs reconciliation.
  function Partial(c: Config, r: CanaryResult): PartialEvidence {
    PartialEvidence(
      r.status, r.bodyText, r.bodySha256,
      if r.bodyText.None? then None else Some(c.jsonParse(r.bodyText.value).Some?),
      if r.settlement.None? then None else Some(r.settlement.value.headerSha256),
      if r.settlement.None? then None else NonEmpty(r.settlement.value.signature),
      if r.verification.None? then None else Some(CanonicalText(VerificationJson(r.verification.value))))
  }

  predicate Settleable(r: CanaryResult) {
    && r.bodyText.Some? && r.status.Some?
    && r.settlement.Some? && r.settlement.value.headerSha256 != "" && r.settlement.value.signature != ""
    && r.verification.Some?
  }

  function BodyDigest(c: Config, r: CanaryResult): string
    requires Settleable(r)
  {
    if r.bodySha256.Some? then r.bodySha256.value else c.hash(r.bodyText.value)
  }

  function Settling(c: Config, r: CanaryResult): (u: Update)
    requires Settleable(r)
    ensures u.SettleWith?
  {
    var text := CanonicalText(VerificationJson(r.verification.value));
    SettleWith(r.status.value, r.bodyText.value, BodyDigest(c, r), c.jsonParse(r.bodyText.value).Some?,
               r.settlement.value.headerSha256, c.hash(text), r.settlement.value.signature, text)
  }

  // `markUnknown` behind its guard and its catch.
  function MarkedUnknown(j: Journal, op: string, code: string, partial: Option<PartialEvidence>, fault: Fault, now: int)
    : Journal
  {
    if StatusOf(j, op) == Some(Submitted) then Stored(j, MarkUnknown(j, op, code, partial, now), fault).1 else j
  }

  // `abort` behind its guard and its catch.
  function MarkedAborted(j: Journal, op: string, code: string, fault: Fault, now: int): Journal {
    if StatusOf(j, op) == Some(Reserved) then Stored(j, Abort(j, op, code, now), fault).1 else j
  }

  function ReadFailure(s: System, id: nat, p: Plan, sent: bool): System {
    s.(handlers := s.handlers[id := Finished(Some(p.request), Failure("INVALID_REQUEST", None), sent, true)])
  }

  // After the canary returned.
  function Conclude(c: Config, s: System, id: nat, p: Plan, r: CanaryResult, sent: bool, st: Storage): System {
    var op := p.operationId;
    if !st.readOk then ReadFailure(s, id, p, sent)
    else if !r.ok then
      if r.attempted || StatusOf(s.journal, op) == Some(Submitted) then
        var k := MarkedUnknown(s.journal, op, "PAID_REQUEST_OUTCOME_UNKNOWN", Some(Partial(c, r)), st.first, st.now);
        Reject(s.(journal := k), id, p, "PAYMENT_OUTCOME_UNKNOWN", sent)
      else
        Reject(s.(journal := MarkedAborted(s.journal, op, r.code, st.first, st.now)), id, p, r.code, sent)
    else if !Settleable(r) then
      var k := MarkedUnknown(s.journal, op, "INCOMPLETE_SETTLEMENT_EVIDENCE", Some(Partial(c, r)), st.first, st.now);
      Reject(s.(journal := k), id, p, "INCOMPLETE_SETTLEMENT_EVIDENCE", sent)
    else SettleStep(c, s, id, p, r, sent, st)
  }

  function SettleStep(c: Config, s: System, id: nat, p: Plan, r: CanaryResult, sent: bool, st: Storage): System
    requires Settleable(r)
  {
    var op := p.operationId;
    var (settled, k) := Stored(s.journal, MarkSettled(s.journal, op, Settling(c, r), st.now), st.first);
    match settled
    case Ok(row) => Finish(s.(journal := k), id, p.request, Success(FreshSuccess(c, p, row, r)), sent)
    case Err(_) =>
      var k2 := MarkedUnknown(k, op, "JOURNAL_SETTLEMENT_WRITE_FAILED", Some(Partial(c, r)), st.second, st.now);
      Reject(s.(journal := k2), id, p, "JOURNAL_FAILURE", sent)
  }

  // The answer to the request that paid: what was stored, with the body as received.
  function FreshSuccess(c: Config, p: Plan, row: Row, r: CanaryResult): SidecarSuccess
    requires Settleable(r)
  {
    var verification := Some(VerificationJson(r.verification.value));
    var settlement := r.settlement.value;
    SidecarSuccess(
      row.binding.operationId, row.binding.operationId, r.status.value,
      Some(FreshBody(c, r.bodyText.value)), BodyDigest(c, r),
      row.binding.challengeSha256, row.binding.targetSha256,
      settlement.headerSha256, settlement.signature, row.updatedAt, verification,
      CanaryEvidence(true, "execute", p.operationId, p.target, row.binding.challengeSha256, true, r.attempted,
                     r.status, r.bodySha256,
                     Some(SettlementEvidence(settlement.headerSha256, settlement.signature,
                                             settlement.success, settlement.network)),
                     verification))
  }

  // After the canary threw.
  function ThrewStep(s: System, id: nat, p: Plan, sent: bool, st: Storage): System {
    var op := p.operationId;
    if !st.readOk then ReadFailure(s, id, p, sent)
    else if StatusOf(s.journal, op) == Some(Submitted) then
      var k := MarkedUnknown(s.journal, op, "CANARY_EXECUTION_UNKNOWN", None, st.first, st.now);
      Reject(s.(journal := k), id, p, "PAYMENT_OUTCOME_UNKNOWN", sent)
    else
      var k := MarkedAborted(s.journal, op, "CANARY_EXECUTION_FAILED", st.first, st.now);
      Reject(s.(journal := k), id, p, "PREFLIGHT_FETCH_FAILED", sent)
  }

  function FinishQuery(s: System, id: nat, answer: Answer): System {
    s.(handlers := s.handlers[id := Finished(None, answer, false, false)])
  }

  function Refusal(q: ReconcileRequest, code: string): Handler {
    Finished(None, Failure(code, Some(q.operationId)), false, false)
  }

  function Refuse(s: System, id: nat, q: ReconcileRequest, code: string): System {
    s.(handlers := s.handlers[id := Refusal(q, code)])
  }

  // How a reconciliation starts, up to its first await.
  function ReconcileArrival(j: Journal, q: ReconcileRequest): Handler {
    match ByPrincipalKey(j, q.principalId, q.idempotencyKey)
    case None => Refusal(q, "RECONCILIATION_NOT_FOUND")
    case Some(row) =>
      if row.binding.operationId != q.operationId then Refusal(q, "RECONCILIATION_NOT_FOUND")
      else if row.status != Unknown then Refusal(q, "RECONCILIATION_STATE_INVALID")
      else if q.bodySha256.Some? && row.evidence.bodySha256 != q.bodySha256
      then Refusal(q, "RECONCILIATION_RESPONSE_MISMATCH")
      else if row.evidence.signature.Some? && row.evidence.signature.value != q.signature
      then Refusal(q, "RECONCILIATION_TRANSACTION_MISMATCH")
      else Reconciling(q, row)
  }

  // What the RPC node's answer amounts to for the snapshot the handler holds.
  function ChainVerification(c: Config, q: ReconcileRequest, row: Row, a: ChainAnswer): Verification {
    VerifyPaymentOnChain(a, q.signature, c.signer, row.binding.amount).(rpcUrlSha256 := c.hash(c.rpcUrl))
  }

  // The answer to a reconciliation: parts of a response that never came back are blank.
  function ReconciledSuccess(c: Config, row: Row, q: ReconcileRequest, v: Verification): SidecarSuccess {
    var b, e := row.binding, row.evidence;
    var signature := if e.signature.Some? then e.signature.value else q.signature;
    SidecarSuccess(
      b.operationId, b.operationId, if e.responseStatus.Some? then e.responseStatus.value else 0,
      DecodeStoredBody(c, e), OrEmpty(e.bodySha256),
      b.challengeSha256, b.targetSha256, OrEmpty(e.settlementSha256), signature, row.updatedAt,
      Some(VerificationJson(v)),
      CanaryEvidence(true, "execute", b.operationId, b.targetSha256, b.challengeSha256, true, true,
                     e.responseStatus, e.bodySha256,
                     Some(SettlementEvidence(OrEmpty(e.settlementSha256), signature, true, DEVNET_NETWORK)),
                     Some(VerificationJson(v))))
  }

  function ReconcileStep(c: Config, s: System, id: nat, q: ReconcileRequest, row: Row, reply: ChainReply,
                         fault: Fault, now: int): System
  {
    match reply
    case SignerMismatch => Refuse(s, id, q, "RECONCILIATION_SIGNER_MISMATCH")
    case LookupFailed => Refuse(s, id, q, "RECONCILIATION_RPC_FAILED")
    case Chain(a) =>
      var v := ChainVerification(c, q, row, a);
      var text := CanonicalText(VerificationJson(v));
      if !FullyVerified(v) then Refuse(s, id, q, "RECONCILIATION_VERIFICATION_FAILED")
      else if c.hash(text) != q.artifactSha256 then Refuse(s, id, q, "RECONCILIATION_ARTIFACT_MISMATCH")
      else
        var (r: Result<Row, JournalError>, k) := Stored(s.journal,
                             ReconcileUnknown(s.journal, q.operationId,
                                              ReconcileWith(q.artifactSha256, q.signature, text, q.bodySha256), now),
                             fault);
        match r
        case Err(_) => Refuse(s.(journal := k), id, q, "RECONCILIATION_FAILED")
        case Ok(updated) =>
          FinishQuery(s.(journal := k), id, Success(ReconciledSuccess(c, updated, q, v)))
  }

  function FinishedOnly(handlers: map<nat, Handler>): map<nat, Handler> {
    map id | id in handlers && handlers[id].Finished? :: handlers[id]
  }

  // One step of the system; an action that does not apply changes nothing.
  function Step(c: Config, s: System, a: Action): System {
    match a
    case Arrive(id, r) =>
      if s.up && id !in s.handlers then s.(handlers := s.handlers[id := Arrival(c, s.journal, r)]) else s
    case ReconcileArrive(id, q) =>
      if s.up && id !in s.handlers then s.(handlers := s.handlers[id := ReconcileArrival(s.journal, q)]) else s
    case Crash => s.(up := false, handlers := FinishedOnly(s.handlers))
    case RecoverOne(op, now) => if s.up then s else s.(journal := RecoverRow(s.journal, op, now))
    case Restart(now) => if s.up then s else s.(journal := RecoverUnfinished(s.journal, now), up := true)
    case _ => if a.id in s.handlers then HandlerStep(c, s, a, s.handlers[a.id]) else s
  }

  function HandlerStep(c: Config, s: System, a: Action, h: Handler): System {
    match (a, h)
    case (PreflightReply(id, reply, fault, now), Preflighting(p)) => PreflightStep(c, s, id, p, reply, fault, now)
    case (ExecuteReply(id, reply, st), Executing(p, v)) => ExecuteStep(c, s, id, p, v, reply, st)
    case (SigningFailed(id, code, st), Signing(p, _, _)) => Conclude(c, s, id, p, Unpaid(code), false, st)
    case (Submit(id, fault, st), Signing(_, _, _)) => SubmitStep(c, s, id, h, fault, st)
    case (Send(id), Armed(_, _, _)) => SendStep(s, id, h)
    case (PaidReply(id, outcome, st), Paid(p, _, amount)) =>
      Conclude(c, s, id, p, FinishPaid(Env(c), amount, outcome), true, st)
    case (CanaryThrew(id, st), Signing(p, _, _)) => ThrewStep(s, id, p, false, st)
    case (CanaryThrew(id, st), Armed(p, _, _)) => ThrewStep(s, id, p, false, st)
    case (CanaryThrew(id, st), Paid(p, _, _)) => ThrewStep(s, id, p, true, st)
    case (ReconcileReply(id, reply, fault, now), Reconciling(q, row)) =>
      ReconcileStep(c, s, id, q, row, reply, fault, now)
    case _ => s
  }

  function Run(c: Config, s: System, actions: seq<Action>): System
    decreases |actions|
  {
    if actions == [] then s else Run(c, Step(c, s, actions[0]), actions[1..])
  }
}
