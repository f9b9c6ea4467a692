// The payment journal as a value: one table, two unique indexes and an append-only
// log, with each journal call as a function that commits whole or changes nothing.
module JournalSpec {
  import opened Prelude

  datatype Status =
    | Reserved
    | Submitted
    | Unknown
    | SettledVerified
    | ReconciledVerified
    | Aborted

  // Columns written by the INSERT and by nothing else.
  datatype Binding = Binding(
    operationId: string,
    principalId: string,
    idempotencyKey: string,
    requestFingerprint: string,
    policySha256: string,
    minerId: string,
    endpoint: string,
    targetSha256: string,
    challengeSha256: string,
    amount: int)

  // Columns a transition may overwrite.
  datatype Evidence = Evidence(
    responseStatus: Option<int>,
    bodyText: Option<string>,
    bodySha256: Option<string>,
    bodyIsJson: Option<bool>,
    settlementSha256: Option<string>,
    verificationSha256: Option<string>,
    signature: Option<string>,
    verificationJson: Option<string>,
    errorCode: Option<string>)

  const NO_EVIDENCE := Evidence(None, None, None, None, None, None, None, None, None)

  datatype Row = Row(binding: Binding, status: Status, evidence: Evidence, createdAt: int, updatedAt: int)

  // The columns `markUnknown` writes when it is given evidence.
  datatype PartialEvidence = PartialEvidence(
    responseStatus: Option<int>,
    bodyText: Option<string>,
    bodySha256: Option<string>,
    bodyIsJson: Option<bool>,
    settlementSha256: Option<string>,
    signature: Option<string>,
    verificationJson: Option<string>)

  // What a transition assigns besides the status.
  datatype Update =
    | NoUpdate
    | SettleWith(responseStatus: int, bodyText: string, bodySha256: string, bodyIsJson: bool,
                 settlementSha256: string, verificationSha256: string, signature: string,
                 verificationJson: string)
    | UnknownWith(code: string, partial: Option<PartialEvidence>)
    | AbortWith(code: string)
    | ReconcileWith(verificationSha256: string, signature: string, verificationJson: string,
                    suppliedBodySha256: Option<string>)

  datatype Details =
    | ReserveDetails(amount: int, challengeSha256: string, policySha256: string)
    | SettleDetails(responseStatus: int, bodySha256: string, settlementSha256: string,
                    verificationSha256: string, signature: string)
    | UnknownDetails(code: string, partial: Option<PartialEvidence>)
    | AbortDetails(code: string)
    | ReconcileDetails(verificationSha256: string, signature: string)
    | RecoverDetails(previous: Status)
    | NoDetails

  datatype Kind = Entered(status: Status) | RecoveredUnknown

  // The event id is the digest of the event, so it is represented by the event itself.
  datatype Event = Event(operationId: string, kind: Kind, details: Details, occurredAt: int)

  // `order` is the insertion order of the rows.
  datatype Journal = Journal(
    order: seq<string>,
    rows: map<string, Row>,
    byKey: map<(string, string), string>,
    bySignature: map<string, string>,
    events: seq<Event>)

  const EMPTY := Journal([], map[], map[], map[], [])

  datatype JournalError =
    | Conflict
    | BudgetExceeded
    | Duplicate
    | InProgress
    | OutcomeUnknown
    | StorageFailure

  datatype Reservation = Fresh(row: Row) | Replay(row: Row)

  const MAX_SAFE_INTEGER: int := 9007199254740991

  // ------------------------------------------------------------------ queries

  function ByPrincipalKey(j: Journal, principal: string, key: string): Option<Row> {
    if (principal, key) in j.byKey && j.byKey[(principal, key)] in j.rows
    then Some(j.rows[j.byKey[(principal, key)]])
    else None
  }

  function OpenAmount(rows: map<string, Row>, op: string): int {
    if op in rows && rows[op].status != Aborted then rows[op].binding.amount else 0
  }

  // SUM(amount_micro_usdc) over the rows whose status is not 'aborted'.
  function OpenTotal(order: seq<string>, rows: map<string, Row>): int {
    if order == [] then 0 else OpenAmount(rows, order[0]) + OpenTotal(order[1..], rows)
  }

  // COUNT(*) over the same rows.
  function OpenCount(order: seq<string>, rows: map<string, Row>): nat {
    if order == [] then 0
    else (if order[0] in rows && rows[order[0]].status != Aborted then 1 else 0)
         + OpenCount(order[1..], rows)
  }

  predicate Unfinished(row: Row) { row.status == Reserved || row.status == Submitted }

  // The operations `recoverUnfinished` selects, in table order.
  function UnfinishedOperations(order: seq<string>, rows: map<string, Row>): seq<string> {
    if order == [] then []
    else (if order[0] in rows && Unfinished(rows[order[0]]) then [order[0]] else [])
         + UnfinishedOperations(order[1..], rows)
  }

  // -------------------------------------------------------------- transactions

  // Whether the unique index lets `op` carry this signature.
  predicate SignatureFree(j: Journal, op: string, signature: Option<string>) {
    signature.None? || signature.value !in j.bySignature || j.bySignature[signature.value] == op
  }

  function Reindexed(index: map<string, string>, op: string, was: Option<string>, now: Option<string>)
    : map<string, string>
  {
    var without := if was.Some? then index - {was.value} else index;
    if now.Some? then without[now.value := op] else without
  }

  // One committed UPDATE with its event.
  function WriteRow(j: Journal, op: string, row: Row, event: Event): Journal
    requires op in j.rows
  {
    j.(rows := j.rows[op := row],
       bySignature := Reindexed(j.bySignature, op, j.rows[op].evidence.signature, row.evidence.signature),
       events := j.events + [event])
  }

  function Assign(e: Evidence, u: Update): Evidence {
    match u
    case NoUpdate => e
    case SettleWith(status, text, sha, isJson, settlement, verification, signature, json) =>
      e.(responseStatus := Some(status), bodyText := Some(text), bodySha256 := Some(sha),
         bodyIsJson := Some(isJson), settlementSha256 := Some(settlement),
         verificationSha256 := Some(verification), signature := Some(signature),
         verificationJson := Some(json))
    case UnknownWith(code, None) => e.(errorCode := Some(code))
    case UnknownWith(code, Some(p)) =>
      e.(errorCode := Some(code), responseStatus := p.responseStatus, bodyText := p.bodyText,
         bodySha256 := p.bodySha256, bodyIsJson := p.bodyIsJson,
         settlementSha256 := p.settlementSha256, signature := p.signature,
         verificationJson := p.verificationJson)
    case AbortWith(code) => e.(errorCode := Some(code))
    case ReconcileWith(verification, signature, json, sha) =>
      e.(signature := Some(signature), verificationSha256 := Some(verification),
         bodySha256 := if sha.Some? then sha else e.bodySha256,
         verificationJson := Some(json), errorCode := None)
  }

  function DetailsOf(u: Update): Details {
    match u
    case NoUpdate => NoDetails
    case SettleWith(status, _, sha, _, settlement, verification, signature, _) =>
      SettleDetails(status, sha, settlement, verification, signature)
    case UnknownWith(code, partial) => UnknownDetails(code, partial)
    case AbortWith(code) => AbortDetails(code)
    case ReconcileWith(verification, signature, _, _) => ReconcileDetails(verification, signature)
  }

  function Moved(row: Row, to: Status, u: Update, now: int): Row {
    row.(status := to, evidence := Assign(row.evidence, u), updatedAt := now)
  }

  // The compare-and-set every `mark*` call goes through.
  function Transition(j: Journal, op: string, from: Status, to: Status, u: Update, now: int)
    : (Result<Row, JournalError>, Journal)
  {
    if op !in j.rows || j.rows[op].status != from then (Err(Conflict), j)
    else
      var row := Moved(j.rows[op], to, u, now);
      var event := Event(op, Entered(to), DetailsOf(u), now);
      if !SignatureFree(j, op, row.evidence.signature) || event in j.events
      then (Err(StorageFailure), j)
      else (Ok(row), WriteRow(j, op, row, event))
  }

  function ClassifyExisting(row: Row, b: Binding): Result<Reservation, JournalError> {
    if row.binding.requestFingerprint != b.requestFingerprint
       || row.binding.policySha256 != b.policySha256
       || row.binding.minerId != b.minerId
       || row.binding.endpoint != b.endpoint
    then Err(Conflict)
    else match row.status {
      case SettledVerified | ReconciledVerified => Ok(Replay(row))
      case Unknown | Submitted => Err(OutcomeUnknown)
      case Reserved => Err(InProgress)
      case Aborted => Err(Duplicate)
    }
  }

  predicate SafePositive(n: int) { 0 < n <= MAX_SAFE_INTEGER }

  function InsertRow(j: Journal, b: Binding, now: int): Journal {
    Journal(
      j.order + [b.operationId],
      j.rows[b.operationId := Row(b, Reserved, NO_EVIDENCE, now, now)],
      j.byKey[(b.principalId, b.idempotencyKey) := b.operationId],
      j.bySignature,
      j.events + [Event(b.operationId, Entered(Reserved),
                        ReserveDetails(b.amount, b.challengeSha256, b.policySha256), now)])
  }

  function Reserve(j: Journal, b: Binding, maxTotal: int, maxRequests: int, now: int)
    : (Result<Reservation, JournalError>, Journal)
  {
    var existing := ByPrincipalKey(j, b.principalId, b.idempotencyKey);
    if existing.Some? then (ClassifyExisting(existing.value, b), j)
    else if !SafePositive(b.amount) then (Err(Conflict), j)
    else if !SafePositive(maxTotal) || !SafePositive(maxRequests) then (Err(Conflict), j)
    else if OpenCount(j.order, j.rows) >= maxRequests
            || OpenTotal(j.order, j.rows) + b.amount > maxTotal
    then (Err(BudgetExceeded), j)
    else if b.operationId in j.rows
            || Event(b.operationId, Entered(Reserved),
                     ReserveDetails(b.amount, b.challengeSha256, b.policySha256), now) in j.events
    then (Err(StorageFailure), j)
    else (Ok(Fresh(Row(b, Reserved, NO_EVIDENCE, now, now))), InsertRow(j, b, now))
  }

  function SafeErrorCode(code: string): string {
    if 1 <= |code| <= 64 && 'A' <= code[0] <= 'Z'
       && (forall i :: 1 <= i < |code| ==>
             'A' <= code[i] <= 'Z' || '0' <= code[i] <= '9' || code[i] == '_')
    then code
    else "SIDECAR_ERROR"
  }

  function MarkSubmitted(j: Journal, op: string, now: int): (Result<Row, JournalError>, Journal) {
    Transition(j, op, Reserved, Submitted, NoUpdate, now)
  }

  function MarkSettled(j: Journal, op: string, u: Update, now: int): (Result<Row, JournalError>, Journal)
    requires u.SettleWith?
  {
    Transition(j, op, Submitted, SettledVerified, u, now)
  }

  function MarkUnknown(j: Journal, op: string, code: string, partial: Option<PartialEvidence>, now: int)
    : (Result<Row, JournalError>, Journal)
  {
    Transition(j, op, Submitted, Unknown, UnknownWith(SafeErrorCode(code), partial), now)
  }

  function Abort(j: Journal, op: string, code: string, now: int): (Result<Row, JournalError>, Journal) {
    Transition(j, op, Reserved, Aborted, AbortWith(SafeErrorCode(code)), now)
  }

  function ReconcileUnknown(j: Journal, op: string, u: Update, now: int): (Result<Row, JournalError>, Journal)
    requires u.ReconcileWith?
  {
    Transition(j, op, Unknown, ReconciledVerified, u, now)
  }

  // One iteration of `recoverUnfinished`; a repeated event id would abort it.
  function RecoverRow(j: Journal, op: string, now: int): Journal {
    if op !in j.rows || !Unfinished(j.rows[op]) then j
    else
      var was := j.rows[op];
      var row := was.(status := Unknown,
                      evidence := was.evidence.(errorCode := Some("PROCESS_RECOVERY_UNKNOWN")),
                      updatedAt := now);
      var event := Event(op, RecoveredUnknown, RecoverDetails(was.status), now);
      if event in j.events then j else WriteRow(j, op, row, event)
  }

  function RecoverRows(j: Journal, ops: seq<string>, now: int): Journal {
    if ops == [] then j
    else RecoverRow(RecoverRows(j, ops[..|ops| - 1], now), ops[|ops| - 1], now)
  }

  function RecoverUnfinished(j: Journal, now: int): Journal {
    RecoverRows(j, UnfinishedOperations(j.order, j.rows), now)
  }
}
