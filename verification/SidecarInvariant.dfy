// What holds in every state the sidecar can reach: the invariant, and the three moves a
// step is made of (write one row, replace one handler, send one fetch) keeping it.
module SidecarInvariant {
  import opened Prelude
  import opened CanonicalJson
  import opened JournalSpec
  import opened JournalLaws
  import opened Canary
  import opened PaymentClient
  import opened Sidecar

  // The bounds the constructor checks, with what is taken of the digest and the parser.
  ghost predicate ValidConfig(c: Config) {
    && Injective(c.hash)
    && 0 < c.maxAmount <= 10000
    && c.maxAmount <= c.maxTotal <= MAX_SAFE_INTEGER
    && 0 < c.maxRequests <= MAX_SAFE_INTEGER
    && (forall v :: WellFormed(v) ==> c.jsonParse(CanonicalText(v)) == Parse(CanonicalText(v)))
    && (forall t :: c.jsonParse(t).Some? ==> WellFormed(c.jsonParse(t).value))
  }

  // -------------------------------------------------------------------------- rows

  // A stored verification: a fully verified one, printed canonically and digested.
  ghost predicate VerifiedBy(c: Config, e: Evidence, v: Verification) {
    && FullyVerified(v)
    && e.verificationJson == Some(CanonicalText(VerificationJson(v)))
    && e.verificationSha256 == Some(c.hash(CanonicalText(VerificationJson(v))))
    && e.signature.Some?
  }

  ghost predicate PaidResponseStored(c: Config, e: Evidence) {
    && e.responseStatus.Some? && 200 <= e.responseStatus.value < 300
    && e.bodyText.Some?
    && e.bodySha256 == Some(c.hash(e.bodyText.value))
    && e.bodyIsJson == Some(c.jsonParse(e.bodyText.value).Some?)
    && e.settlementSha256.Some? && IsDigest(c.hash, e.settlementSha256.value)
    && e.signature.Some? && c.validSignature(e.signature.value)
  }

  // The row was reserved for some plan that passed the checks before the journal.
  ghost predicate Planned(c: Config, row: Row) { exists p: Plan :: PlanOk(c, p) && BoundTo(row, p) }

  ghost predicate RowOk(c: Config, row: Row) {
    && Planned(c, row)
    && IsDigest(c.hash, row.binding.challengeSha256)
    && 0 < row.binding.amount <= c.maxAmount
    && (Unfinished(row) ==> row.evidence == NO_EVIDENCE)
    && (if row.status in {SettledVerified, ReconciledVerified}
        then exists v :: VerifiedBy(c, row.evidence, v)
        else row.evidence.verificationSha256.None?)
    && (row.status == SettledVerified ==> PaidResponseStored(c, row.evidence))
  }

  ghost predicate RowsOk(c: Config, j: Journal) {
    forall op :: op in j.rows ==> RowOk(c, j.rows[op])
  }

  // Evidence of the payment, once set, stays what it is.
  ghost predicate WriteOnce(e: Evidence, f: Evidence) {
    && (e.signature.Some? ==> f.signature == e.signature)
    && (e.bodySha256.Some? ==> f.bodySha256 == e.bodySha256)
    && (e.settlementSha256.Some? ==> f.settlementSha256 == e.settlementSha256)
    && (e.bodyText.Some? ==> f.bodyText == e.bodyText)
    && (e.verificationSha256.Some? ==> f.verificationSha256 == e.verificationSha256)
  }

  ghost predicate Grown(j: Journal, k: Journal) {
    && Evolves(j, k)
    && forall op :: op in j.rows ==> WriteOnce(j.rows[op].evidence, k.rows[op].evidence)
  }

  // ------------------------------------------------------------------------ fetches

  // `op` was entered as submitted somewhere before log position n.
  ghost predicate SubmittedBefore(events: seq<Event>, op: string, n: nat) {
    exists i :: 0 <= i < n && i < |events| && events[i].operationId == op && events[i].kind == Entered(Submitted)
  }

  ghost predicate FetchOk(j: Journal, f: Fetch) {
    && f.operationId in j.rows
    && var row := j.rows[f.operationId];
       && row.status !in {Reserved, Aborted}
       && row.binding.principalId == f.principalId
       && row.binding.idempotencyKey == f.idempotencyKey
       && row.binding.amount == f.amount
       && SubmittedBefore(j.events, f.operationId, f.logLength)
  }

  ghost predicate FetchesOk(j: Journal, fs: seq<Fetch>) {
    && (forall i :: 0 <= i < |fs| ==> FetchOk(j, fs[i]))
    && (forall i, k :: 0 <= i < k < |fs| ==> fs[i].operationId != fs[k].operationId)
  }

  ghost predicate Fetched(fs: seq<Fetch>, op: string) {
    exists i :: 0 <= i < |fs| && fs[i].operationId == op
  }

  // ----------------------------------------------------------------------- handlers

  ghost predicate PlanOk(c: Config, p: Plan) {
    && WellFormed(Obj(p.request.params))
    && GateCode(c, p.request).None?
    && c.targetOf(p.request.minerId, p.request.endpoint, p.request.params) == Some(p.target)
    && p == PlanFor(c, p.request, p.target)
  }

  // The handler's row, as its reservation made it.
  ghost predicate Holds(c: Config, j: Journal, p: Plan, challenge: ParsedJson, status: Status) {
    && PlanOk(c, p)
    && p.operationId in j.rows
    && var row := j.rows[p.operationId];
       && row.status == status
       && row.binding == BindingFor(c, p, challenge, row.binding.amount)
       && Select(c, p.request, challenge) == Ok(row.binding.amount)
  }

  ghost predicate SnapshotOk(j: Journal, q: ReconcileRequest, row: Row) {
    && q.operationId in j.rows
    && row.status == Unknown
    && row.binding.operationId == q.operationId
    && Rank(j.rows[q.operationId].status) >= Rank(Unknown)
    && (j.rows[q.operationId].status == Unknown ==> j.rows[q.operationId] == row)
    && (q.bodySha256.Some? ==> row.evidence.bodySha256 == q.bodySha256)
    && (row.evidence.signature.Some? ==> row.evidence.signature == Some(q.signature))
  }

  // The success of the request that paid, read off its settled row.
  ghost predicate FreshStored(c: Config, j: Journal, r: PaidRequest, paid: SidecarSuccess) {
    exists p: Plan, v: Verification ::
      && PlanOk(c, p) && p.request == r
      && SettledFor(c, j, p)
      && var row := j.rows[p.operationId];
         && VerifiedBy(c, row.evidence, v)
         && paid == StoredSuccess(c, row, p.target, Some(VerificationJson(v)))
                      .(body := Some(FreshBody(c, row.evidence.bodyText.value)))
  }

  ghost predicate SettledFor(c: Config, j: Journal, p: Plan) {
    && p.operationId in j.rows
    && var row := j.rows[p.operationId];
       && row.status == SettledVerified
       && PaidResponseStored(c, row.evidence)
       && BoundTo(row, p)
       && IsDigest(c.hash, row.binding.challengeSha256)
  }

  // The row was reserved for this plan.
  predicate BoundTo(row: Row, p: Plan) {
    row.binding == Binding(p.operationId, p.request.principalId, p.request.idempotencyKey,
                           p.request.requestFingerprint, p.policySha256, p.request.minerId,
                           p.request.endpoint, p.target, row.binding.challengeSha256, row.binding.amount)
  }

  // The parts of a success that its stored row fixes, whoever is answered.
  datatype Receipt = Receipt(
    attemptId: string, status: int, bodySha256: string, challengeSha256: string, targetSha256: string,
    settlementSha256: string, signature: string, receivedAt: int)

  function ReceiptOf(p: SidecarSuccess): Receipt {
    Receipt(p.attemptId, p.status, p.bodySha256, p.challengeSha256, p.targetSha256, p.settlementSha256,
            p.signature, p.receivedAt)
  }

  // The stored body as the first response carries it, or as a replay does.
  predicate BodyOf(c: Config, e: Evidence, body: Option<Json>) {
    body == DecodeStoredBody(c, e) || (e.bodyText.Some? && body == Some(FreshBody(c, e.bodyText.value)))
  }

  // A success, first or replayed, is read off the settled row of the request's key.
  ghost predicate FromSettledRow(c: Config, j: Journal, r: PaidRequest, paid: SidecarSuccess) {
    && paid.operationId in j.rows && paid.attemptId == paid.operationId
    && var row := j.rows[paid.operationId];
       && row.status == SettledVerified
       && row.binding.principalId == r.principalId && row.binding.idempotencyKey == r.idempotencyKey
       && row.binding.minerId == r.minerId && row.binding.endpoint == r.endpoint
       && ReceiptOf(paid) == ReceiptOf(StoredSuccess(c, row, row.binding.targetSha256, None))
       && BodyOf(c, row.evidence, paid.body)
  }

  ghost predicate FinishedOk(c: Config, j: Journal, r: Option<PaidRequest>, a: Answer, sent: bool, readFailed: bool) {
    && (readFailed ==> a == Failure("INVALID_REQUEST", None))
    && (sent ==> r.Some?)
    && (sent && a.Failure? && !readFailed ==> ErrorForCode(a.code) == PaymentError.OutcomeUnknown)
    && (sent && a.Success? ==> FreshStored(c, j, r.value, a.paid))
    && (a.Success? && r.Some? ==> FromSettledRow(c, j, r.value, a.paid))
  }

  ghost predicate HandlerOk(c: Config, j: Journal, fs: seq<Fetch>, h: Handler) {
    match h
    case Preflighting(p) => PlanOk(c, p)
    case Executing(p, v) => Holds(c, j, p, v, Reserved)
    case Signing(p, v, amount) => Holds(c, j, p, v, Reserved) && j.rows[p.operationId].binding.amount == amount
    case Armed(p, v, amount) =>
      Holds(c, j, p, v, Submitted) && j.rows[p.operationId].binding.amount == amount && !Fetched(fs, p.operationId)
    case Paid(p, v, amount) => Holds(c, j, p, v, Submitted) && j.rows[p.operationId].binding.amount == amount
    case Reconciling(q, row) => SnapshotOk(j, q, row)
    case Finished(r, a, sent, readFailed) => FinishedOk(c, j, r, a, sent, readFailed)
  }

  // The operation a handler is the only one to move.
  function OwnerOf(h: Handler): Option<string> {
    match h
    case Executing(p, _) => Some(p.operationId)
    case Signing(p, _, _) => Some(p.operationId)
    case Armed(p, _, _) => Some(p.operationId)
    case Paid(p, _, _) => Some(p.operationId)
    case _ => None
  }

  ghost predicate Unowned(s: System, op: string) {
    forall id :: id in s.handlers ==> OwnerOf(s.handlers[id]) != Some(op)
  }

  ghost predicate HandlersOk(c: Config, s: System) {
    forall id :: id in s.handlers ==> HandlerOk(c, s.journal, s.fetches, s.handlers[id])
  }

  ghost predicate OwnersDiffer(s: System) {
    forall a, b :: a in s.handlers && b in s.handlers && a != b && OwnerOf(s.handlers[a]).Some? ==>
                     OwnerOf(s.handlers[a]) != OwnerOf(s.handlers[b])
  }

  ghost predicate BudgetOk(c: Config, j: Journal) {
    OpenTotal(j.order, j.rows) <= c.maxTotal && OpenCount(j.order, j.rows) <= c.maxRequests
  }

  ghost predicate DownIsQuiet(s: System) {
    !s.up ==> forall id :: id in s.handlers ==> s.handlers[id].Finished?
  }

  ghost predicate Inv(c: Config, s: System) {
    && Valid(s.journal)
    && BudgetOk(c, s.journal)
    && RowsOk(c, s.journal)
    && FetchesOk(s.journal, s.fetches)
    && HandlersOk(c, s)
    && OwnersDiffer(s)
    && DownIsQuiet(s)
  }

  // ------------------------------------------------------------------ small facts

  lemma GrownRefl(j: Journal)
    ensures Grown(j, j)
  {
  }

  lemma GrownTransitive(a: Journal, b: Journal, c: Journal)
    requires Grown(a, b) && Grown(b, c)
    ensures Grown(a, c)
  {
    hide WriteOnce;
    EvolvesTransitive(a, b, c);
    forall op | op in a.rows ensures WriteOnce(a.rows[op].evidence, c.rows[op].evidence) {
      WriteOnceTransitive(a.rows[op].evidence, b.rows[op].evidence, c.rows[op].evidence);
    }
  }

  lemma WriteOnceTransitive(e: Evidence, f: Evidence, g: Evidence)
    requires WriteOnce(e, f) && WriteOnce(f, g)
    ensures WriteOnce(e, g)
  {
  }

  // A row found by its key is found again by its operation.
  lemma KeyedRow(j: Journal, principal: string, key: string)
    requires Valid(j) && ByPrincipalKey(j, principal, key).Some?
    ensures var row := ByPrincipalKey(j, principal, key).value;
      && row.binding.operationId in j.rows && j.rows[row.binding.operationId] == row
      && row.binding.principalId == principal && row.binding.idempotencyKey == key
  {
    hide SignaturesIndexed, EventsRise, LogMatchesTable;
  }

  // A finished answer stays justified: settled rows no longer change.
  lemma FinishedKeeps(c: Config, j: Journal, k: Journal, h: Handler)
    requires h.Finished? && FinishedOk(c, j, h.request, h.answer, h.sent, h.readFailed) && Evolves(j, k)
    ensures FinishedOk(c, k, h.request, h.answer, h.sent, h.readFailed)
  {
    hide PlanOk, VerifiedBy, StoredSuccess;
    if h.sent && h.answer.Success? {
      var p, v :| && PlanOk(c, p) && p.request == h.request.value && SettledFor(c, j, p)
                  && VerifiedBy(c, j.rows[p.operationId].evidence, v)
                  && h.answer.paid == StoredSuccess(c, j.rows[p.operationId], p.target, Some(VerificationJson(v)))
                                        .(body := Some(FreshBody(c, j.rows[p.operationId].evidence.bodyText.value)));
      assert k.rows[p.operationId] == j.rows[p.operationId];
    }
  }

  // A handler does not notice a write to a row it does not own.
  lemma HandlerKeeps(c: Config, j: Journal, k: Journal, fs: seq<Fetch>, op: string, h: Handler)
    requires HandlerOk(c, j, fs, h) && Evolves(j, k) && OnlyRow(j, k, op) && OwnerOf(h) != Some(op)
    ensures HandlerOk(c, k, fs, h)
  {
    hide PlanOk, FinishedOk, Select, BindingFor;
    if h.Finished? { FinishedKeeps(c, j, k, h); }
  }

  lemma FetchesKeep(j: Journal, k: Journal, fs: seq<Fetch>)
    requires FetchesOk(j, fs) && Evolves(j, k)
    ensures FetchesOk(k, fs)
  {
    forall i | 0 <= i < |fs| ensures FetchOk(k, fs[i]) {
      var f := fs[i];
      assert FetchOk(j, f);
      var n :| 0 <= n < f.logLength && n < |j.events| && j.events[n].operationId == f.operationId
               && j.events[n].kind == Entered(Submitted);
      assert k.events[n] == j.events[n];
    }
  }

  // ------------------------------------------------------------------- three moves

  function Without(s: System, id: nat): System { s.(handlers := s.handlers - {id}) }

  lemma DropHandler(c: Config, s: System, id: nat)
    requires Inv(c, s)
    ensures Inv(c, Without(s, id))
    ensures id in s.handlers && OwnerOf(s.handlers[id]).Some? ==> Unowned(Without(s, id), OwnerOf(s.handlers[id]).value)
  {
    hide Valid, BudgetOk, RowsOk, FetchesOk, HandlerOk, OwnerOf;
  }

  lemma PlaceHandler(c: Config, s: System, id: nat, h: Handler)
    requires Inv(c, Without(s, id)) && HandlerOk(c, s.journal, s.fetches, h)
    requires OwnerOf(h).Some? ==> Unowned(Without(s, id), OwnerOf(h).value)
    requires s.up || h.Finished?
    ensures Inv(c, s.(handlers := s.handlers[id := h]))
  {
    hide Valid, BudgetOk, RowsOk, FetchesOk, HandlerOk, OwnerOf;
    var t, w := s.(handlers := s.handlers[id := h]), Without(s, id);
    assert forall i :: i in t.handlers && i != id ==> i in w.handlers && w.handlers[i] == t.handlers[i];
  }

  // One row written that nobody owns.
  lemma WriteUnowned(c: Config, w: System, k: Journal, op: string)
    requires Inv(c, w) && Unowned(w, op)
    requires Valid(k) && BudgetOk(c, k) && Evolves(w.journal, k) && OnlyRow(w.journal, k, op)
    requires op in k.rows ==> RowOk(c, k.rows[op])
    requires op in w.journal.rows ==> WriteOnce(w.journal.rows[op].evidence, k.rows[op].evidence)
    ensures Inv(c, w.(journal := k)) && Unowned(w.(journal := k), op)
    ensures Grown(w.journal, k)
  {
    hide Valid, BudgetOk, RowOk, FetchesOk, HandlerOk, OwnerOf;
    var j, t := w.journal, w.(journal := k);
    FetchesKeep(j, k, w.fetches);
    forall i | i in t.handlers ensures HandlerOk(c, k, w.fetches, t.handlers[i]) {
      assert t.handlers[i] == w.handlers[i];
      HandlerKeeps(c, j, k, w.fetches, op, w.handlers[i]);
    }
    forall o | o in j.rows ensures WriteOnce(j.rows[o].evidence, k.rows[o].evidence) {
      assert o == op || k.rows[o] == j.rows[o];
    }
    forall o | o in k.rows ensures RowOk(c, k.rows[o]) {
      assert o == op || k.rows[o] == j.rows[o];
    }
  }

  // One row written, whose owner has been set aside.
  lemma WriteJournal(c: Config, s: System, id: nat, k: Journal, op: string)
    requires Inv(c, Without(s, id)) && Unowned(Without(s, id), op)
    requires Valid(k) && BudgetOk(c, k) && Evolves(s.journal, k) && OnlyRow(s.journal, k, op)
    requires op in k.rows ==> RowOk(c, k.rows[op])
    requires op in s.journal.rows ==> WriteOnce(s.journal.rows[op].evidence, k.rows[op].evidence)
    ensures Inv(c, Without(s.(journal := k), id)) && Unowned(Without(s.(journal := k), id), op)
    ensures Grown(s.journal, k)
  {
    hide Inv, Unowned, Grown, Valid, BudgetOk, RowOk, WriteOnce, Evolves, OnlyRow;
    WriteUnowned(c, Without(s, id), k, op);
  }

  // A row that is not in the middle of its life has no owner.
  lemma SettledRowsAreUnowned(c: Config, s: System, op: string)
    requires HandlersOk(c, s) && (op in s.journal.rows ==> !Unfinished(s.journal.rows[op]))
    ensures Unowned(s, op)
  {
    hide PlanOk, BindingFor, Select;
    forall id | id in s.handlers ensures OwnerOf(s.handlers[id]) != Some(op) {
      assert HandlerOk(c, s.journal, s.fetches, s.handlers[id]);
    }
  }

  // The log shows the submission of every row it leaves submitted.
  lemma {:induction false} SubmittedIsLogged(events: seq<Event>, op: string)
    requires op in ReplayLog(events) && ReplayLog(events)[op].status == Submitted
    ensures SubmittedBefore(events, op, |events|)
  {
    var front, last := events[..|events| - 1], events[|events| - 1];
    if last.operationId == op && KindStatus(last.kind) == Submitted {
      assert events[|events| - 1].kind == Entered(Submitted);
    } else {
      SubmittedIsLogged(front, op);
      var i :| 0 <= i < |front| && front[i].operationId == op && front[i].kind == Entered(Submitted);
      assert events[i] == front[i];
    }
  }
}
