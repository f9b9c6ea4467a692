// The other side of safety: with a clean storage, room in the budget and a verified
// settlement, the steps of a payment do go through, one after the other.
module SidecarProgress {
  import opened Prelude
  import opened CanonicalJson
  import opened JournalSpec
  import opened JournalLaws
  import opened Canary
  import opened PaymentClient
  import opened Sidecar
  import opened SidecarInvariant
  import opened SidecarSteps

  // A request that may start: it passes the gate, and its key and operation are unused.
  ghost predicate MayStart(c: Config, s: System, id: nat, p: Plan) {
    && s.up && id !in s.handlers && PlanOk(c, p)
    && ByPrincipalKey(s.journal, p.request.principalId, p.request.idempotencyKey).None?
    && p.operationId !in s.journal.rows
  }

  lemma ArriveStarts(c: Config, s: System, id: nat, p: Plan)
    requires MayStart(c, s, id, p)
    ensures Step(c, s, Arrive(id, p.request)) == s.(handlers := s.handlers[id := Preflighting(p)])
  {
    hide GateCode, OperationIdFor, PolicySha256, ByPrincipalKey;
  }

  ghost predicate HasRoom(c: Config, j: Journal, amount: int) {
    OpenCount(j.order, j.rows) < c.maxRequests && OpenTotal(j.order, j.rows) + amount <= c.maxTotal
  }

  lemma ReserveGoesThrough(c: Config, j: Journal, b: Binding, now: int)
    requires ValidConfig(c) && Valid(j) && ByPrincipalKey(j, b.principalId, b.idempotencyKey).None?
    requires b.operationId !in j.rows && 0 < b.amount <= c.maxAmount && HasRoom(c, j, b.amount)
    ensures JournalSpec.Reserve(j, b, c.maxTotal, c.maxRequests, now)
         == (Ok(Fresh(Row(b, Reserved, NO_EVIDENCE, now, now))), InsertRow(j, b, now))
  {
    hide Valid, ByPrincipalKey, OpenTotal, OpenCount, InsertRow, Injective, WellFormed;
    UnusedKey(j, b, now);
  }

  lemma PreflightGoesThrough(c: Config, s: System, id: nat, p: Plan, v: ParsedJson, amount: int, now: int)
    requires ValidConfig(c) && Inv(c, s) && id in s.handlers && s.handlers[id] == Preflighting(p)
    requires ByPrincipalKey(s.journal, p.request.principalId, p.request.idempotencyKey).None?
    requires p.operationId !in s.journal.rows && Select(c, p.request, v) == Ok(amount) && HasRoom(c, s.journal, amount)
    ensures var t := Step(c, s, PreflightReply(id, Challenge(v), Clean, now));
      && t.handlers == s.handlers[id := Executing(p, v)]
      && t.journal == InsertRow(s.journal, BindingFor(c, p, v, amount), now)
      && t.up == s.up && t.fetches == s.fetches
  {
    hide ValidConfig, Inv, Select, ByPrincipalKey, JournalSpec.Reserve, InsertRow, HasRoom, Valid, BudgetOk, RowsOk,
         HandlersOk, FetchesOk;
    InvParts(c, s);
    SelectedIsCapped(c, p.request, v);
    CapIsSafe(c);
    ReserveGoesThrough(c, s.journal, BindingFor(c, p, v, amount), now);
  }

  lemma CapIsSafe(c: Config)
    requires ValidConfig(c)
    ensures c.maxAmount <= 10000
  {
  }

  // A second challenge of the same digest is the one the signer may sign.
  lemma ExecuteGoesThrough(c: Config, s: System, id: nat, p: Plan, v: ParsedJson, w: ParsedJson, st: Storage)
    requires ValidConfig(c) && id in s.handlers && s.handlers[id] == Executing(p, v)
    requires ChallengeSha256(c, w) == ChallengeSha256(c, v) && Select(c, p.request, v).Ok?
    ensures Step(c, s, ExecuteReply(id, Challenge(w), st))
         == s.(handlers := s.handlers[id := Signing(p, v, Select(c, p.request, v).value)])
  {
    hide ValidConfig, Select, ChallengeSha256, Conclude;
    SameDigestSameAmount(c, p.request, w, v);
  }

  lemma SubmitGoesThrough(c: Config, s: System, id: nat, h: Handler, st: Storage)
    requires Inv(c, s) && id in s.handlers && s.handlers[id] == h && h.Signing?
    ensures var t := Step(c, s, Submit(id, Clean, st));
      && t.handlers == s.handlers[id := Armed(h.plan, h.challenge, h.amount)]
      && StatusOf(t.journal, h.plan.operationId) == Some(Submitted)
      && t.fetches == s.fetches
  {
    hide Inv, Conclude, PlanOk, Select, BindingFor, Transition, Valid, BudgetOk, RowsOk, HandlersOk, FetchesOk,
         SignatureFree;
    SignerHolds(c, s, id);
    InvParts(c, s);
    var op := h.plan.operationId;
    SignatureStaysFree(s.journal, op);
    TransitionIsValid(s.journal, op, Reserved, Submitted, NoUpdate, st.now);
  }

  // The answer to a clean settlement, and what it leaves.
  lemma SettlementGoesThrough(c: Config, s: System, id: nat, p: Plan, v: ParsedJson, amount: int, outcome: PaidOutcome,
                              st: Storage)
    requires Inv(c, s) && id in s.handlers && s.handlers[id] == Paid(p, v, amount)
    requires st.readOk && st.first == Clean
    requires var r := FinishPaid(Env(c), amount, outcome);
      r.ok && Settleable(r) && SignatureFree(s.journal, p.operationId, Some(r.settlement.value.signature))
    ensures var t := Step(c, s, PaidReply(id, outcome, st));
      && id in t.handlers && t.handlers[id].Finished? && t.handlers[id].sent && t.handlers[id].answer.Success?
      && t.handlers[id].answer.paid.operationId == p.operationId
      && StatusOf(t.journal, p.operationId) == Some(SettledVerified)
      && t.journal.rows[p.operationId].evidence.signature
           == Some(FinishPaid(Env(c), amount, outcome).settlement.value.signature)
  {
    hide Inv, FinishPaid, PlanOk, Select, Transition, Valid, BudgetOk, RowsOk, HandlersOk, FetchesOk, SignatureFree,
         Partial, Settling, Assign, FreshSuccess, BindingFor, MarkedUnknown;
    SignerHolds(c, s, id);
    InvParts(c, s);
    var r := FinishPaid(Env(c), amount, outcome);
    var row := s.journal.rows[p.operationId];
    SettlingSigns(c, row.evidence, r);
    BoundOperation(c, p, v, row.binding.amount);
    TransitionIsValid(s.journal, p.operationId, Submitted, SettledVerified, Settling(c, r), st.now);
    var settled := MarkSettled(s.journal, p.operationId, Settling(c, r), st.now).0.value;
    FreshSuccessOperation(c, p, settled, r);
  }

  lemma SettlingSigns(c: Config, e: Evidence, r: CanaryResult)
    requires Settleable(r)
    ensures Assign(e, Settling(c, r)).signature == Some(r.settlement.value.signature)
  {
  }

  lemma BoundOperation(c: Config, p: Plan, v: ParsedJson, amount: int)
    ensures BindingFor(c, p, v, amount).operationId == p.operationId
  {
  }

  lemma FreshSuccessOperation(c: Config, p: Plan, row: Row, r: CanaryResult)
    requires Settleable(r)
    ensures FreshSuccess(c, p, row, r).operationId == row.binding.operationId
  {
    hide FreshBody;
  }

  lemma PlanIsParsed(c: Config, p: Plan)
    requires PlanOk(c, p)
    ensures WellFormed(Obj(p.request.params))
  {
    hide WellFormed;
  }

  function UpToSigning(c: Config, s: System, a: Action, b: Action, d: Action): System {
    Step(c, Step(c, Step(c, s, a), b), d)
  }

  // From an accepted request to the paid fetch: six clean steps, each leading to the
  // next, and the fetch is for the amount the challenge selected.
  lemma CleanRunSendsThePayment(c: Config, s: System, id: nat, p: Plan, v: ParsedJson, w: ParsedJson, st: Storage)
    requires ValidConfig(c) && Inv(c, s) && MayStart(c, s, id, p)
    requires Select(c, p.request, v).Ok? && HasRoom(c, s.journal, Select(c, p.request, v).value)
    requires ChallengeSha256(c, w) == ChallengeSha256(c, v)
    ensures var t := UpToSigning(c, s, Arrive(id, p.request), PreflightReply(id, Challenge(v), Clean, st.now),
                                ExecuteReply(id, Challenge(w), st));
      var u := Step(c, Step(c, t, Submit(id, Clean, st)), Send(id));
      var amount := Select(c, p.request, v).value;
      && Inv(c, u)
      && id in u.handlers && u.handlers[id] == Paid(p, v, amount)
      && |u.fetches| == |s.fetches| + 1
      && u.fetches[|s.fetches|].operationId == p.operationId && u.fetches[|s.fetches|].amount == amount
  {
    hide ValidConfig, Inv, Step, Select, ChallengeSha256, HasRoom, ByPrincipalKey, PlanOk, Grown, InsertRow, WellFormed;
    var amount := Select(c, p.request, v).value;
    PlanIsParsed(c, p);
    ArriveStarts(c, s, id, p);
    StepKeeps(c, s, Arrive(id, p.request));
    var s1 := Step(c, s, Arrive(id, p.request));
    PreflightGoesThrough(c, s1, id, p, v, amount, st.now);
    StepKeeps(c, s1, PreflightReply(id, Challenge(v), Clean, st.now));
    var s2 := Step(c, s1, PreflightReply(id, Challenge(v), Clean, st.now));
    ExecuteGoesThrough(c, s2, id, p, v, w, st);
    StepKeeps(c, s2, ExecuteReply(id, Challenge(w), st));
    var s3 := Step(c, s2, ExecuteReply(id, Challenge(w), st));
    SubmitGoesThrough(c, s3, id, Signing(p, v, amount), st);
    StepKeeps(c, s3, Submit(id, Clean, st));
    var s4 := Step(c, s3, Submit(id, Clean, st));
    SendGoesThrough(c, s4, id, p, v, amount);
    StepKeeps(c, s4, Send(id));
  }

  lemma SendGoesThrough(c: Config, s: System, id: nat, p: Plan, v: ParsedJson, amount: int)
    requires id in s.handlers && s.handlers[id] == Armed(p, v, amount)
    ensures var t := Step(c, s, Send(id));
      && id in t.handlers && t.handlers[id] == Paid(p, v, amount)
      && |t.fetches| == |s.fetches| + 1
      && t.fetches[|s.fetches|].operationId == p.operationId && t.fetches[|s.fetches|].amount == amount
  {
    hide Conclude, ThrewStep, FinishPaid;
  }

  // A paid run that does not succeed leaves its evidence with the row, for a later
  // reconciliation to be held against.
  lemma FailedSettlementIsRecorded(c: Config, s: System, id: nat, p: Plan, v: ParsedJson, amount: int,
                                   outcome: PaidOutcome, st: Storage)
    requires Inv(c, s) && id in s.handlers && s.handlers[id] == Paid(p, v, amount)
    requires st.readOk && st.first == Clean
    requires var r := FinishPaid(Env(c), amount, outcome);
      !r.ok && SignatureFree(s.journal, p.operationId, Partial(c, r).signature)
    ensures var t := Step(c, s, PaidReply(id, outcome, st));
      && id in t.handlers && t.handlers[id].Finished? && t.handlers[id].sent
      && t.handlers[id].answer == Failure("PAYMENT_OUTCOME_UNKNOWN", Some(p.operationId))
      && StatusOf(t.journal, p.operationId) == Some(Unknown)
      && var e, r := t.journal.rows[p.operationId].evidence, FinishPaid(Env(c), amount, outcome);
         && e.responseStatus == r.status && e.bodyText == r.bodyText && e.bodySha256 == r.bodySha256
         && e.signature == Partial(c, r).signature
  {
    hide Inv, FinishPaid, PlanOk, Select, Transition, Valid, BudgetOk, RowsOk, HandlersOk, FetchesOk, SignatureFree,
         SafeErrorCode;
    SignerHolds(c, s, id);
    InvParts(c, s);
    var r := FinishPaid(Env(c), amount, outcome);
    PaidWasAttempted(c, amount, outcome);
    assert RowOk(c, s.journal.rows[p.operationId]);
    TransitionIsValid(s.journal, p.operationId, Submitted, Unknown,
                      UnknownWith(SafeErrorCode("PAID_REQUEST_OUTCOME_UNKNOWN"), Some(Partial(c, r))), st.now);
  }

  lemma PaidWasAttempted(c: Config, amount: int, outcome: PaidOutcome)
    ensures FinishPaid(Env(c), amount, outcome).attempted
  {
    SuccessIsComplete(Env(c), amount, outcome);
  }

  // A reconciliation whose chain evidence verifies, and whose artifact is the digest of
  // it, takes an unknown row to its end.
  lemma ReconciliationGoesThrough(c: Config, s: System, id: nat, q: ReconcileRequest, row: Row, a: ChainAnswer,
                                  now: int)
    requires Inv(c, s) && id in s.handlers && s.handlers[id] == Reconciling(q, row)
    requires StatusOf(s.journal, q.operationId) == Some(Unknown)
    requires SignatureFree(s.journal, q.operationId, Some(q.signature))
    requires var v := ChainVerification(c, q, row, a);
      FullyVerified(v) && c.hash(CanonicalText(VerificationJson(v))) == q.artifactSha256
    ensures var t := Step(c, s, ReconcileReply(id, Chain(a), Clean, now));
      && id in t.handlers && t.handlers[id].Finished? && t.handlers[id].answer.Success?
      && t.handlers[id].answer.paid.signature == q.signature
      && StatusOf(t.journal, q.operationId) == Some(ReconciledVerified)
      && t.journal.rows[q.operationId].evidence.signature == Some(q.signature)
      && t.journal.rows[q.operationId].evidence.errorCode.None?
  {
    hide Inv, Transition, Valid, BudgetOk, RowsOk, HandlersOk, FetchesOk, SignatureFree, FullyVerified,
         ChainVerification, VerificationJson, CanonicalText, DecodeStoredBody;
    SignerHolds(c, s, id);
    InvParts(c, s);
    var text := CanonicalText(VerificationJson(ChainVerification(c, q, row, a)));
    TransitionIsValid(s.journal, q.operationId, Unknown, ReconciledVerified,
                      ReconcileWith(q.artifactSha256, q.signature, text, q.bodySha256), now);
  }
}
