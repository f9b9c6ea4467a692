// Every step of the sidecar keeps the invariant and only grows the journal.
module SidecarSteps {
  import opened Prelude
  import opened CanonicalJson
  import opened JournalSpec
  import opened JournalLaws
  import opened Canary
  import opened PaymentClient
  import opened Sidecar
  import opened SidecarInvariant

  // What a step establishes.
  ghost predicate Keeps(c: Config, s: System, t: System) {
    Inv(c, t) && Grown(s.journal, t.journal) && s.fetches <= t.fetches
  }

  // A handler set aside whose row, if it has one, waits for it.
  ghost predicate Turn(c: Config, s: System, id: nat, p: Plan) {
    && Inv(c, Without(s, id))
    && s.up
    && PlanOk(c, p)
    && Unowned(Without(s, id), p.operationId)
    && p.operationId in s.journal.rows
  }

  lemma TakeTurn(c: Config, s: System, id: nat, p: Plan)
    requires Inv(c, s) && id in s.handlers && OwnerOf(s.handlers[id]) == Some(p.operationId) && s.handlers[id].plan == p
    ensures Turn(c, s, id, p)
  {
    hide Valid, BudgetOk, RowsOk, FetchesOk, PlanFor, Select, BindingFor;
    DropHandler(c, s, id);
    assert HandlerOk(c, s.journal, s.fetches, s.handlers[id]);
  }

  // A handler that ends without touching the journal.
  lemma FinishKeeps(c: Config, s: System, id: nat, h: Handler)
    requires Inv(c, Without(s, id)) && h.Finished?
    requires FinishedOk(c, s.journal, h.request, h.answer, h.sent, h.readFailed)
    ensures Keeps(c, s, s.(handlers := s.handlers[id := h]))
  {
    hide Inv, Grown, FinishedOk;
    PlaceHandler(c, s, id, h);
    GrownRefl(s.journal);
  }

  lemma TransitionIsValidFrom(c: Config, j: Journal, op: string, from: Status, to: Status, u: Update, now: int,
                              fault: Fault)
    requires Valid(j) && BudgetOk(c, j) && Edge(from, to)
    requires op in j.rows && j.rows[op].status == from && WriteOnce(j.rows[op].evidence, Assign(j.rows[op].evidence, u))
    ensures var (r, k) := Stored(j, Transition(j, op, from, to, u, now), fault);
      && Valid(k) && BudgetOk(c, k) && Evolves(j, k) && OnlyRow(j, k, op)
      && op in k.rows
      && WriteOnce(j.rows[op].evidence, k.rows[op].evidence)
      && (r.Ok? ==> k.rows[op] == r.value && r.value.status == to)
      && (k.rows[op] != j.rows[op] ==> k.rows[op].status == to)
      && (k.rows[op].status == to ==> k.rows[op].evidence == Assign(j.rows[op].evidence, u)
                                      && k.rows[op].binding == j.rows[op].binding)
      && (k.rows[op].status != to ==> k == j)
  {
    hide Valid, Transition, OpenTotal, OpenCount, Assign, OnlyRow, SignatureFree;
    TransitionIsValid(j, op, from, to, u, now);
    Unchanged(j, op);
    var (r, k) := Transition(j, op, from, to, u, now);
    WriteOnceRefl(j.rows[op].evidence);
  }

  lemma WriteOnceRefl(e: Evidence)
    ensures WriteOnce(e, e)
  {
  }

  // The journal after a handler wrote its own row, or failed to.
  ghost predicate OwnRowMoved(c: Config, s: System, id: nat, op: string, to: Status, u: Update,
                              r: Result<Row, JournalError>, k: Journal)
  {
    var t := s.(journal := k);
    && Inv(c, Without(t, id)) && Unowned(Without(t, id), op)
    && Grown(s.journal, k)
    && op in s.journal.rows && op in k.rows
    && k.rows[op].binding == s.journal.rows[op].binding
    && (k.rows[op].status == to || k == s.journal)
    && (r.Ok? ==> k.rows[op] == r.value && r.value.status == to && r.value.evidence == Assign(NO_EVIDENCE, u))
  }

  // One transition of the handler's own row, from before the payment's outcome is known.
  lemma OwnRowMoves(c: Config, s: System, id: nat, p: Plan, from: Status, to: Status, u: Update, now: int, fault: Fault)
    requires Turn(c, s, id, p) && Edge(from, to) && from != Unknown && s.journal.rows[p.operationId].status == from
    requires to == SettledVerified ==>
               u.SettleWith? && PaidResponseStored(c, Assign(NO_EVIDENCE, u))
               && exists v :: VerifiedBy(c, Assign(NO_EVIDENCE, u), v)
    requires to == Submitted ==> u == NoUpdate
    requires to == Unknown ==> u.UnknownWith?
    requires to == Aborted ==> u.AbortWith?
    ensures var (r, k) := Stored(s.journal, Transition(s.journal, p.operationId, from, to, u, now), fault);
      OwnRowMoved(c, s, id, p.operationId, to, u, r, k)
  {
    hide Valid, BudgetOk, Evolves, OnlyRow, Grown, FetchesOk, HandlersOk, OwnersDiffer, Unowned, PlanOk,
         PaidResponseStored, VerifiedBy, Assign, Transition, WriteOnce, IsDigest, Planned;
    var op := p.operationId;
    SamePlanned(c, s.journal.rows[op]);
    assert RowOk(c, s.journal.rows[op]);
    NothingToLose(Assign(NO_EVIDENCE, u));
    TransitionIsValidFrom(c, s.journal, op, from, to, u, now, fault);
    var (r, k) := Stored(s.journal, Transition(s.journal, op, from, to, u, now), fault);
    assert RowOk(c, k.rows[op]) by {
      UnverifiedUpdates(u);
    }
    WriteJournal(c, s, id, k, op);
  }

  lemma NothingToLose(e: Evidence)
    ensures WriteOnce(NO_EVIDENCE, e)
  {
  }

  // What a row was reserved for is in its binding.
  lemma SamePlanned(c: Config, row: Row)
    ensures forall other: Row :: other.binding == row.binding ==> (Planned(c, other) <==> Planned(c, row))
  {
    forall other: Row | other.binding == row.binding ensures Planned(c, other) <==> Planned(c, row) {
      if Planned(c, row) { PlannedByBinding(c, row, other); }
      if Planned(c, other) { PlannedByBinding(c, other, row); }
    }
  }

  lemma PlannedByBinding(c: Config, row: Row, other: Row)
    requires other.binding == row.binding && Planned(c, row)
    ensures Planned(c, other)
  {
    var p: Plan :| PlanOk(c, p) && BoundTo(row, p);
    assert BoundTo(other, p);
  }

  lemma UnverifiedUpdates(u: Update)
    ensures u == NoUpdate ==> Assign(NO_EVIDENCE, u) == NO_EVIDENCE
    ensures u.UnknownWith? || u.AbortWith? ==> Assign(NO_EVIDENCE, u).verificationSha256.None?
  {
  }

  // -------------------------------------------------------------- concluding a run

  lemma MarkedUnknownKeeps(c: Config, s: System, id: nat, p: Plan, code: string,
                           partial: Option<PartialEvidence>, fault: Fault, now: int)
    requires Turn(c, s, id, p)
    ensures var k := MarkedUnknown(s.journal, p.operationId, code, partial, fault, now);
      Inv(c, Without(s.(journal := k), id)) && Grown(s.journal, k)
  {
    hide Inv, Grown, Transition;
    GrownRefl(s.journal);
    if s.journal.rows[p.operationId].status == Submitted {
      OwnRowMoves(c, s, id, p, Submitted, Unknown, UnknownWith(SafeErrorCode(code), partial), now, fault);
    }
  }

  lemma MarkedAbortedKeeps(c: Config, s: System, id: nat, p: Plan, code: string, fault: Fault, now: int)
    requires Turn(c, s, id, p)
    ensures var k := MarkedAborted(s.journal, p.operationId, code, fault, now);
      Inv(c, Without(s.(journal := k), id)) && Grown(s.journal, k)
  {
    hide Inv, Grown, Transition;
    GrownRefl(s.journal);
    if s.journal.rows[p.operationId].status == Reserved {
      OwnRowMoves(c, s, id, p, Reserved, Aborted, AbortWith(SafeErrorCode(code)), now, fault);
    }
  }

  // The handler writes the journal and then ends.
  lemma WriteThenFinish(c: Config, s: System, id: nat, k: Journal, h: Handler)
    requires Inv(c, Without(s.(journal := k), id)) && Grown(s.journal, k) && h.Finished?
    requires FinishedOk(c, k, h.request, h.answer, h.sent, h.readFailed)
    ensures Keeps(c, s, s.(journal := k, handlers := s.handlers[id := h]))
  {
    hide Inv, Grown, FinishedOk;
    FinishKeeps(c, s.(journal := k), id, h);
  }

  lemma ReadFailureKeeps(c: Config, s: System, id: nat, p: Plan, sent: bool)
    requires Turn(c, s, id, p)
    ensures Keeps(c, s, ReadFailure(s, id, p, sent))
  {
    hide Inv, Keeps;
    FinishKeeps(c, s, id, Finished(Some(p.request), Failure("INVALID_REQUEST", None), sent, true));
  }

  lemma ThrewKeeps(c: Config, s: System, id: nat, p: Plan, sent: bool, st: Storage)
    requires Turn(c, s, id, p) && (sent ==> s.journal.rows[p.operationId].status == Submitted)
    ensures Keeps(c, s, ThrewStep(s, id, p, sent, st))
  {
    hide Inv, Keeps, Grown, MarkedUnknown, MarkedAborted;
    var op := p.operationId;
    if !st.readOk {
      ReadFailureKeeps(c, s, id, p, sent);
    } else if StatusOf(s.journal, op) == Some(Submitted) {
      MarkedUnknownKeeps(c, s, id, p, "CANARY_EXECUTION_UNKNOWN", None, st.first, st.now);
      var k := MarkedUnknown(s.journal, op, "CANARY_EXECUTION_UNKNOWN", None, st.first, st.now);
      WriteThenFinish(c, s, id, k,
                      Finished(Some(p.request), Failure("PAYMENT_OUTCOME_UNKNOWN", Some(op)), sent, false));
    } else {
      MarkedAbortedKeeps(c, s, id, p, "CANARY_EXECUTION_FAILED", st.first, st.now);
      var k := MarkedAborted(s.journal, op, "CANARY_EXECUTION_FAILED", st.first, st.now);
      WriteThenFinish(c, s, id, k, Finished(Some(p.request), Failure("PREFLIGHT_FETCH_FAILED", Some(op)), sent, false));
    }
  }

  // What a handler may conclude with: a success is complete and was paid for.
  ghost predicate Concluding(c: Config, s: System, p: Plan, r: CanaryResult, sent: bool) {
    && p.operationId in s.journal.rows
    && BoundTo(s.journal.rows[p.operationId], p)
    && (sent ==> r.attempted && s.journal.rows[p.operationId].status == Submitted)
    && (r.ok ==> sent && CompleteEvidence(Env(c), r))
  }

  lemma ConcludeKeeps(c: Config, s: System, id: nat, p: Plan, r: CanaryResult, sent: bool, st: Storage)
    requires Turn(c, s, id, p) && Concluding(c, s, p, r, sent)
    ensures Keeps(c, s, Conclude(c, s, id, p, r, sent, st))
  {
    hide Inv, Keeps, Grown, MarkedUnknown, MarkedAborted, Partial, SettleStep;
    var op := p.operationId;
    if !st.readOk {
      ReadFailureKeeps(c, s, id, p, sent);
    } else if !r.ok && (r.attempted || StatusOf(s.journal, op) == Some(Submitted)) {
      MarkedUnknownKeeps(c, s, id, p, "PAID_REQUEST_OUTCOME_UNKNOWN", Some(Partial(c, r)), st.first, st.now);
      var k := MarkedUnknown(s.journal, op, "PAID_REQUEST_OUTCOME_UNKNOWN", Some(Partial(c, r)), st.first, st.now);
      WriteThenFinish(c, s, id, k,
                      Finished(Some(p.request), Failure("PAYMENT_OUTCOME_UNKNOWN", Some(op)), sent, false));
    } else if !r.ok {
      MarkedAbortedKeeps(c, s, id, p, r.code, st.first, st.now);
      var k := MarkedAborted(s.journal, op, r.code, st.first, st.now);
      WriteThenFinish(c, s, id, k, Finished(Some(p.request), Failure(r.code, Some(op)), sent, false));
    } else if !Settleable(r) {
      MarkedUnknownKeeps(c, s, id, p, "INCOMPLETE_SETTLEMENT_EVIDENCE", Some(Partial(c, r)), st.first, st.now);
      var k := MarkedUnknown(s.journal, op, "INCOMPLETE_SETTLEMENT_EVIDENCE", Some(Partial(c, r)), st.first, st.now);
      WriteThenFinish(c, s, id, k,
                      Finished(Some(p.request), Failure("INCOMPLETE_SETTLEMENT_EVIDENCE", Some(op)), sent, false));
    } else {
      SettleKeeps(c, s, id, p, r, sent, st);
    }
  }

  // A complete success is what a settled row stores.
  lemma SettlingStores(c: Config, r: CanaryResult)
    requires Settleable(r) && CompleteEvidence(Env(c), r)
    ensures PaidResponseStored(c, Assign(NO_EVIDENCE, Settling(c, r)))
    ensures VerifiedBy(c, Assign(NO_EVIDENCE, Settling(c, r)), r.verification.value)
  {
    hide FullyVerified;
  }

  lemma SettledAnswerIsStored(c: Config, j: Journal, p: Plan, row: Row, r: CanaryResult)
    requires Settleable(r) && CompleteEvidence(Env(c), r) && PlanOk(c, p)
    requires p.operationId in j.rows && j.rows[p.operationId] == row
    requires row.status == SettledVerified && BoundTo(row, p) && IsDigest(c.hash, row.binding.challengeSha256)
    requires row.evidence == Assign(NO_EVIDENCE, Settling(c, r))
    ensures FreshStored(c, j, p.request, FreshSuccess(c, p, row, r))
    ensures FromSettledRow(c, j, p.request, FreshSuccess(c, p, row, r))
  {
    hide PlanOk, FullyVerified, IsDigest;
    SettlingStores(c, r);
    var v := r.verification.value;
    assert SettledFor(c, j, p);
    assert VerifiedBy(c, row.evidence, v);
    assert FreshSuccess(c, p, row, r)
        == StoredSuccess(c, row, p.target, Some(VerificationJson(v)))
             .(body := Some(FreshBody(c, row.evidence.bodyText.value)));
  }

  lemma ChallengeIsDigest(c: Config, s: System, op: string)
    requires Inv(c, s) && op in s.journal.rows
    ensures IsDigest(c.hash, s.journal.rows[op].binding.challengeSha256)
  {
    hide IsDigest;
    assert RowOk(c, s.journal.rows[op]);
  }

  lemma SettleKeeps(c: Config, s: System, id: nat, p: Plan, r: CanaryResult, sent: bool, st: Storage)
    requires Turn(c, s, id, p) && Concluding(c, s, p, r, sent) && Settleable(r) && r.ok
    ensures Keeps(c, s, SettleStep(c, s, id, p, r, sent, st))
  {
    hide Inv, Keeps, Grown, MarkedUnknown, Partial, Transition, Settling, PaidResponseStored, VerifiedBy, Assign,
         FreshSuccess, PlanOk, Unowned, CompleteEvidence, FreshStored, FromSettledRow, IsDigest;
    var op := p.operationId;
    ChallengeIsDigest(c, Without(s, id), op);
    SettlingStores(c, r);
    var u := Settling(c, r);
    assert VerifiedBy(c, Assign(NO_EVIDENCE, u), r.verification.value);
    OwnRowMoves(c, s, id, p, Submitted, SettledVerified, u, st.now, st.first);
    var (settled, k) := Stored(s.journal, MarkSettled(s.journal, op, u, st.now), st.first);
    if settled.Ok? {
      var row := settled.value;
      SettledAnswerIsStored(c, k, p, row, r);
      WriteThenFinish(c, s, id, k, Finished(Some(p.request), Success(FreshSuccess(c, p, row, r)), sent, false));
    } else {
      var t := s.(journal := k);
      MarkedUnknownKeeps(c, t, id, p, "JOURNAL_SETTLEMENT_WRITE_FAILED", Some(Partial(c, r)), st.second, st.now);
      var k2 := MarkedUnknown(k, op, "JOURNAL_SETTLEMENT_WRITE_FAILED", Some(Partial(c, r)), st.second, st.now);
      GrownTransitive(s.journal, k, k2);
      WriteThenFinish(c, s, id, k2, Finished(Some(p.request), Failure("JOURNAL_FAILURE", Some(op)), sent, false));
    }
  }

  // ------------------------------------------------------------- the way to paying

  // A handler that starts, owning nothing.
  lemma StartKeeps(c: Config, s: System, id: nat, h: Handler)
    requires Inv(c, s) && s.up && id !in s.handlers && HandlerOk(c, s.journal, s.fetches, h) && OwnerOf(h).None?
    ensures Keeps(c, s, s.(handlers := s.handlers[id := h]))
  {
    hide Inv, Grown, HandlerOk;
    DropHandler(c, s, id);
    GrownRefl(s.journal);
    PlaceHandler(c, s, id, h);
  }

  lemma GateGivesTarget(c: Config, r: PaidRequest)
    ensures GateCode(c, r).None? ==> c.targetOf(r.minerId, r.endpoint, r.params).Some?
  {
  }

  // An answer from a stored row is a success only off the settled row of the key.
  lemma ExistingAnswerIsStored(c: Config, j: Journal, p: Plan, row: Row)
    requires Valid(j) && ByPrincipalKey(j, p.request.principalId, p.request.idempotencyKey) == Some(row)
    ensures FinishedOk(c, j, Some(p.request), AnswerExisting(c, p, row), false, false)
    ensures row.binding.minerId == p.request.minerId && row.binding.endpoint == p.request.endpoint ==>
              FinishedOk(c, j, Some(p.request), ReplayResponse(c, row, p.target), false, false)
  {
    hide Valid, ByPrincipalKey, FreshStored, ErrorForCode, DecodeStoredBody;
    KeyedRow(j, p.request.principalId, p.request.idempotencyKey);
  }

  lemma ArrivalIsOk(c: Config, s: System, r: PaidRequest)
    requires WellFormed(Obj(r.params)) && Valid(s.journal)
    ensures HandlerOk(c, s.journal, s.fetches, Arrival(c, s.journal, r)) && OwnerOf(Arrival(c, s.journal, r)).None?
  {
    hide FingerprintOf, OperationIdFor, PolicySha256, AnswerExisting, ByPrincipalKey, FinishedOk, GateCode, WellFormed,
         Valid;
    GateGivesTarget(c, r);
    PlainFailure(c, s.journal, Some(r));
    if GateCode(c, r).None? {
      var p := PlanFor(c, r, c.targetOf(r.minerId, r.endpoint, r.params).value);
      match ByPrincipalKey(s.journal, r.principalId, r.idempotencyKey) {
        case Some(row) => ExistingAnswerIsStored(c, s.journal, p, row);
        case None =>
      }
    }
  }

  lemma RejectKeeps(c: Config, s: System, id: nat, p: Plan, code: string)
    requires Inv(c, Without(s, id))
    ensures Keeps(c, s, Reject(s, id, p, code, false))
  {
    hide Inv, Keeps;
    FinishKeeps(c, s, id, Finished(Some(p.request), Failure(code, Some(p.operationId)), false, false));
  }

  lemma PreflightKeeps(c: Config, s: System, id: nat, p: Plan, reply: Reply, fault: Fault, now: int)
    requires ValidConfig(c) && Inv(c, s) && id in s.handlers && s.handlers[id] == Preflighting(p)
    ensures Keeps(c, s, PreflightStep(c, s, id, p, reply, fault, now))
  {
    hide Keeps, Valid, BudgetOk, RowsOk, FetchesOk, PlanFor, Select, ReserveStep, Reject;
    DropHandler(c, s, id);
    assert HandlerOk(c, s.journal, s.fetches, s.handlers[id]);
    match reply {
      case Threw => RejectKeeps(c, s, id, p, "PREFLIGHT_FETCH_FAILED");
      case Refused(code) => RejectKeeps(c, s, id, p, code);
      case Challenge(v) =>
        match Select(c, p.request, v) {
          case Err(code) => RejectKeeps(c, s, id, p, code);
          case Ok(amount) =>
            if !SafePositive(amount) { RejectKeeps(c, s, id, p, "CHALLENGE_AMOUNT_INVALID"); }
            else { ReserveKeeps(c, s, id, p, v, amount, fault, now); }
        }
    }
  }

  // A reservation takes an operation nobody owns, or changes nothing.
  lemma ReserveKeeps(c: Config, s: System, id: nat, p: Plan, v: ParsedJson, amount: int, fault: Fault, now: int)
    requires ValidConfig(c) && Inv(c, Without(s, id)) && s.up && PlanOk(c, p)
    requires Select(c, p.request, v) == Ok(amount)
    ensures Keeps(c, s, ReserveStep(c, s, id, p, v, amount, fault, now))
  {
    hide ValidConfig, Inv, Keeps, Grown, Valid, OpenTotal, OpenCount, JournalSpec.Reserve, Evolves, OnlyRow,
         ReplayResponse, PlanOk, Select, Unowned, FinishedOk, BudgetOk, RowsOk, HandlersOk, FetchesOk;
    var b := BindingFor(c, p, v, amount);
    var (r, k) := JournalSpec.Reserve(s.journal, b, c.maxTotal, c.maxRequests, now);
    InvParts(c, Without(s, id));
    ReserveIsValid(s.journal, b, c.maxTotal, c.maxRequests, now);
    if r.Ok? && r.value.Fresh? && fault != RolledBack {
      FreshReservation(c, s, id, p, v, amount, now);
      var t := s.(journal := k);
      if fault == Clean {
        PlaceHandler(c, t, id, Executing(p, v));
        KeepsFromInv(c, s, t.(handlers := t.handlers[id := Executing(p, v)]));
      } else {
        PlainFailure(c, k, Some(p.request));
        WriteThenFinish(c, s, id, k,
                        Finished(Some(p.request), Failure("JOURNAL_FAILURE", Some(p.operationId)), false, false));
      }
    } else if r.Ok? && r.value.Replay? && fault == Clean {
      ReplayIsOfTheRoute(s.journal, b, c.maxTotal, c.maxRequests, now);
      ExistingAnswerIsStored(c, s.journal, p, r.value.row);
      FinishKeeps(c, s, id, Finished(Some(p.request), ReplayResponse(c, r.value.row, p.target), false, false));
    } else {
      var e := if fault == Clean then r.error else StorageFailure;
      RejectKeeps(c, s, id, p, ReserveErrorCode(e));
    }
  }

  // The journal with the new row, held by nobody yet.
  lemma FreshReservation(c: Config, s: System, id: nat, p: Plan, v: ParsedJson, amount: int, now: int)
    requires ValidConfig(c) && Inv(c, Without(s, id)) && PlanOk(c, p) && Select(c, p.request, v) == Ok(amount)
    requires var r := JournalSpec.Reserve(s.journal, BindingFor(c, p, v, amount), c.maxTotal, c.maxRequests, now).0;
      r.Ok? && r.value.Fresh?
    ensures var k := JournalSpec.Reserve(s.journal, BindingFor(c, p, v, amount), c.maxTotal, c.maxRequests, now).1;
      && Inv(c, Without(s.(journal := k), id)) && Unowned(Without(s.(journal := k), id), p.operationId)
      && Grown(s.journal, k) && Holds(c, k, p, v, Reserved)
  {
    hide ValidConfig, Inv, Grown, Valid, OpenTotal, OpenCount, JournalSpec.Reserve, Evolves, OnlyRow, PlanOk, Select,
         Unowned, HandlersOk, FetchesOk;
    var b := BindingFor(c, p, v, amount);
    var (r, k) := JournalSpec.Reserve(s.journal, b, c.maxTotal, c.maxRequests, now);
    InvParts(c, Without(s, id));
    ReserveIsValid(s.journal, b, c.maxTotal, c.maxRequests, now);
    SelectedIsCapped(c, p.request, v);
    SettledRowsAreUnowned(c, Without(s, id), p.operationId);
    WriteJournal(c, s, id, k, p.operationId);
  }

  lemma ReplayIsOfTheRoute(j: Journal, b: Binding, maxTotal: int, maxRequests: int, now: int)
    ensures var r := JournalSpec.Reserve(j, b, maxTotal, maxRequests, now).0;
      r.Ok? && r.value.Replay? ==>
        && ByPrincipalKey(j, b.principalId, b.idempotencyKey) == Some(r.value.row)
        && r.value.row.binding.minerId == b.minerId && r.value.row.binding.endpoint == b.endpoint
  {
    hide OpenTotal, OpenCount, ByPrincipalKey;
  }

  lemma InvParts(c: Config, s: System)
    requires Inv(c, s)
    ensures Valid(s.journal) && BudgetOk(c, s.journal) && RowsOk(c, s.journal) && HandlersOk(c, s)
    ensures FetchesOk(s.journal, s.fetches)
  {
  }

  lemma SelectedIsCapped(c: Config, r: PaidRequest, v: ParsedJson)
    ensures Select(c, r, v).Ok? ==> 0 < Select(c, r, v).value <= c.maxAmount
  {
    SelectedAmountIsInRange(v, Matcher(c, r), c.maxAmount);
  }

  // The second challenge selects the amount the first one reserved.
  lemma SameDigestSameAmount(c: Config, r: PaidRequest, v: ParsedJson, w: ParsedJson)
    requires ValidConfig(c) && ChallengeSha256(c, v) == ChallengeSha256(c, w)
    ensures Select(c, r, v) == Select(c, r, w)
  {
    ChallengeDigestBindsAmount(c.hash, v, w, Matcher(c, r), c.maxAmount);
  }

  lemma ExecuteKeeps(c: Config, s: System, id: nat, p: Plan, first: ParsedJson, reply: Reply, st: Storage)
    requires ValidConfig(c) && Inv(c, s) && id in s.handlers && s.handlers[id] == Executing(p, first)
    ensures Keeps(c, s, ExecuteStep(c, s, id, p, first, reply, st))
  {
    hide ValidConfig, Valid, BudgetOk, RowsOk, FetchesOk, PlanFor, Select, Conclude, ThrewStep, Keeps, Grown;
    assert HandlerOk(c, s.journal, s.fetches, s.handlers[id]);
    TakeTurn(c, s, id, p);
    match reply {
      case Threw => ThrewKeeps(c, s, id, p, false, st);
      case Refused(code) => ConcludeKeeps(c, s, id, p, Unpaid(code), false, st);
      case Challenge(v) =>
        match Select(c, p.request, v) {
          case Err(code) => ConcludeKeeps(c, s, id, p, Unpaid(code), false, st);
          case Ok(amount) =>
            if ChallengeSha256(c, v) != ChallengeSha256(c, first) {
              ConcludeKeeps(c, s, id, p, Unpaid("CHALLENGE_BINDING_MISMATCH"), false, st);
            } else {
              SameDigestSameAmount(c, p.request, v, first);
              GrownRefl(s.journal);
              PlaceHandler(c, s, id, Signing(p, first, amount));
              KeepsFromInv(c, s, s.(handlers := s.handlers[id := Signing(p, first, amount)]));
            }
        }
    }
  }

  lemma KeepsFromInv(c: Config, s: System, t: System)
    requires Inv(c, t) && Grown(s.journal, t.journal) && s.fetches <= t.fetches
    ensures Keeps(c, s, t)
  {
  }

  // A reserved operation has sent nothing.
  lemma ReservedIsUnfetched(j: Journal, fs: seq<Fetch>, op: string)
    requires FetchesOk(j, fs) && op in j.rows && j.rows[op].status == Reserved
    ensures !Fetched(fs, op)
  {
    assert forall i :: 0 <= i < |fs| ==> FetchOk(j, fs[i]);
  }

  lemma SubmitKeeps(c: Config, s: System, id: nat, h: Handler, fault: Fault, st: Storage)
    requires Inv(c, s) && id in s.handlers && s.handlers[id] == h && h.Signing?
    ensures Keeps(c, s, SubmitStep(c, s, id, h, fault, st))
  {
    hide Valid, BudgetOk, RowsOk, FetchesOk, PlanOk, Select, Conclude, Grown, Transition, OwnersDiffer, HandlersOk;
    var p := h.plan;
    var op := p.operationId;
    SignerHolds(c, s, id);
    TakeTurn(c, s, id, p);
    ReservedIsUnfetched(s.journal, s.fetches, op);
    OwnRowMoves(c, s, id, p, Reserved, Submitted, NoUpdate, st.now, fault);
    var (r, k) := Stored(s.journal, MarkSubmitted(s.journal, op, st.now), fault);
    var t := s.(journal := k);
    if r.Ok? {
      PlaceHandler(c, t, id, Armed(p, h.challenge, h.amount));
    } else {
      var unsent := Unsent(Env(c), h.amount, "PAID_REQUEST_OUTCOME_UNKNOWN");
      ConcludeKeeps(c, t, id, p, unsent, false, st);
      GrownTransitive(s.journal, k, Conclude(c, t, id, p, unsent, false, st).journal);
    }
  }

  lemma SignerHolds(c: Config, s: System, id: nat)
    requires Inv(c, s) && id in s.handlers
    ensures HandlerOk(c, s.journal, s.fetches, s.handlers[id])
    ensures !s.handlers[id].Finished? ==> s.up
  {
  }

  // Sending: the operation's first fetch, for the amount its row holds.
  lemma SendKeeps(c: Config, s: System, id: nat, h: Handler)
    requires Inv(c, s) && id in s.handlers && s.handlers[id] == h && h.Armed?
    ensures Keeps(c, s, SendStep(s, id, h))
  {
    hide Valid, BudgetOk, RowsOk, PlanOk, Select, BindingFor, HandlersOk, FetchesOk, Grown, Unowned;
    var op := h.plan.operationId;
    var t := SendStep(s, id, h);
    SignerHolds(c, s, id);
    DropHandler(c, s, id);
    GrownRefl(s.journal);
    FetchIsJustified(c, s, h);
    OthersIgnoreFetch(c, Without(s, id), t.fetches, op);
    UnownedIgnoresFetches(Without(s, id), t.fetches, op);
    PlaceHandler(c, s.(fetches := t.fetches), id, t.handlers[id]);
  }

  lemma UnownedIgnoresFetches(w: System, fs: seq<Fetch>, op: string)
    requires Unowned(w, op)
    ensures Unowned(w.(fetches := fs), op)
  {
  }

  lemma OthersIgnoreFetch(c: Config, w: System, fs: seq<Fetch>, op: string)
    requires HandlersOk(c, w) && Unowned(w, op) && |fs| == |w.fetches| + 1
    requires fs[..|w.fetches|] == w.fetches && fs[|w.fetches|].operationId == op
    ensures HandlersOk(c, w.(fetches := fs))
  {
    hide PlanOk, Select, BindingFor, FinishedOk;
    forall i | i in w.handlers ensures HandlerOk(c, w.journal, fs, w.handlers[i]) {
      assert HandlerOk(c, w.journal, w.fetches, w.handlers[i]);
      forall n | 0 <= n < |w.fetches| ensures fs[n] == w.fetches[n] {
        assert fs[..|w.fetches|][n] == fs[n];
      }
    }
  }

  lemma FetchIsJustified(c: Config, s: System, h: Handler)
    requires h.Armed? && HandlerOk(c, s.journal, s.fetches, h) && FetchesOk(s.journal, s.fetches) && Valid(s.journal)
    ensures FetchesOk(s.journal, s.fetches + [Fetch(h.plan.operationId, h.plan.request.principalId,
                                                    h.plan.request.idempotencyKey, h.amount, |s.journal.events|)])
  {
    hide PlanOk, Select, TableIndexed, SignaturesIndexed, EventsRise;
    SubmittedIsLogged(s.journal.events, h.plan.operationId);
  }

  lemma PaidReplyKeeps(c: Config, s: System, id: nat, p: Plan, v: ParsedJson, amount: int, outcome: PaidOutcome,
                       st: Storage)
    requires Inv(c, s) && id in s.handlers && s.handlers[id] == Paid(p, v, amount)
    ensures Keeps(c, s, Conclude(c, s, id, p, FinishPaid(Env(c), amount, outcome), true, st))
  {
    hide Inv, Keeps, Conclude, PlanOk, Select, FinishPaid, CompleteEvidence;
    SignerHolds(c, s, id);
    TakeTurn(c, s, id, p);
    SuccessIsComplete(Env(c), amount, outcome);
    ConcludeKeeps(c, s, id, p, FinishPaid(Env(c), amount, outcome), true, st);
  }

  lemma OwnerThrewKeeps(c: Config, s: System, id: nat, p: Plan, sent: bool, st: Storage)
    requires Inv(c, s) && id in s.handlers && OwnerOf(s.handlers[id]) == Some(p.operationId) && s.handlers[id].plan == p
    requires sent ==> s.handlers[id].Paid?
    ensures Keeps(c, s, ThrewStep(s, id, p, sent, st))
  {
    hide Inv, Keeps, ThrewStep, PlanOk, Select;
    SignerHolds(c, s, id);
    TakeTurn(c, s, id, p);
    ThrewKeeps(c, s, id, p, sent, st);
  }

  lemma SigningFailedKeeps(c: Config, s: System, id: nat, h: Handler, code: string, st: Storage)
    requires Inv(c, s) && id in s.handlers && s.handlers[id] == h && h.Signing?
    ensures Keeps(c, s, Conclude(c, s, id, h.plan, Unpaid(code), false, st))
  {
    hide Inv, Keeps, Conclude, PlanOk, Select;
    SignerHolds(c, s, id);
    TakeTurn(c, s, id, h.plan);
    ConcludeKeeps(c, s, id, h.plan, Unpaid(code), false, st);
  }

  // ------------------------------------------------------------------ reconciliation

  // An answer given before anything was sent needs no justification.
  lemma PlainFailure(c: Config, j: Journal, r: Option<PaidRequest>)
    ensures forall a: Answer {:trigger FinishedOk(c, j, r, a, false, false)} ::
              a.Failure? ==> FinishedOk(c, j, r, a, false, false)
  {
  }

  lemma ReconcileArrivalIsOk(c: Config, s: System, q: ReconcileRequest)
    requires Valid(s.journal)
    ensures HandlerOk(c, s.journal, s.fetches, ReconcileArrival(s.journal, q))
    ensures OwnerOf(ReconcileArrival(s.journal, q)).None?
  {
    hide Valid, FinishedOk, ByPrincipalKey, SnapshotOk;
    PlainFailure(c, s.journal, None);
    var h := ReconcileArrival(s.journal, q);
    if h.Reconciling? {
      KeyedRow(s.journal, q.principalId, q.idempotencyKey);
      SnapshotHolds(s.journal, q, h.snapshot);
    }
  }

  lemma SnapshotHolds(j: Journal, q: ReconcileRequest, row: Row)
    requires row.binding.operationId in j.rows && j.rows[row.binding.operationId] == row && row.status == Unknown
    requires row.binding.operationId == q.operationId
    requires q.bodySha256.Some? ==> row.evidence.bodySha256 == q.bodySha256
    requires row.evidence.signature.Some? ==> row.evidence.signature.value == q.signature
    ensures SnapshotOk(j, q, row)
  {
  }

  lemma RefuseKeeps(c: Config, s: System, id: nat, q: ReconcileRequest, code: string)
    requires Inv(c, Without(s, id))
    ensures Keeps(c, s, Refuse(s, id, q, code))
  {
    hide Inv, Keeps;
    FinishKeeps(c, s, id, Finished(None, Failure(code, Some(q.operationId)), false, false));
  }

  // The write goes through only if the row is still the snapshot the checks were made
  // on, whatever happened while the RPC node was asked.
  lemma ReconcileAssigns(c: Config, j: Journal, q: ReconcileRequest, row: Row, v: Verification)
    requires SnapshotOk(j, q, row) && j.rows[q.operationId].status == Unknown && FullyVerified(v)
    requires c.hash(CanonicalText(VerificationJson(v))) == q.artifactSha256
    requires RowOk(c, row)
    ensures var e := Assign(row.evidence, ReconcileWith(q.artifactSha256, q.signature,
                                                        CanonicalText(VerificationJson(v)), q.bodySha256));
      VerifiedBy(c, e, v) && WriteOnce(row.evidence, e)
  {
    hide FullyVerified, Planned, IsDigest, WellFormed, PaidResponseStored, CanonicalText, VerificationJson;
  }

  lemma ReconcileKeeps(c: Config, s: System, id: nat, q: ReconcileRequest, row: Row, reply: ChainReply, fault: Fault,
                       now: int)
    requires Inv(c, s) && id in s.handlers && s.handlers[id] == Reconciling(q, row)
    ensures Keeps(c, s, ReconcileStep(c, s, id, q, row, reply, fault, now))
  {
    hide Inv, Keeps, Grown, Valid, BudgetOk, Evolves, OnlyRow, Transition, Assign, Unowned, VerifiedBy, FullyVerified,
         StoredSuccess, WriteOnce, FetchesOk, HandlersOk, Planned, WellFormed, RowOk;
    var op := q.operationId;
    SignerHolds(c, s, id);
    DropHandler(c, s, id);
    InvParts(c, Without(s, id));
    match reply {
      case SignerMismatch => RefuseKeeps(c, s, id, q, "RECONCILIATION_SIGNER_MISMATCH");
      case LookupFailed => RefuseKeeps(c, s, id, q, "RECONCILIATION_RPC_FAILED");
      case Chain(a) =>
        var v := ChainVerification(c, q, row, a);
        var text := CanonicalText(VerificationJson(v));
        if !FullyVerified(v) { RefuseKeeps(c, s, id, q, "RECONCILIATION_VERIFICATION_FAILED"); }
        else if c.hash(text) != q.artifactSha256 { RefuseKeeps(c, s, id, q, "RECONCILIATION_ARTIFACT_MISMATCH"); }
        else {
          ReconcileWrites(c, s, id, q, row, v, fault, now);
          var (r: Result<Row, JournalError>, k) :=
            Stored(s.journal, ReconcileUnknown(s.journal, op,
                                               ReconcileWith(q.artifactSha256, q.signature, text, q.bodySha256), now),
                   fault);
          WriteThenFinish(c, s, id, k, ReconcileStep(c, s, id, q, row, reply, fault, now).handlers[id]);
        }
    }
  }

  lemma ReconcileWrites(c: Config, s: System, id: nat, q: ReconcileRequest, row: Row, v: Verification, fault: Fault,
                        now: int)
    requires Inv(c, Without(s, id)) && SnapshotOk(s.journal, q, row) && FullyVerified(v)
    requires c.hash(CanonicalText(VerificationJson(v))) == q.artifactSha256
    ensures var text := CanonicalText(VerificationJson(v));
      var (r, k) := Stored(s.journal, ReconcileUnknown(s.journal, q.operationId,
                             ReconcileWith(q.artifactSha256, q.signature, text, q.bodySha256), now), fault);
      Inv(c, Without(s.(journal := k), id)) && Grown(s.journal, k)
  {
    hide Inv, Grown, Valid, BudgetOk, Evolves, OnlyRow, Assign, Unowned, VerifiedBy, FullyVerified, WriteOnce,
         FetchesOk, HandlersOk, SignatureFree, WriteRow, Planned, IsDigest, WellFormed, PaidResponseStored;
    var op := q.operationId;
    SamePlanned(c, s.journal.rows[op]);
    var u := ReconcileWith(q.artifactSha256, q.signature, CanonicalText(VerificationJson(v)), q.bodySha256);
    InvParts(c, Without(s, id));
    if s.journal.rows[op].status == Unknown {
      ReconcileAssigns(c, s.journal, q, row, v);
      TransitionIsValidFrom(c, s.journal, op, Unknown, ReconciledVerified, u, now, fault);
      var k := Stored(s.journal, ReconcileUnknown(s.journal, op, u, now), fault).1;
      SettledRowsAreUnowned(c, Without(s, id), op);
      WriteJournal(c, s, id, k, op);
    } else {
      GrownRefl(s.journal);
    }
  }

  // -------------------------------------------------------------- crash and recovery

  lemma CrashKeeps(c: Config, s: System)
    requires Inv(c, s)
    ensures Keeps(c, s, Step(c, s, Crash))
  {
    hide Valid, BudgetOk, RowsOk, FetchesOk, HandlerOk, OwnerOf, Grown;
    GrownRefl(s.journal);
  }

  lemma RecoverOneKeeps(c: Config, s: System, op: string, now: int)
    requires Inv(c, s) && !s.up
    ensures Keeps(c, s, s.(journal := RecoverRow(s.journal, op, now)))
  {
    hide Valid, BudgetOk, RowsOk, Evolves, OnlyRow, Grown, FetchesOk, HandlersOk, OwnersDiffer, DownIsQuiet, Unowned,
         RecoverRow, WriteOnce, RowOk;
    var j, k := s.journal, RecoverRow(s.journal, op, now);
    RecoverRowIsValid(j, op, now);
    KeptBudget(c, j, k);
    NobodyOwnsWhenDown(s, op);
    RecoveredRowOk(c, j, op, now);
    WriteUnowned(c, s, k, op);
  }

  lemma KeptBudget(c: Config, j: Journal, k: Journal)
    requires BudgetOk(c, j) && Kept(j, k)
    ensures BudgetOk(c, k) && Valid(k) && Evolves(j, k)
  {
    hide Valid, Evolves;
  }

  lemma NobodyOwnsWhenDown(s: System, op: string)
    requires DownIsQuiet(s) && !s.up
    ensures Unowned(s, op)
  {
  }

  // Recovery records no evidence of a payment.
  lemma RecoveredRowOk(c: Config, j: Journal, op: string, now: int)
    requires RowsOk(c, j)
    ensures var k := RecoverRow(j, op, now);
      && (op in k.rows ==> RowOk(c, k.rows[op]))
      && (op in j.rows ==> op in k.rows && WriteOnce(j.rows[op].evidence, k.rows[op].evidence))
  {
    hide VerifiedBy, PaidResponseStored, Planned, IsDigest;
    if op in j.rows {
      assert RowOk(c, j.rows[op]);
      SamePlanned(c, j.rows[op]);
    }
  }

  lemma {:induction false} RecoverRowsKeeps(c: Config, s: System, ops: seq<string>, now: int)
    requires Inv(c, s) && !s.up
    ensures Keeps(c, s, s.(journal := RecoverRows(s.journal, ops, now)))
  {
    hide Inv, Grown, RecoverRow;
    if ops == [] {
      GrownRefl(s.journal);
    } else {
      var front, last := ops[..|ops| - 1], ops[|ops| - 1];
      RecoverRowsKeeps(c, s, front, now);
      var mid := s.(journal := RecoverRows(s.journal, front, now));
      RecoverOneKeeps(c, mid, last, now);
      GrownTransitive(s.journal, mid.journal, RecoverRow(mid.journal, last, now));
    }
  }

  lemma RestartKeeps(c: Config, s: System, now: int)
    requires Inv(c, s) && !s.up
    ensures Keeps(c, s, Step(c, s, Restart(now)))
  {
    hide Valid, BudgetOk, RowsOk, FetchesOk, HandlerOk, OwnerOf, Grown, RecoverRows;
    RecoverRowsKeeps(c, s, UnfinishedOperations(s.journal.order, s.journal.rows), now);
  }

  // ---------------------------------------------------------------------- all steps

  lemma IdleKeeps(c: Config, s: System)
    requires Inv(c, s)
    ensures Keeps(c, s, s)
  {
    hide Inv, Grown;
    GrownRefl(s.journal);
  }

  lemma HandlerStepKeeps(c: Config, s: System, id: nat, a: Action)
    requires ValidConfig(c) && Inv(c, s) && id in s.handlers
    requires !a.Arrive? && !a.ReconcileArrive? && !a.Crash? && !a.RecoverOne? && !a.Restart? && a.id == id
    ensures Keeps(c, s, HandlerStep(c, s, a, s.handlers[id]))
  {
    hide ValidConfig, Inv, Keeps, PreflightStep, ExecuteStep, Conclude, SubmitStep, SendStep, ThrewStep, ReconcileStep,
         FinishPaid;
    IdleKeeps(c, s);
    match (a, s.handlers[id]) {
      case (PreflightReply(_, reply, fault, now), Preflighting(p)) => PreflightKeeps(c, s, id, p, reply, fault, now);
      case (ExecuteReply(_, reply, st), Executing(p, v)) => ExecuteKeeps(c, s, id, p, v, reply, st);
      case (SigningFailed(_, code, st), Signing(_, _, _)) => SigningFailedKeeps(c, s, id, s.handlers[id], code, st);
      case (Submit(_, fault, st), Signing(_, _, _)) => SubmitKeeps(c, s, id, s.handlers[id], fault, st);
      case (Send(_), Armed(_, _, _)) => SendKeeps(c, s, id, s.handlers[id]);
      case (PaidReply(_, outcome, st), Paid(p, v, amount)) => PaidReplyKeeps(c, s, id, p, v, amount, outcome, st);
      case (CanaryThrew(_, st), Signing(p, _, _)) => OwnerThrewKeeps(c, s, id, p, false, st);
      case (CanaryThrew(_, st), Armed(p, _, _)) => OwnerThrewKeeps(c, s, id, p, false, st);
      case (CanaryThrew(_, st), Paid(p, _, _)) => OwnerThrewKeeps(c, s, id, p, true, st);
      case (ReconcileReply(_, chain, fault, now), Reconciling(q, row)) =>
        ReconcileKeeps(c, s, id, q, row, chain, fault, now);
      case _ =>
    }
  }

  // Every step, whatever the outside world answers, keeps the invariant; it only grows
  // the journal and the history of fetches.
  lemma StepKeeps(c: Config, s: System, a: Action)
    requires ValidConfig(c) && Inv(c, s)
    ensures Keeps(c, s, Step(c, s, a))
  {
    hide ValidConfig, Inv, Keeps, Arrival, ReconcileArrival, HandlerStep, RecoverRow, RecoverUnfinished, HandlerOk,
         Valid, BudgetOk, RowsOk, HandlersOk, FetchesOk;
    IdleKeeps(c, s);
    match a {
      case Arrive(id, r) =>
        if s.up && id !in s.handlers {
          InvParts(c, s);
          ArrivalIsOk(c, s, r);
          StartKeeps(c, s, id, Arrival(c, s.journal, r));
        }
      case ReconcileArrive(id, q) =>
        if s.up && id !in s.handlers {
          InvParts(c, s);
          ReconcileArrivalIsOk(c, s, q);
          StartKeeps(c, s, id, ReconcileArrival(s.journal, q));
        }
      case Crash => CrashKeeps(c, s);
      case RecoverOne(op, now) => if !s.up { RecoverOneKeeps(c, s, op, now); }
      case Restart(now) => if !s.up { RestartKeeps(c, s, now); }
      case _ => if a.id in s.handlers { HandlerStepKeeps(c, s, a.id, a); }
    }
  }
}
