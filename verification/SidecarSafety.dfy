// What holds after every run of the sidecar, from an empty journal, under any
// interleaving of handlers, any answers from outside, and crashes and restarts anywhere.
module SidecarSafety {
  import opened Prelude
  import opened CanonicalJson
  import opened CanonicalJsonLaws
  import opened JournalSpec
  import opened JournalLaws
  import opened Canary
  import opened PaymentClient
  import opened Sidecar
  import opened SidecarInvariant
  import opened SidecarSteps

  lemma StartIsOk(c: Config)
    requires ValidConfig(c)
    ensures Inv(c, START)
  {
  }

  lemma {:induction false} RunKeeps(c: Config, s: System, actions: seq<Action>)
    requires ValidConfig(c) && Inv(c, s)
    ensures Keeps(c, s, Run(c, s, actions))
    decreases |actions|
  {
    hide ValidConfig, Inv, Grown, Step;
    if actions == [] {
      IdleKeeps(c, s);
    } else {
      var t := Step(c, s, actions[0]);
      StepKeeps(c, s, actions[0]);
      RunKeeps(c, t, actions[1..]);
      GrownTransitive(s.journal, t.journal, Run(c, t, actions[1..]).journal);
    }
  }

  function Reached(c: Config, actions: seq<Action>): System { Run(c, START, actions) }

  lemma ReachedIsOk(c: Config, actions: seq<Action>)
    requires ValidConfig(c)
    ensures Inv(c, Reached(c, actions))
  {
    hide ValidConfig, Inv, Grown, Run;
    StartIsOk(c);
    RunKeeps(c, START, actions);
  }

  // -------------------------------------------------------------- at most one payment

  // The submission of an operation, at a position of the log.
  ghost predicate SubmissionAt(events: seq<Event>, i: int, op: string) {
    0 <= i < |events| && events[i].operationId == op && events[i].kind == Entered(Submitted)
  }

  // The fetch comes after the one and only submission of its operation.
  ghost predicate AfterItsSubmission(j: Journal, f: Fetch) {
    exists n :: SubmissionAt(j.events, n, f.operationId) && n < f.logLength
                && forall m :: SubmissionAt(j.events, m, f.operationId) ==> m == n
  }

  // At most one paid fetch is sent per operation and per (principal, key), and it comes
  // after the operation's one and only submission event.
  lemma AtMostOnePayment(c: Config, actions: seq<Action>)
    requires ValidConfig(c)
    ensures var s := Reached(c, actions);
      && (forall i, k :: 0 <= i < k < |s.fetches| ==>
            && s.fetches[i].operationId != s.fetches[k].operationId
            && (s.fetches[i].principalId, s.fetches[i].idempotencyKey)
                 != (s.fetches[k].principalId, s.fetches[k].idempotencyKey))
      && (forall i :: 0 <= i < |s.fetches| ==> AfterItsSubmission(s.journal, s.fetches[i]))
  {
    hide ValidConfig, Run, BudgetOk, RowsOk, HandlersOk, OwnersDiffer, DownIsQuiet, TableIndexed, SignaturesIndexed,
         EventsRise, LogMatchesTable, AfterItsSubmission;
    ReachedIsOk(c, actions);
    var s := Reached(c, actions);
    KeysTellOperations(s.journal, s.fetches);
    forall i | 0 <= i < |s.fetches| ensures AfterItsSubmission(s.journal, s.fetches[i]) {
      FetchAfterSubmission(s.journal, s.fetches[i]);
    }
  }

  lemma FetchAfterSubmission(j: Journal, f: Fetch)
    requires EventsRise(j) && FetchOk(j, f)
    ensures AfterItsSubmission(j, f)
  {
    var n :| 0 <= n < f.logLength && n < |j.events| && j.events[n].operationId == f.operationId
             && j.events[n].kind == Entered(Submitted);
    assert SubmissionAt(j.events, n, f.operationId);
  }

  lemma KeysTellOperations(j: Journal, fs: seq<Fetch>)
    requires TableIndexed(j) && FetchesOk(j, fs)
    ensures forall i, k :: 0 <= i < k < |fs| ==>
              (fs[i].principalId, fs[i].idempotencyKey) != (fs[k].principalId, fs[k].idempotencyKey)
  {
    hide SubmittedBefore;
    forall i, k | 0 <= i < k < |fs|
      ensures (fs[i].principalId, fs[i].idempotencyKey) != (fs[k].principalId, fs[k].idempotencyKey)
    {
      assert FetchOk(j, fs[i]) && FetchOk(j, fs[k]);
    }
  }

  // --------------------------------------------------------------------- spend bound

  function Authorized(fs: seq<Fetch>): int {
    if fs == [] then 0 else fs[0].amount + Authorized(fs[1..])
  }

  lemma {:induction false} AuthorizedSplits(fs: seq<Fetch>, i: nat)
    requires i < |fs|
    ensures Authorized(fs) == fs[i].amount + Authorized(fs[..i] + fs[i + 1..])
  {
    if i == 0 {
      assert fs[..0] + fs[1..] == fs[1..];
    } else {
      AuthorizedSplits(fs[1..], i - 1);
      assert (fs[..i] + fs[i + 1..])[1..] == fs[1..][..i - 1] + fs[1..][i..];
    }
  }

  ghost predicate OpenFetch(rows: map<string, Row>, f: Fetch) {
    f.operationId in rows && rows[f.operationId].status != Aborted && rows[f.operationId].binding.amount == f.amount
  }

  // Fetches of different open rows authorise no more than the rows hold together.
  lemma {:induction false} AuthorizedWithin(order: seq<string>, rows: map<string, Row>, fs: seq<Fetch>)
    requires forall i :: 0 <= i < |fs| ==> fs[i].operationId in order && OpenFetch(rows, fs[i])
    requires forall i, k :: 0 <= i < k < |fs| ==> fs[i].operationId != fs[k].operationId
    requires forall op :: op in order && op in rows ==> rows[op].binding.amount >= 0
    ensures Authorized(fs) <= OpenTotal(order, rows) && |fs| <= OpenCount(order, rows)
  {
    if fs == [] {
      OpenIsNonNegative(order, rows);
    } else {
      assert fs[0].operationId in order;
      var op := order[0];
      if i :| 0 <= i < |fs| && fs[i].operationId == op {
        var rest := fs[..i] + fs[i + 1..];
        AuthorizedSplits(fs, i);
        forall n | 0 <= n < |rest| ensures rest[n].operationId in order[1..] && OpenFetch(rows, rest[n]) {
          var m := if n < i then n else n + 1;
          assert rest[n] == fs[m];
          assert fs[m].operationId != op;
        }
        AuthorizedWithin(order[1..], rows, rest);
      } else {
        forall n | 0 <= n < |fs| ensures fs[n].operationId in order[1..] {
          assert fs[n].operationId != op;
        }
        AuthorizedWithin(order[1..], rows, fs);
      }
    }
  }

  lemma {:induction false} OpenIsNonNegative(order: seq<string>, rows: map<string, Row>)
    requires forall op :: op in order && op in rows ==> rows[op].binding.amount >= 0
    ensures OpenTotal(order, rows) >= 0
  {
    if order != [] { OpenIsNonNegative(order[1..], rows); }
  }

  // All that was ever authorised stays within the rows that are not aborted, and those
  // within the caps; each fetch is for exactly its row's reserved amount, which is
  // within the cap of one request; no aborted row ever had a fetch.
  lemma SpendIsBounded(c: Config, actions: seq<Action>)
    requires ValidConfig(c)
    ensures var s := Reached(c, actions);
      && Authorized(s.fetches) <= OpenTotal(s.journal.order, s.journal.rows) <= c.maxTotal
      && |s.fetches| <= OpenCount(s.journal.order, s.journal.rows) <= c.maxRequests
      && (forall i :: 0 <= i < |s.fetches| ==>
            var f := s.fetches[i];
            && f.operationId in s.journal.rows
            && s.journal.rows[f.operationId].status != Aborted
            && 0 < f.amount == s.journal.rows[f.operationId].binding.amount <= c.maxAmount)
  {
    hide ValidConfig, Run, HandlersOk, OwnersDiffer, DownIsQuiet, SignaturesIndexed, EventsRise, LogMatchesTable,
         SubmittedBefore, OpenTotal, OpenCount, VerifiedBy, PaidResponseStored;
    ReachedIsOk(c, actions);
    var s := Reached(c, actions);
    forall i | 0 <= i < |s.fetches|
      ensures FetchOk(s.journal, s.fetches[i]) && RowOk(c, s.journal.rows[s.fetches[i].operationId])
    {
    }
    AuthorizedWithin(s.journal.order, s.journal.rows, s.fetches);
  }

  // ------------------------------------------------------------------ stored evidence

  // Between any two points of a run, evidence that was set stays what it was, and rows
  // only move up; the history of fetches only grows.
  lemma EvidenceIsWriteOnce(c: Config, before: seq<Action>, after: seq<Action>)
    requires ValidConfig(c)
    ensures var s := Reached(c, before);
      var t := Run(c, s, after);
      && Grown(s.journal, t.journal)
      && s.fetches <= t.fetches
  {
    hide ValidConfig, Inv, Grown, Run;
    ReachedIsOk(c, before);
    RunKeeps(c, Reached(c, before), after);
  }

  // Every verified row holds the digest of its stored verification, which passed every
  // check, and a signature no other row holds.
  lemma VerifiedRowsAreSound(c: Config, actions: seq<Action>, a: string, b: string)
    requires ValidConfig(c)
    requires var rows := Reached(c, actions).journal.rows;
      a in rows && b in rows && a != b && rows[a].status in {SettledVerified, ReconciledVerified}
    ensures var rows := Reached(c, actions).journal.rows;
      && (exists v :: VerifiedBy(c, rows[a].evidence, v))
      && rows[a].evidence.verificationSha256 == Some(c.hash(rows[a].evidence.verificationJson.value))
      && rows[a].evidence.signature.Some?
      && rows[a].evidence.signature != rows[b].evidence.signature
  {
    hide ValidConfig, Run, HandlersOk, OwnersDiffer, DownIsQuiet, FetchesOk, BudgetOk, TableIndexed, EventsRise,
         LogMatchesTable, FullyVerified, PaidResponseStored;
    ReachedIsOk(c, actions);
    assert RowOk(c, Reached(c, actions).journal.rows[a]);
  }

  // -------------------------------------------------------------- what handlers answer

  // A handler that sent the paid fetch and answers with an error is read as "outcome
  // unknown" exactly when the read of the journal after the run did not fail; such a
  // failure leaves through the socket's catch-all with a code the client takes for a
  // rejected preflight.
  lemma ErrorsAfterSendingAreUnknown(c: Config, actions: seq<Action>, id: nat)
    requires ValidConfig(c) && id in Reached(c, actions).handlers
    requires var h := Reached(c, actions).handlers[id]; h.Finished? && h.sent && h.answer.Failure?
    ensures var h := Reached(c, actions).handlers[id];
      ErrorForCode(h.answer.code) == PaymentError.OutcomeUnknown <==> !h.readFailed
  {
    hide ValidConfig, Inv, Run, FinishedOk, ErrorForCode;
    ReachedIsOk(c, actions);
    var s := Reached(c, actions);
    SignerHolds(c, s, id);
    var h := s.handlers[id];
    FinishedErrors(c, s.journal, h.request, h.answer, h.sent, h.readFailed);
  }

  lemma FinishedErrors(c: Config, j: Journal, r: Option<PaidRequest>, a: Answer, sent: bool, readFailed: bool)
    requires FinishedOk(c, j, r, a, sent, readFailed) && sent && a.Failure?
    ensures ErrorForCode(a.code) == PaymentError.OutcomeUnknown <==> !readFailed
  {
    hide ErrorForCode, FreshStored;
    InvalidRequestIsRejection();
  }

  lemma InvalidRequestIsRejection()
    ensures ErrorForCode("INVALID_REQUEST") == PreflightRejected
  {
  }

  // The text of a stored verification reads back as the verification, as a map.
  lemma StoredVerificationReadsBack(c: Config, v: Verification)
    requires ValidConfig(c)
    ensures var r := c.jsonParse(CanonicalText(VerificationJson(v)));
      r.Some? && SameWellFormed(VerificationJson(v), r.value)
  {
    hide VerificationJson, CanonicalText, Parse, SameValue, WellFormed;
    VerificationJsonWellFormed(v);
    CanonicalRoundTrip(VerificationJson(v));
  }

  // Two successes that a client cannot tell apart, but for the body.
  ghost predicate SameButBody(a: SidecarSuccess, b: SidecarSuccess) {
    && a.verification.Some? && b.verification.Some?
    && SameWellFormed(a.verification.value, b.verification.value)
    && a.evidence.verification == a.verification && b.evidence.verification == b.verification
    && b == a.(body := b.body, verification := b.verification,
               evidence := a.evidence.(verification := b.verification))
  }

  lemma ReplayMatchesFresh(c: Config, j: Journal, p: Plan, v: Verification, paid: SidecarSuccess)
    requires ValidConfig(c) && PlanOk(c, p) && SettledFor(c, j, p)
    requires VerifiedBy(c, j.rows[p.operationId].evidence, v)
    requires paid == StoredSuccess(c, j.rows[p.operationId], p.target, Some(VerificationJson(v)))
                       .(body := Some(FreshBody(c, j.rows[p.operationId].evidence.bodyText.value)))
    ensures var row := j.rows[p.operationId];
      var again := AnswerExisting(c, p, row);
      && again.Success? && SameButBody(paid, again.paid)
      && (again.paid.body == paid.body <==> c.jsonParse(row.evidence.bodyText.value) != Some(Null))
  {
    hide ValidConfig, PlanOk, FullyVerified, SameWellFormed;
    StoredVerificationReadsBack(c, v);
  }

  lemma SettledRowIsFound(j: Journal, p: Plan, c: Config)
    requires Valid(j) && SettledFor(c, j, p)
    ensures ByPrincipalKey(j, p.request.principalId, p.request.idempotencyKey) == Some(j.rows[p.operationId])
  {
    hide SignaturesIndexed, EventsRise, LogMatchesTable, PaidResponseStored;
  }

  // The replay of a first response, as the client sees both.
  ghost predicate Replays(c: Config, j: Journal, paid: SidecarSuccess, again: Answer) {
    && paid.operationId in j.rows
    && again.Success? && SameButBody(paid, again.paid)
    && (again.paid.body == paid.body
        <==> c.jsonParse(OrEmpty(j.rows[paid.operationId].evidence.bodyText)) != Some(Null))
  }

  lemma StoredResponseReplays(c: Config, j: Journal, r: PaidRequest, paid: SidecarSuccess)
    requires ValidConfig(c) && Valid(j) && FreshStored(c, j, r, paid)
    ensures var h := Arrival(c, j, r);
      h.Finished? && !h.sent && Replays(c, j, paid, h.answer)
  {
    hide ValidConfig, Valid, GateCode, SameButBody, VerifiedBy, AnswerExisting, FreshBody, DecodeStoredBody,
         OperationIdFor, PolicySha256, ByPrincipalKey;
    var p, v :| && PlanOk(c, p) && p.request == r && SettledFor(c, j, p)
                && VerifiedBy(c, j.rows[p.operationId].evidence, v)
                && paid == StoredSuccess(c, j.rows[p.operationId], p.target, Some(VerificationJson(v)))
                             .(body := Some(FreshBody(c, j.rows[p.operationId].evidence.bodyText.value)));
    ReplayMatchesFresh(c, j, p, v, paid);
    SettledRowIsFound(j, p, c);
  }

  // A later identical request gets the first response again: every field, with the
  // verification as a map, and the body exactly when its text is not JSON null.
  lemma ReplayIsTheFirstResponse(c: Config, actions: seq<Action>, id: nat)
    requires ValidConfig(c) && id in Reached(c, actions).handlers
    requires var h := Reached(c, actions).handlers[id]; h.Finished? && h.sent && h.answer.Success?
    ensures var s := Reached(c, actions);
      var h := s.handlers[id];
      && h.request.Some?
      && var again := Arrival(c, s.journal, h.request.value);
      && again.Finished? && !again.sent && Replays(c, s.journal, h.answer.paid, again.answer)
  {
    hide ValidConfig, Inv, Run, Valid, Replays, Arrival, FreshStored, PlanOk;
    ReachedIsOk(c, actions);
    var s := Reached(c, actions);
    var h := s.handlers[id];
    SignerHolds(c, s, id);
    InvParts(c, s);
    StoredResponseReplays(c, s.journal, h.request.value, h.answer.paid);
  }

  // -------------------------------------------------------------- the client's checks

  // Digests look like digests and operation ids like ids, as the client checks them.
  ghost predicate FormatsFit(c: Config, f: Formats) {
    && (forall t :: f.isHash(c.hash(t)))
    && (forall t :: f.isId("app-" + c.hash(t)))
    && (forall m, e, ps :: c.targetOf(m, e, ps).Some? ==> f.isHash(c.targetOf(m, e, ps).value))
    && (forall t :: c.validSignature(t) ==> f.isSignature(t))
  }

  lemma StoredSuccessPasses(c: Config, f: Formats, j: Journal, p: Plan, verification: Json, body: Json)
    requires PlanOk(c, p) && SettledFor(c, j, p) && FormatsFit(c, f) && VerificationChecked(verification)
    ensures var paid := StoredSuccess(c, j.rows[p.operationId], p.target, Some(verification)).(body := Some(body));
      ReadAnswer(f, Success(paid)) == Ok(paid)
  {
    hide GateCode, VerificationChecked, DecodeStoredBody, PolicySha256;
  }

  // Both the first response and its replay pass every check of the Python client.
  lemma ResponsesPassTheChecks(c: Config, f: Formats, j: Journal, r: PaidRequest, paid: SidecarSuccess)
    requires ValidConfig(c) && Valid(j) && FreshStored(c, j, r, paid) && FormatsFit(c, f)
    ensures ReadAnswer(f, Success(paid)) == Ok(paid)
    ensures var again := Arrival(c, j, r).answer;
      again.Success? && ReadAnswer(f, again) == Ok(again.paid)
  {
    hide ValidConfig, Valid, GateCode, VerificationChecked, FreshBody, PolicySha256, ByPrincipalKey, OperationIdFor,
         FullyVerified, SameWellFormed, FormatsFit, ReadAnswer;
    var p, v :| && PlanOk(c, p) && p.request == r && SettledFor(c, j, p)
                && VerifiedBy(c, j.rows[p.operationId].evidence, v)
                && paid == StoredSuccess(c, j.rows[p.operationId], p.target, Some(VerificationJson(v)))
                             .(body := Some(FreshBody(c, j.rows[p.operationId].evidence.bodyText.value)));
    FullyVerifiedPropsHold(v);
    StoredVerificationReadsBack(c, v);
    SettledRowIsFound(j, p, c);
    var row := j.rows[p.operationId];
    var stored := c.jsonParse(CanonicalText(VerificationJson(v))).value;
    CheckedReadsMaps(VerificationJson(v), stored);
    StoredSuccessPasses(c, f, j, p, VerificationJson(v), FreshBody(c, row.evidence.bodyText.value));
    StoredSuccessPasses(c, f, j, p, stored, DecodeStoredBody(c, row.evidence).value);
    assert Arrival(c, j, r).answer == ReplayResponse(c, row, p.target);
  }

  // A handler that sent the paid fetch leaves its client either with a response that
  // passes every check or with "outcome unknown", exactly when the read of the journal
  // after the run did not fail.
  lemma SendersAreNeverMistaken(c: Config, f: Formats, actions: seq<Action>, id: nat)
    requires ValidConfig(c) && FormatsFit(c, f) && id in Reached(c, actions).handlers
    requires var h := Reached(c, actions).handlers[id]; h.Finished? && h.sent
    ensures var h := Reached(c, actions).handlers[id];
      (ReadAnswer(f, h.answer).Ok? || ReadAnswer(f, h.answer) == Err(PaymentError.OutcomeUnknown)) <==> !h.readFailed
  {
    hide ValidConfig, FormatsFit, Inv, Run, FreshStored, ErrorForCode, EvidenceChecked, Arrival, Valid;
    ReachedIsOk(c, actions);
    var s := Reached(c, actions);
    SignerHolds(c, s, id);
    InvParts(c, s);
    var h := s.handlers[id];
    if h.answer.Success? {
      ResponsesPassTheChecks(c, f, s.journal, h.request.value, h.answer.paid);
    } else {
      ErrorsAfterSendingAreUnknown(c, actions, id);
    }
  }

  // The body that shows the exception: the text "null" comes back first as text and
  // then as JSON null.
  lemma NullBodyReplaysDifferently(c: Config, e: Evidence)
    requires ValidConfig(c) && e.bodyText == Some("null") && e.bodyIsJson == Some(c.jsonParse("null").Some?)
    ensures FreshBody(c, "null") == Str("null") && DecodeStoredBody(c, e) == Some(Null)
  {
    assert WellFormed(Null) && CanonicalText(Null) == "null";
    CanonicalTextParses(Null);
  }

  // How a handler ends: the flag it leaves is whether the journal could be read.
  ghost predicate Ends(t: System, id: nat, sent: bool, readOk: bool) {
    && id in t.handlers && t.handlers[id].Finished? && t.handlers[id].sent == sent
    && (t.handlers[id].readFailed <==> !readOk)
  }

  lemma ConcludeEnds(c: Config, s: System, id: nat, p: Plan, r: CanaryResult, sent: bool, st: Storage)
    ensures Ends(Conclude(c, s, id, p, r, sent, st), id, sent, st.readOk)
  {
    hide MarkedUnknown, MarkedAborted, Settling, Partial, FreshSuccess, Transition;
  }

  lemma ThrewEnds(s: System, id: nat, p: Plan, sent: bool, st: Storage)
    ensures Ends(ThrewStep(s, id, p, sent, st), id, sent, st.readOk)
  {
    hide MarkedUnknown, MarkedAborted;
  }

  lemma PaidHandlerEnds(c: Config, s: System, id: nat, a: Action)
    requires id in s.handlers && s.handlers[id].Paid? && (a.PaidReply? || a.CanaryThrew?) && a.id == id
    ensures Ends(Step(c, s, a), id, true, a.storage.readOk)
  {
    hide FinishPaid, Conclude, ThrewStep, Ends;
    var h := s.handlers[id];
    if a.PaidReply? {
      ConcludeEnds(c, s, id, h.plan, FinishPaid(Env(c), h.amount, a.outcome), true, a.storage);
    } else {
      ThrewEnds(s, id, h.plan, true, a.storage);
    }
  }

  // The step that shows the other: a handler that sent the payment tells its client that
  // nothing was paid exactly when it cannot read the journal after the run, whether the
  // run returned or threw.
  lemma FailedReadIsMistaken(c: Config, s: System, id: nat, a: Action)
    requires ValidConfig(c) && Inv(c, s) && id in s.handlers && s.handlers[id].Paid?
    requires (a.PaidReply? || a.CanaryThrew?) && a.id == id
    ensures var t := Step(c, s, a);
      id in t.handlers && t.handlers[id].Finished? && t.handlers[id].sent
      && var answer := t.handlers[id].answer;
         (answer.Failure? && ErrorForCode(answer.code) == PreflightRejected) <==> !a.storage.readOk
  {
    hide ValidConfig, Inv, Step, Grown, FinishedOk, ErrorForCode;
    PaidHandlerEnds(c, s, id, a);
    StepKeeps(c, s, a);
    var t := Step(c, s, a);
    SignerHolds(c, t, id);
    var h := t.handlers[id];
    FinishedOutcome(c, t.journal, h.request, h.answer, h.sent, h.readFailed);
  }

  lemma FinishedOutcome(c: Config, j: Journal, r: Option<PaidRequest>, a: Answer, sent: bool, readFailed: bool)
    requires FinishedOk(c, j, r, a, sent, readFailed) && sent
    ensures (a.Failure? && ErrorForCode(a.code) == PreflightRejected) <==> readFailed
  {
    hide ErrorForCode, FreshStored;
    InvalidRequestIsRejection();
  }
}
