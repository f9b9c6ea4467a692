// What the digests identify: a fingerprint its request, an operation id the request and
// its target, a policy digest the target; and what a retry of a paid request is told.
module RequestIdentity {
  import opened Prelude
  import opened CanonicalJson
  import opened CanonicalJsonLaws
  import opened JournalSpec
  import opened JournalLaws
  import opened PaymentClient
  import opened Sidecar
  import opened SidecarInvariant
  import opened SidecarSteps
  import opened SidecarSafety

  // Objects written with the same keys in the same order agree value by value.
  lemma AlignedObjects(fs: seq<Field>, gs: seq<Field>)
    requires DistinctKeys(fs) && DistinctKeys(gs) && |fs| == |gs|
    requires forall i :: 0 <= i < |fs| ==> fs[i].key == gs[i].key
    ensures SameValue(Obj(fs), Obj(gs)) <==> forall i :: 0 <= i < |fs| ==> SameValue(fs[i].value, gs[i].value)
  {
    hide Lookup;
    forall i | 0 <= i < |fs| ensures Lookup(gs, fs[i].key) == Some(gs[i].value) {
      LookupAt(gs, i);
    }
    assert forall i :: 0 <= i < |fs| ==> fs[i] in fs;
  }

  lemma DigestDecidesValue(c: Config, v: Json, w: Json)
    requires Injective(c.hash) && WellFormed(v) && WellFormed(w)
    ensures c.hash(CanonicalText(v)) == c.hash(CanonicalText(w)) <==> SameValue(v, w)
  {
    CanonicalTextDecidesValue(v, w);
  }

  lemma FingerprintKeysDiffer(r: PaidRequest)
    ensures DistinctKeys(FingerprintJson(r).fields)
  {
    var fs := FingerprintJson(r).fields;
    assert |fs[0].key| == 7 && |fs[1].key| == 12 && |fs[2].key| == 15 && |fs[3].key| == 8 && |fs[4].key| == 8
           && |fs[5].key| == 6;
    assert fs[3].key[0] == 'm' && fs[4].key[0] == 'e';
    forall i, j | 0 <= i < j < |fs| ensures fs[i].key != fs[j].key {
      assert |fs[i].key| != |fs[j].key| || fs[i].key[0] != fs[j].key[0];
    }
  }

  lemma FingerprintIsWellFormed(r: PaidRequest)
    requires WellFormed(Obj(r.params))
    ensures WellFormed(FingerprintJson(r))
  {
    hide DistinctKeys;
    FingerprintKeysDiffer(r);
    var fs := FingerprintJson(r).fields;
    assert forall f :: f in fs ==> f == fs[0] || f == fs[1] || f == fs[2] || f == fs[3] || f == fs[4] || f == fs[5];
  }

  // The members of two fingerprints agree one by one when the requests agree.
  lemma FingerprintMembers(r: PaidRequest, q: PaidRequest)
    ensures var fs, gs := FingerprintJson(r).fields, FingerprintJson(q).fields;
      && |fs| == |gs|
      && (forall i :: 0 <= i < |fs| ==> fs[i].key == gs[i].key)
      && ((forall i :: 0 <= i < |fs| ==> SameValue(fs[i].value, gs[i].value))
          <==> SameRequest(r, q))
  {
    var fs, gs := FingerprintJson(r).fields, FingerprintJson(q).fields;
    assert SameValue(fs[1].value, gs[1].value) <==> r.principalId == q.principalId;
    assert SameValue(fs[2].value, gs[2].value) <==> r.idempotencyKey == q.idempotencyKey;
    assert SameValue(fs[3].value, gs[3].value) <==> r.minerId == q.minerId;
    assert SameValue(fs[4].value, gs[4].value) <==> r.endpoint == q.endpoint;
    assert fs[5].value == Obj(r.params) && gs[5].value == Obj(q.params);
  }

  // The same request, with parameters read as a map.
  ghost predicate SameRequest(r: PaidRequest, q: PaidRequest) {
    && r.principalId == q.principalId && r.idempotencyKey == q.idempotencyKey
    && r.minerId == q.minerId && r.endpoint == q.endpoint
    && SameValue(Obj(r.params), Obj(q.params))
  }

  // Two requests have one fingerprint exactly when they are the same request.
  lemma FingerprintDecidesRequest(c: Config, r: PaidRequest, q: PaidRequest)
    requires Injective(c.hash) && WellFormed(Obj(r.params)) && WellFormed(Obj(q.params))
    ensures FingerprintOf(c, r) == FingerprintOf(c, q) <==> SameRequest(r, q)
  {
    hide CanonicalText, DistinctKeys, FingerprintJson, SameValue, WellFormed, SameRequest;
    FingerprintIsWellFormed(r);
    FingerprintIsWellFormed(q);
    FingerprintKeysDiffer(r);
    FingerprintKeysDiffer(q);
    FingerprintMembers(r, q);
    DigestDecidesValue(c, FingerprintJson(r), FingerprintJson(q));
    AlignedObjects(FingerprintJson(r).fields, FingerprintJson(q).fields);
    assert FingerprintJson(r) == Obj(FingerprintJson(r).fields) && FingerprintJson(q) == Obj(FingerprintJson(q).fields);
  }

  lemma OperationIsWellFormed(r: PaidRequest, t: string)
    ensures WellFormed(OperationJson(r, t)) && DistinctKeys(OperationJson(r, t).fields)
  {
    var fs := OperationJson(r, t).fields;
    assert |fs[0].key| == 12 && |fs[1].key| == 15 && |fs[2].key| == 19 && |fs[3].key| == 13;
    forall i, j | 0 <= i < j < |fs| ensures fs[i].key != fs[j].key {
      assert |fs[i].key| != |fs[j].key|;
    }
  }

  lemma OperationMembers(r: PaidRequest, t: string, q: PaidRequest, u: string)
    ensures var fs, gs := OperationJson(r, t).fields, OperationJson(q, u).fields;
      && |fs| == |gs|
      && (forall i :: 0 <= i < |fs| ==> fs[i].key == gs[i].key)
      && ((forall i :: 0 <= i < |fs| ==> SameValue(fs[i].value, gs[i].value))
          <==> && r.principalId == q.principalId && r.idempotencyKey == q.idempotencyKey
               && r.requestFingerprint == q.requestFingerprint && t == u)
  {
    var fs, gs := OperationJson(r, t).fields, OperationJson(q, u).fields;
    assert SameValue(fs[0].value, gs[0].value) <==> r.principalId == q.principalId;
    assert SameValue(fs[1].value, gs[1].value) <==> r.idempotencyKey == q.idempotencyKey;
    assert SameValue(fs[2].value, gs[2].value) <==> r.requestFingerprint == q.requestFingerprint;
    assert SameValue(fs[3].value, gs[3].value) <==> t == u;
  }

  lemma PrefixedDigests(a: string, b: string)
    ensures "app-" + a == "app-" + b <==> a == b
  {
    assert ("app-" + a)[4..] == a && ("app-" + b)[4..] == b;
  }

  // Two requests have one operation id exactly when they agree on the principal, the
  // key, the fingerprint and the target.
  lemma OperationIdDecides(c: Config, r: PaidRequest, t: string, q: PaidRequest, u: string)
    requires Injective(c.hash)
    ensures OperationIdFor(c, r, t) == OperationIdFor(c, q, u)
            <==> && r.principalId == q.principalId && r.idempotencyKey == q.idempotencyKey
                 && r.requestFingerprint == q.requestFingerprint && t == u
  {
    hide CanonicalText, DistinctKeys, OperationJson, SameValue, WellFormed;
    var v, w := OperationJson(r, t), OperationJson(q, u);
    OperationIsWellFormed(r, t);
    OperationIsWellFormed(q, u);
    OperationMembers(r, t, q, u);
    DigestDecidesValue(c, v, w);
    AlignedObjects(v.fields, w.fields);
    assert v == Obj(v.fields) && w == Obj(w.fields);
    PrefixedDigests(c.hash(CanonicalText(v)), c.hash(CanonicalText(w)));
  }

  // One operation id, one request as far as the journal tells them apart.
  lemma SamePlanSameBinding(c: Config, row: Row, p: Plan)
    requires Injective(c.hash) && Planned(c, row) && PlanOk(c, p) && row.binding.operationId == p.operationId
    ensures BoundTo(row, p)
  {
    hide PolicySha256, CanonicalText;
    var q: Plan :| PlanOk(c, q) && BoundTo(row, q);
    OperationIdDecides(c, q.request, q.target, p.request, p.target);
    FingerprintDecidesRequest(c, q.request, p.request);
  }

  // Once a paid fetch was sent for a key, no later request under that key gets as far
  // as its own preflight; the same request is answered with a stored success or told
  // that the outcome is unknown.
  lemma RetriesNeverPayAgain(c: Config, actions: seq<Action>, i: nat, r: PaidRequest)
    requires ValidConfig(c) && i < |Reached(c, actions).fetches| && WellFormed(Obj(r.params))
    requires var f := Reached(c, actions).fetches[i];
      r.principalId == f.principalId && r.idempotencyKey == f.idempotencyKey
    ensures var s := Reached(c, actions);
      var h := Arrival(c, s.journal, r);
      && h.Finished? && !h.sent
      && (GateCode(c, r).None?
          && OperationIdFor(c, r, c.targetOf(r.minerId, r.endpoint, r.params).value) == s.fetches[i].operationId ==>
            h.answer.Success? || ErrorForCode(h.answer.code) == PaymentError.OutcomeUnknown)
  {
    hide ValidConfig, Run, Inv, GateCode, OperationIdFor, PolicySha256, AnswerExisting, ByPrincipalKey, ErrorForCode;
    ReachedIsOk(c, actions);
    var s := Reached(c, actions);
    FetchedRow(c, s, i);
    var row := s.journal.rows[s.fetches[i].operationId];
    if GateCode(c, r).None? {
      GateGivesTarget(c, r);
      var p := PlanFor(c, r, c.targetOf(r.minerId, r.endpoint, r.params).value);
      if p.operationId == s.fetches[i].operationId {
        ConfigIsInjective(c);
        SamePlanSameBinding(c, row, p);
        RepeatedRequestAnswer(c, p, row);
      }
    }
  }

  lemma ConfigIsInjective(c: Config)
    requires ValidConfig(c)
    ensures Injective(c.hash)
  {
    hide Injective;
  }

  // The row of a fetch, found by operation and by key.
  lemma FetchedRow(c: Config, s: System, i: nat)
    requires Inv(c, s) && i < |s.fetches|
    ensures var f := s.fetches[i];
      && f.operationId in s.journal.rows
      && var row := s.journal.rows[f.operationId];
         && ByPrincipalKey(s.journal, f.principalId, f.idempotencyKey) == Some(row)
         && row.binding.operationId == f.operationId
         && row.status !in {Reserved, Aborted}
         && Planned(c, row)
  {
    hide BudgetOk, HandlersOk, OwnersDiffer, DownIsQuiet, SignaturesIndexed, EventsRise, LogMatchesTable, Planned,
         SubmittedBefore, VerifiedBy, PaidResponseStored;
    assert FetchOk(s.journal, s.fetches[i]);
    assert RowOk(c, s.journal.rows[s.fetches[i].operationId]);
  }

  lemma RepeatedRequestAnswer(c: Config, p: Plan, row: Row)
    requires BoundTo(row, p) && row.status !in {Reserved, Aborted}
    ensures var a := AnswerExisting(c, p, row);
      a.Success? || ErrorForCode(a.code) == PaymentError.OutcomeUnknown
  {
    hide StoredSuccess;
  }
}
