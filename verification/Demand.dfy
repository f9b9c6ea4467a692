// The demand ledger: append-only events, at most one for a payment attempt.
module Demand {
  import opened Prelude

  // Everything an event states besides its id and when it was seen.
  datatype Claim = Claim(
    questionEventId: Option<string>,
    applicationRequestId: Option<string>,
    minerId: string,
    endpoint: string,
    transport: string,
    routed: bool,
    paymentMethod: string,
    paymentStatus: string,
    paymentEvidence: string,
    httpStatus: Option<int>,
    isFixture: bool,
    source: string,
    attemptId: Option<string>,
    settlementSha256: Option<string>,
    settlementVerification: string,
    receiptSha256: Option<string>)

  datatype DemandEvent = DemandEvent(demandId: string, occurredAt: int, claim: Claim, localCandidate: bool)

  predicate Blank(s: string) { forall i :: 0 <= i < |s| ==> s[i] in {' ', '\t', '\n', '\r'} }

  // `endpoint.lstrip("/")`.
  function WithoutSlashes(s: string): string { if s != "" && s[0] == '/' then WithoutSlashes(s[1..]) else s }

  predicate ClaimAllowed(c: Claim) {
    && c.transport in {"telegraph", "direct_http", "fixture"}
    && c.paymentMethod in {"x402", "other", "none", "unknown"}
    && c.paymentStatus in {"settled", "paid", "paid_unverified", "required", "unpaid", "unknown", "failed"}
    && c.paymentEvidence in {"x402_settlement", "supported_method_receipt", "challenge_only",
                             "x402_header_unverified", "none"}
    && c.settlementVerification in {"not_attempted", "unverified", "verified", "invalid", "unknown"}
    && !Blank(c.minerId) && !Blank(c.endpoint)
    && (c.httpStatus.Some? ==> 100 <= c.httpStatus.value <= 599)
    && (c.routed ==> c.transport == "telegraph")
    && (c.isFixture ==> c.source == "development-fixture")
  }

  predicate NotEmpty(s: Option<string>) { s.Some? && s.value != "" }

  predicate IsLocalCandidate(c: Claim) {
    && c.transport == "telegraph" && c.routed && c.source == "application" && !c.isFixture
    && NotEmpty(c.applicationRequestId)
    && c.paymentStatus in {"settled", "paid"}
    && c.paymentEvidence in {"x402_settlement", "supported_method_receipt"}
    && c.settlementVerification == "verified"
    && c.httpStatus.Some? && 200 <= c.httpStatus.value < 300
  }

  function DemandIdFor(hash: string -> string, attempt: string): string { "demand-" + hash(attempt) }

  // The id of an attempt's event follows from the attempt; any other gets an unused one.
  function CreateEvent(hash: string -> string, c: Claim, unused: string, now: int): Option<DemandEvent> {
    if !ClaimAllowed(c) then None
    else
      var claim := c.(endpoint := WithoutSlashes(c.endpoint));
      var id := if NotEmpty(c.attemptId) then DemandIdFor(hash, c.attemptId.value) else "demand-" + unused;
      Some(DemandEvent(id, now, claim, IsLocalCandidate(claim)))
  }

  type Ledger = map<string, DemandEvent>

  // Whether an event may stand for the one stored under its id.
  predicate Repeats(stored: DemandEvent, e: DemandEvent) {
    stored == e
    || (NotEmpty(e.claim.attemptId) && stored.claim == e.claim && stored.localCandidate == e.localCandidate)
  }

  function Appended(l: Ledger, e: DemandEvent): (bool, Ledger) {
    if e.demandId in l then (Repeats(l[e.demandId], e), l) else (true, l[e.demandId := e])
  }

  class DemandLedger {
    var events: Ledger

    constructor ()
      ensures events == map[]
    {
      events := map[];
    }

    method Append(e: DemandEvent) returns (ok: bool)
      modifies this
      ensures (ok, events) == Appended(old(events), e)
    {
      if e.demandId in events {
        var stored := events[e.demandId];
        if stored == e { return true; }
        if NotEmpty(e.claim.attemptId) && stored.claim == e.claim && stored.localCandidate == e.localCandidate {
          return true;
        }
        return false;
      }
      events := events[e.demandId := e];
      return true;
    }
  }

  // Every event of an attempt stands under the attempt's id.
  ghost predicate LedgerOk(l: Ledger, hash: string -> string) {
    forall k :: k in l ==>
      && l[k].demandId == k
      && (NotEmpty(l[k].claim.attemptId) ==> k == DemandIdFor(hash, l[k].claim.attemptId.value))
      && l[k].localCandidate == IsLocalCandidate(l[k].claim)
  }

  function AppendAll(l: Ledger, es: seq<DemandEvent>): Ledger {
    if es == [] then l else Appended(AppendAll(l, es[..|es| - 1]), es[|es| - 1]).1
  }

  lemma AppendKeeps(l: Ledger, hash: string -> string, c: Claim, unused: string, now: int)
    requires LedgerOk(l, hash) && CreateEvent(hash, c, unused, now).Some?
    ensures var (ok, m) := Appended(l, CreateEvent(hash, c, unused, now).value);
      && LedgerOk(m, hash)
      && (forall k :: k in l ==> k in m && m[k] == l[k])
      && (!ok ==> m == l)
  {
    hide ClaimAllowed, IsLocalCandidate, WithoutSlashes;
  }

  // Over every run of appends no event is lost or changed.
  lemma {:induction false} EventsAreImmutable(l: Ledger, es: seq<DemandEvent>)
    ensures forall k :: k in l ==> k in AppendAll(l, es) && AppendAll(l, es)[k] == l[k]
  {
    hide Repeats;
    if es != [] { EventsAreImmutable(l, es[..|es| - 1]); }
  }

  // Two stored events never share a payment attempt.
  lemma OneEventPerAttempt(l: Ledger, hash: string -> string, j: string, k: string)
    requires LedgerOk(l, hash) && j in l && k in l
    requires NotEmpty(l[j].claim.attemptId) && l[j].claim.attemptId == l[k].claim.attemptId
    ensures j == k
  {
  }

  // A stored event counted as a local candidate was paid, independently verified and
  // answered with success through the network.
  lemma CandidatesArePaid(l: Ledger, hash: string -> string, k: string)
    requires LedgerOk(l, hash) && k in l && l[k].localCandidate
    ensures var c := l[k].claim;
      c.transport == "telegraph" && c.settlementVerification == "verified" && c.paymentStatus in {"settled", "paid"}
      && c.httpStatus.Some? && 200 <= c.httpStatus.value < 300 && !c.isFixture
  {
  }

  // A second event of a stored attempt is accepted exactly when it claims the same, at
  // whatever time it was seen.
  lemma ReplaysAreAcceptedExactly(l: Ledger, hash: string -> string, k: string, c: Claim, unused: string, now: int)
    requires LedgerOk(l, hash) && k in l && NotEmpty(c.attemptId) && l[k].claim.attemptId == c.attemptId
    requires CreateEvent(hash, c, unused, now).Some?
    ensures var e := CreateEvent(hash, c, unused, now).value;
      && (Appended(l, e).0 <==> e.claim == l[k].claim)
      && Appended(l, e).1 == l
  {
    hide ClaimAllowed, IsLocalCandidate, WithoutSlashes;
  }
}
