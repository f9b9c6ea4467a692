// End to end: what every sequence of decide calls, crashes and restarts keeps, and when
// a payment seen again agrees with the evidence already stored for it.
module GatewayLaws {
  import opened Prelude
  import opened CanonicalJson
  import opened CanonicalJsonLaws
  import opened JournalSpec
  import opened JournalLaws
  import opened PaymentClient
  import opened Sidecar
  import opened SidecarInvariant
  import opened SidecarSteps
  import opened SidecarSafety
  import opened RequestIdentity
  import opened Demand
  import opened Gateway
  import Cases = CaseStoreSpec
  import Laws = CaseStoreLaws

  // ------------------------------------------------------------------- the invariant

  ghost predicate ValidSetup(u: Setup) {
    ValidConfig(u.config)
    && forall e :: e in u.config.allowedEndpoints ==> WithoutSlashes(e) == e
  }

  function RowReceipt(c: Config, row: Row): Receipt {
    ReceiptOf(StoredSuccess(c, row, row.binding.targetSha256, None))
  }

  // An operation settled under the payment key of one bound application request.
  ghost predicate PaidFor(u: Setup, w: World, principal: string, key: string, op: string) {
    && (principal, key) in w.store.bindings
    && op in w.side.journal.rows && op != ""
    && var row := w.side.journal.rows[op];
       && row.status == SettledVerified
       && row.binding.principalId == principal
       && row.binding.idempotencyKey == PaymentKey(u.config.hash, AppId(u.config.hash, principal, key),
                                                   row.binding.minerId, row.binding.endpoint)
       && WithoutSlashes(row.binding.endpoint) == row.binding.endpoint
       && RowReceipt(u.config, row).attemptId == op
  }

  // A claim made of one settled row, its body as some answer carried it, and a snapshot.
  ghost predicate Origin(u: Setup, w: World, c: Claim, principal: string, key: string, op: string,
                         body: Json, snapshot: Option<string>)
  {
    && PaidFor(u, w, principal, key, op)
    && var row := w.side.journal.rows[op];
       && BodyOf(u.config, row.evidence, Some(body)) && WellFormed(body)
       && c == ClaimFor(u.config.hash, EventOf(w, principal, key), AppId(u.config.hash, principal, key),
                        row.binding.minerId, row.binding.endpoint, RowReceipt(u.config, row), body, snapshot)
  }

  // `snapshots`: those any gateway was started with.
  ghost predicate HasOrigin(u: Setup, w: World, snapshots: set<Option<string>>, c: Claim) {
    exists principal, key, op, body, snapshot ::
      snapshot in snapshots && Origin(u, w, c, principal, key, op, body, snapshot)
  }

  // A reply row of an application request: the body of its payment, or none.
  predicate ReplyOf(u: Setup, w: World, r: Cases.StoredReply, principal: string, key: string) {
    && (principal, key) in w.store.bindings
    && r.eventId == EventOf(w, principal, key)
    && r.reply.requestId == Some(AppId(u.config.hash, principal, key))
  }

  // It holds the body that the demand event of its payment claims.
  ghost predicate PaymentReply(u: Setup, w: World, r: Cases.StoredReply, principal: string, key: string, op: string,
                               snapshot: Option<string>)
  {
    && ReplyOf(u, w, r, principal, key)
    && DemandIdFor(u.config.hash, op) in w.ledger
    && Origin(u, w, w.ledger[DemandIdFor(u.config.hash, op)].claim, principal, key, op, r.reply.rawResponse, snapshot)
    && w.side.journal.rows[op].binding.minerId == r.reply.minerId
  }

  predicate FailureReply(u: Setup, w: World, r: Cases.StoredReply, principal: string, key: string) {
    ReplyOf(u, w, r, principal, key) && r.reply.rawResponse == Null && r.reply.parserVersion == FAILURE_PARSER
  }

  ghost predicate Kept(u: Setup, w: World, r: Cases.StoredReply) {
    || (exists principal, key, op, snapshot :: PaymentReply(u, w, r, principal, key, op, snapshot))
    || (exists principal, key :: FailureReply(u, w, r, principal, key))
  }

  ghost predicate EventsOk(u: Setup, w: World, snapshots: set<Option<string>>) {
    forall k :: k in w.ledger ==> HasOrigin(u, w, snapshots, w.ledger[k].claim)
  }

  ghost predicate RepliesOk(u: Setup, w: World) {
    forall k :: k in w.store.replies ==> Kept(u, w, w.store.replies[k])
  }

  ghost predicate WorldOk(u: Setup, w: World, snapshots: set<Option<string>>) {
    && Inv(u.config, w.side)
    && LedgerOk(w.ledger, u.config.hash)
    && Laws.Inv(w.store, u.config.hash)
    && EventsOk(u, w, snapshots)
    && RepliesOk(u, w)
  }

  lemma InitialIsOk(u: Setup, snapshots: set<Option<string>>)
    requires ValidSetup(u)
    ensures WorldOk(u, INITIAL, snapshots)
  {
    hide ValidConfig, Inv;
    StartIsOk(u.config);
    Laws.EmptyIsOk(u.config.hash);
  }

  lemma WorldParts(u: Setup, w: World, snapshots: set<Option<string>>)
    requires WorldOk(u, w, snapshots)
    ensures Inv(u.config, w.side) && LedgerOk(w.ledger, u.config.hash) && Laws.Inv(w.store, u.config.hash)
    ensures EventsOk(u, w, snapshots) && RepliesOk(u, w)
  {
    hide Inv, LedgerOk, Laws.Inv, EventsOk, RepliesOk;
  }

  lemma SetupIsInjective(u: Setup)
    requires ValidSetup(u)
    ensures Injective(u.config.hash)
  {
    hide ValidConfig;
    ConfigIsInjective(u.config);
  }

  // What was paid and bound stays so: settled rows and bindings are written once.
  lemma PaidForStays(u: Setup, w: World, v: World, principal: string, key: string, op: string)
    requires PaidFor(u, w, principal, key, op)
    requires Evolves(w.side.journal, v.side.journal) && Laws.Extends(w.store.bindings, v.store.bindings)
    ensures PaidFor(u, v, principal, key, op) && v.side.journal.rows[op] == w.side.journal.rows[op]
    ensures EventOf(v, principal, key) == EventOf(w, principal, key)
  {
    hide AppId, PaymentKey, RowReceipt, WithoutSlashes;
  }

  lemma OriginStays(u: Setup, w: World, v: World, c: Claim, principal: string, key: string, op: string, body: Json,
                    snapshot: Option<string>)
    requires Origin(u, w, c, principal, key, op, body, snapshot)
    requires Evolves(w.side.journal, v.side.journal) && Laws.Extends(w.store.bindings, v.store.bindings)
    ensures Origin(u, v, c, principal, key, op, body, snapshot)
  {
    hide PaidFor, ClaimFor, RowReceipt, BodyOf, WellFormed, Evolves, Laws.Extends;
    PaidForStays(u, w, v, principal, key, op);
  }

  lemma HasOriginStays(u: Setup, w: World, v: World, snapshots: set<Option<string>>, c: Claim)
    requires HasOrigin(u, w, snapshots, c)
    requires Evolves(w.side.journal, v.side.journal) && Laws.Extends(w.store.bindings, v.store.bindings)
    ensures HasOrigin(u, v, snapshots, c)
  {
    hide Origin, Evolves, Laws.Extends;
    var principal, key, op, body, snapshot :|
      snapshot in snapshots && Origin(u, w, c, principal, key, op, body, snapshot);
    OriginStays(u, w, v, c, principal, key, op, body, snapshot);
  }

  lemma PaymentReplyStays(u: Setup, w: World, v: World, r: Cases.StoredReply, principal: string, key: string,
                          op: string, snapshot: Option<string>)
    requires PaymentReply(u, w, r, principal, key, op, snapshot) && Laws.Extends(w.ledger, v.ledger)
    requires Evolves(w.side.journal, v.side.journal) && Laws.Extends(w.store.bindings, v.store.bindings)
    ensures PaymentReply(u, v, r, principal, key, op, snapshot)
  {
    hide AppId, PaymentKey, RowReceipt, WithoutSlashes, ClaimFor, BodyOf, WellFormed, Evolves, DemandIdFor;
    PaidForStays(u, w, v, principal, key, op);
  }

  lemma KeptStays(u: Setup, w: World, v: World, r: Cases.StoredReply)
    requires Kept(u, w, r) && Laws.Extends(w.ledger, v.ledger)
    requires Evolves(w.side.journal, v.side.journal) && Laws.Extends(w.store.bindings, v.store.bindings)
    ensures Kept(u, v, r)
  {
    hide AppId, Origin, Evolves, DemandIdFor;
    if principal, key, op, snapshot :| PaymentReply(u, w, r, principal, key, op, snapshot) {
      PaymentReplyStays(u, w, v, r, principal, key, op, snapshot);
    } else {
      var principal, key :| FailureReply(u, w, r, principal, key);
      assert FailureReply(u, v, r, principal, key);
    }
  }

  // A move of the sidecar or of the store, which stores replies of paid calls only.
  lemma WorldStays(u: Setup, w: World, v: World, snapshots: set<Option<string>>)
    requires WorldOk(u, w, snapshots) && v.ledger == w.ledger
    requires Inv(u.config, v.side) && Evolves(w.side.journal, v.side.journal)
    requires Laws.Inv(v.store, u.config.hash) && Laws.Extends(w.store.bindings, v.store.bindings)
    requires forall k :: k in v.store.replies ==>
               (k in w.store.replies && w.store.replies[k] == v.store.replies[k]) || Kept(u, v, v.store.replies[k])
    ensures WorldOk(u, v, snapshots)
  {
    hide Inv, LedgerOk, Laws.Inv, HasOrigin, Kept, Evolves;
    forall k | k in v.ledger ensures HasOrigin(u, v, snapshots, v.ledger[k].claim) {
      HasOriginStays(u, w, v, snapshots, w.ledger[k].claim);
    }
    forall k | k in v.store.replies ensures Kept(u, v, v.store.replies[k]) {
      if k in w.store.replies && w.store.replies[k] == v.store.replies[k] { KeptStays(u, w, v, v.store.replies[k]); }
    }
  }

  // ---------------------------------------------------------------- accepted answers

  lemma PlannedRow(c: Config, row: Row)
    requires RowOk(c, row)
    ensures row.binding.operationId != "" && row.binding.endpoint in c.allowedEndpoints
  {
    hide CanonicalText, OperationJson, FingerprintOf, PolicySha256, VerifiedBy, PaidResponseStored, WellFormed;
    var p: Plan :| PlanOk(c, p) && BoundTo(row, p);
  }

  lemma BodiesAreWellFormed(c: Config, e: Evidence, body: Json)
    requires ValidConfig(c) && BodyOf(c, e, Some(body))
    ensures WellFormed(body)
  {
    hide Injective, CanonicalText, Parse;
  }

  // An accepted success is read off the one settled row of its payment key.
  lemma AcceptedRow(u: Setup, w: World, id: nat, principal: string, key: string)
    requires ValidSetup(u) && Inv(u.config, w.side) && Accepted(u, w, id, principal, key)
    ensures var h := w.side.handlers[id];
      var op := h.answer.paid.operationId;
      && PaidFor(u, w, principal, key, op)
      && var row := w.side.journal.rows[op];
         && row.binding.minerId == h.request.value.minerId && row.binding.endpoint == h.request.value.endpoint
         && ReceiptOf(h.answer.paid) == RowReceipt(u.config, row)
         && BodyOf(u.config, row.evidence, Some(BodyAt(u, w, id, principal, key)))
  {
    hide ValidConfig, Inv, PaymentKey, AppId, WithoutSlashes, FreshStored, ErrorForCode, Valid, BudgetOk, RowOk,
         FetchesOk, HandlersOk, EvidenceChecked, FreshBody, DecodeStoredBody;
    var h := w.side.handlers[id];
    SignerHolds(u.config, w.side, id);
    InvParts(u.config, w.side);
    PlannedRow(u.config, w.side.journal.rows[h.answer.paid.operationId]);
  }

  lemma AcceptedBody(u: Setup, w: World, id: nat, principal: string, key: string)
    requires ValidSetup(u) && Inv(u.config, w.side) && Accepted(u, w, id, principal, key)
    ensures WellFormed(BodyAt(u, w, id, principal, key))
  {
    hide ValidConfig, Inv, ReadAnswer, PaymentKey, AppId, RowReceipt, BodyOf, WellFormed, WithoutSlashes;
    AcceptedRow(u, w, id, principal, key);
    var row := w.side.journal.rows[OperationAt(u, w, id, principal, key)];
    BodiesAreWellFormed(u.config, row.evidence, BodyAt(u, w, id, principal, key));
  }

  lemma ProjectedClaim(u: Setup, w: World, id: nat, principal: string, key: string, snapshot: Option<string>, now: int)
    requires ValidSetup(u) && Inv(u.config, w.side) && Accepted(u, w, id, principal, key)
    requires ProjectedEvent(u, w, id, principal, key, snapshot, now).Some?
    ensures var e := ProjectedEvent(u, w, id, principal, key, snapshot, now).value;
      var op := OperationAt(u, w, id, principal, key);
      && e.claim == ClaimAt(u, w, id, principal, key, snapshot)
      && Origin(u, w, e.claim, principal, key, op, BodyAt(u, w, id, principal, key), snapshot)
      && e.claim.attemptId == Some(op) && op != ""
      && e.demandId == DemandIdFor(u.config.hash, op)
  {
    hide ValidSetup, Inv, ReadAnswer, PaymentKey, AppId, WithoutSlashes, ClaimAllowed, IsLocalCandidate, DemandIdFor,
         WellFormed, RowReceipt, BodyOf, ReceiptSha256;
    AcceptedRow(u, w, id, principal, key);
    AcceptedBody(u, w, id, principal, key);
    assert PaidFor(u, w, principal, key, OperationAt(u, w, id, principal, key));
  }

  // ------------------------------------------------------------------------ the moves

  lemma ProjectKeeps(u: Setup, w: World, snapshots: set<Option<string>>, id: nat, principal: string, key: string,
                     snapshot: Option<string>, now: int)
    requires ValidSetup(u) && WorldOk(u, w, snapshots) && snapshot in snapshots
    requires Accepted(u, w, id, principal, key) && ProjectedEvent(u, w, id, principal, key, snapshot, now).Some?
    ensures var e := ProjectedEvent(u, w, id, principal, key, snapshot, now).value;
      WorldOk(u, w.(ledger := Appended(w.ledger, e).1), snapshots)
  {
    hide ValidSetup, Inv, Laws.Inv, ReadAnswer, ClaimAt, Origin, IsLocalCandidate, DemandIdFor, Repeats, Kept,
         ClaimAllowed, WithoutSlashes;
    var e := ProjectedEvent(u, w, id, principal, key, snapshot, now).value;
    var v := w.(ledger := Appended(w.ledger, e).1);
    ProjectedClaim(u, w, id, principal, key, snapshot, now);
    AppendKeeps(w.ledger, u.config.hash, ClaimAt(u, w, id, principal, key, snapshot), "", now);
    assert HasOrigin(u, w, snapshots, e.claim);
    forall k | k in v.ledger ensures HasOrigin(u, v, snapshots, v.ledger[k].claim) {
      assert HasOrigin(u, w, snapshots, v.ledger[k].claim);
      LedgerPlaysNoPart(u, w, v, snapshots, v.ledger[k].claim);
    }
    forall k | k in v.store.replies ensures Kept(u, v, v.store.replies[k]) {
      assert Kept(u, w, w.store.replies[k]);
      LedgerGrowsForReplies(u, w, v, v.store.replies[k]);
    }
  }

  lemma LedgerPlaysNoPart(u: Setup, w: World, v: World, snapshots: set<Option<string>>, c: Claim)
    requires HasOrigin(u, w, snapshots, c) && v.side == w.side && v.store == w.store
    ensures HasOrigin(u, v, snapshots, c)
  {
    GrownRefl(w.side.journal);
    HasOriginStays(u, w, v, snapshots, c);
  }

  lemma LedgerGrowsForReplies(u: Setup, w: World, v: World, r: Cases.StoredReply)
    requires Kept(u, w, r) && v.side == w.side && v.store == w.store && Laws.Extends(w.ledger, v.ledger)
    ensures Kept(u, v, r)
  {
    GrownRefl(w.side.journal);
    KeptStays(u, w, v, r);
  }

  // A reply of a paid or failed call is stored under its id, or was there already.
  lemma RecordKeeps(u: Setup, w: World, snapshots: set<Option<string>>, eventId: string, r: Cases.Reply)
    requires ValidSetup(u) && WorldOk(u, w, snapshots) && WellFormed(r.rawResponse)
    requires Kept(u, w, Cases.StoredReply(eventId, r))
    ensures WorldOk(u, w.(store := Cases.RecordReply(w.store, u.config.hash, eventId, r).1), snapshots)
  {
    hide ValidSetup, Inv, LedgerOk, EventsOk, Kept, Laws.Inv, Cases.ReplyId, WellFormed, Evolves, Laws.RegisterOf;
    var v := w.(store := Cases.RecordReply(w.store, u.config.hash, eventId, r).1);
    Laws.RecordReplyKeeps(w.store, u.config.hash, eventId, r);
    GrownRefl(w.side.journal);
    GrownEvolves(w.side.journal, w.side.journal);
    KeptStays(u, w, v, Cases.StoredReply(eventId, r));
    WorldStays(u, w, v, snapshots);
  }

  lemma KeepKeeps(u: Setup, w: World, snapshots: set<Option<string>>, id: nat, principal: string, key: string,
                  snapshot: Option<string>, parser: string, details: string)
    requires ValidSetup(u) && WorldOk(u, w, snapshots)
    requires Accepted(u, w, id, principal, key) && Stands(u, w, id, principal, key, snapshot)
    ensures WorldOk(u, Next(u, w, Keep(id, principal, key, snapshot, parser, details)), snapshots)
  {
    hide ValidSetup, WorldOk, Inv, LedgerOk, EventsOk, RepliesOk, Laws.Inv, ReadAnswer, Cases.RecordReply, AppId,
         PaymentKey, WellFormed, ClaimAt, Origin, CreateEvent, DemandIdFor;
    WorldParts(u, w, snapshots);
    ProjectedClaim(u, w, id, principal, key, snapshot, 0);
    AcceptedBody(u, w, id, principal, key);
    AcceptedMiner(u, w, id, principal, key);
    var r := KeptReply(u, w, id, principal, key, parser, details);
    var stored := Cases.StoredReply(EventOf(w, principal, key), r);
    assert PaymentReply(u, w, stored, principal, key, OperationAt(u, w, id, principal, key), snapshot);
    RecordKeeps(u, w, snapshots, EventOf(w, principal, key), r);
  }

  lemma AcceptedMiner(u: Setup, w: World, id: nat, principal: string, key: string)
    requires ValidSetup(u) && Inv(u.config, w.side) && Accepted(u, w, id, principal, key)
    ensures var op := OperationAt(u, w, id, principal, key);
      && op in w.side.journal.rows
      && w.side.journal.rows[op].binding.minerId == w.side.handlers[id].request.value.minerId
  {
    hide ValidSetup, Inv, ReadAnswer, AppId, PaymentKey, RowReceipt, WithoutSlashes, BodyOf;
    AcceptedRow(u, w, id, principal, key);
  }

  lemma KeepFailureKeeps(u: Setup, w: World, snapshots: set<Option<string>>, principal: string, key: string,
                         minerId: string, details: string)
    requires ValidSetup(u) && WorldOk(u, w, snapshots) && (principal, key) in w.store.bindings
    ensures WorldOk(u, Next(u, w, KeepFailure(principal, key, minerId, details)), snapshots)
  {
    hide ValidSetup, WorldOk, Cases.RecordReply, AppId, Accepted, ProjectedEvent, MaySeal, Step, PaymentReply;
    var r := FailedReply(u, principal, key, minerId, details);
    assert FailureReply(u, w, Cases.StoredReply(EventOf(w, principal, key), r), principal, key);
    RecordKeeps(u, w, snapshots, EventOf(w, principal, key), r);
  }

  // The replies of a decision are in the table already, under their own ids.
  lemma {:induction false} StoredRepliesStay(store: Cases.Store, hash: string -> string, eventId: string,
                                             ids: seq<string>)
    requires Laws.RepliesKeyed(store, hash)
    requires forall id :: id in ids ==> id in store.replies && store.replies[id].eventId == eventId
    ensures Cases.InsertReplies(store.replies, hash, eventId, RepliesAt(store, ids)) == Some((store.replies, ids))
  {
    hide Cases.ReplyId, WellFormed;
    if ids != [] {
      var n := |ids| - 1;
      StoredRepliesStay(store, hash, eventId, ids[..n]);
      assert RepliesAt(store, ids)[..n] == RepliesAt(store, ids[..n]);
      assert ids[n] in ids && ids == ids[..n] + [ids[n]];
    } else {
      assert RepliesAt(store, ids) == [];
    }
  }

  lemma GrownEvolves(j: Journal, k: Journal)
    requires Grown(j, k)
    ensures Evolves(j, k)
  {
  }

  // A move of the store that stores no reply.
  lemma StoreKeeps(u: Setup, w: World, v: World, snapshots: set<Option<string>>)
    requires WorldOk(u, w, snapshots) && v == w.(store := v.store) && v.store.replies == w.store.replies
    requires Laws.Inv(v.store, u.config.hash) && Laws.Extends(w.store.bindings, v.store.bindings)
    ensures WorldOk(u, v, snapshots)
  {
    hide Inv, LedgerOk, EventsOk, RepliesOk, Kept, Laws.Inv, Evolves;
    GrownRefl(w.side.journal);
    GrownEvolves(w.side.journal, w.side.journal);
    WorldStays(u, w, v, snapshots);
  }

  lemma StoredRepliesAreParsed(store: Cases.Store, hash: string -> string, ids: seq<string>)
    requires Laws.Inv(store, hash) && forall id :: id in ids ==> id in store.replies
    ensures Laws.ParsedReplies(RepliesAt(store, ids))
  {
    hide WellFormed, Cases.ReplyId, Laws.CaseOk;
    forall i | 0 <= i < |ids| ensures WellFormed(store.replies[ids[i]].reply.rawResponse) {
      assert ids[i] in ids;
    }
  }

  lemma SealedStore(store: Cases.Store, hash: string -> string, eventId: string, d: Cases.Decision, ids: seq<string>,
                    now: int)
    requires Laws.Inv(store, hash) && Injective(hash) && d.replies.Some? && Laws.ParsedReplies(d.replies.value)
    requires Cases.InsertReplies(store.replies, hash, eventId, d.replies.value) == Some((store.replies, ids))
    ensures var t := Cases.SealDecision(store, hash, eventId, d, now).1;
      Laws.Inv(t, hash) && t.replies == store.replies && t.bindings == store.bindings
  {
    hide Laws.Inv, Cases.InsertReplies, Laws.ParsedReplies, Laws.Commits, Laws.DecisionStored;
    Laws.SealKeeps(store, hash, eventId, d, now);
  }

  lemma SealKeeps(u: Setup, w: World, snapshots: set<Option<string>>, principal: string, key: string, json: string,
                  ids: seq<string>, decidedAt: string, now: int)
    requires ValidSetup(u) && WorldOk(u, w, snapshots) && MaySeal(w, principal, key, ids)
    ensures WorldOk(u, Next(u, w, Seal(principal, key, json, ids, decidedAt, now)), snapshots)
  {
    hide ValidSetup, WorldOk, Laws.Inv, Cases.InsertReplies, Cases.SealDecision, Laws.ParsedReplies, Accepted,
         ProjectedEvent, Step;
    var eventId, d := EventOf(w, principal, key), DecisionFrom(w, principal, key, json, ids, decidedAt);
    SetupIsInjective(u);
    WorldParts(u, w, snapshots);
    StoreParts(w.store, u.config.hash);
    StoredRepliesStay(w.store, u.config.hash, eventId, ids);
    StoredRepliesAreParsed(w.store, u.config.hash, ids);
    SealedStore(w.store, u.config.hash, eventId, d, ids, now);
    StoreKeeps(u, w, w.(store := Cases.SealDecision(w.store, u.config.hash, eventId, d, now).1), snapshots);
  }

  lemma StoreParts(store: Cases.Store, hash: string -> string)
    requires Laws.Inv(store, hash)
    ensures Laws.RepliesKeyed(store, hash)
  {
    hide Laws.RepliesKeyed, Laws.CaseOk;
  }

  lemma SideKeeps(u: Setup, w: World, snapshots: set<Option<string>>, a: Action)
    requires ValidSetup(u) && WorldOk(u, w, snapshots)
    ensures WorldOk(u, Next(u, w, Side(a)), snapshots)
  {
    hide ValidConfig, Inv, LedgerOk, EventsOk, RepliesOk, Laws.Inv, Kept, Step, Evolves, Grown;
    StepKeeps(u.config, w.side, a);
    GrownEvolves(w.side.journal, Step(u.config, w.side, a).journal);
    WorldStays(u, w, Next(u, w, Side(a)), snapshots);
  }

  // Every move, whatever its parts answer, keeps the invariant of the whole system.
  lemma NextKeeps(u: Setup, w: World, snapshots: set<Option<string>>, m: Move)
    requires ValidSetup(u) && WorldOk(u, w, snapshots) && (m.Project? ==> m.snapshot in snapshots)
    ensures WorldOk(u, Next(u, w, m), snapshots)
  {
    hide ValidSetup, Inv, LedgerOk, EventsOk, RepliesOk, Laws.Inv, Accepted, ProjectedEvent, Step, MaySeal,
         Laws.RegisterOf, Cases.SealDecision, Cases.RecordReply;
    match m {
      case Side(a) => SideKeeps(u, w, snapshots, a);
      case Bind(principal, key, sha, eventId) =>
        Laws.BindKeeps(w.store, u.config.hash, principal, key, sha, eventId);
        StoreKeeps(u, w, Next(u, w, m), snapshots);
      case Open(q) =>
        Laws.CreateKeeps(w.store, u.config.hash, q);
        StoreKeeps(u, w, Next(u, w, m), snapshots);
      case Project(id, principal, key, snapshot, now) =>
        if Accepted(u, w, id, principal, key) && ProjectedEvent(u, w, id, principal, key, snapshot, now).Some? {
          ProjectKeeps(u, w, snapshots, id, principal, key, snapshot, now);
        }
      case Keep(id, principal, key, snapshot, parser, details) =>
        if Accepted(u, w, id, principal, key) && Stands(u, w, id, principal, key, snapshot) {
          KeepKeeps(u, w, snapshots, id, principal, key, snapshot, parser, details);
        }
      case KeepFailure(principal, key, minerId, details) =>
        if (principal, key) in w.store.bindings { KeepFailureKeeps(u, w, snapshots, principal, key, minerId, details); }
      case Seal(principal, key, json, ids, decidedAt, now) =>
        if MaySeal(w, principal, key, ids) { SealKeeps(u, w, snapshots, principal, key, json, ids, decidedAt, now); }
    }
  }

  ghost predicate SnapshotsIn(moves: seq<Move>, snapshots: set<Option<string>>) {
    forall m :: m in moves && m.Project? ==> m.snapshot in snapshots
  }

  lemma {:induction false} AfterKeeps(u: Setup, w: World, snapshots: set<Option<string>>, moves: seq<Move>)
    requires ValidSetup(u) && WorldOk(u, w, snapshots) && SnapshotsIn(moves, snapshots)
    ensures WorldOk(u, After(u, w, moves), snapshots)
    decreases |moves|
  {
    hide ValidSetup, WorldOk, Next;
    if moves != [] {
      NextKeeps(u, w, snapshots, moves[0]);
      AfterKeeps(u, Next(u, w, moves[0]), snapshots, moves[1..]);
    }
  }

  // ------------------------------------------------------------------- whole runs grow

  // What later states keep: settled rows, stored events, bindings, replies and registers.
  ghost predicate Grows(w: World, v: World) {
    && Evolves(w.side.journal, v.side.journal)
    && Laws.Extends(w.ledger, v.ledger)
    && Laws.AllReach(w.store, v.store)
  }

  lemma StaysGrown(w: World, v: World)
    requires v == w
    ensures Grows(w, v)
  {
    hide Laws.RegisterOf, Evolves;
    GrownRefl(w.side.journal);
    GrownEvolves(w.side.journal, w.side.journal);
    Laws.NothingCommitted(w.store, "");
    Laws.CommitReaches(w.store, w.store, "");
  }

  lemma StoreGrows(u: Setup, w: World, c: Laws.Call)
    requires ValidSetup(u) && Laws.Inv(w.store, u.config.hash) && Laws.ParsedCall(c)
    ensures Laws.AllReach(w.store, Laws.Apply(w.store, u.config.hash, c).1)
  {
    hide ValidSetup, Laws.Inv, Laws.ParsedCall, Laws.Apply, Laws.Commits, Laws.AllReach;
    SetupIsInjective(u);
    Laws.CallKeeps(w.store, u.config.hash, c);
    Laws.CommitReaches(w.store, Laws.Apply(w.store, u.config.hash, c).1, Laws.EventOf(c));
  }

  // A move of the store is one of its calls, or none.
  lemma StoreMoveGrows(u: Setup, w: World, snapshots: set<Option<string>>, m: Move)
    requires ValidSetup(u) && WorldOk(u, w, snapshots) && !m.Side? && !m.Project?
    ensures Laws.AllReach(w.store, Next(u, w, m).store)
  {
    hide ValidSetup, Inv, LedgerOk, EventsOk, RepliesOk, Laws.Inv, Laws.AllReach, ReadAnswer, AppId, PaymentKey,
         WellFormed, Stands, Step, ProjectedEvent, BodyAt, Laws.ParsedReply, Laws.ParsedReplies, Cases.RecordReply,
         Cases.SealDecision, Cases.Bind, Cases.Create, Laws.RegisterOf;
    StaysGrown(w, w);
    match m {
      case Bind(principal, key, sha, eventId) => StoreGrows(u, w, Laws.DoBind(principal, key, sha, eventId));
      case Open(q) => StoreGrows(u, w, Laws.DoCreate(q));
      case Keep(id, principal, key, snapshot, parser, details) =>
        if Accepted(u, w, id, principal, key) {
          AcceptedReplyIsParsed(u, w, id, principal, key, parser, details);
          StoreGrows(u, w, Laws.DoRecordReply(EventOf(w, principal, key),
                                              KeptReply(u, w, id, principal, key, parser, details)));
        }
      case KeepFailure(principal, key, minerId, details) =>
        if (principal, key) in w.store.bindings {
          FailedReplyIsParsed(u, principal, key, minerId, details);
          StoreGrows(u, w, Laws.DoRecordReply(EventOf(w, principal, key),
                                              FailedReply(u, principal, key, minerId, details)));
        }
      case Seal(principal, key, json, ids, decidedAt, now) =>
        if MaySeal(w, principal, key, ids) {
          StoredRepliesAreParsed(w.store, u.config.hash, ids);
          StoreGrows(u, w, Laws.DoSeal(EventOf(w, principal, key),
                                       DecisionFrom(w, principal, key, json, ids, decidedAt), now));
        }
    }
  }

  lemma AcceptedReplyIsParsed(u: Setup, w: World, id: nat, principal: string, key: string, parser: string,
                              details: string)
    requires ValidSetup(u) && Inv(u.config, w.side) && Accepted(u, w, id, principal, key)
    ensures Laws.ParsedReply(KeptReply(u, w, id, principal, key, parser, details))
  {
    hide ValidSetup, Inv, ReadAnswer, WellFormed;
    AcceptedBody(u, w, id, principal, key);
  }

  lemma FailedReplyIsParsed(u: Setup, principal: string, key: string, minerId: string, details: string)
    ensures Laws.ParsedReply(FailedReply(u, principal, key, minerId, details))
  {
  }

  lemma NextGrows(u: Setup, w: World, snapshots: set<Option<string>>, m: Move)
    requires ValidSetup(u) && WorldOk(u, w, snapshots)
    ensures Grows(w, Next(u, w, m))
  {
    hide ValidConfig, Inv, LedgerOk, EventsOk, RepliesOk, Laws.Inv, Laws.AllReach, Step, Evolves, Grown, Accepted,
         Repeats, ProjectedEvent, MaySeal, Cases.SealDecision, Cases.RecordReply, Cases.Create, Cases.Bind;
    StaysGrown(w, w);
    match m {
      case Side(a) =>
        StepKeeps(u.config, w.side, a);
        GrownEvolves(w.side.journal, Step(u.config, w.side, a).journal);
      case Project(id, principal, key, snapshot, now) =>
      case _ => StoreMoveGrows(u, w, snapshots, m);
    }
  }

  lemma GrowsTransitive(a: World, b: World, c: World)
    requires Grows(a, b) && Grows(b, c)
    ensures Grows(a, c)
  {
    hide Evolves, Laws.AllReach;
    EvolvesTransitive(a.side.journal, b.side.journal, c.side.journal);
    Laws.AllReachTransitive(a.store, b.store, c.store);
  }

  lemma {:induction false} AfterGrows(u: Setup, w: World, snapshots: set<Option<string>>, moves: seq<Move>)
    requires ValidSetup(u) && WorldOk(u, w, snapshots) && SnapshotsIn(moves, snapshots)
    ensures Grows(w, After(u, w, moves))
    decreases |moves|
  {
    hide ValidSetup, WorldOk, Next, Grows;
    if moves == [] {
      StaysGrown(w, w);
    } else {
      var v := Next(u, w, moves[0]);
      NextKeeps(u, w, snapshots, moves[0]);
      NextGrows(u, w, snapshots, moves[0]);
      AfterGrows(u, v, snapshots, moves[1..]);
      GrowsTransitive(w, v, After(u, v, moves[1..]));
    }
  }

  // ------------------------------------------------------------- payments seen again

  // The paid text parses to JSON null.
  predicate AnsweredNull(c: Config, row: Row) { c.jsonParse(OrEmpty(row.evidence.bodyText)) == Some(Null) }

  // A settled row's body, as any answer carried it.
  lemma BodiesOfRow(c: Config, row: Row, body: Json)
    requires RowOk(c, row) && row.status == SettledVerified && BodyOf(c, row.evidence, Some(body))
    ensures body == FreshBody(c, OrEmpty(row.evidence.bodyText)) || (AnsweredNull(c, row) && body == Null)
    ensures AnsweredNull(c, row) ==> FreshBody(c, OrEmpty(row.evidence.bodyText)) == Str(OrEmpty(row.evidence.bodyText))
  {
    hide Planned, VerifiedBy;
  }

  lemma SettledRowOk(u: Setup, w: World, principal: string, key: string, op: string)
    requires Inv(u.config, w.side) && PaidFor(u, w, principal, key, op)
    ensures RowOk(u.config, w.side.journal.rows[op])
  {
    hide Valid, BudgetOk, RowOk, FetchesOk, HandlersOk, AppId, PaymentKey, RowReceipt, WithoutSlashes;
  }

  // Two claims of one operation are equal exactly when they carry the same body, as a
  // value, and the same snapshot.
  lemma ClaimsAgreeExactly(u: Setup, w: World, op: string, c: Claim, p: string, k: string, v: Json, s: Option<string>,
                           d: Claim, q: string, l: string, b: Json, t: Option<string>)
    requires ValidSetup(u) && Origin(u, w, c, p, k, op, v, s) && Origin(u, w, d, q, l, op, b, t)
    ensures c == d <==> SameValue(v, b) && s == t
  {
    hide ValidSetup, PaymentKey, AppId, WithoutSlashes, RowReceipt, ReceiptSha256, SameValue, WellFormed, BodyOf;
    var row := w.side.journal.rows[op];
    SetupIsInjective(u);
    SameCapabilitySameRequest(u.config.hash, AppId(u.config.hash, p, k), AppId(u.config.hash, q, l),
                              row.binding.minerId, row.binding.endpoint);
    AppIdDecides(u.config.hash, p, k, q, l);
    ReceiptDecides(u.config.hash, RowReceipt(u.config, row), v, s, RowReceipt(u.config, row), b, t);
  }

  lemma AttemptOfId(u: Setup, op: string, op2: string)
    requires ValidSetup(u)
    ensures DemandIdFor(u.config.hash, op) == DemandIdFor(u.config.hash, op2) ==> op == op2
  {
    hide ValidSetup;
    SetupIsInjective(u);
    var x, y := u.config.hash(op), u.config.hash(op2);
    assert ("demand-" + x)[7..] == x && ("demand-" + y)[7..] == y;
  }

  lemma OriginAttempt(u: Setup, w: World, c: Claim, p: string, k: string, op: string, body: Json, s: Option<string>)
    requires Origin(u, w, c, p, k, op, body, s)
    ensures c.attemptId == Some(op) && op != ""
  {
    hide PaymentKey, AppId, WithoutSlashes, RowReceipt, BodyOf, WellFormed, ReceiptSha256;
  }

  // A projection against what is stored for its payment.
  lemma AgainstStored(u: Setup, w: World, snapshots: set<Option<string>>, id: nat, principal: string, key: string,
                      snapshot: Option<string>, now: int, p: string, k: string, body: Json, s: Option<string>)
    requires ValidSetup(u) && WorldOk(u, w, snapshots) && Accepted(u, w, id, principal, key)
    requires ProjectedEvent(u, w, id, principal, key, snapshot, now).Some?
    requires var e := ProjectedEvent(u, w, id, principal, key, snapshot, now).value;
      e.demandId in w.ledger
      && Origin(u, w, w.ledger[e.demandId].claim, p, k, OperationAt(u, w, id, principal, key), body, s)
    ensures Appended(w.ledger, ProjectedEvent(u, w, id, principal, key, snapshot, now).value).0
            <==> SameValue(body, BodyAt(u, w, id, principal, key)) && s == snapshot
  {
    hide ValidSetup, Inv, Laws.Inv, LedgerOk, EventsOk, RepliesOk, ReadAnswer, PaymentKey, AppId, Origin, ClaimAt,
         SameValue, IsLocalCandidate, DemandIdFor, ClaimAllowed, Repeats, WithoutSlashes;
    var e := ProjectedEvent(u, w, id, principal, key, snapshot, now).value;
    var op := OperationAt(u, w, id, principal, key);
    var stored := w.ledger[e.demandId].claim;
    ProjectedClaim(u, w, id, principal, key, snapshot, now);
    OriginAttempt(u, w, stored, p, k, op, body, s);
    ClaimsAgreeExactly(u, w, op, stored, p, k, body, s, e.claim, principal, key, BodyAt(u, w, id, principal, key),
                       snapshot);
    ReplaysAreAcceptedExactly(w.ledger, u.config.hash, e.demandId, ClaimAt(u, w, id, principal, key, snapshot), "",
                              now);
  }

  // What an accepted projection leaves under its id.
  lemma ProjectedStands(l: Ledger, e: DemandEvent)
    requires Appended(l, e).0
    ensures e.demandId in Appended(l, e).1 && Appended(l, e).1[e.demandId].claim == e.claim
  {
  }

  lemma ProjectStep(u: Setup, w: World, id: nat, principal: string, key: string, snapshot: Option<string>, now: int)
    requires Accepted(u, w, id, principal, key) && ProjectedEvent(u, w, id, principal, key, snapshot, now).Some?
    ensures Next(u, w, Project(id, principal, key, snapshot, now))
         == w.(ledger := Appended(w.ledger, ProjectedEvent(u, w, id, principal, key, snapshot, now).value).1)
  {
    hide Accepted, ProjectedEvent, Appended;
  }

  // Once a payment is projected, and whatever happens after, projecting it again is
  // accepted exactly when the answer carries the same body, as a value, and the gateway
  // has the same registry snapshot; the time and the answer's other fields play no part.
  lemma LaterProjectionExactly(u: Setup, w: World, snapshots: set<Option<string>>,
                               a: nat, p: string, k: string, s: Option<string>, now: int, moves: seq<Move>,
                               b: nat, q: string, l: string, t: Option<string>, later: int)
    requires ValidSetup(u) && WorldOk(u, w, snapshots) && s in snapshots && SnapshotsIn(moves, snapshots)
    requires Accepted(u, w, a, p, k) && ProjectedEvent(u, w, a, p, k, s, now).Some?
    requires Appended(w.ledger, ProjectedEvent(u, w, a, p, k, s, now).value).0
    requires var v := After(u, Next(u, w, Project(a, p, k, s, now)), moves);
      && Accepted(u, v, b, q, l) && ProjectedEvent(u, v, b, q, l, t, later).Some?
      && OperationAt(u, v, b, q, l) == OperationAt(u, w, a, p, k)
    ensures var v := After(u, Next(u, w, Project(a, p, k, s, now)), moves);
      Appended(v.ledger, ProjectedEvent(u, v, b, q, l, t, later).value).0
      <==> SameValue(BodyAt(u, w, a, p, k), BodyAt(u, v, b, q, l)) && s == t
  {
    hide ValidSetup, WorldOk, Accepted, OperationAt, Next, Inv, LedgerOk, Laws.Inv, RepliesOk, ProjectedEvent, BodyAt,
         ClaimAt, Origin, SameValue, Appended, DemandIdFor, After, Evolves, Laws.AllReach;
    var e := ProjectedEvent(u, w, a, p, k, s, now).value;
    var op := OperationAt(u, w, a, p, k);
    var w1 := Next(u, w, Project(a, p, k, s, now));
    var v := After(u, w1, moves);
    WorldParts(u, w, snapshots);
    ProjectedClaim(u, w, a, p, k, s, now);
    ProjectedStands(w.ledger, e);
    ProjectStep(u, w, a, p, k, s, now);
    NextKeeps(u, w, snapshots, Project(a, p, k, s, now));
    AfterKeeps(u, w1, snapshots, moves);
    AfterGrows(u, w1, snapshots, moves);
    GrowsParts(w1, v);
    OriginStays(u, w, v, e.claim, p, k, op, BodyAt(u, w, a, p, k), s);
    WorldParts(u, v, snapshots);
    ProjectedClaim(u, v, b, q, l, t, later);
    AgainstStored(u, v, snapshots, b, q, l, t, later, p, k, BodyAt(u, w, a, p, k), s);
  }

  lemma GrowsParts(w: World, v: World)
    requires Grows(w, v)
    ensures Evolves(w.side.journal, v.side.journal) && Laws.Extends(w.store.bindings, v.store.bindings)
    ensures forall k :: k in w.ledger ==> k in v.ledger && v.ledger[k] == w.ledger[k]
  {
    hide Evolves, Laws.RegisterOf;
  }

  // With one registry snapshot, projecting a payment whose text is not JSON null never
  // conflicts with what is stored, after any run and at whatever time it is seen.
  lemma ProjectionNeverConflicts(u: Setup, moves: seq<Move>, id: nat, principal: string, key: string,
                                 snapshot: Option<string>, now: int)
    requires ValidSetup(u) && SnapshotsIn(moves, {snapshot})
    requires var w := After(u, INITIAL, moves);
      && Accepted(u, w, id, principal, key) && ProjectedEvent(u, w, id, principal, key, snapshot, now).Some?
      && var op := OperationAt(u, w, id, principal, key);
         op in w.side.journal.rows && !AnsweredNull(u.config, w.side.journal.rows[op])
    ensures var w := After(u, INITIAL, moves);
      Appended(w.ledger, ProjectedEvent(u, w, id, principal, key, snapshot, now).value).0
  {
    hide ValidSetup, WorldOk, After;
    InitialIsOk(u, {snapshot});
    AfterKeeps(u, INITIAL, {snapshot}, moves);
    NoConflict(u, After(u, INITIAL, moves), id, principal, key, snapshot, now);
  }

  lemma NoConflict(u: Setup, w: World, id: nat, principal: string, key: string, snapshot: Option<string>, now: int)
    requires ValidSetup(u) && WorldOk(u, w, {snapshot}) && Accepted(u, w, id, principal, key)
    requires ProjectedEvent(u, w, id, principal, key, snapshot, now).Some?
    requires var op := OperationAt(u, w, id, principal, key);
      op in w.side.journal.rows && !AnsweredNull(u.config, w.side.journal.rows[op])
    ensures Appended(w.ledger, ProjectedEvent(u, w, id, principal, key, snapshot, now).value).0
  {
    hide ValidSetup, WorldOk, Accepted, OperationAt, Next, Inv, LedgerOk, Laws.Inv, RepliesOk, ProjectedEvent, BodyAt,
         ClaimAt, Origin, SameValue, DemandIdFor, AnsweredNull, BodyOf, Repeats;
    var e := ProjectedEvent(u, w, id, principal, key, snapshot, now).value;
    var op := OperationAt(u, w, id, principal, key);
    WorldParts(u, w, {snapshot});
    ProjectedClaim(u, w, id, principal, key, snapshot, now);
    if e.demandId in w.ledger {
      assert HasOrigin(u, w, {snapshot}, w.ledger[e.demandId].claim);
      var p, k, op2, body, s :| s in {snapshot} && Origin(u, w, w.ledger[e.demandId].claim, p, k, op2, body, s);
      StoredAttempt(u, w, {snapshot}, e.demandId, op, p, k, op2, body, s);
      OneBody(u, w, op, w.ledger[e.demandId].claim, p, k, body, s,
              e.claim, principal, key, BodyAt(u, w, id, principal, key), snapshot);
      AgainstStored(u, w, {snapshot}, id, principal, key, snapshot, now, p, k, body, s);
    }
  }

  // The event under an attempt's id is of that attempt.
  lemma StoredAttempt(u: Setup, w: World, snapshots: set<Option<string>>, id: string, op: string,
                      p: string, k: string, op2: string, body: Json, s: Option<string>)
    requires ValidSetup(u) && LedgerOk(w.ledger, u.config.hash) && id in w.ledger
             && id == DemandIdFor(u.config.hash, op)
    requires Origin(u, w, w.ledger[id].claim, p, k, op2, body, s)
    ensures op == op2
  {
    hide ValidSetup, Origin, DemandIdFor, IsLocalCandidate;
    OriginAttempt(u, w, w.ledger[id].claim, p, k, op2, body, s);
    AttemptOfId(u, op, op2);
  }

  // The claims of one operation whose text is not null carry one body.
  lemma OneBody(u: Setup, w: World, op: string, c: Claim, p: string, k: string, a: Json, s: Option<string>,
                d: Claim, q: string, l: string, b: Json, t: Option<string>)
    requires Inv(u.config, w.side) && Origin(u, w, c, p, k, op, a, s) && Origin(u, w, d, q, l, op, b, t)
    requires !AnsweredNull(u.config, w.side.journal.rows[op])
    ensures SameValue(a, b)
  {
    hide Inv, AnsweredNull, BodyOf, RowOk, AppId, PaymentKey, RowReceipt, WithoutSlashes, SameValue, WellFormed,
         FreshBody, ClaimFor;
    var row := w.side.journal.rows[op];
    SettledRowOk(u, w, p, k, op);
    BodiesOfRow(u.config, row, a);
    BodiesOfRow(u.config, row, b);
    CanonicalTextDecidesValue(a, a);
  }

  // How the sidecar answers the request of a paid handler when it comes again.
  ghost predicate Repeated(c: Config, f: Formats, j: Journal, paid: SidecarSuccess, h: Handler, r: PaidRequest) {
    && h.Finished? && h.request == Some(r) && h.answer.Success?
    && ReadAnswer(f, h.answer).Ok?
    && h.answer.paid.operationId == paid.operationId && paid.operationId in j.rows
    && (h.answer.paid.body == paid.body <==> !AnsweredNull(c, j.rows[paid.operationId]))
  }

  lemma ArrivalRepeats(u: Setup, j: Journal, r: PaidRequest, paid: SidecarSuccess)
    requires ValidConfig(u.config) && FormatsFit(u.config, u.formats) && Valid(j) && FreshStored(u.config, j, r, paid)
    ensures Repeated(u.config, u.formats, j, paid, Arrival(u.config, j, r), r)
  {
    hide ValidConfig, FormatsFit, Valid, FreshStored, Arrival, ReadAnswer, SameWellFormed;
    StoredResponseReplays(u.config, j, r, paid);
    ResponsesPassTheChecks(u.config, u.formats, j, r, paid);
    ArrivalIsForRequest(u.config, j, r);
  }

  lemma ArrivalIsForRequest(c: Config, j: Journal, r: PaidRequest)
    ensures Arrival(c, j, r).Finished? ==> Arrival(c, j, r).request == Some(r)
  {
    hide GateCode, AnswerExisting, ByPrincipalKey, PlanFor;
  }

  lemma SentIsStored(c: Config, s: System, a: nat, r: PaidRequest)
    requires Inv(c, s) && a in s.handlers && s.handlers[a].Finished? && s.handlers[a].sent
             && s.handlers[a].answer.Success?
    requires s.handlers[a].request == Some(r)
    ensures FreshStored(c, s.journal, r, s.handlers[a].answer.paid) && Valid(s.journal)
  {
    hide Inv, Valid, FreshStored, FromSettledRow, ErrorForCode, HandlersOk, BudgetOk, RowsOk, FetchesOk;
    SignerHolds(c, s, a);
    InvParts(c, s);
  }

  lemma RetryAnswer(u: Setup, w: World, a: nat, p: string, k: string, b: nat, r: ParsedRequest)
    requires ValidSetup(u) && FormatsFit(u.config, u.formats) && Inv(u.config, w.side)
    requires Accepted(u, w, a, p, k) && w.side.handlers[a].sent && w.side.handlers[a].request == Some(r)
    requires w.side.up && b !in w.side.handlers
    ensures var v := Next(u, w, Side(Arrive(b, r)));
      var op := OperationAt(u, w, a, p, k);
      && v.ledger == w.ledger && v.store == w.store && v.side.journal == w.side.journal
      && a in v.side.handlers && v.side.handlers[a] == w.side.handlers[a]
      && Accepted(u, v, b, p, k) && OperationAt(u, v, b, p, k) == op
      && op in w.side.journal.rows
      && (BodyAt(u, v, b, p, k) == BodyAt(u, w, a, p, k) <==> !AnsweredNull(u.config, w.side.journal.rows[op]))
  {
    hide ValidConfig, FormatsFit, Inv, Valid, FreshStored, PaymentKey, AppId, Arrival, EvidenceChecked, HandlerStep,
         WellFormed, AnsweredNull;
    SentIsStored(u.config, w.side, a, r);
    ArrivalRepeats(u, w.side.journal, r, w.side.handlers[a].answer.paid);
  }

  // The receipt plays no part in whether a claim is allowed.
  lemma ReceiptPlaysNoPart(hash: string -> string, c: Claim, d: Claim, now: int, later: int)
    requires d == c.(receiptSha256 := d.receiptSha256) && CreateEvent(hash, c, "", now).Some?
    ensures CreateEvent(hash, d, "", later).Some?
  {
    hide WithoutSlashes, Blank, IsLocalCandidate;
  }

  // Bodies of one settled row are the same value exactly when they are equal.
  lemma RowBodiesDiffer(u: Setup, w: World, p: string, k: string, op: string, a: Json, b: Json)
    requires Inv(u.config, w.side) && PaidFor(u, w, p, k, op) && WellFormed(a)
    requires var e := w.side.journal.rows[op].evidence; BodyOf(u.config, e, Some(a)) && BodyOf(u.config, e, Some(b))
    ensures SameValue(a, b) <==> a == b
  {
    hide Inv, BodyOf, RowOk, AppId, PaymentKey, RowReceipt, WithoutSlashes, WellFormed, FreshBody;
    SettledRowOk(u, w, p, k, op);
    BodiesOfRow(u.config, w.side.journal.rows[op], a);
    BodiesOfRow(u.config, w.side.journal.rows[op], b);
    CanonicalTextDecidesValue(a, a);
  }

  // An answer depends on its handler and the store alone.
  lemma SameAnswer(u: Setup, w: World, v: World, id: nat, p: string, k: string)
    requires Accepted(u, w, id, p, k) && v.store == w.store
    requires id in w.side.handlers ==> id in v.side.handlers && v.side.handlers[id] == w.side.handlers[id]
    ensures Accepted(u, v, id, p, k) && BodyAt(u, v, id, p, k) == BodyAt(u, w, id, p, k)
    ensures OperationAt(u, v, id, p, k) == OperationAt(u, w, id, p, k)
    ensures forall s :: ClaimAt(u, v, id, p, k, s) == ClaimAt(u, w, id, p, k, s)
  {
    hide ReadAnswer, AppId, PaymentKey, ReceiptSha256;
  }

  // Another accepted answer of the same operation and request is projected as well.
  lemma AlsoProjected(u: Setup, w: World, a: nat, b: nat, p: string, k: string, s: Option<string>, now: int, later: int)
    requires ValidSetup(u) && Inv(u.config, w.side) && Accepted(u, w, a, p, k) && Accepted(u, w, b, p, k)
    requires OperationAt(u, w, a, p, k) == OperationAt(u, w, b, p, k)
    requires ProjectedEvent(u, w, a, p, k, s, now).Some?
    ensures ProjectedEvent(u, w, b, p, k, s, later).Some?
    ensures SameValue(BodyAt(u, w, a, p, k), BodyAt(u, w, b, p, k)) <==> BodyAt(u, w, a, p, k) == BodyAt(u, w, b, p, k)
  {
    hide ValidSetup, Inv, ReadAnswer, AppId, PaymentKey, ReceiptSha256, CreateEvent, PaidFor, BodyOf, RowReceipt,
         SameValue, WellFormed;
    AcceptedRow(u, w, a, p, k);
    AcceptedRow(u, w, b, p, k);
    AcceptedBody(u, w, a, p, k);
    ReceiptPlaysNoPart(u.config.hash, ClaimAt(u, w, a, p, k, s), ClaimAt(u, w, b, p, k, s), now, later);
    RowBodiesDiffer(u, w, p, k, OperationAt(u, w, a, p, k), BodyAt(u, w, a, p, k), BodyAt(u, w, b, p, k));
  }

  lemma OneMove(u: Setup, w: World, m: Move)
    ensures After(u, w, [m]) == Next(u, w, m)
  {
    hide Next;
    assert [m][1..] == [];
  }

  // The step that shows the exception: when the request of a paid call comes again after
  // its payment was projected, the retry is answered and accepted, but its projection
  // conflicts exactly when the paid text parses to JSON null.
  lemma RetryConflictsExactlyOnNull(u: Setup, w: World, snapshots: set<Option<string>>, a: nat, p: string, k: string,
                                    s: Option<string>, now: int, b: nat, r: ParsedRequest, later: int)
    requires ValidSetup(u) && FormatsFit(u.config, u.formats) && WorldOk(u, w, snapshots) && s in snapshots
    requires Accepted(u, w, a, p, k) && w.side.handlers[a].sent && w.side.handlers[a].request == Some(r)
    requires ProjectedEvent(u, w, a, p, k, s, now).Some?
    requires Appended(w.ledger, ProjectedEvent(u, w, a, p, k, s, now).value).0
    requires w.side.up && b !in w.side.handlers
    ensures var v := Next(u, Next(u, w, Project(a, p, k, s, now)), Side(Arrive(b, r)));
      var op := OperationAt(u, w, a, p, k);
      && Accepted(u, v, b, p, k) && ProjectedEvent(u, v, b, p, k, s, later).Some? && op in w.side.journal.rows
      && (Appended(v.ledger, ProjectedEvent(u, v, b, p, k, s, later).value).0
          <==> !AnsweredNull(u.config, w.side.journal.rows[op]))
  {
    hide ValidSetup, FormatsFit, WorldOk, Inv, LedgerOk, EventsOk, RepliesOk, Laws.Inv, Accepted, BodyAt, OperationAt,
         SameValue, Appended, PaidFor, BodyOf, WellFormed, AnsweredNull, Next, CreateEvent, RowReceipt, AppId,
         PaymentKey;
    var w1 := Next(u, w, Project(a, p, k, s, now));
    var v := Next(u, w1, Side(Arrive(b, r)));
    ProjectStep(u, w, a, p, k, s, now);
    NextKeeps(u, w, snapshots, Project(a, p, k, s, now));
    NextKeeps(u, w1, snapshots, Side(Arrive(b, r)));
    WorldParts(u, w1, snapshots);
    WorldParts(u, v, snapshots);
    SameAnswer(u, w, w1, a, p, k);
    RetryAnswer(u, w1, a, p, k, b, r);
    SameAnswer(u, w1, v, a, p, k);
    AlsoProjected(u, v, a, b, p, k, s, now, later);
    OneMove(u, w1, Side(Arrive(b, r)));
    LaterProjectionExactly(u, w, snapshots, a, p, k, s, now, [Side(Arrive(b, r))], b, p, k, s, later);
  }

  // ----------------------------------------------------------------------- reply rows

  // A reply row of a payment at an endpoint.
  ghost predicate PaidAt(u: Setup, w: World, r: Cases.StoredReply, principal: string, key: string, endpoint: string) {
    exists op, snapshot :: PaymentReply(u, w, r, principal, key, op, snapshot) && AtEndpoint(w, op, endpoint)
  }

  predicate AtEndpoint(w: World, op: string, endpoint: string) {
    op in w.side.journal.rows && w.side.journal.rows[op].binding.endpoint == endpoint
  }

  // The reply rows of one application request at one capability, read by one parser.
  ghost function CallReplies(u: Setup, w: World, principal: string, key: string, minerId: string, endpoint: string,
                             parser: string): set<string>
  {
    set k | k in w.store.replies
            && w.store.replies[k].reply.minerId == minerId && w.store.replies[k].reply.parserVersion == parser
            && (PaidAt(u, w, w.store.replies[k], principal, key, endpoint)
                || FailureReply(u, w, w.store.replies[k], principal, key))
  }

  // Every reply row is one of some call.
  lemma RepliesBelongToCalls(u: Setup, w: World, k: string)
    requires RepliesOk(u, w) && k in w.store.replies
    ensures var r := w.store.replies[k].reply;
      exists principal, key, endpoint :: k in CallReplies(u, w, principal, key, r.minerId, endpoint, r.parserVersion)
  {
    hide PaymentReply, FailureReply;
    var stored := w.store.replies[k];
    assert Kept(u, w, stored);
    if principal, key, op, snapshot :| PaymentReply(u, w, stored, principal, key, op, snapshot) {
      PaymentReplyRow(u, w, stored, principal, key, op, snapshot);
      var endpoint := w.side.journal.rows[op].binding.endpoint;
      assert AtEndpoint(w, op, endpoint);
      assert k in CallReplies(u, w, principal, key, stored.reply.minerId, endpoint, stored.reply.parserVersion);
    } else {
      var principal, key :| FailureReply(u, w, stored, principal, key);
      assert k in CallReplies(u, w, principal, key, stored.reply.minerId, "", stored.reply.parserVersion);
    }
  }

  lemma PaymentReplyRow(u: Setup, w: World, r: Cases.StoredReply, principal: string, key: string, op: string,
                        snapshot: Option<string>)
    requires PaymentReply(u, w, r, principal, key, op, snapshot)
    ensures op in w.side.journal.rows && PaidFor(u, w, principal, key, op)
    ensures w.side.journal.rows[op].binding.minerId == r.reply.minerId
  {
    hide BodyOf, AppId, PaymentKey, RowReceipt, WithoutSlashes, WellFormed, ClaimFor;
  }

  lemma OneRowPerKey(j: Journal, a: string, b: string)
    requires Valid(j) && a in j.rows && b in j.rows
    requires j.rows[a].binding.principalId == j.rows[b].binding.principalId
    requires j.rows[a].binding.idempotencyKey == j.rows[b].binding.idempotencyKey
    ensures a == b
  {
    hide SignaturesIndexed, EventsRise, LogMatchesTable;
  }

  // One settled operation for one request and capability.
  lemma OnePayment(u: Setup, w: World, principal: string, key: string, op: string, op2: string)
    requires Inv(u.config, w.side) && PaidFor(u, w, principal, key, op) && PaidFor(u, w, principal, key, op2)
    requires w.side.journal.rows[op].binding.minerId == w.side.journal.rows[op2].binding.minerId
    requires w.side.journal.rows[op].binding.endpoint == w.side.journal.rows[op2].binding.endpoint
    ensures op == op2
  {
    hide Inv, Valid, BudgetOk, RowsOk, FetchesOk, HandlersOk, AppId, PaymentKey, RowReceipt, WithoutSlashes;
    InvParts(u.config, w.side);
    OneRowPerKey(w.side.journal, op, op2);
  }

  // Two replies of one payment hold the body of one demand event.
  lemma PaymentRepliesAgree(u: Setup, w: World, r: Cases.StoredReply, q: Cases.StoredReply, principal: string,
                            key: string, endpoint: string)
    requires ValidSetup(u) && Inv(u.config, w.side) && r.reply.minerId == q.reply.minerId
    requires PaidAt(u, w, r, principal, key, endpoint) && PaidAt(u, w, q, principal, key, endpoint)
    ensures SameValue(r.reply.rawResponse, q.reply.rawResponse)
  {
    hide ValidSetup, Inv, Origin, ReplyOf, DemandIdFor, SameValue, PaidFor;
    var op, s :| PaymentReply(u, w, r, principal, key, op, s) && AtEndpoint(w, op, endpoint);
    var op2, t :| PaymentReply(u, w, q, principal, key, op2, t) && AtEndpoint(w, op2, endpoint);
    PaymentReplyRow(u, w, r, principal, key, op, s);
    PaymentReplyRow(u, w, q, principal, key, op2, t);
    OnePayment(u, w, principal, key, op, op2);
    var c := w.ledger[DemandIdFor(u.config.hash, op)].claim;
    ClaimsAgreeExactly(u, w, op, c, principal, key, r.reply.rawResponse, s, c, principal, key, q.reply.rawResponse, t);
  }

  // Rows of one request and parser that hold the same response are one row.
  lemma SameResponseSameRow(u: Setup, w: World, principal: string, key: string, j: string, k: string)
    requires ValidSetup(u) && Laws.Inv(w.store, u.config.hash) && j in w.store.replies && k in w.store.replies
    requires var r, q := w.store.replies[j], w.store.replies[k];
      && ReplyOf(u, w, r, principal, key) && ReplyOf(u, w, q, principal, key)
      && r.reply.minerId == q.reply.minerId && r.reply.parserVersion == q.reply.parserVersion
      && SameValue(r.reply.rawResponse, q.reply.rawResponse)
    ensures j == k
  {
    hide ValidSetup, Laws.Inv, SameValue, AppId;
    SetupIsInjective(u);
    if j != k { Laws.OneRowPerResponse(w.store, u.config.hash, j, k); }
  }

  lemma PaidAtIsReply(u: Setup, w: World, r: Cases.StoredReply, principal: string, key: string, endpoint: string)
    requires PaidAt(u, w, r, principal, key, endpoint)
    ensures ReplyOf(u, w, r, principal, key)
  {
    hide ReplyOf, Origin;
  }

  lemma OneElement(s: set<string>)
    requires forall j, k :: j in s && k in s ==> j == k
    ensures |s| <= 1
  {
    if k :| k in s { assert s == {k}; }
  }

  // One application request at one capability keeps at most one reply row for a parser,
  // beside one of a failed call under the parser of those: a second body never gets past
  // the demand ledger.
  lemma FewRepliesPerCall(u: Setup, w: World, snapshots: set<Option<string>>, principal: string, key: string,
                          minerId: string, endpoint: string, parser: string)
    requires ValidSetup(u) && WorldOk(u, w, snapshots)
    ensures |CallReplies(u, w, principal, key, minerId, endpoint, parser)| <= if parser == FAILURE_PARSER then 2 else 1
  {
    hide ValidSetup, WorldOk, Inv, Laws.Inv, LedgerOk, EventsOk, RepliesOk, PaidAt, ReplyOf, SameValue;
    WorldParts(u, w, snapshots);
    var s := CallReplies(u, w, principal, key, minerId, endpoint, parser);
    var m := w.store.replies;
    var paid := set k | k in s && PaidAt(u, w, m[k], principal, key, endpoint);
    var failed := set k | k in s && FailureReply(u, w, m[k], principal, key);
    forall j, k | j in paid && k in paid ensures j == k {
      PaymentRepliesAgree(u, w, m[j], m[k], principal, key, endpoint);
      PaidAtIsReply(u, w, m[j], principal, key, endpoint);
      PaidAtIsReply(u, w, m[k], principal, key, endpoint);
      SameResponseSameRow(u, w, principal, key, j, k);
    }
    forall j, k | j in failed && k in failed ensures j == k {
      assert SameValue(m[j].reply.rawResponse, m[k].reply.rawResponse) by { NullIsNull(); }
      SameResponseSameRow(u, w, principal, key, j, k);
    }
    OneElement(paid);
    OneElement(failed);
    assert s == paid + failed;
    assert parser != FAILURE_PARSER ==> failed == {};
  }

  lemma NullIsNull()
    ensures SameValue(Null, Null)
  {
  }

  // The replies of a first answer and of a retry have one id exactly when the paid text
  // does not parse to JSON null: only for such a text is the ledger's refusal what keeps
  // a second row out.
  lemma RetryRepliesAgreeExactly(u: Setup, w: World, a: nat, p: string, k: string, b: nat, r: ParsedRequest,
                                 parser: string, details: string, again: string)
    requires ValidSetup(u) && FormatsFit(u.config, u.formats) && Inv(u.config, w.side)
    requires Accepted(u, w, a, p, k) && w.side.handlers[a].sent && w.side.handlers[a].request == Some(r)
    requires w.side.up && b !in w.side.handlers
    ensures var v := Next(u, w, Side(Arrive(b, r)));
      && Accepted(u, v, a, p, k) && Accepted(u, v, b, p, k) && OperationAt(u, w, a, p, k) in w.side.journal.rows
      && (Cases.ReplyId(u.config.hash, EventOf(v, p, k), KeptReply(u, v, a, p, k, parser, details))
          == Cases.ReplyId(u.config.hash, EventOf(v, p, k), KeptReply(u, v, b, p, k, parser, again))
          <==> !AnsweredNull(u.config, w.side.journal.rows[OperationAt(u, w, a, p, k)]))
  {
    hide ValidSetup, FormatsFit, Inv, ReadAnswer, AppId, PaymentKey, AnsweredNull, Next, Cases.ReplyId, SameValue,
         WellFormed, PaidFor, BodyOf, RowReceipt;
    var v := Next(u, w, Side(Arrive(b, r)));
    RetryAnswer(u, w, a, p, k, b, r);
    SameAnswer(u, w, v, a, p, k);
    SideStays(u, w, Arrive(b, r));
    SetupIsInjective(u);
    AcceptedRow(u, v, a, p, k);
    AcceptedRow(u, v, b, p, k);
    AcceptedBody(u, v, a, p, k);
    AcceptedBody(u, v, b, p, k);
    RowBodiesDiffer(u, v, p, k, OperationAt(u, v, a, p, k), BodyAt(u, v, a, p, k), BodyAt(u, v, b, p, k));
    Laws.ReplyIdDecides(u.config.hash, EventOf(v, p, k), KeptReply(u, v, a, p, k, parser, details),
                        EventOf(v, p, k), KeptReply(u, v, b, p, k, parser, again));
  }

  lemma SideStays(u: Setup, w: World, a: Action)
    requires ValidSetup(u) && Inv(u.config, w.side)
    ensures Inv(u.config, Next(u, w, Side(a)).side)
  {
    hide ValidConfig, Inv, Step, Grown;
    StepKeeps(u.config, w.side, a);
  }

  // ---------------------------------------------------------------- the composed result

  // Two stored events of one application request and one capability are one event.
  lemma OneEventPerCall(u: Setup, w: World, snapshots: set<Option<string>>, j: string, k: string)
    requires ValidSetup(u) && WorldOk(u, w, snapshots) && j in w.ledger && k in w.ledger
    requires SameCall(w.ledger[j].claim, w.ledger[k].claim)
    ensures j == k
  {
    hide ValidSetup, Inv, Laws.Inv, RepliesOk, Origin, IsLocalCandidate, DemandIdFor;
    assert HasOrigin(u, w, snapshots, w.ledger[j].claim) && HasOrigin(u, w, snapshots, w.ledger[k].claim);
    var p, x, op, v, s :| s in snapshots && Origin(u, w, w.ledger[j].claim, p, x, op, v, s);
    var q, y, op2, b, t :| t in snapshots && Origin(u, w, w.ledger[k].claim, q, y, op2, b, t);
    SameCallSamePayment(u, w, w.ledger[j].claim, p, x, op, v, s, w.ledger[k].claim, q, y, op2, b, t);
    OriginAttempt(u, w, w.ledger[j].claim, p, x, op, v, s);
    OriginAttempt(u, w, w.ledger[k].claim, q, y, op2, b, t);
  }

  lemma SameCallSamePayment(u: Setup, w: World, c: Claim, p: string, x: string, op: string, v: Json, s: Option<string>,
                            d: Claim, q: string, y: string, op2: string, b: Json, t: Option<string>)
    requires ValidSetup(u) && Inv(u.config, w.side)
    requires Origin(u, w, c, p, x, op, v, s) && Origin(u, w, d, q, y, op2, b, t) && SameCall(c, d)
    ensures op == op2
  {
    hide ValidSetup, Inv, PaymentKey, AppId, WithoutSlashes, RowReceipt, BodyOf, WellFormed, ReceiptSha256;
    SetupIsInjective(u);
    AppIdDecides(u.config.hash, p, x, q, y);
    OnePayment(u, w, p, x, op, op2);
  }

  predicate SameCall(a: Claim, b: Claim) {
    a.applicationRequestId == b.applicationRequestId && a.minerId == b.minerId && a.endpoint == b.endpoint
  }

  predicate SameAttempt(a: Claim, b: Claim) { NotEmpty(a.attemptId) && a.attemptId == b.attemptId }

  predicate FetchOf(f: Fetch, principal: string, paymentKey: string) {
    f.principalId == principal && f.idempotencyKey == paymentKey
  }

  function SnapshotsOf(moves: seq<Move>): (r: set<Option<string>>)
    ensures SnapshotsIn(moves, r)
  {
    set m | m in moves && m.Project? :: m.snapshot
  }

  // Any sequence of decide calls, crashes and restarts, for one authenticated pair and
  // one capability: at most one paid fetch is sent; every payment attempt, and every
  // application request at a capability, has at most one demand event; and a parser
  // keeps at most one reply row, beside one of a failed call.
  lemma EndToEndIdempotency(u: Setup, moves: seq<Move>, principal: string, key: string, minerId: string,
                            endpoint: string, parser: string)
    requires ValidSetup(u)
    ensures var w := After(u, INITIAL, moves);
      var pay := PaymentKey(u.config.hash, AppId(u.config.hash, principal, key), minerId, endpoint);
      forall i, k :: 0 <= i < k < |w.side.fetches| ==>
        !(FetchOf(w.side.fetches[i], principal, pay) && FetchOf(w.side.fetches[k], principal, pay))
    ensures var ledger := After(u, INITIAL, moves).ledger;
      forall d, e :: d in ledger && e in ledger ==>
        (SameAttempt(ledger[d].claim, ledger[e].claim) || SameCall(ledger[d].claim, ledger[e].claim) ==> d == e)
    ensures |CallReplies(u, After(u, INITIAL, moves), principal, key, minerId, endpoint, parser)|
            <= if parser == FAILURE_PARSER then 2 else 1
  {
    hide ValidSetup, WorldOk, After, PaymentKey, AppId, SameAttempt, SameCall, CallReplies, FetchOf;
    var snapshots := SnapshotsOf(moves);
    InitialIsOk(u, snapshots);
    AfterKeeps(u, INITIAL, snapshots, moves);
    var pay := PaymentKey(u.config.hash, AppId(u.config.hash, principal, key), minerId, endpoint);
    OneFetchPerKey(u, moves, principal, pay);
    OneEventEach(u, After(u, INITIAL, moves), snapshots);
    FewRepliesPerCall(u, After(u, INITIAL, moves), snapshots, principal, key, minerId, endpoint, parser);
  }

  lemma OneFetchPerKey(u: Setup, moves: seq<Move>, principal: string, pay: string)
    requires ValidSetup(u)
    ensures var fetches := After(u, INITIAL, moves).side.fetches;
      forall i, k :: 0 <= i < k < |fetches| ==>
        !(FetchOf(fetches[i], principal, pay) && FetchOf(fetches[k], principal, pay))
  {
    hide ValidConfig, After, Run, AfterItsSubmission;
    SideRunsAlone(u, INITIAL, moves);
    AtMostOnePayment(u.config, SideActions(moves));
    assert After(u, INITIAL, moves).side == Reached(u.config, SideActions(moves));
  }

  lemma OneEventEach(u: Setup, w: World, snapshots: set<Option<string>>)
    requires ValidSetup(u) && WorldOk(u, w, snapshots)
    ensures forall d, e :: d in w.ledger && e in w.ledger ==>
              (SameAttempt(w.ledger[d].claim, w.ledger[e].claim) || SameCall(w.ledger[d].claim, w.ledger[e].claim)
               ==> d == e)
  {
    hide ValidSetup, WorldOk, Inv, Laws.Inv, LedgerOk, EventsOk, RepliesOk, SameCall, NotEmpty;
    WorldParts(u, w, snapshots);
    forall d, e | d in w.ledger && e in w.ledger
      ensures SameAttempt(w.ledger[d].claim, w.ledger[e].claim) || SameCall(w.ledger[d].claim, w.ledger[e].claim)
              ==> d == e
    {
      if SameAttempt(w.ledger[d].claim, w.ledger[e].claim) {
        OneEventPerAttempt(w.ledger, u.config.hash, d, e);
      } else if SameCall(w.ledger[d].claim, w.ledger[e].claim) {
        OneEventPerCall(u, w, snapshots, d, e);
      }
    }
  }

  // Once a decision is sealed for a bound request, no later move changes it or the binding.
  lemma SealedDecisionStays(u: Setup, before: seq<Move>, after: seq<Move>, principal: string, key: string)
    requires ValidSetup(u)
    requires var w := After(u, INITIAL, before);
      && (principal, key) in w.store.bindings
      && EventOf(w, principal, key) in w.store.cases && w.store.cases[EventOf(w, principal, key)].decision.Some?
    ensures var w := After(u, INITIAL, before);
      var v := After(u, w, after);
      && (principal, key) in v.store.bindings
      && v.store.bindings[(principal, key)] == w.store.bindings[(principal, key)]
      && EventOf(w, principal, key) in v.store.cases
      && v.store.cases[EventOf(w, principal, key)].decision == w.store.cases[EventOf(w, principal, key)].decision
  {
    hide ValidSetup, WorldOk, After, Evolves;
    var snapshots := SnapshotsOf(before) + SnapshotsOf(after);
    var w := After(u, INITIAL, before);
    InitialIsOk(u, snapshots);
    AfterKeeps(u, INITIAL, snapshots, before);
    AfterGrows(u, w, snapshots, after);
    var v := After(u, w, after);
    var e := EventOf(w, principal, key);
    assert Laws.Reaches(Laws.RegisterOf(w.store, e), Laws.RegisterOf(v.store, e));
  }
}
