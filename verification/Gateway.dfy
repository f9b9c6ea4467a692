// The gateway: its derived keys and receipts, and the sidecar, the demand ledger and the
// case store driven together by any sequence of decide calls and crashes.
module Gateway {
  import opened Prelude
  import opened CanonicalJson
  import opened CanonicalJsonLaws
  import opened PaymentClient
  import opened Sidecar
  import opened SidecarInvariant
  import opened RequestIdentity
  import opened Demand
  import Cases = CaseStoreSpec

  // ---------------------------------------------------------------- the derived keys

  function AppIdJson(principal: string, key: string): (v: Json)
    ensures v.Obj?
  {
    Obj([Field("version", Num(1)), Field("principal_id", Str(principal)), Field("idempotency_key", Str(key))])
  }

  // Digests are cut to 60 digits; the cut digest is taken as the digest itself.
  function AppId(hash: string -> string, principal: string, key: string): string {
    "app-" + hash(CanonicalText(AppIdJson(principal, key)))
  }

  function PaymentKey(hash: string -> string, appId: string, minerId: string, endpoint: string): string {
    "pay-" + hash(appId + "|" + minerId + "|" + endpoint)
  }

  lemma AppIdIsWellFormed(p: string, k: string)
    ensures WellFormed(AppIdJson(p, k)) && DistinctKeys(AppIdJson(p, k).fields)
  {
    var fs := AppIdJson(p, k).fields;
    assert |fs[0].key| == 7 && |fs[1].key| == 12 && |fs[2].key| == 15;
    forall i, j | 0 <= i < j < |fs| ensures fs[i].key != fs[j].key {
      assert |fs[i].key| != |fs[j].key|;
    }
  }

  lemma AppIdMembers(p: string, k: string, q: string, l: string)
    ensures var fs, gs := AppIdJson(p, k).fields, AppIdJson(q, l).fields;
      && |fs| == |gs|
      && (forall i :: 0 <= i < |fs| ==> fs[i].key == gs[i].key)
      && ((forall i :: 0 <= i < |fs| ==> SameValue(fs[i].value, gs[i].value)) <==> p == q && k == l)
  {
    var fs, gs := AppIdJson(p, k).fields, AppIdJson(q, l).fields;
    assert SameValue(fs[1].value, gs[1].value) <==> p == q;
    assert SameValue(fs[2].value, gs[2].value) <==> k == l;
  }

  // One application request id, one authenticated (principal, key) pair.
  lemma AppIdDecides(hash: string -> string, p: string, k: string, q: string, l: string)
    requires Injective(hash)
    ensures AppId(hash, p, k) == AppId(hash, q, l) <==> p == q && k == l
  {
    hide CanonicalText, DistinctKeys, AppIdJson, SameValue, WellFormed;
    var v, w := AppIdJson(p, k), AppIdJson(q, l);
    AppIdIsWellFormed(p, k);
    AppIdIsWellFormed(q, l);
    AppIdMembers(p, k, q, l);
    CanonicalTextDecidesValue(v, w);
    AlignedObjects(v.fields, w.fields);
    assert v == Obj(v.fields) && w == Obj(w.fields);
    PrefixedDigests(hash(CanonicalText(v)), hash(CanonicalText(w)));
  }

  // What stands before the last bar, and after it.
  lemma LastBarSplits(a: string, m: string, b: string, n: string)
    requires '|' !in m && '|' !in n
    ensures a + "|" + m == b + "|" + n <==> a == b && m == n
  {
    var x, y := a + "|" + m, b + "|" + n;
    assert x[|a|] == '|' && y[|b|] == '|';
    assert |b| < |a| < |y| ==> y[|a|] == n[|a| - |b| - 1];
    assert |a| < |b| < |x| ==> x[|b|] == m[|b| - |a| - 1];
    assert x[..|a|] == a && y[..|b|] == b;
    assert x[|a| + 1..] == m && y[|b| + 1..] == n;
  }

  // One payment key, one application request and one capability.
  lemma PaymentKeyDecides(hash: string -> string, a: string, m: string, e: string, b: string, n: string, f: string)
    requires Injective(hash) && '|' !in m && '|' !in n && '|' !in e && '|' !in f
    ensures PaymentKey(hash, a, m, e) == PaymentKey(hash, b, n, f) <==> a == b && m == n && e == f
  {
    LastBarSplits(a + "|" + m, e, b + "|" + n, f);
    LastBarSplits(a, m, b, n);
    var x, y := hash(a + "|" + m + "|" + e), hash(b + "|" + n + "|" + f);
    assert ("pay-" + x)[4..] == x && ("pay-" + y)[4..] == y;
  }

  lemma SameCapabilitySameRequest(hash: string -> string, a: string, b: string, m: string, e: string)
    requires Injective(hash) && PaymentKey(hash, a, m, e) == PaymentKey(hash, b, m, e)
    ensures a == b
  {
    var x, y := hash(a + "|" + m + "|" + e), hash(b + "|" + m + "|" + e);
    assert ("pay-" + x)[4..] == x && ("pay-" + y)[4..] == y;
    var tail := "|" + m + "|" + e;
    assert a + "|" + m + "|" + e == a + tail && b + "|" + m + "|" + e == b + tail;
    assert (a + tail)[..|a|] == (b + tail)[..|b|];
  }

  // --------------------------------------------------------------------- the receipt

  // The protocol receipt of an accepted answer. The sidecar's answers carry no request
  // URL, deadline or headers.
  function ReceiptJson(hash: string -> string, r: Receipt, body: Json, snapshot: Option<string>): (v: Json)
    ensures v.Obj?
  {
    Obj([Field("request_url", Null),
         Field("route_mode", Str("telegraph")),
         Field("response_status", Num(r.status)),
         Field("received_at", Num(r.receivedAt)),
         Field("challenge_sha256", Str(r.challengeSha256)),
         Field("payment_attempt_id", Str(r.attemptId)),
         Field("settlement_artifact_sha256", Str(r.settlementSha256)),
         Field("settlement_verification", Str("verified")),
         Field("signal_receipt_sha256", Null),
         Field("registry_snapshot_sha256", Cases.OptionalText(snapshot)),
         Field("challenge_deadline", Null),
         Field("response_sha256", Str(hash(CanonicalText(body)))),
         Field("response_body_sha256", Str(r.bodySha256)),
         Field("request_url_sha256", Str(r.targetSha256)),
         Field("settlement_transaction_signature", Str(r.signature))])
  }

  function ReceiptSha256(hash: string -> string, r: Receipt, body: Json, snapshot: Option<string>): string {
    hash(CanonicalText(ReceiptJson(hash, r, body, snapshot)))
  }

  // Two keys of a receipt of one length differ in their eleventh letter.
  function KeyTag(key: string): (int, char) { (|key|, if |key| > 10 then key[10] else '_') }

  const RECEIPT_TAGS: seq<(int, char)> :=
    [(11, 'l'), (10, '_'), (15, 't'), (11, 't'), (16, 's'), (18, 't'), (26, '_'), (23, '_'), (21, 'e'), (24, 'n'),
     (18, 'd'), (15, 'h'), (20, 'o'), (18, 'l'), (32, '_')]

  lemma ReceiptTags(hash: string -> string, r: Receipt, body: Json, snapshot: Option<string>)
    ensures var fs := ReceiptJson(hash, r, body, snapshot).fields;
      |fs| == |RECEIPT_TAGS| && forall i :: 0 <= i < |fs| ==> KeyTag(fs[i].key) == RECEIPT_TAGS[i]
  {
    hide CanonicalText;
  }

  lemma ReceiptTagsDiffer()
    ensures forall i, j :: 0 <= i < j < |RECEIPT_TAGS| ==> RECEIPT_TAGS[i] != RECEIPT_TAGS[j]
  {
  }

  lemma ReceiptKeysDiffer(hash: string -> string, r: Receipt, body: Json, snapshot: Option<string>)
    ensures DistinctKeys(ReceiptJson(hash, r, body, snapshot).fields)
  {
    hide ReceiptJson, KeyTag;
    ReceiptTags(hash, r, body, snapshot);
    ReceiptTagsDiffer();
    var fs := ReceiptJson(hash, r, body, snapshot).fields;
    forall i, j | 0 <= i < j < |fs| ensures fs[i].key != fs[j].key {
      assert KeyTag(fs[i].key) != KeyTag(fs[j].key);
    }
  }

  lemma ReceiptIsWellFormed(hash: string -> string, r: Receipt, body: Json, snapshot: Option<string>)
    ensures WellFormed(ReceiptJson(hash, r, body, snapshot))
  {
    hide CanonicalText, DistinctKeys;
    ReceiptKeysDiffer(hash, r, body, snapshot);
    var fs := ReceiptJson(hash, r, body, snapshot).fields;
    forall i | 0 <= i < |fs| ensures !fs[i].value.Arr? && !fs[i].value.Obj? {
    }
  }

  // What a receipt's members hold of the response.
  lemma ReceiptMembers(hash: string -> string, r: Receipt, v: Json, s: Option<string>)
    ensures var fs := ReceiptJson(hash, r, v, s).fields;
      |fs| == 15
      && fs[2].value == Num(r.status) && fs[3].value == Num(r.receivedAt) && fs[4].value == Str(r.challengeSha256)
      && fs[5].value == Str(r.attemptId) && fs[6].value == Str(r.settlementSha256)
      && fs[9].value == Cases.OptionalText(s) && fs[11].value == Str(hash(CanonicalText(v)))
      && fs[12].value == Str(r.bodySha256) && fs[13].value == Str(r.targetSha256) && fs[14].value == Str(r.signature)
  {
    hide CanonicalText;
  }

  lemma ReceiptsAlign(hash: string -> string, r: Receipt, v: Json, s: Option<string>, q: Receipt, w: Json,
                      t: Option<string>)
    ensures var fs, gs := ReceiptJson(hash, r, v, s).fields, ReceiptJson(hash, q, w, t).fields;
      && |fs| == |gs|
      && (forall i :: 0 <= i < |fs| ==> fs[i].key == gs[i].key)
      && (forall i :: 0 <= i < |fs| ==> !fs[i].value.Arr? && !fs[i].value.Obj?)
      && (r == q && s == t && hash(CanonicalText(v)) == hash(CanonicalText(w)) ==> fs == gs)
  {
    hide CanonicalText;
  }

  // Two receipts have one digest exactly when they are of one payment, answered with the
  // same body as a value, under one registry snapshot.
  lemma ReceiptDecides(hash: string -> string, r: Receipt, v: Json, s: Option<string>, q: Receipt, w: Json,
                       t: Option<string>)
    requires Injective(hash) && WellFormed(v) && WellFormed(w)
    ensures ReceiptSha256(hash, r, v, s) == ReceiptSha256(hash, q, w, t) <==> r == q && SameValue(v, w) && s == t
  {
    hide CanonicalText, DistinctKeys, ReceiptJson, WellFormed;
    var a, b := ReceiptJson(hash, r, v, s), ReceiptJson(hash, q, w, t);
    ReceiptIsWellFormed(hash, r, v, s);
    ReceiptIsWellFormed(hash, q, w, t);
    ReceiptKeysDiffer(hash, r, v, s);
    ReceiptKeysDiffer(hash, q, w, t);
    ReceiptMembers(hash, r, v, s);
    ReceiptMembers(hash, q, w, t);
    ReceiptsAlign(hash, r, v, s, q, w, t);
    CanonicalTextDecidesValue(v, w);
    CanonicalTextDecidesValue(a, b);
    AlignedObjects(a.fields, b.fields);
    assert a == Obj(a.fields) && b == Obj(b.fields);
  }

  // ------------------------------------------------------------------ the whole system

  datatype Setup = Setup(config: Config, formats: Formats)

  datatype World = World(side: System, ledger: Ledger, store: Cases.Store)

  const INITIAL := World(START, map[], Cases.EMPTY_STORE)

  // The parser a reply is stored under when the call failed by an exception of its own.
  const FAILURE_PARSER := "probability_extractor_v1"

  // What the parts of a decide call do, in any order and any number: a crash is a call
  // whose later parts do not come. `snapshot` is the registry snapshot the gateway that
  // makes the call was started with; `ids` are the replies the decision was made from.
  datatype Move =
    | Side(action: Action)
    | Bind(principal: string, key: string, sha: string, eventId: string)
    | Open(question: Cases.Question)
    | Project(id: nat, principal: string, key: string, snapshot: Option<string>, now: int)
    | Keep(id: nat, principal: string, key: string, snapshot: Option<string>, parser: string, details: string)
    | KeepFailure(principal: string, key: string, minerId: string, details: string)
    | Seal(principal: string, key: string, json: string, ids: seq<string>, decidedAt: string, now: int)

  // The answer a client got for its own request and accepted.
  predicate Accepted(u: Setup, w: World, id: nat, principal: string, key: string) {
    && id in w.side.handlers
    && var h := w.side.handlers[id];
       && h.Finished? && h.request.Some? && h.answer.Success?
       && ReadAnswer(u.formats, h.answer).Ok?
       && (principal, key) in w.store.bindings
       && h.request.value.principalId == principal
       && h.request.value.idempotencyKey
          == PaymentKey(u.config.hash, AppId(u.config.hash, principal, key),
                        h.request.value.minerId, h.request.value.endpoint)
  }

  function BodyAt(u: Setup, w: World, id: nat, principal: string, key: string): Json
    requires Accepted(u, w, id, principal, key)
  {
    w.side.handlers[id].answer.paid.body.value
  }

  // The operation an accepted answer is of.
  function OperationAt(u: Setup, w: World, id: nat, principal: string, key: string): string
    requires Accepted(u, w, id, principal, key)
  {
    w.side.handlers[id].answer.paid.operationId
  }

  function EventOf(w: World, principal: string, key: string): string
    requires (principal, key) in w.store.bindings
  {
    w.store.bindings[(principal, key)].1
  }

  function ClaimFor(hash: string -> string, eventId: string, appId: string, minerId: string, endpoint: string,
                    r: Receipt, body: Json, snapshot: Option<string>): Claim
  {
    Claim(Some(eventId), Some(appId), minerId, endpoint, "telegraph", true, "x402", "settled", "x402_settlement",
          Some(r.status), false, "application", Some(r.attemptId), Some(r.settlementSha256), "verified",
          Some(ReceiptSha256(hash, r, body, snapshot)))
  }

  function ClaimAt(u: Setup, w: World, id: nat, principal: string, key: string, snapshot: Option<string>): Claim
    requires Accepted(u, w, id, principal, key)
  {
    var h := w.side.handlers[id];
    ClaimFor(u.config.hash, EventOf(w, principal, key), AppId(u.config.hash, principal, key),
             h.request.value.minerId, h.request.value.endpoint, ReceiptOf(h.answer.paid),
             BodyAt(u, w, id, principal, key), snapshot)
  }

  function ProjectedEvent(u: Setup, w: World, id: nat, principal: string, key: string, snapshot: Option<string>,
                          now: int)
    : Option<DemandEvent>
    requires Accepted(u, w, id, principal, key)
  {
    CreateEvent(u.config.hash, ClaimAt(u, w, id, principal, key, snapshot), "", now)
  }

  // The demand event of the answer's payment is the one this answer claims: a call whose
  // projection conflicts ends before its reply is stored.
  predicate Stands(u: Setup, w: World, id: nat, principal: string, key: string, snapshot: Option<string>)
    requires Accepted(u, w, id, principal, key)
  {
    var e := ProjectedEvent(u, w, id, principal, key, snapshot, 0);
    e.Some? && e.value.demandId in w.ledger && w.ledger[e.value.demandId].claim == e.value.claim
  }

  function KeptReply(u: Setup, w: World, id: nat, principal: string, key: string, parser: string, details: string)
    : Cases.Reply
    requires Accepted(u, w, id, principal, key)
  {
    Cases.Reply(w.side.handlers[id].request.value.minerId, Some(AppId(u.config.hash, principal, key)),
                BodyAt(u, w, id, principal, key), parser, details)
  }

  // A call that ends in an exception of its own leaves a reply without a response.
  function FailedReply(u: Setup, principal: string, key: string, minerId: string, details: string): Cases.Reply {
    Cases.Reply(minerId, Some(AppId(u.config.hash, principal, key)), Null, FAILURE_PARSER, details)
  }

  function RepliesAt(store: Cases.Store, ids: seq<string>): (rs: seq<Option<Cases.Reply>>)
    requires forall id :: id in ids ==> id in store.replies
    ensures |rs| == |ids| && forall i :: 0 <= i < |ids| ==> rs[i] == Some(store.replies[ids[i]].reply)
  {
    seq(|ids|, i requires 0 <= i < |ids| => Some(store.replies[ids[i]].reply))
  }

  // A decision is sealed with the replies its call had stored for the case.
  predicate MaySeal(w: World, principal: string, key: string, ids: seq<string>) {
    && (principal, key) in w.store.bindings
    && forall id :: id in ids ==> id in w.store.replies && w.store.replies[id].eventId == EventOf(w, principal, key)
  }

  function DecisionFrom(w: World, principal: string, key: string, json: string, ids: seq<string>, decidedAt: string)
    : Cases.Decision
    requires MaySeal(w, principal, key, ids)
  {
    Cases.Decision(Some(EventOf(w, principal, key)), json, Some(RepliesAt(w.store, ids)), Some(decidedAt), true, true)
  }

  function Next(u: Setup, w: World, m: Move): World {
    match m
    case Side(a) => w.(side := Step(u.config, w.side, a))
    case Bind(principal, key, sha, eventId) => w.(store := Cases.Bind(w.store, principal, key, sha, eventId).1)
    case Open(q) => w.(store := Cases.Create(w.store, q).1)
    case Project(id, principal, key, snapshot, now) =>
      if !Accepted(u, w, id, principal, key) then w
      else match ProjectedEvent(u, w, id, principal, key, snapshot, now) {
        case None => w
        case Some(e) => w.(ledger := Appended(w.ledger, e).1)
      }
    case Keep(id, principal, key, snapshot, parser, details) =>
      if !Accepted(u, w, id, principal, key) || !Stands(u, w, id, principal, key, snapshot) then w
      else
        var r := KeptReply(u, w, id, principal, key, parser, details);
        w.(store := Cases.RecordReply(w.store, u.config.hash, EventOf(w, principal, key), r).1)
    case KeepFailure(principal, key, minerId, details) =>
      if (principal, key) !in w.store.bindings then w
      else
        var r := FailedReply(u, principal, key, minerId, details);
        w.(store := Cases.RecordReply(w.store, u.config.hash, EventOf(w, principal, key), r).1)
    case Seal(principal, key, json, ids, decidedAt, now) =>
      if !MaySeal(w, principal, key, ids) then w
      else
        var d := DecisionFrom(w, principal, key, json, ids, decidedAt);
        w.(store := Cases.SealDecision(w.store, u.config.hash, EventOf(w, principal, key), d, now).1)
  }

  function After(u: Setup, w: World, moves: seq<Move>): World
    decreases |moves|
  {
    if moves == [] then w else After(u, Next(u, w, moves[0]), moves[1..])
  }

  function SideActions(moves: seq<Move>): seq<Action>
    decreases |moves|
  {
    if moves == [] then []
    else (if moves[0].Side? then [moves[0].action] else []) + SideActions(moves[1..])
  }

  // The sidecar inside the system runs as it would alone.
  lemma {:induction false} SideRunsAlone(u: Setup, w: World, moves: seq<Move>)
    ensures After(u, w, moves).side == Run(u.config, w.side, SideActions(moves))
    decreases |moves|
  {
    hide Step, Appended, Accepted, ProjectedEvent, Stands, KeptReply, MaySeal, Cases.SealDecision, Cases.RecordReply;
    if moves != [] {
      SideRunsAlone(u, Next(u, w, moves[0]), moves[1..]);
      if moves[0].Side? {
        assert SideActions(moves)[1..] == SideActions(moves[1..]);
      } else {
        assert SideActions(moves) == SideActions(moves[1..]);
      }
    }
  }
}
