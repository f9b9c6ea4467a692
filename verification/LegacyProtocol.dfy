// Many legacy clients over one journal: every run sends at most one payment proof for a
// URL, within the caps, although an aborted URL may be reserved again without limit.
module LegacyProtocol {
  import opened Prelude
  import opened LegacyPayment

  datatype Outcome = Returned | OutcomeUnknown | Failed

  datatype Client =
    | Probing(url: string)
    | Signing(authorization: Authorization)
    | Submitting(authorization: Authorization)
    | Sending(authorization: Authorization)
    | Waiting(authorization: Authorization)
    // `sent`: the proof was sent.
    | Finished(url: string, outcome: Outcome, sent: bool)

  datatype Proof = Proof(url: string, amount: int)

  datatype World = World(table: Table, clients: map<nat, Client>, proofs: seq<Proof>)

  const BEGINNING := World([], map[], [])

  // The unpaid answer: none needed, none usable, or a challenge whose option passed.
  datatype FirstReply = NoPaymentNeeded(ok: bool) | Unusable | Approved(authorization: Authorization)

  // The paid answer and what the settlement verifier makes of it.
  datatype PaidReply = TransportFailed | NoSettlementHeader | VerifierThrew | NotVerified | Verified(artifact: string)

  datatype Action =
    | Begin(id: nat, url: string)
    | Answer(id: nat, first: FirstReply, fault: Fault, now: int)
    | Sign(id: nat, signed: bool, fault: Fault, now: int)
    | Submit(id: nat, fault: Fault, now: int)
    | Send(id: nat)
    | Reply(id: nat, paid: PaidReply, fault: Fault, now: int)
    | Die(id: nat)

  function Stored(t: Table, call: (Option<LegacyError>, Table), fault: Fault): (Option<LegacyError>, Table) {
    match fault
    case Clean => call
    case RolledBack => (Some(StorageError), t)
    case CommittedThenThrew => (Some(StorageError), call.1)
  }

  function Moved(w: World, id: nat, t: Table, c: Client): World { w.(table := t, clients := w.clients[id := c]) }

  function Step(caps: Caps, w: World, a: Action): World {
    match a
    case Begin(id, url) =>
      if id in w.clients then w
      else if Available(w.table, url, caps, 0).Some? then Moved(w, id, w.table, Finished(url, Failed, false))
      else Moved(w, id, w.table, Probing(url))
    case Die(id) => w.(clients := w.clients - {id})
    case _ => if a.id in w.clients then ClientStep(caps, w, a, w.clients[a.id]) else w
  }

  function ClientStep(caps: Caps, w: World, a: Action, c: Client): World {
    match (a, c)
    case (Answer(id, first, fault, now), Probing(url)) => AnswerStep(caps, w, id, url, first, fault, now)
    case (Sign(id, signed, fault, now), Signing(auth)) =>
      if signed then Moved(w, id, w.table, Submitting(auth))
      else
        var (_, t) := Stored(w.table, Transitioned(w.table, auth.url, RESERVED, ABORTED, None, Some("signer"), now),
                             fault);
        Moved(w, id, t, Finished(auth.url, Failed, false))
    case (Submit(id, fault, now), Submitting(auth)) =>
      var (e, t) := Stored(w.table, Transitioned(w.table, auth.url, RESERVED, SUBMITTED, None, None, now), fault);
      Moved(w, id, t, if e.None? then Sending(auth) else Finished(auth.url, Failed, false))
    case (Send(id), Sending(auth)) =>
      Moved(w, id, w.table, Waiting(auth)).(proofs := w.proofs + [Proof(auth.url, auth.amount)])
    case (Reply(id, paid, fault, now), Waiting(auth)) => ReplyStep(w, id, auth, paid, fault, now)
    case _ => w
  }

  function AnswerStep(caps: Caps, w: World, id: nat, url: string, first: FirstReply, fault: Fault, now: int): World {
    match first
    case NoPaymentNeeded(ok) =>
      Moved(w, id, w.table, Finished(url, if ok then Returned else Failed, false))
    case Unusable => Moved(w, id, w.table, Finished(url, Failed, false))
    case Approved(auth) =>
      if auth.url != url || auth.amount < MINIMUM_USDC_MICROUNITS then w
      else
        var (e, t) := Stored(w.table, Reserved(w.table, auth, caps, now), fault);
        Moved(w, id, t, if e.None? then Signing(auth) else Finished(url, Failed, false))
  }

  // After the proof was sent: settled, or unknown; only a failing write says otherwise.
  function ReplyStep(w: World, id: nat, auth: Authorization, paid: PaidReply, fault: Fault, now: int): World {
    var to := if paid.Verified? then SETTLED else UNKNOWN;
    var evidence := if paid.Verified? then Some(paid.artifact) else None;
    var error := if paid.Verified? then None else Some("unknown");
    var (e, t) := Stored(w.table, Transitioned(w.table, auth.url, SUBMITTED, to, evidence, error, now), fault);
    Moved(w, id, t,
          if paid.Verified? then Finished(auth.url, if e.None? then Returned else OutcomeUnknown, true)
          else Finished(auth.url, if e.None? then OutcomeUnknown else Failed, true))
  }

  function Run(caps: Caps, w: World, actions: seq<Action>): World
    decreases |actions|
  {
    if actions == [] then w else Run(caps, Step(caps, w, actions[0]), actions[1..])
  }

  // -------------------------------------------------------------------- the invariant

  ghost predicate UrlsDiffer(t: Table) {
    forall i, k :: 0 <= i < k < |t| ==> t[i].authorization.url != t[k].authorization.url
  }

  ghost predicate TableOk(caps: Caps, t: Table) {
    && UrlsDiffer(t)
    && (forall i :: 0 <= i < |t| ==> t[i].authorization.amount >= 0)
    && BlockingCount(t) <= caps.count && BlockingTotal(t) <= caps.total
  }

  predicate Holds(t: Table, auth: Authorization, status: Status) {
    Find(t, auth.url).Some? && Find(t, auth.url).value.status == status
    && Find(t, auth.url).value.authorization == auth
  }

  ghost predicate Proved(proofs: seq<Proof>, url: string) {
    exists i :: 0 <= i < |proofs| && proofs[i].url == url
  }

  ghost predicate ClientOk(t: Table, proofs: seq<Proof>, c: Client) {
    match c
    case Probing(_) => true
    case Signing(auth) => Holds(t, auth, RESERVED)
    case Submitting(auth) => Holds(t, auth, RESERVED)
    case Sending(auth) => Holds(t, auth, SUBMITTED) && !Proved(proofs, auth.url)
    case Waiting(auth) => Holds(t, auth, SUBMITTED)
    case Finished(url, outcome, sent) =>
      sent && outcome == Returned ==> Find(t, url).Some? && Find(t, url).value.status == SETTLED
  }

  function OwnerOf(c: Client): Option<string> {
    match c
    case Signing(auth) => Some(auth.url)
    case Submitting(auth) => Some(auth.url)
    case Sending(auth) => Some(auth.url)
    case Waiting(auth) => Some(auth.url)
    case _ => None
  }

  ghost predicate ProofsOk(t: Table, proofs: seq<Proof>) {
    && (forall i, k :: 0 <= i < k < |proofs| ==> proofs[i].url != proofs[k].url)
    && (forall i :: 0 <= i < |proofs| ==> ProofOk(t, proofs[i]))
  }

  ghost predicate ProofOk(t: Table, p: Proof) {
    && Find(t, p.url).Some?
    && Find(t, p.url).value.status in {SUBMITTED, SETTLED, UNKNOWN}
    && Find(t, p.url).value.authorization.amount == p.amount
  }

  ghost predicate Unowned(w: World, url: string) {
    forall id :: id in w.clients ==> OwnerOf(w.clients[id]) != Some(url)
  }

  ghost predicate Inv(caps: Caps, w: World) {
    && TableOk(caps, w.table)
    && ProofsOk(w.table, w.proofs)
    && (forall id :: id in w.clients ==> ClientOk(w.table, w.proofs, w.clients[id]))
    && (forall a, b :: a in w.clients && b in w.clients && a != b && OwnerOf(w.clients[a]).Some? ==>
          OwnerOf(w.clients[a]) != OwnerOf(w.clients[b]))
  }

  // ------------------------------------------------------------------ the table moves

  // Only one URL's row differs.
  ghost predicate OnlyUrl(t: Table, u: Table, url: string) {
    forall o :: o != url ==> Find(u, o) == Find(t, o)
  }

  lemma {:induction false} FindHas(t: Table, url: string)
    ensures Find(t, url).Some? <==> exists i :: 0 <= i < |t| && t[i].authorization.url == url
    ensures Find(t, url).Some? ==> Find(t, url).value in t && Find(t, url).value.authorization.url == url
  {
    if t != [] && t[0].authorization.url != url {
      FindHas(t[1..], url);
      if i :| 0 <= i < |t| && t[i].authorization.url == url { assert t[1..][i - 1] == t[i]; }
      if i :| 0 <= i < |t[1..]| && t[1..][i].authorization.url == url { assert t[i + 1] == t[1..][i]; }
    }
  }

  lemma {:induction false} ReplaceFinds(t: Table, row: Row, o: string)
    requires Find(t, row.authorization.url).Some?
    ensures Find(Replace(t, row), o) == if o == row.authorization.url then Some(row) else Find(t, o)
  {
    if t[0].authorization.url != row.authorization.url { ReplaceFinds(t[1..], row, o); }
  }

  lemma {:induction false} ReplaceCounts(t: Table, row: Row)
    requires UrlsDiffer(t) && Find(t, row.authorization.url).Some?
    ensures var old_ := Find(t, row.authorization.url).value;
      && BlockingCount(Replace(t, row))
           == BlockingCount(t) - (if Blocking(old_) then 1 else 0) + (if Blocking(row) then 1 else 0)
      && BlockingTotal(Replace(t, row))
           == BlockingTotal(t) - (if Blocking(old_) then old_.authorization.amount else 0)
              + (if Blocking(row) then row.authorization.amount else 0)
      && |Replace(t, row)| == |t|
      && forall i :: 0 <= i < |t| ==>
           Replace(t, row)[i] == if t[i].authorization.url == row.authorization.url then row else t[i]
  {
    if t[0].authorization.url != row.authorization.url {
      ReplaceCounts(t[1..], row);
    }
  }

  lemma {:induction false} RemoveFinds(t: Table, url: string, o: string)
    requires UrlsDiffer(t)
    ensures Find(Remove(t, url), o) == if o == url then None else Find(t, o)
    ensures UrlsDiffer(Remove(t, url))
    ensures forall row :: row in Remove(t, url) ==> row in t && row.authorization.url != url
  {
    if t != [] {
      if t[0].authorization.url == url {
        FindHas(t[1..], url);
        forall row | row in t[1..] ensures row in t && row.authorization.url != url {
          var i :| 0 <= i < |t[1..]| && t[1..][i] == row;
          assert t[i + 1] == row;
        }
      } else {
        RemoveFinds(t[1..], url, o);
        var rest := Remove(t[1..], url);
        forall i | 0 <= i < |rest| ensures rest[i].authorization.url != t[0].authorization.url {
          assert rest[i] in rest && rest[i] in t[1..];
          var k :| 0 <= k < |t[1..]| && t[1..][k] == rest[i];
          assert t[k + 1] == rest[i];
        }
        assert forall row :: row in t[1..] ==> row in t;
      }
    }
  }

  lemma {:induction false} RemoveCounts(t: Table, url: string)
    requires Find(t, url).Some? ==> !Blocking(Find(t, url).value)
    ensures BlockingCount(Remove(t, url)) == BlockingCount(t) && BlockingTotal(Remove(t, url)) == BlockingTotal(t)
  {
    if t != [] && t[0].authorization.url != url { RemoveCounts(t[1..], url); }
  }

  lemma {:induction false} AppendFinds(t: Table, row: Row, o: string)
    requires Find(t, row.authorization.url).None?
    ensures Find(t + [row], o) == if o == row.authorization.url then Some(row) else Find(t, o)
    ensures BlockingCount(t + [row]) == BlockingCount(t) + if Blocking(row) then 1 else 0
    ensures BlockingTotal(t + [row]) == BlockingTotal(t) + if Blocking(row) then row.authorization.amount else 0
  {
    if t == [] {
      assert [row][1..] == [];
    } else {
      assert (t + [row])[1..] == t[1..] + [row];
      AppendFinds(t[1..], row, o);
    }
  }

  // A reservation puts one fresh row in the table inside the caps, or changes nothing.
  lemma ReservedIsOk(caps: Caps, t: Table, a: Authorization, now: int)
    requires TableOk(caps, t) && a.amount >= 0
    ensures var (e, u) := Reserved(t, a, caps, now);
      && TableOk(caps, u) && OnlyUrl(t, u, a.url)
      && (e.Some? ==> u == t)
      && (e.None? ==> Holds(u, a, RESERVED) && (Find(t, a.url).None? || Find(t, a.url).value.status == ABORTED))
  {
    var (e, u) := Reserved(t, a, caps, now);
    if e.None? {
      var row := Row(a, RESERVED, None, None, now, now);
      var rest := Remove(t, a.url);
      forall o ensures Find(u, o) == if o == a.url then Some(row) else Find(t, o) {
        RemoveFinds(t, a.url, o);
        RemoveFinds(t, a.url, a.url);
        AppendFinds(rest, row, o);
      }
      RemoveCounts(t, a.url);
      RemoveFinds(t, a.url, a.url);
      AppendFinds(rest, row, a.url);
      ReservedShape(t, a, row);
    }
  }

  lemma ReservedShape(t: Table, a: Authorization, row: Row)
    requires UrlsDiffer(t) && row.authorization == a && a.amount >= 0
    requires forall i :: 0 <= i < |t| ==> t[i].authorization.amount >= 0
    ensures var u := Remove(t, a.url) + [row];
      UrlsDiffer(u) && forall i :: 0 <= i < |u| ==> u[i].authorization.amount >= 0
  {
    RemoveFinds(t, a.url, a.url);
    var rest := Remove(t, a.url);
    forall i | 0 <= i < |rest| ensures rest[i] in t && rest[i].authorization.url != a.url {
      assert rest[i] in rest;
    }
  }

  // A transition moves one row, or changes nothing.
  lemma TransitionedIsOk(caps: Caps, t: Table, url: string, from: Status, to: Status, evidence: Option<string>,
                         error: Option<string>, now: int)
    requires TableOk(caps, t) && from != ABORTED
    ensures var (e, u) := Transitioned(t, url, from, to, evidence, error, now);
      && TableOk(caps, u) && OnlyUrl(t, u, url)
      && (e.None? <==> Find(t, url).Some? && Find(t, url).value.status == from)
      && (e.Some? ==> u == t)
      && (e.None? ==> Find(u, url).Some? && Find(u, url).value.status == to
                      && Find(u, url).value.authorization == Find(t, url).value.authorization)
  {
    var (e, u) := Transitioned(t, url, from, to, evidence, error, now);
    if e.None? {
      FindHas(t, url);
      var row := Find(t, url).value.(status := to, evidence := evidence, error := error, updatedAt := now);
      forall o ensures Find(u, o) == if o == url then Some(row) else Find(t, o) { ReplaceFinds(t, row, o); }
      ReplaceCounts(t, row);
    }
  }

  // ------------------------------------------------------------------------ the steps

  function Without(w: World, id: nat): World { w.(clients := w.clients - {id}) }

  // The table moved at a URL whose owner is set aside, and the client moved on.
  lemma MoveKeeps(caps: Caps, w: World, id: nat, t: Table, url: string, c: Client)
    requires Inv(caps, w) && TableOk(caps, t) && OnlyUrl(w.table, t, url)
    requires Unowned(Without(w, id), url) || t == w.table
    requires Find(w.table, url).Some? && Find(w.table, url).value.status in {SUBMITTED, SETTLED, UNKNOWN} ==>
               Find(t, url).Some? && Find(t, url).value.status in {SUBMITTED, SETTLED, UNKNOWN}
               && Find(t, url).value.authorization == Find(w.table, url).value.authorization
    requires Find(w.table, url).Some? && Find(w.table, url).value.status == SETTLED ==>
               Find(t, url) == Find(w.table, url)
    requires ClientOk(t, w.proofs, c) && (OwnerOf(c).Some? ==> OwnerOf(c) == Some(url) && Unowned(Without(w, id), url))
    ensures Inv(caps, Moved(w, id, t, c))
  {
    hide TableOk, Find, ClientOk, ProofOk, Holds, Proved;
    var v := Moved(w, id, t, c);
    assert forall i :: i in v.clients && i != id ==>
                         i in Without(w, id).clients && Without(w, id).clients[i] == v.clients[i];
    forall i | i in v.clients ensures ClientOk(t, w.proofs, v.clients[i]) {
      if i != id { OtherClientKeeps(w.table, t, w.proofs, url, v.clients[i]); }
    }
    forall i | 0 <= i < |w.proofs| ensures ProofOk(t, w.proofs[i]) {
      ProofKeeps(w.table, t, url, w.proofs[i]);
    }
  }

  // A client does not notice a move of a row it does not own, but for one settled.
  lemma OtherClientKeeps(t: Table, u: Table, proofs: seq<Proof>, url: string, c: Client)
    requires ClientOk(t, proofs, c) && OnlyUrl(t, u, url) && (OwnerOf(c) != Some(url) || u == t)
    requires Find(t, url).Some? && Find(t, url).value.status == SETTLED ==> Find(u, url) == Find(t, url)
    ensures ClientOk(u, proofs, c)
  {
    hide Find;
  }

  lemma ProofKeeps(t: Table, u: Table, url: string, p: Proof)
    requires ProofOk(t, p) && OnlyUrl(t, u, url)
    requires Find(t, url).Some? && Find(t, url).value.status in {SUBMITTED, SETTLED, UNKNOWN} ==>
               Find(u, url).Some? && Find(u, url).value.status in {SUBMITTED, SETTLED, UNKNOWN}
               && Find(u, url).value.authorization == Find(t, url).value.authorization
    ensures ProofOk(u, p)
  {
    hide Find;
  }

  lemma OwnRowIsUnowned(caps: Caps, w: World, id: nat, url: string)
    requires Inv(caps, w) && id in w.clients
    requires OwnerOf(w.clients[id]) == Some(url)
    ensures Unowned(Without(w, id), url)
  {
  }

  lemma FreeUrlIsUnowned(caps: Caps, w: World, id: nat, url: string)
    requires Inv(caps, w) && (Find(w.table, url).None? || Find(w.table, url).value.status == ABORTED)
    ensures Unowned(Without(w, id), url)
  {
    hide Find, TableOk;
  }

  lemma StayKeeps(caps: Caps, w: World, id: nat, c: Client)
    requires Inv(caps, w) && ClientOk(w.table, w.proofs, c)
    requires OwnerOf(c).None? || (id in w.clients && OwnerOf(w.clients[id]) == OwnerOf(c))
    ensures Inv(caps, Moved(w, id, w.table, c))
  {
    hide TableOk, Find, ProofsOk, ClientOk, OwnerOf;
  }

  lemma AnswerKeeps(caps: Caps, w: World, id: nat, url: string, first: FirstReply, fault: Fault, now: int)
    requires Inv(caps, w) && id in w.clients && w.clients[id] == Probing(url)
    ensures Inv(caps, AnswerStep(caps, w, id, url, first, fault, now))
  {
    hide Inv, Reserved, Find, TableOk, OnlyUrl, Unowned;
    InvTable(caps, w);
    if first.Approved? && first.authorization.url == url && first.authorization.amount >= MINIMUM_USDC_MICROUNITS {
      var auth := first.authorization;
      ReservedIsOk(caps, w.table, auth, now);
      var (e, t) := Stored(w.table, Reserved(w.table, auth, caps, now), fault);
      var c := if e.None? then Signing(auth) else Finished(url, Failed, false);
      if t == w.table && e.Some? {
        StayKeeps(caps, w, id, c);
      } else {
        FreeUrlIsUnowned(caps, w, id, url);
        MoveKeeps(caps, w, id, t, url, c);
      }
    } else if first.NoPaymentNeeded? {
      StayKeeps(caps, w, id, Finished(url, if first.ok then Returned else Failed, false));
    } else if first.Unusable? {
      StayKeeps(caps, w, id, Finished(url, Failed, false));
    }
  }

  lemma InvTable(caps: Caps, w: World)
    requires Inv(caps, w)
    ensures TableOk(caps, w.table)
    ensures ProofsOk(w.table, w.proofs)
    ensures forall id :: id in w.clients ==> ClientOk(w.table, w.proofs, w.clients[id])
  {
  }

  // A transition of the client's own row.
  lemma OwnTransitionKeeps(caps: Caps, w: World, id: nat, auth: Authorization, from: Status, to: Status,
                           evidence: Option<string>, error: Option<string>, fault: Fault, now: int, c: Client)
    requires Inv(caps, w) && id in w.clients && OwnerOf(w.clients[id]) == Some(auth.url)
    requires Holds(w.table, auth, from) && from in {RESERVED, SUBMITTED}
    requires from == SUBMITTED ==> to in {SETTLED, UNKNOWN}
    requires var (e, t) := Stored(w.table, Transitioned(w.table, auth.url, from, to, evidence, error, now), fault);
      ClientOk(t, w.proofs, c) && (OwnerOf(c).Some? ==> OwnerOf(c) == Some(auth.url))
    ensures var (e, t) := Stored(w.table, Transitioned(w.table, auth.url, from, to, evidence, error, now), fault);
      Inv(caps, Moved(w, id, t, c))
  {
    hide Inv, Transitioned, Find, TableOk, OnlyUrl, Unowned, ClientOk;
    InvTable(caps, w);
    TransitionedIsOk(caps, w.table, auth.url, from, to, evidence, error, now);
    OwnRowIsUnowned(caps, w, id, auth.url);
    var (e, t) := Stored(w.table, Transitioned(w.table, auth.url, from, to, evidence, error, now), fault);
    assert OnlyUrl(w.table, w.table, auth.url) by { OnlySelf(w.table, auth.url); }
    MoveKeeps(caps, w, id, t, auth.url, c);
  }

  lemma OnlySelf(t: Table, url: string)
    ensures OnlyUrl(t, t, url)
  {
  }

  // What its own row is after a transition by its owner.
  lemma OwnTransition(caps: Caps, t: Table, auth: Authorization, from: Status, to: Status,
                      evidence: Option<string>, error: Option<string>, fault: Fault, now: int)
    requires TableOk(caps, t) && Holds(t, auth, from) && from != ABORTED
    ensures var (e, u) := Stored(t, Transitioned(t, auth.url, from, to, evidence, error, now), fault);
      && (e.None? ==> Holds(u, auth, to))
      && (e.None? <==> fault == Clean)
  {
    hide Transitioned, Find, TableOk, OnlyUrl;
    TransitionedIsOk(caps, t, auth.url, from, to, evidence, error, now);
  }

  lemma SendKeeps(caps: Caps, w: World, id: nat, auth: Authorization)
    requires Inv(caps, w) && id in w.clients && w.clients[id] == Sending(auth)
    ensures Inv(caps, Moved(w, id, w.table, Waiting(auth)).(proofs := w.proofs + [Proof(auth.url, auth.amount)]))
  {
    hide TableOk, Find;
    var v := Moved(w, id, w.table, Waiting(auth)).(proofs := w.proofs + [Proof(auth.url, auth.amount)]);
    assert ClientOk(w.table, w.proofs, w.clients[id]);
    forall i | i in v.clients ensures ClientOk(v.table, v.proofs, v.clients[i]) {
      if i != id {
        assert ClientOk(w.table, w.proofs, w.clients[i]) && v.clients[i] == w.clients[i];
        assert OwnerOf(w.clients[id]) != OwnerOf(w.clients[i]);
      }
    }
  }

  lemma StepKeeps(caps: Caps, w: World, a: Action)
    requires Inv(caps, w)
    ensures Inv(caps, Step(caps, w, a))
  {
    hide Inv, AnswerStep, Find, TableOk, Transitioned, Available, Unowned, Holds;
    InvTable(caps, w);
    match a {
      case Begin(id, url) =>
        if id !in w.clients {
          var refused := Available(w.table, url, caps, 0).Some?;
          StayKeeps(caps, w, id, if refused then Finished(url, Failed, false) else Probing(url));
        }
      case Die(id) => DieKeeps(caps, w, id);
      case _ =>
        if a.id in w.clients {
          assert ClientOk(w.table, w.proofs, w.clients[a.id]);
          match (a, w.clients[a.id]) {
            case (Answer(id, first, fault, now), Probing(url)) => AnswerKeeps(caps, w, id, url, first, fault, now);
            case (Sign(id, signed, fault, now), Signing(auth)) =>
              if signed { StayKeeps(caps, w, id, Submitting(auth)); }
              else {
                OwnTransitionKeeps(caps, w, id, auth, RESERVED, ABORTED, None, Some("signer"), fault, now,
                                   Finished(auth.url, Failed, false));
              }
            case (Submit(id, fault, now), Submitting(auth)) => SubmitKeeps(caps, w, id, auth, fault, now);
            case (Send(id), Sending(auth)) => SendKeeps(caps, w, id, auth);
            case (Reply(id, paid, fault, now), Waiting(auth)) => ReplyKeeps(caps, w, id, auth, paid, fault, now);
            case _ =>
          }
        }
    }
  }

  lemma DieKeeps(caps: Caps, w: World, id: nat)
    requires Inv(caps, w)
    ensures Inv(caps, Without(w, id))
  {
    hide TableOk, ProofsOk, ClientOk, OwnerOf;
  }

  lemma SubmitKeeps(caps: Caps, w: World, id: nat, auth: Authorization, fault: Fault, now: int)
    requires Inv(caps, w) && id in w.clients && w.clients[id] == Submitting(auth)
    ensures var (e, t) := Stored(w.table, Transitioned(w.table, auth.url, RESERVED, SUBMITTED, None, None, now), fault);
      Inv(caps, Moved(w, id, t, if e.None? then Sending(auth) else Finished(auth.url, Failed, false)))
  {
    hide Inv, Find, TableOk, Transitioned, Holds, ProofsOk;
    InvTable(caps, w);
    assert ClientOk(w.table, w.proofs, w.clients[id]);
    ReservedIsUnproved(w.table, w.proofs, auth);
    OwnTransition(caps, w.table, auth, RESERVED, SUBMITTED, None, None, fault, now);
    var (e, t) := Stored(w.table, Transitioned(w.table, auth.url, RESERVED, SUBMITTED, None, None, now), fault);
    OwnTransitionKeeps(caps, w, id, auth, RESERVED, SUBMITTED, None, None, fault, now,
                       if e.None? then Sending(auth) else Finished(auth.url, Failed, false));
  }

  lemma ReservedIsUnproved(t: Table, proofs: seq<Proof>, auth: Authorization)
    requires ProofsOk(t, proofs) && Holds(t, auth, RESERVED)
    ensures !Proved(proofs, auth.url)
  {
    hide Find;
  }

  lemma ReplyKeeps(caps: Caps, w: World, id: nat, auth: Authorization, paid: PaidReply, fault: Fault, now: int)
    requires Inv(caps, w) && id in w.clients && w.clients[id] == Waiting(auth)
    ensures Inv(caps, ReplyStep(w, id, auth, paid, fault, now))
  {
    hide Inv, Find, TableOk, Transitioned, ProofsOk;
    InvTable(caps, w);
    assert ClientOk(w.table, w.proofs, w.clients[id]);
    var to := if paid.Verified? then SETTLED else UNKNOWN;
    var evidence := if paid.Verified? then Some(paid.artifact) else None;
    var error := if paid.Verified? then None else Some("unknown");
    OwnTransition(caps, w.table, auth, SUBMITTED, to, evidence, error, fault, now);
    OwnTransitionKeeps(caps, w, id, auth, SUBMITTED, to, evidence, error, fault, now,
                       ReplyStep(w, id, auth, paid, fault, now).clients[id]);
  }

  // ------------------------------------------------------------------------ whole runs

  lemma {:induction false} RunKeeps(caps: Caps, w: World, actions: seq<Action>)
    requires Inv(caps, w)
    ensures Inv(caps, Run(caps, w, actions))
    decreases |actions|
  {
    hide Inv, Step;
    if actions != [] {
      StepKeeps(caps, w, actions[0]);
      RunKeeps(caps, Step(caps, w, actions[0]), actions[1..]);
    }
  }

  lemma BeginningIsOk(caps: Caps)
    requires caps.count >= 0 && caps.total >= 0
    ensures Inv(caps, BEGINNING)
  {
  }

  function Spent(proofs: seq<Proof>): int {
    if proofs == [] then 0 else proofs[0].amount + Spent(proofs[1..])
  }

  lemma {:induction false} SpentSplits(proofs: seq<Proof>, i: nat)
    requires i < |proofs|
    ensures Spent(proofs) == proofs[i].amount + Spent(proofs[..i] + proofs[i + 1..])
  {
    if i == 0 {
      assert proofs[..0] + proofs[1..] == proofs[1..];
    } else {
      SpentSplits(proofs[1..], i - 1);
      assert (proofs[..i] + proofs[i + 1..])[1..] == proofs[1..][..i - 1] + proofs[1..][i..];
    }
  }

  lemma {:induction false} SpentWithin(t: Table, proofs: seq<Proof>)
    requires UrlsDiffer(t) && ProofsOk(t, proofs)
    requires forall i :: 0 <= i < |t| ==> t[i].authorization.amount >= 0
    ensures Spent(proofs) <= BlockingTotal(t) && |proofs| <= BlockingCount(t)
  {
    assert forall i :: 0 <= i < |proofs| ==> ProofOk(t, proofs[i]);
    if t == [] {
    } else if i :| 0 <= i < |proofs| && proofs[i].url == t[0].authorization.url {
      var rest := proofs[..i] + proofs[i + 1..];
      SpentSplits(proofs, i);
      assert ProofOk(t, proofs[i]);
      forall n | 0 <= n < |rest| ensures ProofOk(t[1..], rest[n]) && rest[n].url != t[0].authorization.url {
        var m := if n < i then n else n + 1;
        assert rest[n] == proofs[m] && ProofOk(t, proofs[m]);
      }
      SpentWithin(t[1..], rest);
    } else {
      forall n | 0 <= n < |proofs| ensures ProofOk(t[1..], proofs[n]) {
        assert ProofOk(t, proofs[n]);
      }
      SpentWithin(t[1..], proofs);
    }
  }

  // Over every run: one payment proof at most per URL, all of them within the rows that
  // block, and those within the caps.
  lemma AtMostOneProof(caps: Caps, actions: seq<Action>)
    requires caps.count >= 0 && caps.total >= 0
    ensures var w := Run(caps, BEGINNING, actions);
      && (forall i, k :: 0 <= i < k < |w.proofs| ==> w.proofs[i].url != w.proofs[k].url)
      && |w.proofs| <= BlockingCount(w.table) <= caps.count
      && Spent(w.proofs) <= BlockingTotal(w.table) <= caps.total
  {
    hide Run, Find;
    BeginningIsOk(caps);
    RunKeeps(caps, BEGINNING, actions);
    var w := Run(caps, BEGINNING, actions);
    SpentWithin(w.table, w.proofs);
  }

  // A response returned after a proof was sent has a settled row.
  lemma ReturnedMeansSettled(caps: Caps, actions: seq<Action>, id: nat)
    requires caps.count >= 0 && caps.total >= 0
    requires id in Run(caps, BEGINNING, actions).clients
    requires var c := Run(caps, BEGINNING, actions).clients[id]; c.Finished? && c.sent
    ensures var w := Run(caps, BEGINNING, actions);
      var c := w.clients[id];
      c.outcome == Returned ==> Find(w.table, c.url).Some? && Find(w.table, c.url).value.status == SETTLED
  {
    hide Run, Find, TableOk, ProofsOk, OwnerOf;
    BeginningIsOk(caps);
    RunKeeps(caps, BEGINNING, actions);
  }

  // How a client that sent its proof ends. Nobody else moves its row, so a write can only
  // fail by throwing: the client takes the payment for a plain failure exactly when the
  // answer is not verified and the write that records so throws.
  lemma ReplyFailsExactly(caps: Caps, w: World, id: nat, auth: Authorization, paid: PaidReply, fault: Fault, now: int)
    requires Inv(caps, w) && id in w.clients && w.clients[id] == Waiting(auth)
    ensures var v := Step(caps, w, Reply(id, paid, fault, now));
      && id in v.clients && v.clients[id].Finished? && v.clients[id].sent
      && (v.clients[id].outcome == Failed <==> !paid.Verified? && fault != Clean)
      && (v.clients[id].outcome == Returned <==> paid.Verified? && fault == Clean)
  {
    hide Inv, Find, TableOk, Transitioned, ProofsOk;
    InvTable(caps, w);
    assert ClientOk(w.table, w.proofs, w.clients[id]);
    var to := if paid.Verified? then SETTLED else UNKNOWN;
    var evidence := if paid.Verified? then Some(paid.artifact) else None;
    var error := if paid.Verified? then None else Some("unknown");
    OwnTransition(caps, w.table, auth, SUBMITTED, to, evidence, error, fault, now);
  }

  // The step that shows the exception: a transport failure whose record is rolled back
  // ends as a plain failure, with the proof sent and the row still submitted.
  lemma UnrecordedOutcomeFails(caps: Caps, w: World, id: nat, auth: Authorization, now: int)
    requires Inv(caps, w) && id in w.clients && w.clients[id] == Waiting(auth)
    ensures var v := Step(caps, w, Reply(id, TransportFailed, RolledBack, now));
      && id in v.clients && v.clients[id] == Finished(auth.url, Failed, true)
      && v.table == w.table && Holds(v.table, auth, SUBMITTED)
  {
    hide Inv, Find, TableOk, Transitioned, ProofsOk, Holds;
    InvTable(caps, w);
    assert ClientOk(w.table, w.proofs, w.clients[id]);
  }

  // The cycle of the state graph: an aborted URL can be reserved again whenever the caps
  // allow a further row.
  lemma AbortedCanBeReservedAgain(caps: Caps, t: Table, a: Authorization, now: int)
    requires TableOk(caps, t) && a.amount >= 0 && Find(t, a.url).Some? && Find(t, a.url).value.status == ABORTED
    ensures Reserved(t, a, caps, now).0.None?
            <==> BlockingCount(t) < caps.count && BlockingTotal(t) + a.amount <= caps.total
    ensures Reserved(t, a, caps, now).0.None? ==>
              var u := Reserved(t, a, caps, now).1;
              Holds(u, a, RESERVED) && BlockingCount(u) == BlockingCount(t) + 1
  {
    hide TableOk;
    if Reserved(t, a, caps, now).0.None? {
      ReservedIsOk(caps, t, a, now);
      AbortedReplaced(caps, t, a, now);
    }
  }

  lemma AbortedReplaced(caps: Caps, t: Table, a: Authorization, now: int)
    requires TableOk(caps, t) && Find(t, a.url).Some? && Find(t, a.url).value.status == ABORTED
    ensures BlockingCount(Remove(t, a.url) + [Row(a, RESERVED, None, None, now, now)]) == BlockingCount(t) + 1
  {
    RemoveCounts(t, a.url);
    RemoveFinds(t, a.url, a.url);
    AppendFinds(Remove(t, a.url), Row(a, RESERVED, None, None, now, now), a.url);
  }

  // The other side of safety: with room and no fault, an approved challenge leads to one
  // more proof, and a verified settlement to a returned response.
  lemma CleanRunPays(caps: Caps, w: World, id: nat, auth: Authorization, artifact: string, now: int)
    requires Inv(caps, w) && id in w.clients && w.clients[id] == Probing(auth.url)
    requires auth.amount >= MINIMUM_USDC_MICROUNITS && Available(w.table, auth.url, caps, auth.amount).None?
    ensures var a := Step(caps, w, Answer(id, Approved(auth), Clean, now));
      var b := Step(caps, Step(caps, a, Sign(id, true, Clean, now)), Submit(id, Clean, now));
      var d := Step(caps, Step(caps, b, Send(id)), Reply(id, Verified(artifact), Clean, now));
      && d.proofs == w.proofs + [Proof(auth.url, auth.amount)]
      && id in d.clients && d.clients[id] == Finished(auth.url, Returned, true)
  {
    hide Inv, Find, TableOk, Available, Reserved, Transitioned, OnlyUrl, ProofsOk, UrlsDiffer;
    InvTable(caps, w);
    ReservedIsOk(caps, w.table, auth, now);
    AvailableIsReserved(w.table, auth, caps, now);
    var a := Step(caps, w, Answer(id, Approved(auth), Clean, now));
    var s := Step(caps, a, Sign(id, true, Clean, now));
    OwnTransition(caps, s.table, auth, RESERVED, SUBMITTED, None, None, Clean, now);
    TransitionedIsOk(caps, s.table, auth.url, RESERVED, SUBMITTED, None, None, now);
    var b := Step(caps, s, Submit(id, Clean, now));
    var p := Step(caps, b, Send(id));
    OwnTransition(caps, p.table, auth, SUBMITTED, SETTLED, Some(artifact), None, Clean, now);
  }

  lemma AvailableIsReserved(t: Table, auth: Authorization, caps: Caps, now: int)
    ensures Reserved(t, auth, caps, now).0 == Available(t, auth.url, caps, auth.amount)
  {
    hide Available;
  }
}
