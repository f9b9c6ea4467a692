// The case store: one row per case holding a question, then a decision, then a ground
// truth, beside append-only tables of bindings, replies, decisions, observations and
// resolutions. Each call is one transaction that commits or rolls back whole.
module CaseStoreSpec {
  import opened Prelude
  import opened CanonicalJson

  // `json` is the canonical text of the whole value.
  datatype Question = Question(eventId: string, json: string)

  // The fields a reply id is derived from; `details` is the rest of the stored row.
  datatype Reply = Reply(minerId: string, requestId: Option<string>, rawResponse: Json, parserVersion: string,
                         details: string)

  // A decision payload. A part that is missing or malformed is None or false.
  datatype Decision = Decision(
    eventId: Option<string>, json: string, replies: Option<seq<Option<Reply>>>, decidedAt: Option<string>,
    thresholdOk: bool, policyOk: bool)

  // Observations and ground truths are whole values: two have one canonical text when
  // they are equal. `rest` holds the fields nothing here looks at.
  datatype Observation = Observation(eventId: string, observationId: string, rest: string)

  datatype Truth = Truth(
    eventId: Option<string>, resolved: bool, observationId: Option<string>, resolvedAt: ResolvedAt, rest: string)

  // A truth given as a mapping may leave its time out, or hold null there.
  datatype ResolvedAt = Absent | NullTime | At(time: string)

  datatype CaseRow = CaseRow(
    question: string, decision: Option<string>, sealedAt: Option<int>, truth: Option<Truth>)

  datatype StoredReply = StoredReply(eventId: string, reply: Reply)

  // Rows whose id is the digest of what they hold are represented by what they hold.
  datatype StoredDecision = StoredDecision(eventId: string, json: string, replyIds: seq<string>)

  datatype StoredResolution = StoredResolution(eventId: string, truth: Truth, resolverVersion: string)

  datatype Store = Store(
    cases: map<string, CaseRow>,
    bindings: map<(string, string), (string, string)>,
    replies: map<string, StoredReply>,
    decisions: set<StoredDecision>,
    observations: map<string, Observation>,
    resolutions: set<StoredResolution>)

  const EMPTY_STORE := Store(map[], map[], map[], {}, map[], {})

  datatype CaseError = CaseConflict | CaseStateError | Malformed

  // INSERT OR IGNORE under a primary key.
  function Ignore<K, V>(m: map<K, V>, k: K, v: V): map<K, V> { if k in m then m else m[k := v] }

  function OptionalText(s: Option<string>): Json { if s.Some? then Str(s.value) else Null }

  function ReplyJson(eventId: string, r: Reply): (v: Json)
    ensures v.Obj?
  {
    Obj([Field("event_id", Str(eventId)),
         Field("miner_id", Str(r.minerId)),
         Field("request_id", OptionalText(r.requestId)),
         Field("raw_response", r.rawResponse),
         Field("parser_version", Str(r.parserVersion))])
  }

  function ReplyId(hash: string -> string, eventId: string, r: Reply): string {
    hash(CanonicalText(ReplyJson(eventId, r)))
  }

  // -------------------------------------------------------------------------- calls

  function Create(s: Store, q: Question): (Option<CaseError>, Store) {
    if q.eventId in s.cases && s.cases[q.eventId].question != q.json then (Some(CaseConflict), s)
    else (None, s.(cases := Ignore(s.cases, q.eventId, CaseRow(q.json, None, None, None))))
  }

  function Bind(s: Store, principal: string, key: string, requestSha256: string, eventId: string)
    : (Option<CaseError>, Store)
  {
    if (principal, key) in s.bindings && s.bindings[(principal, key)] != (requestSha256, eventId)
    then (Some(CaseConflict), s)
    else (None, s.(bindings := Ignore(s.bindings, (principal, key), (requestSha256, eventId))))
  }

  // Replies are projected whether or not the case is sealed.
  function RecordReply(s: Store, hash: string -> string, eventId: string, r: Reply): (Option<CaseError>, Store) {
    if eventId !in s.cases then (Some(CaseStateError), s)
    else (None, s.(replies := Ignore(s.replies, ReplyId(hash, eventId, r), StoredReply(eventId, r))))
  }

  // The replies of a decision, inserted in order; None at the first malformed one.
  function InsertReplies(replies: map<string, StoredReply>, hash: string -> string, eventId: string,
                         rs: seq<Option<Reply>>): Option<(map<string, StoredReply>, seq<string>)>
  {
    if rs == [] then Some((replies, []))
    else
      var front := InsertReplies(replies, hash, eventId, rs[..|rs| - 1]);
      var last := rs[|rs| - 1];
      if front.None? || last.None? then None
      else
        var id := ReplyId(hash, eventId, last.value);
        Some((Ignore(front.value.0, id, StoredReply(eventId, last.value)), front.value.1 + [id]))
  }

  function SealDecision(s: Store, hash: string -> string, eventId: string, d: Decision, now: int)
    : (Option<CaseError>, Store)
  {
    if d.eventId != Some(eventId) then (Some(CaseConflict), s)
    else if eventId !in s.cases then (Some(CaseStateError), s)
    else if s.cases[eventId].decision.Some? then
      (if s.cases[eventId].decision.value != d.json then Some(CaseConflict) else None, s)
    else
      var inserted := InsertReplies(s.replies, hash, eventId, if d.replies.Some? then d.replies.value else []);
      if d.replies.None? || inserted.None? then (Some(CaseConflict), s)
      else if d.decidedAt.None? then (Some(Malformed), s)
      else if !d.thresholdOk then (Some(CaseConflict), s)
      else if !d.policyOk then (Some(Malformed), s)
      else
        var (replies, ids) := inserted.value;
        (None, s.(replies := replies,
                  decisions := s.decisions + {StoredDecision(eventId, d.json, ids)},
                  cases := s.cases[eventId := s.cases[eventId].(decision := Some(d.json), sealedAt := Some(now))]))
  }

  function InsertObservation(s: Store, eventId: string, o: Observation): (Option<CaseError>, Store) {
    if o.eventId != eventId then (Some(CaseConflict), s)
    else if o.observationId in s.observations && s.observations[o.observationId] != o
    then (Some(CaseConflict), s)
    else (None, s.(observations := Ignore(s.observations, o.observationId, o)))
  }

  function RecordObservation(s: Store, eventId: string, o: Observation): (Option<CaseError>, Store) {
    if eventId !in s.cases then (Some(CaseStateError), s) else InsertObservation(s, eventId, o)
  }

  // The first truth becomes canonical. INSERT OR IGNORE passes over a null time, which
  // the column of the resolutions table does not take.
  function Resolved(s: Store, eventId: string, t: Truth, version: string): Store
    requires eventId in s.cases
  {
    var row := s.cases[eventId];
    s.(cases := if row.truth.None? then s.cases[eventId := row.(truth := Some(t))] else s.cases,
       resolutions := if t.resolvedAt.At?
                      then s.resolutions + {StoredResolution(eventId, t, version)}
                      else s.resolutions)
  }

  function Resolve(s: Store, eventId: string, t: Truth, o: Option<Observation>, version: string)
    : (Option<CaseError>, Store)
  {
    if t.eventId != Some(eventId) then (Some(CaseConflict), s)
    else if eventId !in s.cases || s.cases[eventId].decision.None? then (Some(CaseStateError), s)
    else if t.resolved && o.None? then (Some(CaseStateError), s)
    else if o.Some? && t.observationId != Some(o.value.observationId) then (Some(CaseConflict), s)
    else
      var (e, u) := if o.Some? then InsertObservation(s, eventId, o.value) else (None, s);
      if e.Some? then (e, s)
      else if t.resolvedAt.Absent? then (Some(Malformed), s)
      else (None, Resolved(u, eventId, t, version))
  }
}

// The store itself: tables updated in place, a snapshot restored on rollback.
module CaseStoreClass {
  import opened Prelude
  import opened CaseStoreSpec

  class SqliteCaseStore {
    var cases: map<string, CaseRow>
    var bindings: map<(string, string), (string, string)>
    var replies: map<string, StoredReply>
    var decisions: set<StoredDecision>
    var observations: map<string, Observation>
    var resolutions: set<StoredResolution>
    const hash: string -> string

    ghost function State(): Store
      reads this
    {
      Store(cases, bindings, replies, decisions, observations, resolutions)
    }

    constructor (hash: string -> string)
      ensures State() == EMPTY_STORE && this.hash == hash
    {
      cases, bindings, replies := map[], map[], map[];
      decisions, observations, resolutions := {}, map[], {};
      this.hash := hash;
    }

    method CreateCase(q: Question) returns (e: Option<CaseError>)
      modifies this
      ensures (e, State()) == Create(old(State()), q)
    {
      var saved := cases;
      if q.eventId !in cases { cases := cases[q.eventId := CaseRow(q.json, None, None, None)]; }
      if cases[q.eventId].question != q.json {
        cases := saved;
        return Some(CaseConflict);
      }
      return None;
    }

    method BindApplicationRequest(principal: string, key: string, requestSha256: string, eventId: string)
      returns (e: Option<CaseError>)
      modifies this
      ensures (e, State()) == Bind(old(State()), principal, key, requestSha256, eventId)
    {
      var saved := bindings;
      if (principal, key) !in bindings { bindings := bindings[(principal, key) := (requestSha256, eventId)]; }
      if bindings[(principal, key)] != (requestSha256, eventId) {
        bindings := saved;
        return Some(CaseConflict);
      }
      return None;
    }

    method RecordMinerReply(eventId: string, r: Reply) returns (e: Option<CaseError>)
      modifies this
      ensures (e, State()) == RecordReply(old(State()), hash, eventId, r)
    {
      if eventId !in cases { return Some(CaseStateError); }
      InsertReply(eventId, r);
      return None;
    }

    method InsertReply(eventId: string, r: Reply)
      modifies this
      ensures State()
           == old(State()).(replies := Ignore(old(replies), ReplyId(hash, eventId, r), StoredReply(eventId, r)))
    {
      var id := ReplyId(hash, eventId, r);
      if id !in replies { replies := replies[id := StoredReply(eventId, r)]; }
    }

    method Seal(eventId: string, d: Decision, now: int) returns (e: Option<CaseError>)
      modifies this
      ensures (e, State()) == SealDecision(old(State()), hash, eventId, d, now)
    {
      hide ReplyId;
      if d.eventId != Some(eventId) { return Some(CaseConflict); }
      if eventId !in cases { return Some(CaseStateError); }
      var row := cases[eventId];
      if row.decision.Some? {
        return if row.decision.value != d.json then Some(CaseConflict) else None;
      }
      if d.replies.None? { return Some(CaseConflict); }
      var saved := replies;
      var rs := d.replies.value;
      var ids: seq<string> := [];
      var i := 0;
      while i < |rs|
        invariant 0 <= i <= |rs|
        invariant InsertReplies(saved, hash, eventId, rs[..i]) == Some((replies, ids))
        invariant State() == old(State()).(replies := replies)
      {
        assert rs[..i + 1][..i] == rs[..i];
        if rs[i].None? {
          MalformedStops(saved, hash, eventId, rs, i + 1);
          replies := saved;
          return Some(CaseConflict);
        }
        InsertReply(eventId, rs[i].value);
        ids := ids + [ReplyId(hash, eventId, rs[i].value)];
        i := i + 1;
      }
      assert rs[..|rs|] == rs;
      if d.decidedAt.None? {
        replies := saved;
        return Some(Malformed);
      }
      if !d.thresholdOk {
        replies := saved;
        return Some(CaseConflict);
      }
      if !d.policyOk {
        replies := saved;
        return Some(Malformed);
      }
      decisions := decisions + {StoredDecision(eventId, d.json, ids)};
      cases := cases[eventId := row.(decision := Some(d.json), sealedAt := Some(now))];
      return None;
    }

    method InsertObservationRow(eventId: string, o: Observation) returns (e: Option<CaseError>)
      modifies this
      ensures (e, State()) == InsertObservation(old(State()), eventId, o)
    {
      if o.eventId != eventId { return Some(CaseConflict); }
      if o.observationId in observations && observations[o.observationId] != o { return Some(CaseConflict); }
      if o.observationId !in observations { observations := observations[o.observationId := o]; }
      return None;
    }

    method Observe(eventId: string, o: Observation) returns (e: Option<CaseError>)
      modifies this
      ensures (e, State()) == RecordObservation(old(State()), eventId, o)
    {
      if eventId !in cases { return Some(CaseStateError); }
      e := InsertObservationRow(eventId, o);
    }

    method ResolveCase(eventId: string, t: Truth, o: Option<Observation>, version: string)
      returns (e: Option<CaseError>)
      modifies this
      ensures (e, State()) == Resolve(old(State()), eventId, t, o, version)
    {
      if t.eventId != Some(eventId) { return Some(CaseConflict); }
      if eventId !in cases || cases[eventId].decision.None? { return Some(CaseStateError); }
      if t.resolved && o.None? { return Some(CaseStateError); }
      var saved := observations;
      if o.Some? {
        if t.observationId != Some(o.value.observationId) { return Some(CaseConflict); }
        var failed := InsertObservationRow(eventId, o.value);
        if failed.Some? { return failed; }
      }
      if t.resolvedAt.Absent? {
        observations := saved;
        return Some(Malformed);
      }
      if cases[eventId].truth.None? { cases := cases[eventId := cases[eventId].(truth := Some(t))]; }
      if t.resolvedAt.At? { resolutions := resolutions + {StoredResolution(eventId, t, version)}; }
      return None;
    }
  }

  lemma {:induction false} MalformedStops(replies: map<string, StoredReply>, hash: string -> string, eventId: string,
                                          rs: seq<Option<Reply>>, i: nat)
    requires i <= |rs| && InsertReplies(replies, hash, eventId, rs[..i]).None?
    ensures InsertReplies(replies, hash, eventId, rs).None?
    decreases |rs|
  {
    hide ReplyId;
    if i == |rs| {
      assert rs[..i] == rs;
    } else {
      assert rs[..|rs| - 1][..i] == rs[..i];
      MalformedStops(replies, hash, eventId, rs[..|rs| - 1], i);
    }
  }
}
