// The case store refines write-once registers chained question -> decision -> truth.
module CaseStoreLaws {
  import opened Prelude
  import opened CanonicalJson
  import opened CanonicalJsonLaws
  import opened RequestIdentity
  import opened CaseStoreSpec

  // The register of one case: each stage keeps what the one before held.
  datatype Register =
    | Unasked
    | Asked(question: string)
    | Decided(question: string, decision: string)
    | Closed(question: string, decision: string, truth: Truth)

  function RegisterOf(s: Store, eventId: string): Register {
    if eventId !in s.cases then Unasked
    else
      var row := s.cases[eventId];
      if row.decision.None? then Asked(row.question)
      else if row.truth.None? then Decided(row.question, row.decision.value)
      else Closed(row.question, row.decision.value, row.truth.value)
  }

  // A register stays, or is written at its next stage.
  predicate Advances(a: Register, b: Register) {
    || a == b
    || (a.Unasked? && b.Asked?)
    || (a.Asked? && b.Decided? && b.question == a.question)
    || (a.Decided? && b.Closed? && b.question == a.question && b.decision == a.decision)
  }

  // Any number of stages further.
  predicate Reaches(a: Register, b: Register) {
    match a
    case Unasked => true
    case Asked(q) => !b.Unasked? && b.question == q
    case Decided(q, d) => (b.Decided? || b.Closed?) && b.question == q && b.decision == d
    case Closed(_, _, _) => b == a
  }

  // Table b holds everything table a holds.
  ghost predicate Extends<K(!new), V>(a: map<K, V>, b: map<K, V>) {
    forall k :: k in a ==> k in b && b[k] == a[k]
  }

  ghost predicate TablesGrow(s: Store, t: Store) {
    && Extends(s.bindings, t.bindings)
    && Extends(s.replies, t.replies)
    && s.decisions <= t.decisions
    && Extends(s.observations, t.observations)
    && s.resolutions <= t.resolutions
  }

  // ------------------------------------------------------------------ the invariant

  // A sealed decision with the replies it names stored for its case.
  ghost predicate DecisionStored(s: Store, eventId: string, json: string) {
    exists ids: seq<string> ::
      StoredDecision(eventId, json, ids) in s.decisions && RepliesStored(s.replies, eventId, ids)
  }

  ghost predicate RepliesStored(replies: map<string, StoredReply>, eventId: string, ids: seq<string>) {
    forall id :: id in ids ==> id in replies && replies[id].eventId == eventId
  }

  ghost predicate HasResolution(s: Store, eventId: string, t: Truth) {
    exists v: string :: StoredResolution(eventId, t, v) in s.resolutions
  }

  // A canonical truth among the resolutions if it has a time, with its observation when
  // it is resolved.
  ghost predicate TruthStored(s: Store, eventId: string, t: Truth) {
    && t.eventId == Some(eventId)
    && !t.resolvedAt.Absent?
    && (t.resolvedAt.At? ==> HasResolution(s, eventId, t))
    && (t.resolved ==>
          && t.observationId.Some? && t.observationId.value in s.observations
          && s.observations[t.observationId.value].eventId == eventId
          && s.observations[t.observationId.value].observationId == t.observationId.value)
  }

  ghost predicate CaseOk(s: Store, eventId: string)
    requires eventId in s.cases
  {
    var row := s.cases[eventId];
    && (row.decision.Some? <==> row.sealedAt.Some?)
    && (row.decision.Some? ==> DecisionStored(s, eventId, row.decision.value))
    && (row.truth.Some? ==> row.decision.Some? && TruthStored(s, eventId, row.truth.value))
  }

  // Replies stand under the id of what they hold, for a case that exists.
  ghost predicate RepliesKeyed(s: Store, hash: string -> string) {
    forall k :: k in s.replies ==>
      && s.replies[k].eventId in s.cases
      && WellFormed(s.replies[k].reply.rawResponse)
      && k == ReplyId(hash, s.replies[k].eventId, s.replies[k].reply)
  }

  // A response is a parsed value.
  ghost predicate ParsedReply(r: Reply) { WellFormed(r.rawResponse) }

  ghost predicate ParsedReplies(rs: seq<Option<Reply>>) {
    forall i :: 0 <= i < |rs| && rs[i].Some? ==> ParsedReply(rs[i].value)
  }

  ghost predicate Inv(s: Store, hash: string -> string) {
    && RepliesKeyed(s, hash)
    && (forall k :: k in s.observations ==> s.observations[k].observationId == k)
    && (forall e :: e in s.cases ==> CaseOk(s, e))
    && Timed(s)
  }

  // Every resolution has a time.
  ghost predicate Timed(s: Store) { forall r :: r in s.resolutions ==> r.truth.resolvedAt.At? }

  lemma EmptyIsOk(hash: string -> string)
    ensures Inv(EMPTY_STORE, hash)
  {
  }

  // Stored evidence stays evidence as tables grow.
  lemma CaseStays(s: Store, t: Store, e: string)
    requires TablesGrow(s, t) && e in s.cases && e in t.cases && t.cases[e] == s.cases[e] && CaseOk(s, e)
    ensures CaseOk(t, e)
  {
    var row := s.cases[e];
    if row.decision.Some? {
      var ids :| StoredDecision(e, row.decision.value, ids) in s.decisions && RepliesStored(s.replies, e, ids);
      assert RepliesStored(t.replies, e, ids);
    }
    if row.truth.Some? && row.truth.value.resolvedAt.At? {
      var v :| StoredResolution(e, row.truth.value, v) in s.resolutions;
      assert StoredResolution(e, row.truth.value, v) in t.resolutions;
    }
  }

  // A commit that writes at most one case row and adds to the tables.
  ghost predicate Commits(s: Store, t: Store, e: string) {
    && TablesGrow(s, t)
    && (forall o :: o in s.cases ==> o in t.cases)
    && (forall o :: o in t.cases && o != e ==> o in s.cases && t.cases[o] == s.cases[o])
    && Advances(RegisterOf(s, e), RegisterOf(t, e))
  }

  lemma CommitKeeps(s: Store, t: Store, hash: string -> string, e: string)
    requires Inv(s, hash) && Commits(s, t, e) && RepliesKeyed(t, hash) && Timed(t)
    requires forall k :: k in t.observations ==> t.observations[k].observationId == k
    requires e in t.cases && (e !in s.cases || t.cases[e] != s.cases[e]) ==> CaseOk(t, e)
    ensures Inv(t, hash)
  {
    hide CaseOk, RegisterOf, Advances, RepliesKeyed;
    forall o | o in t.cases ensures CaseOk(t, o) {
      if o in s.cases && t.cases[o] == s.cases[o] { CaseStays(s, t, o); }
    }
  }

  // -------------------------------------------------------------------------- calls

  // What a call establishes: a failed one changes nothing.
  ghost predicate Keeps(s: Store, hash: string -> string, e: Option<CaseError>, t: Store, eventId: string) {
    Inv(t, hash) && Commits(s, t, eventId) && (e.Some? ==> t == s)
  }

  lemma NothingCommitted(s: Store, eventId: string)
    ensures Commits(s, s, eventId)
  {
  }

  // Evidence is only ever about a case that exists; texts tell replies apart.
  lemma CreateKeeps(s: Store, hash: string -> string, q: Question)
    requires Inv(s, hash)
    ensures var (e, t) := Create(s, q);
      && Keeps(s, hash, e, t, q.eventId)
      && (e.None? <==> q.eventId !in s.cases || s.cases[q.eventId].question == q.json)
      && (e.None? ==> q.eventId in t.cases && t.cases[q.eventId].question == q.json)
  {
    hide ReplyId;
    NothingCommitted(s, q.eventId);
    var (e, t) := Create(s, q);
    if e.None? && q.eventId !in s.cases { CommitKeeps(s, t, hash, q.eventId); }
  }

  lemma BindKeeps(s: Store, hash: string -> string, principal: string, key: string, sha: string, eventId: string)
    requires Inv(s, hash)
    ensures var (e, t) := Bind(s, principal, key, sha, eventId);
      && Keeps(s, hash, e, t, eventId)
      && (e.None? <==> (principal, key) !in s.bindings || s.bindings[(principal, key)] == (sha, eventId))
      && (e.None? ==> (principal, key) in t.bindings && t.bindings[(principal, key)] == (sha, eventId))
  {
    hide ReplyId, CaseOk;
    NothingCommitted(s, eventId);
    var (e, t) := Bind(s, principal, key, sha, eventId);
    if e.None? { CommitKeeps(s, t, hash, eventId); }
  }

  lemma RecordReplyKeeps(s: Store, hash: string -> string, eventId: string, r: Reply)
    requires Inv(s, hash) && ParsedReply(r)
    ensures var (e, t) := RecordReply(s, hash, eventId, r);
      && Keeps(s, hash, e, t, eventId)
      && (e.None? <==> eventId in s.cases)
      && (e.None? ==> ReplyId(hash, eventId, r) in t.replies)
  {
    hide ReplyId, CaseOk;
    NothingCommitted(s, eventId);
    var (e, t) := RecordReply(s, hash, eventId, r);
    if e.None? { CommitKeeps(s, t, hash, eventId); }
  }

  // What inserting the replies of a decision leaves: each under its id, of this case.
  lemma {:induction false} InsertedReplies(s: Store, hash: string -> string, eventId: string, rs: seq<Option<Reply>>)
    requires Injective(hash) && RepliesKeyed(s, hash) && eventId in s.cases && ParsedReplies(rs)
    requires InsertReplies(s.replies, hash, eventId, rs).Some?
    ensures var (after, ids) := InsertReplies(s.replies, hash, eventId, rs).value;
      && Extends(s.replies, after)
      && RepliesKeyed(s.(replies := after), hash)
      && RepliesStored(after, eventId, ids)
      && |ids| == |rs|
      && (forall i :: 0 <= i < |rs| ==> rs[i].Some? && ids[i] == ReplyId(hash, eventId, rs[i].value))
  {
    hide ReplyId, WellFormed;
    if rs != [] {
      var n := |rs| - 1;
      InsertedReplies(s, hash, eventId, rs[..n]);
      var (before, ids) := InsertReplies(s.replies, hash, eventId, rs[..n]).value;
      var id := ReplyId(hash, eventId, rs[n].value);
      if id in before {
        ReplyIdDecides(hash, eventId, rs[n].value, before[id].eventId, before[id].reply);
      }
    }
  }

  // Two replies under one id are of one case: an id digests its event.
  lemma ReplyIdDecides(hash: string -> string, e: string, r: Reply, e2: string, r2: Reply)
    requires Injective(hash) && WellFormed(r.rawResponse) && WellFormed(r2.rawResponse)
    ensures ReplyId(hash, e, r) == ReplyId(hash, e2, r2)
            <==> && e == e2 && r.minerId == r2.minerId && r.requestId == r2.requestId
                 && SameValue(r.rawResponse, r2.rawResponse) && r.parserVersion == r2.parserVersion
  {
    hide CanonicalText, DistinctKeys, SameValue, WellFormed, ReplyJson;
    var v, w := ReplyJson(e, r), ReplyJson(e2, r2);
    ReplyIsWellFormed(e, r);
    ReplyIsWellFormed(e2, r2);
    ReplyMembers(e, r, e2, r2);
    CanonicalTextDecidesValue(v, w);
    AlignedObjects(v.fields, w.fields);
    assert v == Obj(v.fields) && w == Obj(w.fields);
  }

  lemma ReplyIsWellFormed(e: string, r: Reply)
    requires WellFormed(r.rawResponse)
    ensures WellFormed(ReplyJson(e, r)) && DistinctKeys(ReplyJson(e, r).fields)
  {
    hide Lookup;
    var fs := ReplyJson(e, r).fields;
    assert |fs[0].key| == 8 && |fs[1].key| == 8 && |fs[2].key| == 10 && |fs[3].key| == 12 && |fs[4].key| == 14;
    assert fs[0].key[0] == 'e' && fs[1].key[0] == 'm';
    forall i, j | 0 <= i < j < |fs| ensures fs[i].key != fs[j].key {
      assert |fs[i].key| != |fs[j].key| || fs[i].key[0] != fs[j].key[0];
    }
    assert forall f :: f in fs ==> f == fs[0] || f == fs[1] || f == fs[2] || f == fs[3] || f == fs[4];
  }

  lemma ReplyMembers(e: string, r: Reply, e2: string, r2: Reply)
    ensures var fs, gs := ReplyJson(e, r).fields, ReplyJson(e2, r2).fields;
      && |fs| == |gs|
      && (forall i :: 0 <= i < |fs| ==> fs[i].key == gs[i].key)
      && ((forall i :: 0 <= i < |fs| ==> SameValue(fs[i].value, gs[i].value))
          <==> && e == e2 && r.minerId == r2.minerId && r.requestId == r2.requestId
               && SameValue(r.rawResponse, r2.rawResponse) && r.parserVersion == r2.parserVersion)
  {
    var fs, gs := ReplyJson(e, r).fields, ReplyJson(e2, r2).fields;
    assert SameValue(fs[0].value, gs[0].value) <==> e == e2;
    assert SameValue(fs[1].value, gs[1].value) <==> r.minerId == r2.minerId;
    assert SameValue(fs[2].value, gs[2].value) <==> r.requestId == r2.requestId;
    assert SameValue(fs[4].value, gs[4].value) <==> r.parserVersion == r2.parserVersion;
    assert fs[3].value == r.rawResponse && gs[3].value == r2.rawResponse;
  }

  // Nothing in the decision is missing or malformed.
  ghost predicate Sealable(d: Decision) {
    && d.replies.Some? && (forall i :: 0 <= i < |d.replies.value| ==> d.replies.value[i].Some?)
    && d.decidedAt.Some? && d.thresholdOk && d.policyOk
  }

  lemma {:induction false} RepliesInsertExactly(replies: map<string, StoredReply>, hash: string -> string,
                                                eventId: string, rs: seq<Option<Reply>>)
    ensures InsertReplies(replies, hash, eventId, rs).Some? <==> forall i :: 0 <= i < |rs| ==> rs[i].Some?
  {
    hide ReplyId;
    if rs != [] { RepliesInsertExactly(replies, hash, eventId, rs[..|rs| - 1]); }
  }

  // A decision is accepted exactly for an unsealed case when nothing in it is malformed,
  // or for a case sealed with the same decision.
  lemma SealAcceptsExactly(s: Store, hash: string -> string, eventId: string, d: Decision, now: int)
    ensures SealDecision(s, hash, eventId, d, now).0.None?
            <==> && d.eventId == Some(eventId) && eventId in s.cases
                 && (if s.cases[eventId].decision.Some? then s.cases[eventId].decision.value == d.json else Sealable(d))
  {
    hide InsertReplies;
    if d.replies.Some? { RepliesInsertExactly(s.replies, hash, eventId, d.replies.value); }
  }

  // Sealing writes an unsealed case once, with every reply the decision names stored.
  lemma SealKeeps(s: Store, hash: string -> string, eventId: string, d: Decision, now: int)
    requires Inv(s, hash) && Injective(hash) && (d.replies.Some? ==> ParsedReplies(d.replies.value))
    ensures var (e, t) := SealDecision(s, hash, eventId, d, now);
      && Keeps(s, hash, e, t, eventId)
      && (e.None? ==> eventId in t.cases && t.cases[eventId].decision == Some(d.json)
                      && DecisionStored(t, eventId, d.json))
  {
    hide ReplyId, InsertReplies, RepliesKeyed, RepliesStored, ParsedReplies, TruthStored;
    NothingCommitted(s, eventId);
    var (e, t) := SealDecision(s, hash, eventId, d, now);
    if eventId in s.cases { assert CaseOk(s, eventId); }
    if e.None? && s.cases[eventId].decision.None? {
      InsertedReplies(s, hash, eventId, d.replies.value);
      var (replies, ids) := InsertReplies(s.replies, hash, eventId, d.replies.value).value;
      assert StoredDecision(eventId, d.json, ids) in t.decisions && RepliesStored(t.replies, eventId, ids);
      SameCasesSameReplies(s.(replies := replies), t, hash);
      CommitKeeps(s, t, hash, eventId);
    }
  }

  lemma SameCasesSameReplies(s: Store, t: Store, hash: string -> string)
    requires RepliesKeyed(s, hash) && t.replies == s.replies && t.cases.Keys == s.cases.Keys
    ensures RepliesKeyed(t, hash)
  {
    hide ReplyId, WellFormed;
  }

  lemma ObservationInserted(s: Store, hash: string -> string, eventId: string, o: Observation)
    requires Inv(s, hash)
    ensures var (e, t) := InsertObservation(s, eventId, o);
      && Keeps(s, hash, e, t, eventId)
      && t.cases == s.cases && t.replies == s.replies
      && (e.None? ==> o.eventId == eventId && o.observationId in t.observations && t.observations[o.observationId] == o)
  {
    hide ReplyId, CaseOk;
    NothingCommitted(s, eventId);
    var (e, t) := InsertObservation(s, eventId, o);
    if e.None? { CommitKeeps(s, t, hash, eventId); }
  }

  lemma ObserveKeeps(s: Store, hash: string -> string, eventId: string, o: Observation)
    requires Inv(s, hash)
    ensures var (e, t) := RecordObservation(s, eventId, o); Keeps(s, hash, e, t, eventId)
  {
    hide Inv, Commits, InsertObservation;
    NothingCommitted(s, eventId);
    ObservationInserted(s, hash, eventId, o);
  }

  // The first resolution of a sealed case becomes canonical, any later one history.
  lemma ResolveKeeps(s: Store, hash: string -> string, eventId: string, truth: Truth, o: Option<Observation>,
                     version: string)
    requires Inv(s, hash)
    ensures var (e, t) := Resolve(s, eventId, truth, o, version);
      && Keeps(s, hash, e, t, eventId)
      && (e.None? ==> && eventId in s.cases && s.cases[eventId].decision.Some?
                      && (truth.resolved ==> o.Some? && truth.observationId == Some(o.value.observationId))
                      && RegisterOf(t, eventId).Closed?
                      && (StoredResolution(eventId, truth, version) in t.resolutions <==> truth.resolvedAt.At?)
                      && (RegisterOf(s, eventId).Decided? ==> RegisterOf(t, eventId).truth == truth))
  {
    hide ReplyId, DecisionStored, RepliesKeyed, InsertObservation;
    NothingCommitted(s, eventId);
    var (e, t) := Resolve(s, eventId, truth, o, version);
    if e.None? {
      assert CaseOk(s, eventId);
      if o.Some? { ObservationInserted(s, hash, eventId, o.value); }
      var u := if o.Some? then InsertObservation(s, eventId, o.value).1 else s;
      ResolvedStored(u, t, eventId, truth, version);
      ResolutionCommits(s, u, t, eventId, truth, version);
      SameCasesSameReplies(s, t, hash);
      CommitKeeps(s, t, hash, eventId);
    } else if o.Some? {
      ObservationInserted(s, hash, eventId, o.value);
    }
  }

  lemma ResolvedStored(u: Store, t: Store, eventId: string, truth: Truth, version: string)
    requires eventId in u.cases && CaseOk(u, eventId) && u.cases[eventId].decision.Some?
    requires truth.eventId == Some(eventId)
    requires truth.resolved ==> && truth.observationId.Some? && truth.observationId.value in u.observations
                                && u.observations[truth.observationId.value].eventId == eventId
                                && u.observations[truth.observationId.value].observationId == truth.observationId.value
    requires !truth.resolvedAt.Absent? && t == Resolved(u, eventId, truth, version)
    ensures CaseOk(t, eventId) && t.cases[eventId].truth.Some?
  {
    hide RepliesStored;
    var row := u.cases[eventId];
    assert truth.resolvedAt.At? ==> StoredResolution(eventId, truth, version) in t.resolutions;
    if row.truth.Some? && row.truth.value.resolvedAt.At? {
      var v :| StoredResolution(eventId, row.truth.value, v) in u.resolutions;
      assert StoredResolution(eventId, row.truth.value, v) in t.resolutions;
    }
    var ids :|
      StoredDecision(eventId, row.decision.value, ids) in u.decisions && RepliesStored(u.replies, eventId, ids);
    assert StoredDecision(eventId, row.decision.value, ids) in t.decisions;
  }

  lemma ResolutionCommits(s: Store, u: Store, t: Store, eventId: string, truth: Truth, version: string)
    requires TablesGrow(s, u) && u.cases == s.cases && eventId in u.cases && u.cases[eventId].decision.Some?
    requires t == Resolved(u, eventId, truth, version)
    ensures Commits(s, t, eventId)
  {
  }

  // ------------------------------------------------------------------------ whole runs

  datatype Call =
    | DoCreate(question: Question)
    | DoBind(principal: string, key: string, sha: string, event: string)
    | DoRecordReply(event: string, reply: Reply)
    | DoSeal(event: string, decision: Decision, now: int)
    | DoObserve(event: string, observation: Observation)
    | DoResolve(event: string, truth: Truth, evidence: Option<Observation>, version: string)

  function Apply(s: Store, hash: string -> string, c: Call): (Option<CaseError>, Store) {
    match c
    case DoCreate(q) => Create(s, q)
    case DoBind(principal, key, sha, event) => Bind(s, principal, key, sha, event)
    case DoRecordReply(event, r) => RecordReply(s, hash, event, r)
    case DoSeal(event, d, now) => SealDecision(s, hash, event, d, now)
    case DoObserve(event, o) => RecordObservation(s, event, o)
    case DoResolve(event, t, o, version) => Resolve(s, event, t, o, version)
  }

  function EventOf(c: Call): string { if c.DoCreate? then c.question.eventId else c.event }

  ghost predicate ParsedCall(c: Call) {
    && (c.DoRecordReply? ==> ParsedReply(c.reply))
    && (c.DoSeal? && c.decision.replies.Some? ==> ParsedReplies(c.decision.replies.value))
  }

  function Run(s: Store, hash: string -> string, calls: seq<Call>): Store
    decreases |calls|
  {
    if calls == [] then s else Run(Apply(s, hash, calls[0]).1, hash, calls[1..])
  }

  // Each call moves the register of its case by one stage at most, no other case at
  // all, adds to the tables, and when it fails changes nothing.
  lemma CallKeeps(s: Store, hash: string -> string, c: Call)
    requires Inv(s, hash) && Injective(hash) && ParsedCall(c)
    ensures var (e, t) := Apply(s, hash, c); Keeps(s, hash, e, t, EventOf(c))
  {
    hide Inv, Commits, ParsedReply, ParsedReplies, Create, Bind, RecordReply, SealDecision, RecordObservation, Resolve;
    match c {
      case DoCreate(q) => CreateKeeps(s, hash, q);
      case DoBind(principal, key, sha, event) => BindKeeps(s, hash, principal, key, sha, event);
      case DoRecordReply(event, r) => RecordReplyKeeps(s, hash, event, r);
      case DoSeal(event, d, now) => SealKeeps(s, hash, event, d, now);
      case DoObserve(event, o) => ObserveKeeps(s, hash, event, o);
      case DoResolve(event, t, o, version) => ResolveKeeps(s, hash, event, t, o, version);
    }
  }

  ghost predicate AllReach(s: Store, t: Store) {
    TablesGrow(s, t) && forall e :: Reaches(RegisterOf(s, e), RegisterOf(t, e))
  }

  lemma CommitReaches(s: Store, t: Store, e: string)
    requires Commits(s, t, e)
    ensures AllReach(s, t)
  {
    hide TablesGrow;
    forall o ensures Reaches(RegisterOf(s, o), RegisterOf(t, o)) {
      if o != e && o in s.cases { assert t.cases[o] == s.cases[o]; }
    }
  }

  lemma AllReachTransitive(a: Store, b: Store, c: Store)
    requires AllReach(a, b) && AllReach(b, c)
    ensures AllReach(a, c)
  {
    hide RegisterOf;
    forall e ensures Reaches(RegisterOf(a, e), RegisterOf(c, e)) {
      assert Reaches(RegisterOf(a, e), RegisterOf(b, e)) && Reaches(RegisterOf(b, e), RegisterOf(c, e));
    }
  }

  // Over every run: question, decision and ground truth are each written once and in
  // that order, and the evidence tables only grow.
  lemma {:induction false} RegistersAreWrittenOnce(s: Store, hash: string -> string, calls: seq<Call>)
    requires Inv(s, hash) && Injective(hash) && forall c :: c in calls ==> ParsedCall(c)
    ensures AllReach(s, Run(s, hash, calls)) && Inv(Run(s, hash, calls), hash)
    decreases |calls|
  {
    hide Inv, Injective, ParsedCall, Apply, Commits, AllReach;
    if calls == [] {
      NothingCommitted(s, "");
      CommitReaches(s, s, "");
    } else {
      var (e, t) := Apply(s, hash, calls[0]);
      CallKeeps(s, hash, calls[0]);
      CommitReaches(s, t, EventOf(calls[0]));
      RegistersAreWrittenOnce(t, hash, calls[1..]);
      AllReachTransitive(s, t, Run(t, hash, calls[1..]));
    }
  }

  // In every state reached, a sealed decision has its replies stored and a canonical
  // truth stands on a sealed decision; it is among the resolutions exactly when its time
  // is not null, and a resolved one has its observation.
  lemma RegistersAreBacked(hash: string -> string, calls: seq<Call>, e: string)
    requires Injective(hash) && forall c :: c in calls ==> ParsedCall(c)
    requires e in Run(EMPTY_STORE, hash, calls).cases
    ensures var s := Run(EMPTY_STORE, hash, calls);
      var row := s.cases[e];
      && (row.decision.Some? ==> DecisionStored(s, e, row.decision.value))
      && (row.truth.Some? ==>
            && row.decision.Some?
            && (HasResolution(s, e, row.truth.value) <==> row.truth.value.resolvedAt != NullTime)
            && (row.truth.value.resolved ==> row.truth.value.observationId.Some?
                                             && row.truth.value.observationId.value in s.observations))
  {
    hide Injective, ParsedCall, Run, DecisionStored, RepliesKeyed, AllReach;
    EmptyIsOk(hash);
    RegistersAreWrittenOnce(EMPTY_STORE, hash, calls);
    assert CaseOk(Run(EMPTY_STORE, hash, calls), e);
  }

  // The input that shows the exception: a truth whose time is null becomes canonical and
  // leaves no resolution.
  lemma NullTimeLeavesNoResolution(s: Store, hash: string -> string, eventId: string, version: string)
    requires Inv(s, hash) && eventId in s.cases && s.cases[eventId].decision.Some? && s.cases[eventId].truth.None?
    ensures var truth := Truth(Some(eventId), false, None, NullTime, "");
      var (e, t) := Resolve(s, eventId, truth, None, version);
      && e.None? && eventId in t.cases && t.cases[eventId].truth == Some(truth)
      && t.resolutions == s.resolutions && !HasResolution(t, eventId, truth)
  {
    hide CaseOk, RepliesKeyed;
  }

  // The reply table is append-only but not frozen: a sealed case still takes a reply it
  // has not seen.
  lemma SealedCasesTakeReplies(s: Store, hash: string -> string, eventId: string, r: Reply)
    requires eventId in s.cases && s.cases[eventId].decision.Some? && ReplyId(hash, eventId, r) !in s.replies
    ensures var (e, t) := RecordReply(s, hash, eventId, r);
      e.None? && t.cases == s.cases && |t.replies| == |s.replies| + 1
  {
    hide ReplyId;
  }

  // One row for each distinct raw response: two rows of one case, miner, request and
  // parser hold different responses.
  lemma OneRowPerResponse(s: Store, hash: string -> string, j: string, k: string)
    requires Inv(s, hash) && Injective(hash) && j in s.replies && k in s.replies && j != k
    requires var a, b := s.replies[j], s.replies[k];
      && a.eventId == b.eventId && a.reply.minerId == b.reply.minerId
      && a.reply.requestId == b.reply.requestId && a.reply.parserVersion == b.reply.parserVersion
    ensures !SameValue(s.replies[j].reply.rawResponse, s.replies[k].reply.rawResponse)
  {
    hide ReplyId, SameValue, WellFormed, CaseOk;
    var a, b := s.replies[j], s.replies[k];
    ReplyIdDecides(hash, a.eventId, a.reply, b.eventId, b.reply);
  }
}
