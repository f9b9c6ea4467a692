// The paired-forecast collector: collecting, merging and resolving cases, and the
// dataset file it keeps.
module Collector {
  import opened Prelude
  import opened Scoring
  import opened Backtest

  const HOUR: int := 3600

  type Probability = p: real | 0.0 <= p <= 1.0

  datatype Location = Location(
    slug: string, name: string, latitude: real, longitude: real, climatology: real, source: string)

  // What the location list is checked for when it is loaded.
  ghost predicate LocationsOk(ls: seq<Location>) {
    && ls != []
    && (forall i :: 0 <= i < |ls| ==> 0.0 <= ls[i].climatology <= 1.0)
    && (forall i, k :: 0 <= i < k < |ls| ==> ls[i].slug != ls[k].slug)
  }

  // A stored case with what only `resolve` and a reader use.
  datatype Record = Record(
    case_: Case, location: Option<Location>, issue: Option<string>, observation: Option<string>)

  // `stamp` formats the issue time; `fetch` is what a provider answers for a location.
  datatype Feed = Feed(stamp: int -> string, fetch: (string, Location) -> Option<Probability>)

  function CaseIdFor(f: Feed, slug: string, issuedAt: int): string { slug + "-" + f.stamp(issuedAt) }

  function AttemptFor(f: Feed, provider: string, l: Location): Attempt {
    match f.fetch(provider, l)
    case None => Attempt(None, Missing)
    case Some(p) => Attempt(Some(p as real), ValidStatus)
  }

  function BuildRecord(f: Feed, l: Location, issuedAt: int, leadHours: int): Record {
    var start := issuedAt + leadHours * HOUR;
    Record(
      Case(CaseIdFor(f, l.slug, issuedAt), issuedAt, issuedAt, start, start + HOUR, None, None, l.climatology,
           map["open_meteo" := AttemptFor(f, "open_meteo", l), "weatherapi" := AttemptFor(f, "weatherapi", l)]),
      Some(l), None, None)
  }

  predicate ByCaseId(a: Record, b: Record) { TextLe(a.case_.caseId, b.case_.caseId) }

  predicate ByIssueThenId(a: Record, b: Record) {
    a.case_.issuedAt < b.case_.issuedAt
    || (a.case_.issuedAt == b.case_.issuedAt && TextLe(a.case_.caseId, b.case_.caseId))
  }

  function Built(f: Feed, ls: seq<Location>, issuedAt: int, leadHours: int): (r: seq<Record>)
    ensures |r| == |ls| && forall i :: 0 <= i < |r| ==> r[i] == BuildRecord(f, ls[i], issuedAt, leadHours)
  {
    seq(|ls|, i requires 0 <= i < |ls| => BuildRecord(f, ls[i], issuedAt, leadHours))
  }

  method CollectOnce(f: Feed, ls: seq<Location>, issuedAt: int, leadHours: int) returns (cases: seq<Record>)
    ensures cases == Sort(Built(f, ls, issuedAt, leadHours), ByCaseId)
  {
    cases := [];
    var i := 0;
    while i < |ls|
      invariant 0 <= i <= |ls|
      invariant cases == Built(f, ls[..i], issuedAt, leadHours)
    {
      cases := cases + [BuildRecord(f, ls[i], issuedAt, leadHours)];
      i := i + 1;
    }
    assert ls[..|ls|] == ls;
    cases := Sort(cases, ByCaseId);
  }

  // -------------------------------------------------------------------------- merge

  function LeadOf(r: Record): int { r.case_.horizonStart - r.case_.issuedAt }

  predicate Known(rs: seq<Record>, id: string) {
    exists i :: 0 <= i < |rs| && rs[i].case_.caseId == id
  }

  // The new cases whose id is not stored yet.
  function Unseen(existing: seq<Record>, new_: seq<Record>): seq<Record> {
    if new_ == [] then []
    else
      Unseen(existing, new_[..|new_| - 1])
      + if Known(existing, new_[|new_| - 1].case_.caseId) then [] else [new_[|new_| - 1]]
  }

  datatype CollectionError = LeadChanged | EmptyDataset | LeadTooShort | InvalidDataset

  predicate LeadChanges(existing: seq<Record>, new_: seq<Record>) {
    existing != [] && new_ != [] && LeadOf(existing[|existing| - 1]) != LeadOf(new_[0])
  }

  function Merged(existing: seq<Record>, new_: seq<Record>): seq<Record> {
    Sort(existing + Unseen(existing, new_), ByIssueThenId)
  }

  method MergeCases(existing: seq<Record>, new_: seq<Record>, allowLeadChange: bool)
    returns (r: Result<seq<Record>, CollectionError>)
    ensures r == if !allowLeadChange && LeadChanges(existing, new_) then Err(LeadChanged)
                 else Ok(Merged(existing, new_))
  {
    if existing != [] && new_ != [] && !allowLeadChange {
      if LeadOf(existing[|existing| - 1]) != LeadOf(new_[0]) { return Err(LeadChanged); }
    }
    var known: set<string> := set i | 0 <= i < |existing| :: existing[i].case_.caseId;
    var added: seq<Record> := [];
    var i := 0;
    while i < |new_|
      invariant 0 <= i <= |new_|
      invariant added == Unseen(existing, new_[..i])
    {
      assert new_[..i + 1][..i] == new_[..i];
      assert new_[i].case_.caseId in known <==> Known(existing, new_[i].case_.caseId);
      if new_[i].case_.caseId !in known { added := added + [new_[i]]; }
      i := i + 1;
    }
    assert new_[..|new_|] == new_;
    return Ok(Sort(existing + added, ByIssueThenId));
  }

  // ------------------------------------------------------------------------ resolve

  datatype Question = Question(eventId: string, location: Location, horizonStart: int, horizonEnd: int, cutoff: int)

  type Binary = n: int | n in {0, 1}

  // What the observation export says about a question.
  datatype Resolution = Resolved(outcome: Binary, observation: string) | Unresolved(issue: string)

  datatype Counts = Counts(resolved: nat, alreadyResolved: nat, windowOpen: nat, unresolved: nat)

  datatype Tally = NewlyResolved | AlreadyResolved | WindowOpen | StillUnresolved

  function QuestionOf(c: Case, l: Location): Question {
    Question(c.caseId, l, c.horizonStart, c.horizonEnd, c.cutoff)
  }

  function TallyOf(r: Record, observe: Question -> Resolution, now: int): Tally {
    if r.case_.outcome.Some? then AlreadyResolved
    else if r.case_.horizonEnd > now then WindowOpen
    else if r.location.None? then StillUnresolved
    else if observe(QuestionOf(r.case_, r.location.value)).Resolved? then NewlyResolved
    else StillUnresolved
  }

  function ResolveRecord(r: Record, observe: Question -> Resolution, now: int): Record {
    if r.case_.outcome.Some? || r.case_.horizonEnd > now || r.location.None? then r
    else match observe(QuestionOf(r.case_, r.location.value)) {
      case Unresolved(issue) => r.(issue := Some(issue))
      case Resolved(outcome, observation) =>
        r.(case_ := r.case_.(outcome := Some(outcome as int), resolvedAt := Some(now)),
           observation := Some(observation), issue := None)
    }
  }

  function ResolvedAll(rs: seq<Record>, observe: Question -> Resolution, now: int): (r: seq<Record>)
    ensures |r| == |rs| && forall i :: 0 <= i < |r| ==> r[i] == ResolveRecord(rs[i], observe, now)
  {
    seq(|rs|, i requires 0 <= i < |rs| => ResolveRecord(rs[i], observe, now))
  }

  function Tallied(rs: seq<Record>, observe: Question -> Resolution, now: int, t: Tally): nat {
    if rs == [] then 0
    else
      Tallied(rs[..|rs| - 1], observe, now, t) + if TallyOf(rs[|rs| - 1], observe, now) == t then 1 else 0
  }

  function AllTallied(rs: seq<Record>, observe: Question -> Resolution, now: int): Counts {
    Counts(Tallied(rs, observe, now, NewlyResolved), Tallied(rs, observe, now, AlreadyResolved),
           Tallied(rs, observe, now, WindowOpen), Tallied(rs, observe, now, StillUnresolved))
  }

  method ResolveCases(rs: seq<Record>, observe: Question -> Resolution, now: int)
    returns (updated: seq<Record>, counts: Counts)
    ensures updated == ResolvedAll(rs, observe, now) && counts == AllTallied(rs, observe, now)
  {
    updated, counts := [], Counts(0, 0, 0, 0);
    var i := 0;
    while i < |rs|
      invariant 0 <= i <= |rs|
      invariant updated == ResolvedAll(rs[..i], observe, now)
      invariant counts == AllTallied(rs[..i], observe, now)
    {
      var record := rs[i];
      assert rs[..i + 1][..i] == rs[..i];
      i := i + 1;
      if record.case_.outcome.Some? {
        counts := counts.(alreadyResolved := counts.alreadyResolved + 1);
        updated := updated + [record];
        continue;
      }
      if record.case_.horizonEnd > now {
        counts := counts.(windowOpen := counts.windowOpen + 1);
        updated := updated + [record];
        continue;
      }
      if record.location.None? {
        counts := counts.(unresolved := counts.unresolved + 1);
        updated := updated + [record];
        continue;
      }
      match observe(QuestionOf(record.case_, record.location.value)) {
        case Unresolved(issue) =>
          counts := counts.(unresolved := counts.unresolved + 1);
          record := record.(issue := Some(issue));
        case Resolved(outcome, observation) =>
          record := record.(case_ := record.case_.(outcome := Some(outcome as int), resolvedAt := Some(now)),
                            observation := Some(observation), issue := None);
          counts := counts.(resolved := counts.resolved + 1);
      }
      updated := updated + [record];
    }
    assert rs[..|rs|] == rs;
  }

  // --------------------------------------------------------------------- the dataset

  function CasesOf(rs: seq<Record>): (r: seq<Case>)
    ensures |r| == |rs| && forall i :: 0 <= i < |r| ==> r[i] == rs[i].case_
  {
    seq(|rs|, i requires 0 <= i < |rs| => rs[i].case_)
  }

  // Whether the chronological loader accepts the file.
  ghost predicate Loadable(rs: seq<Record>) {
    (forall i :: 0 <= i < |rs| ==> CaseOk(rs[i].case_)) && ValidChronology(CasesOf(rs))
  }

  // The file is replaced only by a dataset the loader accepts.
  ghost function Written(old_: seq<Record>, candidate: seq<Record>): Result<seq<Record>, CollectionError> {
    if Loadable(candidate) then Ok(candidate) else Err(InvalidDataset)
  }

  datatype Job =
    | Collect(feed: Feed, locations: seq<Location>, now: int, leadHours: int)
    | Resolve(observe: Question -> Resolution, now: int)

  // One scheduled job, without a change of lead; a failed job leaves the file alone.
  ghost function JobResult(ds: seq<Record>, job: Job): Result<seq<Record>, CollectionError> {
    match job
    case Resolve(observe, now) =>
      if ds == [] then Err(EmptyDataset) else Written(ds, ResolvedAll(ds, observe, now))
    case Collect(feed, locations, now, leadHours) =>
      if leadHours < 1 then Err(LeadTooShort)
      else
        var collected := Sort(Built(feed, locations, now - now % HOUR, leadHours), ByCaseId);
        if LeadChanges(ds, collected) then Err(LeadChanged) else Written(ds, Merged(ds, collected))
  }

  ghost function AfterJob(ds: seq<Record>, job: Job): seq<Record> {
    match JobResult(ds, job)
    case Ok(next) => next
    case Err(_) => ds
  }

  ghost function AfterJobs(ds: seq<Record>, jobs: seq<Job>): seq<Record>
    decreases |jobs|
  {
    if jobs == [] then ds else AfterJobs(AfterJob(ds, jobs[0]), jobs[1..])
  }
}
