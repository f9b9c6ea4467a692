// What every run of collect and resolve keeps of the dataset, and of the backtest's
// selections on it.
module CollectorLaws {
  import opened Prelude
  import opened Backtest
  import opened BacktestLaws
  import opened Collector

  // ------------------------------------------------------------------ the invariant

  ghost predicate InOrder(rs: seq<Record>) {
    forall i, k :: 0 <= i < k < |rs| ==> Before(rs[i].case_, rs[k].case_)
  }

  ghost predicate IdsDiffer(rs: seq<Record>) {
    forall i, k :: 0 <= i < k < |rs| ==> rs[i].case_.caseId != rs[k].case_.caseId
  }

  // Well-formed cases of one lead and a one-hour horizon, in strict order, and nothing
  // else; the empty file is the dataset before the first collection.
  ghost predicate DatasetOk(rs: seq<Record>) {
    && (forall i :: 0 <= i < |rs| ==> CaseOk(rs[i].case_) && Horizon(rs[i].case_) == HOUR)
    && (forall i, k :: 0 <= i < |rs| && 0 <= k < |rs| ==> LeadOf(rs[i]) == LeadOf(rs[k]))
    && InOrder(rs) && IdsDiffer(rs)
  }

  lemma OkIsLoadable(rs: seq<Record>)
    requires DatasetOk(rs) && rs != []
    ensures Loadable(rs)
  {
    hide CaseOk, Before, Horizon;
  }

  // --------------------------------------------------------------------- collecting

  lemma ByIssueIsPreorder()
    ensures TotalPreorder(ByIssueThenId)
  {
    forall a, b ensures ByIssueThenId(a, b) || ByIssueThenId(b, a) {
      TextLeTotal(a.case_.caseId, b.case_.caseId);
    }
    forall a, b, c | ByIssueThenId(a, b) && ByIssueThenId(b, c) ensures ByIssueThenId(a, c) {
      if TextLe(a.case_.caseId, b.case_.caseId) && TextLe(b.case_.caseId, c.case_.caseId) {
        TextLeTransitive(a.case_.caseId, b.case_.caseId, c.case_.caseId);
      }
    }
  }

  lemma BuiltIsOk(f: Feed, l: Location, issuedAt: int, leadHours: int)
    requires 0.0 <= l.climatology <= 1.0 && leadHours >= 1
    ensures var r := BuildRecord(f, l, issuedAt, leadHours);
      CaseOk(r.case_) && Horizon(r.case_) == HOUR && LeadOf(r) == leadHours * HOUR && r.case_.resolvedAt.None?
  {
    var c := BuildRecord(f, l, issuedAt, leadHours).case_;
    assert c.caseId[|l.slug|] == '-';
    assert "open_meteo"[0] == 'o' && "weatherapi"[0] == 'w';
    assert "open_meteo" in c.forecasts;
  }

  lemma SlugsTellIds(f: Feed, a: string, b: string, issuedAt: int)
    requires CaseIdFor(f, a, issuedAt) == CaseIdFor(f, b, issuedAt)
    ensures a == b
  {
    var tail := "-" + f.stamp(issuedAt);
    assert CaseIdFor(f, a, issuedAt) == a + tail && CaseIdFor(f, b, issuedAt) == b + tail;
    assert (a + tail)[..|a|] == (b + tail)[..|b|];
  }

  // Ids that tell the members of a sequence apart still do after a rearrangement.
  lemma IdsDifferRearranged(a: seq<Record>, b: seq<Record>)
    requires IdsDiffer(a) && multiset(a) == multiset(b)
    ensures IdsDiffer(b)
  {
    DistinctRearranged(a, b);
    forall i, k | 0 <= i < k < |b| ensures b[i].case_.caseId != b[k].case_.caseId {
      assert b[i] in multiset(b) && b[k] in multiset(b);
      assert b[i] in a && b[k] in a;
    }
  }

  ghost predicate Fresh(rs: seq<Record>, issuedAt: int, lead: int) {
    && IdsDiffer(rs)
    && forall i :: 0 <= i < |rs| ==>
         CaseOk(rs[i].case_) && Horizon(rs[i].case_) == HOUR && LeadOf(rs[i]) == lead
         && rs[i].case_.issuedAt == issuedAt && rs[i].case_.resolvedAt.None?
  }

  lemma CollectedIsFresh(f: Feed, ls: seq<Location>, issuedAt: int, leadHours: int)
    requires LocationsOk(ls) && leadHours >= 1
    ensures Fresh(Sort(Built(f, ls, issuedAt, leadHours), ByCaseId), issuedAt, leadHours * HOUR)
    ensures |Sort(Built(f, ls, issuedAt, leadHours), ByCaseId)| == |ls|
  {
    hide CaseOk, Horizon, LeadOf, CaseIdFor;
    var built := Built(f, ls, issuedAt, leadHours);
    forall i | 0 <= i < |built|
      ensures CaseOk(built[i].case_) && Horizon(built[i].case_) == HOUR && LeadOf(built[i]) == leadHours * HOUR
              && built[i].case_.issuedAt == issuedAt && built[i].case_.resolvedAt.None?
    {
      BuiltIsOk(f, ls[i], issuedAt, leadHours);
    }
    forall i, k | 0 <= i < k < |built| ensures built[i].case_.caseId != built[k].case_.caseId {
      if built[i].case_.caseId == built[k].case_.caseId { SlugsTellIds(f, ls[i].slug, ls[k].slug, issuedAt); }
    }
    var sorted := Sort(built, ByCaseId);
    SortKeepsElements(built, ByCaseId);
    IdsDifferRearranged(built, sorted);
    forall i | 0 <= i < |sorted|
      ensures CaseOk(sorted[i].case_) && Horizon(sorted[i].case_) == HOUR && LeadOf(sorted[i]) == leadHours * HOUR
              && sorted[i].case_.issuedAt == issuedAt && sorted[i].case_.resolvedAt.None?
    {
      assert sorted[i] in built;
    }
  }

  lemma {:induction false} UnseenIsNew(existing: seq<Record>, new_: seq<Record>)
    requires IdsDiffer(new_)
    ensures IdsDiffer(Unseen(existing, new_))
    ensures forall r :: r in Unseen(existing, new_) <==> r in new_ && !Known(existing, r.case_.caseId)
  {
    hide Known;
    if new_ != [] {
      var n := |new_| - 1;
      UnseenIsNew(existing, new_[..n]);
      assert new_ == new_[..n] + [new_[n]];
      var front := Unseen(existing, new_[..n]);
      forall i | 0 <= i < |front| ensures front[i].case_.caseId != new_[n].case_.caseId {
        assert front[i] in front && front[i] in new_[..n];
      }
    }
  }

  lemma AppendKeepsIdsApart(existing: seq<Record>, added: seq<Record>)
    requires IdsDiffer(existing) && IdsDiffer(added)
    requires forall r :: r in added ==> !Known(existing, r.case_.caseId)
    ensures IdsDiffer(existing + added)
  {
    var all := existing + added;
    forall i, k | 0 <= i < k < |all| ensures all[i].case_.caseId != all[k].case_.caseId {
      if i < |existing| <= k {
        assert all[k] in added;
      }
    }
  }

  // Sorted records with different ids are in strict order.
  lemma SortedIsInOrder(rs: seq<Record>)
    requires SortedBy(rs, ByIssueThenId) && IdsDiffer(rs)
    ensures InOrder(rs)
  {
  }

  lemma MergeMembers(existing: seq<Record>, new_: seq<Record>)
    requires IdsDiffer(existing) && IdsDiffer(new_)
    ensures var m := Merged(existing, new_);
      && InOrder(m) && IdsDiffer(m)
      && |m| >= |existing|
      && forall r :: r in m <==> r in existing || (r in new_ && !Known(existing, r.case_.caseId))
  {
    hide Known, Unseen, Before, ByIssueThenId;
    var added := Unseen(existing, new_);
    var all := existing + added;
    UnseenIsNew(existing, new_);
    AppendKeepsIdsApart(existing, added);
    SortKeepsElements(all, ByIssueThenId);
    ByIssueIsPreorder();
    SortSorts(all, ByIssueThenId);
    IdsDifferRearranged(all, Merged(existing, new_));
    SortedIsInOrder(Merged(existing, new_));
    assert forall r :: r in all <==> r in existing || r in added;
  }

  lemma MergeIsOk(existing: seq<Record>, new_: seq<Record>, issuedAt: int, lead: int)
    requires DatasetOk(existing) && Fresh(new_, issuedAt, lead) && !LeadChanges(existing, new_) && new_ != []
    ensures DatasetOk(Merged(existing, new_)) && Merged(existing, new_) != []
  {
    hide CaseOk, Horizon, LeadOf, Known, Before;
    var m := Merged(existing, new_);
    MergeMembers(existing, new_);
    forall i | 0 <= i < |m|
      ensures CaseOk(m[i].case_) && Horizon(m[i].case_) == HOUR && LeadOf(m[i]) == lead
    {
      assert m[i] in m;
      if m[i] in existing {
        assert LeadOf(existing[|existing| - 1]) == lead;
      }
    }
    if existing == [] {
      NothingIsKnown(new_[0].case_.caseId);
      assert new_[0] in m;
    }
  }

  lemma NothingIsKnown(id: string)
    ensures !Known([], id)
  {
  }

  // ---------------------------------------------------------------------- resolving

  lemma ResolveKeepsCase(r: Record, observe: Question -> Resolution, now: int)
    requires CaseOk(r.case_)
    ensures var q := ResolveRecord(r, observe, now);
      CaseOk(q.case_) && Horizon(q.case_) == Horizon(r.case_) && LeadOf(q) == LeadOf(r)
      && q.case_.caseId == r.case_.caseId && q.case_.issuedAt == r.case_.issuedAt
  {
  }

  lemma ResolveIsOk(ds: seq<Record>, observe: Question -> Resolution, now: int)
    requires DatasetOk(ds)
    ensures DatasetOk(ResolvedAll(ds, observe, now))
  {
    hide CaseOk, Horizon, LeadOf, ResolveRecord;
    var rs := ResolvedAll(ds, observe, now);
    forall i | 0 <= i < |rs|
      ensures CaseOk(rs[i].case_) && Horizon(rs[i].case_) == HOUR && LeadOf(rs[i]) == LeadOf(ds[i])
              && rs[i].case_.caseId == ds[i].case_.caseId && rs[i].case_.issuedAt == ds[i].case_.issuedAt
    {
      ResolveKeepsCase(ds[i], observe, now);
    }
  }

  // ----------------------------------------------------------------- every whole run

  ghost predicate JobOk(job: Job) {
    job.Collect? ==> LocationsOk(job.locations)
  }

  // A job keeps the dataset in shape, and its file is always one the loader accepts: a
  // write is never refused.
  lemma JobKeepsDataset(ds: seq<Record>, job: Job)
    requires DatasetOk(ds) && JobOk(job)
    ensures DatasetOk(AfterJob(ds, job))
    ensures JobResult(ds, job) != Err(InvalidDataset)
    ensures AfterJob(ds, job) != [] ==> Loadable(AfterJob(ds, job))
  {
    hide DatasetOk, Loadable, Merged, ResolvedAll, LocationsOk, Fresh, LeadChanges;
    match job {
      case Resolve(observe, now) =>
        ResolveIsOk(ds, observe, now);
        if ds != [] { OkIsLoadable(ResolvedAll(ds, observe, now)); }
      case Collect(f, ls, now, leadHours) =>
        if leadHours >= 1 {
          CollectedIsFresh(f, ls, now - now % HOUR, leadHours);
          var collected := Sort(Built(f, ls, now - now % HOUR, leadHours), ByCaseId);
          if !LeadChanges(ds, collected) {
            LocationsExist(ls);
            MergeIsOk(ds, collected, now - now % HOUR, leadHours * HOUR);
            OkIsLoadable(Merged(ds, collected));
          }
        }
    }
    if ds != [] { OkIsLoadable(ds); }
  }

  lemma LocationsExist(ls: seq<Location>)
    requires LocationsOk(ls)
    ensures ls != []
  {
  }

  lemma {:induction false} JobsKeepDataset(ds: seq<Record>, jobs: seq<Job>)
    requires DatasetOk(ds) && forall j :: j in jobs ==> JobOk(j)
    ensures DatasetOk(AfterJobs(ds, jobs))
    ensures AfterJobs(ds, jobs) != [] ==> Loadable(AfterJobs(ds, jobs))
    decreases |jobs|
  {
    hide DatasetOk, Loadable, JobOk, AfterJob;
    if jobs == [] {
      if ds != [] { OkIsLoadable(ds); }
    } else {
      JobKeepsDataset(ds, jobs[0]);
      JobsKeepDataset(AfterJob(ds, jobs[0]), jobs[1..]);
    }
  }

  // ------------------------------------------------------------------- write-once

  // A record stays: its identity, times and forecasts for good, its outcome once set.
  ghost predicate Carries(r: Record, q: Record) {
    && q.location == r.location
    && q.case_ == r.case_.(outcome := q.case_.outcome, resolvedAt := q.case_.resolvedAt)
    && (r.case_.outcome.Some? ==> q == r)
  }

  ghost predicate CarriesAll(ds: seq<Record>, es: seq<Record>) {
    forall i :: 0 <= i < |ds| ==> CarriedIn(ds[i], es)
  }

  ghost predicate CarriedIn(r: Record, es: seq<Record>) {
    exists k :: 0 <= k < |es| && Carries(r, es[k])
  }

  lemma JobCarries(ds: seq<Record>, job: Job)
    requires DatasetOk(ds) && JobOk(job)
    ensures CarriesAll(ds, AfterJob(ds, job))
  {
    hide DatasetOk, Loadable, LocationsOk, LeadChanges;
    var es := AfterJob(ds, job);
    if es == ds {
      CarriesItself(ds);
    } else if job.Resolve? {
      ResolveCarries(ds, job.observe, job.now);
    } else {
      var collected := Sort(Built(job.feed, job.locations, job.now - job.now % HOUR, job.leadHours), ByCaseId);
      CollectedIsFresh(job.feed, job.locations, job.now - job.now % HOUR, job.leadHours);
      MergeCarries(ds, collected);
    }
  }

  lemma CarriesItself(ds: seq<Record>)
    ensures CarriesAll(ds, ds)
  {
    forall i | 0 <= i < |ds| ensures CarriedIn(ds[i], ds) {
      assert Carries(ds[i], ds[i]);
    }
  }

  lemma ResolveCarries(ds: seq<Record>, observe: Question -> Resolution, now: int)
    ensures CarriesAll(ds, ResolvedAll(ds, observe, now))
  {
    var es := ResolvedAll(ds, observe, now);
    forall i | 0 <= i < |ds| ensures CarriedIn(ds[i], es) {
      assert Carries(ds[i], es[i]);
    }
  }

  lemma MergeCarries(ds: seq<Record>, collected: seq<Record>)
    requires DatasetOk(ds) && IdsDiffer(collected)
    ensures CarriesAll(ds, Merged(ds, collected))
  {
    hide CaseOk, InOrder, Merged;
    MergeMembers(ds, collected);
    var es := Merged(ds, collected);
    forall i | 0 <= i < |ds| ensures CarriedIn(ds[i], es) {
      assert ds[i] in es;
      var k :| 0 <= k < |es| && es[k] == ds[i];
      assert Carries(ds[i], es[k]);
    }
  }

  lemma CarriesAllTransitive(a: seq<Record>, b: seq<Record>, c: seq<Record>)
    requires CarriesAll(a, b) && CarriesAll(b, c)
    ensures CarriesAll(a, c)
  {
    forall i | 0 <= i < |a| ensures CarriedIn(a[i], c) {
      var k :| 0 <= k < |b| && Carries(a[i], b[k]);
      assert CarriedIn(b[k], c);
      var n :| 0 <= n < |c| && Carries(b[k], c[n]);
      assert Carries(a[i], c[n]);
    }
  }

  // Over any run no case is lost, none is changed but by being resolved, and none is
  // resolved twice.
  lemma {:induction false} OutcomesAreWriteOnce(ds: seq<Record>, jobs: seq<Job>)
    requires DatasetOk(ds) && forall j :: j in jobs ==> JobOk(j)
    ensures CarriesAll(ds, AfterJobs(ds, jobs))
    decreases |jobs|
  {
    hide DatasetOk, JobOk, AfterJob, CarriesAll;
    if jobs == [] {
      CarriesItself(ds);
    } else {
      JobCarries(ds, jobs[0]);
      JobKeepsDataset(ds, jobs[0]);
      OutcomesAreWriteOnce(AfterJob(ds, jobs[0]), jobs[1..]);
      CarriesAllTransitive(ds, AfterJob(ds, jobs[0]), AfterJobs(ds, jobs));
    }
  }

  // ------------------------------------------------------------ repeating a step

  ghost predicate CasesInOrder(cases: seq<Case>) {
    forall i, k :: 0 <= i < k < |cases| ==> Before(cases[i], cases[k])
  }

  // Sequences in strict order with the same members are the same.
  lemma {:induction false} OrderedMembersDecide(a: seq<Case>, b: seq<Case>)
    requires CasesInOrder(a) && CasesInOrder(b)
    requires forall c :: c in a <==> c in b
    ensures a == b
  {
    assert forall i :: 0 <= i < |a| ==> a[i] in b;
    assert forall i :: 0 <= i < |b| ==> b[i] in a;
    if a != [] && b != [] {
      var i :| 0 <= i < |b| && b[i] == a[0];
      var k :| 0 <= k < |a| && a[k] == b[0];
      if i > 0 && k > 0 { NotBothBefore(a[0], b[0]); }
      forall c ensures c in a[1..] <==> c in b[1..] {
        NeverBeforeItself(a[0]);
        assert c in a[1..] <==> c in a && c != a[0];
        assert c in b[1..] <==> c in b && c != b[0];
      }
      OrderedMembersDecide(a[1..], b[1..]);
    }
  }

  lemma NotBothBefore(a: Case, b: Case)
    ensures !(Before(a, b) && Before(b, a))
  {
    if Before(a, b) && Before(b, a) { TextLeAntisymmetric(a.caseId, b.caseId); }
  }

  lemma NeverBeforeItself(a: Case)
    ensures !Before(a, a)
  {
  }

  ghost predicate AllKnown(existing: seq<Record>, new_: seq<Record>) {
    forall i :: 0 <= i < |new_| ==> Known(existing, new_[i].case_.caseId)
  }

  lemma {:induction false} NothingUnseen(existing: seq<Record>, new_: seq<Record>)
    requires AllKnown(existing, new_)
    ensures Unseen(existing, new_) == []
  {
    if new_ != [] { NothingUnseen(existing, new_[..|new_| - 1]); }
  }

  lemma SortedAlready(ds: seq<Record>)
    requires DatasetOk(ds)
    ensures Sort(ds, ByIssueThenId) == ds
  {
    hide CaseOk, Horizon, LeadOf;
    ByIssueIsPreorder();
    SortSorts(ds, ByIssueThenId);
    SortKeepsElements(ds, ByIssueThenId);
    DistinctRearranged(ds, Sort(ds, ByIssueThenId));
    forall x, y | x in ds && y in ds && ByIssueThenId(x, y) && ByIssueThenId(y, x) ensures x == y {
      if x.case_.caseId != y.case_.caseId { TextLeAntisymmetric(x.case_.caseId, y.case_.caseId); }
    }
    SortedArrangementUnique(Sort(ds, ByIssueThenId), ds, ByIssueThenId);
  }

  // Collecting again in the same hour at the same locations, whatever the providers
  // answer this time, changes nothing.
  lemma CollectingTwiceIsCollectingOnce(ds: seq<Record>, job: Job, again: Job)
    requires DatasetOk(ds) && JobOk(job) && job.Collect? && again.Collect? && JobResult(ds, job).Ok?
    requires again.locations == job.locations && again.leadHours == job.leadHours && again.feed.stamp == job.feed.stamp
    requires again.now - again.now % HOUR == job.now - job.now % HOUR
    ensures AfterJob(AfterJob(ds, job), again) == AfterJob(ds, job)
  {
    hide DatasetOk, Loadable, LeadOf, CaseIdFor, LocationsOk, Merged;
    var t := job.now - job.now % HOUR;
    var first := Sort(Built(job.feed, job.locations, t, job.leadHours), ByCaseId);
    var second := Sort(Built(again.feed, again.locations, t, again.leadHours), ByCaseId);
    var es := AfterJob(ds, job);
    assert es == Merged(ds, first);
    JobKeepsDataset(ds, job);
    SameIdsAgain(ds, job.feed, again.feed, job.locations, t, job.leadHours);
    assert second == Sort(Built(again.feed, job.locations, t, job.leadHours), ByCaseId);
    assert AllKnown(es, second);
    NothingUnseen(es, second);
    SortedAlready(es);
    MergedWithNothing(es, second);
  }

  lemma MergedWithNothing(es: seq<Record>, second: seq<Record>)
    requires Unseen(es, second) == [] && Sort(es, ByIssueThenId) == es
    ensures Merged(es, second) == es
  {
    assert es + [] == es;
  }

  lemma SameIdsAgain(ds: seq<Record>, f: Feed, g: Feed, ls: seq<Location>, t: int, leadHours: int)
    requires DatasetOk(ds) && LocationsOk(ls) && leadHours >= 1 && f.stamp == g.stamp
    ensures var es := Merged(ds, Sort(Built(f, ls, t, leadHours), ByCaseId));
      var second := Sort(Built(g, ls, t, leadHours), ByCaseId);
      AllKnown(es, second)
  {
    hide CaseOk, Horizon, LeadOf, InOrder, Merged;
    var first := Sort(Built(f, ls, t, leadHours), ByCaseId);
    var second := Sort(Built(g, ls, t, leadHours), ByCaseId);
    var es := Merged(ds, first);
    CollectedIsFresh(f, ls, t, leadHours);
    MergeMembers(ds, first);
    SortKeepsElements(Built(f, ls, t, leadHours), ByCaseId);
    SortKeepsElements(Built(g, ls, t, leadHours), ByCaseId);
    forall i | 0 <= i < |second| ensures Known(es, second[i].case_.caseId) {
      assert second[i] in Built(g, ls, t, leadHours);
      var k :| 0 <= k < |ls| && second[i] == BuildRecord(g, ls[k], t, leadHours);
      var r := Built(f, ls, t, leadHours)[k];
      assert r in first && r.case_.caseId == second[i].case_.caseId;
      if Known(ds, r.case_.caseId) {
        var n :| 0 <= n < |ds| && ds[n].case_.caseId == r.case_.caseId;
        assert ds[n] in es;
      } else {
        assert r in es;
      }
    }
  }

  // Resolving again at the same time against the same observations changes nothing.
  lemma ResolvingTwiceIsResolvingOnce(ds: seq<Record>, observe: Question -> Resolution, now: int)
    ensures ResolvedAll(ResolvedAll(ds, observe, now), observe, now) == ResolvedAll(ds, observe, now)
  {
  }

  // ------------------------------------------------------- past selections stay fixed

  lemma {:induction false} HistoryInOrder(cases: seq<Case>, t: int)
    requires CasesInOrder(cases)
    ensures CasesInOrder(History(cases, t))
  {
    hide Before, Visible;
    if cases != [] {
      var n := |cases| - 1;
      var front := History(cases[..n], t);
      HistoryInOrder(cases[..n], t);
      HistoryKeepsResolved(cases[..n], t);
      forall i | 0 <= i < |front| ensures Before(front[i], cases[n]) {
        assert front[i] in cases[..n];
      }
    }
  }

  // Merging fresh cases leaves every history as it was, wherever the new cases go.
  lemma MergeKeepsHistory(ds: seq<Record>, new_: seq<Record>, issuedAt: int, lead: int, t: int)
    requires DatasetOk(ds) && Fresh(new_, issuedAt, lead)
    ensures History(CasesOf(Merged(ds, new_)), t) == History(CasesOf(ds), t)
  {
    hide CaseOk, Horizon, LeadOf, Before, Merged, History, Known;
    var a, b := CasesOf(ds), CasesOf(Merged(ds, new_));
    MergeMembers(ds, new_);
    HistoryInOrder(a, t);
    HistoryInOrder(b, t);
    HistoryKeepsResolved(a, t);
    HistoryKeepsResolved(b, t);
    forall c ensures c in History(a, t) <==> c in History(b, t) {
      MergedVisible(ds, new_, issuedAt, lead, t, c);
    }
    OrderedMembersDecide(History(b, t), History(a, t));
  }

  lemma MergedVisible(ds: seq<Record>, new_: seq<Record>, issuedAt: int, lead: int, t: int, c: Case)
    requires IdsDiffer(ds) && Fresh(new_, issuedAt, lead)
    ensures c in CasesOf(ds) && Visible(c, t) <==> c in CasesOf(Merged(ds, new_)) && Visible(c, t)
  {
    hide CaseOk, Horizon, LeadOf, Merged, InOrder, Known;
    MergeMembers(ds, new_);
    var m := Merged(ds, new_);
    if c in CasesOf(ds) {
      var i :| 0 <= i < |ds| && ds[i].case_ == c;
      assert ds[i] in m;
      var k :| 0 <= k < |m| && m[k] == ds[i];
      assert CasesOf(m)[k] == c;
    }
    if c in CasesOf(m) && Visible(c, t) {
      var k :| 0 <= k < |m| && m[k].case_ == c;
      assert m[k] in m;
      assert m[k] in ds;
      var i :| 0 <= i < |ds| && ds[i] == m[k];
      assert CasesOf(ds)[i] == c;
    }
  }

  ghost predicate NothingResolved(ds: seq<Record>, observe: Question -> Resolution, now: int) {
    forall i :: 0 <= i < |ds| ==> TallyOf(ds[i], observe, now) != NewlyResolved
  }

  // Resolving leaves the history of an instant alone exactly when it happens after that
  // instant, or resolves nothing.
  lemma ResolveKeepsHistoryExactly(ds: seq<Record>, observe: Question -> Resolution, now: int, t: int)
    requires DatasetOk(ds)
    ensures History(CasesOf(ResolvedAll(ds, observe, now)), t) == History(CasesOf(ds), t)
            <==> now > t || NothingResolved(ds, observe, now)
  {
    hide DatasetOk, History, TallyOf, ResolveRecord, AgreeOnVisible;
    var es := ResolvedAll(ds, observe, now);
    if now > t || NothingResolved(ds, observe, now) {
      LateResolutionIsInvisible(ds, observe, now, t);
      SameVisibleSameHistory(CasesOf(es), CasesOf(ds), t, t);
    } else {
      var i :| 0 <= i < |ds| && TallyOf(ds[i], observe, now) == NewlyResolved;
      EarlyResolutionShows(ds, observe, now, t, i);
      HistoryKeepsResolved(CasesOf(ds), t);
      HistoryKeepsResolved(CasesOf(es), t);
    }
  }

  lemma LateResolutionIsInvisible(ds: seq<Record>, observe: Question -> Resolution, now: int, t: int)
    requires DatasetOk(ds) && (now > t || NothingResolved(ds, observe, now))
    ensures AgreeOnVisible(CasesOf(ResolvedAll(ds, observe, now)), CasesOf(ds), t)
  {
    hide InOrder, IdsDiffer, Horizon, LeadOf;
  }

  lemma EarlyResolutionShows(ds: seq<Record>, observe: Question -> Resolution, now: int, t: int, i: nat)
    requires DatasetOk(ds) && i < |ds| && TallyOf(ds[i], observe, now) == NewlyResolved && now <= t
    ensures var c := ResolveRecord(ds[i], observe, now).case_;
      Visible(c, t) && c in CasesOf(ResolvedAll(ds, observe, now)) && c !in CasesOf(ds)
  {
    hide InOrder, Horizon, LeadOf, CaseOk;
    var c := ResolveRecord(ds[i], observe, now).case_;
    assert CasesOf(ResolvedAll(ds, observe, now))[i] == c;
    forall k | 0 <= k < |ds| ensures CasesOf(ds)[k] != c {
      assert k != i ==> ds[k].case_.caseId != ds[i].case_.caseId;
    }
  }

  // A job leaves the history of an instant alone, unless it resolves cases no later.
  ghost predicate After(job: Job, t: int) { job.Resolve? ==> job.now > t }

  lemma JobKeepsHistory(ds: seq<Record>, job: Job, t: int)
    requires DatasetOk(ds) && JobOk(job) && After(job, t)
    ensures History(CasesOf(AfterJob(ds, job)), t) == History(CasesOf(ds), t)
  {
    hide DatasetOk, Loadable, LocationsOk, LeadChanges, Merged, Fresh, History;
    match job {
      case Resolve(observe, now) => ResolveKeepsHistoryExactly(ds, observe, now, t);
      case Collect(f, ls, now, leadHours) =>
        if leadHours >= 1 {
          CollectedIsFresh(f, ls, now - now % HOUR, leadHours);
          MergeKeepsHistory(ds, Sort(Built(f, ls, now - now % HOUR, leadHours), ByCaseId),
                            now - now % HOUR, leadHours * HOUR, t);
        }
    }
  }

  lemma {:induction false} JobsKeepHistory(ds: seq<Record>, jobs: seq<Job>, t: int)
    requires DatasetOk(ds) && forall j :: j in jobs ==> JobOk(j) && After(j, t)
    ensures History(CasesOf(AfterJobs(ds, jobs)), t) == History(CasesOf(ds), t)
    decreases |jobs|
  {
    hide DatasetOk, JobOk, AfterJob, After, History;
    if jobs != [] {
      JobKeepsDataset(ds, jobs[0]);
      JobKeepsHistory(ds, jobs[0], t);
      JobsKeepHistory(AfterJob(ds, jobs[0]), jobs[1..], t);
    }
  }

  // Past selections are fixed: whatever is collected later, and whatever is resolved
  // after a case was issued, the backtest decides that case as it did before.
  lemma PastSelectionsStay(ds: seq<Record>, jobs: seq<Job>, policy: Policy, i: nat, k: nat, r: TraceRow, q: TraceRow)
    requires DatasetOk(ds) && policy.minValid >= 1 && i < |ds| && k < |AfterJobs(ds, jobs)|
    requires ds[i].case_.caseId == AfterJobs(ds, jobs)[k].case_.caseId
    requires forall j :: j in jobs ==> JobOk(j) && After(j, ds[i].case_.issuedAt)
    requires IsDecision(CasesOf(ds), policy, i, r) && IsDecision(CasesOf(AfterJobs(ds, jobs)), policy, k, q)
    ensures SameDecision(r, q)
  {
    hide DatasetOk, JobOk, AfterJobs, After, History, IsDecision;
    var es := AfterJobs(ds, jobs);
    var t := ds[i].case_.issuedAt;
    JobsKeepHistory(ds, jobs, t);
    OutcomesAreWriteOnce(ds, jobs);
    JobsKeepDataset(ds, jobs);
    SameIdSameIssue(ds, es, i, k);
    SameHistorySameDecision(CasesOf(ds), CasesOf(es), policy, i, k, r, q);
  }

  lemma SameIdSameIssue(ds: seq<Record>, es: seq<Record>, i: nat, k: nat)
    requires CarriesAll(ds, es) && DatasetOk(es) && i < |ds| && k < |es|
    requires ds[i].case_.caseId == es[k].case_.caseId
    ensures ds[i].case_.issuedAt == es[k].case_.issuedAt
  {
    hide CaseOk, InOrder;
    assert CarriedIn(ds[i], es);
    var n :| 0 <= n < |es| && Carries(ds[i], es[n]);
    assert es[n].case_.caseId == es[k].case_.caseId;
    assert n == k;
  }
}
