// No leakage: decisions depend on visible history alone, and eligibility only grows.
module BacktestLaws {
  import opened Scoring
  import opened Backtest

  // A provider with a valid past attempt is named by a visible case.
  lemma {:induction false} ValidNeedsForecast(history: seq<Case>, p: string)
    requires ValidCount(Attempts(history, p)) > 0
    ensures exists i :: 0 <= i < |history| && p in history[i].forecasts
  {
    var n := |history| - 1;
    assert Attempts(history, p)[..n] == Attempts(history[..n], p);
    if IsValid(ToBrierCase(history[n], p)) {
      assert p in history[n].forecasts;
    } else {
      ValidNeedsForecast(history[..n], p);
      var i :| 0 <= i < n && p in history[..n][i].forecasts;
      assert p in history[i].forecasts;
    }
  }

  lemma NamedByHistory(cases: seq<Case>, t: int, p: string)
    requires ValidCount(Attempts(History(cases, t), p)) > 0
    ensures p in ProviderNames(cases)
  {
    hide Attempts, ValidCount, History;
    ValidNeedsForecast(History(cases, t), p);
    HistoryKeepsResolved(cases, t);
    var i :| 0 <= i < |History(cases, t)| && p in History(cases, t)[i].forecasts;
    var c := History(cases, t)[i];
    assert c in cases;
    var k :| 0 <= k < |cases| && cases[k] == c;
    assert p in cases[k].forecasts;
  }

  // Eligible providers and their profiles follow from the visible history alone: who
  // else appears in the data does not matter.
  lemma ProfilesDependOnHistory(a: seq<Case>, b: seq<Case>, t: int, minValid: int, round: real -> real)
    requires minValid >= 1 && History(a, t) == History(b, t)
    ensures Profiles(ProviderNames(a), History(a, t), minValid, round)
         == Profiles(ProviderNames(b), History(b, t), minValid, round)
  {
    hide History, ProviderNames, ProfileOf, Attempts, ValidCount;
    forall p | ValidCount(Attempts(History(a, t), p)) >= minValid
      ensures p in ProviderNames(a) && p in ProviderNames(b)
    {
      NamedByHistory(a, t, p);
      NamedByHistory(b, t, p);
    }
  }

  ghost predicate SameDecision(r: TraceRow, q: TraceRow) {
    r.profiles == q.profiles && r.selected == q.selected && r.historyCases == q.historyCases
    && r.historyThrough == q.historyThrough
  }

  // Two cases, in two datasets, issued at one time on one history, are decided alike.
  lemma SameHistorySameDecision(a: seq<Case>, b: seq<Case>, policy: Policy, i: nat, k: nat, r: TraceRow, q: TraceRow)
    requires policy.minValid >= 1 && i < |a| && k < |b| && a[i].issuedAt == b[k].issuedAt
    requires History(a, a[i].issuedAt) == History(b, b[k].issuedAt)
    requires IsDecision(a, policy, i, r) && IsDecision(b, policy, k, q)
    ensures SameDecision(r, q)
  {
    hide History, ProviderNames, Profiles, IssuedAtCount, IsBest;
    ProfilesDependOnHistory(a, b, a[i].issuedAt, policy.minValid, policy.round);
    if r.profiles != map[] { BestIsUnique(r.profiles, r.selected.value, q.selected.value); }
  }

  // The two datasets may differ where nothing is visible at t, in either.
  ghost predicate AgreeOnVisible(a: seq<Case>, b: seq<Case>, t: int) {
    |a| == |b| && forall i :: 0 <= i < |a| ==> a[i] == b[i] || (!Visible(a[i], t) && !Visible(b[i], t))
  }

  lemma {:induction false} SameVisibleSameHistory(a: seq<Case>, b: seq<Case>, t: int, u: int)
    requires AgreeOnVisible(a, b, t) && u <= t
    ensures History(a, u) == History(b, u)
  {
    if a != [] {
      SameVisibleSameHistory(a[..|a| - 1], b[..|b| - 1], t, u);
    }
  }

  // Two runs: whatever differs only in cases resolved after t, or not at all, changes
  // no decision for a case issued by t.
  lemma NoLeakage(a: seq<Case>, b: seq<Case>, t: int, policy: Policy, i: nat, r: TraceRow, q: TraceRow)
    requires AgreeOnVisible(a, b, t) && policy.minValid >= 1
    requires i < |a| && a[i].issuedAt == b[i].issuedAt <= t
    requires IsDecision(a, policy, i, r) && IsDecision(b, policy, i, q)
    ensures SameDecision(r, q)
  {
    hide History, IsDecision;
    SameVisibleSameHistory(a, b, t, a[i].issuedAt);
    SameHistorySameDecision(a, b, policy, i, i, r, q);
  }

  // In particular a case's own outcome and forecasts, and those of every case issued no
  // earlier, play no part in its decision.
  lemma OwnOutcomePlaysNoPart(a: seq<Case>, b: seq<Case>, policy: Policy, i: nat, r: TraceRow, q: TraceRow)
    requires |a| == |b| && i < |a| && policy.minValid >= 1 && a[i].issuedAt == b[i].issuedAt
    requires forall n :: 0 <= n < |a| ==>
               a[n] == b[n]
               || (CaseOk(a[n]) && CaseOk(b[n]) && a[n].issuedAt >= a[i].issuedAt && b[n].issuedAt >= a[i].issuedAt)
    requires IsDecision(a, policy, i, r) && IsDecision(b, policy, i, q)
    ensures SameDecision(r, q)
  {
    hide IsDecision;
    assert AgreeOnVisible(a, b, a[i].issuedAt);
    NoLeakage(a, b, a[i].issuedAt, policy, i, r, q);
  }

  // ------------------------------------------------------------- eligibility grows

  lemma {:induction false} ValidHistoryGrows(cases: seq<Case>, p: string, t: int, u: int)
    requires t <= u
    ensures ValidCount(Attempts(History(cases, t), p)) <= ValidCount(Attempts(History(cases, u), p))
  {
    if cases != [] {
      var n := |cases| - 1;
      ValidHistoryGrows(cases[..n], p, t, u);
      AttemptsAppend(History(cases[..n], t), cases[n], p);
      AttemptsAppend(History(cases[..n], u), cases[n], p);
      assert History(cases[..n], t) + [] == History(cases[..n], t);
      assert History(cases[..n], u) + [] == History(cases[..n], u);
    }
  }

  lemma AttemptsAppend(history: seq<Case>, c: Case, p: string)
    ensures ValidCount(Attempts(history + [c], p))
         == ValidCount(Attempts(history, p)) + if IsValid(ToBrierCase(c, p)) then 1 else 0
  {
    hide IsValid, ToBrierCase;
    var all := Attempts(history + [c], p);
    assert all[..|history|] == Attempts(history, p);
    assert all[|history|] == ToBrierCase(c, p);
  }

  // Along the trace an eligible provider stays eligible, so once a provider is selected
  // every later case has a selection.
  lemma EligibilityGrows(cases: seq<Case>, policy: Policy, i: nat, k: nat, r: TraceRow, q: TraceRow)
    requires ValidChronology(cases) && policy.minValid >= 1 && i < k < |cases|
    requires IsDecision(cases, policy, i, r) && IsDecision(cases, policy, k, q)
    ensures r.profiles.Keys <= q.profiles.Keys
    ensures r.selected.Some? ==> q.selected.Some?
  {
    hide History, Attempts, ValidCount, ProviderNames, ProfileOf, IssuedAtCount, IsBest, IsLatestResolution;
    assert Before(cases[i], cases[k]);
    forall p | p in r.profiles ensures p in q.profiles {
      ValidHistoryGrows(cases, p, cases[i].issuedAt, cases[k].issuedAt);
    }
    if r.selected.Some? {
      var p :| p in r.profiles;
      assert p in q.profiles;
    }
  }
}
