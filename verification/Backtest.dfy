// The chronological provider backtest: which history a case is decided on, which
// provider is chosen, and what the batched loop computes.
module Backtest {
  import opened Prelude
  import opened Scoring

  datatype Attempt = Attempt(probability: Option<real>, status: AttemptStatus)

  // Times are instants; an outcome and its resolution time come together.
  datatype Case = Case(
    caseId: string,
    issuedAt: int,
    cutoff: int,
    horizonStart: int,
    horizonEnd: int,
    outcome: Option<int>,
    resolvedAt: Option<int>,
    climatology: real,
    forecasts: map<string, Attempt>)

  // `str.strip()` leaves something.
  predicate NotBlank(s: string) {
    exists i :: 0 <= i < |s| && s[i] !in {' ', '\t', '\n', '\r', 11 as char, 12 as char}
  }

  predicate AttemptOk(a: Attempt) {
    a.status == ValidStatus ==> a.probability.Some? && 0.0 <= a.probability.value <= 1.0
  }

  // The checks a case passes when it is built.
  predicate CaseOk(c: Case) {
    && NotBlank(c.caseId)
    && (c.outcome.Some? ==> c.outcome.value in {0, 1})
    && 0.0 <= c.climatology <= 1.0
    && c.forecasts != map[]
    && (forall p :: p in c.forecasts ==> NotBlank(p) && AttemptOk(c.forecasts[p]))
    && c.issuedAt <= c.cutoff < c.horizonStart < c.horizonEnd
    && (c.outcome.None? <==> c.resolvedAt.None?)
    && (c.resolvedAt.Some? ==> c.resolvedAt.value >= c.horizonEnd)
  }

  function Horizon(c: Case): int { c.horizonEnd - c.horizonStart }

  predicate Before(a: Case, b: Case) {
    a.issuedAt < b.issuedAt || (a.issuedAt == b.issuedAt && a.caseId != b.caseId && TextLe(a.caseId, b.caseId))
  }

  // ------------------------------------------------------------------- chronology

  datatype ChronologyError = Empty | DuplicateId | MixedHorizons | Unordered | TiesUnordered

  ghost predicate ValidChronology(cases: seq<Case>) {
    && cases != []
    && (forall i, k :: 0 <= i < k < |cases| ==> cases[i].caseId != cases[k].caseId)
    && (forall i, k :: 0 <= i < k < |cases| ==> Horizon(cases[i]) == Horizon(cases[k]))
    && (forall i, k :: 0 <= i < k < |cases| ==> Before(cases[i], cases[k]))
  }

  lemma BeforeTransitive(a: Case, b: Case, c: Case)
    requires Before(a, b) && Before(b, c)
    ensures Before(a, c)
  {
    if a.issuedAt == c.issuedAt {
      TextLeTransitive(a.caseId, b.caseId, c.caseId);
      if a.caseId == c.caseId { TextLeAntisymmetric(a.caseId, b.caseId); }
    }
  }

  // What each refusal points at.
  ghost predicate ProblemShows(cases: seq<Case>, e: ChronologyError) {
    match e
    case Empty => cases == []
    case DuplicateId => exists i, k :: 0 <= i < k < |cases| && cases[i].caseId == cases[k].caseId
    case MixedHorizons => exists k :: 0 < k < |cases| && Horizon(cases[k]) != Horizon(cases[0])
    case Unordered => exists k :: 0 < k < |cases| && cases[k].issuedAt < cases[k - 1].issuedAt
    case TiesUnordered =>
      exists k :: 0 < k < |cases| && cases[k].issuedAt == cases[k - 1].issuedAt
                  && TextLe(cases[k].caseId, cases[k - 1].caseId)
  }

  // Rejects duplicate ids, mixed horizons and input out of order; accepts exactly the
  // chronological sequences.
  method ValidateChronology(cases: seq<Case>) returns (r: Option<ChronologyError>)
    ensures r.None? <==> ValidChronology(cases)
    ensures r.Some? ==> ProblemShows(cases, r.value)
  {
    if cases == [] { return Some(Empty); }
    var seen: set<string> := {};
    var i := 0;
    while i < |cases|
      invariant 0 <= i <= |cases|
      invariant forall id :: id in seen <==> exists n :: 0 <= n < i && cases[n].caseId == id
      invariant i > 0 ==> ValidChronology(cases[..i])
    {
      var c := cases[i];
      if c.caseId in seen {
        assert !ValidChronology(cases);
        return Some(DuplicateId);
      }
      if i > 0 && Horizon(c) != Horizon(cases[0]) {
        assert !ValidChronology(cases);
        return Some(MixedHorizons);
      }
      if i > 0 && c.issuedAt < cases[i - 1].issuedAt {
        assert !Before(cases[i - 1], c);
        return Some(Unordered);
      }
      if i > 0 && c.issuedAt == cases[i - 1].issuedAt && TextLe(c.caseId, cases[i - 1].caseId) {
        if TextLe(cases[i - 1].caseId, c.caseId) { TextLeAntisymmetric(c.caseId, cases[i - 1].caseId); }
        assert !Before(cases[i - 1], c);
        return Some(TiesUnordered);
      }
      if i > 0 {
        TextLeTotal(cases[i - 1].caseId, c.caseId);
        ChronologyGrows(cases, i);
      }
      seen := seen + {c.caseId};
      i := i + 1;
    }
    assert cases[..|cases|] == cases;
    return None;
  }

  lemma ChronologyGrows(cases: seq<Case>, i: nat)
    requires 0 < i < |cases| && ValidChronology(cases[..i])
    requires forall n :: 0 <= n < i ==> cases[n].caseId != cases[i].caseId
    requires Horizon(cases[i]) == Horizon(cases[0]) && Before(cases[i - 1], cases[i])
    ensures ValidChronology(cases[..i + 1])
  {
    hide Before, TextLe;
    var less, more := cases[..i], cases[..i + 1];
    assert forall n :: 0 <= n < i ==> more[n] == less[n];
    forall a, b | 0 <= a < b < |more| ensures Before(more[a], more[b]) && Horizon(more[a]) == Horizon(more[b]) {
      if b == i && a < i - 1 {
        assert Before(less[a], less[i - 1]);
        BeforeTransitive(more[a], more[i - 1], more[i]);
      }
    }
  }

  // --------------------------------------------------------------------- selection

  function ToBrierCase(c: Case, provider: string): BrierCase {
    var a := if provider in c.forecasts then c.forecasts[provider] else Attempt(None, Missing);
    BrierCase(c.caseId, a.probability, c.outcome, c.climatology, a.status)
  }

  function Attempts(cases: seq<Case>, provider: string): (r: seq<BrierCase>)
    ensures |r| == |cases| && forall i :: 0 <= i < |r| ==> r[i] == ToBrierCase(cases[i], provider)
  {
    seq(|cases|, i requires 0 <= i < |cases| => ToBrierCase(cases[i], provider))
  }

  predicate Visible(c: Case, t: int) { c.resolvedAt.Some? && c.resolvedAt.value <= t }

  // The cases whose resolution was visible at an instant, wherever they stand.
  function History(cases: seq<Case>, t: int): seq<Case> {
    if cases == [] then []
    else History(cases[..|cases| - 1], t) + if Visible(cases[|cases| - 1], t) then [cases[|cases| - 1]] else []
  }

  ghost function ProviderNames(cases: seq<Case>): set<string> {
    set i, p | 0 <= i < |cases| && p in cases[i].forecasts :: p
  }

  datatype Profile = Profile(total: nat, valid: nat, coverage: real, brier: real, endToEnd: real)

  // The figures of a profile, rounded; rounding is a parameter.
  ghost function ProfileOf(history: seq<BrierCase>, round: real -> real): Profile
    requires ValidCount(history) > 0
  {
    var t, v := |history|, ValidCount(history);
    ValidAtMostTotal(history);
    Profile(t, v, round(v as real / t as real), round(Sum(history, CaseLoss) / v as real),
            round(Sum(history, ScoreAttempt) / t as real))
  }

  // The providers with enough valid history, and their profiles.
  ghost function Profiles(names: set<string>, history: seq<Case>, minValid: int, round: real -> real)
    : map<string, Profile>
    requires minValid >= 1
  {
    map p | p in names && ValidCount(Attempts(history, p)) >= minValid :: ProfileOf(Attempts(history, p), round)
  }

  // Higher end-to-end score first, then lower Brier score, then the name.
  predicate AtLeastAsGood(profiles: map<string, Profile>, p: string, q: string)
    requires p in profiles && q in profiles
  {
    var a, b := profiles[p], profiles[q];
    a.endToEnd > b.endToEnd
    || (a.endToEnd == b.endToEnd && (a.brier < b.brier || (a.brier == b.brier && TextLe(p, q))))
  }

  ghost predicate IsBest(profiles: map<string, Profile>, p: string) {
    p in profiles && forall q :: q in profiles ==> AtLeastAsGood(profiles, p, q)
  }

  // The tie-breakers leave one best provider at most.
  lemma BestIsUnique(profiles: map<string, Profile>, p: string, q: string)
    requires IsBest(profiles, p) && IsBest(profiles, q)
    ensures p == q
  {
    assert AtLeastAsGood(profiles, p, q) && AtLeastAsGood(profiles, q, p);
    TextLeAntisymmetric(p, q);
  }

  ghost predicate IsSelected(profiles: map<string, Profile>, selected: Option<string>) {
    if profiles == map[] then selected.None? else selected.Some? && IsBest(profiles, selected.value)
  }

  lemma AsGoodTransitive(profiles: map<string, Profile>, p: string, q: string, r: string)
    requires p in profiles && q in profiles && r in profiles
    requires AtLeastAsGood(profiles, p, q) && AtLeastAsGood(profiles, q, r)
    ensures AtLeastAsGood(profiles, p, r)
  {
    if TextLe(p, q) && TextLe(q, r) { TextLeTransitive(p, q, r); }
  }

  // The minimum over the profiles, by passing over them once in any order.
  method ChooseBest(profiles: map<string, Profile>) returns (selected: Option<string>)
    ensures IsSelected(profiles, selected)
  {
    selected := None;
    var rest := profiles.Keys;
    while rest != {}
      invariant rest <= profiles.Keys
      invariant selected.None? <==> rest == profiles.Keys
      invariant selected.Some? ==> selected.value in profiles
      invariant selected.Some? ==>
                  forall q :: q in profiles && q !in rest ==> AtLeastAsGood(profiles, selected.value, q)
      decreases rest
    {
      hide AtLeastAsGood;
      var p :| p in rest;
      var before := selected;
      TakeBetter(profiles, before, p);
      if before.None? || BetterThan(profiles, p, before.value) { selected := Some(p); }
      if before.Some? {
        forall q | q in profiles && q !in rest - {p} ensures AtLeastAsGood(profiles, selected.value, q) {
          if q != p && selected != before { AsGoodTransitive(profiles, p, before.value, q); }
        }
      } else {
        assert forall q :: q in profiles && q !in rest - {p} ==> q == p;
      }
      rest := rest - {p};
    }
    assert profiles.Keys != {} ==> selected.Some?;
  }

  predicate BetterThan(profiles: map<string, Profile>, p: string, q: string)
    requires p in profiles && q in profiles
  {
    !AtLeastAsGood(profiles, q, p)
  }

  lemma TakeBetter(profiles: map<string, Profile>, before: Option<string>, p: string)
    requires p in profiles && (before.Some? ==> before.value in profiles)
    ensures AtLeastAsGood(profiles, p, p)
    ensures before.Some? ==>
              if BetterThan(profiles, p, before.value) then AtLeastAsGood(profiles, p, before.value)
              else AtLeastAsGood(profiles, before.value, p)
  {
    TextLeTotal(p, p);
    if before.Some? { TextLeTotal(p, before.value); }
  }

  // ---------------------------------------------------------------------- the trace

  datatype TraceRow = TraceRow(
    caseId: string,
    issuedAt: int,
    holdout: bool,
    historyCases: nat,
    historyThrough: Option<int>,
    batchSize: nat,
    profiles: map<string, Profile>,
    selected: Option<string>,
    attempt: Option<BrierCase>)

  datatype Policy = Policy(warmup: int, minValid: int, round: real -> real)

  function IssuedAtCount(cases: seq<Case>, t: int): nat {
    if cases == [] then 0
    else IssuedAtCount(cases[..|cases| - 1], t) + if cases[|cases| - 1].issuedAt == t then 1 else 0
  }

  ghost predicate IsLatestResolution(history: seq<Case>, through: Option<int>) {
    if history == [] then through.None?
    else
      && through.Some?
      && (exists c :: c in history && c.resolvedAt == through)
      && (forall c :: c in history && c.resolvedAt.Some? ==> c.resolvedAt.value <= through.value)
  }

  // The decision for a case, defined without reference to where the case stands or how
  // the data is processed: by everything resolved by its issue time.
  ghost predicate IsDecision(cases: seq<Case>, policy: Policy, i: nat, row: TraceRow)
    requires policy.minValid >= 1 && i < |cases|
  {
    var c := cases[i];
    var history := History(cases, c.issuedAt);
    && row.caseId == c.caseId && row.issuedAt == c.issuedAt
    && row.holdout == (i >= policy.warmup)
    && row.historyCases == |history|
    && IsLatestResolution(history, row.historyThrough)
    && row.batchSize == IssuedAtCount(cases, c.issuedAt)
    && row.profiles == Profiles(ProviderNames(cases), history, policy.minValid, policy.round)
    && IsSelected(row.profiles, row.selected)
    && row.attempt == (if row.selected.Some? then Some(ToBrierCase(c, row.selected.value)) else None)
  }

  // ------------------------------------------------------------ the batched loop

  lemma {:induction false} HistoryKeepsResolved(cases: seq<Case>, t: int)
    ensures forall c :: c in History(cases, t) <==> c in cases && Visible(c, t)
  {
    if cases != [] {
      HistoryKeepsResolved(cases[..|cases| - 1], t);
      assert cases == cases[..|cases| - 1] + [cases[|cases| - 1]];
    }
  }

  // Nothing issued at or after an instant is resolved by it, so a prefix has it all.
  lemma {:induction false} PrefixHasTheHistory(cases: seq<Case>, n: nat, t: int)
    requires n <= |cases|
    requires forall i :: n <= i < |cases| ==> CaseOk(cases[i]) && cases[i].issuedAt >= t
    ensures History(cases[..n], t) == History(cases, t)
  {
    if n == |cases| {
      assert cases[..n] == cases;
    } else {
      var front := cases[..|cases| - 1];
      assert front[..n] == cases[..n];
      PrefixHasTheHistory(front, n, t);
    }
  }

  // A run of equal issue times inside ordered cases holds all the cases of that time.
  lemma {:induction false} BatchCount(cases: seq<Case>, lo: nat, hi: nat, t: int)
    requires lo <= hi <= |cases|
    requires forall i :: 0 <= i < |cases| ==> (cases[i].issuedAt == t <==> lo <= i < hi)
    ensures IssuedAtCount(cases, t) == hi - lo
  {
    if cases != [] {
      var n := |cases| - 1;
      assert forall i :: 0 <= i < n ==> cases[..n][i] == cases[i];
      BatchCount(cases[..n], if lo <= n then lo else n, if hi <= n then hi else n, t);
    }
  }

  method FindPriors(cases: seq<Case>, t: int) returns (priors: seq<Case>, through: Option<int>)
    ensures priors == History(cases, t) && IsLatestResolution(priors, through)
  {
    priors, through := [], None;
    var i := 0;
    while i < |cases|
      invariant 0 <= i <= |cases|
      invariant priors == History(cases[..i], t) && IsLatestResolution(priors, through)
    {
      var c := cases[i];
      assert cases[..i + 1][..i] == cases[..i];
      if c.resolvedAt.Some? && c.resolvedAt.value <= t {
        var later := priors + [c];
        assert forall x :: x in later <==> x in priors || x == c;
        priors := later;
        through := if through.Some? && through.value > c.resolvedAt.value then through else c.resolvedAt;
      }
      i := i + 1;
    }
    assert cases[..|cases|] == cases;
  }

  method CollectProviderNames(cases: seq<Case>) returns (names: set<string>)
    ensures names == ProviderNames(cases)
  {
    names := {};
    var i := 0;
    while i < |cases|
      invariant 0 <= i <= |cases|
      invariant names == ProviderNames(cases[..i])
    {
      NamesOfOneMore(cases, i);
      names := names + cases[i].forecasts.Keys;
      i := i + 1;
    }
    assert cases[..|cases|] == cases;
  }

  lemma NamesOfOneMore(cases: seq<Case>, i: nat)
    requires i < |cases|
    ensures ProviderNames(cases[..i + 1]) == ProviderNames(cases[..i]) + cases[i].forecasts.Keys
  {
    var less, more := cases[..i], cases[..i + 1];
    assert forall n :: 0 <= n < i ==> more[n] == less[n];
    assert more[i] == cases[i];
    forall p ensures p in ProviderNames(more) <==> p in ProviderNames(less) + cases[i].forecasts.Keys {
      if p in ProviderNames(less) {
        var n :| 0 <= n < |less| && p in less[n].forecasts;
        assert p in more[n].forecasts;
      }
      if p in cases[i].forecasts { assert p in more[i].forecasts; }
    }
  }

  method PriorProfile(history: seq<BrierCase>, minValid: int, round: real -> real) returns (r: Option<Profile>)
    requires minValid >= 1
    ensures r.Some? <==> ValidCount(history) >= minValid
    ensures r.Some? ==> r.value == ProfileOf(history, round)
  {
    ValidAtMostTotal(history);
    var s := EvaluateBrier(history);
    if s.valid < minValid { return None; }
    return Some(Profile(|history|, s.valid, round(s.valid as real / |history| as real), round(s.brier.value),
                        round(s.endToEnd)));
  }

  lemma ProfilesOfOneMore(names: set<string>, p: string, priors: seq<Case>, minValid: int, round: real -> real)
    requires minValid >= 1 && p !in names
    ensures Profiles(names + {p}, priors, minValid, round)
         == if ValidCount(Attempts(priors, p)) >= minValid
            then Profiles(names, priors, minValid, round)[p := ProfileOf(Attempts(priors, p), round)]
            else Profiles(names, priors, minValid, round)
  {
    hide ProfileOf, ValidCount, Attempts;
  }

  method ChooseProvider(names: set<string>, priors: seq<Case>, minValid: int, round: real -> real)
    returns (selected: Option<string>, profiles: map<string, Profile>)
    requires minValid >= 1
    ensures profiles == Profiles(names, priors, minValid, round) && IsSelected(profiles, selected)
  {
    profiles := map[];
    var rest := names;
    while rest != {}
      invariant rest <= names
      invariant profiles == Profiles(names - rest, priors, minValid, round)
      decreases rest
    {
      hide ProfileOf, ValidCount, Profiles, IsSelected;
      var p :| p in rest;
      var profile := PriorProfile(Attempts(priors, p), minValid, round);
      assert names - (rest - {p}) == (names - rest) + {p};
      ProfilesOfOneMore(names - rest, p, priors, minValid, round);
      if profile.Some? { profiles := profiles[p := profile.value]; }
      rest := rest - {p};
    }
    assert names - {} == names;
    selected := ChooseBest(profiles);
  }

  datatype BacktestError = Chronology(error: ChronologyError) | BadWarmup | BadMinimum

  // What is scored: the holdout decisions, and the attempts of those already resolved.
  datatype Report = Report(trace: seq<TraceRow>, decisions: nat, scored: seq<BrierCase>, counts: map<string, nat>)

  function Decisions(trace: seq<TraceRow>): nat {
    if trace == [] then 0
    else
      var last := trace[|trace| - 1];
      Decisions(trace[..|trace| - 1]) + if last.holdout && last.selected.Some? then 1 else 0
  }

  predicate IsScored(c: Case, row: TraceRow) {
    row.holdout && row.selected.Some? && row.attempt.Some? && c.resolvedAt.Some?
  }

  function Scored(cases: seq<Case>, trace: seq<TraceRow>): seq<BrierCase>
    requires |trace| <= |cases|
  {
    if trace == [] then []
    else
      var n := |trace| - 1;
      Scored(cases, trace[..n]) + if IsScored(cases[n], trace[n]) then [trace[n].attempt.value] else []
  }

  function TimesScored(cases: seq<Case>, trace: seq<TraceRow>, p: string): nat
    requires |trace| <= |cases|
  {
    if trace == [] then 0
    else
      var n := |trace| - 1;
      TimesScored(cases, trace[..n], p) + if IsScored(cases[n], trace[n]) && trace[n].selected == Some(p) then 1 else 0
  }

  ghost predicate IsReport(cases: seq<Case>, r: Report)
    requires |r.trace| <= |cases|
  {
    && r.decisions == Decisions(r.trace)
    && r.scored == Scored(cases, r.trace)
    && (forall p :: p in r.counts <==> TimesScored(cases, r.trace, p) > 0)
    && (forall p :: p in r.counts ==> r.counts[p] == TimesScored(cases, r.trace, p))
  }

  // One row more.
  function AddRow(r: Report, c: Case, row: TraceRow): Report {
    Report(
      r.trace + [row],
      r.decisions + (if row.holdout && row.selected.Some? then 1 else 0),
      if IsScored(c, row) then r.scored + [row.attempt.value] else r.scored,
      if IsScored(c, row)
      then
        r.counts[row.selected.value :=
          (if row.selected.value in r.counts then r.counts[row.selected.value] else 0) + 1]
      else r.counts)
  }

  lemma AddRowKeeps(cases: seq<Case>, r: Report, row: TraceRow)
    requires |r.trace| < |cases| && IsReport(cases, r)
    ensures IsReport(cases, AddRow(r, cases[|r.trace|], row))
  {
    var n := |r.trace|;
    var after := r.trace + [row];
    assert after[..n] == r.trace;
    forall p
      ensures TimesScored(cases, after, p)
           == TimesScored(cases, r.trace, p) + if IsScored(cases[n], row) && row.selected == Some(p) then 1 else 0
    {
    }
  }

  // The batch starting at an index: the cases of its issue time, no others.
  method BatchEnd(cases: seq<Case>, index: nat) returns (end: nat)
    requires ValidChronology(cases) && index < |cases|
    requires index > 0 ==> cases[index - 1].issuedAt < cases[index].issuedAt
    ensures index < end <= |cases|
    ensures end < |cases| ==> cases[end - 1].issuedAt < cases[end].issuedAt
    ensures forall i :: 0 <= i < |cases| ==> (cases[i].issuedAt == cases[index].issuedAt <==> index <= i < end)
    ensures end - index == IssuedAtCount(cases, cases[index].issuedAt)
    ensures forall i :: index <= i < |cases| ==> cases[i].issuedAt >= cases[index].issuedAt
  {
    var t := cases[index].issuedAt;
    end := index + 1;
    while end < |cases| && cases[end].issuedAt == t
      invariant index < end <= |cases|
      invariant forall i :: index <= i < end ==> cases[i].issuedAt == t
    {
      end := end + 1;
    }
    forall i | 0 <= i < |cases| ensures cases[i].issuedAt == t <==> index <= i < end {
      if i < index - 1 { assert Before(cases[i], cases[index - 1]); }
      if end < |cases| { assert Before(cases[end - 1], cases[end]); }
      if end < i { assert Before(cases[end], cases[i]); }
    }
    forall i | index < i < |cases| ensures cases[i].issuedAt >= t {
      assert Before(cases[index], cases[i]);
    }
    BatchCount(cases, index, end, t);
  }

  // The rows of one batch all follow from one selection.
  method AppendBatch(cases: seq<Case>, policy: Policy, index: nat, end: nat, before: Report) returns (after: Report)
    requires policy.minValid >= 1 && index < end <= |cases| && |before.trace| == index
    requires forall c :: c in cases ==> CaseOk(c)
    requires IsReport(cases, before) && forall i :: 0 <= i < index ==> IsDecision(cases, policy, i, before.trace[i])
    requires forall i :: index <= i < |cases| ==> cases[i].issuedAt >= cases[index].issuedAt
    requires forall i :: index <= i < end ==> cases[i].issuedAt == cases[index].issuedAt
    requires end - index == IssuedAtCount(cases, cases[index].issuedAt)
    ensures |after.trace| == end && IsReport(cases, after)
    ensures forall i :: 0 <= i < end ==> IsDecision(cases, policy, i, after.trace[i])
  {
    hide CaseOk, Profiles, IsSelected, IsReport, History, IssuedAtCount, ProviderNames, IsLatestResolution;
    var t := cases[index].issuedAt;
    var names := CollectProviderNames(cases);
    var priors, through := FindPriors(cases[..index], t);
    PrefixHasTheHistory(cases, index, t);
    var selected, profiles := ChooseProvider(names, priors, policy.minValid, policy.round);
    after := before;
    var n := index;
    while n < end
      invariant index <= n <= end && |after.trace| == n && IsReport(cases, after)
      invariant forall i :: 0 <= i < n ==> IsDecision(cases, policy, i, after.trace[i])
    {
      var c := cases[n];
      var attempt := if selected.Some? then Some(ToBrierCase(c, selected.value)) else None;
      var row := TraceRow(c.caseId, c.issuedAt, n >= policy.warmup, |priors|, through, end - index, profiles,
                          selected, attempt);
      assert IsDecision(cases, policy, n, row);
      AddRowKeeps(cases, after, row);
      assert forall i :: 0 <= i < n ==> AddRow(after, c, row).trace[i] == after.trace[i];
      after := AddRow(after, c, row);
      n := n + 1;
    }
  }

  // The batched run computes the position-free decision of every case.
  method RunBacktest(cases: seq<Case>, policy: Policy) returns (r: Result<Report, BacktestError>)
    requires forall c :: c in cases ==> CaseOk(c)
    ensures r.Ok? <==> ValidChronology(cases) && 0 <= policy.warmup < |cases| && policy.minValid >= 1
    ensures r.Err? ==>
              match r.error
              case Chronology(e) => ProblemShows(cases, e)
              case BadWarmup => !(0 <= policy.warmup < |cases|)
              case BadMinimum => policy.minValid < 1
    ensures r.Ok? ==>
              && |r.value.trace| == |cases|
              && IsReport(cases, r.value)
              && forall i :: 0 <= i < |cases| ==> IsDecision(cases, policy, i, r.value.trace[i])
  {
    hide CaseOk, IsDecision, IsReport, ValidChronology, ProblemShows;
    var problem := ValidateChronology(cases);
    if problem.Some? { return Err(Chronology(problem.value)); }
    if !(0 <= policy.warmup < |cases|) { return Err(BadWarmup); }
    if policy.minValid < 1 { return Err(BadMinimum); }
    var report := Report([], 0, [], map[]);
    EmptyReport(cases);
    var index := 0;
    while index < |cases|
      invariant 0 <= index <= |cases| && |report.trace| == index && IsReport(cases, report)
      invariant 0 < index < |cases| ==> cases[index - 1].issuedAt < cases[index].issuedAt
      invariant forall i :: 0 <= i < index ==> IsDecision(cases, policy, i, report.trace[i])
    {
      var end := BatchEnd(cases, index);
      report := AppendBatch(cases, policy, index, end, report);
      index := end;
    }
    return Ok(report);
  }

  lemma EmptyReport(cases: seq<Case>)
    ensures IsReport(cases, Report([], 0, [], map[]))
  {
  }
}
