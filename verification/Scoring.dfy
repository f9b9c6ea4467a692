// The local Brier benchmark, over real numbers.
module Scoring {
  import opened Prelude

  datatype AttemptStatus = ValidStatus | Late | Missing | Invalid | Abstained

  datatype BrierCase = BrierCase(
    caseId: string, probability: Option<real>, outcome: Option<int>, climatology: real, status: AttemptStatus)

  predicate IsValid(c: BrierCase) {
    && c.status == ValidStatus
    && c.outcome.Some? && c.outcome.value in {0, 1}
    && c.probability.Some? && 0.0 <= c.probability.value <= 1.0
  }

  function Loss(probability: real, outcome: int): real {
    (probability - outcome as real) * (probability - outcome as real)
  }

  // The loss of a valid case and the utility of any attempt.
  function CaseLoss(c: BrierCase): real {
    if IsValid(c) then Loss(c.probability.value, c.outcome.value) else 0.0
  }

  function BaselineLoss(c: BrierCase): real {
    if IsValid(c) then Loss(c.climatology, c.outcome.value) else 0.0
  }

  function ScoreAttempt(c: BrierCase): real { if IsValid(c) then 1.0 - CaseLoss(c) else 0.0 }

  lemma ScoreIsBounded(c: BrierCase)
    ensures 0.0 <= ScoreAttempt(c) <= 1.0
  {
    if IsValid(c) {
      var d := c.probability.value - c.outcome.value as real;
      assert -1.0 <= d <= 1.0;
      SquareIsBounded(d);
    }
  }

  lemma SquareIsBounded(d: real)
    requires -1.0 <= d <= 1.0
    ensures 0.0 <= d * d <= 1.0
  {
    if d >= 0.0 { assert d * d <= d * 1.0; } else { assert (-d) * (-d) <= (-d) * 1.0; }
  }

  function Sum(cases: seq<BrierCase>, f: BrierCase -> real): real {
    if cases == [] then 0.0 else Sum(cases[..|cases| - 1], f) + f(cases[|cases| - 1])
  }

  function ValidCount(cases: seq<BrierCase>): nat {
    if cases == [] then 0
    else ValidCount(cases[..|cases| - 1]) + if IsValid(cases[|cases| - 1]) then 1 else 0
  }

  function InvalidCount(cases: seq<BrierCase>, status: AttemptStatus): nat {
    if cases == [] then 0
    else
      InvalidCount(cases[..|cases| - 1], status)
      + if !IsValid(cases[|cases| - 1]) && cases[|cases| - 1].status == status then 1 else 0
  }

  datatype Summary = Summary(
    total: nat,
    valid: nat,
    coverage: real,
    brier: Option<real>,
    quality: Option<real>,
    baseline: Option<real>,
    skill: Option<real>,
    endToEnd: real,
    invalidByStatus: map<AttemptStatus, nat>)

  function SkillScore(model: real, baseline: real): Option<real> {
    if baseline == 0.0 then None else Some(1.0 - model / baseline)
  }

  // What each figure of a summary stands for.
  ghost predicate Summarizes(s: Summary, cases: seq<BrierCase>) {
    var t, v := |cases|, ValidCount(cases);
    && s.total == t && s.valid == v
    && s.coverage == (if t > 0 then v as real / t as real else 0.0)
    && s.endToEnd == (if t > 0 then Sum(cases, ScoreAttempt) / t as real else 0.0)
    && (v == 0 ==> s.brier.None? && s.quality.None? && s.baseline.None? && s.skill.None?)
    && (v > 0 ==>
          && s.brier == Some(Sum(cases, CaseLoss) / v as real)
          && s.quality == Some(1.0 - s.brier.value)
          && s.baseline == Some(Sum(cases, BaselineLoss) / v as real)
          && s.skill == SkillScore(s.brier.value, s.baseline.value))
    && (forall k :: k in s.invalidByStatus <==> InvalidCount(cases, k) > 0)
    && (forall k :: k in s.invalidByStatus ==> s.invalidByStatus[k] == InvalidCount(cases, k))
  }

  method EvaluateBrier(cases: seq<BrierCase>) returns (s: Summary)
    ensures Summarizes(s, cases)
  {
    var total, valid := |cases|, 0;
    var losses, baselines, scores := 0.0, 0.0, 0.0;
    var invalid: map<AttemptStatus, nat> := map[];
    var i := 0;
    while i < |cases|
      invariant 0 <= i <= |cases|
      invariant valid == ValidCount(cases[..i])
      invariant losses == Sum(cases[..i], CaseLoss)
      invariant baselines == Sum(cases[..i], BaselineLoss)
      invariant scores == Sum(cases[..i], ScoreAttempt)
      invariant forall k :: k in invalid <==> InvalidCount(cases[..i], k) > 0
      invariant forall k :: k in invalid ==> invalid[k] == InvalidCount(cases[..i], k)
    {
      hide Loss;
      var c := cases[i];
      assert cases[..i + 1][..i] == cases[..i];
      losses := losses + CaseLoss(c);
      baselines := baselines + BaselineLoss(c);
      scores := scores + ScoreAttempt(c);
      if IsValid(c) {
        valid := valid + 1;
      } else {
        invalid := invalid[c.status := (if c.status in invalid then invalid[c.status] else 0) + 1];
      }
      i := i + 1;
    }
    assert cases[..|cases|] == cases;
    var brier := if valid > 0 then Some(losses / valid as real) else None;
    var baseline := if valid > 0 then Some(baselines / valid as real) else None;
    s := Summary(
      total, valid,
      if total > 0 then valid as real / total as real else 0.0,
      brier,
      if valid > 0 then Some(1.0 - brier.value) else None,
      baseline,
      if valid > 0 then SkillScore(brier.value, baseline.value) else None,
      if total > 0 then scores / total as real else 0.0,
      invalid);
  }

  lemma {:induction false} ScoresAreValidLessLoss(cases: seq<BrierCase>)
    ensures Sum(cases, ScoreAttempt) == ValidCount(cases) as real - Sum(cases, CaseLoss)
  {
    hide Loss;
    if cases != [] { ScoresAreValidLessLoss(cases[..|cases| - 1]); }
  }

  lemma {:induction false} ValidAtMostTotal(cases: seq<BrierCase>)
    ensures ValidCount(cases) <= |cases|
  {
    if cases != [] { ValidAtMostTotal(cases[..|cases| - 1]); }
  }

  lemma DividedProduct(v: real, l: real, t: real)
    requires v > 0.0 && t > 0.0
    ensures (v - l) / t == (v / t) * (1.0 - l / v)
  {
    assert (v / t) * (1.0 - l / v) * t == (v / t) * t * (1.0 - l / v) == v * (1.0 - l / v) == v - v * (l / v) == v - l;
  }

  // The end-to-end score is coverage times quality as soon as one case is valid.
  lemma EndToEndIsCoverageTimesQuality(s: Summary, cases: seq<BrierCase>)
    requires Summarizes(s, cases) && s.valid > 0
    ensures s.endToEnd == s.coverage * s.quality.value
  {
    ValidAtMostTotal(cases);
    ScoresAreValidLessLoss(cases);
    DividedProduct(s.valid as real, Sum(cases, CaseLoss), s.total as real);
  }

  // Every case is counted once: as valid, or under the status it failed with.
  lemma {:induction false} ValidAndInvalidAreAll(cases: seq<BrierCase>)
    ensures ValidCount(cases) + InvalidCount(cases, ValidStatus) + InvalidCount(cases, Late)
            + InvalidCount(cases, Missing) + InvalidCount(cases, Invalid) + InvalidCount(cases, Abstained)
         == |cases|
  {
    if cases != [] { ValidAndInvalidAreAll(cases[..|cases| - 1]); }
  }

  lemma {:induction false} SumConcat(a: seq<BrierCase>, b: seq<BrierCase>, f: BrierCase -> real)
    ensures Sum(a + b, f) == Sum(a, f) + Sum(b, f)
    ensures ValidCount(a + b) == ValidCount(a) + ValidCount(b)
  {
    if b == [] {
      assert a + b == a;
    } else {
      var front := b[..|b| - 1];
      SumConcat(a, front, f);
      assert (a + b)[..|a + b| - 1] == a + front;
    }
  }

  // Putting two sets of cases together gives the case-weighted means.
  lemma ConcatenationIsWeighted(a: seq<BrierCase>, b: seq<BrierCase>, s: Summary, t: Summary, u: Summary)
    requires Summarizes(s, a) && Summarizes(t, b) && Summarizes(u, a + b)
    ensures u.total == s.total + t.total && u.valid == s.valid + t.valid
    ensures u.endToEnd * u.total as real == s.endToEnd * s.total as real + t.endToEnd * t.total as real
    ensures s.valid > 0 && t.valid > 0 ==>
              u.brier.value * u.valid as real == s.brier.value * s.valid as real + t.brier.value * t.valid as real
  {
    hide Summarizes, Sum, ValidCount;
    SumConcat(a, b, ScoreAttempt);
    SumConcat(a, b, CaseLoss);
    SummaryScales(s, a);
    SummaryScales(t, b);
    SummaryScales(u, a + b);
  }

  // A summary's means, scaled back to sums.
  lemma SummaryScales(s: Summary, cases: seq<BrierCase>)
    requires Summarizes(s, cases)
    ensures s.total == |cases| && s.valid == ValidCount(cases)
    ensures s.endToEnd * s.total as real == Sum(cases, ScoreAttempt)
    ensures s.valid > 0 ==> s.brier.Some? && s.brier.value * s.valid as real == Sum(cases, CaseLoss)
  {
    ScaleBack(Sum(cases, ScoreAttempt), |cases|);
    ScaleBack(Sum(cases, CaseLoss), s.valid);
  }

  lemma ScaleBack(x: real, n: nat)
    ensures n > 0 ==> x / n as real * n as real == x
  {
  }
}
