// The cross-miner router: which replies count, and the weighted probability they give.
module Router {
  import opened Prelude

  datatype Reply = Reply(owned: bool, probability: Option<real>, comparable: bool, error: Option<string>,
                         reliability: real)

  predicate Valid(r: Reply) { r.error.None? && r.probability.Some? && r.comparable }

  // What the adapters guarantee of a probability.
  predicate InRange(r: Reply) { r.probability.Some? ==> 0.0 <= r.probability.value <= 1.0 }

  function Weight(r: Reply): real { if r.reliability > 0.05 then r.reliability else 0.05 }

  function WeightTotal(rs: seq<Reply>): real {
    if rs == [] then 0.0
    else WeightTotal(rs[..|rs| - 1]) + if Valid(rs[|rs| - 1]) then Weight(rs[|rs| - 1]) else 0.0
  }

  function WeightedTotal(rs: seq<Reply>): real {
    if rs == [] then 0.0
    else
      WeightedTotal(rs[..|rs| - 1])
      + if Valid(rs[|rs| - 1]) then rs[|rs| - 1].probability.value * Weight(rs[|rs| - 1]) else 0.0
  }

  datatype Decision = Decision(
    aggregate: real, likely: bool, usedExternal: bool, externalInfluence: bool)

  datatype RoutingError = NoExternal | NoneValid

  // Rounding to four digits: close, and inside the unit interval.
  ghost predicate RoundsToFour(round: real -> real) {
    forall x :: -0.00005 <= round(x) - x <= 0.00005 && (0.0 <= x <= 1.0 ==> 0.0 <= round(x) <= 1.0)
  }

  predicate AnyValid(rs: seq<Reply>) { exists i :: 0 <= i < |rs| && Valid(rs[i]) }

  predicate AnyExternal(rs: seq<Reply>) { exists i :: 0 <= i < |rs| && Valid(rs[i]) && !rs[i].owned }

  // The first owned reply that counts.
  function FirstOwned(rs: seq<Reply>): Option<real> {
    if rs == [] then None
    else if Valid(rs[0]) && rs[0].owned then rs[0].probability
    else FirstOwned(rs[1..])
  }

  function Distance(a: real, b: real): real { if a >= b then a - b else b - a }

  lemma {:induction false} WeightsArePositive(rs: seq<Reply>)
    ensures WeightTotal(rs) >= 0.0
    ensures AnyValid(rs) ==> WeightTotal(rs) > 0.0
  {
    if rs != [] {
      WeightsArePositive(rs[..|rs| - 1]);
      if AnyValid(rs) && !Valid(rs[|rs| - 1]) {
        var i :| 0 <= i < |rs| && Valid(rs[i]);
        assert rs[..|rs| - 1][i] == rs[i];
      }
    }
  }

  lemma OneMoreReply(rs: seq<Reply>, i: nat)
    requires i < |rs|
    ensures WeightTotal(rs[..i + 1]) == WeightTotal(rs[..i]) + if Valid(rs[i]) then Weight(rs[i]) else 0.0
    ensures WeightedTotal(rs[..i + 1])
         == WeightedTotal(rs[..i]) + if Valid(rs[i]) then rs[i].probability.value * Weight(rs[i]) else 0.0
    ensures AnyValid(rs[..i + 1]) <==> AnyValid(rs[..i]) || Valid(rs[i])
    ensures AnyExternal(rs[..i + 1]) <==> AnyExternal(rs[..i]) || (Valid(rs[i]) && !rs[i].owned)
    ensures FirstOwned(rs[i..]) == if Valid(rs[i]) && rs[i].owned then rs[i].probability else FirstOwned(rs[i + 1..])
  {
    var less, more := rs[..i], rs[..i + 1];
    assert more == less + [rs[i]];
    assert more[..|more| - 1] == less;
    assert forall k :: 0 <= k < i ==> more[k] == less[k];
    assert rs[i..][1..] == rs[i + 1..];
  }

  method Aggregate(rs: seq<Reply>, threshold: real, requireExternal: bool, round: real -> real)
    returns (d: Result<Decision, RoutingError>)
    ensures d == Err(NoExternal) <==> requireExternal && !AnyExternal(rs)
    ensures d == Err(NoneValid) <==> !(requireExternal && !AnyExternal(rs)) && !AnyValid(rs)
    ensures d.Ok? ==>
              && WeightTotal(rs) > 0.0
              && d.value.aggregate == round(WeightedTotal(rs) / WeightTotal(rs))
              && (d.value.likely <==> d.value.aggregate >= threshold)
              && (d.value.usedExternal <==> AnyExternal(rs))
              && (d.value.externalInfluence <==>
                    FirstOwned(rs).None? || Distance(d.value.aggregate, FirstOwned(rs).value) > 0.0001)
  {
    var weighted, weights := 0.0, 0.0;
    var any, external := false, false;
    var owned: Option<real> := None;
    var i := 0;
    assert rs[0..] == rs;
    while i < |rs|
      invariant 0 <= i <= |rs|
      invariant weighted == WeightedTotal(rs[..i]) && weights == WeightTotal(rs[..i])
      invariant any <==> AnyValid(rs[..i])
      invariant external <==> AnyExternal(rs[..i])
      invariant FirstOwned(rs) == if owned.Some? then owned else FirstOwned(rs[i..])
    {
      hide WeightTotal, WeightedTotal, AnyValid, AnyExternal, FirstOwned, Weight;
      var r := rs[i];
      OneMoreReply(rs, i);
      if Valid(r) {
        weighted := weighted + r.probability.value * Weight(r);
        weights := weights + Weight(r);
        any := true;
        if !r.owned { external := true; }
        if r.owned && owned.None? { owned := r.probability; }
      }
      i := i + 1;
    }
    assert rs[..|rs|] == rs;
    if requireExternal && !external { return Err(NoExternal); }
    if !any { return Err(NoneValid); }
    WeightsArePositive(rs);
    var aggregate := round(weighted / weights);
    var influence := owned.None? || Distance(aggregate, owned.value) > 0.0001;
    return Ok(Decision(aggregate, aggregate >= threshold, external, influence));
  }

  // The weighted total lies between the weights scaled by any bounds of the replies.
  lemma {:induction false} TotalsAreBounded(rs: seq<Reply>, lo: real, hi: real)
    requires forall i :: 0 <= i < |rs| && Valid(rs[i]) ==> lo <= rs[i].probability.value <= hi
    ensures lo * WeightTotal(rs) <= WeightedTotal(rs) <= hi * WeightTotal(rs)
  {
    TotalsUnfold(rs);
    hide WeightTotal, WeightedTotal, Weight;
    if rs != [] {
      var front, last := rs[..|rs| - 1], rs[|rs| - 1];
      TotalsAreBounded(front, lo, hi);
      if Valid(last) {
        AddScaled(lo, last.probability.value, hi, WeightTotal(front), WeightedTotal(front), Weight(last),
                  WeightTotal(rs), WeightedTotal(rs));
      }
    }
  }

  lemma TotalsUnfold(rs: seq<Reply>)
    ensures rs == [] ==> WeightTotal(rs) == 0.0 && WeightedTotal(rs) == 0.0
    ensures rs != [] ==>
              var front, last := rs[..|rs| - 1], rs[|rs| - 1];
              && Weight(last) > 0.0
              && WeightTotal(rs) == (if Valid(last) then WeightTotal(front) + Weight(last) else WeightTotal(front))
              && WeightedTotal(rs)
                 == if Valid(last) then WeightedTotal(front) + last.probability.value * Weight(last)
                     else WeightedTotal(front)
  {
  }

  lemma AddScaled(lo: real, p: real, hi: real, weights: real, total: real, weight: real, newWeights: real,
                  newTotal: real)
    requires lo <= p <= hi && weight >= 0.0 && lo * weights <= total <= hi * weights
    requires newWeights == weights + weight && newTotal == total + p * weight
    ensures lo * newWeights <= newTotal <= hi * newWeights
  {
    ScaleKeepsOrder(lo, p, weight);
    ScaleKeepsOrder(p, hi, weight);
    assert lo * newWeights == lo * weights + lo * weight;
    assert hi * newWeights == hi * weights + hi * weight;
  }

  lemma ScaleKeepsOrder(a: real, b: real, w: real)
    requires a <= b && w >= 0.0
    ensures a * w <= b * w
  {
  }

  lemma MeanIsBounded(total: real, weights: real, lo: real, hi: real)
    requires weights > 0.0 && lo * weights <= total <= hi * weights
    ensures lo <= total / weights <= hi
  {
    DivideKeepsOrder(lo * weights, total, weights);
    DivideKeepsOrder(total, hi * weights, weights);
    assert (lo * weights) / weights == lo && (hi * weights) / weights == hi;
  }

  lemma DivideKeepsOrder(a: real, b: real, w: real)
    requires a <= b && w > 0.0
    ensures a / w <= b / w
  {
    assert (b - a) / w >= 0.0;
    assert b / w - a / w == (b - a) / w;
  }

  // The aggregate is a mean with positive weights up to the rounding: within 0.00005 of
  // it, inside the unit interval, and no further than that outside the replies' range.
  lemma AggregateIsAMean(rs: seq<Reply>, round: real -> real, lo: real, hi: real)
    requires RoundsToFour(round) && AnyValid(rs) && forall i :: 0 <= i < |rs| ==> InRange(rs[i])
    requires forall i :: 0 <= i < |rs| && Valid(rs[i]) ==> lo <= rs[i].probability.value <= hi
    ensures WeightTotal(rs) > 0.0
    ensures var mean := WeightedTotal(rs) / WeightTotal(rs);
      && lo <= mean <= hi
      && -0.00005 <= round(mean) - mean <= 0.00005
      && 0.0 <= round(mean) <= 1.0
      && lo - 0.00005 <= round(mean) <= hi + 0.00005
  {
    hide WeightTotal, WeightedTotal;
    WeightsArePositive(rs);
    TotalsAreBounded(rs, lo, hi);
    TotalsAreBounded(rs, 0.0, 1.0);
    MeanIsBounded(WeightedTotal(rs), WeightTotal(rs), lo, hi);
    MeanIsBounded(WeightedTotal(rs), WeightTotal(rs), 0.0, 1.0);
    RoundedMean(WeightedTotal(rs) / WeightTotal(rs), round);
  }

  lemma RoundedMean(mean: real, round: real -> real)
    requires RoundsToFour(round) && 0.0 <= mean <= 1.0
    ensures -0.00005 <= round(mean) - mean <= 0.00005 && 0.0 <= round(mean) <= 1.0
  {
  }
}
