// Exactly when a challenge is approved, a transaction is fully verified, and a paid
// request succeeds.
module CanaryLaws {
  import opened Prelude
  import opened CanonicalJson
  import opened Canary

  // -------------------------------------------------------------------- challenges

  predicate OfKind(o: Json) {
    HasText(o, "scheme", "exact") && HasText(o, "network", DEVNET_NETWORK) && HasText(o, "asset", DEVNET_USDC)
  }

  predicate Payable(o: Json, resourceMatches: string -> bool, maxAmount: int, amount: int) {
    && CanonicalDecimal(Prop(o, "amount")) == Some(amount) && 0 < amount <= maxAmount
    && HasText(o, "payTo", EXPECTED_PAY_TO)
    && Prop(o, "extra").Some? && HasText(Prop(o, "extra").value, "feePayer", EXPECTED_FEE_PAYER)
    && (Prop(o, "resource").Some? ==> ResourceMatches(Prop(o, "resource"), resourceMatches))
  }

  ghost predicate OnlyOption(accepts: seq<Json>, i: int) {
    0 <= i < |accepts| && OfKind(accepts[i])
    && forall k :: 0 <= k < |accepts| && OfKind(accepts[k]) ==> k == i
  }

  predicate ForResource(challenge: Json, resourceMatches: string -> bool) {
    && Prop(challenge, "x402Version") == Some(Num(2))
    && Prop(challenge, "resource").Some? && Prop(challenge, "resource").value.Obj?
    && ResourceMatches(Prop(Prop(challenge, "resource").value, "url"), resourceMatches)
  }

  // The challenge offers one option of the approved kind, payable as it stands.
  ghost predicate Approves(challenge: Json, resourceMatches: string -> bool, maxAmount: int, amount: int) {
    && ForResource(challenge, resourceMatches)
    && Prop(challenge, "accepts").Some? && Prop(challenge, "accepts").value.Arr?
    && exists i :: OnlyOption(Prop(challenge, "accepts").value.items, i)
                   && Payable(Prop(challenge, "accepts").value.items[i], resourceMatches, maxAmount, amount)
  }

  function Kinds(accepts: seq<Json>): seq<Json> {
    if accepts == [] then []
    else (if OfKind(accepts[0]) then [accepts[0]] else []) + Kinds(accepts[1..])
  }

  lemma {:induction false} MatchingSplits(x: Json, rest: seq<Json>, key: string, text: string)
    ensures Matching([x] + rest, key, text)
         == (if HasText(x, key, text) then [x] else []) + Matching(rest, key, text)
  {
    hide HasText;
    assert ([x] + rest)[1..] == rest;
  }

  // Filtering three times keeps the entries of the approved kind.
  lemma {:induction false} FiltersKeepKind(accepts: seq<Json>)
    ensures Matching(Matching(Matching(accepts, "scheme", "exact"), "network", DEVNET_NETWORK), "asset", DEVNET_USDC)
         == Kinds(accepts)
  {
    hide HasText;
    if accepts != [] {
      var x, rest := accepts[0], accepts[1..];
      FiltersKeepKind(rest);
      assert accepts == [x] + rest;
      MatchingSplits(x, rest, "scheme", "exact");
      var exact := Matching(rest, "scheme", "exact");
      assert [] + exact == exact;
      if HasText(x, "scheme", "exact") {
        MatchingSplits(x, exact, "network", DEVNET_NETWORK);
        var onNetwork := Matching(exact, "network", DEVNET_NETWORK);
        assert [] + onNetwork == onNetwork;
        if HasText(x, "network", DEVNET_NETWORK) { MatchingSplits(x, onNetwork, "asset", DEVNET_USDC); }
      }
    }
  }

  lemma {:induction false} KindsAreOfKind(accepts: seq<Json>)
    ensures Kinds(accepts) == [] <==> forall k :: 0 <= k < |accepts| ==> !OfKind(accepts[k])
    ensures |Kinds(accepts)| == 1 ==> exists i :: OnlyOption(accepts, i) && Kinds(accepts) == [accepts[i]]
    ensures forall i :: OnlyOption(accepts, i) ==> Kinds(accepts) == [accepts[i]]
  {
    hide OfKind;
    if accepts != [] {
      var rest := accepts[1..];
      KindsAreOfKind(rest);
      assert forall k :: 0 < k < |accepts| ==> accepts[k] == rest[k - 1];
      if OfKind(accepts[0]) {
        if Kinds(rest) == [] { assert OnlyOption(accepts, 0); }
      } else if |Kinds(rest)| == 1 {
        var i :| OnlyOption(rest, i) && Kinds(rest) == [rest[i]];
        assert OnlyOption(accepts, i + 1);
      }
      forall i | OnlyOption(accepts, i) ensures Kinds(accepts) == [accepts[i]] {
        if i > 0 { assert OnlyOption(rest, i - 1); }
      }
    }
  }

  lemma OptionIsExact(o: Json, resourceMatches: string -> bool, maxAmount: int, amount: int)
    ensures ValidateOption(o, resourceMatches, maxAmount) == Ok(amount)
            <==> Payable(o, resourceMatches, maxAmount, amount)
  {
    hide Prop, Digits, HasText, ParseDigits;
    forall s ensures ParseDigits(s, 0).0 >= 0 { ParsedDigitsAreNonNegative(s, 0); }
  }

  // An amount is authorised exactly when the challenge approves it.
  lemma SelectionIsExact(challenge: Json, resourceMatches: string -> bool, maxAmount: int, amount: int)
    ensures ValidateChallenge(challenge, resourceMatches, maxAmount) == Ok(amount)
            <==> Approves(challenge, resourceMatches, maxAmount, amount)
  {
    hide Prop, ValidateOption, Payable, OnlyOption, HasText;
    if Prop(challenge, "accepts").Some? && Prop(challenge, "accepts").value.Arr? {
      var accepts := Prop(challenge, "accepts").value.items;
      AcceptsAreExact(accepts, resourceMatches, maxAmount, amount);
      EmptyFiltersStay(accepts);
    }
  }

  lemma EmptyFiltersStay(accepts: seq<Json>)
    ensures var exact := Matching(accepts, "scheme", "exact");
      var onNetwork := Matching(exact, "network", DEVNET_NETWORK);
      && (exact == [] ==> onNetwork == [])
      && (onNetwork == [] ==> Matching(onNetwork, "asset", DEVNET_USDC) == [])
  {
    hide HasText;
  }

  lemma AcceptsAreExact(accepts: seq<Json>, resourceMatches: string -> bool, maxAmount: int, amount: int)
    ensures var ks :=
        Matching(Matching(Matching(accepts, "scheme", "exact"), "network", DEVNET_NETWORK), "asset", DEVNET_USDC);
      (|ks| == 1 && ValidateOption(ks[0], resourceMatches, maxAmount) == Ok(amount))
      <==> exists i :: OnlyOption(accepts, i) && Payable(accepts[i], resourceMatches, maxAmount, amount)
  {
    hide Matching, ValidateOption, Payable, OnlyOption, Kinds;
    FiltersKeepKind(accepts);
    KindsAreOfKind(accepts);
    var ks := Kinds(accepts);
    if |ks| == 1 { OptionIsExact(ks[0], resourceMatches, maxAmount, amount); }
    forall i | OnlyOption(accepts, i) ensures 0 <= i < |accepts| && ks == [accepts[i]] { OnlyOptionIndex(accepts, i); }
  }

  lemma OnlyOptionIndex(accepts: seq<Json>, i: int)
    requires OnlyOption(accepts, i)
    ensures 0 <= i < |accepts|
  {
  }

  // ------------------------------------------------------------------- transactions

  // The chain shows a final, successful transaction under this signature, paid for by
  // the expected party, that moved the amount from payer to recipient.
  ghost predicate ShowsPayment(a: ChainAnswer, signature: string, payer: string, amount: int) {
    && a.hasTransaction && a.hasMeta
    && a.metaFailed == Some(false) && a.statusFailed == Some(false)
    && a.confirmationStatus in {"confirmed", "finalized"}
    && a.signatures.Some? && signature in a.signatures.value
    && a.firstAccount == Some(EXPECTED_FEE_PAYER)
    && exists p, r :: Statement(a.preBalances, payer, EXPECTED_PAY_TO, p, r)
                      && Statement(a.postBalances, payer, EXPECTED_PAY_TO, p - amount, r + amount)
  }

  lemma VerifiedExactly(a: ChainAnswer, signature: string, payer: string, amount: int)
    ensures FullyVerified(VerifyPaymentOnChain(a, signature, payer, amount))
            <==> ShowsPayment(a, signature, payer, amount)
  {
    hide AggregatedValue, JudgeMovement, Statement;
    VerifiedMovementMeans(a.preBalances, a.postBalances, payer, EXPECTED_PAY_TO, amount);
    if !a.hasMeta {
      assert VerifyPaymentOnChain(a, signature, payer, amount).confirmed == false;
    }
  }

  // ------------------------------------------------------------------- paid requests

  ghost predicate SettlementNames(env: CanaryEnv, decoded: Json, amount: int, signature: string) {
    && decoded.Obj?
    && Prop(decoded, "success") == Some(Bool(true))
    && HasText(decoded, "network", DEVNET_NETWORK)
    && (Prop(decoded, "amount").Some? ==> SettlementAmountMatches(Prop(decoded, "amount").value, amount))
    && (Prop(decoded, "payer").Some? ==> HasText(decoded, "payer", env.signer))
    && HasText(decoded, "transaction", signature) && signature != "" && env.validSignature(signature)
  }

  lemma SettlementIsExact(env: CanaryEnv, decoded: Json, amount: int, signature: string)
    requires decoded.Obj?
    ensures SettlementNames(env, decoded, amount, signature)
            <==> SettlementError(env, decoded, amount).None? && HasText(decoded, "transaction", signature)
    ensures SettlementError(env, decoded, amount).None? ==>
              Prop(decoded, "transaction").Some? && Prop(decoded, "transaction").value.Str?
  {
    hide Prop, SettlementAmountMatches;
  }

  lemma VerificationIsExact(v: Verification)
    ensures VerificationError(v).None? ==> FullyVerified(v) || v.transactionError != Some(false)
    ensures FullyVerified(v) ==> VerificationError(v).None?
  {
  }

  lemma ConfirmedHasNoError(a: ChainAnswer, signature: string, payer: string, amount: int)
    ensures var v := VerifyPaymentOnChain(a, signature, payer, amount);
      v.confirmed ==> v.transactionError == Some(false)
  {
    hide AggregatedValue, JudgeMovement;
  }

  // A settlement that names the payment, and a chain that shows it.
  ghost predicate SettledProperly(env: CanaryEnv, amount: int, decoded: Option<Json>, rpc: Option<ChainAnswer>,
                                  signature: string)
  {
    && decoded.Some? && rpc.Some?
    && SettlementNames(env, decoded.value, amount, signature)
    && ShowsPayment(rpc.value, signature, env.signer, amount)
  }

  lemma SettlementDecides(env: CanaryEnv, amount: int, read: CanaryResult, header: string,
                          decoded: Option<Json>, rpc: Option<ChainAnswer>)
    requires !read.ok
    ensures var r := FinishSettlement(env, amount, read, header, decoded, rpc);
      && (forall s :: SettledProperly(env, amount, decoded, rpc, s) ==> r.ok)
      && (r.ok ==> r.bodyText == read.bodyText && r.status == read.status && r.settlement.Some?
                   && SettledProperly(env, amount, decoded, rpc, r.settlement.value.signature))
  {
    hide SettlementError, SettlementNames, VerifyPaymentOnChain, VerificationError, ShowsPayment, Lookup;
    if decoded.Some? && decoded.value.Obj? {
      var d := decoded.value;
      forall s
        ensures SettlementNames(env, d, amount, s)
                <==> SettlementError(env, d, amount).None? && HasText(d, "transaction", s)
      {
        SettlementIsExact(env, d, amount, s);
      }
      SettlementIsExact(env, d, amount, "");
      if SettlementError(env, d, amount).None? && rpc.Some? {
        JudgedExactly(env, rpc.value, Prop(d, "transaction").value.s, amount);
      }
    } else if decoded.Some? {
      NoObjectNamesNothing(env, decoded.value, amount);
    }
  }

  lemma NoObjectNamesNothing(env: CanaryEnv, decoded: Json, amount: int)
    requires !decoded.Obj?
    ensures forall s :: !SettlementNames(env, decoded, amount, s)
  {
  }

  // Success of a paid request, in terms of what the server and the chain answered.
  ghost predicate PaidProperly(env: CanaryEnv, amount: int, o: PaidOutcome, signature: string) {
    && o.Response? && o.body.Some? && 200 <= o.status < 300 && o.signalError.None? && o.header.Some?
    && SettledProperly(env, amount, o.decoded, o.rpc, signature)
  }

  // A paid request succeeds exactly when the response is a success, its settlement names
  // the payment, and the chain shows it; the result carries that signature and body.
  lemma PaidRunSucceedsExactly(env: CanaryEnv, amount: int, o: PaidOutcome)
    ensures FinishPaid(env, amount, o).ok <==> exists s :: PaidProperly(env, amount, o, s)
    ensures FinishPaid(env, amount, o).ok ==>
              && o.Response?
              && FinishPaid(env, amount, o).bodyText == o.body
              && FinishPaid(env, amount, o).status == Some(o.status)
              && FinishPaid(env, amount, o).settlement.Some?
              && PaidProperly(env, amount, o, FinishPaid(env, amount, o).settlement.value.signature)
  {
    hide FinishSettlement, SettledProperly;
    if o.Response? && o.body.Some? && o.header.Some? {
      var base := CanaryResult(false, "PAID_REQUEST_OUTCOME_UNKNOWN", true, None, None, None, None,
                               Some(InitialVerification(env.hash(env.rpcUrl), amount, env.signer)));
      var read := base.(status := Some(o.status), bodyText := o.body, bodySha256 := Some(env.hash(o.body.value)));
      SettlementDecides(env, amount, read, o.header.value, o.decoded, o.rpc);
      if FinishPaid(env, amount, o).ok {
        assert PaidProperly(env, amount, o, FinishPaid(env, amount, o).settlement.value.signature);
      }
    }
  }

  lemma JudgedExactly(env: CanaryEnv, a: ChainAnswer, s: string, amount: int)
    ensures var v := VerifyPaymentOnChain(a, s, env.signer, amount).(rpcUrlSha256 := env.hash(env.rpcUrl));
      VerificationError(v).None? <==> ShowsPayment(a, s, env.signer, amount)
  {
    hide VerifyPaymentOnChain, ShowsPayment;
    var v := VerifyPaymentOnChain(a, s, env.signer, amount);
    VerifiedExactly(a, s, env.signer, amount);
    ConfirmedHasNoError(a, s, env.signer, amount);
    VerificationIsExact(v.(rpcUrlSha256 := env.hash(env.rpcUrl)));
  }
}
