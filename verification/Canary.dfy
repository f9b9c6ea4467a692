// The payment canary: which option of a challenge is selected, what the chain says
// about a transaction, and how a paid response is judged.
module Canary {
  import opened Prelude
  import opened CanonicalJson
  import opened CanonicalJsonLaws

  const DEVNET_NETWORK := "solana:EtWTRABZaYq6iMfeYKouRu166VU2xqa1"
  const DEVNET_USDC := "4zMMC9srt5Ri5X14GAgXhaHii3GnPAEERYPJgZJDncDU"
  const EXPECTED_PAY_TO := "G53EbeTZSNsAn7bj6iMFUQnq3zpDdEbHhKkPRywo8bix"
  const EXPECTED_FEE_PAYER := "2wKupLR9q6wXYppw8Gr2NvWxKBUqm4PPJKkQfoxHDBg4"

  // --------------------------------------------------------- challenge selection

  function Prop(v: Json, key: string): Option<Json> {
    if v.Obj? then Lookup(v.fields, key) else None
  }

  predicate HasText(v: Json, key: string, text: string) { Prop(v, key) == Some(Str(text)) }

  // The entries that are objects holding `text` under `key`.
  function Matching(entries: seq<Json>, key: string, text: string): seq<Json> {
    if entries == [] then []
    else (if HasText(entries[0], key, text) then [entries[0]] else [])
         + Matching(entries[1..], key, text)
  }

  predicate Digits(s: string) { forall i :: 0 <= i < |s| ==> IsDigit(s[i]) }

  // A decimal without sign or leading zeros.
  function CanonicalDecimal(v: Option<Json>): Option<int> {
    match v
    case Some(Str(s)) =>
      if s != "" && Digits(s) && (s == "0" || s[0] != '0') then Some(ParseDigits(s, 0).0) else None
    case _ => None
  }

  predicate ResourceMatches(v: Option<Json>, resourceMatches: string -> bool) {
    match v
    case Some(Str(url)) => resourceMatches(url)
    case _ => false
  }

  // The amount of the one option a challenge lets the signer authorise.
  function ValidateChallenge(challenge: Json, resourceMatches: string -> bool, maxAmount: int): Result<int, string> {
    var resource := Prop(challenge, "resource");
    if Prop(challenge, "x402Version") != Some(Num(2)) then Err("CHALLENGE_VERSION_MISMATCH")
    else if resource.None? || !resource.value.Obj? || !ResourceMatches(Prop(resource.value, "url"), resourceMatches)
    then Err("CHALLENGE_RESOURCE_MISMATCH")
    else match Prop(challenge, "accepts") {
      case Some(Arr(accepts)) =>
        var exact := Matching(accepts, "scheme", "exact");
        var onNetwork := Matching(exact, "network", DEVNET_NETWORK);
        var inAsset := Matching(onNetwork, "asset", DEVNET_USDC);
        if exact == [] then Err("CHALLENGE_SCHEME_MISMATCH")
        else if onNetwork == [] then Err("CHALLENGE_NETWORK_MISMATCH")
        else if inAsset == [] then Err("CHALLENGE_ASSET_MISMATCH")
        else if |inAsset| != 1 then Err("CHALLENGE_OPTION_AMBIGUOUS")
        else ValidateOption(inAsset[0], resourceMatches, maxAmount)
      case _ => Err("CHALLENGE_SCHEME_MISMATCH")
    }
  }

  function ValidateOption(option: Json, resourceMatches: string -> bool, maxAmount: int): Result<int, string> {
    match CanonicalDecimal(Prop(option, "amount"))
    case None => Err("CHALLENGE_AMOUNT_INVALID")
    case Some(amount) =>
      if amount == 0 then Err("CHALLENGE_AMOUNT_INVALID")
      else if maxAmount <= 0 || amount > maxAmount then Err("CHALLENGE_AMOUNT_EXCEEDS_CAP")
      else if !HasText(option, "payTo", EXPECTED_PAY_TO) then Err("CHALLENGE_PAY_TO_MISMATCH")
      else if Prop(option, "extra").None? || !HasText(Prop(option, "extra").value, "feePayer", EXPECTED_FEE_PAYER)
      then Err("CHALLENGE_FEE_PAYER_MISMATCH")
      else if Prop(option, "resource").Some? && !ResourceMatches(Prop(option, "resource"), resourceMatches)
      then Err("TARGET_PATH_MISMATCH")
      else Ok(amount)
  }

  lemma {:induction false} ParsedDigitsAreNonNegative(s: string, acc: int)
    requires acc >= 0
    ensures ParseDigits(s, acc).0 >= 0
  {
    if s != "" && IsDigit(s[0]) {
      ParsedDigitsAreNonNegative(s[1..], acc * 10 + DigitValue(s[0]));
    }
  }

  lemma SelectedAmountIsInRange(challenge: Json, resourceMatches: string -> bool, maxAmount: int)
    ensures var r := ValidateChallenge(challenge, resourceMatches, maxAmount);
      r.Ok? ==> 0 < r.value <= maxAmount
  {
    hide Prop, Matching, ParseDigits;
    forall s ensures ParseDigits(s, 0).0 >= 0 { ParsedDigitsAreNonNegative(s, 0); }
  }

  lemma SameValueSameKeys(v: Json, w: Json, key: string)
    requires v.Obj? && WellFormed(v) && WellFormed(w) && SameValue(v, w) && HasKey(w.fields, key)
    ensures HasKey(v.fields, key)
  {
    var fs, gs := v.fields, w.fields;
    SortedKeysAgree(fs, gs);
    var g := Field(key, Lookup(gs, key).value);
    assert g in SortFields(gs);
    var i :| 0 <= i < |gs| && SortFields(gs)[i] == g;
    assert Keys(SortFields(gs))[i] == key;
    assert Keys(SortFields(fs))[i] == key;
    var f := SortFields(fs)[i];
    assert f in fs;
  }

  // Reading the same property of two values that agree as maps.
  lemma SameValueSameProp(v: Json, w: Json, key: string)
    requires WellFormed(v) && WellFormed(w) && SameValue(v, w)
    ensures Prop(v, key).Some? <==> Prop(w, key).Some?
    ensures Prop(v, key).Some? ==>
              && WellFormed(Prop(v, key).value) && WellFormed(Prop(w, key).value)
              && SameValue(Prop(v, key).value, Prop(w, key).value)
    ensures forall text :: HasText(v, key, text) <==> HasText(w, key, text)
  {
    if v.Obj? {
      if HasKey(w.fields, key) { SameValueSameKeys(v, w, key); }
      if HasKey(v.fields, key) {
        assert Field(key, Lookup(v.fields, key).value) in v.fields;
        assert Field(key, Lookup(w.fields, key).value) in w.fields;
      }
    }
  }

  ghost predicate SameItems(xs: seq<Json>, ys: seq<Json>) {
    |xs| == |ys|
    && forall i :: 0 <= i < |xs| ==> WellFormed(xs[i]) && WellFormed(ys[i]) && SameValue(xs[i], ys[i])
  }

  lemma {:induction false} SameItemsSameMatching(xs: seq<Json>, ys: seq<Json>, key: string, text: string)
    requires SameItems(xs, ys)
    ensures SameItems(Matching(xs, key, text), Matching(ys, key, text))
  {
    hide Prop, WellFormed, SameValue, HasText;
    if xs != [] {
      SameValueSameProp(xs[0], ys[0], key);
      SameItemsSameMatching(xs[1..], ys[1..], key, text);
    }
  }

  lemma SameExtra(v: Json, w: Json)
    requires WellFormed(v) && WellFormed(w) && SameValue(v, w)
    ensures Prop(v, "extra").Some? <==> Prop(w, "extra").Some?
    ensures Prop(v, "extra").Some? ==>
              (HasText(Prop(v, "extra").value, "feePayer", EXPECTED_FEE_PAYER)
               <==> HasText(Prop(w, "extra").value, "feePayer", EXPECTED_FEE_PAYER))
  {
    hide Prop, WellFormed, HasText;
    SameValueSameProp(v, w, "extra");
    if Prop(v, "extra").Some? {
      SameValueSameProp(Prop(v, "extra").value, Prop(w, "extra").value, "feePayer");
    }
  }

  lemma SameOptionSameAmount(v: Json, w: Json, resourceMatches: string -> bool, maxAmount: int)
    requires WellFormed(v) && WellFormed(w) && SameValue(v, w)
    ensures ValidateOption(v, resourceMatches, maxAmount) == ValidateOption(w, resourceMatches, maxAmount)
  {
    hide Prop, WellFormed, HasText, Digits, ParseDigits;
    SameValueSameProp(v, w, "amount");
    SameValueSameProp(v, w, "payTo");
    SameValueSameProp(v, w, "resource");
    SameExtra(v, w);
  }

  lemma SameArrays(v: Json, w: Json)
    requires v.Arr? && WellFormed(v) && WellFormed(w) && SameValue(v, w)
    ensures w.Arr? && SameItems(v.items, w.items)
  {
    forall i | 0 <= i < |v.items| ensures WellFormed(v.items[i]) && WellFormed(w.items[i]) {
      assert v.items[i] in v.items && w.items[i] in w.items;
    }
  }

  // What filtering leaves is the same, option by option.
  lemma SameAccepts(xs: seq<Json>, ys: seq<Json>)
    requires SameItems(xs, ys)
    ensures var ex, ey := Matching(xs, "scheme", "exact"), Matching(ys, "scheme", "exact");
      var nx, ny := Matching(ex, "network", DEVNET_NETWORK), Matching(ey, "network", DEVNET_NETWORK);
      var ax, ay := Matching(nx, "asset", DEVNET_USDC), Matching(ny, "asset", DEVNET_USDC);
      && SameItems(ex, ey) && SameItems(nx, ny) && SameItems(ax, ay)
  {
    hide SameItems, Matching;
    SameItemsSameMatching(xs, ys, "scheme", "exact");
    var ex, ey := Matching(xs, "scheme", "exact"), Matching(ys, "scheme", "exact");
    SameItemsSameMatching(ex, ey, "network", DEVNET_NETWORK);
    var nx, ny := Matching(ex, "network", DEVNET_NETWORK), Matching(ey, "network", DEVNET_NETWORK);
    SameItemsSameMatching(nx, ny, "asset", DEVNET_USDC);
  }

  // The amount selected depends only on the challenge as a value, not on key order.
  lemma SameChallengeSameAmount(v: Json, w: Json, resourceMatches: string -> bool, maxAmount: int)
    requires WellFormed(v) && WellFormed(w) && SameValue(v, w)
    ensures ValidateChallenge(v, resourceMatches, maxAmount) == ValidateChallenge(w, resourceMatches, maxAmount)
  {
    hide Prop, WellFormed, Matching, ValidateOption;
    SameValueSameProp(v, w, "x402Version");
    SameValueSameProp(v, w, "resource");
    SameValueSameProp(v, w, "accepts");
    if Prop(v, "resource").Some? {
      SameValueSameProp(Prop(v, "resource").value, Prop(w, "resource").value, "url");
    }
    if Prop(v, "accepts").Some? && Prop(v, "accepts").value.Arr? {
      var xs, ys := Prop(v, "accepts").value.items, Prop(w, "accepts").value.items;
      SameArrays(Prop(v, "accepts").value, Prop(w, "accepts").value);
      SameAccepts(xs, ys);
      var ax := Matching(Matching(Matching(xs, "scheme", "exact"), "network", DEVNET_NETWORK), "asset", DEVNET_USDC);
      var ay := Matching(Matching(Matching(ys, "scheme", "exact"), "network", DEVNET_NETWORK), "asset", DEVNET_USDC);
      if |ax| == 1 {
        SameOptionSameAmount(ax[0], ay[0], resourceMatches, maxAmount);
      }
    }
  }

  // The digest of a challenge binds the amount: two challenges with one digest select
  // the same amount.
  lemma ChallengeDigestBindsAmount(hash: string -> string, v: Json, w: Json,
                                   resourceMatches: string -> bool, maxAmount: int)
    requires Injective(hash) && WellFormed(v) && WellFormed(w)
    requires hash(CanonicalText(v)) == hash(CanonicalText(w))
    ensures ValidateChallenge(v, resourceMatches, maxAmount) == ValidateChallenge(w, resourceMatches, maxAmount)
  {
    CanonicalTextDecidesValue(v, w);
    SameChallengeSameAmount(v, w, resourceMatches, maxAmount);
  }

  // ----------------------------------------------------------- token balances

  datatype Balances = Balances(available: bool, sawExpectedMint: bool, byOwner: map<string, int>)

  const UNAVAILABLE_LIST := Balances(false, false, map[])

  // An entry of the expected mint with an owner and a decimal amount.
  function EntryBalance(entry: Json): Option<(string, int)> {
    match Prop(entry, "owner")
    case Some(Str(owner)) =>
      if owner == "" || Prop(entry, "uiTokenAmount").None? then None
      else match Prop(Prop(entry, "uiTokenAmount").value, "amount") {
        case Some(Str(s)) =>
          if s != "" && Digits(s) then Some((owner, ParseDigits(s, 0).0)) else None
        case _ => None
      }
    case _ => None
  }

  predicate OfMint(entry: Json, mint: string) { HasText(entry, "mint", mint) }

  // Every entry of the mint can be read.
  ghost predicate Readable(entries: seq<Json>, mint: string) {
    forall e :: e in entries && OfMint(e, mint) ==> EntryBalance(e).Some?
  }

  // What an owner holds over all its accounts of the mint.
  function Holding(entries: seq<Json>, mint: string, owner: string): int {
    if entries == [] then 0
    else
      var last := entries[|entries| - 1];
      Holding(entries[..|entries| - 1], mint, owner)
      + (if OfMint(last, mint) && EntryBalance(last).Some? && EntryBalance(last).value.0 == owner
         then EntryBalance(last).value.1 else 0)
  }

  predicate Owns(entries: seq<Json>, mint: string, owner: string) {
    exists i :: 0 <= i < |entries| && OfMint(entries[i], mint)
                && EntryBalance(entries[i]).Some? && EntryBalance(entries[i]).value.0 == owner
  }

  // One more entry: an unreadable entry of the mint makes the whole list unavailable.
  function AddEntry(b: Balances, entry: Json, mint: string): Balances {
    if !b.available || !OfMint(entry, mint) then b
    else match EntryBalance(entry) {
      case None => Balances(false, true, map[])
      case Some((owner, amount)) =>
        Balances(true, true, b.byOwner[owner := (if owner in b.byOwner then b.byOwner[owner] else 0) + amount])
    }
  }

  function Aggregated(entries: seq<Json>, mint: string): Balances {
    if entries == [] then Balances(true, false, map[])
    else AddEntry(Aggregated(entries[..|entries| - 1], mint), entries[|entries| - 1], mint)
  }

  function AggregatedValue(value: Option<Json>, mint: string): Balances {
    if value.None? || !value.value.Arr? then UNAVAILABLE_LIST else Aggregated(value.value.items, mint)
  }

  // Sums the balances of a mint by owner, stopping at the first unreadable entry.
  method AggregateTokenBalances(value: Option<Json>, mint: string) returns (r: Balances)
    ensures r == AggregatedValue(value, mint)
  {
    if value.None? || !value.value.Arr? { return UNAVAILABLE_LIST; }
    var entries := value.value.items;
    r := Balances(true, false, map[]);
    var i := 0;
    while i < |entries|
      invariant 0 <= i <= |entries| && r.available
      invariant r == Aggregated(entries[..i], mint)
    {
      var entry := entries[i];
      assert entries[..i + 1][..i] == entries[..i];
      i := i + 1;
      if !OfMint(entry, mint) { continue; }
      match EntryBalance(entry) {
        case None =>
          UnreadableStays(entries, i, mint);
          return Balances(false, true, map[]);
        case Some((owner, amount)) =>
          var held := if owner in r.byOwner then r.byOwner[owner] else 0;
          r := Balances(true, true, r.byOwner[owner := held + amount]);
      }
    }
    assert entries[..|entries|] == entries;
  }

  lemma {:induction false} UnreadableStays(entries: seq<Json>, i: nat, mint: string)
    requires i <= |entries| && !Aggregated(entries[..i], mint).available
    ensures Aggregated(entries, mint) == Aggregated(entries[..i], mint)
    decreases |entries|
  {
    if i == |entries| {
      assert entries[..i] == entries;
    } else {
      var front := entries[..|entries| - 1];
      assert front[..i] == entries[..i];
      UnreadableStays(front, i, mint);
    }
  }

  // What the sums mean: available when every entry of the mint is readable; then each
  // owner that appears is given everything it holds, whatever the order of the entries.
  lemma {:induction false} AggregatedMeans(entries: seq<Json>, mint: string)
    ensures var r := Aggregated(entries, mint);
      && (r.available <==> Readable(entries, mint))
      && (r.available ==> forall owner :: owner in r.byOwner <==> Owns(entries, mint, owner))
      && (r.available ==> forall owner ::
            Holding(entries, mint, owner) == if owner in r.byOwner then r.byOwner[owner] else 0)
      && (r.available && r.byOwner != map[] ==> r.sawExpectedMint)
  {
    hide EntryBalance, OfMint;
    if entries != [] {
      var n := |entries| - 1;
      AggregatedMeans(entries[..n], mint);
      assert entries[..n + 1] == entries;
      TakeOneMore(entries, n, mint);
    }
  }

  lemma TakeOneMore(entries: seq<Json>, i: nat, mint: string)
    requires i < |entries|
    ensures Readable(entries[..i + 1], mint)
            <==> Readable(entries[..i], mint) && (OfMint(entries[i], mint) ==> EntryBalance(entries[i]).Some?)
    ensures forall owner ::
              Owns(entries[..i + 1], mint, owner)
              <==> Owns(entries[..i], mint, owner)
                   || (OfMint(entries[i], mint) && EntryBalance(entries[i]).Some?
                       && EntryBalance(entries[i]).value.0 == owner)
  {
    hide EntryBalance, OfMint;
    var more, less := entries[..i + 1], entries[..i];
    assert forall e :: e in more <==> e in less || e == entries[i];
    forall owner
      ensures Owns(more, mint, owner)
              <==> Owns(less, mint, owner)
                   || (OfMint(entries[i], mint) && EntryBalance(entries[i]).Some?
                       && EntryBalance(entries[i]).value.0 == owner)
    {
      assert forall k :: 0 <= k < i ==> more[k] == less[k];
      assert more[i] == entries[i];
    }
  }

  // ----------------------------------------------------------- chain evidence

  datatype Movement = Verified | Mismatch | Unavailable

  function MovementText(m: Movement): string {
    match m
    case Verified => "verified"
    case Mismatch => "mismatch"
    case Unavailable => "unavailable"
  }

  // Whether two balance lists show exactly `amount` moving from payer to recipient.
  function JudgeMovement(pre: Balances, post: Balances, payer: string, recipient: string, amount: int): Movement {
    if !(pre.available && post.available && (pre.sawExpectedMint || post.sawExpectedMint)
         && payer in pre.byOwner && recipient in pre.byOwner
         && payer in post.byOwner && recipient in post.byOwner)
    then Unavailable
    else if post.byOwner[payer] - pre.byOwner[payer] == -amount
            && post.byOwner[recipient] - pre.byOwner[recipient] == amount
    then Verified
    else Mismatch
  }

  // Both parties appear in a readable list that holds these totals.
  ghost predicate Statement(value: Option<Json>, payer: string, recipient: string, payerHeld: int, recipientHeld: int) {
    && value.Some? && value.value.Arr?
    && Readable(value.value.items, DEVNET_USDC)
    && Owns(value.value.items, DEVNET_USDC, payer)
    && Owns(value.value.items, DEVNET_USDC, recipient)
    && Holding(value.value.items, DEVNET_USDC, payer) == payerHeld
    && Holding(value.value.items, DEVNET_USDC, recipient) == recipientHeld
  }

  // A movement is verified exactly when both lists can be read in full, name both
  // parties, and the parties' whole holdings moved by the amount in opposite directions.
  lemma VerifiedMovementMeans(pre: Option<Json>, post: Option<Json>, payer: string, recipient: string, amount: int)
    ensures JudgeMovement(AggregatedValue(pre, DEVNET_USDC), AggregatedValue(post, DEVNET_USDC),
                          payer, recipient, amount) == Verified
            <==> exists p, r ::
                   Statement(pre, payer, recipient, p, r) && Statement(post, payer, recipient, p - amount, r + amount)
  {
    hide Holding, Owns, Readable, Aggregated;
    if pre.Some? && pre.value.Arr? { AggregatedMeans(pre.value.items, DEVNET_USDC); }
    if post.Some? && post.value.Arr? { AggregatedMeans(post.value.items, DEVNET_USDC); }
    var before, after := AggregatedValue(pre, DEVNET_USDC), AggregatedValue(post, DEVNET_USDC);
    if JudgeMovement(before, after, payer, recipient, amount) == Verified {
      var p, r := before.byOwner[payer], before.byOwner[recipient];
      assert Statement(pre, payer, recipient, p, r) && Statement(post, payer, recipient, p - amount, r + amount);
    }
  }

  datatype Verification = Verification(
    rpcUrlSha256: string,
    confirmed: bool,
    confirmationStatus: string,
    transactionError: Option<bool>,
    signatureMatches: Option<bool>,
    feePayerVerified: Option<bool>,
    movement: Movement,
    expectedAmount: int,
    deltas: Option<(int, int)>,
    payer: string)

  // What the RPC node answers about a signature; a missing part is None.
  datatype ChainAnswer = ChainAnswer(
    statusFailed: Option<bool>,
    confirmationStatus: string,
    hasTransaction: bool,
    hasMeta: bool,
    metaFailed: Option<bool>,
    signatures: Option<seq<string>>,
    firstAccount: Option<string>,
    preBalances: Option<Json>,
    postBalances: Option<Json>)

  function VerifyPaymentOnChain(a: ChainAnswer, signature: string, payer: string, amount: int): Verification {
    var before := AggregatedValue(if a.hasMeta then a.preBalances else None, DEVNET_USDC);
    var after := AggregatedValue(if a.hasMeta then a.postBalances else None, DEVNET_USDC);
    var movement := JudgeMovement(before, after, payer, EXPECTED_PAY_TO, amount);
    var transactionError := if a.hasMeta then a.metaFailed else None;
    Verification(
      "",
      a.hasTransaction && a.hasMeta && transactionError == Some(false) && a.statusFailed == Some(false)
        && a.confirmationStatus in {"confirmed", "finalized"},
      a.confirmationStatus,
      transactionError,
      if a.hasTransaction && a.signatures.Some? then Some(signature in a.signatures.value) else None,
      if a.hasTransaction && a.firstAccount.Some? && a.firstAccount.value != ""
      then Some(a.firstAccount.value == EXPECTED_FEE_PAYER) else None,
      movement,
      amount,
      if movement == Unavailable then None
      else Some((after.byOwner[payer] - before.byOwner[payer],
                 after.byOwner[EXPECTED_PAY_TO] - before.byOwner[EXPECTED_PAY_TO])),
      payer)
  }

  // Every check the sidecar and its clients make before trusting a payment.
  predicate FullyVerified(v: Verification) {
    && v.confirmed
    && v.transactionError == Some(false)
    && v.signatureMatches == Some(true)
    && v.feePayerVerified == Some(true)
    && v.movement == Verified
  }

  function OptionalBool(b: Option<bool>): Json { if b.Some? then Bool(b.value) else Null }

  function MovementJson(v: Verification): Json {
    Obj([Field("status", Str(MovementText(v.movement))),
         Field("expected_amount", Str(IntText(v.expectedAmount)))]
        + (if v.deltas.Some?
           then [Field("payer_delta", Str(IntText(v.deltas.value.0))),
                 Field("recipient_delta", Str(IntText(v.deltas.value.1)))]
           else [])
        + [Field("recipient", Str(EXPECTED_PAY_TO)), Field("payer", Str(v.payer))])
  }

  function VerificationJson(v: Verification): Json {
    Obj([Field("rpc_url_sha256", Str(v.rpcUrlSha256)),
         Field("confirmed_transaction", Bool(v.confirmed)),
         Field("confirmation_status", Str(v.confirmationStatus)),
         Field("transaction_error", OptionalBool(v.transactionError)),
         Field("transaction_signature_matches", OptionalBool(v.signatureMatches)),
         Field("fee_payer_verified", OptionalBool(v.feePayerVerified)),
         Field("token_movement", MovementJson(v))])
  }

  lemma VerificationJsonWellFormed(v: Verification)
    ensures WellFormed(VerificationJson(v))
  {
    hide MovementJson;
    MovementJsonWellFormed(v);
    var fs := VerificationJson(v).fields;
    assert forall f :: f in fs ==>
                         f == fs[0] || f == fs[1] || f == fs[2] || f == fs[3] || f == fs[4] || f == fs[5] || f == fs[6];
  }

  lemma MovementJsonWellFormed(v: Verification)
    ensures WellFormed(MovementJson(v))
  {
    hide IntText, MovementText;
  }

  // The evidence before any transaction is known.
  function InitialVerification(rpcUrlSha256: string, amount: int, payer: string): Verification {
    Verification(rpcUrlSha256, false, "unknown", None, None, None, Unavailable, amount, None, payer)
  }

  // ------------------------------------------------------------ the paid request

  datatype Settlement = Settlement(headerSha256: string, signature: string, success: bool, network: string)

  // What the server and the chain answer after the paid request was sent. Each part
  // stands for one oracle; `signalError` is the code of a malformed Signal header.
  datatype PaidOutcome =
    | FetchFailed
    | Response(status: int, body: Option<string>, signalError: Option<string>,
               header: Option<string>, decoded: Option<Json>, rpc: Option<ChainAnswer>)

  datatype CanaryResult = CanaryResult(
    ok: bool,
    code: string,
    attempted: bool,
    status: Option<int>,
    bodyText: Option<string>,
    bodySha256: Option<string>,
    settlement: Option<Settlement>,
    verification: Option<Verification>)

  datatype CanaryEnv = CanaryEnv(
    hash: string -> string,
    validSignature: string -> bool,
    rpcUrl: string,
    signer: string)

  // A run that ended before any paid request was sent.
  function Unpaid(code: string): CanaryResult {
    CanaryResult(false, code, false, None, None, None, None, None)
  }

  // A run that ended between loading the signer and sending.
  function Unsent(env: CanaryEnv, amount: int, code: string): CanaryResult {
    Unpaid(code).(verification := Some(InitialVerification(env.hash(env.rpcUrl), amount, env.signer)))
  }

  function SettlementError(env: CanaryEnv, decoded: Json, amount: int): Option<string> {
    if Prop(decoded, "success") != Some(Bool(true)) then Some("SETTLEMENT_FAILED")
    else if !HasText(decoded, "network", DEVNET_NETWORK) then Some("SETTLEMENT_NETWORK_MISMATCH")
    else if Prop(decoded, "amount").Some? && !SettlementAmountMatches(Prop(decoded, "amount").value, amount)
    then Some("SETTLEMENT_AMOUNT_MISMATCH")
    else if Prop(decoded, "payer").Some? && !HasText(decoded, "payer", env.signer)
    then Some("SETTLEMENT_PAYER_MISMATCH")
    else match Prop(decoded, "transaction") {
      case Some(Str(s)) => if s != "" && env.validSignature(s) then None else Some("TRANSACTION_SIGNATURE_INVALID")
      case _ => Some("TRANSACTION_SIGNATURE_INVALID")
    }
  }

  predicate SettlementAmountMatches(v: Json, amount: int) {
    match v
    case Num(n) => 0 <= n <= 9007199254740991 && n == amount
    case _ => CanonicalDecimal(Some(v)) == Some(amount)
  }

  function VerificationError(v: Verification): Option<string> {
    if !v.confirmed then
      Some(if v.transactionError == Some(true) then "TRANSACTION_FAILED" else "TRANSACTION_NOT_CONFIRMED")
    else if v.signatureMatches != Some(true) then Some("TRANSACTION_SIGNATURE_MISMATCH")
    else if v.feePayerVerified != Some(true) then Some("FEE_PAYER_ONCHAIN_MISMATCH")
    else if v.movement == Unavailable then Some("TOKEN_BALANCE_METADATA_UNAVAILABLE")
    else if v.movement == Mismatch then Some("TOKEN_BALANCE_MOVEMENT_MISMATCH")
    else None
  }

  // The end of `runCanary` in execute mode, after the paid request was sent.
  function FinishPaid(env: CanaryEnv, amount: int, outcome: PaidOutcome): CanaryResult {
    var initial := InitialVerification(env.hash(env.rpcUrl), amount, env.signer);
    var base := CanaryResult(false, "PAID_REQUEST_OUTCOME_UNKNOWN", true, None, None, None, None, Some(initial));
    match outcome
    case FetchFailed => base
    case Response(status, body, signalError, header, decoded, rpc) =>
      if body.None? then base.(code := "PAID_RESPONSE_INVALID", status := Some(status))
      else
        var read := base.(status := Some(status), bodyText := body, bodySha256 := Some(env.hash(body.value)));
        if status < 200 || status >= 300 then read.(code := "PAID_RESPONSE_INVALID")
        else if signalError.Some? then read.(code := signalError.value)
        else if header.None? then read.(code := "SETTLEMENT_HEADER_MISSING")
        else FinishSettlement(env, amount, read, header.value, decoded, rpc)
  }

  function FinishSettlement(env: CanaryEnv, amount: int, read: CanaryResult, header: string,
                            decoded: Option<Json>, rpc: Option<ChainAnswer>): CanaryResult
  {
    var pending := read.(settlement := Some(Settlement(env.hash(header), "", false, "")));
    if decoded.None? || !decoded.value.Obj? then pending.(code := "SETTLEMENT_HEADER_INVALID")
    else if SettlementError(env, decoded.value, amount).Some?
    then pending.(code := SettlementError(env, decoded.value, amount).value)
    else
      var signature := Prop(decoded.value, "transaction").value.s;
      var settled := read.(settlement := Some(Settlement(env.hash(header), signature, true, DEVNET_NETWORK)));
      if rpc.None? then settled.(code := "RPC_QUERY_FAILED")
      else
        var v := VerifyPaymentOnChain(rpc.value, signature, env.signer, amount).(rpcUrlSha256 := env.hash(env.rpcUrl));
        var judged := settled.(verification := Some(v));
        if VerificationError(v).Some? then judged.(code := VerificationError(v).value)
        else judged.(ok := true, code := "")
  }

  // The evidence a successful run always carries.
  ghost predicate CompleteEvidence(env: CanaryEnv, r: CanaryResult) {
    && r.attempted
    && r.status.Some? && 200 <= r.status.value < 300
    && r.bodyText.Some? && r.bodySha256 == Some(env.hash(r.bodyText.value))
    && r.settlement.Some? && r.settlement.value.success && r.settlement.value.network == DEVNET_NETWORK
    && IsDigest(env.hash, r.settlement.value.headerSha256)
    && r.settlement.value.signature != "" && env.validSignature(r.settlement.value.signature)
    && r.verification.Some? && FullyVerified(r.verification.value)
  }

  ghost predicate IsDigest(hash: string -> string, digest: string) { exists text :: hash(text) == digest }

  lemma SuccessIsComplete(env: CanaryEnv, amount: int, outcome: PaidOutcome)
    ensures FinishPaid(env, amount, outcome).attempted
    ensures FinishPaid(env, amount, outcome).ok ==> CompleteEvidence(env, FinishPaid(env, amount, outcome))
  {
    hide Prop, Aggregated, JudgeMovement;
  }
}
