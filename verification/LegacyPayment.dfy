// The legacy x402 transport: the option a signer may authorise, the journal keyed by
// request URL, and many clients over one journal as a protocol.
module LegacyPayment {
  import opened Prelude
  import opened CanonicalJson
  import opened Canary

  const BASE_SEPOLIA_NETWORK := "eip155:84532"
  const BASE_SEPOLIA_USDC := "0x036CbD53842c5426634e7929541eC2318f3dCF7e"
  const MINIMUM_USDC_MICROUNITS: int := 10000

  // ------------------------------------------------------------- the approved option

  // Text conversions of the host language.
  datatype Conversions = Conversions(
    lower: string -> string, text: Json -> string, digits: string -> Option<nat>, integer: Json -> Option<int>)

  function GetOr(v: Json, first: string, second: string): Option<Json> {
    if Prop(v, first).Some? then Prop(v, first) else Prop(v, second)
  }

  function AmountOf(t: Conversions, option: Json): Option<int> {
    match GetOr(option, "amount", "maxAmountRequired")
    case Some(Num(n)) => if n >= 0 then Some(n) else None
    case Some(Str(s)) => if t.digits(s).Some? then Some(t.digits(s).value) else None
    case _ => None
  }

  function VersionOf(t: Conversions, payload: Json): Option<int> {
    match GetOr(payload, "x402Version", "x402_version")
    case None => None
    case Some(v) => t.integer(v)
  }

  function TextOf(t: Conversions, v: Option<Json>): string { if v.Some? then t.text(v.value) else "" }

  function ResourceUrl(option: Json, payload: Json): Option<string> {
    var r := if Prop(option, "resource").Some? then Prop(option, "resource") else Prop(payload, "resource");
    var url := if r.Some? && r.value.Obj? then Prop(r.value, "url") else r;
    match url
    case Some(Str(s)) => if s == "" then None else Some(s)
    case _ => None
  }

  predicate OfApprovedKind(t: Conversions, option: Json) {
    && option.Obj?
    && t.lower(TextOf(t, Prop(option, "scheme"))) == "exact"
    && HasText(option, "network", BASE_SEPOLIA_NETWORK)
    && t.lower(TextOf(t, Prop(option, "asset"))) == t.lower(BASE_SEPOLIA_USDC)
  }

  datatype Request = Request(url: string, payTo: string, cap: int, deadlineOk: Option<Json> -> bool)

  function CheckOption(t: Conversions, q: Request, option: Json, payload: Json): Result<Json, string> {
    var amount := AmountOf(t, option);
    var payTo := GetOr(option, "payTo", "pay_to");
    var resource := ResourceUrl(option, payload);
    if amount.None? || amount.value < MINIMUM_USDC_MICROUNITS then Err("invalid amount")
    else if amount.value > q.cap then Err("amount exceeds the cap")
    else match payTo {
      case Some(Str(p)) =>
        if p == "" then Err("no recipient")
        else if t.lower(p) != t.lower(q.payTo) then Err("recipient does not match")
        else if resource.Some? && resource.value != q.url then Err("resource does not match")
        else Ok(option)
      case _ => Err("no recipient")
    }
  }

  // The first option of the approved kind decides.
  function SelectOption(t: Conversions, q: Request, accepts: seq<Json>, payload: Json): Result<Json, string> {
    if accepts == [] then Err("no approved option")
    else if !OfApprovedKind(t, accepts[0]) then SelectOption(t, q, accepts[1..], payload)
    else CheckOption(t, q, accepts[0], payload)
  }

  function Accepts(payload: Json): seq<Json> {
    match Prop(payload, "accepts")
    case Some(Arr(items)) => items
    case _ => []
  }

  // The first deadline field present.
  function DeadlineOf(payload: Json): Option<Json> {
    if Prop(payload, "deadline").Some? then Prop(payload, "deadline")
    else if Prop(payload, "expiresAt").Some? then Prop(payload, "expiresAt")
    else if Prop(payload, "expires_at").Some? then Prop(payload, "expires_at")
    else Prop(payload, "expiration")
  }

  function ValidateForRequest(t: Conversions, q: Request, payload: Json): Result<Json, string> {
    if VersionOf(t, payload) != Some(2) then Err("unsupported version")
    else if q.cap < MINIMUM_USDC_MICROUNITS then Err("cap below the floor")
    else if !q.deadlineOk(DeadlineOf(payload)) then Err("deadline")
    else SelectOption(t, q, Accepts(payload), payload)
  }

  // Assigning a key of an object.
  function WithKey(fields: seq<Field>, key: string, value: Json): seq<Field> {
    if fields == [] then [Field(key, value)]
    else if fields[0].key == key then [Field(key, value)] + fields[1..]
    else [fields[0]] + WithKey(fields[1..], key, value)
  }

  // The challenge a signer is shown: the payload with the approved option alone.
  function Constrained(payload: Json, option: Json): Json
    requires payload.Obj?
  {
    Obj(WithKey(payload.fields, "accepts", Arr([option])))
  }

  lemma {:induction false} WithKeyLookup(fields: seq<Field>, key: string, value: Json, other: string)
    ensures Lookup(WithKey(fields, key, value), other) == if other == key then Some(value) else Lookup(fields, other)
  {
    if fields != [] && fields[0].key != key {
      WithKeyLookup(fields[1..], key, value, other);
      assert WithKey(fields, key, value)[1..] == WithKey(fields[1..], key, value);
    } else if fields != [] {
      assert WithKey(fields, key, value)[1..] == fields[1..];
    }
  }

  lemma {:induction false} SelectedIsApproved(t: Conversions, q: Request, accepts: seq<Json>, payload: Json)
    requires SelectOption(t, q, accepts, payload).Ok?
    ensures var o := SelectOption(t, q, accepts, payload).value;
      && o in accepts && OfApprovedKind(t, o) && CheckOption(t, q, o, payload) == Ok(o)
  {
    hide OfApprovedKind;
    if !OfApprovedKind(t, accepts[0]) {
      SelectedIsApproved(t, q, accepts[1..], payload);
    }
  }

  // A signer shown the constrained challenge can only choose what was approved: checked
  // again, it yields the same option, of the same amount, and nothing else to choose.
  lemma ConstrainedChallengeKeepsTheChoice(t: Conversions, q: Request, payload: Json)
    requires payload.Obj? && ValidateForRequest(t, q, payload).Ok?
    ensures var o := ValidateForRequest(t, q, payload).value;
      var shown := Constrained(payload, o);
      && o in Accepts(payload)
      && Accepts(shown) == [o]
      && ValidateForRequest(t, q, shown) == Ok(o)
      && AmountOf(t, o).Some? && MINIMUM_USDC_MICROUNITS <= AmountOf(t, o).value <= q.cap
  {
    hide Lookup, OfApprovedKind, AmountOf, SelectOption, CheckOption;
    var o := ValidateForRequest(t, q, payload).value;
    var shown := Constrained(payload, o);
    SelectedIsApproved(t, q, Accepts(payload), payload);
    forall k ensures Lookup(shown.fields, k) == if k == "accepts" then Some(Arr([o])) else Lookup(payload.fields, k) {
      WithKeyLookup(payload.fields, "accepts", Arr([o]), k);
    }
    OtherPropsStay(t, payload, shown, o);
    SingleOption(t, q, o, payload, shown);
  }

  lemma OtherPropsStay(t: Conversions, payload: Json, shown: Json, o: Json)
    requires payload.Obj? && shown.Obj?
    requires forall k :: Lookup(shown.fields, k)
                      == if k == "accepts" then Some(Arr([o])) else Lookup(payload.fields, k)
    ensures VersionOf(t, shown) == VersionOf(t, payload) && DeadlineOf(shown) == DeadlineOf(payload)
    ensures Accepts(shown) == [o] && Prop(shown, "resource") == Prop(payload, "resource")
  {
    hide Lookup;
    assert |"accepts"| == 7 && |"resource"| == 8 && |"x402Version"| == 11 && |"x402_version"| == 12;
    assert |"deadline"| == 8 && |"expiresAt"| == 9 && |"expires_at"| == 10 && |"expiration"| == 10;
  }

  lemma SingleOption(t: Conversions, q: Request, o: Json, payload: Json, shown: Json)
    requires OfApprovedKind(t, o) && CheckOption(t, q, o, payload) == Ok(o)
    requires Prop(shown, "resource") == Prop(payload, "resource")
    ensures SelectOption(t, q, [o], shown) == Ok(o)
    ensures AmountOf(t, o).Some? && MINIMUM_USDC_MICROUNITS <= AmountOf(t, o).value <= q.cap
  {
    hide OfApprovedKind, AmountOf;
  }

  // ------------------------------------------------------------------------ the table

  datatype Status = RESERVED | SUBMITTED | SETTLED | UNKNOWN | ABORTED

  datatype Authorization = Authorization(url: string, amount: int, challengeSha256: string, authorizationSha256: string)

  datatype Row = Row(
    authorization: Authorization, status: Status, evidence: Option<string>, error: Option<string>,
    createdAt: int, updatedAt: int)

  // One row per request URL.
  type Table = seq<Row>

  predicate Blocking(row: Row) { row.status != ABORTED }

  function Find(t: Table, url: string): Option<Row> {
    if t == [] then None else if t[0].authorization.url == url then Some(t[0]) else Find(t[1..], url)
  }

  function Replace(t: Table, row: Row): Table {
    if t == [] then []
    else if t[0].authorization.url == row.authorization.url then [row] + t[1..]
    else [t[0]] + Replace(t[1..], row)
  }

  function Remove(t: Table, url: string): Table {
    if t == [] then []
    else if t[0].authorization.url == url then t[1..]
    else [t[0]] + Remove(t[1..], url)
  }

  function BlockingCount(t: Table): nat {
    if t == [] then 0 else (if Blocking(t[0]) then 1 else 0) + BlockingCount(t[1..])
  }

  function BlockingTotal(t: Table): int {
    if t == [] then 0 else (if Blocking(t[0]) then t[0].authorization.amount else 0) + BlockingTotal(t[1..])
  }

  datatype LegacyError =
    Duplicate | UnresolvedDuplicate | CountExhausted | TotalExhausted | TransitionFailed | StorageError

  datatype Caps = Caps(count: int, total: int)

  function Available(t: Table, url: string, caps: Caps, additional: int): Option<LegacyError> {
    var row := Find(t, url);
    if row.Some? && row.value.status == UNKNOWN then Some(UnresolvedDuplicate)
    else if row.Some? && Blocking(row.value) then Some(Duplicate)
    else if BlockingCount(t) >= caps.count then Some(CountExhausted)
    else if BlockingTotal(t) + additional > caps.total then Some(TotalExhausted)
    else None
  }

  // An aborted row is deleted and the URL reserved anew.
  function Reserved(t: Table, a: Authorization, caps: Caps, now: int): (Option<LegacyError>, Table) {
    match Available(t, a.url, caps, a.amount)
    case Some(e) => (Some(e), t)
    case None => (None, Remove(t, a.url) + [Row(a, RESERVED, None, None, now, now)])
  }

  function Transitioned(t: Table, url: string, from: Status, to: Status, evidence: Option<string>,
                        error: Option<string>, now: int): (Option<LegacyError>, Table)
  {
    var row := Find(t, url);
    if row.None? || row.value.status != from then (Some(TransitionFailed), t)
    else (None, Replace(t, row.value.(status := to, evidence := evidence, error := error, updatedAt := now)))
  }

  // The stored table behind the client, each call one transaction.
  class SqlitePaymentJournal {
    var table: Table

    constructor ()
      ensures table == []
    {
      table := [];
    }

    method AssertAvailable(url: string, caps: Caps, additional: int) returns (e: Option<LegacyError>)
      ensures e == Available(table, url, caps, additional)
    {
      var row := Find(table, url);
      if row.Some? && Blocking(row.value) {
        return Some(if row.value.status == UNKNOWN then UnresolvedDuplicate else Duplicate);
      }
      var count, total := 0, 0;
      var i := 0;
      assert table[0..] == table;
      while i < |table|
        invariant 0 <= i <= |table|
        invariant count + BlockingCount(table[i..]) == BlockingCount(table)
        invariant total + BlockingTotal(table[i..]) == BlockingTotal(table)
      {
        assert table[i..][1..] == table[i + 1..];
        if Blocking(table[i]) { count, total := count + 1, total + table[i].authorization.amount; }
        i := i + 1;
      }
      if count >= caps.count { return Some(CountExhausted); }
      if total + additional > caps.total { return Some(TotalExhausted); }
      return None;
    }

    method Reserve(a: Authorization, caps: Caps, now: int) returns (e: Option<LegacyError>)
      modifies this
      ensures (e, table) == Reserved(old(table), a, caps, now)
    {
      e := AssertAvailable(a.url, caps, a.amount);
      if e.Some? { return; }
      var existing := Find(table, a.url);
      if existing.Some? && existing.value.status == ABORTED {
        table := Remove(table, a.url);
      } else {
        RemoveAbsent(table, a.url);
      }
      table := table + [Row(a, RESERVED, None, None, now, now)];
    }

    method Transition(url: string, from: Status, to: Status, evidence: Option<string>, error: Option<string>, now: int)
      returns (e: Option<LegacyError>)
      modifies this
      ensures (e, table) == Transitioned(old(table), url, from, to, evidence, error, now)
    {
      var row := Find(table, url);
      if row.None? || row.value.status != from { return Some(TransitionFailed); }
      table := Replace(table, row.value.(status := to, evidence := evidence, error := error, updatedAt := now));
      return None;
    }
  }

  lemma {:induction false} RemoveAbsent(t: Table, url: string)
    requires Find(t, url).None?
    ensures Remove(t, url) == t
  {
    if t != [] { RemoveAbsent(t[1..], url); }
  }
}
