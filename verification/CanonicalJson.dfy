// Canonical JSON: the sorted-key printer shared by the payment sidecar, its journal,
// the canary and the Python boundary, and the proof that its text decides a value.
module CanonicalJson {
  import opened Prelude

  // Objects keep the order their keys were inserted in; numbers are integers.
  datatype Json =
    | Null
    | Bool(b: bool)
    | Num(n: int)
    | Str(s: string)
    | Arr(items: seq<Json>)
    | Obj(fields: seq<Field>)

  datatype Field = Field(key: string, value: Json)

  predicate HasKey(fs: seq<Field>, key: string) {
    exists i :: 0 <= i < |fs| && fs[i].key == key
  }

  // Property access: the value stored under a key, if any.
  function Lookup(fs: seq<Field>, key: string): (r: Option<Json>)
    ensures r.Some? <==> HasKey(fs, key)
    ensures r.Some? ==> Field(key, r.value) in fs
  {
    if fs == [] then None
    else if fs[0].key == key then Some(fs[0].value)
    else
      var r := Lookup(fs[1..], key);
      assert HasKey(fs[1..], key) ==> HasKey(fs, key);
      assert HasKey(fs, key) ==> HasKey(fs[1..], key) by {
        if HasKey(fs, key) {
          var i :| 0 <= i < |fs| && fs[i].key == key;
          assert fs[1..][i - 1].key == key;
        }
      }
      r
  }

  ghost predicate DistinctKeys(fs: seq<Field>) {
    forall i, j :: 0 <= i < j < |fs| ==> fs[i].key != fs[j].key
  }

  // What a parsed or built object guarantees: no key occurs twice, at any depth.
  ghost predicate WellFormed(v: Json) {
    match v
    case Arr(items) => forall x :: x in items ==> WellFormed(x)
    case Obj(fields) => DistinctKeys(fields) && forall f :: f in fields ==> WellFormed(f.value)
    case _ => true
  }

  // Equality of values with objects read as maps from key to value.
  ghost predicate SameValue(v: Json, w: Json) {
    match v
    case Arr(xs) =>
      w.Arr? && |xs| == |w.items| && forall i :: 0 <= i < |xs| ==> SameValue(xs[i], w.items[i])
    case Obj(fs) =>
      w.Obj? && |fs| == |w.fields|
      && forall f :: f in fs ==>
           Lookup(w.fields, f.key).Some? && SameValue(f.value, Lookup(w.fields, f.key).value)
    case _ => v == w
  }

  // ---------------------------------------------------------------- printing

  predicate KeyLe(f: Field, g: Field) { TextLe(f.key, g.key) }

  lemma KeyLeIsPreorder()
    ensures TotalPreorder(KeyLe)
  {
    forall f, g ensures KeyLe(f, g) || KeyLe(g, f) { TextLeTotal(f.key, g.key); }
    forall f, g, h | KeyLe(f, g) && KeyLe(g, h) ensures KeyLe(f, h) {
      TextLeTransitive(f.key, g.key, h.key);
    }
  }

  function SortFields(fs: seq<Field>): (r: seq<Field>)
    ensures |r| == |fs|
    ensures forall f :: f in r <==> f in fs
  {
    SortKeepsElements(fs, KeyLe);
    Sort(fs, KeyLe)
  }

  function Digit(d: int): char
    requires 0 <= d < 10
  {
    "0123456789"[d]
  }

  function NatText(n: nat): string {
    if n < 10 then [Digit(n)] else NatText(n / 10) + [Digit(n % 10)]
  }

  function IntText(n: int): string {
    if n < 0 then "-" + NatText(-n) else NatText(n)
  }

  function HexDigit(d: int): char
    requires 0 <= d < 16
  {
    "0123456789abcdef"[d]
  }

  // Section 7 of RFC 8259: quotation mark, reverse solidus and control characters
  // are escaped, by the two-character form where there is one.
  function EscapeChar(c: char): string {
    if c == '\"' then "\\\""
    else if c == '\\' then "\\\\"
    else if c == '\n' then "\\n"
    else if c == '\r' then "\\r"
    else if c == '\t' then "\\t"
    else if c == 8 as char then "\\b"
    else if c == 12 as char then "\\f"
    else if c < ' ' then "\\u00" + [HexDigit(c as int / 16), HexDigit(c as int % 16)]
    else [c]
  }

  function EscapeText(s: string): string {
    if s == "" then "" else EscapeChar(s[0]) + EscapeText(s[1..])
  }

  function Quoted(s: string): string { "\"" + EscapeText(s) + "\"" }

  function CanonicalText(v: Json): string
    decreases v, 1, 0
  {
    match v
    case Null => "null"
    case Bool(b) => if b then "true" else "false"
    case Num(n) => IntText(n)
    case Str(s) => Quoted(s)
    case Arr(items) => "[" + PrintItems(items) + "]"
    case Obj(fields) => "{" + PrintMembers(v, SortFields(fields)) + "}"
  }

  function PrintItems(xs: seq<Json>): string
    decreases xs, 0, 0
  {
    if xs == [] then ""
    else if |xs| == 1 then CanonicalText(xs[0])
    else CanonicalText(xs[0]) + "," + PrintItems(xs[1..])
  }

  function PrintMember(v: Json, f: Field): string
    requires v.Obj? && f in v.fields
    decreases v, 0, 0
  {
    Quoted(f.key) + ":" + CanonicalText(f.value)
  }

  function PrintMembers(v: Json, fs: seq<Field>): string
    requires v.Obj? && forall f :: f in fs ==> f in v.fields
    decreases v, 0, |fs|
  {
    if fs == [] then ""
    else if |fs| == 1 then PrintMember(v, fs[0])
    else PrintMember(v, fs[0]) + "," + PrintMembers(v, fs[1..])
  }

  // The value a canonical text stands for: every object's fields in key order.
  function Normalize(v: Json): Json
    decreases v, 1, 0
  {
    match v
    case Arr(items) => Arr(NormalizeItems(items))
    case Obj(fields) => Obj(NormalizeMembers(v, SortFields(fields)))
    case _ => v
  }

  function NormalizeItems(xs: seq<Json>): (r: seq<Json>)
    ensures |r| == |xs|
    ensures forall i :: 0 <= i < |xs| ==> r[i] == Normalize(xs[i])
    decreases xs, 0, 0
  {
    if xs == [] then [] else [Normalize(xs[0])] + NormalizeItems(xs[1..])
  }

  function NormalizeMember(v: Json, f: Field): Field
    requires v.Obj? && f in v.fields
    decreases v, 0, 0
  {
    Field(f.key, Normalize(f.value))
  }

  function NormalizeMembers(v: Json, fs: seq<Field>): (r: seq<Field>)
    requires v.Obj? && forall f :: f in fs ==> f in v.fields
    ensures |r| == |fs|
    ensures forall i :: 0 <= i < |fs| ==> r[i] == NormalizeMember(v, fs[i])
    decreases v, 0, |fs| + 1
  {
    if fs == [] then []
    else [NormalizeMember(v, fs[0])] + NormalizeMembers(v, fs[1..])
  }

  // ----------------------------------------------------------------- parsing

  predicate IsDigit(c: char) { '0' <= c <= '9' }

  function DigitValue(c: char): int
    requires IsDigit(c)
  {
    c as int - '0' as int
  }

  function HexValue(c: char): (r: Option<int>)
    ensures r.Some? ==> 0 <= r.value < 16
  {
    if IsDigit(c) then Some(DigitValue(c))
    else if 'a' <= c <= 'f' then Some(c as int - 'a' as int + 10)
    else if 'A' <= c <= 'F' then Some(c as int - 'A' as int + 10)
    else None
  }

  // The longest run of digits at the front, read with `acc` before it.
  function ParseDigits(s: string, acc: int): (r: (int, string))
    ensures |r.1| <= |s|
  {
    if s == "" || !IsDigit(s[0]) then (acc, s)
    else ParseDigits(s[1..], acc * 10 + DigitValue(s[0]))
  }

  // A text up to its closing quotation mark.
  function ParseText(s: string): (r: Option<(string, string)>)
    ensures r.Some? ==> |r.value.1| < |s|
  {
    if s == "" then None
    else if s[0] == '\"' then Some(("", s[1..]))
    else if s[0] != '\\' then
      if s[0] < ' ' then None else PrependChar(s[0], ParseText(s[1..]))
    else if |s| < 2 then None
    else if s[1] == 'u' then
      if |s| < 6 then None
      else match (HexValue(s[2]), HexValue(s[3]), HexValue(s[4]), HexValue(s[5])) {
        case (Some(a), Some(b), Some(c), Some(d)) =>
          var code := ((a * 16 + b) * 16 + c) * 16 + d;
          if 0xD800 <= code < 0xE000 then None else PrependChar(code as char, ParseText(s[6..]))
        case _ => None
      }
    else match Unescape(s[1]) {
      case Some(c) => PrependChar(c, ParseText(s[2..]))
      case None => None
    }
  }

  function Unescape(c: char): Option<char> {
    if c == '\"' || c == '\\' || c == '/' then Some(c)
    else if c == 'n' then Some('\n')
    else if c == 'r' then Some('\r')
    else if c == 't' then Some('\t')
    else if c == 'b' then Some(8 as char)
    else if c == 'f' then Some(12 as char)
    else None
  }

  function PrependChar(c: char, r: Option<(string, string)>): Option<(string, string)> {
    match r
    case None => None
    case Some((text, rest)) => Some(([c] + text, rest))
  }

  function ParseValue(s: string): (r: Option<(Json, string)>)
    ensures r.Some? ==> |r.value.1| < |s|
    decreases |s|, 0
  {
    if s == "" then None
    else if s[0] == '\"' then
      match ParseText(s[1..]) {
        case Some((text, rest)) => Some((Str(text), rest))
        case None => None
      }
    else if s[0] == '[' then
      if |s| > 1 && s[1] == ']' then Some((Arr([]), s[2..]))
      else match ParseItems(s[1..]) {
        case Some((items, rest)) => Some((Arr(items), rest))
        case None => None
      }
    else if s[0] == '{' then
      if |s| > 1 && s[1] == '}' then Some((Obj([]), s[2..]))
      else match ParseMembers(s[1..]) {
        case Some((fields, rest)) => Some((Obj(fields), rest))
        case None => None
      }
    else if s[0] == '-' then
      if |s| > 1 && IsDigit(s[1]) then
        var (n, rest) := ParseDigits(s[1..], 0);
        Some((Num(-n), rest))
      else None
    else if IsDigit(s[0]) then
      var (n, rest) := ParseDigits(s[1..], DigitValue(s[0]));
      Some((Num(n), rest))
    else if "null" <= s then Some((Null, s[4..]))
    else if "true" <= s then Some((Bool(true), s[4..]))
    else if "false" <= s then Some((Bool(false), s[5..]))
    else None
  }

  // One or more values separated by commas, up to the closing bracket.
  function ParseItems(s: string): (r: Option<(seq<Json>, string)>)
    ensures r.Some? ==> |r.value.1| < |s|
    decreases |s|, 1
  {
    match ParseValue(s)
    case None => None
    case Some((v, rest)) =>
      if rest == "" then None
      else if rest[0] == ']' then Some(([v], rest[1..]))
      else if rest[0] == ',' then
        match ParseItems(rest[1..]) {
          case Some((vs, rest')) => Some(([v] + vs, rest'))
          case None => None
        }
      else None
  }

  // One or more members separated by commas, up to the closing brace.
  function ParseMembers(s: string): (r: Option<(seq<Field>, string)>)
    ensures r.Some? ==> |r.value.1| < |s|
    decreases |s|, 1
  {
    if s == "" || s[0] != '\"' then None
    else match ParseText(s[1..]) {
      case None => None
      case Some((key, rest)) =>
        if rest == "" || rest[0] != ':' then None
        else match ParseValue(rest[1..]) {
          case None => None
          case Some((v, rest')) =>
            if rest' == "" then None
            else if rest'[0] == '}' then Some(([Field(key, v)], rest'[1..]))
            else if rest'[0] == ',' then
              match ParseMembers(rest'[1..]) {
                case Some((fs, rest'')) => Some(([Field(key, v)] + fs, rest''))
                case None => None
              }
            else None
        }
    }
  }

  // A whole text is a value when nothing is left over.
  function Parse(text: string): Option<Json> {
    match ParseValue(text)
    case Some((v, rest)) => if rest == "" then Some(v) else None
    case None => None
  }
}
