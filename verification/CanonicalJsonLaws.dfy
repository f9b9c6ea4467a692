// What the canonical text of a value decides.
module CanonicalJsonLaws {
  import opened Prelude
  import opened CanonicalJson

  // ------------------------------------------------------------------ numbers

  predicate DigitAhead(s: string) { s != "" && IsDigit(s[0]) }

  ghost predicate AllDigits(s: string) { forall i :: 0 <= i < |s| ==> IsDigit(s[i]) }

  lemma {:induction false} NatTextIsDigits(n: nat)
    ensures NatText(n) != "" && AllDigits(NatText(n))
  {
    if n >= 10 { NatTextIsDigits(n / 10); }
  }

  lemma {:induction false} ParseDigitsSplits(s: string, t: string, acc: int)
    requires AllDigits(s)
    ensures ParseDigits(s + t, acc) == ParseDigits(t, ParseDigits(s, acc).0)
  {
    if s == "" {
      assert s + t == t;
    } else {
      assert (s + t)[1..] == s[1..] + t;
      ParseDigitsSplits(s[1..], t, acc * 10 + DigitValue(s[0]));
    }
  }

  lemma {:induction false} NatTextValue(n: nat)
    ensures ParseDigits(NatText(n), 0) == (n, "")
  {
    if n >= 10 {
      NatTextIsDigits(n / 10);
      NatTextValue(n / 10);
      var d := [Digit(n % 10)];
      ParseDigitsSplits(NatText(n / 10), d, 0);
      assert d[1..] == "";
      assert ParseDigits(d, n / 10) == ParseDigits("", n / 10 * 10 + n % 10);
    } else {
      var d := [Digit(n)];
      assert d[1..] == "";
      assert ParseDigits(d, 0) == ParseDigits("", n);
    }
  }

  lemma NatTextParses(n: nat, rest: string)
    requires !DigitAhead(rest)
    ensures ParseDigits(NatText(n) + rest, 0) == (n, rest)
  {
    NatTextIsDigits(n);
    NatTextValue(n);
    ParseDigitsSplits(NatText(n), rest, 0);
  }

  lemma NatTextReadsBack(n: nat, rest: string)
    requires !DigitAhead(rest)
    ensures ParseValue(NatText(n) + rest) == Some((Num(n), rest))
  {
    NatTextIsDigits(n);
    NatTextParses(n, rest);
    var s := NatText(n) + rest;
    assert IsDigit(s[0]);
    assert ParseDigits(s, 0) == ParseDigits(s[1..], DigitValue(s[0]));
  }

  lemma MinusReadsBack(n: int, rest: string)
    requires n >= 0 && !DigitAhead(rest)
    ensures ParseValue("-" + NatText(n) + rest) == Some((Num(-n), rest))
  {
    NatTextIsDigits(n);
    NatTextParses(n, rest);
    var s := "-" + NatText(n) + rest;
    assert s[1..] == NatText(n) + rest;
    assert s[1] == NatText(n)[0];
  }

  lemma IntTextParses(n: int, rest: string)
    requires !DigitAhead(rest)
    ensures ParseValue(IntText(n) + rest) == Some((Num(n), rest))
  {
    if n < 0 { MinusReadsBack(-n, rest); } else { NatTextReadsBack(n, rest); }
  }

  // ------------------------------------------------------------------ strings

  lemma HexDigitValue(d: int)
    requires 0 <= d < 16
    ensures HexValue(HexDigit(d)) == Some(d)
  {
  }

  lemma UnicodeEscapeParses(n: int, s: string)
    requires 0 <= n < 32
    ensures ParseText("\\u00" + [HexDigit(n / 16), HexDigit(n % 16)] + s) == PrependChar(n as char, ParseText(s))
  {
    var t := "\\u00" + [HexDigit(n / 16), HexDigit(n % 16)] + s;
    HexDigitValue(n / 16);
    HexDigitValue(n % 16);
    HexDigitValue(0);
    assert t[..6] == ['\\', 'u', '0', '0', HexDigit(n / 16), HexDigit(n % 16)];
    assert t[6..] == s;
    assert ((0 * 16 + 0) * 16 + n / 16) * 16 + n % 16 == n;
  }

  lemma PairEscapeParses(d: char, s: string)
    requires d != 'u' && Unescape(d).Some?
    ensures ParseText(['\\', d] + s) == PrependChar(Unescape(d).value, ParseText(s))
  {
    var t := ['\\', d] + s;
    assert t[0] == '\\' && t[1] == d && t[2..] == s;
  }

  // Every character is printed as itself, as a pair, or by its code.
  lemma EscapeForms(c: char)
    ensures var e := EscapeChar(c);
      || (e == [c] && c >= ' ' && c != '\"' && c != '\\')
      || (exists d :: e == ['\\', d] && d != 'u' && Unescape(d) == Some(c))
      || (c < ' ' && e == "\\u00" + [HexDigit(c as int / 16), HexDigit(c as int % 16)])
  {
    var e := EscapeChar(c);
    if |e| == 2 { assert e == ['\\', e[1]]; }
  }

  lemma EscapeCharParses(c: char, s: string)
    ensures ParseText(EscapeChar(c) + s) == PrependChar(c, ParseText(s))
  {
    hide EscapeChar, Unescape, HexDigit, PrependChar;
    var e := EscapeChar(c);
    EscapeForms(c);
    if e == [c] && c >= ' ' && c != '\"' && c != '\\' {
      assert (e + s)[1..] == s;
    } else if d :| e == ['\\', d] && d != 'u' && Unescape(d) == Some(c) {
      PairEscapeParses(d, s);
    } else {
      UnicodeEscapeParses(c as int, s);
    }
  }

  lemma {:induction false} EscapedTextParses(text: string, rest: string)
    ensures ParseText(EscapeText(text) + "\"" + rest) == Some((text, rest))
  {
    var tail := "\"" + rest;
    if text == "" {
      assert EscapeText(text) + "\"" + rest == tail;
      assert tail[1..] == rest;
    } else {
      var s := EscapeText(text[1..]) + "\"" + rest;
      EscapedTextParses(text[1..], rest);
      EscapeCharParses(text[0], s);
      assert EscapeText(text) + "\"" + rest == EscapeChar(text[0]) + s;
      assert [text[0]] + text[1..] == text;
    }
  }

  lemma QuotedParses(text: string, rest: string)
    ensures (Quoted(text) + rest)[0] == '\"'
    ensures ParseText((Quoted(text) + rest)[1..]) == Some((text, rest))
  {
    EscapedTextParses(text, rest);
    assert (Quoted(text) + rest)[1..] == EscapeText(text) + "\"" + rest;
  }

  // ------------------------------------------------------------------- values

  lemma CanonicalTextStart(v: Json)
    ensures CanonicalText(v) != ""
    ensures CanonicalText(v)[0] !in "]},:"
  {
    match v {
      case Num(n) =>
        NatTextIsDigits(if n < 0 then -n else n);
        assert IsDigit(CanonicalText(v)[0]) || CanonicalText(v)[0] == '-';
      case Bool(b) =>
      case _ =>
    }
  }

  lemma WordParses(v: Json, rest: string)
    requires v.Null? || v.Bool?
    ensures ParseValue(CanonicalText(v) + rest) == Some((v, rest))
  {
    var word := CanonicalText(v);
    var s := word + rest;
    assert s[..|word|] == word && s[|word|..] == rest;
    assert word <= s;
    assert s[0] == word[0];
  }

  lemma EmptyBracketsParse(rest: string)
    ensures ParseValue("[]" + rest) == Some((Arr([]), rest))
    ensures ParseValue("{}" + rest) == Some((Obj([]), rest))
  {
    assert ("[]" + rest)[2..] == rest && ("{}" + rest)[2..] == rest;
  }

  lemma BracketsOpen(t: string)
    requires t != "" && t[0] != ']' && ParseItems(t).Some?
    ensures ParseValue("[" + t) == Some((Arr(ParseItems(t).value.0), ParseItems(t).value.1))
  {
    assert ("[" + t)[1..] == t;
  }

  lemma BracesOpen(t: string)
    requires t != "" && t[0] != '}' && ParseMembers(t).Some?
    ensures ParseValue("{" + t) == Some((Obj(ParseMembers(t).value.0), ParseMembers(t).value.1))
  {
    assert ("{" + t)[1..] == t;
  }

  // Reading back a canonical text, with anything but a digit after it, gives the
  // value in key order and leaves exactly what followed.
  lemma {:induction false} CanonicalTextReadsBack(v: Json, rest: string)
    requires !DigitAhead(rest)
    ensures ParseValue(CanonicalText(v) + rest) == Some((Normalize(v), rest))
    decreases v, 1, 0
  {
    match v {
      case Null => WordParses(v, rest);
      case Bool(_) => WordParses(v, rest);
      case Num(n) => IntTextParses(n, rest);
      case Str(text) => QuotedParses(text, rest);
      case Arr(items) =>
        if items == [] {
          EmptyBracketsParse(rest);
        } else {
          ItemsParse(items, rest);
          CanonicalTextStart(items[0]);
          Concat4("[", PrintItems(items), "]", rest);
          BracketsOpen(PrintItems(items) + "]" + rest);
        }
      case Obj(fields) =>
        var sorted := SortFields(fields);
        if fields == [] {
          assert sorted == [];
          EmptyBracketsParse(rest);
        } else {
          MembersParse(v, sorted, rest);
          assert PrintMember(v, sorted[0])[0] == '\"';
          Concat4("{", PrintMembers(v, sorted), "}", rest);
          BracesOpen(PrintMembers(v, sorted) + "}" + rest);
        }
    }
  }

  // One item and what follows it: what the item parser makes of the text.
  lemma ItemOpen(s: string, v: Json, tail: string)
    requires ParseValue(s) == Some((v, tail)) && tail != ""
    ensures tail[0] == ']' ==> ParseItems(s) == Some(([v], tail[1..]))
    ensures tail[0] == ',' && ParseItems(tail[1..]).Some? ==>
              ParseItems(s) == Some(([v] + ParseItems(tail[1..]).value.0, ParseItems(tail[1..]).value.1))
  {
  }

  // One member and what follows it: what the member parser makes of the text.
  lemma MemberOpen(s: string, key: string, colon: string, v: Json, tail: string)
    requires s != "" && s[0] == '\"' && ParseText(s[1..]) == Some((key, colon))
    requires colon != "" && colon[0] == ':' && ParseValue(colon[1..]) == Some((v, tail)) && tail != ""
    ensures tail[0] == '}' ==> ParseMembers(s) == Some(([Field(key, v)], tail[1..]))
    ensures tail[0] == ',' && ParseMembers(tail[1..]).Some? ==>
              ParseMembers(s) == Some(([Field(key, v)] + ParseMembers(tail[1..]).value.0,
                                       ParseMembers(tail[1..]).value.1))
  {
  }

  lemma HeadAndTail(c: string, rest: string)
    requires |c| == 1
    ensures (c + rest)[0] == c[0] && (c + rest)[1..] == rest
  {
  }

  lemma Concat3(a: string, b: string, c: string)
    ensures a + b + c == a + (b + c)
  {
  }

  lemma Concat4(a: string, b: string, c: string, d: string)
    ensures a + b + c + d == a + (b + (c + d))
    ensures a + b + c + d == a + (b + c + d)
  {
  }

  lemma CommaShift(first: string, others: string, close: string, rest: string)
    ensures first + "," + others + close + rest == first + ("," + (others + close + rest))
  {
  }

  lemma {:induction false} ItemsParse(xs: seq<Json>, rest: string)
    requires xs != []
    ensures ParseItems(PrintItems(xs) + "]" + rest) == Some((NormalizeItems(xs), rest))
    decreases xs, 0, 0
  {
    var text := CanonicalText(xs[0]);
    if |xs| == 1 {
      var tail := "]" + rest;
      HeadAndTail("]", rest);
      CanonicalTextReadsBack(xs[0], tail);
      Concat3(text, "]", rest);
      ItemOpen(text + tail, Normalize(xs[0]), tail);
      assert NormalizeItems(xs) == [Normalize(xs[0])];
    } else {
      var others := PrintItems(xs[1..]);
      var more := others + "]" + rest;
      var tail := "," + more;
      HeadAndTail(",", more);
      CanonicalTextReadsBack(xs[0], tail);
      ItemsParse(xs[1..], rest);
      ItemOpen(text + tail, Normalize(xs[0]), tail);
      CommaShift(text, others, "]", rest);
    }
  }

  // A printed member, read up to the separator after it.
  lemma MemberParses(v: Json, f: Field, tail: string)
    requires v.Obj? && f in v.fields && tail != ""
    requires ParseValue(CanonicalText(f.value) + tail) == Some((Normalize(f.value), tail))
    ensures var s := PrintMember(v, f) + tail;
      && (tail[0] == '}' ==> ParseMembers(s) == Some(([NormalizeMember(v, f)], tail[1..])))
      && (tail[0] == ',' && ParseMembers(tail[1..]).Some? ==>
            ParseMembers(s) == Some(([NormalizeMember(v, f)] + ParseMembers(tail[1..]).value.0,
                                     ParseMembers(tail[1..]).value.1)))
  {
    var text := CanonicalText(f.value);
    var colon := ":" + (text + tail);
    HeadAndTail(":", text + tail);
    QuotedParses(f.key, colon);
    Concat4(Quoted(f.key), ":", text, tail);
    MemberOpen(Quoted(f.key) + colon, f.key, colon, Normalize(f.value), tail);
  }

  lemma {:induction false} MembersParse(v: Json, fs: seq<Field>, rest: string)
    requires v.Obj? && fs != [] && forall f :: f in fs ==> f in v.fields
    ensures ParseMembers(PrintMembers(v, fs) + "}" + rest) == Some((NormalizeMembers(v, fs), rest))
    decreases v, 0, |fs|
  {
    var f := fs[0];
    assert f in v.fields;
    var text := PrintMember(v, f);
    if |fs| == 1 {
      var tail := "}" + rest;
      HeadAndTail("}", rest);
      CanonicalTextReadsBack(f.value, tail);
      MemberParses(v, f, tail);
      Concat3(text, "}", rest);
      assert NormalizeMembers(v, fs) == [NormalizeMember(v, f)];
    } else {
      var others := PrintMembers(v, fs[1..]);
      var more := others + "}" + rest;
      var tail := "," + more;
      HeadAndTail(",", more);
      CanonicalTextReadsBack(f.value, tail);
      MembersParse(v, fs[1..], rest);
      MemberParses(v, f, tail);
      CommaShift(text, others, "}", rest);
    }
  }

  lemma CanonicalTextParses(v: Json)
    ensures Parse(CanonicalText(v)) == Some(Normalize(v))
  {
    CanonicalTextReadsBack(v, "");
    assert CanonicalText(v) + "" == CanonicalText(v);
  }

  // ------------------------------------------------------- objects are maps

  lemma LookupOfMember(fs: seq<Field>, f: Field)
    requires DistinctKeys(fs) && f in fs
    ensures Lookup(fs, f.key) == Some(f.value)
  {
    var i :| 0 <= i < |fs| && fs[i] == f;
    assert HasKey(fs, f.key);
    var j :| 0 <= j < |fs| && fs[j] == Field(f.key, Lookup(fs, f.key).value);
    assert i == j;
  }

  function Keys(fs: seq<Field>): (r: seq<string>)
    ensures |r| == |fs| && forall i :: 0 <= i < |fs| ==> r[i] == fs[i].key
  {
    seq(|fs|, i requires 0 <= i < |fs| => fs[i].key)
  }

  lemma SortedKeysDistinct(fs: seq<Field>)
    requires DistinctKeys(fs)
    ensures Distinct(Keys(SortFields(fs))) && SortedBy(Keys(SortFields(fs)), TextLe)
  {
    var s := SortFields(fs);
    KeyLeIsPreorder();
    SortSorts(fs, KeyLe);
    SortKeepsElements(fs, KeyLe);
    DistinctRearranged(fs, s);
    forall i, j | 0 <= i < j < |s| ensures s[i].key != s[j].key {
      assert s[i] in fs && s[j] in fs;
      var m :| 0 <= m < |fs| && fs[m] == s[i];
      var n :| 0 <= n < |fs| && fs[n] == s[j];
      assert m != n;
    }
    forall i, j | 0 <= i < j < |s| ensures TextLe(Keys(s)[i], Keys(s)[j]) {
      assert KeyLe(s[i], s[j]);
    }
  }

  lemma SortedKeysAgree(fs: seq<Field>, gs: seq<Field>)
    requires DistinctKeys(fs) && DistinctKeys(gs) && |fs| == |gs|
    requires forall f :: f in fs ==> Lookup(gs, f.key).Some?
    ensures Keys(SortFields(fs)) == Keys(SortFields(gs))
  {
    var s, t := SortFields(fs), SortFields(gs);
    SortedKeysDistinct(fs);
    SortedKeysDistinct(gs);
    forall k | k in Keys(s) ensures k in Keys(t) {
      var i :| 0 <= i < |s| && Keys(s)[i] == k;
      assert s[i] in fs;
      var j :| 0 <= j < |t| && t[j] == Field(k, Lookup(gs, k).value);
      assert Keys(t)[j] == k;
    }
    DistinctSameLengthCovers(Keys(s), Keys(t));
    forall x, y | TextLe(x, y) && TextLe(y, x) ensures x == y { TextLeAntisymmetric(x, y); }
    SortedArrangementUnique(Keys(s), Keys(t), TextLe);
  }

  // Objects with the same keys list them in the same order once sorted.
  lemma SortedMembersAgree(fs: seq<Field>, gs: seq<Field>)
    requires DistinctKeys(fs) && DistinctKeys(gs) && |fs| == |gs|
    requires forall f :: f in fs ==> Lookup(gs, f.key).Some?
    ensures forall i :: 0 <= i < |fs| ==>
              SortFields(gs)[i] == Field(SortFields(fs)[i].key, Lookup(gs, SortFields(fs)[i].key).value)
  {
    var s, t := SortFields(fs), SortFields(gs);
    SortedKeysAgree(fs, gs);
    forall i | 0 <= i < |fs| ensures t[i] == Field(s[i].key, Lookup(gs, s[i].key).value) {
      assert Keys(s)[i] == Keys(t)[i];
      assert t[i] in gs;
      LookupOfMember(gs, t[i]);
    }
  }

  // Values that agree as maps print the same text.
  lemma {:induction false} SameValueSameText(v: Json, w: Json)
    requires WellFormed(v) && WellFormed(w) && SameValue(v, w)
    ensures CanonicalText(v) == CanonicalText(w)
    decreases v, 1, 0
  {
    match v {
      case Arr(xs) =>
        forall i | 0 <= i < |xs| ensures CanonicalText(xs[i]) == CanonicalText(w.items[i]) {
          assert xs[i] in xs && w.items[i] in w.items;
          SameValueSameText(xs[i], w.items[i]);
        }
        SameItemsSameText(xs, w.items);
      case Obj(fs) =>
        SortedMembersAgree(fs, w.fields);
        var s, t := SortFields(fs), SortFields(w.fields);
        forall i | 0 <= i < |s| ensures PrintMember(v, s[i]) == PrintMember(w, t[i]) {
          assert s[i] in fs && t[i] in w.fields;
          SameValueSameText(s[i].value, t[i].value);
        }
        SameMembersSameText(v, w, s, t);
      case _ =>
    }
  }

  lemma {:induction false} SameItemsSameText(xs: seq<Json>, ys: seq<Json>)
    requires |xs| == |ys| && forall i :: 0 <= i < |xs| ==> CanonicalText(xs[i]) == CanonicalText(ys[i])
    ensures PrintItems(xs) == PrintItems(ys)
  {
    if |xs| > 1 {
      SameItemsSameText(xs[1..], ys[1..]);
    }
  }

  lemma {:induction false} SameMembersSameText(v: Json, w: Json, fs: seq<Field>, gs: seq<Field>)
    requires v.Obj? && (forall f :: f in fs ==> f in v.fields)
    requires w.Obj? && (forall g :: g in gs ==> g in w.fields)
    requires |fs| == |gs| && forall i :: 0 <= i < |fs| ==> PrintMember(v, fs[i]) == PrintMember(w, gs[i])
    ensures PrintMembers(v, fs) == PrintMembers(w, gs)
  {
    if |fs| > 1 {
      SameMembersSameText(v, w, fs[1..], gs[1..]);
    }
  }

  // A value equals its key-ordered form, read as maps.
  lemma {:induction false} NormalizedDecidesValue(v: Json, w: Json)
    requires WellFormed(v) && WellFormed(w) && Normalize(v) == Normalize(w)
    ensures SameValue(v, w)
    decreases v
  {
    match v {
      case Arr(xs) =>
        forall i | 0 <= i < |xs| ensures SameValue(xs[i], w.items[i]) {
          assert xs[i] in xs && w.items[i] in w.items;
          assert NormalizeItems(xs)[i] == NormalizeItems(w.items)[i];
          NormalizedDecidesValue(xs[i], w.items[i]);
        }
      case Obj(fs) =>
        var s, t := SortFields(fs), SortFields(w.fields);
        var ns, nt := NormalizeMembers(v, s), NormalizeMembers(w, t);
        assert |fs| == |ns| == |nt| == |w.fields|;
        forall f | f in fs
          ensures Lookup(w.fields, f.key).Some? && SameValue(f.value, Lookup(w.fields, f.key).value)
        {
          var i :| 0 <= i < |s| && s[i] == f;
          assert ns[i] == nt[i];
          assert ns[i] == NormalizeMember(v, s[i]) && nt[i] == NormalizeMember(w, t[i]);
          assert t[i] in w.fields;
          LookupOfMember(w.fields, t[i]);
          NormalizedDecidesValue(f.value, t[i].value);
        }
      case _ =>
    }
  }

  // Canonical text is uniquely decodable: two values print the same text exactly when
  // they are the same value with objects read as maps.
  lemma CanonicalTextDecidesValue(v: Json, w: Json)
    requires WellFormed(v) && WellFormed(w)
    ensures CanonicalText(v) == CanonicalText(w) <==> SameValue(v, w)
  {
    if SameValue(v, w) {
      SameValueSameText(v, w);
    }
    if CanonicalText(v) == CanonicalText(w) {
      CanonicalTextParses(v);
      CanonicalTextParses(w);
      NormalizedDecidesValue(v, w);
    }
  }

  // Parsing a canonical text gives back the value, and printing that reproduces the text.
  lemma CanonicalRoundTrip(v: Json)
    requires WellFormed(v)
    ensures Parse(CanonicalText(v)).Some?
    ensures var u := Parse(CanonicalText(v)).value;
      WellFormed(u) && SameValue(v, u) && CanonicalText(u) == CanonicalText(v)
  {
    CanonicalTextParses(v);
    NormalizeKeepsValue(v);
    SameValueSameText(v, Normalize(v));
  }

  lemma {:induction false} NormalizeKeepsValue(v: Json)
    requires WellFormed(v)
    ensures WellFormed(Normalize(v)) && SameValue(v, Normalize(v))
    decreases v
  {
    match v {
      case Arr(xs) =>
        forall i | 0 <= i < |xs|
          ensures WellFormed(Normalize(xs[i])) && SameValue(xs[i], Normalize(xs[i]))
        {
          assert xs[i] in xs;
          NormalizeKeepsValue(xs[i]);
        }
      case Obj(fs) =>
        forall f | f in fs
          ensures WellFormed(Normalize(f.value)) && SameValue(f.value, Normalize(f.value))
        {
          NormalizeKeepsValue(f.value);
        }
        NormalizedMembersKeep(v);
      case _ =>
    }
  }

  lemma NormalizedMembersKeep(v: Json)
    requires v.Obj? && DistinctKeys(v.fields)
    requires forall f :: f in v.fields ==>
               WellFormed(Normalize(f.value)) && SameValue(f.value, Normalize(f.value))
    ensures WellFormed(Normalize(v)) && SameValue(v, Normalize(v))
  {
    var s := SortFields(v.fields);
    NormalizedMembersDistinct(v);
    var ns := NormalizeMembers(v, s);
    forall g | g in ns ensures WellFormed(g.value) {
      var i :| 0 <= i < |ns| && ns[i] == g;
      assert g == NormalizeMember(v, s[i]) && s[i] in v.fields;
    }
    forall f | f in v.fields ensures Lookup(ns, f.key) == Some(Normalize(f.value)) {
      var i :| 0 <= i < |s| && s[i] == f;
      assert ns[i] == NormalizeMember(v, f) && ns[i] in ns;
      LookupOfMember(ns, ns[i]);
    }
  }

  lemma NormalizedMembersDistinct(v: Json)
    requires v.Obj? && DistinctKeys(v.fields)
    ensures DistinctKeys(NormalizeMembers(v, SortFields(v.fields)))
  {
    var s := SortFields(v.fields);
    SortedKeysDistinct(v.fields);
    var ns := NormalizeMembers(v, s);
    forall i, j | 0 <= i < j < |ns| ensures ns[i].key != ns[j].key {
      assert ns[i] == NormalizeMember(v, s[i]) && ns[j] == NormalizeMember(v, s[j]);
      assert Keys(s)[i] != Keys(s)[j];
    }
  }
}
