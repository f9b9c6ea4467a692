// Reading a precipitation probability out of a miner's response tree, and weighting the
// answers of several miners.
module MinerSearch {
  import opened Prelude
  import opened CanonicalJson
  import opened CanonicalJsonLaws
  import opened Canary

  const PRECEDENCE: seq<string> := [
    "precipitation_probability", "probability_of_precipitation", "rain_probability", "probability_of_rain", "pop",
    "chance_of_rain", "rain_chance", "precipitation_chance", "precipitation_probability_percent",
    "rain_probability_percent"]

  const CONTEXT_PRECEDENCE: seq<string> := ["probability", "prob", "chance"]

  const TIME_PRECEDENCE: seq<string> := ["time", "times", "timestamp", "timestamps", "valid_time", "valid_times"]

  predicate IsContextKey(key: string) { key in {"precipitation", "precip", "rain", "rainfall"} }

  predicate IsPercentKey(key: string) {
    key in {"chance_of_rain", "rain_chance", "precipitation_chance", "precipitation_probability_percent",
            "rain_probability_percent"}
  }

  // Conversions of the host language, applied to text and numbers alone: the normal form
  // of a key, the number and the instant a leaf stands for.
  datatype Reader = Reader(normal: string -> string, number: Json -> Option<real>, instant: Json -> Option<int>)

  // ------------------------------------------------------------------- object members

  // By normal form, then by the key itself.
  predicate KeyBefore(normal: string -> string, a: string, b: string) {
    (normal(a) == normal(b) && TextLe(a, b)) || (normal(a) != normal(b) && TextLe(normal(a), normal(b)))
  }

  function MemberOrder(normal: string -> string): (Field, Field) -> bool {
    (f: Field, g: Field) => KeyBefore(normal, f.key, g.key)
  }

  function KeyOrder(normal: string -> string): (string, string) -> bool {
    (a: string, b: string) => KeyBefore(normal, a, b)
  }

  function SortedMembers(r: Reader, fs: seq<Field>): (s: seq<Field>)
    ensures |s| == |fs| && forall f :: f in s <==> f in fs
  {
    SortKeepsElements(fs, MemberOrder(r.normal));
    Sort(fs, MemberOrder(r.normal))
  }

  // `items.setdefault` over the sorted members: the first of a normal form wins.
  function FirstNormal(r: Reader, fs: seq<Field>, key: string): (v: Option<Json>)
    ensures v.Some? ==> exists i :: 0 <= i < |fs| && fs[i].value == v.value && r.normal(fs[i].key) == key
  {
    if fs == [] then None
    else if r.normal(fs[0].key) == key then Some(fs[0].value)
    else
      var v := FirstNormal(r, fs[1..], key);
      assert v.Some? ==> exists i :: 0 < i < |fs| && fs[i].value == v.value && r.normal(fs[i].key) == key by {
        if v.Some? {
          var i :| 0 <= i < |fs[1..]| && fs[1..][i].value == v.value && r.normal(fs[1..][i].key) == key;
          assert fs[i + 1] == fs[1..][i];
        }
      }
      v
  }

  function NormalizedGet(r: Reader, v: Json, key: string): Option<Json>
    requires v.Obj?
  {
    FirstNormal(r, SortedMembers(r, v.fields), key)
  }

  // ------------------------------------------------------------------------ the leaves

  function NumberOf(r: Reader, v: Json): Option<real> { if v.Num? || v.Str? then r.number(v) else None }

  function InstantOf(r: Reader, v: Json): Option<int> { if v.Num? || v.Str? then r.instant(v) else None }

  // One recognised field, without guessing its units.
  function ProbabilityFromValue(r: Reader, v: Json, key: string): (p: Option<real>)
    ensures p.Some? ==> 0.0 <= p.value <= 1.0
  {
    match NumberOf(r, v)
    case None => None
    case Some(x) =>
      if IsPercentKey(key) then (if 0.0 <= x <= 100.0 then Some(x / 100.0) else None)
      else if key in PRECEDENCE then
        if 0.0 <= x <= 1.0 then Some(x) else if 1.0 < x <= 100.0 then Some(x / 100.0) else None
      else if 0.0 <= x <= 1.0 then Some(x) else None
  }

  type Axis = Option<seq<Json>>

  // The positions of a time axis that show the target hour.
  function TargetIndices(r: Reader, times: seq<Json>, target: int): seq<nat> {
    if times == [] then []
    else
      var n := |times| - 1;
      TargetIndices(r, times[..n], target) + if InstantOf(r, times[n]) == Some(target) then [n] else []
  }

  lemma {:induction false} TargetIndicesShow(r: Reader, times: seq<Json>, target: int)
    ensures var ns := TargetIndices(r, times, target);
      && (forall n: nat :: n in ns <==> n < |times| && InstantOf(r, times[n]) == Some(target))
      && (forall i, k :: 0 <= i < k < |ns| ==> ns[i] < ns[k])
  {
    hide InstantOf;
    if times != [] {
      var n := |times| - 1;
      var front := TargetIndices(r, times[..n], target);
      TargetIndicesShow(r, times[..n], target);
      assert forall i :: 0 <= i < |front| ==> front[i] in front;
    }
  }

  function ValueForTarget(r: Reader, v: Json, key: string, times: Axis, target: int): (p: Option<real>)
    ensures p.Some? ==> 0.0 <= p.value <= 1.0
  {
    match v
    case Arr(values) =>
      if times.Some? then
        var ns := TargetIndices(r, times.value, target);
        if |values| != |times.value| || |ns| != 1 then None
        else
          TargetIndicesShow(r, times.value, target);
          assert ns[0] in ns;
          ProbabilityFromValue(r, values[ns[0]], key)
      else if |values| == 1 then ProbabilityFromValue(r, values[0], key)
      else None
    case _ =>
      if times.Some? && (|times.value| != 1 || InstantOf(r, times.value[0]) != Some(target)) then None
      else ProbabilityFromValue(r, v, key)
  }

  // The target hour stands at this index of the axis and at no other.
  ghost predicate OnlyTarget(r: Reader, times: seq<Json>, target: int, i: int) {
    && 0 <= i < |times| && InstantOf(r, times[i]) == Some(target)
    && (forall k :: 0 <= k < |times| && InstantOf(r, times[k]) == Some(target) ==> k == i)
  }

  lemma TargetDecides(r: Reader, times: seq<Json>, target: int)
    ensures var ns := TargetIndices(r, times, target);
      && (|ns| == 1 ==> OnlyTarget(r, times, target, ns[0]))
      && (forall i :: OnlyTarget(r, times, target, i) ==> ns == [i])
  {
    hide InstantOf;
    var ns := TargetIndices(r, times, target);
    TargetIndicesShow(r, times, target);
    assert forall n :: 0 <= n < |ns| ==> ns[n] in ns;
    assert |ns| > 1 ==> ns[0] < ns[1];
    forall i | OnlyTarget(r, times, target, i) ensures ns == [i] {
      assert i in ns;
    }
  }

  // What a reading means: the value at the one index of the target hour, when a time
  // axis is in scope, and a lone value otherwise.
  ghost predicate Aligned(r: Reader, v: Json, key: string, times: Axis, target: int, p: real) {
    if times.Some? then
      exists i :: && OnlyTarget(r, times.value, target, i)
                  && (if v.Arr? then |v.items| == |times.value| && ProbabilityFromValue(r, v.items[i], key) == Some(p)
                      else |times.value| == 1 && ProbabilityFromValue(r, v, key) == Some(p))
    else if v.Arr? then |v.items| == 1 && ProbabilityFromValue(r, v.items[0], key) == Some(p)
    else ProbabilityFromValue(r, v, key) == Some(p)
  }

  lemma AlignedArray(r: Reader, values: seq<Json>, key: string, times: seq<Json>, target: int, p: real)
    ensures ValueForTarget(r, Arr(values), key, Some(times), target) == Some(p)
            <==> Aligned(r, Arr(values), key, Some(times), target, p)
  {
    hide ProbabilityFromValue, TargetIndices;
    TargetDecides(r, times, target);
    hide OnlyTarget;
    TargetIndicesShow(r, times, target);
    var ns := TargetIndices(r, times, target);
    if |ns| == 1 && |values| == |times| {
      assert ns[0] in ns;
      assert OnlyTarget(r, times, target, ns[0]);
    }
  }

  lemma ReadingIsAligned(r: Reader, v: Json, key: string, times: Axis, target: int, p: real)
    ensures ValueForTarget(r, v, key, times, target) == Some(p) <==> Aligned(r, v, key, times, target, p)
  {
    hide ProbabilityFromValue, TargetIndices;
    if times.Some? {
      TargetDecides(r, times.value, target);
      if v.Arr? {
        AlignedArray(r, v.items, key, times.value, target, p);
      } else if |times.value| == 1 && InstantOf(r, times.value[0]) == Some(target) {
        assert OnlyTarget(r, times.value, target, 0);
      }
    }
  }

  // ------------------------------------------------------------------------ the search

  // The first time field present, as a list; an empty list leaves the inherited axis.
  function LocalTimes(r: Reader, v: Json, keys: seq<string>): Axis
    requires v.Obj?
  {
    if keys == [] then None
    else match NormalizedGet(r, v, keys[0]) {
      case None => LocalTimes(r, v, keys[1..])
      case Some(Arr(items)) => Some(items)
      case Some(value) => Some([value])
    }
  }

  function TimesInScope(r: Reader, v: Json, inherited: Axis): Axis
    requires v.Obj?
  {
    var own := LocalTimes(r, v, TIME_PRECEDENCE);
    if own.Some? && own.value != [] then own else inherited
  }

  // The first key of a list whose field reads as a probability.
  function ReadKeys(r: Reader, v: Json, keys: seq<string>, times: Axis, target: int): (p: Option<real>)
    requires v.Obj?
    ensures p.Some? ==> 0.0 <= p.value <= 1.0
  {
    if keys == [] then None
    else
      var field := NormalizedGet(r, v, keys[0]);
      var p := if field.Some? then ValueForTarget(r, field.value, keys[0], times, target) else None;
      if p.Some? then p else ReadKeys(r, v, keys[1..], times, target)
  }

  function ReadHere(r: Reader, v: Json, times: Axis, context: bool, target: int): (p: Option<real>)
    requires v.Obj?
    ensures p.Some? ==> 0.0 <= p.value <= 1.0
  {
    var p := ReadKeys(r, v, PRECEDENCE, times, target);
    if p.Some? then p
    else if context then ReadKeys(r, v, CONTEXT_PRECEDENCE, times, target)
    else None
  }

  function Find(r: Reader, v: Json, target: int, inherited: Axis, context: bool): (p: Option<real>)
    ensures p.Some? ==> 0.0 <= p.value <= 1.0
    decreases v, 1, 0
  {
    match v
    case Obj(fields) =>
      var times := TimesInScope(r, v, inherited);
      var p := ReadHere(r, v, times, context, target);
      if p.Some? then p else FindMembers(r, v, SortedMembers(r, fields), target, times, context)
    case Arr(items) => FindItems(r, items, target, inherited, context)
    case _ => None
  }

  function FindMembers(r: Reader, v: Json, fs: seq<Field>, target: int, times: Axis, context: bool): (p: Option<real>)
    requires v.Obj? && forall f :: f in fs ==> f in v.fields
    ensures p.Some? ==> 0.0 <= p.value <= 1.0
    decreases v, 0, |fs|
  {
    if fs == [] then None
    else
      assert fs[0] in v.fields;
      var p := Find(r, fs[0].value, target, times, context || IsContextKey(r.normal(fs[0].key)));
      if p.Some? then p else FindMembers(r, v, fs[1..], target, times, context)
  }

  function FindItems(r: Reader, items: seq<Json>, target: int, times: Axis, context: bool): (p: Option<real>)
    ensures p.Some? ==> 0.0 <= p.value <= 1.0
    decreases items, 0, 0
  {
    if items == [] then None
    else
      var p := Find(r, items[0], target, times, context);
      if p.Some? then p else FindItems(r, items[1..], target, times, context)
  }

  // ------------------------------------------------------------- key order is ignored

  lemma KeyOrderIsTotal(normal: string -> string)
    ensures TotalPreorder(KeyOrder(normal)) && TotalPreorder(MemberOrder(normal))
    ensures forall a, b :: KeyBefore(normal, a, b) && KeyBefore(normal, b, a) ==> a == b
  {
    forall a, b ensures KeyBefore(normal, a, b) || KeyBefore(normal, b, a) {
      TextLeTotal(a, b);
      TextLeTotal(normal(a), normal(b));
    }
    forall a, b, c | KeyBefore(normal, a, b) && KeyBefore(normal, b, c) ensures KeyBefore(normal, a, c) {
      KeyBeforeTransitive(normal, a, b, c);
    }
    forall a, b | KeyBefore(normal, a, b) && KeyBefore(normal, b, a) ensures a == b {
      if normal(a) == normal(b) { TextLeAntisymmetric(a, b); } else { TextLeAntisymmetric(normal(a), normal(b)); }
    }
    LiftOrder(normal);
  }

  lemma LiftOrder(normal: string -> string)
    requires forall a, b :: KeyBefore(normal, a, b) || KeyBefore(normal, b, a)
    requires forall a, b, c :: KeyBefore(normal, a, b) && KeyBefore(normal, b, c) ==> KeyBefore(normal, a, c)
    ensures TotalPreorder(KeyOrder(normal)) && TotalPreorder(MemberOrder(normal))
  {
    hide KeyBefore;
    var ko, mo := KeyOrder(normal), MemberOrder(normal);
    assert forall a, b :: ko(a, b) == KeyBefore(normal, a, b);
    assert forall f, g :: mo(f, g) == KeyBefore(normal, f.key, g.key);
  }

  lemma KeyBeforeTransitive(normal: string -> string, a: string, b: string, c: string)
    requires KeyBefore(normal, a, b) && KeyBefore(normal, b, c)
    ensures KeyBefore(normal, a, c)
  {
    if normal(a) == normal(b) == normal(c) {
      TextLeTransitive(a, b, c);
    } else if normal(a) != normal(b) && normal(b) != normal(c) {
      TextLeTransitive(normal(a), normal(b), normal(c));
      if normal(a) == normal(c) { TextLeAntisymmetric(normal(a), normal(b)); }
    }
  }

  lemma MembersDistinct(r: Reader, fs: seq<Field>)
    requires DistinctKeys(fs)
    ensures Distinct(Keys(SortedMembers(r, fs))) && SortedBy(Keys(SortedMembers(r, fs)), KeyOrder(r.normal))
  {
    var s := SortedMembers(r, fs);
    var order := MemberOrder(r.normal);
    KeyOrderIsTotal(r.normal);
    SortSorts(fs, order);
    SortKeepsElements(fs, order);
    DistinctRearranged(fs, s);
    forall i, j | 0 <= i < j < |s| ensures s[i].key != s[j].key {
      assert s[i] in fs && s[j] in fs;
      var m :| 0 <= m < |fs| && fs[m] == s[i];
      var n :| 0 <= n < |fs| && fs[n] == s[j];
      assert m != n;
    }
    forall i, j | 0 <= i < j < |s| ensures KeyOrder(r.normal)(Keys(s)[i], Keys(s)[j]) {
      assert order(s[i], s[j]);
    }
  }

  // Objects that agree as maps list matching members in the same places once sorted.
  lemma MembersAgree(r: Reader, fs: seq<Field>, gs: seq<Field>)
    requires DistinctKeys(fs) && DistinctKeys(gs) && |fs| == |gs|
    requires forall f :: f in fs ==> Lookup(gs, f.key).Some?
    ensures var s, t := SortedMembers(r, fs), SortedMembers(r, gs);
      forall i :: 0 <= i < |fs| ==> t[i] == Field(s[i].key, Lookup(gs, s[i].key).value)
  {
    hide KeyBefore;
    var s, t := SortedMembers(r, fs), SortedMembers(r, gs);
    MembersDistinct(r, fs);
    MembersDistinct(r, gs);
    KeyOrderIsTotal(r.normal);
    forall k | k in Keys(s) ensures k in Keys(t) {
      var i :| 0 <= i < |s| && Keys(s)[i] == k;
      assert s[i] in fs;
      var j :| 0 <= j < |t| && t[j] == Field(k, Lookup(gs, k).value);
      assert Keys(t)[j] == k;
    }
    DistinctSameLengthCovers(Keys(s), Keys(t));
    SortedArrangementUnique(Keys(s), Keys(t), KeyOrder(r.normal));
    forall i | 0 <= i < |fs| ensures t[i] == Field(s[i].key, Lookup(gs, s[i].key).value) {
      assert Keys(s)[i] == Keys(t)[i];
      assert t[i] in gs;
      LookupOfMember(gs, t[i]);
    }
  }

  // Members under the same keys whose values agree as maps.
  ghost predicate SameMembers(fs: seq<Field>, gs: seq<Field>) {
    |fs| == |gs|
    && forall i :: 0 <= i < |fs| ==>
         fs[i].key == gs[i].key && WellFormed(fs[i].value) && WellFormed(gs[i].value)
         && SameValue(fs[i].value, gs[i].value)
  }

  lemma SortedAlike(r: Reader, v: Json, w: Json)
    requires v.Obj? && WellFormed(v) && WellFormed(w) && SameValue(v, w)
    ensures w.Obj? && SameMembers(SortedMembers(r, v.fields), SortedMembers(r, w.fields))
  {
    MembersAgree(r, v.fields, w.fields);
    var s, t := SortedMembers(r, v.fields), SortedMembers(r, w.fields);
    forall i | 0 <= i < |s|
      ensures s[i].key == t[i].key && WellFormed(s[i].value) && WellFormed(t[i].value)
              && SameValue(s[i].value, t[i].value)
    {
      assert s[i] in v.fields && t[i] in w.fields;
    }
  }

  ghost predicate SameField(a: Option<Json>, b: Option<Json>) {
    (a.Some? <==> b.Some?)
    && (a.Some? ==> WellFormed(a.value) && WellFormed(b.value) && SameValue(a.value, b.value))
  }

  lemma {:induction false} SameFirstNormal(r: Reader, fs: seq<Field>, gs: seq<Field>, key: string)
    requires SameMembers(fs, gs)
    ensures SameField(FirstNormal(r, fs, key), FirstNormal(r, gs, key))
  {
    hide WellFormed, SameValue;
    if fs != [] { SameFirstNormal(r, fs[1..], gs[1..], key); }
  }

  lemma SameGet(r: Reader, v: Json, w: Json, key: string)
    requires v.Obj? && w.Obj? && SameMembers(SortedMembers(r, v.fields), SortedMembers(r, w.fields))
    ensures SameField(NormalizedGet(r, v, key), NormalizedGet(r, w, key))
  {
    hide SameMembers, SameField;
    SameFirstNormal(r, SortedMembers(r, v.fields), SortedMembers(r, w.fields), key);
  }

  // Two axes of the same entries.
  ghost predicate SameAxis(a: Axis, b: Axis) {
    (a.Some? <==> b.Some?) && (a.Some? ==> SameItems(a.value, b.value))
  }

  lemma SameLeaf(r: Reader, v: Json, w: Json, key: string)
    requires SameValue(v, w)
    ensures NumberOf(r, v) == NumberOf(r, w) && InstantOf(r, v) == InstantOf(r, w)
    ensures ProbabilityFromValue(r, v, key) == ProbabilityFromValue(r, w, key)
  {
    hide IsPercentKey;
  }

  lemma {:induction false} SameTargets(r: Reader, a: seq<Json>, b: seq<Json>, target: int)
    requires SameItems(a, b)
    ensures TargetIndices(r, a, target) == TargetIndices(r, b, target)
  {
    hide ProbabilityFromValue;
    if a != [] {
      SameLeaf(r, a[|a| - 1], b[|a| - 1], "");
      SameTargets(r, a[..|a| - 1], b[..|a| - 1], target);
    }
  }

  lemma SameReading(r: Reader, v: Json, w: Json, key: string, s: Axis, t: Axis, target: int)
    requires WellFormed(v) && WellFormed(w) && SameValue(v, w) && SameAxis(s, t)
    ensures ValueForTarget(r, v, key, s, target) == ValueForTarget(r, w, key, t, target)
  {
    if v.Arr? {
      SameArrayReading(r, v.items, w.items, key, s, t, target);
    } else {
      hide ProbabilityFromValue, InstantOf, NumberOf, WellFormed;
      SameLeaf(r, v, w, key);
      if s.Some? && |s.value| == 1 { SameLeaf(r, s.value[0], t.value[0], key); }
    }
  }

  lemma SameArrayReading(r: Reader, xs: seq<Json>, ys: seq<Json>, key: string, s: Axis, t: Axis, target: int)
    requires SameAxis(s, t) && |xs| == |ys| && forall i :: 0 <= i < |xs| ==> SameValue(xs[i], ys[i])
    ensures ValueForTarget(r, Arr(xs), key, s, target) == ValueForTarget(r, Arr(ys), key, t, target)
  {
    hide ProbabilityFromValue, InstantOf, NumberOf, WellFormed, SameValue;
    if s.Some? {
      SameTargets(r, s.value, t.value, target);
      TargetIndicesShow(r, s.value, target);
      var ns := TargetIndices(r, s.value, target);
      if |xs| == |s.value| && |ns| == 1 {
        assert ns[0] in ns;
        SameLeaf(r, xs[ns[0]], ys[ns[0]], key);
      }
    } else if |xs| == 1 {
      SameLeaf(r, xs[0], ys[0], key);
    }
  }

  lemma {:induction false} SameLocalTimes(r: Reader, v: Json, w: Json, keys: seq<string>)
    requires v.Obj? && w.Obj? && SameMembers(SortedMembers(r, v.fields), SortedMembers(r, w.fields))
    ensures SameAxis(LocalTimes(r, v, keys), LocalTimes(r, w, keys))
  {
    hide NormalizedGet, SameMembers, WellFormed;
    if keys != [] {
      SameGet(r, v, w, keys[0]);
      SameLocalTimes(r, v, w, keys[1..]);
      var a, b := NormalizedGet(r, v, keys[0]), NormalizedGet(r, w, keys[0]);
      if a.Some? && a.value.Arr? { SameArrays(a.value, b.value); }
    }
  }

  lemma {:induction false} SameReadKeys(r: Reader, v: Json, w: Json, keys: seq<string>, s: Axis, t: Axis, target: int)
    requires v.Obj? && w.Obj? && SameMembers(SortedMembers(r, v.fields), SortedMembers(r, w.fields)) && SameAxis(s, t)
    ensures ReadKeys(r, v, keys, s, target) == ReadKeys(r, w, keys, t, target)
  {
    hide NormalizedGet, SameMembers, WellFormed, SameValue, ValueForTarget, SameAxis;
    if keys != [] {
      SameGet(r, v, w, keys[0]);
      SameReadKeys(r, v, w, keys[1..], s, t, target);
      var a, b := NormalizedGet(r, v, keys[0]), NormalizedGet(r, w, keys[0]);
      if a.Some? { SameReading(r, a.value, b.value, keys[0], s, t, target); }
    }
  }

  // The search gives the same answer for trees that agree with objects read as maps:
  // the order of keys, anywhere in the tree, does not matter.
  lemma {:induction false} KeyOrderDoesNotMatter(r: Reader, v: Json, w: Json, target: int, s: Axis, t: Axis,
                                                 context: bool)
    requires WellFormed(v) && WellFormed(w) && SameValue(v, w) && SameAxis(s, t)
    ensures Find(r, v, target, s, context) == Find(r, w, target, t, context)
    decreases v, 1, 0
  {
    hide ReadKeys, LocalTimes, SameMembers;
    match v {
      case Obj(fields) =>
        SortedAlike(r, v, w);
        SameLocalTimes(r, v, w, TIME_PRECEDENCE);
        var s2, t2 := TimesInScope(r, v, s), TimesInScope(r, w, t);
        SameReadKeys(r, v, w, PRECEDENCE, s2, t2, target);
        SameReadKeys(r, v, w, CONTEXT_PRECEDENCE, s2, t2, target);
        SameFindMembers(r, v, w, SortedMembers(r, fields), SortedMembers(r, w.fields), target, s2, t2, context);
      case Arr(items) =>
        SameArrays(v, w);
        SameFindItems(r, items, w.items, target, s, t, context);
      case _ =>
    }
  }

  lemma {:induction false} SameFindMembers(r: Reader, v: Json, w: Json, fs: seq<Field>, gs: seq<Field>, target: int,
                                           s: Axis, t: Axis, context: bool)
    requires v.Obj? && w.Obj? && SameMembers(fs, gs) && SameAxis(s, t)
    requires (forall f :: f in fs ==> f in v.fields) && (forall g :: g in gs ==> g in w.fields)
    ensures FindMembers(r, v, fs, target, s, context) == FindMembers(r, w, gs, target, t, context)
    decreases v, 0, |fs|
  {
    hide WellFormed, SameValue, SameAxis, Find;
    if fs != [] {
      assert fs[0] in v.fields;
      KeyOrderDoesNotMatter(r, fs[0].value, gs[0].value, target, s, t, context || IsContextKey(r.normal(fs[0].key)));
      SameFindMembers(r, v, w, fs[1..], gs[1..], target, s, t, context);
    }
  }

  lemma {:induction false} SameFindItems(r: Reader, xs: seq<Json>, ys: seq<Json>, target: int, s: Axis, t: Axis,
                                         context: bool)
    requires SameItems(xs, ys) && SameAxis(s, t)
    ensures FindItems(r, xs, target, s, context) == FindItems(r, ys, target, t, context)
    decreases xs, 0, 0
  {
    hide WellFormed, SameValue, SameAxis, Find;
    if xs != [] {
      KeyOrderDoesNotMatter(r, xs[0], ys[0], target, s, t, context);
      SameFindItems(r, xs[1..], ys[1..], target, s, t, context);
    }
  }

  // ------------------------------------------------------ what is found is aligned

  // Somewhere in the tree a recognised field reads as p, aligned with the axis in scope
  // where it stands.
  ghost predicate AlignedIn(r: Reader, v: Json, target: int, inherited: Axis, context: bool, p: real)
    decreases v
  {
    match v
    case Obj(fields) =>
      var times := TimesInScope(r, v, inherited);
      || (exists key :: && (key in PRECEDENCE || (context && key in CONTEXT_PRECEDENCE))
                        && NormalizedGet(r, v, key).Some?
                        && Aligned(r, NormalizedGet(r, v, key).value, key, times, target, p))
      || (exists f :: f in fields && AlignedIn(r, f.value, target, times, context || IsContextKey(r.normal(f.key)), p))
    case Arr(items) => exists x :: x in items && AlignedIn(r, x, target, inherited, context, p)
    case _ => false
  }

  lemma {:induction false} ReadKeysAligned(r: Reader, v: Json, keys: seq<string>, times: Axis, target: int, p: real)
    requires v.Obj? && ReadKeys(r, v, keys, times, target) == Some(p)
    ensures exists key :: key in keys && NormalizedGet(r, v, key).Some?
                          && Aligned(r, NormalizedGet(r, v, key).value, key, times, target, p)
  {
    hide NormalizedGet, ValueForTarget, Aligned;
    var field := NormalizedGet(r, v, keys[0]);
    if field.Some? && ValueForTarget(r, field.value, keys[0], times, target).Some? {
      ReadingIsAligned(r, field.value, keys[0], times, target, p);
      assert keys[0] in keys;
    } else {
      ReadKeysAligned(r, v, keys[1..], times, target, p);
      var key :| key in keys[1..] && NormalizedGet(r, v, key).Some?
                 && Aligned(r, NormalizedGet(r, v, key).value, key, times, target, p);
      assert key in keys;
    }
  }

  // Any probability found is in range and stands, where it was found, at the unique
  // index of the target hour of the axis in scope.
  lemma {:induction false} FoundIsAligned(r: Reader, v: Json, target: int, inherited: Axis, context: bool, p: real)
    requires Find(r, v, target, inherited, context) == Some(p)
    ensures 0.0 <= p <= 1.0 && AlignedIn(r, v, target, inherited, context, p)
    decreases v, 1, 0
  {
    hide ReadKeys, LocalTimes, Aligned, NormalizedGet;
    match v {
      case Obj(fields) =>
        var times := TimesInScope(r, v, inherited);
        if ReadKeys(r, v, PRECEDENCE, times, target).Some? {
          ReadKeysAligned(r, v, PRECEDENCE, times, target, p);
        } else if context && ReadKeys(r, v, CONTEXT_PRECEDENCE, times, target).Some? {
          ReadKeysAligned(r, v, CONTEXT_PRECEDENCE, times, target, p);
        } else {
          FoundMember(r, v, SortedMembers(r, fields), target, times, context, p);
        }
      case Arr(items) => FoundItem(r, items, target, inherited, context, p);
    }
  }

  lemma {:induction false} FoundMember(r: Reader, v: Json, fs: seq<Field>, target: int, times: Axis, context: bool,
                                       p: real)
    requires v.Obj? && (forall f :: f in fs ==> f in v.fields)
             && FindMembers(r, v, fs, target, times, context) == Some(p)
    ensures exists f :: f in v.fields
                        && AlignedIn(r, f.value, target, times, context || IsContextKey(r.normal(f.key)), p)
    decreases v, 0, |fs|
  {
    hide AlignedIn, Find;
    assert fs[0] in v.fields;
    if Find(r, fs[0].value, target, times, context || IsContextKey(r.normal(fs[0].key))).Some? {
      FoundIsAligned(r, fs[0].value, target, times, context || IsContextKey(r.normal(fs[0].key)), p);
    } else {
      FoundMember(r, v, fs[1..], target, times, context, p);
    }
  }

  lemma {:induction false} FoundItem(r: Reader, items: seq<Json>, target: int, times: Axis, context: bool, p: real)
    requires FindItems(r, items, target, times, context) == Some(p)
    ensures exists x :: x in items && AlignedIn(r, x, target, times, context, p)
    decreases items, 0, 0
  {
    hide AlignedIn, Find;
    if Find(r, items[0], target, times, context).Some? {
      FoundIsAligned(r, items[0], target, times, context, p);
      assert items[0] in items;
    } else {
      FoundItem(r, items[1..], target, times, context, p);
      var x :| x in items[1..] && AlignedIn(r, x, target, times, context, p);
      assert x in items;
    }
  }

  // ------------------------------------------------------- nothing aligned is missed

  lemma {:induction false} ReadKeysMissesNothing(r: Reader, v: Json, keys: seq<string>, times: Axis, target: int,
                                                 key: string, p: real)
    requires v.Obj? && key in keys && NormalizedGet(r, v, key).Some?
    requires Aligned(r, NormalizedGet(r, v, key).value, key, times, target, p)
    ensures ReadKeys(r, v, keys, times, target).Some?
  {
    hide NormalizedGet, ValueForTarget, Aligned;
    if keys[0] == key {
      ReadingIsAligned(r, NormalizedGet(r, v, key).value, key, times, target, p);
    } else {
      assert key in keys[1..];
      ReadKeysMissesNothing(r, v, keys[1..], times, target, key, p);
    }
  }

  // If a recognised field anywhere in the tree reads as a probability, the search finds
  // one.
  lemma {:induction false} SearchMissesNothing(r: Reader, v: Json, target: int, inherited: Axis, context: bool, p: real)
    requires AlignedIn(r, v, target, inherited, context, p)
    ensures Find(r, v, target, inherited, context).Some?
    decreases v, 1, 0
  {
    hide ReadKeys, LocalTimes, Aligned, NormalizedGet;
    match v {
      case Obj(fields) =>
        var times := TimesInScope(r, v, inherited);
        if key :| && (key in PRECEDENCE || (context && key in CONTEXT_PRECEDENCE))
                  && NormalizedGet(r, v, key).Some?
                  && Aligned(r, NormalizedGet(r, v, key).value, key, times, target, p) {
          if key in PRECEDENCE {
            ReadKeysMissesNothing(r, v, PRECEDENCE, times, target, key, p);
          } else {
            ReadKeysMissesNothing(r, v, CONTEXT_PRECEDENCE, times, target, key, p);
          }
        } else {
          var f :| f in fields && AlignedIn(r, f.value, target, times, context || IsContextKey(r.normal(f.key)), p);
          MembersMissNothing(r, v, SortedMembers(r, fields), f, target, times, context, p);
        }
      case Arr(items) =>
        var x :| x in items && AlignedIn(r, x, target, inherited, context, p);
        ItemsMissNothing(r, items, x, target, inherited, context, p);
    }
  }

  lemma {:induction false} MembersMissNothing(r: Reader, v: Json, fs: seq<Field>, f: Field, target: int, times: Axis,
                                              context: bool, p: real)
    requires v.Obj? && f in fs && forall g :: g in fs ==> g in v.fields
    requires AlignedIn(r, f.value, target, times, context || IsContextKey(r.normal(f.key)), p)
    ensures FindMembers(r, v, fs, target, times, context).Some?
    decreases v, 0, |fs|
  {
    hide AlignedIn, Find;
    assert fs[0] in v.fields;
    if fs[0] == f {
      SearchMissesNothing(r, f.value, target, times, context || IsContextKey(r.normal(f.key)), p);
    } else {
      assert f in fs[1..];
      MembersMissNothing(r, v, fs[1..], f, target, times, context, p);
    }
  }

  lemma {:induction false} ItemsMissNothing(r: Reader, items: seq<Json>, x: Json, target: int, times: Axis,
                                            context: bool, p: real)
    requires x in items && AlignedIn(r, x, target, times, context, p)
    ensures FindItems(r, items, target, times, context).Some?
    decreases items, 0, 0
  {
    hide AlignedIn, Find;
    if items[0] == x {
      SearchMissesNothing(r, x, target, times, context, p);
    } else {
      assert x in items[1..];
      ItemsMissNothing(r, items[1..], x, target, times, context, p);
    }
  }
}
