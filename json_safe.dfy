/** backend/utils/json_safe.py: turning a result into something `json.dumps`
    accepts.  Dates become ISO text (a naive datetime is taken as UTC),
    NaN and the infinities become None, tuples and sets become lists and
    dict keys become their `str`. */
module JsonSafe {
  import opened Base
  import opened Floats
  import opened PyValue

  /** _to_native on a value that is not a numpy scalar or array. */
  function ToNative(x: Value): (r: Value)
    ensures x.FloatV? ==> r == (if x.f.Finite? then x else NoneV)
    ensures x.DateV? || x.DateTimeV? ==> r.StrV?
    ensures !x.FloatV? && !x.DateV? && !x.DateTimeV? ==> r == x
  {
    match x
    case DateV(d) => StrV(DateIso(d))
    case DateTimeV(d, t, tz) => StrV(DateTimeIso(d, t, if tz.None? then Some(0) else tz, "T"))
    case FloatV(f) => if f.Finite? then x else NoneV
    case _ => x
  }

  /** A naive datetime is written exactly as the same wall time in UTC, with an explicit
      "+00:00" offset. */
  lemma NaiveDateTimeIsUtc(d: Date, t: Time)
    ensures ToNative(DateTimeV(d, t, None)) == ToNative(DateTimeV(d, t, Some(0)))
    ensures var s := ToNative(DateTimeV(d, t, None)).s;
            |s| >= 6 && s[|s| - 6..] == "+00:00"
  {
    assert Pad(0, 2) == "00";
    assert OffsetIso(0) == "+00:00";
  }

  function Keys(e: seq<(Key, Value)>): (ks: seq<Key>)
    ensures |ks| == |e| && forall i :: 0 <= i < |e| ==> ks[i] == e[i].0
  {
    seq(|e|, i requires 0 <= i < |e| => e[i].0)
  }

  /** No key occurs twice: what a Python dict always satisfies. */
  predicate DistinctKeys(e: seq<(Key, Value)>)
  {
    forall i, j :: 0 <= i < j < |e| ==> e[i].0 != e[j].0
  }

  /** `d[k] = v` on a dict: an existing key keeps its position and takes the new value,
      a new key goes to the end. */
  function Assign(e: seq<(Key, Value)>, k: Key, v: Value): (r: seq<(Key, Value)>)
    ensures Keys(r) == if HasKey(e, k) then Keys(e) else Keys(e) + [k]
  {
    if e == [] then
      assert Keys([(k, v)]) == [k];
      [(k, v)]
    else
      assert e == [e[0]] + e[1..];
      KeysConcat([e[0]], e[1..]);
      if e[0].0 == k then
        assert HasKey(e, k);
        KeysConcat([(k, v)], e[1..]);
        [(k, v)] + e[1..]
      else
        var rest := Assign(e[1..], k, v);
        HasKeyTail(e, k);
        KeysConcat([e[0]], rest);
        [e[0]] + rest
  }

  lemma KeysConcat(a: seq<(Key, Value)>, b: seq<(Key, Value)>)
    ensures Keys(a + b) == Keys(a) + Keys(b)
  {
    assert forall i :: 0 <= i < |a + b| ==> (a + b)[i].0 == if i < |a| then a[i].0 else b[i - |a|].0;
  }

  /** Every item after `d[k] = v` is the new item or one that was there before. */
  lemma {:induction false} AssignItems(e: seq<(Key, Value)>, k: Key, v: Value)
    ensures forall x :: x in Assign(e, k, v) ==> x == (k, v) || x in e
  {
    if e != [] && e[0].0 != k {
      AssignItems(e[1..], k, v);
    }
  }

  lemma HasKeyTail(e: seq<(Key, Value)>, k: Key)
    requires e != [] && e[0].0 != k
    ensures HasKey(e, k) <==> HasKey(e[1..], k)
  {
    if HasKey(e, k) {
      var i :| 0 <= i < |e| && e[i].0 == k;
      assert e[1..][i - 1].0 == k;
    }
    if HasKey(e[1..], k) {
      var i :| 0 <= i < |e[1..]| && e[1..][i].0 == k;
      assert e[i + 1].0 == k;
    }
  }

  /** After `d[k] = v`, `d[k]` is `v` and every other key reads as before. */
  lemma {:induction false} AssignLookup(e: seq<(Key, Value)>, k: Key, v: Value, k': Key)
    ensures Lookup(Assign(e, k, v), k') == if k' == k then Some(v) else Lookup(e, k')
  {
    if e != [] && e[0].0 != k {
      AssignLookup(e[1..], k, v, k');
    }
  }

  lemma {:induction false} AssignKeepsDistinct(e: seq<(Key, Value)>, k: Key, v: Value)
    requires DistinctKeys(e)
    ensures DistinctKeys(Assign(e, k, v))
  {
    var r := Assign(e, k, v);
    if !HasKey(e, k) {
      forall i, j | 0 <= i < j < |r| ensures r[i].0 != r[j].0 {
        assert Keys(r)[i] == r[i].0 && Keys(r)[j] == r[j].0;
        if j == |e| {
          assert e[i].0 != k;
        } else {
          assert e[i].0 != e[j].0;
        }
      }
    } else {
      forall i, j | 0 <= i < j < |r| ensures r[i].0 != r[j].0 {
        assert Keys(r)[i] == Keys(e)[i] && Keys(r)[j] == Keys(e)[j];
      }
    }
  }

  /** The dict a comprehension builds from its (key, value) pairs, in order. */
  function FromPairs(pairs: seq<(Key, Value)>): (r: seq<(Key, Value)>)
    ensures DistinctKeys(r)
    ensures |r| <= |pairs|
    ensures forall x :: x in r ==> x in pairs
  {
    if pairs == [] then []
    else
      var n := |pairs| - 1;
      var prefix := FromPairs(pairs[..n]);
      AssignKeepsDistinct(prefix, pairs[n].0, pairs[n].1);
      AssignItems(prefix, pairs[n].0, pairs[n].1);
      var r := Assign(prefix, pairs[n].0, pairs[n].1);
      assert |Keys(r)| <= |Keys(prefix)| + 1;
      assert forall x :: x in pairs[..n] ==> x in pairs;
      r
  }

  /** The value of the last pair with key `k`, an independent statement of what a
      dict comprehension keeps. */
  function LastValue(pairs: seq<(Key, Value)>, k: Key): Option<Value>
  {
    if pairs == [] then None
    else if pairs[|pairs| - 1].0 == k then Some(pairs[|pairs| - 1].1)
    else LastValue(pairs[..|pairs| - 1], k)
  }

  /** For colliding keys the comprehension keeps the last value. */
  lemma {:induction false} FromPairsLastWins(pairs: seq<(Key, Value)>, k: Key)
    ensures Lookup(FromPairs(pairs), k) == LastValue(pairs, k)
  {
    if pairs != [] {
      var n := |pairs| - 1;
      FromPairsLastWins(pairs[..n], k);
      AssignLookup(FromPairs(pairs[..n]), pairs[n].0, pairs[n].1, k);
    }
  }

  /** Pairs whose keys are already distinct come back unchanged. */
  lemma {:induction false} FromPairsDistinct(pairs: seq<(Key, Value)>)
    requires DistinctKeys(pairs)
    ensures FromPairs(pairs) == pairs
  {
    if pairs != [] {
      var n := |pairs| - 1;
      var init := pairs[..n];
      assert forall i :: 0 <= i < n ==> init[i] == pairs[i];
      assert DistinctKeys(init);
      FromPairsDistinct(init);
      assert !HasKey(init, pairs[n].0);
      FromPairsSnoc(pairs);
      AssignFresh(init, pairs[n].0, pairs[n].1);
      FrontLast(pairs);
    }
  }

  /** The comprehension's last step: the last pair assigned into the dict of the others. */
  lemma FromPairsSnoc(pairs: seq<(Key, Value)>)
    requires pairs != []
    ensures var n := |pairs| - 1;
            FromPairs(pairs) == Assign(FromPairs(pairs[..n]), pairs[n].0, pairs[n].1)
  {
  }

  /** Assigning a key the dict does not hold appends it. */
  lemma {:induction false} AssignFresh(e: seq<(Key, Value)>, k: Key, v: Value)
    requires !HasKey(e, k)
    ensures Assign(e, k, v) == e + [(k, v)]
  {
    if e != [] {
      assert e[0].0 != k;
      HasKeyTail(e, k);
      AssignFresh(e[1..], k, v);
      AssignCons(e, k, v);
      assert e == [e[0]] + e[1..];
      assert [e[0]] + (e[1..] + [(k, v)]) == ([e[0]] + e[1..]) + [(k, v)];
    }
  }

  /** An item with another key stays first. */
  lemma AssignCons(e: seq<(Key, Value)>, k: Key, v: Value)
    requires e != [] && e[0].0 != k
    ensures Assign(e, k, v) == [e[0]] + Assign(e[1..], k, v)
  {
  }

  /** What json_sanitize produces: no NaN or infinity, no tuple, set, date or datetime,
      and dicts with distinct string keys, at every depth. */
  predicate IsJsonSafe(v: Value)
  {
    match v
    case FloatV(f) => f.Finite?
    case TupleV(_) => false
    case SetV(_) => false
    case DateV(_) => false
    case DateTimeV(_, _, _) => false
    case ListV(items) => forall i :: 0 <= i < |items| ==> IsJsonSafe(items[i])
    case DictV(e) => DistinctKeys(e) && forall i :: 0 <= i < |e| ==> e[i].0.KStr? && IsJsonSafe(e[i].1)
    case _ => true
  }

  /** The (str(k), sanitised value) pairs of a dict, before they are collected. */
  function SanitizedPairs(d: Value): (p: seq<(Key, Value)>)
    requires d.DictV?
    ensures |p| == |d.entries|
    ensures forall i :: 0 <= i < |p| ==> p[i] == (KStr(KeyStr(d.entries[i].0)), JsonSanitize(d.entries[i].1))
    decreases d, 0
  {
    var e := d.entries;
    seq(|e|, i requires 0 <= i < |e| => (KStr(KeyStr(e[i].0)), JsonSanitize(e[i].1)))
  }

  /** json_sanitize.  Containers are recognised before _to_native runs, which is the same
      thing because _to_native leaves dicts, lists, tuples and sets alone. */
  function JsonSanitize(v: Value): (r: Value)
    ensures IsJsonSafe(r)
    ensures v.DictV? ==> r.DictV? && |r.entries| <= |v.entries|
    ensures v.ListV? || v.TupleV? || v.SetV? ==> r.ListV? && |r.items| == |v.items|
    ensures !v.DictV? && !v.ListV? && !v.TupleV? && !v.SetV? ==> r == ToNative(v)
    decreases v, 1
  {
    match v
    case DictV(e) =>
      var pairs := SanitizedPairs(v);
      var r := FromPairs(pairs);
      assert forall x :: x in pairs ==> x.0.KStr? && IsJsonSafe(x.1);
      DictV(r)
    case ListV(items) => ListV(seq(|items|, i requires 0 <= i < |items| => JsonSanitize(items[i])))
    case TupleV(items) => ListV(seq(|items|, i requires 0 <= i < |items| => JsonSanitize(items[i])))
    case SetV(items) => ListV(seq(|items|, i requires 0 <= i < |items| => JsonSanitize(items[i])))
    case _ => ToNative(v)
  }

  /** A value that is already JSON-safe is left as it is. */
  lemma {:induction false} JsonSafeIsFixed(v: Value)
    requires IsJsonSafe(v)
    ensures JsonSanitize(v) == v
  {
    match v
    case DictV(e) =>
      var pairs := SanitizedPairs(v);
      forall i | 0 <= i < |e| ensures pairs[i] == e[i] {
        JsonSafeIsFixed(e[i].1);
      }
      assert pairs == e;
      FromPairsDistinct(e);
    case ListV(items) =>
      forall i | 0 <= i < |items| ensures JsonSanitize(v).items[i] == items[i] {
        JsonSafeIsFixed(items[i]);
      }
      assert JsonSanitize(v).items == items;
    case _ =>
  }

  /** json_sanitize(json_sanitize(v)) == json_sanitize(v). */
  lemma JsonSanitizeIdempotent(v: Value)
    ensures JsonSanitize(JsonSanitize(v)) == JsonSanitize(v)
  {
    JsonSafeIsFixed(JsonSanitize(v));
  }

  /** The key 1 and the key "1" collide once written as text: the first position is kept
      and the last value wins. */
  lemma JsonSanitizeKeyCollision()
    ensures JsonSanitize(DictV([(KInt(1), IntV(10)), (KStr("1"), IntV(20))]))
         == DictV([(KStr("1"), IntV(20))])
  {
    var e := [(KInt(1), IntV(10)), (KStr("1"), IntV(20))];
    assert KeyStr(KInt(1)) == "1";
    var pairs := SanitizedPairs(DictV(e));
    assert pairs == [(KStr("1"), IntV(10)), (KStr("1"), IntV(20))];
    assert pairs[..1] == [(KStr("1"), IntV(10))];
    assert pairs[..1][..0] == [];
  }

  /** Looking up a text key in the sanitised dict gives the sanitised value of the last
      item whose key prints as that text. */
  lemma JsonSanitizeLookup(e: seq<(Key, Value)>, k: string)
    ensures Lookup(JsonSanitize(DictV(e)).entries, KStr(k)) == LastValue(SanitizedPairs(DictV(e)), KStr(k))
  {
    FromPairsLastWins(SanitizedPairs(DictV(e)), KStr(k));
  }
}
