/** What the front-end pages share: JavaScript numbers and truthiness, `Number(...)` of
    a form string, `String.prototype.trim`, the strike list derived from an option chain,
    and the JSON request body `submitJob` posts, written as the value the backend's
    `request.get_json()` reads. */
module Browser {
  import opened Base
  import opened Floats
  import opened PyValue
  import opened Sanitize
  import opened Jobs

  /** The parts of the JavaScript runtime the model leaves open: `Number(s)` of a
      non-blank string (NaN when it is not numeric) and `String(x)` of a number. */
  datatype Js = Js(parseNumber: string -> Num, show: Num -> string)

  /** A form value of type `number | string`. */
  datatype FormValue = Num(x: Num) | Text(s: string)

  predicate FormTruthy(f: FormValue)
  {
    match f
    case Num(x) => JsTruthy(x)
    case Text(s) => s != ""
  }

  // ---------------------------------------------------------------------------
  // String.prototype.trim
  // ---------------------------------------------------------------------------

  /** ECMAScript WhiteSpace and LineTerminator: the characters `trim` removes. */
  predicate IsJsSpace(c: char)
  {
    ('\U{9}' <= c <= '\U{D}') || c == ' ' || c == '\U{A0}' || c == '\U{1680}'
    || ('\U{2000}' <= c <= '\U{200A}') || c == '\U{2028}' || c == '\U{2029}'
    || c == '\U{202F}' || c == '\U{205F}' || c == '\U{3000}' || c == '\U{FEFF}'
  }

  function TrimStart(s: string): (r: string)
    ensures |r| <= |s| && r == s[|s| - |r|..]
    ensures r != [] ==> !IsJsSpace(r[0])
    ensures forall i :: 0 <= i < |s| - |r| ==> IsJsSpace(s[i])
  {
    if s == [] || !IsJsSpace(s[0]) then s else TrimStart(s[1..])
  }

  function TrimEnd(s: string): (r: string)
    ensures |r| <= |s| && r == s[..|r|]
    ensures r != [] ==> !IsJsSpace(r[|r| - 1])
    ensures forall i :: |r| <= i < |s| ==> IsJsSpace(s[i])
  {
    if s == [] || !IsJsSpace(s[|s| - 1]) then s else TrimEnd(s[..|s| - 1])
  }

  /** `s.trim()`: JavaScript whitespace removed at both ends; nothing is left exactly
      when the text is all whitespace. */
  function JsTrim(s: string): (r: string)
    ensures |r| <= |s|
    ensures r != [] ==> !IsJsSpace(r[0]) && !IsJsSpace(r[|r| - 1])
    ensures r == [] <==> forall k :: 0 <= k < |s| ==> IsJsSpace(s[k])
  {
    var a := TrimStart(s);
    var r := TrimEnd(a);
    assert r == [] ==> forall k :: 0 <= k < |s| ==> IsJsSpace(s[k]) by {
      if r == [] {
        assert a == [];
      }
    }
    assert r != [] ==> exists k :: 0 <= k < |s| && !IsJsSpace(s[k]) by {
      if r != [] {
        assert r[0] == a[0] == s[|s| - |a|];
      }
    }
    r
  }

  /** The pages' ticker clean-up `t.trim().toUpperCase().replace(/^\$/, '')`. */
  function UiTicker(t: string): (r: string)
    ensures r == DropDollar(Upper(JsTrim(t)))
    ensures forall i :: 0 <= i < |r| ==> !IsLowerAscii(r[i])
    ensures |r| <= |t|
  {
    var u := Upper(JsTrim(t));
    var r := DropDollar(u);
    assert forall i :: 0 <= i < |r| ==> r[i] in u;
    r
  }

  /** A ticker the page has cleaned reaches normalize_ticker in the backend unchanged
      apart from the typo table, unless it still has Python whitespace at an end or a
      second "$". */
  lemma {:induction false} BackendKeepsUiTicker(t: string)
    requires Trimmed(UiTicker(t)) && !StartsWith(UiTicker(t), "$")
    ensures NormalizeText(UiTicker(t)) == FixTicker(UiTicker(t))
  {
    var r := UiTicker(t);
    if r != "" {
      StripTrimmedIsIdentity(r);
      UpperIdempotentFor(r);
    }
  }

  /** Upper-casing text that has no lower-case letter leaves it as it is. */
  lemma {:induction false} UpperIdempotentFor(s: string)
    requires forall i :: 0 <= i < |s| ==> !IsLowerAscii(s[i])
    ensures Upper(s) == s
  {
    if s != [] {
      UpperIdempotentFor(s[1..]);
      assert s == [s[0]] + s[1..];
    }
  }

  // ---------------------------------------------------------------------------
  // Numbers
  // ---------------------------------------------------------------------------

  /** `Number(v)` of a `number | string`: a number as it is, a blank string 0, any other
      string what the runtime parses. */
  function ToNumber(f: FormValue, js: Js): (x: Num)
    ensures f.Num? ==> x == f.x
    ensures f.Text? && JsTrim(f.s) == "" ==> x == Finite(0.0)
  {
    match f
    case Num(x) => x
    case Text(s) => if JsTrim(s) == "" then Finite(0.0) else js.parseNumber(JsTrim(s))
  }

  /** `Number(v || d)`: a falsy value (0, NaN, "") is replaced by the default first. */
  function NumberOr(f: FormValue, d: real, js: Js): (x: Num)
    ensures !FormTruthy(f) ==> x == Finite(d)
    ensures FormTruthy(f) ==> x == ToNumber(f, js)
  {
    if FormTruthy(f) then ToNumber(f, js) else Finite(d)
  }

  /** Largest magnitude JSON.stringify writes as plain digits; from 1e21 on it writes an
      exponent, which Python's json reads as a float. */
  const DigitsLimit: real := 1_000_000_000_000_000_000_000.0

  predicate Integral(r: real)
  {
    r == r.Floor as real
  }

  /** How a JavaScript number arrives in the backend after JSON.stringify and Python's
      json: NaN and the infinities as None, integral values below 1e21 as int, anything
      else as float. */
  function JsonNumber(x: Num): (v: Value)
    ensures !x.Finite? <==> v == NoneV
    ensures x.Finite? && Integral(x.r) && -DigitsLimit < x.r < DigitsLimit ==> v == IntV(x.r.Floor)
    ensures v.FloatV? ==> v.f == x
  {
    match x
    case Finite(r) => if Integral(r) && -DigitsLimit < r < DigitsLimit then IntV(r.Floor) else FloatV(x)
    case _ => NoneV
  }

  /** `float()` in the backend gives back every finite number the page sent. */
  lemma JsonNumberFloatRoundTrip(x: Num, b: Builtins)
    requires x.Finite?
    ensures ToFloat(JsonNumber(x), b) == Ok(x)
  {
  }

  /** `int()` in the backend gives back every integer below 1e21 the page sent. */
  lemma JsonNumberIntRoundTrip(n: int, b: Builtins)
    requires -DigitsLimit < n as real < DigitsLimit
    ensures ToInt(JsonNumber(Finite(n as real)), b) == Ok(n)
  {
    assert (n as real).Floor == n;
  }

  // ---------------------------------------------------------------------------
  // Strike list of an option chain
  // ---------------------------------------------------------------------------

  predicate Ascending(s: seq<real>)
  {
    forall i, j :: 0 <= i < j < |s| ==> s[i] < s[j]
  }

  function InsertAscending(x: real, s: seq<real>): (r: seq<real>)
    requires Ascending(s)
    ensures Ascending(r)
    ensures forall y :: y in r <==> y == x || y in s
  {
    if s == [] then [x]
    else if x < s[0] then [x] + s
    else if x == s[0] then s
    else
      var rest := InsertAscending(x, s[1..]);
      assert forall y :: y in s <==> y == s[0] || y in s[1..];
      assert forall k :: 0 <= k < |rest| ==> s[0] < rest[k] by {
        forall k | 0 <= k < |rest| ensures s[0] < rest[k] {
          assert rest[k] in rest;
          if rest[k] != x {
            var j :| 0 <= j < |s[1..]| && s[1..][j] == rest[k];
            assert s[j + 1] == rest[k];
          }
        }
      }
      var r := [s[0]] + rest;
      assert forall k :: 0 < k < |r| ==> r[k] == rest[k - 1];
      r
  }

  /** `Array.from(new Set(xs)).sort((a, b) => a - b)`. */
  function SortedUnique(xs: seq<real>): (r: seq<real>)
    ensures Ascending(r)
    ensures forall y :: y in r <==> y in xs
    ensures |r| <= |xs|
  {
    if xs == [] then []
    else
      var rest := SortedUnique(xs[1..]);
      assert forall y :: y in xs <==> y == xs[0] || y in xs[1..];
      var r := InsertAscending(xs[0], rest);
      assert |r| <= |rest| + 1 by {
        InsertLength(xs[0], rest);
      }
      r
  }

  lemma {:induction false} InsertLength(x: real, s: seq<real>)
    requires Ascending(s)
    ensures |InsertAscending(x, s)| <= |s| + 1
  {
    if s != [] && x > s[0] {
      InsertLength(x, s[1..]);
    }
  }

  /** The strikes offered for a chain: the call strikes then the put strikes, without
      duplicates, in ascending order. */
  function StrikeList(calls: seq<real>, puts: seq<real>): (r: seq<real>)
    ensures Ascending(r)
    ensures forall y :: y in r <==> y in calls || y in puts
  {
    SortedUnique(calls + puts)
  }

  /** An ascending list without duplicates is the only one with its elements: it is the
      strike list whatever order the chain listed them in. */
  lemma {:induction false} AscendingUnique(a: seq<real>, b: seq<real>)
    requires Ascending(a) && Ascending(b)
    requires forall y :: y in a <==> y in b
    ensures a == b
    decreases |a|
  {
    assert a != [] ==> a[0] in a && a[0] in b;
    assert b != [] ==> b[0] in b && b[0] in a;
    if a != [] && b != [] {
      assert a[0] == b[0] by {
        assert a[0] in a && b[0] in b;
        var ka :| 0 <= ka < |b| && b[ka] == a[0];
        var kb :| 0 <= kb < |a| && a[kb] == b[0];
        assert b[0] <= b[ka] && a[0] <= a[kb];
      }
      forall y ensures y in a[1..] <==> y in b[1..] {
        if y in a[1..] {
          var k :| 1 <= k < |a| && a[k] == y;
          assert y in b && y != b[0];
        }
        if y in b[1..] {
          var k :| 1 <= k < |b| && b[k] == y;
          assert y in a && y != a[0];
        }
      }
      AscendingUnique(a[1..], b[1..]);
      assert a == [a[0]] + a[1..] && b == [b[0]] + b[1..];
    }
  }

  /** The same strikes listed differently by the chain give the same list. */
  lemma StrikeListOrderFree(c1: seq<real>, p1: seq<real>, c2: seq<real>, p2: seq<real>)
    requires forall y :: y in c1 || y in p1 <==> y in c2 || y in p2
    ensures StrikeList(c1, p1) == StrikeList(c2, p2)
  {
    AscendingUnique(StrikeList(c1, p1), StrikeList(c2, p2));
  }

  /** `uniq[Math.floor(uniq.length / 2)]`, the default strike. */
  function MiddleStrike(u: seq<real>): (k: real)
    requires |u| > 0
    ensures k in u
  {
    u[|u| / 2]
  }

  /** The default strike is the median of the chain's strikes: exactly the first half of
      the list lies below it and the rest at or above it. */
  lemma MiddleStrikeIsMedian(calls: seq<real>, puts: seq<real>)
    requires |StrikeList(calls, puts)| > 0
    ensures var u := StrikeList(calls, puts);
            forall i :: 0 <= i < |u| ==> (u[i] < MiddleStrike(u) <==> i < |u| / 2)
  {
  }

  // ---------------------------------------------------------------------------
  // The job request
  // ---------------------------------------------------------------------------

  /** The items of the object `submitJob` posts as JSON.  The pages list its keys in
      different orders; the backend reads it by key only. */
  function RequestItems(kind: Value, product: Value, algo: Value, priority: Value, clientId: Value,
                        portfolioId: Value, submitter: Value, params: Value): (items: seq<(string, Value)>)
    ensures |items| == 8
    ensures forall i, j :: 0 <= i < j < |items| ==> items[i].0 != items[j].0
  {
    [("type", kind), ("product", product), ("algo", algo), ("priority", priority),
     ("clientId", clientId), ("portfolioId", portfolioId), ("submitter", submitter),
     ("params", params)]
  }

  function JobRequest(kind: Value, product: Value, algo: Value, priority: Value, clientId: Value,
                      portfolioId: Value, submitter: Value, params: Value): (v: Value)
    ensures v.DictV? && |v.entries| == 8
  {
    Dict(RequestItems(kind, product, algo, priority, clientId, portfolioId, submitter, params))
  }

  /** Each key of the request reads back the value the page put under it. */
  lemma RequestLookup(k: Value, pr: Value, a: Value, p: Value, c: Value, f: Value, s: Value, ps: Value, i: nat)
    requires i < 8
    ensures var items := RequestItems(k, pr, a, p, c, f, s, ps);
            Lookup(JobRequest(k, pr, a, p, c, f, s, ps).entries, KStr(items[i].0)) == Some(items[i].1)
  {
    DictLookup(RequestItems(k, pr, a, p, c, f, s, ps), i);
  }

  /** Every page request is accepted by new_job: the job is queued with the request's
      type, product, algo, portfolio and params. */
  lemma {:induction false} RequestAccepted(k: Value, pr: Value, a: Value, p: Value, c: Value, f: Value, s: Value,
                                           ps: Value, freshId: string, dir: Directory, now: int)
    ensures var d := NewJobDoc(JobRequest(k, pr, a, p, c, f, s, ps), freshId, dir, now);
            d.Ok? && d.value.status == "Queued" && d.value.kind == k && d.value.product == pr
            && d.value.algo == a && d.value.portfolioId == f && d.value.params == ps
  {
    RequestFields(k, pr, a, p, c, f, s, ps);
  }

  /** The keys new_job reads from a page request. */
  lemma RequestFields(k: Value, pr: Value, a: Value, p: Value, c: Value, f: Value, s: Value, ps: Value)
    ensures var e := JobRequest(k, pr, a, p, c, f, s, ps).entries;
            Lookup(e, KStr("type")) == Some(k) && Lookup(e, KStr("product")) == Some(pr)
            && Lookup(e, KStr("algo")) == Some(a) && Lookup(e, KStr("portfolioId")) == Some(f)
            && Lookup(e, KStr("params")) == Some(ps)
  {
    var items := RequestItems(k, pr, a, p, c, f, s, ps);
    RequestLookup(k, pr, a, p, c, f, s, ps, 0);
    assert items[0].0 == "type";
    RequestLookup(k, pr, a, p, c, f, s, ps, 1);
    assert items[1].0 == "product";
    RequestLookup(k, pr, a, p, c, f, s, ps, 2);
    assert items[2].0 == "algo";
    RequestLookup(k, pr, a, p, c, f, s, ps, 5);
    assert items[5].0 == "portfolioId";
    RequestLookup(k, pr, a, p, c, f, s, ps, 7);
    assert items[7].0 == "params";
  }
}
