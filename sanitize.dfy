/** backend/utils/sanitize.py: ticker normalisation and the deep clean-up of
    floats that cannot be written as JSON. */
module Sanitize {
  import opened Base
  import opened Floats
  import opened PyValue

  // ---------------------------------------------------------------------------
  // normalize_ticker
  // ---------------------------------------------------------------------------

  /** Python's `str.isspace`: the characters `str.strip()` removes. */
  predicate IsPySpace(c: char)
  {
    ('\U{9}' <= c <= '\U{D}') || ('\U{1C}' <= c <= ' ') || c == '\U{85}' || c == '\U{A0}'
    || c == '\U{1680}' || ('\U{2000}' <= c <= '\U{200A}') || c == '\U{2028}' || c == '\U{2029}'
    || c == '\U{202F}' || c == '\U{205F}' || c == '\U{3000}'
  }

  predicate AllSpace(s: string)
  {
    forall i :: 0 <= i < |s| ==> IsPySpace(s[i])
  }

  /** Neither end of `s` is whitespace. */
  predicate Trimmed(s: string)
  {
    s != [] ==> !IsPySpace(s[0]) && !IsPySpace(s[|s| - 1])
  }

  function LeadingSpaces(s: string): (n: nat)
    ensures n <= |s| && AllSpace(s[..n])
    ensures n < |s| ==> !IsPySpace(s[n])
  {
    if s == [] || !IsPySpace(s[0]) then 0
    else
      var n := 1 + LeadingSpaces(s[1..]);
      assert s[..n] == [s[0]] + s[1..][..n - 1];
      n
  }

  function TrailingSpaces(s: string): (n: nat)
    ensures n <= |s| && AllSpace(s[|s| - n..])
    ensures n < |s| ==> !IsPySpace(s[|s| - 1 - n])
  {
    if s == [] || !IsPySpace(s[|s| - 1]) then 0
    else
      var u := s[..|s| - 1];
      var k := TrailingSpaces(u);
      assert s[|s| - (k + 1)..] == u[|u| - k..] + [s[|s| - 1]];
      AllSpaceSnoc(u[|u| - k..], s[|s| - 1]);
      assert k < |u| ==> s[|s| - 1 - (k + 1)] == u[|u| - 1 - k];
      k + 1
  }

  lemma AllSpaceSnoc(a: string, c: char)
    requires AllSpace(a) && IsPySpace(c)
    ensures AllSpace(a + [c])
  {
    forall i | 0 <= i < |a + [c]| ensures IsPySpace((a + [c])[i]) {
      if i < |a| { assert (a + [c])[i] == a[i]; }
    }
  }

  /** `s.strip()`: the slice left after removing leading and trailing whitespace. */
  function Strip(s: string): (r: string)
    ensures Trimmed(r)
    ensures |r| <= |s|
  {
    var i := LeadingSpaces(s);
    var t := s[i..];
    var n := TrailingSpaces(t);
    assert i < |s| ==> !IsPySpace(t[0]) && n < |t|;
    t[..|t| - n]
  }

  /** `strip()` removes exactly the whitespace around the text: the result is a slice
      of the input with nothing but whitespace on either side of it. */
  lemma StripIsSlice(s: string)
    ensures exists i, j :: 0 <= i <= j <= |s| && Strip(s) == s[i..j] && AllSpace(s[..i]) && AllSpace(s[j..])
  {
    var i := LeadingSpaces(s);
    var t := s[i..];
    var n := TrailingSpaces(t);
    var j := |s| - n;
    assert Strip(s) == t[..|t| - n];
    SuffixSlice(s, i, 0, |t| - n);
    SuffixSlice(s, i, |t| - n, |t|);
    assert t[..|t| - n] == t[0..|t| - n] && t[|t| - n..] == t[|t| - n..|t|];
    assert AllSpace(s[..i]) && AllSpace(s[j..]);
  }

  lemma {:induction false} LeadingSpacesOf(a: string, m: string)
    requires AllSpace(a) && m != [] && !IsPySpace(m[0])
    ensures LeadingSpaces(a + m) == |a|
    decreases |a|
  {
    if a != [] {
      var s := a + m;
      assert s[0] == a[0];
      assert s[1..] == a[1..] + m;
      assert AllSpace(a[1..]) by {
        forall i | 0 <= i < |a[1..]| ensures IsPySpace(a[1..][i]) {
          assert a[1..][i] == a[i + 1];
        }
      }
      LeadingSpacesOf(a[1..], m);
      assert LeadingSpaces(s) == 1 + LeadingSpaces(s[1..]);
    } else {
      assert a + m == m;
    }
  }

  lemma {:induction false} TrailingSpacesOf(m: string, b: string)
    requires AllSpace(b) && m != [] && !IsPySpace(m[|m| - 1])
    ensures TrailingSpaces(m + b) == |b|
    decreases |b|
  {
    if b != [] {
      assert (m + b)[..|m + b| - 1] == m + b[..|b| - 1];
      TrailingSpacesOf(m, b[..|b| - 1]);
    } else {
      assert m + b == m;
    }
  }

  /** Whitespace around a trimmed, non-empty text is exactly what `strip()` removes. */
  lemma {:induction false} StripSurrounded(a: string, m: string, b: string)
    requires AllSpace(a) && AllSpace(b) && m != [] && Trimmed(m)
    ensures Strip(a + m + b) == m
  {
    var s := a + m + b;
    assert s == a + (m + b);
    LeadingSpacesOf(a, m + b);
    assert s[|a|..] == m + b;
    TrailingSpacesOf(m, b);
  }

  lemma {:induction false} StripTrimmedIsIdentity(s: string)
    requires Trimmed(s)
    ensures Strip(s) == s
  {
    if s != [] {
      assert "" + s + "" == s;
      StripSurrounded("", s, "");
    }
  }

  /** COMMON_TICKER_FIXES.get(t, t). */
  function FixTicker(t: string): string
  {
    if t == "APPL" then "AAPL" else t
  }

  /** The text after at most one leading "$". */
  function DropDollar(t: string): (r: string)
    ensures r == t || "$" + r == t
  {
    if StartsWith(t, "$") then t[1..] else t
  }

  /** normalize_ticker: a falsy input (None or "") comes back unchanged;
      otherwise strip, upper-case, drop one leading "$", then apply the fix table. */
  function NormalizeTicker(t: Option<string>): (r: Option<string>)
    ensures t.None? ==> r.None?
    ensures t == Some("") ==> r == Some("")
    ensures t.Some? ==> r.Some?
  {
    match t
    case None => None
    case Some(s) =>
      if s == "" then Some("")
      else Some(FixTicker(DropDollar(Upper(Strip(s)))))
  }

  /** normalize_ticker on a value the caller has already passed through `str`. */
  function NormalizeText(s: string): (r: string)
    ensures s == "" ==> r == ""
  {
    NormalizeTicker(Some(s)).value
  }

  /** What happens to a non-empty ticker, stated against the stripped, upper-cased text:
      the result is that text, or that text without its one leading "$", except that
      "APPL" (with or without the "$") becomes "AAPL". */
  lemma {:induction false} NormalizeTickerCases(s: string)
    requires s != ""
    ensures var core := Upper(Strip(s));
            var r := NormalizeText(s);
            if core == "APPL" || core == "$APPL" then r == "AAPL"
            else (r == core && !StartsWith(core, "$")) || (StartsWith(core, "$") && "$" + r == core)
  {
    var core := Upper(Strip(s));
    var d := DropDollar(core);
    if StartsWith(core, "$") {
      assert core == "$" + d;
      if d == "APPL" { assert core == "$APPL"; }
    } else {
      assert d == core;
      if core == "$APPL" { assert StartsWith(core, "$"); }
    }
  }

  /** The result never holds a lower-case ASCII letter and is never longer than the input. */
  lemma {:induction false} NormalizeTickerUpperAndShorter(s: string)
    ensures forall i :: 0 <= i < |NormalizeText(s)| ==> !IsLowerAscii(NormalizeText(s)[i])
    ensures |NormalizeText(s)| <= |s|
  {
    if s != "" {
      var u := Upper(Strip(s));
      var d := DropDollar(u);
      assert forall i :: 0 <= i < |u| ==> !IsLowerAscii(u[i]);
      assert forall i :: 0 <= i < |d| ==> !IsLowerAscii(d[i]) by {
        if d != u {
          assert forall i :: 0 <= i < |d| ==> d[i] == u[i + 1];
        }
      }
      assert |d| <= |u| <= |s|;
    }
  }

  /** On a trimmed ticker the strip step does nothing. */
  lemma {:induction false} NormalizeTrimmed(s: string)
    requires s != "" && Trimmed(s)
    ensures NormalizeText(s) == FixTicker(DropDollar(Upper(s)))
  {
    StripTrimmedIsIdentity(s);
  }

  /** A trimmed, upper-case ticker without "$" that the fix table leaves alone is a fixed point. */
  lemma {:induction false} NormalizeFixedPoint(x: string)
    requires x != "" && Trimmed(x) && Upper(x) == x && x[0] != '$' && x != "APPL"
    ensures NormalizeText(x) == x
  {
    NormalizeTrimmed(x);
    assert !StartsWith(x, "$");
  }

  /** Dropping the "$" of an upper-case, right-trimmed text keeps it so. */
  lemma {:induction false} DropDollarKeepsForm(u: string)
    requires Trimmed(u) && Upper(u) == u
    ensures var d := DropDollar(u);
            Upper(d) == d && (d != [] ==> !IsPySpace(d[|d| - 1]))
  {
    var d := DropDollar(u);
    if d != u {
      assert forall i :: 0 <= i < |d| ==> d[i] == u[i + 1];
      assert forall i :: 0 <= i < |d| ==> !IsLowerAscii(d[i]);
    }
  }

  /** Upper-casing does not move a text's ends onto or off whitespace. */
  lemma {:induction false} UpperKeepsTrimmed(s: string)
    requires Trimmed(s)
    ensures Trimmed(Upper(s))
  {
    assert forall c :: IsPySpace(UpperChar(c)) ==> IsPySpace(c);
  }

  /** A result that starts with neither whitespace nor "$" is a fixed point. */
  lemma {:induction false} NormalizeTickerStable(s: string)
    requires s != ""
    requires var r := NormalizeText(s); r != "" && !IsPySpace(r[0]) && r[0] != '$'
    ensures NormalizeText(NormalizeText(s)) == NormalizeText(s)
  {
    var u := Upper(Strip(s));
    var d := DropDollar(u);
    UpperKeepsTrimmed(Strip(s));
    UpperIdempotent(Strip(s));
    if d == "APPL" {
      assert Upper("AAPL") == "AAPL";
      NormalizeFixedPoint("AAPL");
    } else {
      DropDollarKeepsForm(u);
      NormalizeFixedPoint(d);
    }
  }

  /** Normalising twice can differ from normalising once: each pass removes one "$". */
  lemma NormalizeTickerNotIdempotent()
    ensures NormalizeText("$$appl") == "$APPL"
    ensures NormalizeText("$APPL") == "AAPL"
  {
    NotIdempotentFirst();
    NotIdempotentSecond();
  }

  lemma NotIdempotentFirst()
    ensures NormalizeText("$$appl") == "$APPL"
  {
    var s := "$$appl";
    assert s[0] == '$' && s[5] == 'l';
    NormalizeTrimmed(s);
    assert Upper(s) == "$$APPL";
    assert DropDollar("$$APPL") == "$APPL";
  }

  lemma NotIdempotentSecond()
    ensures NormalizeText("$APPL") == "AAPL"
  {
    var s := "$APPL";
    assert s[0] == '$' && s[4] == 'L';
    NormalizeTrimmed(s);
    assert Upper(s) == s;
    assert DropDollar(s) == "APPL";
  }

  /** "APPL" is mapped to "AAPL" after the "$" is dropped. */
  lemma NormalizeTickerFixesTypo()
    ensures NormalizeText("$appl") == "AAPL"
  {
    NormalizeTrimmed("$appl");
    assert Upper("$appl") == "$APPL";
    assert DropDollar("$APPL") == "APPL";
  }

  /** Surrounding whitespace, including a newline, is removed before upper-casing. */
  lemma NormalizeTickerStrips()
    ensures NormalizeText(" msft\n") == "MSFT"
  {
    var m := "msft";
    assert Trimmed(m) by { assert m[0] == 'm' && m[3] == 't'; }
    assert AllSpace(" ") && AllSpace("\n");
    assert " msft\n" == " " + m + "\n";
    StripSurrounded(" ", m, "\n");
    var u := Upper(m);
    assert u == "MSFT";
    assert !StartsWith(u, "$");
  }

  // ---------------------------------------------------------------------------
  // _clean_number / clean_numbers
  // ---------------------------------------------------------------------------

  /** _clean_number on a value that is not a mapping, list or tuple. */
  function CleanNumber(x: Value): (r: Value)
    ensures x.FloatV? && !x.f.Finite? ==> r == NoneV
    ensures x.FloatV? && x.f.Finite? ==> r == x
    ensures x.IntV? || x.NoneV? ==> r == x
    ensures x.BoolV? ==> r == IntV(if x.b then 1 else 0)
    ensures !x.FloatV? && !x.BoolV? ==> r == x
  {
    match x
    case NoneV => NoneV
    case BoolV(b) => IntV(if b then 1 else 0)   // bool is a subclass of int
    case IntV(_) => x
    case FloatV(f) => if f.Finite? then x else NoneV
    case _ => x
  }

  /** Two values with the same containers, keys and lengths at every depth. */
  predicate SameShape(a: Value, b: Value)
  {
    match a
    case DictV(ea) =>
      b.DictV? && |b.entries| == |ea|
      && (forall i :: 0 <= i < |ea| ==> b.entries[i].0 == ea[i].0 && SameShape(ea[i].1, b.entries[i].1))
    case ListV(ia) =>
      b.ListV? && |b.items| == |ia| && (forall i :: 0 <= i < |ia| ==> SameShape(ia[i], b.items[i]))
    case TupleV(ia) =>
      b.TupleV? && |b.items| == |ia| && (forall i :: 0 <= i < |ia| ==> SameShape(ia[i], b.items[i]))
    case _ => !b.DictV? && !b.ListV? && !b.TupleV?
  }

  /** clean_numbers: mappings keep their keys, lists stay lists and tuples stay tuples;
      every other value goes through _clean_number. */
  function CleanNumbers(v: Value): (r: Value)
    ensures SameShape(v, r)
    ensures !v.DictV? && !v.ListV? && !v.TupleV? ==> r == CleanNumber(v)
  {
    match v
    case DictV(entries) =>
      DictV(seq(|entries|, i requires 0 <= i < |entries| => (entries[i].0, CleanNumbers(entries[i].1))))
    case ListV(items) =>
      ListV(seq(|items|, i requires 0 <= i < |items| => CleanNumbers(items[i])))
    case TupleV(items) =>
      TupleV(seq(|items|, i requires 0 <= i < |items| => CleanNumbers(items[i])))
    case _ => CleanNumber(v)
  }

  /** No NaN or infinity anywhere in the value, sets included. */
  predicate AllFinite(v: Value)
  {
    match v
    case FloatV(f) => f.Finite?
    case ListV(items) => forall i :: 0 <= i < |items| ==> AllFinite(items[i])
    case TupleV(items) => forall i :: 0 <= i < |items| ==> AllFinite(items[i])
    case SetV(items) => forall i :: 0 <= i < |items| ==> AllFinite(items[i])
    case DictV(entries) => forall i :: 0 <= i < |entries| ==> AllFinite(entries[i].1)
    case _ => true
  }

  /** No set anywhere inside the value (JSON never produces one). */
  predicate SetFree(v: Value)
  {
    match v
    case SetV(_) => false
    case ListV(items) => forall i :: 0 <= i < |items| ==> SetFree(items[i])
    case TupleV(items) => forall i :: 0 <= i < |items| ==> SetFree(items[i])
    case DictV(entries) => forall i :: 0 <= i < |entries| ==> SetFree(entries[i].1)
    case _ => true
  }

  /** On a value without sets, the cleaned value holds no NaN or infinity at any depth. */
  lemma {:induction false} CleanNumbersAllFinite(v: Value)
    requires SetFree(v)
    ensures AllFinite(CleanNumbers(v))
  {
    match v
    case DictV(entries) =>
      forall i | 0 <= i < |entries| ensures AllFinite(CleanNumbers(v).entries[i].1) {
        CleanNumbersAllFinite(entries[i].1);
      }
    case ListV(items) =>
      forall i | 0 <= i < |items| ensures AllFinite(CleanNumbers(v).items[i]) {
        CleanNumbersAllFinite(items[i]);
      }
    case TupleV(items) =>
      forall i | 0 <= i < |items| ensures AllFinite(CleanNumbers(v).items[i]) {
        CleanNumbersAllFinite(items[i]);
      }
    case _ =>
  }

  /** A set is neither a list nor a tuple, so clean_numbers passes it through with its NaN. */
  lemma CleanNumbersKeepsNaNInSet()
    ensures CleanNumbers(SetV([FloatV(NaN)])) == SetV([FloatV(NaN)])
    ensures !AllFinite(CleanNumbers(SetV([FloatV(NaN)])))
  {
    assert CleanNumbers(SetV([FloatV(NaN)])).items[0] == FloatV(NaN);
  }

  /** clean_numbers(clean_numbers(v)) == clean_numbers(v). */
  lemma {:induction false} CleanNumbersIdempotent(v: Value)
    ensures CleanNumbers(CleanNumbers(v)) == CleanNumbers(v)
  {
    match v
    case DictV(entries) =>
      var c := CleanNumbers(v);
      forall i | 0 <= i < |entries| ensures CleanNumbers(c).entries[i] == c.entries[i] {
        CleanNumbersIdempotent(entries[i].1);
      }
      assert CleanNumbers(c).entries == c.entries;
    case ListV(items) =>
      var c := CleanNumbers(v);
      forall i | 0 <= i < |items| ensures CleanNumbers(c).items[i] == c.items[i] {
        CleanNumbersIdempotent(items[i]);
      }
      assert CleanNumbers(c).items == c.items;
    case TupleV(items) =>
      var c := CleanNumbers(v);
      forall i | 0 <= i < |items| ensures CleanNumbers(c).items[i] == c.items[i] {
        CleanNumbersIdempotent(items[i]);
      }
      assert CleanNumbers(c).items == c.items;
    case _ =>
  }

  /** Looking a key up after cleaning finds the cleaned value of the same key. */
  lemma CleanNumbersLookup(entries: seq<(Key, Value)>, k: Key)
    ensures var c := CleanNumbers(DictV(entries)).entries;
            match Lookup(entries, k)
            case None => Lookup(c, k).None?
            case Some(x) => Lookup(c, k) == Some(CleanNumbers(x))
  {
    CleanedEntries(entries);
    LookupCleaned(entries, CleanNumbers(DictV(entries)).entries, k);
  }

  /** The same look-up on item lists that pair each key with its cleaned value. */
  lemma {:induction false} LookupCleaned(entries: seq<(Key, Value)>, c: seq<(Key, Value)>, k: Key)
    requires |c| == |entries| && forall i :: 0 <= i < |c| ==> c[i] == (entries[i].0, CleanNumbers(entries[i].1))
    ensures match Lookup(entries, k)
            case None => Lookup(c, k).None?
            case Some(x) => Lookup(c, k) == Some(CleanNumbers(x))
  {
    if entries != [] {
      assert c[0] == (entries[0].0, CleanNumbers(entries[0].1));
      if entries[0].0 != k {
        assert forall i :: 0 <= i < |c[1..]| ==> c[1..][i] == c[i + 1] && entries[1..][i] == entries[i + 1];
        LookupCleaned(entries[1..], c[1..], k);
      }
    }
  }

  /** Cleaning a dict keeps its keys in place and cleans each value. */
  lemma CleanedEntries(entries: seq<(Key, Value)>)
    ensures var c := CleanNumbers(DictV(entries)).entries;
            |c| == |entries| && forall i :: 0 <= i < |c| ==> c[i] == (entries[i].0, CleanNumbers(entries[i].1))
  {
  }
}
