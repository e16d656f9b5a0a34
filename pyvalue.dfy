/** Python values as the back end handles them: what `json.loads` produces
    (None, bool, int, float, str, list, dict) plus the other kinds the
    sanitisers distinguish (bytes, tuple, set, date, datetime).  A dict is the
    sequence of its items in insertion order. */
module PyValue {
  import opened Base
  import opened Floats

  /** A hashable scalar used as a dict key. */
  datatype Key = KStr(s: string) | KInt(i: int) | KBool(b: bool) | KNone

  datatype Date = Date(year: nat, month: nat, day: nat)
  datatype Time = Time(hour: nat, minute: nat, second: nat, micro: nat)

  datatype Value =
    | NoneV
    | BoolV(b: bool)
    | IntV(i: int)
    | FloatV(f: Num)
    | StrV(s: string)
    | BytesV(bytes: seq<bv8>)
    | ListV(items: seq<Value>)
    | TupleV(items: seq<Value>)
    | SetV(items: seq<Value>)          // in iteration order
    | DictV(entries: seq<(Key, Value)>)
    | DateV(date: Date)
    | DateTimeV(date: Date, time: Time, tz: Option<int>)  // UTC offset in minutes; None = naive

  /** Python `bool(v)`. */
  predicate Truthy(v: Value)
  {
    match v
    case NoneV => false
    case BoolV(b) => b
    case IntV(i) => i != 0
    case FloatV(f) => PyTruthy(f)
    case StrV(s) => s != ""
    case BytesV(bs) => bs != []
    case ListV(items) => items != []
    case TupleV(items) => items != []
    case SetV(items) => items != []
    case DictV(entries) => entries != []
    case DateV(_) => true
    case DateTimeV(_, _, _) => true
  }

  /** `type(v).__name__`, as Python's error messages print it. */
  function TypeName(v: Value): string
  {
    match v
    case NoneV => "NoneType"
    case BoolV(_) => "bool"
    case IntV(_) => "int"
    case FloatV(_) => "float"
    case StrV(_) => "str"
    case BytesV(_) => "bytes"
    case ListV(_) => "list"
    case TupleV(_) => "tuple"
    case SetV(_) => "set"
    case DictV(_) => "dict"
    case DateV(_) => "date"
    case DateTimeV(_, _, _) => "datetime"
  }

  function KeyValue(k: Key): Value
  {
    match k
    case KStr(s) => StrV(s)
    case KInt(i) => IntV(i)
    case KBool(b) => BoolV(b)
    case KNone => NoneV
  }

  predicate HasKey(entries: seq<(Key, Value)>, k: Key)
  {
    exists i :: 0 <= i < |entries| && entries[i].0 == k
  }

  /** `d[k]` if present: the value of the first item with key `k`. */
  function Lookup(entries: seq<(Key, Value)>, k: Key): (r: Option<Value>)
    ensures r.None? <==> !HasKey(entries, k)
    ensures r.Some? ==> exists i :: 0 <= i < |entries| && entries[i] == (k, r.value)
  {
    if |entries| == 0 then None
    else if entries[0].0 == k then Some(entries[0].1)
    else
      var r := Lookup(entries[1..], k);
      assert forall i :: 0 <= i < |entries[1..]| ==> entries[1..][i] == entries[i + 1];
      r
  }

  function AttributeError(v: Value, name: string): string
  {
    "'" + TypeName(v) + "' object has no attribute '" + name + "'"
  }

  /** `v.get(name)`: `Ok(None)` when the key is absent, an AttributeError when `v` is not a dict. */
  function Get(v: Value, name: string): (r: Result<Option<Value>>)
    ensures r.Ok? <==> v.DictV?
    ensures v.DictV? ==> r.value == Lookup(v.entries, KStr(name))
  {
    if v.DictV? then Ok(Lookup(v.entries, KStr(name))) else Err(AttributeError(v, "get"))
  }

  /** `v.get(name, default)`. */
  function GetOr(v: Value, name: string, default: Value): (r: Result<Value>)
    ensures r.Ok? <==> v.DictV?
    ensures v.DictV? && !HasKey(v.entries, KStr(name)) ==> r.value == default
  {
    if v.DictV? then
      match Lookup(v.entries, KStr(name))
      case Some(x) => Ok(x)
      case None => Ok(default)
    else Err(AttributeError(v, "get"))
  }

  /** `d.get(name)` on a dict's items, None when absent. */
  function Field(e: seq<(Key, Value)>, name: string): (r: Value)
    ensures !HasKey(e, KStr(name)) ==> r == NoneV
  {
    match Lookup(e, KStr(name))
    case Some(v) => v
    case None => NoneV
  }

  /** `d.get(name, default)` on a dict's items. */
  function FieldOr(e: seq<(Key, Value)>, name: string, default: Value): (r: Value)
    ensures !HasKey(e, KStr(name)) ==> r == default
    ensures HasKey(e, KStr(name)) ==> Some(r) == Lookup(e, KStr(name))
  {
    match Lookup(e, KStr(name))
    case Some(v) => v
    case None => default
  }

  /** `iter(v)` drained: the items of a list, tuple or set, a dict's keys, a string's
      characters, a bytes object's integers; a TypeError for anything else. */
  function Iter(v: Value): (r: Result<seq<Value>>)
    ensures r.Ok? <==> v.ListV? || v.TupleV? || v.SetV? || v.DictV? || v.StrV? || v.BytesV?
    ensures r.Err? ==> r.msg == "'" + TypeName(v) + "' object is not iterable"
    ensures r.Ok? && Truthy(v) ==> |r.value| > 0
    ensures v.ListV? ==> r == Ok(v.items)
  {
    match v
    case ListV(items) => Ok(items)
    case TupleV(items) => Ok(items)
    case SetV(items) => Ok(items)
    case DictV(entries) => Ok(seq(|entries|, i requires 0 <= i < |entries| => KeyValue(entries[i].0)))
    case StrV(s) => Ok(seq(|s|, i requires 0 <= i < |s| => StrV([s[i]])))
    case BytesV(bs) => Ok(seq(|bs|, i requires 0 <= i < |bs| => IntV(bs[i] as int)))
    case _ => Err("'" + TypeName(v) + "' object is not iterable")
  }

  /** A dict literal with string keys, in the order written. */
  function Dict(items: seq<(string, Value)>): (d: Value)
    ensures d.DictV? && |d.entries| == |items|
  {
    DictV(seq(|items|, i requires 0 <= i < |items| => (KStr(items[i].0), items[i].1)))
  }

  /** The item of a dict literal at a position. */
  lemma DictEntry(items: seq<(string, Value)>, i: nat)
    requires i < |items|
    ensures Dict(items).entries[i] == (KStr(items[i].0), items[i].1)
  {
  }

  /** A dict literal has a key exactly when one of its items names it. */
  lemma DictHasKey(items: seq<(string, Value)>, name: string)
    ensures HasKey(Dict(items).entries, KStr(name)) <==> exists i :: 0 <= i < |items| && items[i].0 == name
  {
    var e := Dict(items).entries;
    assert forall i :: 0 <= i < |items| ==> e[i].0 == KStr(items[i].0);
  }

  /** A look-up in a dict literal finds an item whose key no earlier item has. */
  lemma {:induction false} DictLookup(items: seq<(string, Value)>, i: nat)
    requires i < |items| && forall j :: 0 <= j < i ==> items[j].0 != items[i].0
    ensures Lookup(Dict(items).entries, KStr(items[i].0)) == Some(items[i].1)
  {
    if i > 0 {
      assert Dict(items).entries[1..] == Dict(items[1..]).entries;
      DictLookup(items[1..], i - 1);
    }
  }

  /** Looking up a key in a dict literal item by item: the first item answers for its own
      key and passes every other key on to the items after it. */
  lemma DictCons(name: string, v: Value, rest: seq<(string, Value)>, key: string)
    ensures Lookup(Dict([(name, v)] + rest).entries, KStr(key))
              == if name == key then Some(v) else Lookup(Dict(rest).entries, KStr(key))
  {
    DictConcatLookup([(name, v)], rest, key);
    DictHasKey([(name, v)], key);
    if name == key {
      DictLookup([(name, v)], 0);
    }
  }

  /** Looking up a key in the concatenation of two dict literals: the first one wins. */
  lemma {:induction false} DictConcatLookup(a: seq<(string, Value)>, b: seq<(string, Value)>, name: string)
    ensures Lookup(Dict(a + b).entries, KStr(name))
              == if HasKey(Dict(a).entries, KStr(name)) then Lookup(Dict(a).entries, KStr(name))
                 else Lookup(Dict(b).entries, KStr(name))
  {
    assert Dict(a + b).entries == Dict(a).entries + Dict(b).entries;
    LookupConcat(Dict(a).entries, Dict(b).entries, KStr(name));
  }

  /** Looking up a key in the concatenation of two item lists: the first one wins. */
  lemma {:induction false} LookupConcat(x: seq<(Key, Value)>, y: seq<(Key, Value)>, k: Key)
    ensures Lookup(x + y, k) == if HasKey(x, k) then Lookup(x, k) else Lookup(y, k)
  {
    if |x| == 0 {
      assert x + y == y;
    } else {
      assert (x + y)[0] == x[0];
      assert (x + y)[1..] == x[1..] + y;
      if x[0].0 != k {
        LookupConcat(x[1..], y, k);
        assert HasKey(x, k) <==> HasKey(x[1..], k) by {
          if HasKey(x, k) {
            var i :| 0 <= i < |x| && x[i].0 == k;
            assert x[1..][i - 1].0 == k;
          }
          if HasKey(x[1..], k) {
            var i :| 0 <= i < |x[1..]| && x[1..][i].0 == k;
            assert x[i + 1].0 == k;
          }
        }
      } else {
        assert HasKey(x, k) by {
          assert x[0].0 == k;
        }
      }
    }
  }

  // ---- str() and repr() ----

  /** `repr(x)` of a non-finite float. */
  function SpecialFloatRepr(f: Num): string
    requires !f.Finite?
  {
    match f
    case NaN => "nan"
    case PosInf => "inf"
    case NegInf => "-inf"
  }

  function HexDigit(d: nat): char
    requires d < 16
  {
    if d < 10 then DigitChar(d) else ('a' as int + d - 10) as char
  }

  function HexEscape(code: nat): string
    requires code < 256
  {
    ['\\', 'x', HexDigit(code / 16), HexDigit(code % 16)]
  }

  /** One character of a quoted repr with quote character `q`. */
  function EscapeChar(c: char, q: char): string
  {
    if c == q || c == '\\' then ['\\', c]
    else if c == '\n' then "\\n"
    else if c == '\r' then "\\r"
    else if c == '\t' then "\\t"
    else if c as int < 32 || 127 <= c as int <= 160 then HexEscape(c as int)
    else [c]
  }

  function Escaped(s: string, q: char): string
  {
    if s == [] then "" else EscapeChar(s[0], q) + Escaped(s[1..], q)
  }

  /** `repr(s)`: single quotes unless the text holds a single and no double quote. */
  function StrRepr(s: string): string
  {
    var q := if '\'' in s && '"' !in s then '"' else '\'';
    [q] + Escaped(s, q) + [q]
  }

  function BytesChars(bs: seq<bv8>): string
  {
    seq(|bs|, i requires 0 <= i < |bs| => (bs[i] as int) as char)
  }

  function BytesRepr(bs: seq<bv8>): string
  {
    var s := BytesChars(bs);
    var q := if '\'' in s && '"' !in s then '"' else '\'';
    var printable := seq(|bs|, i requires 0 <= i < |bs| =>
      if bs[i] as int >= 128 then HexEscape(bs[i] as int) else EscapeChar(s[i], q));
    "b" + [q] + Join("", printable) + [q]
  }

  function DateIso(d: Date): string
  {
    Pad(d.year, 4) + "-" + Pad(d.month, 2) + "-" + Pad(d.day, 2)
  }

  /** `+HH:MM` / `-HH:MM` for an offset in minutes. */
  function OffsetIso(minutes: int): string
  {
    var a: nat := if minutes < 0 then -minutes else minutes;
    (if minutes < 0 then "-" else "+") + Pad(a / 60, 2) + ":" + Pad(a % 60, 2)
  }

  /** `datetime.isoformat(sep)`. */
  function DateTimeIso(d: Date, t: Time, tz: Option<int>, sep: string): string
  {
    DateIso(d) + sep + Pad(t.hour, 2) + ":" + Pad(t.minute, 2) + ":" + Pad(t.second, 2)
    + (if t.micro != 0 then "." + Pad(t.micro, 6) else "")
    + (match tz case None => "" case Some(m) => OffsetIso(m))
  }

  function KeyRepr(k: Key): string
  {
    match k
    case KStr(s) => StrRepr(s)
    case KInt(i) => IntToString(i)
    case KBool(b) => if b then "True" else "False"
    case KNone => "None"
  }

  /** `repr(v)`; finite floats are printed by `floatRepr`, Python's shortest round-trip form. */
  function Repr(v: Value, floatRepr: real -> string): string
  {
    match v
    case NoneV => "None"
    case BoolV(b) => if b then "True" else "False"
    case IntV(i) => IntToString(i)
    case FloatV(f) => if f.Finite? then floatRepr(f.r) else SpecialFloatRepr(f)
    case StrV(s) => StrRepr(s)
    case BytesV(bs) => BytesRepr(bs)
    case ListV(items) =>
      "[" + Join(", ", seq(|items|, i requires 0 <= i < |items| => Repr(items[i], floatRepr))) + "]"
    case TupleV(items) =>
      var parts := seq(|items|, i requires 0 <= i < |items| => Repr(items[i], floatRepr));
      if |items| == 1 then "(" + parts[0] + ",)" else "(" + Join(", ", parts) + ")"
    case SetV(items) =>
      if items == [] then "set()"
      else "{" + Join(", ", seq(|items|, i requires 0 <= i < |items| => Repr(items[i], floatRepr))) + "}"
    case DictV(entries) =>
      "{" + Join(", ", seq(|entries|, i requires 0 <= i < |entries| =>
        KeyRepr(entries[i].0) + ": " + Repr(entries[i].1, floatRepr))) + "}"
    case DateV(d) =>
      "datetime.date(" + IntToString(d.year) + ", " + IntToString(d.month) + ", " + IntToString(d.day) + ")"
    case DateTimeV(d, t, tz) =>
      "datetime.datetime(" + IntToString(d.year) + ", " + IntToString(d.month) + ", " + IntToString(d.day)
      + ", " + IntToString(t.hour) + ", " + IntToString(t.minute)
      + (if t.second != 0 || t.micro != 0 then ", " + IntToString(t.second) else "")
      + (if t.micro != 0 then ", " + IntToString(t.micro) else "")
      + (match tz
         case None => ""
         case Some(m) =>
           if m == 0 then ", tzinfo=datetime.timezone.utc"
           else ", tzinfo=datetime.timezone(datetime.timedelta(seconds=" + IntToString(m * 60) + "))")
      + ")"
  }

  /** `str(v)`: the text itself for a str, the ISO form for dates, `repr` otherwise. */
  function Str(v: Value, floatRepr: real -> string): (s: string)
    ensures v.StrV? ==> s == v.s
  {
    match v
    case StrV(s) => s
    case DateV(d) => DateIso(d)
    case DateTimeV(d, t, tz) => DateTimeIso(d, t, tz, " ")
    case _ => Repr(v, floatRepr)
  }

  /** `str(k)` of a dict key. */
  function KeyStr(k: Key): (s: string)
    ensures k.KStr? ==> s == k.s
  {
    match k
    case KStr(s) => s
    case _ => KeyRepr(k)
  }

  // ---- float() and int() ----

  /** What Python's builtins do with text the model does not parse itself. */
  datatype Builtins = Builtins(
    floatRepr: real -> string,        // repr of a finite float
    parseFloat: string -> Option<Num>, // float(s); None when Python raises ValueError
    parseInt: string -> Option<int>    // int(s); None when Python raises ValueError
  )

  /** The opening words of the errors `float` and `int` raise. */
  const FloatParseError := "could not convert string to float: "
  const FloatTypeError := "float() argument must be a string or a real number, not '"
  const IntParseError := "invalid literal for int() with base 10: "
  const IntTypeError := "int() argument must be a string, a bytes-like object or a real number, not '"

  /** `float(v)`. */
  function ToFloat(v: Value, b: Builtins): (r: Result<Num>)
    ensures v.FloatV? ==> r == Ok(v.f)
    ensures v.IntV? ==> r == Ok(Finite(v.i as real))
    ensures v.NoneV? ==> r.Err?
  {
    match v
    case BoolV(x) => Ok(Finite(if x then 1.0 else 0.0))
    case IntV(i) => Ok(Finite(i as real))
    case FloatV(f) => Ok(f)
    case StrV(s) =>
      (match b.parseFloat(s)
       case Some(n) => Ok(n)
       case None => Err(FloatParseError + StrRepr(s)))
    case BytesV(bs) =>
      (match b.parseFloat(BytesChars(bs))
       case Some(n) => Ok(n)
       case None => Err(FloatParseError + BytesRepr(bs)))
    case _ => Err(FloatTypeError + TypeName(v) + "'")
  }

  /** `float(None)` raises a TypeError naming NoneType. */
  lemma ToFloatNone(b: Builtins)
    ensures ToFloat(NoneV, b) == Err("float() argument must be a string or a real number, not 'NoneType'")
  {
  }

  /** `int(v)`: truncation toward zero for floats. */
  function ToInt(v: Value, b: Builtins): (r: Result<int>)
    ensures v.IntV? ==> r == Ok(v.i)
    ensures v.NoneV? ==> r.Err?
    ensures v.FloatV? && v.f.Finite? ==> r == Ok(Trunc(v.f.r))
  {
    match v
    case BoolV(x) => Ok(if x then 1 else 0)
    case IntV(i) => Ok(i)
    case FloatV(f) =>
      (match f
       case Finite(x) => Ok(Trunc(x))
       case NaN => Err("cannot convert float NaN to integer")
       case _ => Err("cannot convert float infinity to integer"))
    case StrV(s) =>
      (match b.parseInt(s)
       case Some(i) => Ok(i)
       case None => Err(IntParseError + StrRepr(s)))
    case BytesV(bs) =>
      (match b.parseInt(BytesChars(bs))
       case Some(i) => Ok(i)
       case None => Err(IntParseError + BytesRepr(bs)))
    case _ =>
      Err(IntTypeError + TypeName(v) + "'")
  }
}
