/** The option pricing page: a list of legs edited in place for chain mode, a single
    instrument for historical mode, and the request `submit` posts for either. */
module OptionsPage {
  import opened Base
  import opened Floats
  import opened PyValue
  import opened Sanitize
  import opened OptionPricing
  import opened Browser

  // ---------------------------------------------------------------------------
  // Legs and their edits
  // ---------------------------------------------------------------------------

  /** A leg as the page holds it; `spot` is the key a market look-up adds. */
  datatype Leg = Leg(ticker: string, expiry: string, strike: FormValue, optionType: string, qty: FormValue, spot: Option<Num>)

  /** The leg the page starts with and `addLeg` appends. */
  const DefaultLeg: Leg := Leg("AAPL", "", Text(""), "CALL", Num(Finite(1.0)), None)

  /** A `Partial<Leg>`: the keys a patch sets. */
  datatype Patch = Patch(ticker: Option<string>, expiry: Option<string>, strike: Option<FormValue>,
                         optionType: Option<string>, qty: Option<FormValue>, spot: Option<Num>)

  function TickerPatch(t: string): Patch { Patch(Some(t), None, None, None, None, None) }
  function ExpiryPatch(exp: string): Patch { Patch(None, Some(exp), Some(Text("")), None, None, None) }
  function StrikePatch(k: FormValue): Patch { Patch(None, None, Some(k), None, None, None) }
  function SpotPatch(x: Num): Patch { Patch(None, None, None, None, None, Some(x)) }

  function Pick<T>(patched: Option<T>, current: T): T
  {
    if patched.Some? then patched.value else current
  }

  /** `{...leg, ...patch}`: each key the patch sets replaces the leg's. */
  function Merge(l: Leg, p: Patch): (m: Leg)
    ensures p.ticker.Some? ==> m.ticker == p.ticker.value
    ensures p.expiry.Some? ==> m.expiry == p.expiry.value
    ensures p.strike.Some? ==> m.strike == p.strike.value
    ensures p.optionType.Some? ==> m.optionType == p.optionType.value
    ensures p.qty.Some? ==> m.qty == p.qty.value
    ensures p.spot.Some? ==> m.spot == p.spot
    ensures p == Patch(None, None, None, None, None, None) ==> m == l
  {
    Leg(Pick(p.ticker, l.ticker), Pick(p.expiry, l.expiry), Pick(p.strike, l.strike),
        Pick(p.optionType, l.optionType), Pick(p.qty, l.qty), if p.spot.Some? then p.spot else l.spot)
  }

  /** Merging the same patch twice is merging it once. */
  lemma MergeIdempotent(l: Leg, p: Patch)
    ensures Merge(Merge(l, p), p) == Merge(l, p)
  {
  }

  /** The legs after `updateLeg(i, patch)`: leg i merged with the patch, every other leg
      as it was. */
  function UpdatedLegs(legs: seq<Leg>, i: nat, p: Patch): (r: seq<Leg>)
    requires i < |legs|
    ensures |r| == |legs| && r[i] == Merge(legs[i], p)
    ensures forall k :: 0 <= k < |legs| && k != i ==> r[k] == legs[k]
  {
    legs[i := Merge(legs[i], p)]
  }

  /** Updating a leg twice with the same patch is updating it once. */
  lemma UpdateTwiceIsOnce(legs: seq<Leg>, i: nat, p: Patch)
    requires i < |legs|
    ensures UpdatedLegs(UpdatedLegs(legs, i, p), i, p) == UpdatedLegs(legs, i, p)
  {
    MergeIdempotent(legs[i], p);
  }

  /** `legs.filter((_, idx) => idx !== i)`: the leg at index i dropped, the rest in order;
      an index outside the list drops nothing. */
  function Without<T>(s: seq<T>, i: int): (r: seq<T>)
    ensures 0 <= i < |s| ==> |r| == |s| - 1
    ensures 0 <= i < |s| ==> (forall k :: 0 <= k < i ==> r[k] == s[k]) && (forall k :: i <= k < |r| ==> r[k] == s[k + 1])
    ensures !(0 <= i < |s|) ==> r == s
  {
    if 0 <= i < |s| then s[..i] + s[i + 1..] else s
  }

  /** Removing the leg just added gives back the list before. */
  lemma RemoveUndoesAdd<T>(s: seq<T>, x: T)
    ensures Without(s + [x], |s|) == s
  {
    assert (s + [x])[..|s|] == s;
  }

  // ---------------------------------------------------------------------------
  // Expiry change and the default strike
  // ---------------------------------------------------------------------------

  /** A chain answer: the strikes of its calls and of its puts (empty when the request
      fails or a side is missing). */
  datatype Chain = Chain(calls: seq<real>, puts: seq<real>)

  function StrikeKey(tkr: string, exp: string): string
  {
    tkr + "|" + exp
  }

  /** fetchStrikes' last step: the middle strike when the strike it reads is falsy and
      the chain has strikes. */
  function WithDefaultStrike(legs: seq<Leg>, i: nat, seen: FormValue, u: seq<real>): (r: seq<Leg>)
    requires i < |legs|
    ensures !FormTruthy(seen) && |u| > 0 ==> r == UpdatedLegs(legs, i, StrikePatch(Num(Finite(MiddleStrike(u)))))
    ensures FormTruthy(seen) || |u| == 0 ==> r == legs
  {
    if !FormTruthy(seen) && |u| > 0 then UpdatedLegs(legs, i, StrikePatch(Num(Finite(MiddleStrike(u))))) else legs
  }

  /** The legs after onExpiryChange and the fetchStrikes it starts.  The strike that
      decides on the default is the one the leg had before the change cleared it. */
  function ExpiryChangedAsWritten(legs: seq<Leg>, i: nat, exp: string, ch: Chain): (r: seq<Leg>)
    requires i < |legs|
    ensures |r| == |legs| && r[i].expiry == exp
  {
    var cleared := UpdatedLegs(legs, i, ExpiryPatch(exp));
    if legs[i].ticker != "" && exp != "" then WithDefaultStrike(cleared, i, legs[i].strike, StrikeList(ch.calls, ch.puts))
    else cleared
  }

  /** The same, deciding on the strike as it is after the change: a new expiry always
      gets the middle strike of its chain. */
  function ExpiryChanged(legs: seq<Leg>, i: nat, exp: string, ch: Chain): (r: seq<Leg>)
    requires i < |legs|
    ensures |r| == |legs| && r[i].expiry == exp
  {
    var cleared := UpdatedLegs(legs, i, ExpiryPatch(exp));
    if legs[i].ticker != "" && exp != "" then WithDefaultStrike(cleared, i, cleared[i].strike, StrikeList(ch.calls, ch.puts))
    else cleared
  }

  /** After an expiry change, the leg's strike is the middle of the new chain's strikes
      when there are any, and blank otherwise; no other leg changes. */
  lemma ExpiryChangeSetsStrike(legs: seq<Leg>, i: nat, exp: string, ch: Chain)
    requires i < |legs|
    ensures var r := ExpiryChanged(legs, i, exp, ch);
            var u := StrikeList(ch.calls, ch.puts);
            (legs[i].ticker != "" && exp != "" && |u| > 0 ==> r[i].strike == Num(Finite(MiddleStrike(u))))
            && (!(legs[i].ticker != "" && exp != "" && |u| > 0) ==> r[i].strike == Text(""))
            && r[i].ticker == legs[i].ticker && r[i].qty == legs[i].qty
            && (forall k :: 0 <= k < |legs| && k != i ==> r[k] == legs[k])
  {
  }

  /** As written, a leg that had a strike loses it on an expiry change and gets no
      default, although the new chain has strikes. */
  lemma StaleStrikeAsWritten(legs: seq<Leg>, i: nat, exp: string, ch: Chain)
    requires i < |legs| && legs[i].ticker != "" && exp != ""
    requires FormTruthy(legs[i].strike) && |StrikeList(ch.calls, ch.puts)| > 0
    ensures ExpiryChangedAsWritten(legs, i, exp, ch)[i].strike == Text("")
    ensures ExpiryChanged(legs, i, exp, ch)[i].strike != Text("")
  {
  }

  /** A concrete leg: AAPL with strike 150 moved to a new expiry whose chain lists 140,
      150 and 160 keeps a blank strike as written, and 150 when corrected. */
  lemma StaleStrikeExample()
    ensures var legs := [Leg("AAPL", "2025-01-17", Num(Finite(150.0)), "CALL", Num(Finite(1.0)), None)];
            var ch := Chain([140.0, 150.0, 160.0], []);
            ExpiryChangedAsWritten(legs, 0, "2025-02-21", ch)[0].strike == Text("")
            && ExpiryChanged(legs, 0, "2025-02-21", ch)[0].strike == Num(Finite(150.0))
  {
    var legs := [Leg("AAPL", "2025-01-17", Num(Finite(150.0)), "CALL", Num(Finite(1.0)), None)];
    var ch := Chain([140.0, 150.0, 160.0], []);
    ExampleStrikes();
    ExpiryChangeSetsStrike(legs, 0, "2025-02-21", ch);
    assert FormTruthy(legs[0].strike);
    assert UpdatedLegs(legs, 0, ExpiryPatch("2025-02-21"))[0].strike == Text("");
  }

  /** The example chain's strike list and its middle strike. */
  lemma ExampleStrikes()
    ensures StrikeList([140.0, 150.0, 160.0], []) == [140.0, 150.0, 160.0]
    ensures MiddleStrike([140.0, 150.0, 160.0]) == 150.0
  {
    assert [140.0, 150.0, 160.0] + [] == [140.0, 150.0, 160.0];
    AscendingUnique(StrikeList([140.0, 150.0, 160.0], []), [140.0, 150.0, 160.0]);
  }

  // ---------------------------------------------------------------------------
  // Params of a chain-mode submission
  // ---------------------------------------------------------------------------

  /** `Number(l.strike || 0)` and `Number(l.qty || 1)`. */
  function LegStrike(l: Leg, js: Js): Num { NumberOr(l.strike, 0.0, js) }
  function LegQty(l: Leg, js: Js): Num { NumberOr(l.qty, 1.0, js) }

  function SpotItems(l: Leg): seq<(string, Value)>
  {
    if l.spot.Some? then [("spot", JsonNumber(l.spot.value))] else []
  }

  /** `{...l, strike: Number(l.strike || 0), qty: Number(l.qty || 1)}`; the keys keep the
      leg's own order, spot last when the leg has one. */
  function LegItems(l: Leg, js: Js): seq<(string, Value)>
  {
    [("ticker", StrV(l.ticker))] + ([("expiry", StrV(l.expiry))] + ([("strike", JsonNumber(LegStrike(l, js)))]
    + ([("option_type", StrV(l.optionType))] + ([("qty", JsonNumber(LegQty(l, js)))] + SpotItems(l)))))
  }

  function LegValue(l: Leg, js: Js): (v: Value)
    ensures v.DictV?
  {
    Dict(LegItems(l, js))
  }

  /** What the backend reads from a leg the page sent, key by key. */
  lemma LegField(l: Leg, js: Js, key: string)
    ensures Lookup(LegValue(l, js).entries, KStr(key)) ==
              if key == "ticker" then Some(StrV(l.ticker))
              else if key == "expiry" then Some(StrV(l.expiry))
              else if key == "strike" then Some(JsonNumber(LegStrike(l, js)))
              else if key == "option_type" then Some(StrV(l.optionType))
              else if key == "qty" then Some(JsonNumber(LegQty(l, js)))
              else if key == "spot" && l.spot.Some? then Some(JsonNumber(l.spot.value))
              else None
  {
    var t4 := [("qty", JsonNumber(LegQty(l, js)))] + SpotItems(l);
    var t3 := [("option_type", StrV(l.optionType))] + t4;
    var t2 := [("strike", JsonNumber(LegStrike(l, js)))] + t3;
    var t1 := [("expiry", StrV(l.expiry))] + t2;
    DictCons("ticker", StrV(l.ticker), t1, key);
    DictCons("expiry", StrV(l.expiry), t2, key);
    DictCons("strike", JsonNumber(LegStrike(l, js)), t3, key);
    DictCons("option_type", StrV(l.optionType), t4, key);
    DictCons("qty", JsonNumber(LegQty(l, js)), SpotItems(l), key);
    if l.spot.Some? {
      DictCons("spot", JsonNumber(l.spot.value), [], key);
    }
  }

  function LegValues(legs: seq<Leg>, js: Js): (vs: seq<Value>)
    ensures |vs| == |legs| && forall k :: 0 <= k < |legs| ==> vs[k] == LegValue(legs[k], js)
  {
    seq(|legs|, k requires 0 <= k < |legs| => LegValue(legs[k], js))
  }

  function ChainItems(legs: seq<Leg>, js: Js): seq<(string, Value)>
  {
    [("r", JsonNumber(Finite(0.01)))] + ([("q", JsonNumber(Finite(0.0)))] + ([("save_paths", BoolV(true))]
    + ([("num_paths", JsonNumber(Finite(50000.0)))] + ([("num_steps", JsonNumber(Finite(252.0)))]
    + [("legs", ListV(LegValues(legs, js)))]))))
  }

  /** The chain-mode params. */
  function ChainParams(legs: seq<Leg>, js: Js): (v: Value)
    ensures v.DictV? && |v.entries| == 6
  {
    Dict(ChainItems(legs, js))
  }

  /** What the backend reads from chain-mode params, key by key. */
  lemma ChainField(legs: seq<Leg>, js: Js, key: string)
    ensures Lookup(ChainParams(legs, js).entries, KStr(key)) ==
              if key == "r" then Some(FloatV(Finite(0.01)))
              else if key == "q" then Some(IntV(0))
              else if key == "save_paths" then Some(BoolV(true))
              else if key == "num_paths" then Some(IntV(50000))
              else if key == "num_steps" then Some(IntV(252))
              else if key == "legs" then Some(ListV(LegValues(legs, js)))
              else None
  {
    var t5 := [("legs", ListV(LegValues(legs, js)))];
    var t4 := [("num_steps", JsonNumber(Finite(252.0)))] + t5;
    var t3 := [("num_paths", JsonNumber(Finite(50000.0)))] + t4;
    var t2 := [("save_paths", BoolV(true))] + t3;
    var t1 := [("q", JsonNumber(Finite(0.0)))] + t2;
    DictCons("r", JsonNumber(Finite(0.01)), t1, key);
    DictCons("q", JsonNumber(Finite(0.0)), t2, key);
    DictCons("save_paths", BoolV(true), t3, key);
    DictCons("num_paths", JsonNumber(Finite(50000.0)), t4, key);
    DictCons("num_steps", JsonNumber(Finite(252.0)), t5, key);
    DictCons("legs", ListV(LegValues(legs, js)), [], key);
    assert (0.01).Floor == 0;
  }

  /** A chain-mode submission with at least one leg takes the backend's multi-leg branch,
      with the page's legs as the list it prices. */
  lemma ChainSubmissionIsMultiLeg(legs: seq<Leg>, js: Js, b: Builtins)
    requires |legs| > 0
    ensures ChooseBranch(StrV("European"), ChainParams(legs, js).entries, b) == MultiLeg(ListV(LegValues(legs, js)))
  {
    var p := ChainParams(legs, js).entries;
    var vs := ListV(LegValues(legs, js));
    ChainField(legs, js, "legs");
    assert Field(p, "legs") == vs;
    assert Truthy(vs);
    assert EuropeanProduct(StrV("European"));
  }

  /** What the backend reads from chain-mode params: r 0.01, q 0, save_paths true, and 252
      steps and 50000 paths for every leg the page built. */
  lemma ChainParamsReadBack(legs: seq<Leg>, l: Leg, js: Js, b: Builtins)
    ensures var p := ChainParams(legs, js).entries;
            var e := LegValue(l, js).entries;
            ToFloat(FieldOr(p, "r", FloatV(Finite(0.01))), b) == Ok(Finite(0.01))
            && ToFloat(FieldOr(p, "q", FloatV(Zero)), b) == Ok(Finite(0.0))
            && IsTrueFlag(FieldOr(p, "save_paths", StrV("false")), b)
            && LegSteps(b, e, p) == Ok(252) && LegPaths(b, e, p) == Ok(50000)
  {
    var p := ChainParams(legs, js).entries;
    var e := LegValue(l, js).entries;
    ChainRunFields(legs, js);
    LegRunFields(l, js);
    assert ToInt(Field(p, "num_steps"), b) == Ok(252);
    assert ToInt(Field(p, "num_paths"), b) == Ok(50000);
    FlagValues(b);
  }

  /** The run settings of chain-mode params, as the backend reads them. */
  lemma ChainRunFields(legs: seq<Leg>, js: Js)
    ensures var p := ChainParams(legs, js).entries;
            FieldOr(p, "r", FloatV(Finite(0.01))) == FloatV(Finite(0.01))
            && FieldOr(p, "q", FloatV(Zero)) == IntV(0)
            && FieldOr(p, "save_paths", StrV("false")) == BoolV(true)
            && HasKey(p, KStr("num_paths")) && Field(p, "num_paths") == IntV(50000)
            && HasKey(p, KStr("num_steps")) && Field(p, "num_steps") == IntV(252)
  {
    ChainField(legs, js, "r");
    ChainField(legs, js, "q");
    ChainField(legs, js, "save_paths");
    ChainField(legs, js, "num_paths");
    ChainField(legs, js, "num_steps");
  }

  /** A page leg carries no run settings of its own. */
  lemma LegRunFields(l: Leg, js: Js)
    ensures var e := LegValue(l, js).entries;
            !HasKey(e, KStr("num_steps")) && !HasKey(e, KStr("num_paths"))
  {
    LegField(l, js, "num_steps");
    LegField(l, js, "num_paths");
  }

  /** The four fields the backend's leg check reads. */
  lemma CheckedLegFields(l: Leg, js: Js)
    ensures var e := LegValue(l, js).entries;
            FieldOr(e, "ticker", StrV("")) == StrV(l.ticker)
            && FieldOr(e, "expiry", StrV("")) == StrV(l.expiry)
            && Field(e, "strike") == JsonNumber(LegStrike(l, js))
            && FieldOr(e, "qty", FloatV(Finite(1.0))) == JsonNumber(LegQty(l, js))
  {
    LegField(l, js, "ticker");
    LegField(l, js, "expiry");
    LegField(l, js, "strike");
    LegField(l, js, "qty");
  }

  /** A page leg with finite numbers passes the backend's leg check exactly when its
      normalised ticker and its expiry are non-empty and its strike is not 0. */
  lemma LegAccepted(l: Leg, js: Js, b: Builtins, idx: nat)
    requires LegStrike(l, js).Finite? && LegQty(l, js).Finite?
    ensures ParseLeg(b, idx, LegValue(l, js)).Ok? <==>
              NormalizeText(l.ticker) != "" && l.expiry != "" && LegStrike(l, js) != Finite(0.0)
  {
    var e := LegValue(l, js).entries;
    CheckedLegFields(l, js);
    JsonNumberFloatRoundTrip(LegStrike(l, js), b);
    JsonNumberFloatRoundTrip(LegQty(l, js), b);
    assert Str(FieldOr(e, "ticker", StrV("")), b.floatRepr) == l.ticker;
    assert Str(FieldOr(e, "expiry", StrV("")), b.floatRepr) == l.expiry;
    assert ToFloat(Field(e, "strike"), b) == Ok(LegStrike(l, js));
    LegValidation(b, idx, e);
  }

  /** A leg submitted with a blank strike is sent with strike 0, and the backend fails
      the job naming that leg. */
  lemma BlankStrikeRejected(l: Leg, js: Js, b: Builtins, idx: nat)
    requires !FormTruthy(l.strike) && LegQty(l, js).Finite?
    ensures ParseLeg(b, idx, LegValue(l, js)) == Err(LegRequiredMessage(idx))
  {
    LegField(l, js, "strike");
    LegField(l, js, "qty");
    JsonNumberFloatRoundTrip(LegStrike(l, js), b);
    JsonNumberFloatRoundTrip(LegQty(l, js), b);
    LegValidation(b, idx, LegValue(l, js).entries);
  }

  // ---------------------------------------------------------------------------
  // Params of a historical submission
  // ---------------------------------------------------------------------------

  /** The historical-mode inputs; `None` is the blank `''` of a `number | ''` input. */
  datatype HistForm = HistForm(ticker: string, k: Option<Num>, otype: string, maturity: string, t: Option<Num>,
                               r: Num, q: Num, sigma: Option<Num>, steps: Num, paths: Num)

  /** `Number(x)` of a `number | ''` value. */
  function NumberOfOptional(x: Option<Num>): Num
  {
    if x.Some? then x.value else Finite(0.0)
  }

  /** The eight keys every historical request carries, followed by `extra`. */
  function HistItems(h: HistForm, extra: seq<(string, Value)>): seq<(string, Value)>
  {
    [("use_chain", BoolV(false))] + ([("ticker", StrV(UiTicker(h.ticker)))] + ([("option_type", StrV(h.otype))]
    + ([("strike", JsonNumber(NumberOfOptional(h.k)))] + ([("r", JsonNumber(h.r))] + ([("q", JsonNumber(h.q))]
    + ([("num_steps", JsonNumber(h.steps))] + ([("num_paths", JsonNumber(h.paths))] + extra)))))))
  }

  function SigmaItems(h: HistForm): seq<(string, Value)>
  {
    if h.sigma.Some? then [("sigma", JsonNumber(h.sigma.value))] else []
  }

  function MaturityItems(h: HistForm): seq<(string, Value)>
  {
    if h.maturity != "" then [("expiry", StrV(h.maturity))]
    else if h.t.Some? then [("T", JsonNumber(h.t.value))]
    else []
  }

  /** The historical-mode params: the eight fixed keys, then sigma when given, then the
      maturity date when set or else T when given. */
  function HistoricalParams(h: HistForm): (v: Value)
    ensures v.DictV?
  {
    Dict(HistItems(h, SigmaItems(h) + MaturityItems(h)))
  }

  /** The optional keys: sigma when given, expiry when a date is set, T when no date is
      set and T was given. */
  lemma HistExtraField(h: HistForm, key: string)
    ensures Lookup(Dict(SigmaItems(h) + MaturityItems(h)).entries, KStr(key)) ==
              if key == "sigma" && h.sigma.Some? then Some(JsonNumber(h.sigma.value))
              else if key == "expiry" && h.maturity != "" then Some(StrV(h.maturity))
              else if key == "T" && h.maturity == "" && h.t.Some? then Some(JsonNumber(h.t.value))
              else None
  {
    DictConcatLookup(SigmaItems(h), MaturityItems(h), key);
    if h.sigma.Some? {
      DictCons("sigma", JsonNumber(h.sigma.value), [], key);
    }
    if h.maturity != "" {
      DictCons("expiry", StrV(h.maturity), [], key);
    } else if h.t.Some? {
      DictCons("T", JsonNumber(h.t.value), [], key);
    }
  }

  /** What the backend reads from historical params, key by key. */
  lemma HistField(h: HistForm, key: string)
    ensures Lookup(HistoricalParams(h).entries, KStr(key)) ==
              if key == "use_chain" then Some(BoolV(false))
              else if key == "ticker" then Some(StrV(UiTicker(h.ticker)))
              else if key == "option_type" then Some(StrV(h.otype))
              else if key == "strike" then Some(JsonNumber(NumberOfOptional(h.k)))
              else if key == "r" then Some(JsonNumber(h.r))
              else if key == "q" then Some(JsonNumber(h.q))
              else if key == "num_steps" then Some(JsonNumber(h.steps))
              else if key == "num_paths" then Some(JsonNumber(h.paths))
              else Lookup(Dict(SigmaItems(h) + MaturityItems(h)).entries, KStr(key))
  {
    var x := SigmaItems(h) + MaturityItems(h);
    var t7 := [("num_paths", JsonNumber(h.paths))] + x;
    var t6 := [("num_steps", JsonNumber(h.steps))] + t7;
    var t5 := [("q", JsonNumber(h.q))] + t6;
    var t4 := [("r", JsonNumber(h.r))] + t5;
    var t3 := [("strike", JsonNumber(NumberOfOptional(h.k)))] + t4;
    var t2 := [("option_type", StrV(h.otype))] + t3;
    var t1 := [("ticker", StrV(UiTicker(h.ticker)))] + t2;
    DictCons("use_chain", BoolV(false), t1, key);
    DictCons("ticker", StrV(UiTicker(h.ticker)), t2, key);
    DictCons("option_type", StrV(h.otype), t3, key);
    DictCons("strike", JsonNumber(NumberOfOptional(h.k)), t4, key);
    DictCons("r", JsonNumber(h.r), t5, key);
    DictCons("q", JsonNumber(h.q), t6, key);
    DictCons("num_steps", JsonNumber(h.steps), t7, key);
    DictCons("num_paths", JsonNumber(h.paths), x, key);
  }

  /** Which optional keys the historical params carry: sigma exactly when it was given,
      expiry exactly when a date is set, T exactly when no date is set and T was given,
      so never both; there are no legs and no save_paths. */
  lemma HistoricalKeys(h: HistForm)
    ensures var e := HistoricalParams(h).entries;
            (HasKey(e, KStr("sigma")) <==> h.sigma.Some?)
            && (HasKey(e, KStr("expiry")) <==> h.maturity != "")
            && (HasKey(e, KStr("T")) <==> h.maturity == "" && h.t.Some?)
            && !(HasKey(e, KStr("expiry")) && HasKey(e, KStr("T")))
            && !HasKey(e, KStr("legs")) && !HasKey(e, KStr("save_paths"))
  {
    HistField(h, "sigma");
    HistExtraField(h, "sigma");
    HistField(h, "expiry");
    HistExtraField(h, "expiry");
    HistField(h, "T");
    HistExtraField(h, "T");
    HistField(h, "legs");
    HistExtraField(h, "legs");
    HistField(h, "save_paths");
    HistExtraField(h, "save_paths");
  }

  /** A historical submission takes the backend's historical branch. */
  lemma HistoricalSubmissionBranch(h: HistForm, b: Builtins)
    ensures ChooseBranch(StrV("European"), HistoricalParams(h).entries, b) == Historical
  {
    HistoricalKeys(h);
    HistField(h, "use_chain");
    FlagValues(b);
  }

  /** The maturity the backend prices with: the date's year fraction when a date is set,
      else the T that was given, else its default 0.5. */
  lemma HistoricalMaturity(h: HistForm, m: Market, b: Builtins)
    requires h.t.Some? ==> h.t.value.Finite?
    ensures HistMaturity(m, b, HistoricalParams(h).entries) ==
              if h.maturity != "" then m.yearsTo(StrV(h.maturity))
              else if h.t.Some? then Ok(h.t.value)
              else Ok(Finite(0.5))
  {
    var p := HistoricalParams(h).entries;
    MaturityFields(h);
    if h.maturity != "" {
      assert Truthy(StrV(h.maturity));
    } else if h.t.Some? {
      JsonNumberFloatRoundTrip(h.t.value, b);
    }
  }

  /** The maturity keys of historical params: expiry when a date is set, else T when given. */
  lemma MaturityFields(h: HistForm)
    ensures var p := HistoricalParams(h).entries;
            (h.maturity != "" ==> HasKey(p, KStr("expiry")) && Field(p, "expiry") == StrV(h.maturity))
            && (h.maturity == "" ==> !HasKey(p, KStr("expiry")))
            && (h.maturity == "" && h.t.Some? ==> HasKey(p, KStr("T")) && Field(p, "T") == JsonNumber(h.t.value))
            && (h.maturity == "" && h.t.None? ==> !HasKey(p, KStr("T")))
  {
    HistField(h, "expiry");
    HistExtraField(h, "expiry");
    HistField(h, "T");
    HistExtraField(h, "T");
  }

  // ---------------------------------------------------------------------------
  // The page state
  // ---------------------------------------------------------------------------

  class OptionsForm {
    var clientId: string
    var portfolioId: string
    var product: string
    var algo: string
    var useChain: bool
    var legs: seq<Leg>
    var expiriesByTicker: map<string, seq<string>>
    var strikesByKey: map<string, seq<real>>
    var hTicker: string
    var hK: Option<Num>
    var hOtype: string
    var hMaturity: string
    var hT: Option<Num>
    var hR: Num
    var hQ: Num
    var hSigma: Option<Num>
    var hSteps: Num
    var hPaths: Num
    var hSpot: Option<Num>

    /** A maturity date and a T are never both set. */
    ghost predicate Valid()
      reads this
    {
      !(hMaturity != "" && hT.Some?)
    }

    /** The initial state of the page. */
    constructor ()
      ensures Valid()
      ensures legs == [DefaultLeg] && product == "European" && algo == "BlackScholes" && useChain
      ensures clientId == "" && portfolioId == "" && expiriesByTicker == map[] && strikesByKey == map[]
      ensures hTicker == "AAPL" && hK.None? && hOtype == "CALL" && hMaturity == "" && hT.None?
      ensures hR == Finite(0.01) && hQ == Finite(0.0) && hSigma.None?
      ensures hSteps == Finite(252.0) && hPaths == Finite(50000.0) && hSpot.None?
    {
      clientId, portfolioId := "", "";
      product, algo, useChain := "European", "BlackScholes", true;
      legs := [DefaultLeg];
      expiriesByTicker, strikesByKey := map[], map[];
      hTicker, hK, hOtype := "AAPL", None, "CALL";
      hMaturity, hT := "", None;
      hR, hQ, hSigma := Finite(0.01), Finite(0.0), None;
      hSteps, hPaths, hSpot := Finite(252.0), Finite(50000.0), None;
    }

    method AddLeg()
      modifies this`legs
      ensures legs == old(legs) + [DefaultLeg]
    {
      legs := legs + [DefaultLeg];
    }

    method RemoveLeg(i: int)
      modifies this`legs
      ensures legs == Without(old(legs), i)
    {
      legs := Without(legs, i);
    }

    /** updateLeg: `changed` says the merged leg differs, which is when the list is
        replaced; otherwise the list is left as it was. */
    method UpdateLeg(i: nat, p: Patch) returns (changed: bool)
      requires i < |legs|
      modifies this`legs
      ensures legs == UpdatedLegs(old(legs), i, p)
      ensures changed <==> legs != old(legs)
    {
      var merged := Merge(legs[i], p);
      if merged != legs[i] {
        legs := legs[i := merged];
        changed := true;
      } else {
        changed := false;
      }
    }

    /** fetchExpiries: a failed request or one without expirations caches an empty list. */
    method FetchExpiries(tkr: string, reply: Option<seq<string>>)
      modifies this`expiriesByTicker
      ensures tkr == "" ==> expiriesByTicker == old(expiriesByTicker)
      ensures tkr != "" ==> expiriesByTicker == old(expiriesByTicker)[tkr := if reply.Some? then reply.value else []]
    {
      if tkr != "" {
        expiriesByTicker := expiriesByTicker[tkr := if reply.Some? then reply.value else []];
      }
    }

    /** fetchSpot: a price found is shown on the leg, or on the historical form when no
        leg is named. */
    method FetchSpot(tkr: string, i: Option<nat>, price: Option<Num>)
      requires i.Some? ==> i.value < |legs|
      modifies this`legs, this`hSpot
      ensures tkr == "" || price.None? ==> legs == old(legs) && hSpot == old(hSpot)
      ensures tkr != "" && price.Some? && i.None? ==> hSpot == price && legs == old(legs)
      ensures tkr != "" && price.Some? && i.Some? ==>
                legs == UpdatedLegs(old(legs), i.value, SpotPatch(price.value)) && hSpot == old(hSpot)
    {
      if tkr != "" && price.Some? {
        if i.None? {
          hSpot := price;
        } else {
          var _ := UpdateLeg(i.value, SpotPatch(price.value));
        }
      }
    }

    /** onTickerBlur: the cleaned ticker replaces the leg's, then its expirations and its
        spot are fetched. */
    method OnTickerBlur(i: nat, t: string, expirations: Option<seq<string>>, price: Option<Num>)
      requires i < |legs|
      modifies this`legs, this`expiriesByTicker, this`hSpot
      ensures var tkr := UiTicker(t);
              var renamed := UpdatedLegs(old(legs), i, TickerPatch(tkr));
              |legs| == |old(legs)| && legs[i].ticker == tkr
              && (tkr != "" && price.Some? ==> legs == UpdatedLegs(renamed, i, SpotPatch(price.value)))
              && (tkr == "" || price.None? ==> legs == renamed)
              && (tkr != "" ==> expiriesByTicker == old(expiriesByTicker)[tkr := if expirations.Some? then expirations.value else []])
              && (tkr == "" ==> expiriesByTicker == old(expiriesByTicker))
              && hSpot == old(hSpot)
    {
      var tkr := UiTicker(t);
      var _ := UpdateLeg(i, TickerPatch(tkr));
      FetchExpiries(tkr, expirations);
      FetchSpot(tkr, Some(i), price);
    }

    /** onExpiryChange followed by the fetchStrikes it starts, as written: the default
        strike is decided on the strike read before the change. */
    method OnExpiryChangeAsWritten(i: nat, exp: string, ch: Chain)
      requires i < |legs|
      modifies this`legs, this`strikesByKey
      ensures legs == ExpiryChangedAsWritten(old(legs), i, exp, ch)
      ensures old(legs)[i].ticker != "" && exp != "" ==>
                strikesByKey == old(strikesByKey)[StrikeKey(old(legs)[i].ticker, exp) := StrikeList(ch.calls, ch.puts)]
      ensures !(old(legs)[i].ticker != "" && exp != "") ==> strikesByKey == old(strikesByKey)
    {
      var seen := legs[i];
      var _ := UpdateLeg(i, ExpiryPatch(exp));
      if seen.ticker != "" && exp != "" {
        var u := StrikeList(ch.calls, ch.puts);
        strikesByKey := strikesByKey[StrikeKey(seen.ticker, exp) := u];
        if !FormTruthy(seen.strike) && |u| > 0 {
          var _ := UpdateLeg(i, StrikePatch(Num(Finite(MiddleStrike(u)))));
        }
      }
    }

    /** onExpiryChange followed by fetchStrikes, reading the leg's current strike. */
    method OnExpiryChange(i: nat, exp: string, ch: Chain)
      requires i < |legs|
      modifies this`legs, this`strikesByKey
      ensures legs == ExpiryChanged(old(legs), i, exp, ch)
      ensures old(legs)[i].ticker != "" && exp != "" ==>
                strikesByKey == old(strikesByKey)[StrikeKey(old(legs)[i].ticker, exp) := StrikeList(ch.calls, ch.puts)]
      ensures !(old(legs)[i].ticker != "" && exp != "") ==> strikesByKey == old(strikesByKey)
    {
      var tkr := legs[i].ticker;
      var _ := UpdateLeg(i, ExpiryPatch(exp));
      if tkr != "" && exp != "" {
        var u := StrikeList(ch.calls, ch.puts);
        strikesByKey := strikesByKey[StrikeKey(tkr, exp) := u];
        if !FormTruthy(legs[i].strike) && |u| > 0 {
          var _ := UpdateLeg(i, StrikePatch(Num(Finite(MiddleStrike(u)))));
        }
      }
    }

    /** Editing the maturity date clears T. */
    method SetMaturity(d: string)
      modifies this`hMaturity, this`hT
      ensures hMaturity == d && hT.None? && Valid()
    {
      hMaturity, hT := d, None;
    }

    /** Editing T clears the maturity date; a blank input leaves T blank. */
    method SetT(s: string, js: Js)
      modifies this`hMaturity, this`hT
      ensures hMaturity == "" && Valid()
      ensures hT == if s == "" then None else Some(js.parseNumber(s))
    {
      hT := if s == "" then None else Some(js.parseNumber(s));
      hMaturity := "";
    }

    function Form(): HistForm
      reads this
    {
      HistForm(hTicker, hK, hOtype, hMaturity, hT, hR, hQ, hSigma, hSteps, hPaths)
    }

    /** submit: a chain-mode or historical request for a European product, nothing for
        any other product. */
    method Submit(js: Js) returns (req: Option<Value>)
      ensures product != "European" <==> req.None?
      ensures product == "European" && useChain ==>
                req == Some(JobRequest(StrV("OptionPricing"), StrV(product), StrV(algo), StrV("Normal"),
                                       StrV(clientId), StrV(portfolioId), StrV("You"), ChainParams(legs, js)))
      ensures product == "European" && !useChain ==>
                req == Some(JobRequest(StrV("OptionPricing"), StrV(product), StrV(algo), StrV("Normal"),
                                       StrV(clientId), StrV(portfolioId), StrV("You"), HistoricalParams(Form())))
    {
      if product == "European" && useChain {
        var params := ChainParams(legs, js);
        req := Some(JobRequest(StrV("OptionPricing"), StrV(product), StrV(algo), StrV("Normal"),
                               StrV(clientId), StrV(portfolioId), StrV("You"), params));
        return;
      }
      if product == "European" && !useChain {
        var extra: seq<(string, Value)> := [];
        if hSigma.Some? {
          extra := extra + [("sigma", JsonNumber(hSigma.value))];
        }
        if hMaturity != "" {
          extra := extra + [("expiry", StrV(hMaturity))];
        } else if hT.Some? {
          extra := extra + [("T", JsonNumber(hT.value))];
        }
        assert extra == SigmaItems(Form()) + MaturityItems(Form());
        req := Some(JobRequest(StrV("OptionPricing"), StrV(product), StrV(algo), StrV("Normal"),
                               StrV(clientId), StrV(portfolioId), StrV("You"), Dict(HistItems(Form(), extra))));
        return;
      }
      req := None;
    }
  }
}
