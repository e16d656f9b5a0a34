/** backend/tasks/option_pricing.py: the run_option_job task.  It writes "Running",
    picks one of four branches (multi-leg, option-chain single, historical single,
    unsupported), validates and defaults its parameters, prices through functions the
    model leaves uninterpreted, and ends with one "Succeeded" or "Failed" write.
    The market data (yfinance behind the Redis cache), the clock behind `_infer_T` and
    the closed-form and Monte-Carlo numerics are the fields of `Market`. */
module OptionPricing {
  import opened Base
  import opened Floats
  import opened PyValue
  import opened Sanitize
  import opened Jobs

  // ---------------------------------------------------------------------------
  // What the Celery task calls but the model does not interpret
  // ---------------------------------------------------------------------------

  /** What `_yf_price_and_vol_from_chain` reads for an already normalised ticker: the
      cached spot (`float(px) if px else None`), the implied volatility of the chain row
      nearest the strike (`or 0.0`), and whether the chain was empty. */
  datatype ChainQuote = ChainQuote(spot: Option<Num>, iv: Num, empty: bool)

  /** The arguments black_scholes and european_mc_price share, in the source's order. */
  datatype Inputs = Inputs(s0: Num, k: Num, t: Num, r: Num, sigma: Num, otype: string, q: Num)

  datatype Market = Market(
    chainQuote: (string, string, Num, string) -> ChainQuote,  // ticker, expiry, strike, otype
    histVol: string -> Option<Num>,       // 1y close-to-close vol * sqrt(252); None without history
    fastPrice: string -> Option<Num>,     // fast_info last_price or regularMarketPrice
    lastClose: string -> Option<Num>,     // last close of the 5-day history; None when empty
    inferT: string -> Num,                // _infer_T of an expiry string
    yearsTo: Value -> Result<Num>,        // max(1e-6, days to fromisoformat(expiry) / 365)
    bsFormula: Inputs -> Num,             // black_scholes past its guard
    mcEstimate: (Inputs, int, int) -> (Num, Num),  // european_mc_price's (price, stderr) for paths, steps
    storePaths: string -> Value)          // the file id save_paths_npz returns for a job id

  /** What one task invocation works with besides its parameters. */
  datatype Ctx = Ctx(market: Market, b: Builtins, jobId: string, algo: Value)

  /** black_scholes: 0.0 as soon as T, sigma, S0 or K is not positive. */
  function BlackScholes(m: Market, a: Inputs): (price: Num)
    ensures Le(a.t, Zero) || Le(a.sigma, Zero) || Le(a.s0, Zero) || Le(a.k, Zero) ==> price == Zero
  {
    if Le(a.t, Zero) || Le(a.sigma, Zero) || Le(a.s0, Zero) || Le(a.k, Zero) then Zero
    else m.bsFormula(a)
  }

  /** The guard compares with `<=`, which is false for NaN: a NaN volatility reaches the
      closed form instead of yielding 0.0. */
  lemma {:induction false} NaNVolatilityPassesGuard(m: Market, a: Inputs)
    requires Positive(a.t) && Positive(a.s0) && Positive(a.k)
    ensures BlackScholes(m, a.(sigma := NaN)) == m.bsFormula(a.(sigma := NaN))
  {
    assert !Le(NaN, Zero);
  }

  /** A price, its standard error and the stored-paths record (None when none was stored). */
  datatype Priced = Priced(price: Option<Num>, stderr: Option<Num>, pathsMeta: Value)

  /** The texts of the two exceptions european_mc_paths can raise before it draws. */
  const FloatDivisionByZero := "float division by zero"
  const NegativeDimensions := "negative dimensions are not allowed"

  /** european_mc_paths' shape checks: `T / steps` raises ZeroDivisionError for 0 steps,
      and `np.empty((paths, steps + 1))` or `np.random.normal(size=(paths, steps))` raises
      ValueError for a negative dimension. */
  function McShapeError(paths: int, steps: int): (e: Option<string>)
    ensures e.None? <==> steps > 0 && paths >= 0
    ensures steps == 0 ==> e == Some(FloatDivisionByZero)
    ensures steps != 0 && e.Some? ==> e == Some(NegativeDimensions)
  {
    if steps == 0 then Some(FloatDivisionByZero)
    else if steps < 0 || paths < 0 then Some(NegativeDimensions)
    else None
  }

  /** european_mc_price: the shape errors, or the estimate plus a paths record only when
      asked to save and given a non-empty job id; the record counts `paths` rows and
      `steps + 1` columns. */
  function EuropeanMc(m: Market, a: Inputs, paths: int, steps: int, save: bool, jobId: Option<string>): (r: Result<Priced>)
    ensures r.Err? <==> McShapeError(paths, steps).Some?
    ensures r.Err? ==> r.msg == McShapeError(paths, steps).value
    ensures r.Ok? ==> r.value.price.Some? && r.value.stderr.Some?
    ensures r.Ok? ==> (Truthy(r.value.pathsMeta) <==> save && jobId.Some? && jobId.value != "")
    ensures r.Ok? && !Truthy(r.value.pathsMeta) ==> r.value.pathsMeta == NoneV
    ensures r.Ok? && Truthy(r.value.pathsMeta) ==>
              r.value.pathsMeta.DictV?
              && Lookup(r.value.pathsMeta.entries, KStr("gridfs_id")) == Some(m.storePaths(jobId.value))
              && Lookup(r.value.pathsMeta.entries, KStr("n_paths")) == Some(IntV(paths))
              && Lookup(r.value.pathsMeta.entries, KStr("steps")) == Some(IntV(steps + 1))
  {
    var shape := McShapeError(paths, steps);
    if shape.Some? then Err(shape.value) else
    var est := m.mcEstimate(a, paths, steps);
    if save && jobId.Some? && jobId.value != "" then
      var meta := Dict([("gridfs_id", m.storePaths(jobId.value)), ("n_paths", IntV(paths)), ("steps", IntV(steps + 1))]);
      assert meta.entries == [(KStr("gridfs_id"), m.storePaths(jobId.value)), (KStr("n_paths"), IntV(paths)),
                              (KStr("steps"), IntV(steps + 1))];
      assert meta.entries[1..] == [(KStr("n_paths"), IntV(paths)), (KStr("steps"), IntV(steps + 1))];
      assert meta.entries[1..][1..] == [(KStr("steps"), IntV(steps + 1))];
      assert Lookup(meta.entries[1..][1..], KStr("steps")) == Some(IntV(steps + 1));
      assert Lookup(meta.entries[1..], KStr("steps")) == Some(IntV(steps + 1));
      Ok(Priced(Some(est.0), Some(est.1), meta))
    else Ok(Priced(Some(est.0), Some(est.1), NoneV))
  }

  /** The algo switch every branch shares: BlackScholes has stderr 0.0 and stores no paths,
      MonteCarlo simulates and fails exactly on the shape errors, any other algo (the QAE
      placeholder) prices nothing. */
  function PriceBy(ctx: Ctx, a: Inputs, paths: int, steps: int, save: bool, jobId: Option<string>): (r: Result<Priced>)
    ensures r.Err? <==> ctx.algo == StrV("MonteCarlo") && McShapeError(paths, steps).Some?
    ensures r.Err? ==> r.msg == McShapeError(paths, steps).value
    ensures r.Ok? ==> (r.value.price.Some? <==> ctx.algo == StrV("BlackScholes") || ctx.algo == StrV("MonteCarlo"))
    ensures r.Ok? ==> (r.value.stderr.Some? <==> r.value.price.Some?)
    ensures ctx.algo == StrV("BlackScholes") ==> r == Ok(Priced(Some(BlackScholes(ctx.market, a)), Some(Zero), NoneV))
    ensures ctx.algo == StrV("MonteCarlo") ==> r == EuropeanMc(ctx.market, a, paths, steps, save, jobId)
    ensures r.Ok? && Truthy(r.value.pathsMeta) ==> ctx.algo == StrV("MonteCarlo") && save && jobId.Some? && jobId.value != ""
    ensures r.Ok? && !Truthy(r.value.pathsMeta) ==> r.value.pathsMeta == NoneV
  {
    if ctx.algo == StrV("BlackScholes") then Ok(Priced(Some(BlackScholes(ctx.market, a)), Some(Zero), NoneV))
    else if ctx.algo == StrV("MonteCarlo") then EuropeanMc(ctx.market, a, paths, steps, save, jobId)
    else Ok(Priced(None, None, NoneV))
  }

  // ---------------------------------------------------------------------------
  // Flags
  // ---------------------------------------------------------------------------

  /** `str(v).lower() in ("1", "true", "yes", "on")`, as for save_paths and use_chain. */
  predicate IsTrueFlag(v: Value, b: Builtins)
  {
    Lower(Str(v, b.floatRepr)) in {"1", "true", "yes", "on"}
  }

  /** `str(v).lower() in ("0", "false", "no", "off")`, the historical branch's guard. */
  predicate IsFalseFlag(v: Value, b: Builtins)
  {
    Lower(Str(v, b.floatRepr)) in {"0", "false", "no", "off"}
  }

  /** A flag is read case-insensitively from its `str`; a JSON true, the integer 1 and the
      browser's checkbox value "on" are true, while "y" is neither true nor false. */
  lemma FlagValues(b: Builtins)
    ensures IsTrueFlag(StrV("on"), b) && IsTrueFlag(StrV("TRUE"), b) && IsTrueFlag(StrV("Yes"), b)
    ensures IsTrueFlag(BoolV(true), b) && IsTrueFlag(IntV(1), b)
    ensures IsFalseFlag(StrV("false"), b) && IsFalseFlag(BoolV(false), b) && IsFalseFlag(StrV("OFF"), b)
    ensures !IsTrueFlag(StrV("y"), b) && !IsFalseFlag(StrV("y"), b)
    ensures !IsTrueFlag(StrV(""), b) && !IsFalseFlag(StrV(""), b)
  {
    assert Lower("on") == "on";
    assert Lower("TRUE") == "true";
    assert Lower("Yes") == "yes";
    assert Lower("True") == "true";
    assert Lower("1") == "1";
    assert Str(IntV(1), b.floatRepr) == "1" by {
      assert NatToString(1) == [DigitChar(1)];
    }
    assert Lower("false") == "false";
    assert Lower("False") == "false";
    assert Lower("OFF") == "off";
    assert Lower("y") == "y";
    assert Lower("") == "";
  }

  /** No value is both a true and a false flag. */
  lemma FlagsExclusive(v: Value, b: Builtins)
    ensures !(IsTrueFlag(v, b) && IsFalseFlag(v, b))
  {
  }

  // ---------------------------------------------------------------------------
  // Branch selection
  // ---------------------------------------------------------------------------

  datatype Branch = MultiLeg(legs: Value) | ChainSingle | Historical | Unsupported

  /** `product in (None, "", "European")`. */
  predicate EuropeanProduct(product: Value)
  {
    product == NoneV || product == StrV("") || product == StrV("European")
  }

  function UseChain(p: seq<(Key, Value)>): Value
  {
    FieldOr(p, "use_chain", StrV("false"))
  }

  /** Which branch a params dict takes: truthy legs first, then a true use_chain, then a
      false one; a product other than None/""/European never gets past the last check. */
  function ChooseBranch(product: Value, p: seq<(Key, Value)>, b: Builtins): (r: Branch)
    ensures r.MultiLeg? <==> EuropeanProduct(product) && Truthy(Field(p, "legs"))
    ensures r.MultiLeg? ==> r.legs == Field(p, "legs")
    ensures r == ChainSingle <==>
              EuropeanProduct(product) && !Truthy(Field(p, "legs")) && IsTrueFlag(UseChain(p), b)
    ensures r == Historical <==>
              EuropeanProduct(product) && !Truthy(Field(p, "legs")) && IsFalseFlag(UseChain(p), b)
    ensures r == Unsupported <==>
              !EuropeanProduct(product)
              || (!Truthy(Field(p, "legs")) && !IsTrueFlag(UseChain(p), b) && !IsFalseFlag(UseChain(p), b))
  {
    var legs := Field(p, "legs");
    if Truthy(legs) && EuropeanProduct(product) then MultiLeg(legs)
    else if EuropeanProduct(product) && IsTrueFlag(UseChain(p), b) then ChainSingle
    else if EuropeanProduct(product) && IsFalseFlag(UseChain(p), b) then Historical
    else Unsupported
  }

  /** With neither legs nor use_chain, a European job is priced from history. */
  lemma {:induction false} DefaultBranchIsHistorical(product: Value, p: seq<(Key, Value)>, b: Builtins)
    requires EuropeanProduct(product)
    requires !HasKey(p, KStr("legs")) && !HasKey(p, KStr("use_chain"))
    ensures ChooseBranch(product, p, b) == Historical
  {
    assert Lower("false") == "false";
  }

  // ---------------------------------------------------------------------------
  // One leg
  // ---------------------------------------------------------------------------

  /** A leg's own fields, once converted and checked. */
  datatype LegInput = LegInput(otype: string, ticker: string, expiry: string, strike: Num, qty: Num)

  function LegRequiredMessage(idx: nat): string
  {
    "Leg " + IntToString(idx + 1) + ": ticker, expiry, strike required"
  }

  /** The first five lines of the loop body: option type upper-cased (default CALL),
      ticker normalised, expiry as text, strike and qty (default 1.0) through `float`, then
      the check that ticker, expiry and strike are all truthy. */
  function ParseLeg(b: Builtins, idx: nat, leg: Value): (r: Result<LegInput>)
    ensures !leg.DictV? ==> r == Err(AttributeError(leg, "get"))
    ensures r.Ok? ==> leg.DictV?
    ensures r.Ok? ==> r.value.ticker != "" && r.value.expiry != "" && PyTruthy(r.value.strike)
    ensures r.Ok? ==> Upper(r.value.otype) == r.value.otype
    ensures r.Ok? ==> forall i :: 0 <= i < |r.value.ticker| ==> !IsLowerAscii(r.value.ticker[i])
  {
    match leg
    case DictV(e) =>
      var otype := Upper(Str(FieldOr(e, "option_type", StrV("CALL")), b.floatRepr));
      var tkr := NormalizeText(Str(FieldOr(e, "ticker", StrV("")), b.floatRepr));
      var expiry := Str(FieldOr(e, "expiry", StrV("")), b.floatRepr);
      var strike := ToFloat(Field(e, "strike"), b);
      if strike.Err? then Err(strike.msg) else
      var qty := ToFloat(FieldOr(e, "qty", FloatV(Finite(1.0))), b);
      if qty.Err? then Err(qty.msg) else
      if tkr == "" || expiry == "" || !PyTruthy(strike.value) then Err(LegRequiredMessage(idx))
      else
        UpperIdempotent(Str(FieldOr(e, "option_type", StrV("CALL")), b.floatRepr));
        NormalizeTickerUpperAndShorter(Str(FieldOr(e, "ticker", StrV("")), b.floatRepr));
        Ok(LegInput(otype, tkr, expiry, strike.value, qty.value))
    case _ => Err(AttributeError(leg, "get"))
  }

  /** With convertible strike and qty, a leg is rejected exactly when its normalised
      ticker, its expiry or its strike is falsy, and the message names the leg 1-based. */
  lemma {:induction false} LegValidation(b: Builtins, idx: nat, e: seq<(Key, Value)>)
    requires ToFloat(Field(e, "strike"), b).Ok? && ToFloat(FieldOr(e, "qty", FloatV(Finite(1.0))), b).Ok?
    ensures var tkr := NormalizeText(Str(FieldOr(e, "ticker", StrV("")), b.floatRepr));
            var expiry := Str(FieldOr(e, "expiry", StrV("")), b.floatRepr);
            var strike := ToFloat(Field(e, "strike"), b).value;
            ParseLeg(b, idx, DictV(e)).Err? <==> tkr == "" || expiry == "" || !PyTruthy(strike)
    ensures ParseLeg(b, idx, DictV(e)).Err? ==> ParseLeg(b, idx, DictV(e)).msg == LegRequiredMessage(idx)
  {
  }

  /** A leg without a strike fails in `float(None)` before the required-fields check can
      name it. */
  lemma {:induction false} LegWithoutStrike(b: Builtins, idx: nat, e: seq<(Key, Value)>)
    requires !HasKey(e, KStr("strike"))
    ensures ParseLeg(b, idx, DictV(e)) == Err("float() argument must be a string or a real number, not 'NoneType'")
  {
    assert Field(e, "strike") == NoneV;
    ToFloatNone(b);
    LegStrikeError(b, idx, e);
  }

  /** A strike that `float` rejects fails the leg with that error. */
  lemma LegStrikeError(b: Builtins, idx: nat, e: seq<(Key, Value)>)
    requires ToFloat(Field(e, "strike"), b).Err?
    ensures ParseLeg(b, idx, DictV(e)) == Err(ToFloat(Field(e, "strike"), b).msg)
  {
  }

  /** Defaults: a leg without option_type is a CALL and one without qty has quantity 1.0. */
  lemma {:induction false} LegDefaults(b: Builtins, idx: nat, e: seq<(Key, Value)>)
    requires !HasKey(e, KStr("option_type")) && !HasKey(e, KStr("qty"))
    requires ParseLeg(b, idx, DictV(e)).Ok?
    ensures ParseLeg(b, idx, DictV(e)).value.otype == "CALL"
    ensures ParseLeg(b, idx, DictV(e)).value.qty == Finite(1.0)
  {
    ParsedLegFields(b, idx, e);
    var call := StrV("CALL");
    assert FieldOr(e, "option_type", call) == call;
    assert Str(call, b.floatRepr) == "CALL";
    UpperCall();
    assert FieldOr(e, "qty", FloatV(Finite(1.0))) == FloatV(Finite(1.0));
  }

  /** The option type and quantity of a leg that parses. */
  lemma ParsedLegFields(b: Builtins, idx: nat, e: seq<(Key, Value)>)
    requires ParseLeg(b, idx, DictV(e)).Ok?
    ensures ParseLeg(b, idx, DictV(e)).value.otype == Upper(Str(FieldOr(e, "option_type", StrV("CALL")), b.floatRepr))
    ensures ToFloat(FieldOr(e, "qty", FloatV(Finite(1.0))), b) == Ok(ParseLeg(b, idx, DictV(e)).value.qty)
  {
  }

  /** `int(leg.get("num_steps", params.get("num_steps", 252)))`. */
  function LegSteps(b: Builtins, e: seq<(Key, Value)>, p: seq<(Key, Value)>): (r: Result<int>)
    ensures HasKey(e, KStr("num_steps")) ==> r == ToInt(Field(e, "num_steps"), b)
    ensures !HasKey(e, KStr("num_steps")) && HasKey(p, KStr("num_steps")) ==> r == ToInt(Field(p, "num_steps"), b)
    ensures !HasKey(e, KStr("num_steps")) && !HasKey(p, KStr("num_steps")) ==> r == Ok(252)
  {
    ToInt(FieldOr(e, "num_steps", FieldOr(p, "num_steps", IntV(252))), b)
  }

  /** `int(leg.get("num_paths", params.get("num_paths", 50000)))`. */
  function LegPaths(b: Builtins, e: seq<(Key, Value)>, p: seq<(Key, Value)>): (r: Result<int>)
    ensures HasKey(e, KStr("num_paths")) ==> r == ToInt(Field(e, "num_paths"), b)
    ensures !HasKey(e, KStr("num_paths")) && HasKey(p, KStr("num_paths")) ==> r == ToInt(Field(p, "num_paths"), b)
    ensures !HasKey(e, KStr("num_paths")) && !HasKey(p, KStr("num_paths")) ==> r == Ok(50000)
  {
    ToInt(FieldOr(e, "num_paths", FieldOr(p, "num_paths", IntV(50000))), b)
  }

  /** The record appended to `results` for one leg. */
  datatype LegResult = LegResult(
    leg: int, ticker: string, expiry: string, strike: Num, otype: string, qty: Num,
    s0: Num, sigma: Num, t: Num, algo: Value, price: Option<Num>, stderr: Option<Num>, paths: Value)

  /** The inputs a leg is priced with and the paths it may store.  The ticker goes through
      normalize_ticker a second time inside the chain lookup; a volatility of 0 or less
      from the chain falls back to the historical estimate. */
  function LegOutcome(ctx: Ctx, p: seq<(Key, Value)>, idx: nat, leg: Value): (r: Result<LegResult>)
    ensures r.Ok? ==> r.value.leg == idx + 1
    ensures r.Ok? && idx > 0 ==> r.value.paths == NoneV
    ensures r.Ok? ==> r.value.algo == ctx.algo
    ensures r.Ok? ==> (r.value.price.Some? <==> ctx.algo == StrV("BlackScholes") || ctx.algo == StrV("MonteCarlo"))
    ensures r.Ok? ==> PyTruthy(r.value.s0)
    ensures ParseLeg(ctx.b, idx, leg).Err? ==> r == Err(ParseLeg(ctx.b, idx, leg).msg)
  {
    var parsed := ParseLeg(ctx.b, idx, leg);
    if parsed.Err? then Err(parsed.msg) else
    var li := parsed.value;
    var e := leg.entries;
    var t := ctx.market.inferT(li.expiry);
    var r := ToFloat(FieldOr(p, "r", FloatV(Finite(0.01))), ctx.b);
    if r.Err? then Err(r.msg) else
    var q := ToFloat(FieldOr(p, "q", FloatV(Zero)), ctx.b);
    if q.Err? then Err(q.msg) else
    var tkr := NormalizeText(li.ticker);
    var quote := ctx.market.chainQuote(tkr, li.expiry, li.strike, li.otype);
    if quote.spot.None? || !PyTruthy(quote.spot.value) then
      Err(tkr + ": no spot price from yfinance (symbol bad or market closed?)")
    else if quote.empty then Err(tkr + " " + li.expiry + ": empty option chain; try a different expiry")
    else
    var sigma := if Le(quote.iv, Zero) then ctx.market.histVol(tkr) else Some(quote.iv);
    if sigma.None? then Err(tkr + ": no historical data for IV fallback") else
    var steps := LegSteps(ctx.b, e, p);
    if steps.Err? then Err(steps.msg) else
    var paths := LegPaths(ctx.b, e, p);
    if paths.Err? then Err(paths.msg) else
    var save := IsTrueFlag(FieldOr(p, "save_paths", StrV("false")), ctx.b);
    var a := Inputs(quote.spot.value, li.strike, t, r.value, sigma.value, li.otype, q.value);
    var priced := PriceBy(ctx, a, paths.value, steps.value, save && idx == 0, if idx == 0 then Some(ctx.jobId) else None);
    if priced.Err? then Err(priced.msg) else
    Ok(LegResult(idx + 1, tkr, li.expiry, li.strike, li.otype, li.qty, quote.spot.value, sigma.value, t,
                 ctx.algo, priced.value.price, priced.value.stderr, priced.value.pathsMeta))
  }

  // ---------------------------------------------------------------------------
  // The legs loop
  // ---------------------------------------------------------------------------

  /** `results`, `total_price` and `total_qty` after some legs. */
  datatype Totals = Totals(results: seq<LegResult>, notional: Num, qty: Num)

  /** One iteration's effect: append the record; a priced leg adds price * qty and qty. */
  function Accumulate(acc: Totals, l: LegResult): Totals
  {
    if l.price.Some? then Totals(acc.results + [l], Add(acc.notional, Mul(l.price.value, l.qty)), Add(acc.qty, l.qty))
    else Totals(acc.results + [l], acc.notional, acc.qty)
  }

  /** Each leg's outcome, in input order. */
  function Outcomes(ctx: Ctx, p: seq<(Key, Value)>, legs: seq<Value>): (r: seq<Result<LegResult>>)
    ensures |r| == |legs|
    ensures forall i :: 0 <= i < |legs| ==> r[i] == LegOutcome(ctx, p, i, legs[i])
  {
    seq(|legs|, i requires 0 <= i < |legs| => LegOutcome(ctx, p, i, legs[i]))
  }

  /** How the loop ends: with the first leg error, or with one record per leg. */
  function Collect(outs: seq<Result<LegResult>>): (r: Result<Totals>)
    ensures r.Ok? <==> forall i :: 0 <= i < |outs| ==> outs[i].Ok?
    ensures r.Ok? ==> |r.value.results| == |outs|
    ensures r.Ok? ==> forall i :: 0 <= i < |outs| ==> outs[i] == Ok(r.value.results[i])
    decreases |outs|
  {
    if outs == [] then Ok(Totals([], Zero, Zero))
    else
      var n := |outs| - 1;
      var prev := Collect(outs[..n]);
      assert forall i :: 0 <= i < n ==> outs[..n][i] == outs[i];
      if prev.Err? then prev
      else if outs[n].Err? then Err(outs[n].msg)
      else Ok(Accumulate(prev.value, outs[n].value))
  }

  /** The loop over `enumerate(legs)`. */
  function PriceLegs(ctx: Ctx, p: seq<(Key, Value)>, legs: seq<Value>): Result<Totals>
  {
    Collect(Outcomes(ctx, p, legs))
  }

  /** One record per input leg, numbered 1..n in input order, each the leg's own outcome;
      no leg after the first stores paths. */
  lemma {:induction false} LegsNumberedInOrder(ctx: Ctx, p: seq<(Key, Value)>, legs: seq<Value>)
    requires PriceLegs(ctx, p, legs).Ok?
    ensures var rs := PriceLegs(ctx, p, legs).value.results;
            |rs| == |legs|
            && (forall i :: 0 <= i < |legs| ==> LegOutcome(ctx, p, i, legs[i]) == Ok(rs[i]))
            && (forall i :: 0 <= i < |legs| ==> rs[i].leg == i + 1 && rs[i].algo == ctx.algo)
            && (forall i :: 1 <= i < |legs| ==> rs[i].paths == NoneV)
  {
    var outs := Outcomes(ctx, p, legs);
    var rs := PriceLegs(ctx, p, legs).value.results;
    forall i | 0 <= i < |legs|
      ensures LegOutcome(ctx, p, i, legs[i]) == Ok(rs[i])
      ensures rs[i].leg == i + 1 && rs[i].algo == ctx.algo
      ensures i >= 1 ==> rs[i].paths == NoneV
    {
      assert outs[i] == Ok(rs[i]);
    }
  }

  /** Σ price·qty over the records whose price is not None. */
  function Notional(rs: seq<LegResult>): Num
  {
    if rs == [] then Zero
    else
      var l := rs[|rs| - 1];
      var rest := Notional(rs[..|rs| - 1]);
      if l.price.Some? then Add(rest, Mul(l.price.value, l.qty)) else rest
  }

  /** Σ qty over the records whose price is not None. */
  function PricedQty(rs: seq<LegResult>): Num
  {
    if rs == [] then Zero
    else
      var l := rs[|rs| - 1];
      var rest := PricedQty(rs[..|rs| - 1]);
      if l.price.Some? then Add(rest, l.qty) else rest
  }

  /** The totals are sums over the priced legs only. */
  lemma {:induction false} TotalsOverPricedLegs(outs: seq<Result<LegResult>>)
    requires Collect(outs).Ok?
    ensures var t := Collect(outs).value;
            t.notional == Notional(t.results) && t.qty == PricedQty(t.results)
    decreases |outs|
  {
    if outs != [] {
      var n := |outs| - 1;
      TotalsOverPricedLegs(outs[..n]);
      var prev := Collect(outs[..n]).value;
      var t := Collect(outs).value;
      assert t.results[..n] == prev.results;
    }
  }

  /** Legs priced by neither BlackScholes nor MonteCarlo add nothing: both totals stay 0. */
  lemma {:induction false} UnpricedLegsCountInNeither(rs: seq<LegResult>)
    requires forall i :: 0 <= i < |rs| ==> rs[i].price.None?
    ensures Notional(rs) == Zero && PricedQty(rs) == Zero
  {
    if rs != [] {
      UnpricedLegsCountInNeither(rs[..|rs| - 1]);
    }
  }

  /** With a QAE algo the notional is 0 and the weighted average is None. */
  lemma QaeTotals(ctx: Ctx, p: seq<(Key, Value)>, legs: seq<Value>)
    requires ctx.algo != StrV("BlackScholes") && ctx.algo != StrV("MonteCarlo")
    requires PriceLegs(ctx, p, legs).Ok?
    ensures PriceLegs(ctx, p, legs).value.notional == Zero
    ensures WeightedAvg(PriceLegs(ctx, p, legs).value.notional, PriceLegs(ctx, p, legs).value.qty) == NoneV
  {
    var t := PriceLegs(ctx, p, legs).value;
    LegsNumberedInOrder(ctx, p, legs);
    TotalsOverPricedLegs(Outcomes(ctx, p, legs));
    UnpricedLegsCountInNeither(t.results);
  }

  /** The first leg that raises decides the error: the ones before it succeeded and the
      ones after it are never looked at. */
  lemma {:induction false} CollectFirstError(outs: seq<Result<LegResult>>, k: nat)
    requires k < |outs|
    requires forall i :: 0 <= i < k ==> outs[i].Ok?
    requires outs[k].Err?
    ensures Collect(outs) == Err(outs[k].msg)
    decreases |outs|
  {
    var n := |outs| - 1;
    assert forall i :: 0 <= i < n ==> outs[..n][i] == outs[i];
    if k < n {
      CollectFirstError(outs[..n], k);
    }
  }

  /** An error after the first `j` outcomes is the loop's error. */
  lemma {:induction false} CollectErrorPersists(outs: seq<Result<LegResult>>, j: nat)
    requires j <= |outs| && Collect(outs[..j]).Err?
    ensures Collect(outs) == Collect(outs[..j])
    decreases |outs| - j
  {
    if j < |outs| {
      assert outs[..j + 1][..j] == outs[..j];
      CollectErrorPersists(outs, j + 1);
    } else {
      assert outs[..j] == outs;
    }
  }

  /** The `for idx, leg in enumerate(legs)` loop as written: a record appended per leg and
      the two running totals updated in place. */
  method PriceLegsLoop(ctx: Ctx, p: seq<(Key, Value)>, legs: seq<Value>) returns (r: Result<Totals>)
    ensures r == PriceLegs(ctx, p, legs)
  {
    ghost var outs := Outcomes(ctx, p, legs);
    var results: seq<LegResult> := [];
    var totalPrice := Zero;
    var totalQty := Zero;
    var idx := 0;
    while idx < |legs|
      invariant 0 <= idx <= |legs|
      invariant Collect(outs[..idx]) == Ok(Totals(results, totalPrice, totalQty))
    {
      var leg := LegOutcome(ctx, p, idx, legs[idx]);
      assert outs[..idx + 1][..idx] == outs[..idx];
      assert outs[..idx + 1][idx] == leg;
      if leg.Err? {
        CollectErrorPersists(outs, idx + 1);
        return Err(leg.msg);
      }
      results := results + [leg.value];
      if leg.value.price.Some? {
        totalPrice := Add(totalPrice, Mul(leg.value.price.value, leg.value.qty));
        totalQty := Add(totalQty, leg.value.qty);
      }
      idx := idx + 1;
    }
    assert outs[..idx] == outs;
    r := Ok(Totals(results, totalPrice, totalQty));
  }

  // ---------------------------------------------------------------------------
  // Result documents
  // ---------------------------------------------------------------------------

  function OptNum(x: Option<Num>): Value
  {
    match x
    case None => NoneV
    case Some(n) => FloatV(n)
  }

  /** `total_price / total_qty if total_qty > 0 else None`. */
  function WeightedAvg(notional: Num, qty: Num): (r: Value)
    ensures r == NoneV <==> !Gt(qty, Zero)
    ensures Gt(qty, Zero) ==> r == FloatV(DivPos(notional, qty))
  {
    if Gt(qty, Zero) then FloatV(DivPos(notional, qty)) else NoneV
  }

  function LegValue(l: LegResult): Value
  {
    Dict([("leg", IntV(l.leg)), ("ticker", StrV(l.ticker)), ("expiry", StrV(l.expiry)),
          ("strike", FloatV(l.strike)), ("otype", StrV(l.otype)), ("qty", FloatV(l.qty)),
          ("S0", FloatV(l.s0)), ("sigma", FloatV(l.sigma)), ("T", FloatV(l.t)), ("algo", l.algo),
          ("price", OptNum(l.price)), ("stderr", OptNum(l.stderr)), ("paths", l.paths)])
  }

  /** The multi-leg result: product, algo, the leg records in order, and the totals.
      It has no top-level "paths": stored paths sit under `legs[0]`. */
  function MultiLegValue(algo: Value, t: Totals): (v: Value)
    ensures v.DictV? && |v.entries| == 4
    ensures !HasKey(v.entries, KStr("paths"))
    ensures v.entries[2] == (KStr("legs"), ListV(seq(|t.results|, i requires 0 <= i < |t.results| => LegValue(t.results[i]))))
  {
    var legs := ListV(seq(|t.results|, i requires 0 <= i < |t.results| => LegValue(t.results[i])));
    var totals := Dict([("notional", FloatV(t.notional)), ("weightedAvg", WeightedAvg(t.notional, t.qty))]);
    var v := Dict([("product", StrV("European")), ("algo", algo), ("legs", legs), ("totals", totals)]);
    assert v.entries == [(KStr("product"), StrV("European")), (KStr("algo"), algo), (KStr("legs"), legs),
                         (KStr("totals"), totals)];
    v
  }

  /** The `inferred` record both single-instrument branches report. */
  function InferredValue(a: Inputs): Value
  {
    Dict([("S0", FloatV(a.s0)), ("T", FloatV(a.t)), ("sigma", FloatV(a.sigma)), ("r", FloatV(a.r)), ("q", FloatV(a.q))])
  }

  // ---------------------------------------------------------------------------
  // Single instrument
  // ---------------------------------------------------------------------------

  /** What a single-instrument branch prices with, once its parameters are read. */
  datatype Request = Request(ticker: string, expiry: string, a: Inputs, paths: int, steps: int, save: bool)

  /** The pricing call a single-instrument branch makes with its request and the job id. */
  function RequestPrice(ctx: Ctx, req: Request): Result<Priced>
  {
    PriceBy(ctx, req.a, req.paths, req.steps, req.save, Some(ctx.jobId))
  }

  const ChainRequiredMessage := "ticker, expiry and strike are required when use_chain=true"

  /** The instrument a chain request names, once its fields are read and checked. */
  datatype Instrument = Instrument(otype: string, ticker: string, expiry: string, strike: Num)

  /** The chain branch's first reads: option type (default CALL), normalised ticker,
      expiry and strike, of which all three must be truthy. */
  function ChainInstrument(b: Builtins, p: seq<(Key, Value)>): (r: Result<Instrument>)
    ensures r.Ok? ==> r.value.ticker != "" && r.value.expiry != "" && PyTruthy(r.value.strike)
    ensures ToFloat(Field(p, "strike"), b).Err? ==> r == Err(ToFloat(Field(p, "strike"), b).msg)
  {
    var otype := Upper(Str(FieldOr(p, "option_type", StrV("CALL")), b.floatRepr));
    var ticker := NormalizeText(Str(FieldOr(p, "ticker", StrV("")), b.floatRepr));
    var expiry := Str(FieldOr(p, "expiry", StrV("")), b.floatRepr);
    var strike := ToFloat(Field(p, "strike"), b);
    if strike.Err? then Err(strike.msg) else
    if ticker == "" || expiry == "" || !PyTruthy(strike.value) then Err(ChainRequiredMessage)
    else Ok(Instrument(otype, ticker, expiry, strike.value))
  }

  /** The chain branch's market reads for a checked instrument: spot and implied volatility
      come from the chain, with no fallback for a volatility of zero; steps and paths
      default to 252 and 50000. */
  function ChainQuoteRequest(ctx: Ctx, p: seq<(Key, Value)>, ins: Instrument): (r: Result<Request>)
    ensures r.Ok? ==> r.value.expiry == ins.expiry && r.value.a.k == ins.strike && PyTruthy(r.value.a.s0)
    ensures r.Ok? ==> r.value.ticker == NormalizeText(ins.ticker)
    ensures r.Ok? ==> ctx.market.chainQuote(r.value.ticker, ins.expiry, ins.strike, ins.otype).iv == r.value.a.sigma
    ensures r.Ok? ==> ToInt(FieldOr(p, "num_steps", IntV(252)), ctx.b) == Ok(r.value.steps)
                      && ToInt(FieldOr(p, "num_paths", IntV(50000)), ctx.b) == Ok(r.value.paths)
  {
    var t := ctx.market.inferT(ins.expiry);
    var r := ToFloat(FieldOr(p, "r", FloatV(Finite(0.01))), ctx.b);
    if r.Err? then Err(r.msg) else
    var q := ToFloat(FieldOr(p, "q", FloatV(Zero)), ctx.b);
    if q.Err? then Err(q.msg) else
    var tkr := NormalizeText(ins.ticker);
    var quote := ctx.market.chainQuote(tkr, ins.expiry, ins.strike, ins.otype);
    if quote.spot.None? || !PyTruthy(quote.spot.value) then Err(tkr + ": no spot price from yfinance")
    else if quote.empty then Err(tkr + " " + ins.expiry + ": empty option chain")
    else
    var steps := ToInt(FieldOr(p, "num_steps", IntV(252)), ctx.b);
    if steps.Err? then Err(steps.msg) else
    var paths := ToInt(FieldOr(p, "num_paths", IntV(50000)), ctx.b);
    if paths.Err? then Err(paths.msg) else
    var save := IsTrueFlag(FieldOr(p, "save_paths", StrV("false")), ctx.b);
    Ok(Request(tkr, ins.expiry, Inputs(quote.spot.value, ins.strike, t, r.value, quote.iv, ins.otype, q.value),
               paths.value, steps.value, save))
  }

  /** The chain branch's reads and checks, in the source's order. */
  function ChainRequest(ctx: Ctx, p: seq<(Key, Value)>): (r: Result<Request>)
    ensures r.Ok? ==> r.value.expiry != "" && PyTruthy(r.value.a.k) && PyTruthy(r.value.a.s0)
    ensures ChainInstrument(ctx.b, p).Err? ==> r == Err(ChainInstrument(ctx.b, p).msg)
  {
    match ChainInstrument(ctx.b, p)
    case Err(m) => Err(m)
    case Ok(ins) => ChainQuoteRequest(ctx, p, ins)
  }

  /** The chain branch requires ticker, expiry and a truthy strike, in one message. */
  lemma {:induction false} ChainRequiresFields(ctx: Ctx, p: seq<(Key, Value)>)
    requires ToFloat(Field(p, "strike"), ctx.b).Ok?
    requires NormalizeText(Str(FieldOr(p, "ticker", StrV("")), ctx.b.floatRepr)) == ""
             || Str(FieldOr(p, "expiry", StrV("")), ctx.b.floatRepr) == ""
             || !PyTruthy(ToFloat(Field(p, "strike"), ctx.b).value)
    ensures ChainInstrument(ctx.b, p) == Err(ChainRequiredMessage)
    ensures ChainRequest(ctx, p) == Err(ChainRequiredMessage)
  {
  }

  /** The keys the chain branch adds after `inferred`: price and stderr, then the paths
      record when one was stored or the QAE note. */
  function ChainTail(ctx: Ctx, pr: Priced): (items: seq<(string, Value)>)
    ensures ctx.algo == StrV("MonteCarlo") && Truthy(pr.pathsMeta) ==> |items| == 3 && items[2] == ("paths", pr.pathsMeta)
    ensures !(ctx.algo == StrV("MonteCarlo") && Truthy(pr.pathsMeta)) ==> forall i :: 0 <= i < |items| ==> items[i].0 != "paths"
    ensures 2 <= |items| <= 3 && items[0].0 == "price" && items[1].0 == "stderr"
  {
    if ctx.algo == StrV("BlackScholes") then [("price", OptNum(pr.price)), ("stderr", FloatV(Zero))]
    else if ctx.algo == StrV("MonteCarlo") then
      [("price", OptNum(pr.price)), ("stderr", OptNum(pr.stderr))]
      + (if Truthy(pr.pathsMeta) then [("paths", pr.pathsMeta)] else [])
    else [("price", NoneV), ("stderr", NoneV), ("note", StrV("QAE placeholder"))]
  }

  /** The chain result: source, ticker, expiry, strike, inferred, the algo's keys, then the
      request's own product and algo.  It has a top-level "paths" exactly when MonteCarlo
      stored the paths, which takes a true save_paths and a non-empty job id. */
  function ChainDoc(ctx: Ctx, product: Value, req: Request, pr: Priced): (v: Value)
    requires RequestPrice(ctx, req) == Ok(pr)
    ensures v.DictV? && 9 <= |v.entries| <= 10
    ensures v.entries[0] == (KStr("source"), StrV("yfinance_chain"))
    ensures v.entries[|v.entries| - 2] == (KStr("product"), product)
    ensures v.entries[|v.entries| - 1] == (KStr("algo"), ctx.algo)
    ensures HasKey(v.entries, KStr("paths")) <==> ctx.algo == StrV("MonteCarlo") && req.save && ctx.jobId != ""
  {
    var head := [("source", StrV("yfinance_chain")), ("ticker", StrV(req.ticker)), ("expiry", StrV(req.expiry)),
                 ("strike", FloatV(req.a.k)), ("inferred", InferredValue(req.a))];
    var tail := ChainTail(ctx, pr);
    var items := head + tail + [("product", product), ("algo", ctx.algo)];
    DictHasKey(items, "paths");
    var has := ctx.algo == StrV("MonteCarlo") && Truthy(pr.pathsMeta);
    assert has ==> tail[2].0 == "paths";
    KeyWithin(head, tail, [("product", product), ("algo", ctx.algo)], "paths", has);
    var n := |items|;
    assert items[0] == ("source", StrV("yfinance_chain"));
    assert items[n - 2] == ("product", product) && items[n - 1] == ("algo", ctx.algo);
    DictEntry(items, 0);
    DictEntry(items, n - 2);
    DictEntry(items, n - 1);
    Dict(items)
  }

  /** Items have a key exactly when their middle part has one. */
  lemma KeyWithin(head: seq<(string, Value)>, mid: seq<(string, Value)>, rest: seq<(string, Value)>,
                  key: string, has: bool)
    requires forall i :: 0 <= i < |head| ==> head[i].0 != key
    requires forall i :: 0 <= i < |rest| ==> rest[i].0 != key
    requires has ==> exists i :: 0 <= i < |mid| && mid[i].0 == key
    requires !has ==> forall i :: 0 <= i < |mid| ==> mid[i].0 != key
    ensures var items := head + mid + rest;
            (exists i :: 0 <= i < |items| && items[i].0 == key) <==> has
  {
    var items := head + mid + rest;
    if has {
      var i :| 0 <= i < |mid| && mid[i].0 == key;
      assert items[|head| + i] == mid[i];
    } else {
      forall i | 0 <= i < |items| ensures items[i].0 != key {
        if i < |head| {
          assert items[i] == head[i];
        } else if i < |head| + |mid| {
          assert items[i] == mid[i - |head|];
        } else {
          assert items[i] == rest[i - |head| - |mid|];
        }
      }
    }
  }

  /** use_chain: the request, its pricing, then its result document; the first error
      of the two is the outcome. */
  function ChainSingleResult(ctx: Ctx, product: Value, p: seq<(Key, Value)>): (r: Result<Value>)
    ensures r.Ok? <==> ChainRequest(ctx, p).Ok? && RequestPrice(ctx, ChainRequest(ctx, p).value).Ok?
    ensures r.Ok? ==> r.value == ChainDoc(ctx, product, ChainRequest(ctx, p).value,
                                          RequestPrice(ctx, ChainRequest(ctx, p).value).value)
    ensures ChainRequest(ctx, p).Err? ==> r == Err(ChainRequest(ctx, p).msg)
    ensures ChainRequest(ctx, p).Ok? && RequestPrice(ctx, ChainRequest(ctx, p).value).Err? ==>
              r == Err(RequestPrice(ctx, ChainRequest(ctx, p).value).msg)
  {
    match ChainRequest(ctx, p)
    case Err(m) => Err(m)
    case Ok(req) =>
      match RequestPrice(ctx, req)
      case Err(m) => Err(m)
      case Ok(pr) => Ok(ChainDoc(ctx, product, req, pr))
  }

  /** S0: the fast-info price when truthy, else the last 5-day close. */
  function HistSpot(m: Market, ticker: string): (r: Result<Num>)
    ensures m.fastPrice(ticker).Some? && PyTruthy(m.fastPrice(ticker).value) ==> r == Ok(m.fastPrice(ticker).value)
    ensures !(m.fastPrice(ticker).Some? && PyTruthy(m.fastPrice(ticker).value)) ==>
              match m.lastClose(ticker)
              case Some(c) => r == Ok(c)
              case None => r == Err(ticker + ": no recent price for S0")
  {
    match m.fastPrice(ticker)
    case Some(x) => if PyTruthy(x) then Ok(x) else HistClose(m, ticker)
    case None => HistClose(m, ticker)
  }

  function HistClose(m: Market, ticker: string): Result<Num>
  {
    match m.lastClose(ticker)
    case Some(c) => Ok(c)
    case None => Err(ticker + ": no recent price for S0")
  }

  /** T: a present and truthy expiry wins over T, and T defaults to 0.5. */
  function HistMaturity(m: Market, b: Builtins, p: seq<(Key, Value)>): (r: Result<Num>)
    ensures HasKey(p, KStr("expiry")) && Truthy(Field(p, "expiry")) ==> r == m.yearsTo(Field(p, "expiry"))
    ensures !(HasKey(p, KStr("expiry")) && Truthy(Field(p, "expiry"))) && HasKey(p, KStr("T")) ==>
              r == ToFloat(Field(p, "T"), b)
    ensures !(HasKey(p, KStr("expiry")) && Truthy(Field(p, "expiry"))) && !HasKey(p, KStr("T")) ==>
              r == Ok(Finite(0.5))
  {
    if HasKey(p, KStr("expiry")) && Truthy(Field(p, "expiry")) then m.yearsTo(Field(p, "expiry"))
    else ToFloat(FieldOr(p, "T", FloatV(Finite(0.5))), b)
  }

  /** sigma: the given one when present and neither None nor "", else the estimate. */
  function HistSigma(m: Market, b: Builtins, p: seq<(Key, Value)>, ticker: string): (r: Result<Num>)
    ensures HasKey(p, KStr("sigma")) && Field(p, "sigma") != NoneV && Field(p, "sigma") != StrV("") ==>
              r == ToFloat(Field(p, "sigma"), b)
    ensures !(HasKey(p, KStr("sigma")) && Field(p, "sigma") != NoneV && Field(p, "sigma") != StrV("")) ==>
              match m.histVol(ticker)
              case Some(s) => r == Ok(s)
              case None => r == Err(ticker + ": no historical data for sigma")
  {
    if HasKey(p, KStr("sigma")) && Field(p, "sigma") != NoneV && Field(p, "sigma") != StrV("") then
      ToFloat(Field(p, "sigma"), b)
    else
      match m.histVol(ticker)
      case Some(s) => Ok(s)
      case None => Err(ticker + ": no historical data for sigma")
  }

  /** The historical branch's reads, in the order the source makes them: strike, r and q,
      then S0, T and sigma; no field is required up front. */
  function HistRequest(ctx: Ctx, p: seq<(Key, Value)>): (r: Result<Request>)
    ensures r.Ok? ==> HistSpot(ctx.market, r.value.ticker) == Ok(r.value.a.s0)
    ensures r.Ok? ==> HistMaturity(ctx.market, ctx.b, p) == Ok(r.value.a.t)
    ensures r.Ok? ==> HistSigma(ctx.market, ctx.b, p, r.value.ticker) == Ok(r.value.a.sigma)
    ensures ToFloat(Field(p, "strike"), ctx.b).Err? ==> r == Err(ToFloat(Field(p, "strike"), ctx.b).msg)
  {
    var otype := Upper(Str(FieldOr(p, "option_type", StrV("CALL")), ctx.b.floatRepr));
    var ticker := NormalizeText(Str(FieldOr(p, "ticker", StrV("")), ctx.b.floatRepr));
    var k := ToFloat(Field(p, "strike"), ctx.b);
    if k.Err? then Err(k.msg) else
    var r := ToFloat(FieldOr(p, "r", FloatV(Finite(0.01))), ctx.b);
    if r.Err? then Err(r.msg) else
    var q := ToFloat(FieldOr(p, "q", FloatV(Zero)), ctx.b);
    if q.Err? then Err(q.msg) else
    var s0 := HistSpot(ctx.market, ticker);
    if s0.Err? then Err(s0.msg) else
    var t := HistMaturity(ctx.market, ctx.b, p);
    if t.Err? then Err(t.msg) else
    var sigma := HistSigma(ctx.market, ctx.b, p, ticker);
    if sigma.Err? then Err(sigma.msg) else
    var steps := ToInt(FieldOr(p, "num_steps", IntV(252)), ctx.b);
    if steps.Err? then Err(steps.msg) else
    var paths := ToInt(FieldOr(p, "num_paths", IntV(50000)), ctx.b);
    if paths.Err? then Err(paths.msg) else
    var save := IsTrueFlag(FieldOr(p, "save_paths", StrV("false")), ctx.b);
    Ok(Request(ticker, "", Inputs(s0.value, k.value, t.value, r.value, sigma.value, otype, q.value),
               paths.value, steps.value, save))
  }

  /** The historical result: its product is always "European", and a MonteCarlo result
      always has a "paths" key, None when nothing was stored. */
  function HistDoc(ctx: Ctx, req: Request, pr: Priced): (v: Value)
    requires RequestPrice(ctx, req) == Ok(pr)
    ensures v.DictV? && |v.entries| >= 3
    ensures v.entries[|v.entries| - 2] == (KStr("product"), StrV("European"))
    ensures v.entries[|v.entries| - 1] == (KStr("algo"), ctx.algo)
    ensures HasKey(v.entries, KStr("paths")) <==> ctx.algo == StrV("MonteCarlo")
    ensures HasKey(v.entries, KStr("price")) <==> ctx.algo == StrV("BlackScholes") || ctx.algo == StrV("MonteCarlo")
  {
    HistDocument(ctx.algo, req.ticker, InferredValue(req.a), OptNum(pr.price), OptNum(pr.stderr), pr.pathsMeta)
  }

  /** HistDoc's document from the priced values it reports. */
  function HistDocument(algo: Value, ticker: string, inferred: Value, price: Value, stderr: Value, paths: Value): (v: Value)
    ensures v.DictV? && |v.entries| >= 3
    ensures v.entries[|v.entries| - 2] == (KStr("product"), StrV("European"))
    ensures v.entries[|v.entries| - 1] == (KStr("algo"), algo)
    ensures HasKey(v.entries, KStr("paths")) <==> algo == StrV("MonteCarlo")
    ensures HasKey(v.entries, KStr("price")) <==> algo == StrV("BlackScholes") || algo == StrV("MonteCarlo")
  {
    var priced := algo == StrV("BlackScholes") || algo == StrV("MonteCarlo");
    var head := if priced then [("source", StrV("historical")), ("ticker", StrV(ticker)), ("inferred", inferred)]
                else [];
    var mid :=
      if algo == StrV("BlackScholes") then [("price", price), ("stderr", FloatV(Zero))]
      else if algo == StrV("MonteCarlo") then [("price", price), ("stderr", stderr), ("paths", paths)]
      else [("note", StrV("QAE placeholder"))];
    var tail := [("product", StrV("European")), ("algo", algo)];
    var items := head + mid + tail;
    DictHasKey(items, "paths");
    DictHasKey(items, "price");
    assert priced ==> mid[0].0 == "price";
    assert algo == StrV("MonteCarlo") ==> mid[2].0 == "paths";
    KeyWithin(head, mid, tail, "price", priced);
    KeyWithin(head, mid, tail, "paths", algo == StrV("MonteCarlo"));
    var n := |items|;
    assert items[n - 2] == ("product", StrV("European")) && items[n - 1] == ("algo", algo);
    DictEntry(items, n - 2);
    DictEntry(items, n - 1);
    Dict(items)
  }

  /** The historical branch: the request, its pricing, then its result document; the
      first error of the two is the outcome. */
  function HistoricalResult(ctx: Ctx, p: seq<(Key, Value)>): (r: Result<Value>)
    ensures r.Ok? <==> HistRequest(ctx, p).Ok? && RequestPrice(ctx, HistRequest(ctx, p).value).Ok?
    ensures r.Ok? ==> r.value == HistDoc(ctx, HistRequest(ctx, p).value, RequestPrice(ctx, HistRequest(ctx, p).value).value)
    ensures HistRequest(ctx, p).Err? ==> r == Err(HistRequest(ctx, p).msg)
    ensures HistRequest(ctx, p).Ok? && RequestPrice(ctx, HistRequest(ctx, p).value).Err? ==>
              r == Err(RequestPrice(ctx, HistRequest(ctx, p).value).msg)
  {
    match HistRequest(ctx, p)
    case Err(m) => Err(m)
    case Ok(req) =>
      match RequestPrice(ctx, req)
      case Err(m) => Err(m)
      case Ok(pr) => Ok(HistDoc(ctx, req, pr))
  }

  /** A historical request whose strike and r parse but whose q is the empty text fails
      in `float("")`. */
  lemma HistoricalBlankQFails(ctx: Ctx, p: seq<(Key, Value)>)
    requires ToFloat(Field(p, "strike"), ctx.b).Ok?
    requires ToFloat(FieldOr(p, "r", FloatV(Finite(0.01))), ctx.b).Ok?
    requires FieldOr(p, "q", FloatV(Zero)) == StrV("") && ctx.b.parseFloat("") == None
    ensures HistRequest(ctx, p) == Err(FloatParseError + StrRepr(""))
    ensures HistoricalResult(ctx, p) == Err(FloatParseError + StrRepr(""))
  {
  }

  /** A MonteCarlo historical job whose request asks for 0 steps fails with the
      ZeroDivisionError of `T / steps`, and one with a negative count with numpy's
      ValueError. */
  lemma HistoricalMonteCarloCounts(ctx: Ctx, p: seq<(Key, Value)>)
    requires ctx.algo == StrV("MonteCarlo") && HistRequest(ctx, p).Ok?
    ensures var req := HistRequest(ctx, p).value;
            (req.steps == 0 ==> HistoricalResult(ctx, p) == Err(FloatDivisionByZero))
            && (req.steps != 0 && (req.steps < 0 || req.paths < 0) ==> HistoricalResult(ctx, p) == Err(NegativeDimensions))
            && (req.steps > 0 && req.paths >= 0 ==> HistoricalResult(ctx, p).Ok?)
  {
    var req := HistRequest(ctx, p).value;
    assert RequestPrice(ctx, req) == EuropeanMc(ctx.market, req.a, req.paths, req.steps, req.save, Some(ctx.jobId));
  }

  // ---------------------------------------------------------------------------
  // The Celery task
  // ---------------------------------------------------------------------------

  const UnsupportedMessage := "Unsupported combination or missing parameters."

  /** What the `try` block ends with: a result document or the text of the exception. */
  function OptionResult(ctx: Ctx, product: Value, params: Value): (r: Result<Value>)
    ensures !params.DictV? ==> r == Err(AttributeError(params, "get"))
    ensures params.DictV? && ChooseBranch(product, params.entries, ctx.b) == Unsupported ==> r == Err(UnsupportedMessage)
    ensures params.DictV? && ChooseBranch(product, params.entries, ctx.b) == ChainSingle ==>
              r == ChainSingleResult(ctx, product, params.entries)
    ensures params.DictV? && ChooseBranch(product, params.entries, ctx.b) == Historical ==>
              r == HistoricalResult(ctx, params.entries)
  {
    if !params.DictV? then Err(AttributeError(params, "get")) else
    match ChooseBranch(product, params.entries, ctx.b)
    case MultiLeg(v) =>
      (var legs := Iter(v);
       if legs.Err? then Err(legs.msg) else
       var t := PriceLegs(ctx, params.entries, legs.value);
       if t.Err? then Err(t.msg) else Ok(MultiLegValue(ctx.algo, t.value)))
    case ChainSingle => ChainSingleResult(ctx, product, params.entries)
    case Historical => HistoricalResult(ctx, params.entries)
    case Unsupported => Err(UnsupportedMessage)
  }

  /** A multi-leg job fails with the error of its first failing leg. */
  lemma {:induction false} MultiLegFirstFailure(ctx: Ctx, product: Value, params: Value, k: nat)
    requires params.DictV? && ChooseBranch(product, params.entries, ctx.b).MultiLeg?
    requires Iter(Field(params.entries, "legs")).Ok?
    requires var legs := Iter(Field(params.entries, "legs")).value;
             k < |legs| && (forall i :: 0 <= i < k ==> LegOutcome(ctx, params.entries, i, legs[i]).Ok?)
             && LegOutcome(ctx, params.entries, k, legs[k]).Err?
    ensures var legs := Iter(Field(params.entries, "legs")).value;
            OptionResult(ctx, product, params) == Err(LegOutcome(ctx, params.entries, k, legs[k]).msg)
  {
    var legs := Iter(Field(params.entries, "legs")).value;
    CollectFirstError(Outcomes(ctx, params.entries, legs), k);
  }

  /** When every leg can be priced, the corrected task succeeds with the multi-leg
      document, and the module as written still fails. */
  lemma {:induction false} MultiLegSucceedsWhenLegsDo(ctx: Ctx, product: Value, params: Value)
    requires params.DictV? && ChooseBranch(product, params.entries, ctx.b).MultiLeg?
    requires Iter(Field(params.entries, "legs")).Ok?
    requires var legs := Iter(Field(params.entries, "legs")).value;
             forall i :: 0 <= i < |legs| ==> LegOutcome(ctx, params.entries, i, legs[i]).Ok?
    ensures var legs := Iter(Field(params.entries, "legs")).value;
            PriceLegs(ctx, params.entries, legs).Ok?
            && OptionResult(ctx, product, params) == Ok(MultiLegValue(ctx.algo, PriceLegs(ctx, params.entries, legs).value))
    ensures OptionResultAsWritten(ctx, product, params).Err?
  {
    var legs := Iter(Field(params.entries, "legs")).value;
    var outs := Outcomes(ctx, params.entries, legs);
    assert forall i :: 0 <= i < |outs| ==> outs[i].Ok?;
  }

  /** Products other than None, "" and European always fail, whatever else was sent. */
  lemma UnsupportedProductFails(ctx: Ctx, product: Value, params: Value)
    requires params.DictV? && !EuropeanProduct(product)
    ensures OptionResult(ctx, product, params) == Err(UnsupportedMessage)
  {
  }

  /** run_option_job as written: "Running" first, then the branch, then exactly one
      terminal write; the multi-leg and chain branches fail on the unbound name. */
  method RunOptionJob(store: JobStore, jobId: string, product: Value, algo: Value, params: Value,
                      market: Market, b: Builtins, started: int, finished: int) returns (o: Outcome)
    modifies store
    ensures o == Finish(OptionResultAsWritten(Ctx(market, b, jobId, algo), product, params))
    ensures store.docs == SetStatusIn(SetStatusIn(old(store.docs), jobId, "Running", NoneV, None, started),
                                      jobId, o.status, o.result, o.error, finished)
  {
    store.SetJobStatus(jobId, "Running", NoneV, None, started);
    var ctx := Ctx(market, b, jobId, algo);
    var res: Result<Value>;
    if params.DictV? && (ChooseBranch(product, params.entries, b).MultiLeg?
                         || ChooseBranch(product, params.entries, b) == ChainSingle) {
      res := OptionResultAsWritten(ctx, product, params);
    } else {
      res := OptionJobBody(ctx, product, params);
    }
    o := Finish(res);
    store.SetJobStatus(jobId, o.status, o.result, o.error, finished);
  }

  /** run_option_job corrected: the same writes around the corrected branch. */
  method RunOptionJobCorrected(store: JobStore, jobId: string, product: Value, algo: Value, params: Value,
                               market: Market, b: Builtins, started: int, finished: int) returns (o: Outcome)
    modifies store
    ensures o == Finish(OptionResult(Ctx(market, b, jobId, algo), product, params))
    ensures store.docs == SetStatusIn(SetStatusIn(old(store.docs), jobId, "Running", NoneV, None, started),
                                      jobId, o.status, o.result, o.error, finished)
  {
    store.SetJobStatus(jobId, "Running", NoneV, None, started);
    var res := OptionJobBody(Ctx(market, b, jobId, algo), product, params);
    o := Finish(res);
    store.SetJobStatus(jobId, o.status, o.result, o.error, finished);
  }

  /** The `try` block with the corrected import, branch by branch, the legs by a loop. */
  method OptionJobBody(ctx: Ctx, product: Value, params: Value) returns (res: Result<Value>)
    ensures res == OptionResult(ctx, product, params)
  {
    if !params.DictV? {
      res := Err(AttributeError(params, "get"));
    } else {
      var branch := ChooseBranch(product, params.entries, ctx.b);
      match branch {
        case MultiLeg(v) =>
          var legs := Iter(v);
          if legs.Err? {
            res := Err(legs.msg);
          } else {
            var totals := PriceLegsLoop(ctx, params.entries, legs.value);
            res := if totals.Err? then Err(totals.msg) else Ok(MultiLegValue(ctx.algo, totals.value));
          }
        case ChainSingle =>
          res := ChainSingleResult(ctx, product, params.entries);
        case Historical =>
          res := HistoricalResult(ctx, params.entries);
        case Unsupported =>
          res := Err(UnsupportedMessage);
      }
    }
  }

  // ---------------------------------------------------------------------------
  // As written: the local imports in the historical branch
  // ---------------------------------------------------------------------------

  /** The historical branch imports normalize_ticker and yf inside run_option_job, which
      makes both names local to the whole function; the other branches read them first. */
  const UnboundTicker := "cannot access local variable 'normalize_ticker' where it is not associated with a value"

  /** The Celery task's outcome as the module is written: the multi-leg branch fails on the first
      leg (an AttributeError for a non-dict leg, the unbound name otherwise) and the chain
      branch fails at once. */
  function OptionResultAsWritten(ctx: Ctx, product: Value, params: Value): (r: Result<Value>)
    ensures (params.DictV? && (ChooseBranch(product, params.entries, ctx.b).MultiLeg?
                               || ChooseBranch(product, params.entries, ctx.b) == ChainSingle)) ==> r.Err?
    ensures (params.DictV? && (ChooseBranch(product, params.entries, ctx.b) == Historical
                               || ChooseBranch(product, params.entries, ctx.b) == Unsupported)) ==>
              r == OptionResult(ctx, product, params)
  {
    if !params.DictV? then Err(AttributeError(params, "get")) else
    match ChooseBranch(product, params.entries, ctx.b)
    case MultiLeg(v) =>
      (var legs := Iter(v);
       if legs.Err? then Err(legs.msg)
       else if !legs.value[0].DictV? then Err(AttributeError(legs.value[0], "get"))
       else Err(UnboundTicker))
    case ChainSingle => Err(UnboundTicker)
    case _ => OptionResult(ctx, product, params)
  }

  /** `{"use_chain": "true", "ticker": "AAPL", "expiry": "2025-01-17", "strike": 150.0}`. */
  function AaplChainParams(): seq<(Key, Value)>
  {
    [(KStr("use_chain"), StrV("true")), (KStr("ticker"), StrV("AAPL")),
     (KStr("expiry"), StrV("2025-01-17")), (KStr("strike"), FloatV(Finite(150.0)))]
  }

  /** The AAPL request takes the chain branch. */
  lemma {:induction false} AaplChainBranch(b: Builtins)
    ensures ChooseBranch(NoneV, AaplChainParams(), b) == ChainSingle
  {
    AaplLookups();
    AaplAbsent();
    AaplUseChain();
    TrueIsTrueFlag(b);
  }

  lemma AaplUseChain()
    ensures UseChain(AaplChainParams()) == StrV("true")
  {
    AaplLookups();
  }

  lemma TrueIsTrueFlag(b: Builtins)
    ensures IsTrueFlag(StrV("true"), b)
  {
    assert Lower("true") == "true";
  }

  lemma {:induction false} AaplLookups()
    ensures var p := AaplChainParams();
            Lookup(p, KStr("use_chain")) == Some(StrV("true"))
            && Lookup(p, KStr("ticker")) == Some(StrV("AAPL"))
            && Lookup(p, KStr("expiry")) == Some(StrV("2025-01-17"))
            && Lookup(p, KStr("strike")) == Some(FloatV(Finite(150.0)))
  {
    var p := AaplChainParams();
    var p1 := [(KStr("ticker"), StrV("AAPL")), (KStr("expiry"), StrV("2025-01-17")), (KStr("strike"), FloatV(Finite(150.0)))];
    var p2 := [(KStr("expiry"), StrV("2025-01-17")), (KStr("strike"), FloatV(Finite(150.0)))];
    var p3 := [(KStr("strike"), FloatV(Finite(150.0)))];
    assert p[1..] == p1 && p1[1..] == p2 && p2[1..] == p3;
    assert Lookup(p3, KStr("strike")) == Some(FloatV(Finite(150.0)));
    assert Lookup(p2, KStr("strike")) == Some(FloatV(Finite(150.0)));
    assert Lookup(p2, KStr("expiry")) == Some(StrV("2025-01-17"));
    assert Lookup(p1, KStr("strike")) == Some(FloatV(Finite(150.0)));
    assert Lookup(p1, KStr("expiry")) == Some(StrV("2025-01-17"));
    assert Lookup(p1, KStr("ticker")) == Some(StrV("AAPL"));
  }

  lemma {:induction false} AaplAbsent()
    ensures var p := AaplChainParams();
            !HasKey(p, KStr("r")) && !HasKey(p, KStr("q")) && !HasKey(p, KStr("num_steps"))
            && !HasKey(p, KStr("num_paths")) && !HasKey(p, KStr("save_paths"))
            && !HasKey(p, KStr("option_type")) && !HasKey(p, KStr("legs"))
  {
    var p := AaplChainParams();
    var names := {KStr("use_chain"), KStr("ticker"), KStr("expiry"), KStr("strike")};
    assert forall i :: 0 <= i < |p| ==> p[i].0 in names;
  }

  /** The corrected chain branch accepts the AAPL request when the chain has a spot. */
  lemma {:induction false} AaplChainRequestOk(ctx: Ctx)
    requires ctx.market.chainQuote("AAPL", "2025-01-17", Finite(150.0), "CALL") == ChainQuote(Some(Finite(190.0)), Finite(0.25), false)
    ensures var r := ChainRequest(ctx, AaplChainParams());
            r.Ok? && r.value.steps == 252 && r.value.paths == 50000
  {
    AaplInstrument(ctx.b);
    AaplQuoteRequest(ctx);
  }

  lemma {:induction false} AaplInstrument(b: Builtins)
    ensures ChainInstrument(b, AaplChainParams()) == Ok(Instrument("CALL", "AAPL", "2025-01-17", Finite(150.0)))
  {
    AaplOptionType(b);
    AaplTicker(b);
    AaplExpiryStrike(b);
    assert |"AAPL"| == 4 && |"2025-01-17"| == 10;
  }

  lemma AaplOptionType(b: Builtins)
    ensures Upper(Str(FieldOr(AaplChainParams(), "option_type", StrV("CALL")), b.floatRepr)) == "CALL"
  {
    AaplAbsent();
    UpperCall();
  }

  lemma AaplTicker(b: Builtins)
    ensures NormalizeText(Str(FieldOr(AaplChainParams(), "ticker", StrV("")), b.floatRepr)) == "AAPL"
  {
    AaplLookups();
    NormalizeAapl();
  }

  lemma AaplExpiryStrike(b: Builtins)
    ensures Str(FieldOr(AaplChainParams(), "expiry", StrV("")), b.floatRepr) == "2025-01-17"
    ensures ToFloat(Field(AaplChainParams(), "strike"), b) == Ok(Finite(150.0))
  {
    AaplLookups();
  }

  lemma {:induction false} AaplQuoteRequest(ctx: Ctx)
    requires ctx.market.chainQuote("AAPL", "2025-01-17", Finite(150.0), "CALL") == ChainQuote(Some(Finite(190.0)), Finite(0.25), false)
    ensures var r := ChainQuoteRequest(ctx, AaplChainParams(), Instrument("CALL", "AAPL", "2025-01-17", Finite(150.0)));
            r.Ok? && r.value.steps == 252 && r.value.paths == 50000
  {
    AaplDefaults(ctx.b);
    NormalizeAapl();
    assert PyTruthy(Finite(190.0));
  }

  /** The AAPL request leaves r, q, steps and paths at their defaults. */
  lemma AaplDefaults(b: Builtins)
    ensures var p := AaplChainParams();
            ToFloat(FieldOr(p, "r", FloatV(Finite(0.01))), b).Ok?
            && ToFloat(FieldOr(p, "q", FloatV(Zero)), b).Ok?
            && ToInt(FieldOr(p, "num_steps", IntV(252)), b) == Ok(252)
            && ToInt(FieldOr(p, "num_paths", IntV(50000)), b) == Ok(50000)
  {
    AaplAbsent();
  }

  /** A well-formed chain request for AAPL: the module as written fails it, the corrected
      task prices it. */
  lemma {:induction false} ChainRequestAsWrittenFails(ctx: Ctx)
    requires ctx.market.chainQuote("AAPL", "2025-01-17", Finite(150.0), "CALL") == ChainQuote(Some(Finite(190.0)), Finite(0.25), false)
    ensures OptionResultAsWritten(ctx, NoneV, DictV(AaplChainParams())) == Err(UnboundTicker)
    ensures OptionResult(ctx, NoneV, DictV(AaplChainParams())).Ok?
  {
    AaplChainBranch(ctx.b);
    AaplChainRequestOk(ctx);
    var req := ChainRequest(ctx, AaplChainParams()).value;
    assert McShapeError(req.paths, req.steps).None?;
    assert RequestPrice(ctx, req).Ok?;
  }

  lemma NormalizeAapl()
    ensures NormalizeText("AAPL") == "AAPL"
  {
    assert Upper("AAPL") == "AAPL";
    assert Trimmed("AAPL");
    NormalizeFixedPoint("AAPL");
  }
}
