/** backend/tasks/optimization.py: the run_optimization_job task.  It writes "Running",
    resolves the portfolio, reads its tickers, turns the constraint label into solver flags,
    parses the target, sets up and runs the mean-variance or the QAOA optimiser, and ends
    with one "Succeeded" or "Failed" write.  The assets collection, the yfinance history,
    SciPy's SLSQP, the Qiskit solve and the dot products are the fields of `Numerics`. */
module Optimization {
  import opened Base
  import opened Floats
  import opened PyValue
  import opened Jobs

  // ---------------------------------------------------------------------------
  // What the Celery task calls but the model does not interpret
  // ---------------------------------------------------------------------------

  /** Annualised mean daily returns `mu` and covariance of the portfolio's tickers. */
  datatype Moments = Moments(mu: seq<Num>, cov: seq<seq<Num>>)

  /** One constraint handed to SLSQP. */
  datatype Constraint =
    | Budget                  // sum(w) - 1 == 0
    | MinReturn(target: Num)  // mu . w - target >= 0

  /** What `_mv_optimize` hands to `minimize`: the weight `lam` of the return term in the
      objective, the constraints in order, and one (lo, hi) pair per asset or none. */
  datatype MvProblem = MvProblem(lam: real, cons: seq<Constraint>, bounds: Option<seq<(real, real)>>)

  /** `res.x`, `res.success` and `res.message` of the SLSQP run. */
  datatype Minimized = Minimized(x: seq<Num>, success: bool, message: string)

  datatype Numerics = Numerics(
    assets: Value -> seq<seq<(Key, Value)>>,          // db.assets.find({"portfolioId": id}, {"ticker": 1})
    history: (seq<Value>, Value) -> Result<Moments>,  // _fetch_history(tickers, period), returns * 252
    minimize: (Moments, MvProblem) -> Minimized,      // SLSQP from equal weights, maxiter 500
    performance: (Moments, seq<Num>) -> (Num, Num),   // (mu . w, sqrt(w' Sigma w))
    qaoa: (Moments, int) -> Result<seq<Num>>)         // the QAOA weights for k assets, or str(e)

  // ---------------------------------------------------------------------------
  // The portfolio and its tickers
  // ---------------------------------------------------------------------------

  /** The job document's portfolioId as `find_one({"id": job_id})` projects it, or None
      when no job has that id. */
  function StoredPortfolio(docs: seq<Job>, jid: string): (r: Option<Value>)
    ensures r.None? <==> FirstIndex(docs, jid).None?
    ensures r.Some? ==> r.value == docs[FirstIndex(docs, jid).value].portfolioId
  {
    match FirstIndex(docs, jid)
    case None => None
    case Some(i) => Some(docs[i].portfolioId)
  }

  /** A status write leaves the portfolio the Celery task reads afterwards as it was. */
  lemma {:induction false} StoredPortfolioSurvivesStatus(docs: seq<Job>, jid: string, status: string,
                                                         result: Value, error: Option<string>, now: int)
    ensures StoredPortfolio(SetStatusIn(docs, jid, status, result, error, now), jid) == StoredPortfolio(docs, jid)
  {
    var r := SetStatusIn(docs, jid, status, result, error, now);
    if FirstIndex(docs, jid).Some? {
      var i := FirstIndex(docs, jid).value;
      assert SameIdentity(docs[i], r[i]);
    }
  }

  /** `params.get("portfolioId") or params.get("portfolio_id")`, replaced by the job
      document's portfolioId when falsy and the document exists.  The result is falsy
      exactly when all three are. */
  function PortfolioId(e: seq<(Key, Value)>, stored: Option<Value>): (r: Value)
    ensures Truthy(Field(e, "portfolioId")) ==> r == Field(e, "portfolioId")
    ensures !Truthy(Field(e, "portfolioId")) && Truthy(Field(e, "portfolio_id")) ==> r == Field(e, "portfolio_id")
    ensures !Truthy(Field(e, "portfolioId")) && !Truthy(Field(e, "portfolio_id")) && stored.Some? ==>
              r == stored.value
    ensures !Truthy(r) <==> !Truthy(Field(e, "portfolioId")) && !Truthy(Field(e, "portfolio_id"))
                            && (stored.None? || !Truthy(stored.value))
  {
    var given := if Truthy(Field(e, "portfolioId")) then Field(e, "portfolioId") else Field(e, "portfolio_id");
    if !Truthy(given) && stored.Some? then stored.value else given
  }

  /** `[a["ticker"] for a in assets]`: a KeyError, whose text is `'ticker'`, at the first
      asset document without one. */
  function Tickers(assets: seq<seq<(Key, Value)>>): (r: Result<seq<Value>>)
    ensures r.Ok? <==> forall i :: 0 <= i < |assets| ==> HasKey(assets[i], KStr("ticker"))
    ensures r.Err? ==> r.msg == "'ticker'"
    ensures r.Ok? ==> |r.value| == |assets|
                      && forall i :: 0 <= i < |assets| ==> Lookup(assets[i], KStr("ticker")) == Some(r.value[i])
  {
    if |assets| == 0 then Ok([])
    else
      match Lookup(assets[0], KStr("ticker"))
      case None => Err("'ticker'")
      case Some(t) =>
        var rest := Tickers(assets[1..]);
        assert forall i :: 1 <= i < |assets| ==> assets[1..][i - 1] == assets[i];
        if rest.Err? then rest else Ok([t] + rest.value)
  }

  // ---------------------------------------------------------------------------
  // The constraint label and the target
  // ---------------------------------------------------------------------------

  /** The text before the first "=" (all of it when there is none). */
  function BeforeEq(s: string): (r: string)
    ensures '=' !in r && |r| <= |s| && r == s[..|r|]
    ensures |r| < |s| ==> s[|r|] == '='
  {
    if |s| == 0 || s[0] == '=' then "" else [s[0]] + BeforeEq(s[1..])
  }

  /** `s.split("=")[1]`: the text between the first "=" and the next one, or None (an
      IndexError) when `s` has no "=". */
  function SecondField(s: string): (r: Option<string>)
    ensures r.None? <==> '=' !in s
    ensures r.Some? ==> '=' !in r.value
  {
    if |s| == 0 then None
    else if s[0] == '=' then Some(BeforeEq(s[1..]))
    else
      var r := SecondField(s[1..]);
      assert '=' in s <==> '=' in s[1..];
      r
  }

  /** Whatever comes before the first "=" and after the second, the field between them is
      what `split("=")[1]` returns. */
  lemma {:induction false} SecondFieldOf(p: string, t: string, rest: string)
    requires '=' !in p && '=' !in t && (rest == "" || rest[0] == '=')
    ensures SecondField(p + "=" + t + rest) == Some(t)
  {
    if |p| == 0 {
      var s := "=" + t + rest;
      assert p + "=" + t + rest == s;
      assert s[1..] == t + rest;
      BeforeEqOf(t, rest);
    } else {
      assert (p + "=" + t + rest)[1..] == p[1..] + "=" + t + rest;
      SecondFieldOf(p[1..], t, rest);
    }
  }

  lemma {:induction false} BeforeEqOf(t: string, rest: string)
    requires '=' !in t && (rest == "" || rest[0] == '=')
    ensures BeforeEq(t + rest) == t
  {
    if |t| > 0 {
      assert (t + rest)[1..] == t[1..] + rest;
      BeforeEqOf(t[1..], rest);
    }
  }

  /** `int(np.sqrt(n))` for a count: the integer square root. */
  function ISqrt(n: nat): (r: nat)
    ensures r * r <= n < (r + 1) * (r + 1)
  {
    SqrtFrom(n, 0)
  }

  function SqrtFrom(n: nat, k: nat): (r: nat)
    requires k * k <= n
    ensures r * r <= n < (r + 1) * (r + 1)
    decreases n - k
  {
    if (k + 1) * (k + 1) > n then k
    else
      assert k + 1 <= (k + 1) * (k + 1);
      SqrtFrom(n, k + 1)
  }

  function Max(a: int, b: int): int { if a < b then b else a }

  /** The cardinality a "Cardinality..." label asks for: the integer between the first "="
      and the next, or max(1, floor(sqrt(n))) for `n` assets when there is none or it does
      not parse. */
  function CardinalityOf(constraint: string, n: nat, b: Builtins): (k: int)
    ensures SecondField(constraint).None? ==> k == Max(1, ISqrt(n))
    ensures SecondField(constraint).Some? && b.parseInt(SecondField(constraint).value).Some? ==>
              k == b.parseInt(SecondField(constraint).value).value
    ensures SecondField(constraint).Some? && b.parseInt(SecondField(constraint).value).None? ==>
              k == Max(1, ISqrt(n))
  {
    match SecondField(constraint)
    case None => Max(1, ISqrt(n))
    case Some(t) =>
      (match b.parseInt(t)
       case Some(k) => k
       case None => Max(1, ISqrt(n)))
  }

  /** The solver flags after the if/elif chain over the constraint label. */
  datatype Flags = Flags(longOnly: bool, grossLeq1: bool, wMax: Option<real>, cardinality: Option<int>)

  /** The flags a label yields, one flag at a time: both booleans start true and no branch
      clears them; only "Max weight 20%" sets a weight cap, only a label starting with
      "Cardinality" sets a cardinality. */
  function FlagsFor(constraint: string, n: nat, b: Builtins): (f: Flags)
    ensures f.longOnly && f.grossLeq1
    ensures f.wMax.Some? <==> constraint == "Max weight 20%"
    ensures f.wMax.Some? ==> f.wMax.value == 0.20
    ensures f.cardinality.Some? <==> StartsWith(constraint, "Cardinality")
    ensures f.cardinality.Some? ==> f.cardinality.value == CardinalityOf(constraint, n, b)
    ensures f.wMax.None? || f.cardinality.None?
  {
    Flags(true, true,
          if constraint == "Max weight 20%" then Some(0.20) else None,
          if StartsWith(constraint, "Cardinality") then Some(CardinalityOf(constraint, n, b)) else None)
  }

  /** The if/elif chain itself. */
  method ConstraintFlags(constraint: string, n: nat, b: Builtins) returns (f: Flags)
    ensures f == FlagsFor(constraint, n, b)
  {
    var wMax: Option<real> := None;
    var longOnly := true;
    var grossLeq1 := true;
    var cardinality: Option<int> := None;
    if constraint == "Long-only" {
      longOnly := true;
    } else if constraint == "Gross<=1" {
      longOnly := true;
      grossLeq1 := true;
    } else if constraint == "Max weight 20%" {
      longOnly := true;
      grossLeq1 := true;
      wMax := Some(0.20);
    } else if StartsWith(constraint, "Cardinality") {
      cardinality := Some(CardinalityOf(constraint, n, b));
    }
    f := Flags(longOnly, grossLeq1, wMax, cardinality);
  }

  /** "None", "Long-only", "Gross<=1" and any label the chain does not recognise all give
      the defaults. */
  lemma LabelsWithoutEffect(constraint: string, n: nat, b: Builtins)
    requires constraint != "Max weight 20%" && !StartsWith(constraint, "Cardinality")
    ensures FlagsFor(constraint, n, b) == Flags(true, true, None, None)
  {
  }

  /** "Cardinality=k" with an integer k asks for k assets; a bare "Cardinality" asks for
      max(1, floor(sqrt(n))). */
  lemma {:induction false} CardinalityLabels(t: string, n: nat, b: Builtins)
    requires '=' !in t
    ensures b.parseInt(t).Some? ==>
              FlagsFor("Cardinality=" + t, n, b).cardinality == Some(b.parseInt(t).value)
    ensures FlagsFor("Cardinality", n, b).cardinality == Some(Max(1, ISqrt(n)))
  {
    var s := "Cardinality=" + t;
    assert s == "Cardinality" + "=" + t + "";
    SecondFieldOf("Cardinality", t, "");
    assert s[..11] == "Cardinality";
  }

  /** `float(target) if (target is not None and str(target) != "") else None`; `str`
      gives the empty text only for the empty string. */
  function TargetOf(v: Value, b: Builtins): (r: Result<Option<Num>>)
    ensures (r.Ok? && r.value.None?) <==> v == NoneV || v == StrV("")
    ensures v.FloatV? ==> r == Ok(Some(v.f))
    ensures v.IntV? ==> r == Ok(Some(Finite(v.i as real)))
    ensures v.StrV? && v.s != "" ==> r == (if b.parseFloat(v.s).Some? then Ok(Some(b.parseFloat(v.s).value))
                                           else Err(FloatParseError + StrRepr(v.s)))
  {
    if v == NoneV || v == StrV("") then Ok(None)
    else
      var f := ToFloat(v, b);
      if f.Err? then Err(f.msg) else Ok(Some(f.value))
  }

  // ---------------------------------------------------------------------------
  // _mv_optimize
  // ---------------------------------------------------------------------------

  /** The bounds pair: 0 or -1 below, the cap or 1 or 10 above. */
  function Bound(longOnly: bool, grossLeq1: bool, wMax: Option<real>): (lohi: (real, real))
    ensures lohi.0 == (if longOnly then 0.0 else -1.0)
    ensures wMax.Some? ==> lohi.1 == wMax.value
    ensures wMax.None? ==> lohi.1 == (if grossLeq1 then 1.0 else 10.0)
  {
    (if longOnly then 0.0 else -1.0, if wMax.Some? then wMax.value else if grossLeq1 then 1.0 else 10.0)
  }

  /** The problem `_mv_optimize` sets up for `n` assets: a budget constraint iff
      `gross_leq_1`, a minimum-return constraint iff there is a target, in that order; the
      return term only without a target; the same bounds for every asset iff `long_only`
      or a cap is set. */
  function MvProblemFor(n: nat, target: Option<Num>, longOnly: bool, grossLeq1: bool, wMax: Option<real>): (p: MvProblem)
    ensures p.lam == 0.0 <==> target.Some?
    ensures target.None? ==> p.lam == 0.001
    ensures Budget in p.cons <==> grossLeq1
    ensures target.Some? ==> MinReturn(target.value) in p.cons
    ensures forall c :: c in p.cons ==> c == Budget || (target.Some? && c == MinReturn(target.value))
    ensures |p.cons| == (if grossLeq1 then 1 else 0) + (if target.Some? then 1 else 0)
    ensures grossLeq1 ==> p.cons[0] == Budget
    ensures p.bounds.Some? <==> longOnly || wMax.Some?
    ensures p.bounds.Some? ==> |p.bounds.value| == n
                               && forall i :: 0 <= i < n ==> p.bounds.value[i] == Bound(longOnly, grossLeq1, wMax)
  {
    MvProblem(if target.Some? then 0.0 else 0.001,
              (if grossLeq1 then [Budget] else []) + (if target.Some? then [MinReturn(target.value)] else []),
              if longOnly || wMax.Some? then Some(seq(n, i => Bound(longOnly, grossLeq1, wMax))) else None)
  }

  /** The statements of `_mv_optimize` up to the `minimize` call. */
  method MvSetup(n: nat, target: Option<Num>, longOnly: bool, grossLeq1: bool, wMax: Option<real>) returns (p: MvProblem)
    ensures p == MvProblemFor(n, target, longOnly, grossLeq1, wMax)
  {
    var lam := if target.Some? then 0.0 else 0.001;
    var cons: seq<Constraint> := [];
    if grossLeq1 {
      cons := cons + [Budget];
    }
    if target.Some? {
      cons := cons + [MinReturn(target.value)];
    }
    var bounds: Option<seq<(real, real)>> := None;
    if longOnly || wMax.Some? {
      var lo := if longOnly then 0.0 else -1.0;
      var hi := if wMax.Some? then wMax.value else if grossLeq1 then 1.0 else 10.0;
      bounds := Some(seq(n, i => (lo, hi)));
    }
    p := MvProblem(lam, cons, bounds);
  }

  /** `_mv_optimize`: set up the problem, minimise, normalise the weights and measure them. */
  method MvRun(nx: Numerics, m: Moments, target: Option<Num>, f: Flags) returns (sol: Solution)
    ensures sol == MvOptimize(nx, m, target, f)
  {
    var p := MvSetup(|m.mu|, target, f.longOnly, f.grossLeq1, f.wMax);
    var raw := nx.minimize(m, p);
    var w := Normalized(raw.x);
    var perf := nx.performance(m, w);
    sol := Solution(w, perf.0, perf.1, raw.success, raw.message);
  }

  /** Whatever the label, the Celery task's mean-variance problem keeps the budget constraint and
      bounds every weight to [0, 1], or to [0, 0.2] under "Max weight 20%". */
  lemma TaskProblemIsLongOnlyBudget(constraint: string, n: nat, b: Builtins, target: Option<Num>)
    ensures var f := FlagsFor(constraint, n, b);
            var p := MvProblemFor(n, target, f.longOnly, f.grossLeq1, f.wMax);
            Budget in p.cons && p.bounds.Some?
            && forall i :: 0 <= i < n ==>
                 p.bounds.value[i] == (0.0, if constraint == "Max weight 20%" then 0.20 else 1.0)
  {
  }

  /** `np.sum(w)`. */
  function Sum(w: seq<Num>): Num
  {
    if |w| == 0 then Zero else Add(w[0], Sum(w[1..]))
  }

  /** `w / s` element by element. */
  function Scale(w: seq<Num>, s: Num): (r: seq<Num>)
    requires s != Zero
    ensures |r| == |w| && forall i :: 0 <= i < |w| ==> r[i] == Div(w[i], s)
  {
    seq(|w|, i requires 0 <= i < |w| => Div(w[i], s))
  }

  /** `if s != 0: w = w / s` with `s = w.sum()`. */
  function Normalized(w: seq<Num>): (r: seq<Num>)
    ensures |r| == |w|
    ensures Sum(w) == Zero ==> r == w
    ensures Sum(w) != Zero ==> r == Scale(w, Sum(w))
    ensures (forall i :: 0 <= i < |w| ==> w[i].Finite?) && Sum(w) != Zero ==> Sum(r) == Finite(1.0)
  {
    if Sum(w) == Zero then w
    else
      var s := Sum(w);
      if forall i :: 0 <= i < |w| ==> w[i].Finite? then
        SumOfFinite(w);
        SumScaled(w, s.r);
        DivSelf(s.r);
        Scale(w, s)
      else Scale(w, s)
  }

  lemma DivSelf(x: real)
    requires x != 0.0
    ensures x / x == 1.0
  {
  }

  lemma {:induction false} SumOfFinite(w: seq<Num>)
    requires forall i :: 0 <= i < |w| ==> w[i].Finite?
    ensures Sum(w).Finite?
  {
    if |w| > 0 {
      SumOfFinite(w[1..]);
    }
  }

  /** For finite weights, the sum of the scaled weights is the scaled sum. */
  lemma {:induction false} SumScaled(w: seq<Num>, s: real)
    requires s != 0.0 && forall i :: 0 <= i < |w| ==> w[i].Finite?
    ensures Sum(w).Finite? && Sum(Scale(w, Finite(s))) == Finite(Sum(w).r / s)
  {
    SumOfFinite(w);
    if |w| > 0 {
      SumScaled(w[1..], s);
      assert Scale(w, Finite(s))[1..] == Scale(w[1..], Finite(s));
      assert w[0].r / s + Sum(w[1..]).r / s == (w[0].r + Sum(w[1..]).r) / s;
    }
  }

  /** What an optimiser returns: weights, return, volatility, success flag, message. */
  datatype Solution = Solution(w: seq<Num>, ret: Num, vol: Num, ok: bool, message: string)

  /** `_mv_optimize(mu, Sigma, ...)`: SLSQP on the problem above, its weights rescaled to
      sum to one unless they sum to zero, and their return and volatility. */
  function MvOptimize(nx: Numerics, m: Moments, target: Option<Num>, f: Flags): (s: Solution)
    ensures var raw := nx.minimize(m, MvProblemFor(|m.mu|, target, f.longOnly, f.grossLeq1, f.wMax));
            s.ok == raw.success && s.message == raw.message && s.w == Normalized(raw.x)
            && ((forall i :: 0 <= i < |raw.x| ==> raw.x[i].Finite?) && Sum(raw.x) != Zero ==> Sum(s.w) == Finite(1.0))
    ensures (s.ret, s.vol) == nx.performance(m, s.w)
  {
    var raw := nx.minimize(m, MvProblemFor(|m.mu|, target, f.longOnly, f.grossLeq1, f.wMax));
    var w := Normalized(raw.x);
    var perf := nx.performance(m, w);
    Solution(w, perf.0, perf.1, raw.success, raw.message)
  }

  /** `_qaoa_optimize(Sigma, mu, cardinality)`: without a cardinality it selects
      max(1, floor(sqrt(n))) assets; whatever the solve raises becomes "QAOA failed: ...". */
  function QaoaOptimize(nx: Numerics, m: Moments, cardinality: Option<int>): (r: Result<Solution>)
    ensures var k := if cardinality.Some? then cardinality.value else Max(1, ISqrt(|m.mu|));
            (r.Ok? <==> nx.qaoa(m, k).Ok?)
            && (r.Ok? ==> r.value.w == nx.qaoa(m, k).value && r.value.ok && r.value.message == "QAOA ok")
            && (r.Err? ==> r.msg == "QAOA failed: " + nx.qaoa(m, k).msg)
  {
    var k := if cardinality.Some? then cardinality.value else Max(1, ISqrt(|m.mu|));
    match nx.qaoa(m, k)
    case Err(e) => Err("QAOA failed: " + e)
    case Ok(w) =>
      var perf := nx.performance(m, w);
      Ok(Solution(w, perf.0, perf.1, true, "QAOA ok"))
  }

  // ---------------------------------------------------------------------------
  // The result document
  // ---------------------------------------------------------------------------

  /** `pret / pvol if pvol > 0 else None`. */
  function Sharpe(ret: Num, vol: Num): (r: Value)
    ensures !Positive(vol) ==> r == NoneV
    ensures Positive(vol) ==> r == FloatV(DivPos(ret, vol))
  {
    if Positive(vol) then FloatV(DivPos(ret, vol)) else NoneV
  }

  function OptFloat(x: Option<Num>): Value
  {
    if x.Some? then FloatV(x.value) else NoneV
  }

  function OptInt(x: Option<int>): Value
  {
    if x.Some? then IntV(x.value) else NoneV
  }

  function Weights(w: seq<Num>): Value
  {
    ListV(seq(|w|, i requires 0 <= i < |w| => FloatV(w[i])))
  }

  function Insights(tickers: seq<Value>, period: Value, s: Solution): Value
  {
    Dict([("Assets", IntV(|tickers|)), ("Period", period), ("Ok", BoolV(s.ok)), ("Message", StrV(s.message))])
  }

  /** `{"algo", "constraint", "target", "insights", **res}` with `res` the branch's
      weights, tickers, expectedReturn, volatility, sharpe, ok and message; the keys of
      `res` are all new, so the merge appends them. */
  function ResultHead(algo: Value, constraint: Value, target: Value, insights: Value,
                      weights: Value, tickers: Value, ret: Value, vol: Value, sharpe: Value,
                      ok: Value, message: Value): seq<(string, Value)>
  {
    [("algo", algo), ("constraint", constraint), ("target", target), ("insights", insights),
     ("weights", weights), ("tickers", tickers), ("expectedReturn", ret), ("volatility", vol),
     ("sharpe", sharpe), ("ok", ok), ("message", message)]
  }

  /** The QAOA `res` ends with a cardinality. */
  function CardinalityItems(cardinality: Option<Value>): seq<(string, Value)>
  {
    if cardinality.Some? then [("cardinality", cardinality.value)] else []
  }

  function ResultItems(algo: Value, constraint: Value, target: Value, insights: Value,
                       weights: Value, tickers: Value, ret: Value, vol: Value, sharpe: Value,
                       ok: Value, message: Value, cardinality: Option<Value>): seq<(string, Value)>
  {
    ResultHead(algo, constraint, target, insights, weights, tickers, ret, vol, sharpe, ok, message)
    + CardinalityItems(cardinality)
  }

  // What a look-up of each key finds in the result, one key per lemma.

  lemma ResultLookupAlgo(algo: Value, constraint: Value, target: Value, insights: Value,
                         weights: Value, tickers: Value, ret: Value, vol: Value, sharpe: Value,
                         ok: Value, message: Value, cardinality: Option<Value>)
    ensures Lookup(Dict(ResultItems(algo, constraint, target, insights, weights, tickers, ret, vol, sharpe, ok, message, cardinality)).entries, KStr("algo")) == Some(algo)
  {
    var h := ResultItems(algo, constraint, target, insights, weights, tickers, ret, vol, sharpe, ok, message, cardinality);
    DictLookup(h, 0);
  }

  lemma ResultLookupConstraint(algo: Value, constraint: Value, target: Value, insights: Value,
                               weights: Value, tickers: Value, ret: Value, vol: Value, sharpe: Value,
                               ok: Value, message: Value, cardinality: Option<Value>)
    ensures Lookup(Dict(ResultItems(algo, constraint, target, insights, weights, tickers, ret, vol, sharpe, ok, message, cardinality)).entries, KStr("constraint")) == Some(constraint)
  {
    var h := ResultItems(algo, constraint, target, insights, weights, tickers, ret, vol, sharpe, ok, message, cardinality);
    assert forall j :: 0 <= j < 1 ==> h[j].0 != "constraint";
    DictLookup(h, 1);
  }

  lemma ResultLookupTarget(algo: Value, constraint: Value, target: Value, insights: Value,
                           weights: Value, tickers: Value, ret: Value, vol: Value, sharpe: Value,
                           ok: Value, message: Value, cardinality: Option<Value>)
    ensures Lookup(Dict(ResultItems(algo, constraint, target, insights, weights, tickers, ret, vol, sharpe, ok, message, cardinality)).entries, KStr("target")) == Some(target)
  {
    var h := ResultItems(algo, constraint, target, insights, weights, tickers, ret, vol, sharpe, ok, message, cardinality);
    assert forall j :: 0 <= j < 2 ==> h[j].0 != "target";
    DictLookup(h, 2);
  }

  lemma ResultLookupInsights(algo: Value, constraint: Value, target: Value, insights: Value,
                             weights: Value, tickers: Value, ret: Value, vol: Value, sharpe: Value,
                             ok: Value, message: Value, cardinality: Option<Value>)
    ensures Lookup(Dict(ResultItems(algo, constraint, target, insights, weights, tickers, ret, vol, sharpe, ok, message, cardinality)).entries, KStr("insights")) == Some(insights)
  {
    var h := ResultItems(algo, constraint, target, insights, weights, tickers, ret, vol, sharpe, ok, message, cardinality);
    assert forall j :: 0 <= j < 3 ==> h[j].0 != "insights";
    DictLookup(h, 3);
  }

  lemma ResultLookupTickers(algo: Value, constraint: Value, target: Value, insights: Value,
                            weights: Value, tickers: Value, ret: Value, vol: Value, sharpe: Value,
                            ok: Value, message: Value, cardinality: Option<Value>)
    ensures Lookup(Dict(ResultItems(algo, constraint, target, insights, weights, tickers, ret, vol, sharpe, ok, message, cardinality)).entries, KStr("tickers")) == Some(tickers)
  {
    var h := ResultItems(algo, constraint, target, insights, weights, tickers, ret, vol, sharpe, ok, message, cardinality);
    assert forall j :: 0 <= j < 5 ==> h[j].0 != "tickers";
    DictLookup(h, 5);
  }

  lemma ResultLookupSharpe(algo: Value, constraint: Value, target: Value, insights: Value,
                           weights: Value, tickers: Value, ret: Value, vol: Value, sharpe: Value,
                           ok: Value, message: Value, cardinality: Option<Value>)
    ensures Lookup(Dict(ResultItems(algo, constraint, target, insights, weights, tickers, ret, vol, sharpe, ok, message, cardinality)).entries, KStr("sharpe")) == Some(sharpe)
  {
    var h := ResultItems(algo, constraint, target, insights, weights, tickers, ret, vol, sharpe, ok, message, cardinality);
    assert forall j :: 0 <= j < 8 ==> h[j].0 != "sharpe";
    DictLookup(h, 8);
  }

  lemma ResultLookupCardinality(algo: Value, constraint: Value, target: Value, insights: Value,
                                weights: Value, tickers: Value, ret: Value, vol: Value, sharpe: Value,
                                ok: Value, message: Value, cardinality: Option<Value>)
    ensures var e := Dict(ResultItems(algo, constraint, target, insights, weights, tickers, ret, vol, sharpe, ok, message, cardinality)).entries;
            (HasKey(e, KStr("cardinality")) <==> cardinality.Some?)
            && (cardinality.Some? ==> Lookup(e, KStr("cardinality")) == Some(cardinality.value))
  {
    var h := ResultItems(algo, constraint, target, insights, weights, tickers, ret, vol, sharpe, ok, message, cardinality);
    assert forall j :: 0 <= j < 11 ==> h[j].0 != "cardinality";
    DictHasKey(h, "cardinality");
    if cardinality.Some? {
      DictLookup(h, 11);
    }
  }

  function OptimizationValue(algo: Value, constraint: string, target: Option<Num>, period: Value,
                             tickers: seq<Value>, s: Solution, cardinality: Option<Option<int>>): (v: Value)
    ensures v.DictV? && |v.entries| == (if cardinality.Some? then 12 else 11)
    ensures Lookup(v.entries, KStr("algo")) == Some(algo)
    ensures Lookup(v.entries, KStr("constraint")) == Some(StrV(constraint))
    ensures Lookup(v.entries, KStr("target")) == Some(OptFloat(target))
    ensures Lookup(v.entries, KStr("insights")) == Some(Insights(tickers, period, s))
    ensures Lookup(v.entries, KStr("tickers")) == Some(ListV(tickers))
    ensures Lookup(v.entries, KStr("sharpe")) == Some(Sharpe(s.ret, s.vol))
    ensures HasKey(v.entries, KStr("cardinality")) <==> cardinality.Some?
    ensures cardinality.Some? ==> Lookup(v.entries, KStr("cardinality")) == Some(OptInt(cardinality.value))
  {
    var card := if cardinality.Some? then Some(OptInt(cardinality.value)) else None;
    var a := (algo, StrV(constraint), OptFloat(target), Insights(tickers, period, s), Weights(s.w),
              ListV(tickers), FloatV(s.ret), FloatV(s.vol), Sharpe(s.ret, s.vol), BoolV(s.ok), StrV(s.message));
    ResultLookupAlgo(a.0, a.1, a.2, a.3, a.4, a.5, a.6, a.7, a.8, a.9, a.10, card);
    ResultLookupConstraint(a.0, a.1, a.2, a.3, a.4, a.5, a.6, a.7, a.8, a.9, a.10, card);
    ResultLookupTarget(a.0, a.1, a.2, a.3, a.4, a.5, a.6, a.7, a.8, a.9, a.10, card);
    ResultLookupInsights(a.0, a.1, a.2, a.3, a.4, a.5, a.6, a.7, a.8, a.9, a.10, card);
    ResultLookupTickers(a.0, a.1, a.2, a.3, a.4, a.5, a.6, a.7, a.8, a.9, a.10, card);
    ResultLookupSharpe(a.0, a.1, a.2, a.3, a.4, a.5, a.6, a.7, a.8, a.9, a.10, card);
    ResultLookupCardinality(a.0, a.1, a.2, a.3, a.4, a.5, a.6, a.7, a.8, a.9, a.10, card);
    Dict(ResultItems(a.0, a.1, a.2, a.3, a.4, a.5, a.6, a.7, a.8, a.9, a.10, card))
  }

  // ---------------------------------------------------------------------------
  // run_optimization_job
  // ---------------------------------------------------------------------------

  /** What the Celery task has read and parsed before it picks the optimiser. */
  datatype Setup = Setup(tickers: seq<Value>, moments: Moments, constraint: string,
                         target: Option<Num>, flags: Flags, period: Value)

  /** The portfolio id, its tickers, the history, the constraint label, the target and the
      flags, stopping at the first error. */
  function SetupFor(nx: Numerics, b: Builtins, e: seq<(Key, Value)>, stored: Option<Value>): (r: Result<Setup>)
    ensures !Truthy(PortfolioId(e, stored)) ==> r == Err("portfolioId required")
    ensures Truthy(PortfolioId(e, stored)) && nx.assets(PortfolioId(e, stored)) == [] ==>
              r == Err("No assets in portfolio")
    ensures r.Ok? ==> var s := r.value;
              Tickers(nx.assets(PortfolioId(e, stored))) == Ok(s.tickers) && |s.tickers| > 0
              && s.period == FieldOr(e, "period", StrV("3y"))
              && nx.history(s.tickers, s.period) == Ok(s.moments)
              && s.constraint == Str(FieldOr(e, "constraint", StrV("None")), b.floatRepr)
              && TargetOf(Field(e, "target"), b) == Ok(s.target)
              && s.flags == FlagsFor(s.constraint, |s.moments.mu|, b)
  {
    var pid := PortfolioId(e, stored);
    if !Truthy(pid) then Err("portfolioId required")
    else
      var tickers := Tickers(nx.assets(pid));
      if tickers.Err? then Err(tickers.msg)
      else if |tickers.value| == 0 then Err("No assets in portfolio")
      else
        var period := FieldOr(e, "period", StrV("3y"));
        var hist := nx.history(tickers.value, period);
        if hist.Err? then Err(hist.msg)
        else
          var constraint := Str(FieldOr(e, "constraint", StrV("None")), b.floatRepr);
          var target := TargetOf(Field(e, "target"), b);
          if target.Err? then Err(target.msg)
          else Ok(Setup(tickers.value, hist.value, constraint, target.value,
                        FlagsFor(constraint, |hist.value.mu|, b), period))
  }

  /** The algo switch: MeanVariance, QAOA or QUBO, anything else an error. */
  function Optimize(nx: Numerics, b: Builtins, algo: Value, s: Setup): (r: Result<Value>)
    ensures algo == StrV("MeanVariance") ==>
              r == Ok(OptimizationValue(algo, s.constraint, s.target, s.period, s.tickers,
                                        MvOptimize(nx, s.moments, s.target, s.flags), None))
    ensures algo == StrV("QAOA") || algo == StrV("QUBO") ==>
              var q := QaoaOptimize(nx, s.moments, s.flags.cardinality);
              r == if q.Err? then Err(q.msg)
                   else Ok(OptimizationValue(algo, s.constraint, s.target, s.period, s.tickers,
                                             q.value, Some(s.flags.cardinality)))
    ensures algo !in {StrV("MeanVariance"), StrV("QAOA"), StrV("QUBO")} ==>
              r == Err("Unknown algo " + Str(algo, b.floatRepr))
  {
    if algo == StrV("MeanVariance") then
      Ok(OptimizationValue(algo, s.constraint, s.target, s.period, s.tickers,
                           MvOptimize(nx, s.moments, s.target, s.flags), None))
    else if algo == StrV("QAOA") || algo == StrV("QUBO") then
      var q := QaoaOptimize(nx, s.moments, s.flags.cardinality);
      if q.Err? then Err(q.msg)
      else Ok(OptimizationValue(algo, s.constraint, s.target, s.period, s.tickers,
                                q.value, Some(s.flags.cardinality)))
    else Err("Unknown algo " + Str(algo, b.floatRepr))
  }

  /** The value the `try` block hands to set_job_status, or the text of what it raised. */
  function OptimizationResult(nx: Numerics, b: Builtins, algo: Value, params: Value, stored: Option<Value>): (r: Result<Value>)
    ensures !params.DictV? ==> r == Err(AttributeError(params, "get"))
    ensures params.DictV? && SetupFor(nx, b, params.entries, stored).Err? ==>
              r == Err(SetupFor(nx, b, params.entries, stored).msg)
    ensures params.DictV? && SetupFor(nx, b, params.entries, stored).Ok? ==>
              r == Optimize(nx, b, algo, SetupFor(nx, b, params.entries, stored).value)
    ensures r.Ok? ==> algo in {StrV("MeanVariance"), StrV("QAOA"), StrV("QUBO")}
    ensures r.Ok? ==> r.value.DictV? && (HasKey(r.value.entries, KStr("cardinality")) <==> algo != StrV("MeanVariance"))
  {
    if !params.DictV? then Err(AttributeError(params, "get"))
    else
      var s := SetupFor(nx, b, params.entries, stored);
      if s.Err? then Err(s.msg) else Optimize(nx, b, algo, s.value)
  }

  /** Position of the check decides the error: an unknown algo is reported only once the
      portfolio, its history and the target have all been read. */
  lemma UnknownAlgoAfterSetup(nx: Numerics, b: Builtins, algo: Value, params: Value, stored: Option<Value>)
    requires params.DictV? && algo !in {StrV("MeanVariance"), StrV("QAOA"), StrV("QUBO")}
    ensures var s := SetupFor(nx, b, params.entries, stored);
            OptimizationResult(nx, b, algo, params, stored)
              == if s.Err? then Err(s.msg) else Err("Unknown algo " + Str(algo, b.floatRepr))
  {
  }

  /** A successful result reports as many assets as the portfolio has tickers, and a
      cardinality other than None only for a "Cardinality" label. */
  lemma {:induction false} SucceededResultInsights(nx: Numerics, b: Builtins, algo: Value, params: Value,
                                                   stored: Option<Value>)
    requires OptimizationResult(nx, b, algo, params, stored).Ok?
    ensures var s := SetupFor(nx, b, params.entries, stored).value;
            var v := OptimizationResult(nx, b, algo, params, stored).value;
            Lookup(v.entries, KStr("tickers")) == Some(ListV(s.tickers))
            && Lookup(v.entries, KStr("insights")).Some?
            && Lookup(Lookup(v.entries, KStr("insights")).value.entries, KStr("Assets")) == Some(IntV(|s.tickers|))
            && (Lookup(v.entries, KStr("cardinality")).Some? && Lookup(v.entries, KStr("cardinality")) != Some(NoneV)
                ==> StartsWith(s.constraint, "Cardinality"))
  {
    var s := SetupFor(nx, b, params.entries, stored).value;
    var v := OptimizationResult(nx, b, algo, params, stored).value;
    var ms: Solution;
    if algo == StrV("MeanVariance") {
      ms := MvOptimize(nx, s.moments, s.target, s.flags);
    } else {
      ms := QaoaOptimize(nx, s.moments, s.flags.cardinality).value;
    }
    assert Lookup(v.entries, KStr("insights")) == Some(Insights(s.tickers, s.period, ms));
    DictLookup([("Assets", IntV(|s.tickers|)), ("Period", s.period), ("Ok", BoolV(ms.ok)),
                ("Message", StrV(ms.message))], 0);
  }

  /** run_optimization_job: "Running" first, then the Celery task body, then exactly one
      terminal write.  The portfolio fallback is read from the job document after the
      first write, which leaves it unchanged. */
  method RunOptimizationJob(store: JobStore, jobId: string, algo: Value, params: Value,
                            nx: Numerics, b: Builtins, started: int, finished: int) returns (o: Outcome)
    modifies store
    ensures o == Finish(OptimizationResult(nx, b, algo, params, StoredPortfolio(old(store.docs), jobId)))
    ensures store.docs == SetStatusIn(SetStatusIn(old(store.docs), jobId, "Running", NoneV, None, started),
                                      jobId, o.status, o.result, o.error, finished)
  {
    store.SetJobStatus(jobId, "Running", NoneV, None, started);
    StoredPortfolioSurvivesStatus(old(store.docs), jobId, "Running", NoneV, None, started);
    var res := JobBody(nx, b, algo, params, StoredPortfolio(store.docs, jobId));
    o := Finish(res);
    store.SetJobStatus(jobId, o.status, o.result, o.error, finished);
  }

  /** The `try` block of run_optimization_job, step by step. */
  method JobBody(nx: Numerics, b: Builtins, algo: Value, params: Value, stored: Option<Value>)
    returns (res: Result<Value>)
    ensures res == OptimizationResult(nx, b, algo, params, stored)
  {
    if !params.DictV? {
      res := Err(AttributeError(params, "get"));
    } else {
      var setup := SetupFor(nx, b, params.entries, stored);
      if setup.Err? {
        res := Err(setup.msg);
      } else {
        var s := setup.value;
        var flags := ConstraintFlags(s.constraint, |s.moments.mu|, b);
        assert flags == s.flags;
        assert OptimizationResult(nx, b, algo, params, stored) == Optimize(nx, b, algo, s);
        if algo == StrV("MeanVariance") {
          var sol := MvRun(nx, s.moments, s.target, flags);
          res := Ok(OptimizationValue(algo, s.constraint, s.target, s.period, s.tickers, sol, None));
        } else if algo == StrV("QAOA") || algo == StrV("QUBO") {
          var q := QaoaOptimize(nx, s.moments, flags.cardinality);
          if q.Err? {
            res := Err(q.msg);
          } else {
            res := Ok(OptimizationValue(algo, s.constraint, s.target, s.period, s.tickers,
                                        q.value, Some(flags.cardinality)));
          }
        } else {
          res := Err("Unknown algo " + Str(algo, b.floatRepr));
        }
      }
    }
  }
}
