/** The portfolio page's two job forms: option pricing, whose params are the form's
    entries with the chain picks laid over them, and optimisation. */
module PortfolioDetail {
  import opened Base
  import opened Floats
  import opened PyValue
  import opened OptionPricing
  import opened Optimization
  import opened Browser

  // ---------------------------------------------------------------------------
  // The option chain picks
  // ---------------------------------------------------------------------------

  /** The chain-mode state: the ticker typed, the expirations and strikes offered, and
      the ones selected; a strike of `None` is the `''` of the source. */
  class ChainPicker {
    var ticker: string
    var expiries: seq<string>
    var expiry: string
    var strikes: seq<real>
    var strike: Option<real>

    constructor ()
      ensures ticker == "" && expiries == [] && expiry == "" && strikes == [] && strike.None?
    {
      ticker, expiries, expiry, strikes, strike := "", [], "", [], None;
    }

    /** The ticker input upper-cases what is typed. */
    method SetTicker(typed: string)
      modifies this`ticker
      ensures ticker == Upper(typed)
      ensures forall i :: 0 <= i < |ticker| ==> !IsLowerAscii(ticker[i])
    {
      ticker := Upper(typed);
    }

    /** loadExpiries: nothing without a ticker; otherwise the expirations answered (none
        when the answer has no list) and the first of them selected, or "". */
    method LoadExpiries(reply: Option<seq<string>>)
      modifies this`expiries, this`expiry
      ensures ticker == "" ==> expiries == old(expiries) && expiry == old(expiry)
      ensures ticker != "" ==> expiries == (if reply.Some? then reply.value else [])
      ensures ticker != "" ==> (expiry == if |expiries| > 0 then expiries[0] else "")
    {
      if ticker != "" {
        expiries := if reply.Some? then reply.value else [];
        expiry := if |expiries| > 0 then expiries[0] else "";
      }
    }

    /** loadStrikes: nothing without a ticker and an expiry; otherwise the chain's strike
        list, with its middle strike selected when there is one and it is not 0. */
    method LoadStrikes(calls: seq<real>, puts: seq<real>)
      modifies this`strikes, this`strike
      ensures ticker == "" || expiry == "" ==> strikes == old(strikes) && strike == old(strike)
      ensures ticker != "" && expiry != "" ==> strikes == StrikeList(calls, puts)
      ensures ticker != "" && expiry != "" ==>
                strike == if |strikes| > 0 && MiddleStrike(strikes) != 0.0 then Some(MiddleStrike(strikes)) else None
    {
      if ticker != "" && expiry != "" {
        strikes := StrikeList(calls, puts);
        strike := if |strikes| > 0 && MiddleStrike(strikes) != 0.0 then Some(MiddleStrike(strikes)) else None;
      }
    }
  }

  /** A selected strike is one the chain offers, and the median of its strikes. */
  lemma SelectedStrikeIsOffered(calls: seq<real>, puts: seq<real>, strike: Option<real>)
    requires var u := StrikeList(calls, puts);
             strike == if |u| > 0 && MiddleStrike(u) != 0.0 then Some(MiddleStrike(u)) else None
    ensures strike.Some? ==> strike.value in calls || strike.value in puts
    ensures strike.Some? ==> var u := StrikeList(calls, puts);
              forall i :: 0 <= i < |u| ==> (u[i] < strike.value <==> i < |u| / 2)
  {
    var u := StrikeList(calls, puts);
    if strike.Some? {
      MiddleStrikeIsMedian(calls, puts);
    }
  }

  // ---------------------------------------------------------------------------
  // The pricing form
  // ---------------------------------------------------------------------------

  /** The named inputs of the pricing form, as the texts FormData reads. */
  datatype PricerForm = PricerForm(product: string, algo: string, priority: string, optionType: string,
                                   s0: string, k: string, t: string, r: string, sigma: string,
                                   q: string, numPaths: string, savePaths: bool)

  /** The selected chain values the pricing form lays over its entries. */
  datatype Picks = Picks(ticker: string, expiry: string, strike: Option<real>)

  /** `String(strike)`: the number's text, or "" for the blank strike. */
  function StrikeText(strike: Option<real>, js: Js): string
  {
    if strike.Some? then js.show(Finite(strike.value)) else ""
  }

  /** `x || d` on a form text. */
  function OrText(s: string, d: string): (r: string)
    ensures r == "" ==> d == ""
  {
    if s == "" then d else s
  }

  function HeadItems(f: PricerForm, tail: seq<(string, Value)>): seq<(string, Value)>
  {
    [("product", StrV(f.product))] + ([("algo", StrV(f.algo))] + ([("priority", StrV(f.priority))] + tail))
  }

  /** A ticked checkbox without a value attribute is sent as "on"; an unticked one is
      not sent. */
  function SaveItems(f: PricerForm): seq<(string, Value)>
  {
    if f.savePaths then [("save_paths", StrV("on"))] else []
  }

  function ChainItems(p: Picks, js: Js): seq<(string, Value)>
  {
    [("use_chain", StrV("true"))] + ([("ticker", StrV(p.ticker))] + ([("expiry", StrV(p.expiry))]
    + [("strike", StrV(StrikeText(p.strike, js)))]))
  }

  /** The inputs shown only without the chain, under the names the page gives them; the
      strike input is named "K". */
  function ManualItemsAsWritten(f: PricerForm, tail: seq<(string, Value)>): seq<(string, Value)>
  {
    [("option_type", StrV(f.optionType))] + ([("S0", StrV(f.s0))] + ([("K", StrV(f.k))] + ([("T", StrV(f.t))]
    + ([("r", StrV(f.r))] + ([("sigma", StrV(f.sigma))] + tail)))))
  }

  function TailItemsAsWritten(f: PricerForm, tail: seq<(string, Value)>): seq<(string, Value)>
  {
    [("q", StrV(f.q))] + ([("num_paths", StrV(f.numPaths))] + (SaveItems(f) + tail))
  }

  /** onPrice's params as written: every form entry in document order, and in chain mode
      the four chain keys added after them. */
  function PricerParamsAsWritten(f: PricerForm, useChain: bool, p: Picks, js: Js): (v: Value)
    ensures v.DictV?
  {
    if useChain then Dict(HeadItems(f, TailItemsAsWritten(f, ChainItems(p, js))))
    else Dict(HeadItems(f, ManualItemsAsWritten(f, TailItemsAsWritten(f, []))))
  }

  /** The strike input named "strike", as the backend reads it. */
  function ManualItems(f: PricerForm, tail: seq<(string, Value)>): seq<(string, Value)>
  {
    [("option_type", StrV(f.optionType))] + ([("S0", StrV(f.s0))] + ([("strike", StrV(f.k))] + ([("T", StrV(f.t))]
    + ([("r", StrV(f.r))] + ([("sigma", StrV(f.sigma))] + tail)))))
  }

  /** The optional q left out when blank, so that the backend's default applies. */
  function QItems(f: PricerForm): seq<(string, Value)>
  {
    if f.q == "" then [] else [("q", StrV(f.q))]
  }

  function TailItems(f: PricerForm, tail: seq<(string, Value)>): seq<(string, Value)>
  {
    QItems(f) + ([("num_paths", StrV(f.numPaths))] + (SaveItems(f) + tail))
  }

  /** onPrice's params with the strike under the name the backend reads and a blank q
      left out. */
  function PricerParams(f: PricerForm, useChain: bool, p: Picks, js: Js): (v: Value)
    ensures v.DictV?
  {
    if useChain then Dict(HeadItems(f, TailItems(f, ChainItems(p, js))))
    else Dict(HeadItems(f, ManualItems(f, TailItems(f, []))))
  }

  // ---- what the backend reads from the pricing params ----

  lemma HeadField(f: PricerForm, tail: seq<(string, Value)>, key: string)
    ensures Lookup(Dict(HeadItems(f, tail)).entries, KStr(key)) ==
              if key == "product" then Some(StrV(f.product))
              else if key == "algo" then Some(StrV(f.algo))
              else if key == "priority" then Some(StrV(f.priority))
              else Lookup(Dict(tail).entries, KStr(key))
  {
    var t2 := [("priority", StrV(f.priority))] + tail;
    var t1 := [("algo", StrV(f.algo))] + t2;
    DictCons("product", StrV(f.product), t1, key);
    DictCons("algo", StrV(f.algo), t2, key);
    DictCons("priority", StrV(f.priority), tail, key);
  }

  lemma SaveField(f: PricerForm, tail: seq<(string, Value)>, key: string)
    ensures Lookup(Dict(SaveItems(f) + tail).entries, KStr(key)) ==
              if key == "save_paths" && f.savePaths then Some(StrV("on")) else Lookup(Dict(tail).entries, KStr(key))
  {
    if f.savePaths {
      DictCons("save_paths", StrV("on"), tail, key);
    } else {
      assert SaveItems(f) + tail == tail;
    }
  }

  lemma ChainField(p: Picks, js: Js, key: string)
    ensures Lookup(Dict(ChainItems(p, js)).entries, KStr(key)) ==
              if key == "use_chain" then Some(StrV("true"))
              else if key == "ticker" then Some(StrV(p.ticker))
              else if key == "expiry" then Some(StrV(p.expiry))
              else if key == "strike" then Some(StrV(StrikeText(p.strike, js)))
              else None
  {
    var t3 := [("strike", StrV(StrikeText(p.strike, js)))];
    var t2 := [("expiry", StrV(p.expiry))] + t3;
    var t1 := [("ticker", StrV(p.ticker))] + t2;
    DictCons("use_chain", StrV("true"), t1, key);
    DictCons("ticker", StrV(p.ticker), t2, key);
    DictCons("expiry", StrV(p.expiry), t3, key);
    DictCons("strike", StrV(StrikeText(p.strike, js)), [], key);
  }

  lemma ManualFieldAsWritten(f: PricerForm, tail: seq<(string, Value)>, key: string)
    ensures Lookup(Dict(ManualItemsAsWritten(f, tail)).entries, KStr(key)) ==
              if key == "option_type" then Some(StrV(f.optionType))
              else if key == "S0" then Some(StrV(f.s0))
              else if key == "K" then Some(StrV(f.k))
              else if key == "T" then Some(StrV(f.t))
              else if key == "r" then Some(StrV(f.r))
              else if key == "sigma" then Some(StrV(f.sigma))
              else Lookup(Dict(tail).entries, KStr(key))
  {
    var t5 := [("sigma", StrV(f.sigma))] + tail;
    var t4 := [("r", StrV(f.r))] + t5;
    var t3 := [("T", StrV(f.t))] + t4;
    var t2 := [("K", StrV(f.k))] + t3;
    var t1 := [("S0", StrV(f.s0))] + t2;
    DictCons("option_type", StrV(f.optionType), t1, key);
    DictCons("S0", StrV(f.s0), t2, key);
    DictCons("K", StrV(f.k), t3, key);
    DictCons("T", StrV(f.t), t4, key);
    DictCons("r", StrV(f.r), t5, key);
    DictCons("sigma", StrV(f.sigma), tail, key);
  }

  lemma ManualField(f: PricerForm, tail: seq<(string, Value)>, key: string)
    ensures Lookup(Dict(ManualItems(f, tail)).entries, KStr(key)) ==
              if key == "option_type" then Some(StrV(f.optionType))
              else if key == "S0" then Some(StrV(f.s0))
              else if key == "strike" then Some(StrV(f.k))
              else if key == "T" then Some(StrV(f.t))
              else if key == "r" then Some(StrV(f.r))
              else if key == "sigma" then Some(StrV(f.sigma))
              else Lookup(Dict(tail).entries, KStr(key))
  {
    var t5 := [("sigma", StrV(f.sigma))] + tail;
    var t4 := [("r", StrV(f.r))] + t5;
    var t3 := [("T", StrV(f.t))] + t4;
    var t2 := [("strike", StrV(f.k))] + t3;
    var t1 := [("S0", StrV(f.s0))] + t2;
    DictCons("option_type", StrV(f.optionType), t1, key);
    DictCons("S0", StrV(f.s0), t2, key);
    DictCons("strike", StrV(f.k), t3, key);
    DictCons("T", StrV(f.t), t4, key);
    DictCons("r", StrV(f.r), t5, key);
    DictCons("sigma", StrV(f.sigma), tail, key);
  }

  lemma TailFieldAsWritten(f: PricerForm, tail: seq<(string, Value)>, key: string)
    ensures Lookup(Dict(TailItemsAsWritten(f, tail)).entries, KStr(key)) ==
              if key == "q" then Some(StrV(f.q))
              else if key == "num_paths" then Some(StrV(f.numPaths))
              else if key == "save_paths" && f.savePaths then Some(StrV("on"))
              else Lookup(Dict(tail).entries, KStr(key))
  {
    var t1 := [("num_paths", StrV(f.numPaths))] + (SaveItems(f) + tail);
    DictCons("q", StrV(f.q), t1, key);
    DictCons("num_paths", StrV(f.numPaths), SaveItems(f) + tail, key);
    SaveField(f, tail, key);
  }

  lemma TailField(f: PricerForm, tail: seq<(string, Value)>, key: string)
    ensures Lookup(Dict(TailItems(f, tail)).entries, KStr(key)) ==
              if key == "q" && f.q != "" then Some(StrV(f.q))
              else if key == "num_paths" then Some(StrV(f.numPaths))
              else if key == "save_paths" && f.savePaths then Some(StrV("on"))
              else Lookup(Dict(tail).entries, KStr(key))
  {
    var t1 := [("num_paths", StrV(f.numPaths))] + (SaveItems(f) + tail);
    if f.q != "" {
      DictCons("q", StrV(f.q), t1, key);
    } else {
      assert TailItems(f, tail) == t1;
    }
    DictCons("num_paths", StrV(f.numPaths), SaveItems(f) + tail, key);
    SaveField(f, tail, key);
  }

  lemma EmptyDictLookup(key: string)
    ensures Lookup(Dict([]).entries, KStr(key)) == None
  {
  }

  /** The historical branch reads the strike under "strike"; the page as written sends
      it as "K", so without the chain no strike and no use_chain reach the backend. */
  lemma ManualParamsAsWritten(f: PricerForm, p: Picks, js: Js)
    ensures var e := PricerParamsAsWritten(f, false, p, js).entries;
            !HasKey(e, KStr("strike")) && !HasKey(e, KStr("use_chain")) && !HasKey(e, KStr("legs"))
            && !HasKey(e, KStr("ticker")) && Lookup(e, KStr("K")) == Some(StrV(f.k))
  {
    var tail := TailItemsAsWritten(f, []);
    var manual := ManualItemsAsWritten(f, tail);
    EmptyDictLookup("strike");
    EmptyDictLookup("use_chain");
    EmptyDictLookup("legs");
    EmptyDictLookup("ticker");
    TailFieldAsWritten(f, [], "strike");
    TailFieldAsWritten(f, [], "use_chain");
    TailFieldAsWritten(f, [], "legs");
    TailFieldAsWritten(f, [], "ticker");
    ManualFieldAsWritten(f, tail, "strike");
    ManualFieldAsWritten(f, tail, "use_chain");
    ManualFieldAsWritten(f, tail, "legs");
    ManualFieldAsWritten(f, tail, "ticker");
    ManualFieldAsWritten(f, tail, "K");
    HeadField(f, manual, "strike");
    HeadField(f, manual, "use_chain");
    HeadField(f, manual, "legs");
    HeadField(f, manual, "ticker");
    HeadField(f, manual, "K");
  }

  const NoneFloatMessage := "float() argument must be a string or a real number, not 'NoneType'"

  /** As written, every European pricing job sent without the chain fails on the
      strike: the backend prices from history and reads a strike that is not there. */
  lemma ManualPricingFailsAsWritten(f: PricerForm, p: Picks, js: Js, ctx: Ctx)
    requires EuropeanProduct(StrV(f.product))
    ensures OptionResult(ctx, StrV(f.product), PricerParamsAsWritten(f, false, p, js)) == Err(NoneFloatMessage)
  {
    var e := PricerParamsAsWritten(f, false, p, js).entries;
    ManualParamsAsWritten(f, p, js);
    DefaultBranchIsHistorical(StrV(f.product), e, ctx.b);
    HistoricalNeedsStrike(ctx, e);
  }

  lemma HistoricalNeedsStrike(ctx: Ctx, e: seq<(Key, Value)>)
    requires !HasKey(e, KStr("strike"))
    ensures HistoricalResult(ctx, e) == Err(NoneFloatMessage)
  {
    assert Field(e, "strike") == NoneV;
    assert ToFloat(NoneV, ctx.b) == Err(NoneFloatMessage);
    assert HistRequest(ctx, e) == Err(NoneFloatMessage);
  }

  /** With the input named "strike", the backend's strike is the text typed as K. */
  lemma ManualStrikeReachesBackend(f: PricerForm, p: Picks, js: Js, b: Builtins)
    ensures var e := PricerParams(f, false, p, js).entries;
            Field(e, "strike") == StrV(f.k)
            && ToFloat(Field(e, "strike"), b) == ToFloat(StrV(f.k), b)
            && !HasKey(e, KStr("use_chain")) && !HasKey(e, KStr("legs"))
  {
    var tail := TailItems(f, []);
    var manual := ManualItems(f, tail);
    EmptyDictLookup("use_chain");
    EmptyDictLookup("legs");
    TailField(f, [], "use_chain");
    TailField(f, [], "legs");
    ManualField(f, tail, "strike");
    ManualField(f, tail, "use_chain");
    ManualField(f, tail, "legs");
    HeadField(f, manual, "strike");
    HeadField(f, manual, "use_chain");
    HeadField(f, manual, "legs");
  }

  /** The q the pricing params give the backend, in either mode: absent from the
      corrected params when left blank. */
  lemma QField(f: PricerForm, useChain: bool, p: Picks, js: Js)
    ensures Lookup(PricerParamsAsWritten(f, useChain, p, js).entries, KStr("q")) == Some(StrV(f.q))
    ensures Lookup(PricerParams(f, useChain, p, js).entries, KStr("q")) == if f.q == "" then None else Some(StrV(f.q))
  {
    EmptyDictLookup("q");
    ChainField(p, js, "q");
    TailFieldAsWritten(f, [], "q");
    TailField(f, [], "q");
    TailFieldAsWritten(f, ChainItems(p, js), "q");
    TailField(f, ChainItems(p, js), "q");
    ManualFieldAsWritten(f, TailItemsAsWritten(f, []), "q");
    ManualField(f, TailItems(f, []), "q");
    HeadField(f, TailItemsAsWritten(f, ChainItems(p, js)), "q");
    HeadField(f, TailItems(f, ChainItems(p, js)), "q");
    HeadField(f, ManualItemsAsWritten(f, TailItemsAsWritten(f, [])), "q");
    HeadField(f, ManualItems(f, TailItems(f, [])), "q");
  }

  /** As written, the optional q left blank is sent as "", which `float` rejects. */
  lemma BlankQFailsAsWritten(f: PricerForm, useChain: bool, p: Picks, js: Js, b: Builtins)
    requires f.q == "" && b.parseFloat("") == None
    ensures ToFloat(FieldOr(PricerParamsAsWritten(f, useChain, p, js).entries, "q", FloatV(Zero)), b)
              == Err(FloatParseError + StrRepr(""))
  {
    QField(f, useChain, p, js);
  }

  /** Left out when blank, q takes the backend's default 0. */
  lemma BlankQDefaults(f: PricerForm, useChain: bool, p: Picks, js: Js, b: Builtins)
    requires f.q == ""
    ensures ToFloat(FieldOr(PricerParams(f, useChain, p, js).entries, "q", FloatV(Zero)), b) == Ok(Zero)
  {
    QField(f, useChain, p, js);
  }

  /** In chain mode the params carry use_chain "true" and the picks, so a European job
      takes the backend's single-instrument chain branch. */
  lemma ChainPricingBranch(f: PricerForm, p: Picks, js: Js, b: Builtins)
    requires EuropeanProduct(StrV(f.product))
    ensures var e := PricerParams(f, true, p, js).entries;
            ChooseBranch(StrV(f.product), e, b) == ChainSingle
            && Field(e, "ticker") == StrV(p.ticker) && Field(e, "expiry") == StrV(p.expiry)
            && Field(e, "strike") == StrV(StrikeText(p.strike, js))
  {
    var chain := ChainItems(p, js);
    var tail := TailItems(f, chain);
    ChainField(p, js, "legs");
    ChainField(p, js, "use_chain");
    ChainField(p, js, "ticker");
    ChainField(p, js, "expiry");
    ChainField(p, js, "strike");
    TailField(f, chain, "legs");
    TailField(f, chain, "use_chain");
    TailField(f, chain, "ticker");
    TailField(f, chain, "expiry");
    TailField(f, chain, "strike");
    HeadField(f, tail, "legs");
    HeadField(f, tail, "use_chain");
    HeadField(f, tail, "ticker");
    HeadField(f, tail, "expiry");
    HeadField(f, tail, "strike");
    TrueIsTrueFlag(b);
  }

  /** As written, a chain job whose instrument checks out still fails on the blank q. */
  lemma ChainPricingBlankQFailsAsWritten(f: PricerForm, p: Picks, js: Js, ctx: Ctx)
    requires f.q == "" && ctx.b.parseFloat("") == None
    requires ChainInstrument(ctx.b, PricerParamsAsWritten(f, true, p, js).entries).Ok?
    ensures ChainRequest(ctx, PricerParamsAsWritten(f, true, p, js).entries)
              == Err(FloatParseError + StrRepr(""))
  {
    var e := PricerParamsAsWritten(f, true, p, js).entries;
    var chain := ChainItems(p, js);
    BlankQFailsAsWritten(f, true, p, js, ctx.b);
    ChainField(p, js, "r");
    TailFieldAsWritten(f, chain, "r");
    HeadField(f, TailItemsAsWritten(f, chain), "r");
    assert FieldOr(e, "r", FloatV(Finite(0.01))) == FloatV(Finite(0.01));
  }

  /** A ticked save box is a true flag for the backend and an unticked one is not. */
  lemma SavePathsFlag(f: PricerForm, useChain: bool, p: Picks, js: Js, b: Builtins)
    ensures IsTrueFlag(FieldOr(PricerParams(f, useChain, p, js).entries, "save_paths", StrV("false")), b) <==> f.savePaths
  {
    var e := PricerParams(f, useChain, p, js).entries;
    if useChain {
      ChainField(p, js, "save_paths");
      TailField(f, ChainItems(p, js), "save_paths");
      HeadField(f, TailItems(f, ChainItems(p, js)), "save_paths");
    } else {
      EmptyDictLookup("save_paths");
      TailField(f, [], "save_paths");
      ManualField(f, TailItems(f, []), "save_paths");
      HeadField(f, ManualItems(f, TailItems(f, [])), "save_paths");
    }
    assert Lookup(e, KStr("save_paths")) == if f.savePaths then Some(StrV("on")) else None;
    FalseTextNotTrue(b);
    FlagValues(b);
  }

  lemma FalseTextNotTrue(b: Builtins)
    ensures !IsTrueFlag(StrV("false"), b)
  {
    assert Lower("false") == "false";
  }

  /** onPrice: the form's entries as params, with the chain keys set one by one in chain
      mode; blank product, algo and priority fall back to European, MonteCarlo and Normal,
      and the job is scoped to the page's client and portfolio.  The strike input goes
      out as "K" and a blank q as "". */
  method OnPrice(f: PricerForm, useChain: bool, picks: Picks, clientId: string, portfolioId: string, js: Js)
    returns (req: Value)
    ensures req == JobRequest(StrV("OptionPricing"), StrV(OrText(f.product, "European")), StrV(OrText(f.algo, "MonteCarlo")),
                              StrV(OrText(f.priority, "Normal")), StrV(clientId), StrV(portfolioId), StrV("You"),
                              PricerParamsAsWritten(f, useChain, picks, js))
  {
    var items: seq<(string, Value)>;
    if useChain {
      var chain := ChainEntries(picks, js);
      items := HeadItems(f, TailItemsAsWritten(f, chain));
    } else {
      items := HeadItems(f, ManualItemsAsWritten(f, TailItemsAsWritten(f, [])));
    }
    req := JobRequest(StrV("OptionPricing"), StrV(OrText(f.product, "European")), StrV(OrText(f.algo, "MonteCarlo")),
                      StrV(OrText(f.priority, "Normal")), StrV(clientId), StrV(portfolioId), StrV("You"), Dict(items));
  }

  /** onPrice corrected: the strike goes out as "strike" and a blank q is left out. */
  method OnPriceCorrected(f: PricerForm, useChain: bool, picks: Picks, clientId: string, portfolioId: string, js: Js)
    returns (req: Value)
    ensures req == JobRequest(StrV("OptionPricing"), StrV(OrText(f.product, "European")), StrV(OrText(f.algo, "MonteCarlo")),
                              StrV(OrText(f.priority, "Normal")), StrV(clientId), StrV(portfolioId), StrV("You"),
                              PricerParams(f, useChain, picks, js))
  {
    var items: seq<(string, Value)>;
    if useChain {
      var chain := ChainEntries(picks, js);
      items := HeadItems(f, TailItems(f, chain));
    } else {
      items := HeadItems(f, ManualItems(f, TailItems(f, [])));
    }
    req := JobRequest(StrV("OptionPricing"), StrV(OrText(f.product, "European")), StrV(OrText(f.algo, "MonteCarlo")),
                      StrV(OrText(f.priority, "Normal")), StrV(clientId), StrV(portfolioId), StrV("You"), Dict(items));
  }

  /** The four `params[...] = ...` assignments of chain mode, in order. */
  method ChainEntries(picks: Picks, js: Js) returns (tail: seq<(string, Value)>)
    ensures tail == ChainItems(picks, js)
  {
    tail := [("strike", StrV(StrikeText(picks.strike, js)))];
    tail := [("expiry", StrV(picks.expiry))] + tail;
    tail := [("ticker", StrV(picks.ticker))] + tail;
    tail := [("use_chain", StrV("true"))] + tail;
  }

  // ---------------------------------------------------------------------------
  // The optimisation form
  // ---------------------------------------------------------------------------

  datatype OptimForm = OptimForm(algo: string, priority: string, target: string, constraint: string)

  /** `Number(f.get('target') || 0.0)`. */
  function TargetNumber(target: string, js: Js): (x: Num)
    ensures target == "" ==> x == Finite(0.0)
  {
    if target == "" then Finite(0.0) else js.parseNumber(target)
  }

  function OptimItems(f: OptimForm, portfolioId: string, js: Js): seq<(string, Value)>
  {
    [("target", JsonNumber(TargetNumber(f.target, js)))]
    + ([("constraint", StrV(OrText(f.constraint, "None")))] + [("portfolioId", StrV(portfolioId))])
  }

  /** onOptimize's params: exactly target, constraint and portfolioId. */
  function OptimParams(f: OptimForm, portfolioId: string, js: Js): (v: Value)
    ensures v.DictV? && |v.entries| == 3
  {
    Dict(OptimItems(f, portfolioId, js))
  }

  lemma OptimField(f: OptimForm, portfolioId: string, js: Js, key: string)
    ensures Lookup(OptimParams(f, portfolioId, js).entries, KStr(key)) ==
              if key == "target" then Some(JsonNumber(TargetNumber(f.target, js)))
              else if key == "constraint" then Some(StrV(OrText(f.constraint, "None")))
              else if key == "portfolioId" then Some(StrV(portfolioId))
              else None
  {
    var t2 := [("portfolioId", StrV(portfolioId))];
    var t1 := [("constraint", StrV(OrText(f.constraint, "None")))] + t2;
    DictCons("target", JsonNumber(TargetNumber(f.target, js)), t1, key);
    DictCons("constraint", StrV(OrText(f.constraint, "None")), t2, key);
    DictCons("portfolioId", StrV(portfolioId), [], key);
  }

  /** What the optimisation task reads: the page's constraint (None when blank), the
      page's portfolio, and a target of 0 for a blank target, which the Celery task takes as a
      return floor of 0 rather than as no target. */
  lemma OptimParamsReadBack(f: OptimForm, portfolioId: string, js: Js, b: Builtins)
    ensures var e := OptimParams(f, portfolioId, js).entries;
            Str(FieldOr(e, "constraint", StrV("None")), b.floatRepr) == OrText(f.constraint, "None")
            && Field(e, "portfolioId") == StrV(portfolioId)
            && (f.target == "" ==> TargetOf(Field(e, "target"), b) == Ok(Some(Finite(0.0))))
            && !HasKey(e, KStr("period"))
  {
    OptimField(f, portfolioId, js, "constraint");
    OptimField(f, portfolioId, js, "portfolioId");
    OptimField(f, portfolioId, js, "target");
    OptimField(f, portfolioId, js, "period");
  }

  /** The five constraint choices as the Celery task reads them: only the 20% cap and the
      cardinality choice change anything, and "Cardinality=5" selects 5 names. */
  lemma ConstraintChoices(n: nat, b: Builtins)
    requires b.parseInt("5") == Some(5)
    ensures FlagsFor("None", n, b) == Flags(true, true, None, None)
    ensures FlagsFor("Long-only", n, b) == Flags(true, true, None, None)
    ensures FlagsFor("Gross<=1", n, b) == Flags(true, true, None, None)
    ensures FlagsFor("Max weight 20%", n, b) == Flags(true, true, Some(0.20), None)
    ensures FlagsFor("Cardinality=5", n, b).cardinality == Some(CardinalityOf("Cardinality=5", n, b))
  {
    assert !StartsWith("None", "Cardinality");
    assert !StartsWith("Long-only", "Cardinality");
    assert !StartsWith("Gross<=1", "Cardinality");
    assert "Max weight 20%"[0] != "Cardinality"[0];
  }

  method OnOptimize(f: OptimForm, clientId: string, portfolioId: string, js: Js) returns (req: Value)
    ensures req == JobRequest(StrV("PortfolioOptimization"), StrV("European"), StrV(OrText(f.algo, "MeanVariance")),
                              StrV(OrText(f.priority, "Normal")), StrV(clientId), StrV(portfolioId), StrV("You"),
                              OptimParams(f, portfolioId, js))
  {
    var params := OptimParams(f, portfolioId, js);
    req := JobRequest(StrV("PortfolioOptimization"), StrV("European"), StrV(OrText(f.algo, "MeanVariance")),
                      StrV(OrText(f.priority, "Normal")), StrV(clientId), StrV(portfolioId), StrV("You"), params);
  }
}
