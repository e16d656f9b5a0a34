/** The stand-alone optimisation page: a client and portfolio picked from lists, and a
    form whose params carry only the target and the constraint. */
module OptimPage {
  import opened Base
  import opened Floats
  import opened PyValue
  import opened Optimization
  import opened Browser
  import opened PortfolioDetail

  /** The named inputs of the form; the algorithm is page state, not a form entry. */
  datatype OptimPageForm = OptimPageForm(priority: string, target: string, constraint: string)

  function ParamItems(f: OptimPageForm, js: Js): seq<(string, Value)>
  {
    [("target", JsonNumber(TargetNumber(f.target, js)))] + [("constraint", StrV(OrText(f.constraint, "None")))]
  }

  /** submit's params: the target (0 when blank) and the constraint ("None" when blank). */
  function Params(f: OptimPageForm, js: Js): (v: Value)
    ensures v.DictV? && |v.entries| == 2
  {
    Dict(ParamItems(f, js))
  }

  lemma ParamField(f: OptimPageForm, js: Js, key: string)
    ensures Lookup(Params(f, js).entries, KStr(key)) ==
              if key == "target" then Some(JsonNumber(TargetNumber(f.target, js)))
              else if key == "constraint" then Some(StrV(OrText(f.constraint, "None")))
              else None
  {
    var t1 := [("constraint", StrV(OrText(f.constraint, "None")))];
    DictCons("target", JsonNumber(TargetNumber(f.target, js)), t1, key);
    DictCons("constraint", StrV(OrText(f.constraint, "None")), [], key);
  }

  /** The params hold no portfolio, so the Celery task falls back to the job's own portfolioId:
      an unselected portfolio is rejected before any data is read, and a blank target is
      read as a return floor of 0. */
  lemma PortfolioFromJob(f: OptimPageForm, js: Js, portfolioId: string, nx: Numerics, b: Builtins)
    ensures var e := Params(f, js).entries;
            !HasKey(e, KStr("portfolioId")) && !HasKey(e, KStr("portfolio_id"))
            && PortfolioId(e, Some(StrV(portfolioId))) == StrV(portfolioId)
            && (portfolioId == "" ==> SetupFor(nx, b, e, Some(StrV(portfolioId))) == Err("portfolioId required"))
            && (f.target == "" ==> TargetOf(Field(e, "target"), b) == Ok(Some(Finite(0.0))))
            && Str(FieldOr(e, "constraint", StrV("None")), b.floatRepr) == OrText(f.constraint, "None")
  {
    ParamField(f, js, "portfolioId");
    ParamField(f, js, "portfolio_id");
    ParamField(f, js, "target");
    ParamField(f, js, "constraint");
  }

  /** The four choices the page offers; `Gross&le;1` is displayed and sent as "Gross≤1",
      which the Celery task does not recognise, and none of them reaches the cardinality branch. */
  lemma PageConstraintChoices(n: nat, b: Builtins)
    ensures forall c :: c in {"None", "Long-only", "Gross≤1", "Max weight 20%"} ==>
              FlagsFor(c, n, b).cardinality.None?
    ensures "Gross≤1" != "Gross<=1"
    ensures FlagsFor("Gross≤1", n, b) == Flags(true, true, None, None)
    ensures FlagsFor("Max weight 20%", n, b) == Flags(true, true, Some(0.20), None)
  {
    assert "None"[0] != "Cardinality"[0];
    assert "Long-only"[0] != "Cardinality"[0];
    assert "Gross≤1"[0] != "Cardinality"[0];
    assert "Max weight 20%"[0] != "Cardinality"[0];
    assert "Gross≤1"[5] != "Gross<=1"[5];
  }

  /** The page's selections: client, its portfolios, the chosen portfolio and the
      algorithm. */
  class OptimSelection {
    var clients: seq<string>
    var clientId: string
    var ports: seq<string>
    var portfolioId: string
    var algo: string

    constructor ()
      ensures clients == [] && clientId == "" && ports == [] && portfolioId == "" && algo == "MeanVariance"
    {
      clients, clientId, ports, portfolioId, algo := [], "", [], "", "MeanVariance";
    }

    /** The first load: the client list, and the first client with its portfolios. */
    method OnClientsLoaded(cs: seq<string>, firstPorts: seq<string>)
      modifies this`clients, this`clientId, this`ports
      ensures clients == cs
      ensures |cs| > 0 ==> clientId == cs[0] && ports == firstPorts
      ensures |cs| == 0 ==> clientId == old(clientId) && ports == old(ports)
    {
      clients := cs;
      if |cs| > 0 {
        clientId := cs[0];
        ports := firstPorts;
      }
    }

    /** A new client: its portfolios are loaded and the portfolio selection is cleared;
        with no client nothing is reloaded. */
    method OnClientChange(id: string, loaded: seq<string>)
      modifies this`clientId, this`ports, this`portfolioId
      ensures clientId == id
      ensures id != "" ==> ports == loaded && portfolioId == ""
      ensures id == "" ==> ports == old(ports) && portfolioId == old(portfolioId)
    {
      clientId := id;
      if id != "" {
        ports := loaded;
        portfolioId := "";
      }
    }

    method SelectPortfolio(id: string)
      modifies this`portfolioId
      ensures portfolioId == id
    {
      portfolioId := id;
    }

    method SelectAlgo(a: string)
      modifies this`algo
      ensures algo == a
    {
      algo := a;
    }

    /** submit: a PortfolioOptimization job for the selected client and portfolio, with
        product "European", the selected algorithm and priority Normal when blank. */
    method Submit(f: OptimPageForm, js: Js) returns (req: Value)
      ensures req == JobRequest(StrV("PortfolioOptimization"), StrV("European"), StrV(algo),
                                StrV(OrText(f.priority, "Normal")), StrV(clientId), StrV(portfolioId),
                                StrV("You"), Params(f, js))
    {
      var params := Params(f, js);
      req := JobRequest(StrV("PortfolioOptimization"), StrV("European"), StrV(algo),
                        StrV(OrText(f.priority, "Normal")), StrV(clientId), StrV(portfolioId), StrV("You"), params);
    }
  }

  /** A submit right after a client change, before a portfolio is picked, names no
      portfolio, and so the optimisation fails with "portfolioId required". */
  lemma SubmitAfterClientChange(f: OptimPageForm, js: Js, nx: Numerics, b: Builtins)
    ensures SetupFor(nx, b, Params(f, js).entries, Some(StrV(""))) == Err("portfolioId required")
  {
    PortfolioFromJob(f, js, "", nx, b);
  }
}
