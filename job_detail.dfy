/** The job page: how it classifies a job's result document, which panels it shows, how
    it reshapes a paths subset into chart rows, and how it polls. */
module JobDetail {
  import opened Base
  import opened Floats
  import opened PyValue
  import opened Paths
  import opened OptionPricing
  import opened Browser

  // ---------------------------------------------------------------------------
  // JSON values as JavaScript sees them
  // ---------------------------------------------------------------------------

  /** `Boolean(v)` on a parsed JSON value: null, false, 0, NaN and "" are falsy, and
      every array and object is truthy, the empty ones included. */
  predicate JsValueTruthy(v: Value)
  {
    match v
    case NoneV => false
    case BoolV(b) => b
    case IntV(i) => i != 0
    case FloatV(x) => JsTruthy(x)
    case StrV(s) => s != ""
    case _ => true
  }

  /** `v?.key`: the member of an object, and undefined (`NoneV`) for a missing member or
      for anything that is not an object. */
  function Member(v: Value, key: string): (r: Value)
    ensures !v.DictV? ==> r == NoneV
    ensures v.DictV? ==> (r == NoneV <==> !HasKey(v.entries, KStr(key)) || Lookup(v.entries, KStr(key)) == Some(NoneV))
  {
    if v.DictV? then FieldOr(v.entries, key, NoneV) else NoneV
  }

  /** Python and JavaScript disagree on empty containers and on NaN, nowhere else among
      JSON values: an empty list or object is falsy for the backend and truthy here, and
      NaN the other way round. */
  lemma TruthinessDiffers(v: Value)
    requires v.NoneV? || v.BoolV? || v.IntV? || v.FloatV? || v.StrV? || v.ListV? || v.DictV?
    ensures JsValueTruthy(v) != Truthy(v) <==> v == ListV([]) || v == DictV([]) || v == FloatV(NaN)
  {
  }

  // ---------------------------------------------------------------------------
  // Classifying the result
  // ---------------------------------------------------------------------------

  predicate HasPathsRecord(v: Value)
  {
    JsValueTruthy(Member(Member(v, "paths"), "gridfs_id"))
  }

  /** `legs.some(l => l?.paths?.gridfs_id)`. */
  function SomeLegHasPaths(legs: seq<Value>): (r: bool)
    ensures r <==> exists i :: 0 <= i < |legs| && HasPathsRecord(legs[i])
  {
    if |legs| == 0 then false
    else
      var rest := SomeLegHasPaths(legs[1..]);
      assert forall i :: 1 <= i < |legs| ==> legs[i] == legs[1..][i - 1];
      HasPathsRecord(legs[0]) || rest
  }

  /** hasPaths: a truthy `paths.gridfs_id` on the result or on some leg of a legs array. */
  predicate HasPaths(result: Value)
  {
    HasPathsRecord(result) || (Member(result, "legs").ListV? && SomeLegHasPaths(Member(result, "legs").items))
  }

  /** The result of a job still queued, and any result without a paths record, shows no
      paths chart; one whose paths record the backend saved under a non-empty file id
      does. */
  lemma HasPathsCases(fileId: string, m: Matrix, head: seq<(Key, Value)>)
    ensures !HasPaths(NoneV)
    ensures HasPaths(DictV([(KStr("paths"), SavePathsMeta(fileId, m))])) <==> fileId != ""
    ensures !HasPaths(DictV([(KStr("paths"), NoneV)]))
    ensures HasPaths(DictV([(KStr("legs"), ListV([DictV([(KStr("paths"), SavePathsMeta(fileId, m))])]))])) <==> fileId != ""
  {
    var one := DictV([(KStr("paths"), SavePathsMeta(fileId, m))]);
    assert Member(one, "paths") == SavePathsMeta(fileId, m);
    assert Member(SavePathsMeta(fileId, m), "gridfs_id") == StrV(fileId);
    var legs := ListV([one]);
    var multi := DictV([(KStr("legs"), legs)]);
    assert Member(multi, "legs") == legs;
    assert Member(multi, "paths") == NoneV;
    assert SomeLegHasPaths(legs.items) == HasPathsRecord(one) by {
      assert legs.items[1..] == [];
    }
    assert Member(DictV([(KStr("paths"), NoneV)]), "legs") == NoneV;
  }

  /** `job.result || {}`. */
  function ResultOrEmpty(result: Value): (r: Value)
    ensures JsValueTruthy(result) ==> r == result
    ensures !JsValueTruthy(result) ==> r == DictV([])
  {
    if JsValueTruthy(result) then result else DictV([])
  }

  /** isMultiLeg: `legs` is a non-empty array. */
  predicate IsMultiLeg(result: Value)
  {
    var r := ResultOrEmpty(result);
    Member(r, "legs").ListV? && |Member(r, "legs").items| > 0
  }

  /** The price line: only for a result that is not multi-leg, with a price or a
      standard error that is neither null nor missing. */
  predicate ShowPriceSummary(result: Value)
  {
    var r := ResultOrEmpty(result);
    !IsMultiLeg(result) && (Member(r, "price") != NoneV || Member(r, "stderr") != NoneV)
  }

  /** The totals row sits inside the legs table, so it needs the legs as well. */
  predicate ShowTotals(result: Value)
  {
    IsMultiLeg(result) && JsValueTruthy(Member(ResultOrEmpty(result), "totals"))
  }

  /** The error card shows for a truthy error. */
  predicate ShowError(job: Value)
  {
    JsValueTruthy(Member(job, "error"))
  }

  /** Legs take precedence: the price line and the legs table (with its totals) never
      show together, and a result with neither legs nor price nor stderr shows neither. */
  lemma PanelsExclusive(result: Value)
    ensures ShowPriceSummary(result) ==> !IsMultiLeg(result)
    ensures ShowTotals(result) ==> IsMultiLeg(result)
    ensures !(ShowPriceSummary(result) && ShowTotals(result))
    ensures !JsValueTruthy(result) ==> !IsMultiLeg(result) && !ShowPriceSummary(result) && !ShowTotals(result)
  {
  }

  /** The error card for the documents the backend writes: none for a null error, and
      one for every non-empty message. */
  lemma ErrorCard(m: string)
    ensures !ShowError(DictV([(KStr("error"), NoneV)]))
    ensures ShowError(DictV([(KStr("error"), StrV(m))])) <==> m != ""
    ensures !ShowError(DictV([]))
  {
    assert Member(DictV([(KStr("error"), StrV(m))]), "error") == StrV(m);
  }

  /** A multi-leg pricing result with at least one leg shows the legs table with its
      totals row and no price line. */
  lemma MultiLegResultView(algo: Value, t: Totals)
    requires |t.results| > 0
    ensures IsMultiLeg(MultiLegValue(algo, t)) && ShowTotals(MultiLegValue(algo, t))
    ensures !ShowPriceSummary(MultiLegValue(algo, t))
  {
    var v := MultiLegValue(algo, t);
    var legs := ListV(seq(|t.results|, i requires 0 <= i < |t.results| => LegValue(t.results[i])));
    var totals := Dict([("notional", FloatV(t.notional)), ("weightedAvg", WeightedAvg(t.notional, t.qty))]);
    var items := [("product", StrV("European")), ("algo", algo), ("legs", legs), ("totals", totals)];
    assert v == Dict(items);
    DictLookup(items, 2);
    DictLookup(items, 3);
    assert Member(v, "legs") == legs;
    assert Member(v, "totals") == totals;
  }

  // ---------------------------------------------------------------------------
  // Status badge
  // ---------------------------------------------------------------------------

  const GreenBadge := "bg-green-100 text-green-700"
  const BlueBadge := "bg-blue-100 text-blue-700"
  const RedBadge := "bg-red-100 text-red-700"
  const GrayBadge := "bg-gray-100 text-gray-700"

  /** badge: green, blue and red for Succeeded, Running and Failed, gray for any other
      status and for none. */
  function Badge(status: Option<string>): (c: string)
    ensures c == GreenBadge <==> status == Some("Succeeded")
    ensures c == BlueBadge <==> status == Some("Running")
    ensures c == RedBadge <==> status == Some("Failed")
    ensures c == GrayBadge <==> status !in {Some("Succeeded"), Some("Running"), Some("Failed")}
  {
    assert GreenBadge[5] == 'e' && BlueBadge[5] == 'u' && RedBadge[5] == 'd' && GrayBadge[5] == 'a';
    if status == Some("Succeeded") then GreenBadge
    else if status == Some("Running") then BlueBadge
    else if status == Some("Failed") then RedBadge
    else GrayBadge
  }

  /** The two statuses a job can also be in, Queued and Cancelled, are gray. */
  lemma OtherStatusesGray()
    ensures Badge(Some("Queued")) == GrayBadge && Badge(Some("Cancelled")) == GrayBadge && Badge(None) == GrayBadge
  {
  }

  // ---------------------------------------------------------------------------
  // Limit and stride
  // ---------------------------------------------------------------------------

  /** `Math.max(1, n || 1)`: zero and NaN fall back to 1 before the maximum, and minus
      infinity loses to 1. */
  function Clamp(n: Num): (r: Num)
    ensures r == PosInf || (r.Finite? && r.r >= 1.0)
    ensures n == PosInf || (n.Finite? && n.r >= 1.0) ==> r == n
    ensures !(n == PosInf || (n.Finite? && n.r >= 1.0)) ==> r == Finite(1.0)
  {
    var m := if JsTruthy(n) then n else Finite(1.0);
    match m
    case Finite(x) => if x < 1.0 then Finite(1.0) else m
    case PosInf => PosInf
    case NegInf => Finite(1.0)
    case NaN => Finite(1.0)
  }

  /** `Math.max(1, Number(e.target.value) || 1)`: the clamped input as the state keeps it;
      a blank input reads as 0 and so becomes 1. */
  function ClampInput(text: string, js: Js): (r: Num)
    ensures r == PosInf || (r.Finite? && r.r >= 1.0)
    ensures JsTrim(text) == "" ==> r == Finite(1.0)
  {
    Clamp(ToNumber(Text(text), js))
  }

  /** Clamping twice is clamping once, and the values at least 1 are its fixed points. */
  lemma ClampIdempotent(n: Num)
    ensures Clamp(Clamp(n)) == Clamp(n)
    ensures Clamp(n) == n <==> n == PosInf || (n.Finite? && n.r >= 1.0)
  {
  }

  // ---------------------------------------------------------------------------
  // Chart rows
  // ---------------------------------------------------------------------------

  /** One chart row: the rounded time and `p0`, `p1`, ... where `None` is undefined. */
  datatype Row = Row(t: real, p: seq<Option<Num>>)

  /** `series[j][idx]`, undefined past the end of a series. */
  function At(s: seq<Num>, idx: nat): (r: Option<Num>)
    ensures r.Some? <==> idx < |s|
    ensures r.Some? ==> r.value == s[idx]
  {
    if idx < |s| then Some(s[idx]) else None
  }

  /** buildChartData: one row per time, holding every series' value at that time;
      `round4` is `Number(tt.toFixed(4))`. */
  function ChartData(t: seq<real>, series: seq<seq<Num>>, round4: real -> real): (rows: seq<Row>)
    ensures |rows| == |t|
    ensures forall idx :: 0 <= idx < |rows| ==> rows[idx].t == round4(t[idx]) && |rows[idx].p| == |series|
    ensures forall idx, j :: 0 <= idx < |rows| && 0 <= j < |series| ==> rows[idx].p[j] == At(series[j], idx)
  {
    seq(|t|, idx requires 0 <= idx < |t| => Row(round4(t[idx]), seq(|series|, j requires 0 <= j < |series| => At(series[j], idx))))
  }

  /** The same rows, built as the source builds them: a row per time, and an inner loop
      over the series. */
  method BuildChartData(t: seq<real>, series: seq<seq<Num>>, round4: real -> real) returns (rows: seq<Row>)
    ensures rows == ChartData(t, series, round4)
  {
    rows := [];
    var idx := 0;
    while idx < |t|
      invariant 0 <= idx <= |t|
      invariant rows == ChartData(t[..idx], series, round4)
    {
      var p: seq<Option<Num>> := [];
      var j := 0;
      while j < |series|
        invariant 0 <= j <= |series|
        invariant |p| == j
        invariant forall k :: 0 <= k < j ==> p[k] == At(series[k], idx)
      {
        p := p + [if idx < |series[j]| then Some(series[j][idx]) else None];
        j := j + 1;
      }
      assert p == seq(|series|, j requires 0 <= j < |series| => At(series[j], idx));
      ChartDataSnoc(t, series, round4, idx);
      rows := rows + [Row(round4(t[idx]), p)];
      idx := idx + 1;
    }
    assert t[..|t|] == t;
  }

  lemma ChartDataSnoc(t: seq<real>, series: seq<seq<Num>>, round4: real -> real, idx: nat)
    requires idx < |t|
    ensures ChartData(t[..idx + 1], series, round4) ==
              ChartData(t[..idx], series, round4)
              + [Row(round4(t[idx]), seq(|series|, j requires 0 <= j < |series| => At(series[j], idx)))]
  {
    var a := ChartData(t[..idx + 1], series, round4);
    var b := ChartData(t[..idx], series, round4)
             + [Row(round4(t[idx]), seq(|series|, j requires 0 <= j < |series| => At(series[j], idx)))];
    assert |a| == |b|;
    forall k | 0 <= k < |a| ensures a[k] == b[k] {
      assert a[k].p == b[k].p;
    }
  }

  /** On what the paths route returns, no cell is undefined: chart line j is stored path
      j * stride, read at every time of the axis. */
  lemma SubsetChartComplete(m: Matrix, limit: int, stride: int, round4: real -> real)
    requires WellFormed(m)
    ensures var sub := LoadPathsSubset(Some(m), limit, stride).value;
            var rows := ChartData(sub.t, sub.series, round4);
            |rows| == m.cols
            && forall idx, j :: 0 <= idx < |rows| && 0 <= j < |sub.series| ==>
                 j * Max1(stride) < |m.rows| && rows[idx].p[j] == Some(m.rows[j * Max1(stride)][idx])
  {
    var sub := LoadPathsSubset(Some(m), limit, stride).value;
    var rows := ChartData(sub.t, sub.series, round4);
    forall idx, j | 0 <= idx < |rows| && 0 <= j < |sub.series|
      ensures j * Max1(stride) < |m.rows| && rows[idx].p[j] == Some(m.rows[j * Max1(stride)][idx])
    {
      assert |sub.series[j]| == |sub.t|;
    }
  }

  // ---------------------------------------------------------------------------
  // The page state
  // ---------------------------------------------------------------------------

  class JobView {
    var job: Option<Value>
    var limit: Num
    var stride: Num
    var paths: Option<Subset>

    constructor ()
      ensures job.None? && limit == Finite(50.0) && stride == Finite(1.0) && paths.None?
    {
      job, limit, stride, paths := None, Finite(50.0), Finite(1.0), None;
    }

    /** hasPaths of the job currently shown; nothing before the first load. */
    predicate ShowsPaths()
      reads this`job
    {
      job.Some? && HasPaths(Member(job.value, "result"))
    }

    /** The chart rows for the paths held, none without them. */
    function Rows(round4: real -> real): (rows: seq<Row>)
      reads this`paths
      ensures paths.None? ==> rows == []
      ensures paths.Some? ==> |rows| == |paths.value.t|
    {
      if paths.Some? then ChartData(paths.value.t, paths.value.series, round4) else []
    }

    method SetLimit(text: string, js: Js)
      modifies this`limit
      ensures limit == ClampInput(text, js)
    {
      limit := ClampInput(text, js);
    }

    method SetStride(text: string, js: Js)
      modifies this`stride
      ensures stride == ClampInput(text, js)
    {
      stride := ClampInput(text, js);
    }

    /** One poll: the fetched job replaces the shown one; with hasPaths as the poll was
        scheduled, a fetched subset replaces the paths and a failed fetch (`None`) keeps
        the previous ones; without it the paths are cleared. */
    method Poll(fetchedJob: Value, fetchedPaths: Option<Subset>)
      modifies this`job, this`paths
      ensures job == Some(fetchedJob)
      ensures old(ShowsPaths()) && fetchedPaths.Some? ==> paths == fetchedPaths
      ensures old(ShowsPaths()) && fetchedPaths.None? ==> paths == old(paths)
      ensures !old(ShowsPaths()) ==> paths.None?
    {
      var had := ShowsPaths();
      job := Some(fetchedJob);
      if had {
        if fetchedPaths.Some? {
          paths := fetchedPaths;
        }
      } else {
        paths := None;
      }
    }
  }
}
