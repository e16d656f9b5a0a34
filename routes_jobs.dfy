/** backend/routes/jobs.py: the /jobs HTTP handlers.  A handler answers with a status
    and a body; an exception it does not catch is Flask's 500 answer, modelled as
    `Raised`.  JSON serialisation of the body is not modelled: the body says which
    document, error text or record is sent.  Werkzeug routes "/jobs/stats" to jobs_stats,
    not to http_get, because a static path segment ranks before a variable one. */
module RoutesJobs {
  import opened Base
  import opened Floats
  import opened PyValue
  import opened Sanitize
  import opened Query
  import opened Jobs
  import opened Paths
  import opened OptionPricing

  datatype Body =
    | JobBody(job: Job)
    | JobsBody(jobs: seq<Job>)
    | ErrorBody(error: string)
    | StatsBody(stats: Stats)
    | PathsBody(subset: Subset)

  datatype Reply = Reply(status: int, body: Body) | Raised(msg: string)

  // ---------------------------------------------------------------------------
  // GET /jobs and POST /jobs
  // ---------------------------------------------------------------------------

  /** http_list: the query string's clientId and portfolioId, None when absent. */
  method HttpList(store: JobStore, args: seq<(Key, Value)>) returns (r: Reply)
    ensures r.Reply? && r.status == 200 && r.body.JobsBody?
    ensures |r.body.jobs| <= 200 && SortedDesc(r.body.jobs, CreatedAt)
    ensures forall j :: j in r.body.jobs ==> j in store.docs
    ensures forall j :: j in r.body.jobs && Truthy(Field(args, "clientId")) ==> j.clientId == Field(args, "clientId")
    ensures forall j :: j in r.body.jobs && Truthy(Field(args, "portfolioId")) ==> j.portfolioId == Field(args, "portfolioId")
    ensures var f := JobFilter(if Truthy(Field(args, "clientId")) then Some(Field(args, "clientId")) else None,
                               if Truthy(Field(args, "portfolioId")) then Some(Field(args, "portfolioId")) else None);
            r.body.jobs == Top(Filter(store.docs, (j: Job) => Matches(f, j)), CreatedAt, 200)
  {
    var q := Dict([("clientId", Field(args, "clientId")), ("portfolioId", Field(args, "portfolioId"))]).entries;
    DictLookup([("clientId", Field(args, "clientId")), ("portfolioId", Field(args, "portfolioId"))], 0);
    DictLookup([("clientId", Field(args, "clientId")), ("portfolioId", Field(args, "portfolioId"))], 1);
    var jobs := store.ListJobs(q);
    r := Reply(200, JobsBody(jobs));
  }

  /** The Celery task http_submit queues, with the arguments it passes. */
  datatype Dispatch =
    | OptionTask(id: Value, product: Value, algo: Value, params: Value)
    | OptimizationTask(id: Value, algo: Value, params: Value)
    | NoTask

  /** The branch on the new job's "type": option pricing or portfolio optimisation, and
      no task for any other type. */
  function DispatchFor(j: Job): (d: Dispatch)
    ensures d.OptionTask? <==> j.kind == StrV("OptionPricing")
    ensures d.OptimizationTask? <==> j.kind == StrV("PortfolioOptimization")
    ensures d.OptionTask? ==> d == OptionTask(j.id, j.product, j.algo, j.params)
    ensures d.OptimizationTask? ==> d == OptimizationTask(j.id, j.algo, j.params)
  {
    if j.kind == StrV("OptionPricing") then OptionTask(j.id, j.product, j.algo, j.params)
    else if j.kind == StrV("PortfolioOptimization") then OptimizationTask(j.id, j.algo, j.params)
    else NoTask
  }

  /** http_submit: `new_job(request.get_json() or {})`, queue the Celery task its type names,
      answer 201 with the new job.  The queued task runs later, elsewhere. */
  method HttpSubmit(store: JobStore, body: Value, freshId: string, dir: Directory, now: int)
    returns (r: Reply, d: Dispatch)
    modifies store
    ensures var payload := if Truthy(body) then body else DictV([]);
            var doc := NewJobDoc(payload, freshId, dir, now);
            (doc.Err? ==> r == Raised(doc.msg) && d == NoTask && store.docs == old(store.docs))
            && (doc.Ok? ==> r == Reply(201, JobBody(doc.value)) && d == DispatchFor(doc.value)
                            && store.docs == old(store.docs) + [doc.value])
  {
    var payload := if Truthy(body) then body else DictV([]);
    var job := store.NewJob(payload, freshId, dir, now);
    if job.Err? {
      r := Raised(job.msg);
      d := NoTask;
    } else {
      d := DispatchFor(job.value);
      r := Reply(201, JobBody(job.value));
    }
  }

  /** An empty or absent body reaches new_job as {} and fails on the missing "type". */
  lemma EmptySubmitFails(body: Value, freshId: string, dir: Directory, now: int)
    requires !Truthy(body)
    ensures var payload := if Truthy(body) then body else DictV([]);
            NewJobDoc(payload, freshId, dir, now) == Err("'type'")
  {
  }

  // ---------------------------------------------------------------------------
  // GET /jobs/<jid>
  // ---------------------------------------------------------------------------

  /** http_get: the job with 200, or 404 {"error": "Not found"}. */
  function HttpGet(docs: seq<Job>, jid: string): (r: Reply)
    ensures r.Reply?
    ensures r.status == 404 <==> forall i :: 0 <= i < |docs| ==> docs[i].id != StrV(jid)
    ensures r.status == 404 ==> r.body == ErrorBody("Not found")
    ensures r.status != 404 ==> r.status == 200 && r.body.JobBody? && r.body.job in docs
                                && r.body.job.id == StrV(jid)
  {
    match FindJob(docs, jid)
    case None => Reply(404, ErrorBody("Not found"))
    case Some(j) => Reply(200, JobBody(j))
  }

  // ---------------------------------------------------------------------------
  // GET /jobs/stats
  // ---------------------------------------------------------------------------

  const Statuses: seq<string> := ["Queued", "Running", "Succeeded", "Failed", "Cancelled"]

  function HasStatus(s: string): Job -> bool
  {
    (j: Job) => j.status == s
  }

  predicate Known(j: Job)
  {
    j.status in Statuses
  }

  /** `count_documents({"status": s})`. */
  function Count(docs: seq<Job>, s: string): nat
  {
    |Filter(docs, HasStatus(s))|
  }

  /** `sum(by_status.values())`. */
  function SumCounts(counts: seq<(string, nat)>): nat
  {
    if |counts| == 0 then 0 else counts[0].1 + SumCounts(counts[1..])
  }

  datatype Stats = Stats(total: nat, byStatus: seq<(string, nat)>, recent: seq<Job>, running: seq<Job>)

  /** `{s: count_documents({"status": s}) for s in statuses}`, whose values add up to the
      number of jobs with a listed status. */
  function ByStatus(docs: seq<Job>): (c: seq<(string, nat)>)
    ensures |c| == 5
    ensures forall i :: 0 <= i < 5 ==> c[i] == (Statuses[i], Count(docs, Statuses[i]))
    ensures SumCounts(c) == |Filter(docs, Known)|
  {
    var r := seq(5, i requires 0 <= i < 5 => (Statuses[i], Count(docs, Statuses[i])));
    SumFive(r);
    TotalCountsKnown(docs);
    r
  }

  /** The ten most recently updated running jobs, newest first: no running job left out
      was updated later than one kept. */
  function RunningJobs(docs: seq<Job>): (r: seq<Job>)
    ensures |r| == Min(10, Count(docs, "Running")) && SortedDesc(r, UpdatedAt)
    ensures forall j :: j in r ==> j in docs && j.status == "Running"
    ensures multiset(r) <= multiset(docs)
    ensures forall x, i :: x in multiset(docs) - multiset(r) && x.status == "Running" && 0 <= i < |r| ==>
              UpdatedAt(x) <= UpdatedAt(r[i])
  {
    var running := Filter(docs, HasStatus("Running"));
    var top := Top(running, UpdatedAt, 10);
    assert forall j :: j in top ==> j in docs && j.status == "Running" by {
      forall j | j in top ensures j in docs && j.status == "Running" {
        assert j in multiset(top);
      }
    }
    RunningLeftOut(docs, running, top);
    top
  }

  /** What the running filter keeps and a top-k of it leaves out, counted against all
      the documents. */
  lemma RunningLeftOut(docs: seq<Job>, running: seq<Job>, top: seq<Job>)
    requires running == Filter(docs, HasStatus("Running"))
    requires multiset(top) <= multiset(running)
    ensures multiset(top) <= multiset(docs)
    ensures forall x :: x in multiset(docs) - multiset(top) && x.status == "Running" ==>
              x in multiset(running) - multiset(top)
  {
    forall x ensures multiset(running)[x] <= multiset(docs)[x] {
      assert multiset(running)[x] == if HasStatus("Running")(x) then multiset(docs)[x] else 0;
    }
    assert multiset(running) <= multiset(docs);
    forall x | x in multiset(docs) - multiset(top) && x.status == "Running"
      ensures x in multiset(running) - multiset(top)
    {
      assert HasStatus("Running")(x);
      assert multiset(running)[x] == multiset(docs)[x];
    }
  }

  /** jobs_stats: one count per listed status, their sum, the ten newest jobs and the ten
      most recently updated running jobs.  Jobs whose status is not listed are in no
      count and so not in the total. */
  function JobsStats(docs: seq<Job>): (st: Stats)
    ensures |st.byStatus| == 5
    ensures forall i :: 0 <= i < 5 ==> st.byStatus[i] == (Statuses[i], Count(docs, Statuses[i]))
    ensures st.total == |Filter(docs, Known)|
    ensures (forall j :: j in docs ==> Known(j)) ==> st.total == |docs|
    ensures |st.recent| == Min(10, |docs|) && SortedDesc(st.recent, CreatedAt)
    ensures multiset(st.recent) <= multiset(docs)
    ensures forall x, i :: x in multiset(docs) - multiset(st.recent) && 0 <= i < |st.recent| ==>
              CreatedAt(x) <= CreatedAt(st.recent[i])
    ensures |st.running| == Min(10, Count(docs, "Running")) && SortedDesc(st.running, UpdatedAt)
    ensures forall j :: j in st.running ==> j in docs && j.status == "Running"
    ensures multiset(st.running) <= multiset(docs)
    ensures forall x, i :: x in multiset(docs) - multiset(st.running) && x.status == "Running" && 0 <= i < |st.running| ==>
              UpdatedAt(x) <= UpdatedAt(st.running[i])
  {
    var counts := ByStatus(docs);
    AllKnownKept(docs);
    Stats(SumCounts(counts), counts, Top(docs, CreatedAt, 10), RunningJobs(docs))
  }

  lemma SumFive(s: seq<(string, nat)>)
    requires |s| == 5
    ensures SumCounts(s) == s[0].1 + s[1].1 + s[2].1 + s[3].1 + s[4].1
  {
    assert SumCounts(s[4..]) == s[4].1 by {
      assert s[4..][1..] == [];
    }
    assert s[3..][1..] == s[4..];
    assert SumCounts(s[3..]) == s[3].1 + s[4].1;
    assert s[2..][1..] == s[3..];
    assert SumCounts(s[2..]) == s[2].1 + s[3].1 + s[4].1;
    assert s[1..][1..] == s[2..];
    assert SumCounts(s[1..]) == s[1].1 + s[2].1 + s[3].1 + s[4].1;
  }

  /** The five counts add up to the number of jobs whose status is one of the five. */
  lemma {:induction false} TotalCountsKnown(docs: seq<Job>)
    ensures Count(docs, "Queued") + Count(docs, "Running") + Count(docs, "Succeeded")
            + Count(docs, "Failed") + Count(docs, "Cancelled") == |Filter(docs, Known)|
  {
    if |docs| > 0 {
      TotalCountsKnown(docs[1..]);
      FilterLength(docs, HasStatus("Queued"));
      FilterLength(docs, HasStatus("Running"));
      FilterLength(docs, HasStatus("Succeeded"));
      FilterLength(docs, HasStatus("Failed"));
      FilterLength(docs, HasStatus("Cancelled"));
      FilterLength(docs, Known);
      OneStatusEach(docs[0]);
    }
  }

  function Indicator(b: bool): nat { if b then 1 else 0 }

  /** A job is in exactly one of the five counts when its status is listed, else in none. */
  lemma OneStatusEach(j: Job)
    ensures Indicator(HasStatus("Queued")(j)) + Indicator(HasStatus("Running")(j))
            + Indicator(HasStatus("Succeeded")(j)) + Indicator(HasStatus("Failed")(j))
            + Indicator(HasStatus("Cancelled")(j)) == Indicator(Known(j))
  {
    assert Known(j) <==> j.status == "Queued" || j.status == "Running" || j.status == "Succeeded"
                         || j.status == "Failed" || j.status == "Cancelled";
  }

  /** Filtering a non-empty sequence keeps its head or not, then filters the rest. */
  lemma FilterLength<T(!new)>(xs: seq<T>, keep: T -> bool)
    requires |xs| > 0
    ensures |Filter(xs, keep)| == Indicator(keep(xs[0])) + |Filter(xs[1..], keep)|
  {
  }

  lemma {:induction false} AllKnownKept(docs: seq<Job>)
    ensures (forall j :: j in docs ==> Known(j)) ==> |Filter(docs, Known)| == |docs|
  {
    if |docs| > 0 {
      AllKnownKept(docs[1..]);
      assert forall j :: j in docs[1..] ==> j in docs;
    }
  }

  // ---------------------------------------------------------------------------
  // GET /jobs/<jid>/paths
  // ---------------------------------------------------------------------------

  /** How far job_paths gets before it loads: an answer already, or the record's
      gridfs_id with the `int` of the limit and stride query values. */
  datatype PathsStep = Answer(reply: Reply) | Load(fid: Value, limit: int, stride: int)

  function OrNone(o: Option<Value>): Value
  {
    if o.Some? then o.value else NoneV
  }

  /** `(j.get("result") or {})`: a job without a (truthy) result reads as {}. */
  function ResultOrEmpty(j: Job): (v: Value)
    ensures Truthy(j.result) ==> v == j.result
    ensures !Truthy(j.result) ==> v == DictV([])
  {
    if Truthy(j.result) then j.result else DictV([])
  }

  /** The guards of job_paths: 404 for an unknown job, an AttributeError for a result or
      paths record that is not a dict, 404 when the result has no truthy "paths", and the
      ValueError of `int` for a limit or stride that is not an integer literal. */
  function PathsStepFor(docs: seq<Job>, jid: string, args: seq<(Key, Value)>, b: Builtins): (s: PathsStep)
    ensures FindJob(docs, jid).None? <==> s == Answer(Reply(404, ErrorBody("Not found")))
    ensures FindJob(docs, jid).Some? && ResultOrEmpty(FindJob(docs, jid).value).DictV?
            && !Truthy(Field(ResultOrEmpty(FindJob(docs, jid).value).entries, "paths"))
            ==> s == Answer(Reply(404, ErrorBody("No paths stored for this job")))
    ensures s.Answer? && s.reply.Reply? ==> s.reply.status == 404
    ensures s.Load? ==>
              FindJob(docs, jid).Some?
              && var res := ResultOrEmpty(FindJob(docs, jid).value);
              res.DictV? && Truthy(Field(res.entries, "paths"))
              && var meta := Field(res.entries, "paths");
              meta.DictV? && s.fid == Field(meta.entries, "gridfs_id")
              && ToInt(FieldOr(args, "limit", StrV("100")), b) == Ok(s.limit)
              && ToInt(FieldOr(args, "stride", StrV("1")), b) == Ok(s.stride)
  {
    match FindJob(docs, jid)
    case None => Answer(Reply(404, ErrorBody("Not found")))
    case Some(j) =>
      var res := ResultOrEmpty(j);
      var paths := Get(res, "paths");
      if paths.Err? then Answer(Raised(paths.msg)) else
      var meta := OrNone(paths.value);
      assert res.DictV? ==> meta == Field(res.entries, "paths");
      if !Truthy(meta) then Answer(Reply(404, ErrorBody("No paths stored for this job"))) else
      var fid := Get(meta, "gridfs_id");
      if fid.Err? then Answer(Raised(fid.msg)) else
      var limit := ToInt(FieldOr(args, "limit", StrV("100")), b);
      if limit.Err? then Answer(Raised(limit.msg)) else
      var stride := ToInt(FieldOr(args, "stride", StrV("1")), b);
      if stride.Err? then Answer(Raised(stride.msg)) else
      Load(OrNone(fid.value), limit.value, stride.value)
  }

  /** The stored path matrices by the job id in their file name "mc_paths_<id>.npz". */
  type Files = string -> Option<Matrix>

  ghost predicate FilesWellFormed(files: Files)
  {
    forall k :: files(k).Some? ==> WellFormed(files(k).value)
  }

  /** job_paths as evidently intended: load the job's own paths file and answer with the
      fields of the record load_paths_subset returns, or 404 when no file is stored. */
  function JobPaths(docs: seq<Job>, jid: string, args: seq<(Key, Value)>, b: Builtins, files: Files): (r: Reply)
    requires FilesWellFormed(files)
    ensures PathsStepFor(docs, jid, args, b).Answer? ==> r == PathsStepFor(docs, jid, args, b).reply
    ensures PathsStepFor(docs, jid, args, b).Load? && files(jid).None? ==>
              r == Reply(404, ErrorBody("No paths stored for this job"))
    ensures PathsStepFor(docs, jid, args, b).Load? && files(jid).Some? ==>
              r.Reply? && r.status == 200 && r.body.PathsBody?
              && var st := PathsStepFor(docs, jid, args, b);
              Some(r.body.subset) == LoadPathsSubset(files(jid), st.limit, st.stride)
  {
    match PathsStepFor(docs, jid, args, b)
    case Answer(reply) => reply
    case Load(_, limit, stride) =>
      match LoadPathsSubset(files(jid), limit, stride)
      case None => Reply(404, ErrorBody("No paths stored for this job"))
      case Some(sub) => Reply(200, PathsBody(sub))
  }

  /** What the paths body holds: at most `limit` rows of the stored matrix (at least one),
      every `stride`-th row, each with one value per time point. */
  lemma PathsBodyIsStrided(docs: seq<Job>, jid: string, args: seq<(Key, Value)>, b: Builtins, files: Files)
    requires FilesWellFormed(files)
    requires JobPaths(docs, jid, args, b, files).Reply? && JobPaths(docs, jid, args, b, files).status == 200
    ensures var st := PathsStepFor(docs, jid, args, b);
            var sub := JobPaths(docs, jid, args, b, files).body.subset;
            var m := files(jid).value;
            st.Load? && files(jid).Some?
            && |sub.series| <= Max1(st.limit) && |sub.series| == sub.nTotal
            && (forall i :: 0 <= i < |sub.series| ==>
                  i * Max1(st.stride) < |m.rows| && sub.series[i] == m.rows[i * Max1(st.stride)])
            && (forall i :: 0 <= i < |sub.series| ==> |sub.series[i]| == |sub.t| == sub.stepsTotal)
  {
  }

  /** What unpacking None into four names raises. */
  function UnpackError(): string
  {
    "cannot unpack non-iterable NoneType object"
  }

  /** job_paths as written: the file is looked up by the gridfs_id instead of the job id,
      and the four-name unpacking of what load_paths_subset returns fails on None and,
      for a record, binds its four key strings, so `int("n_total")` (or, were that
      accepted, `"t".tolist()`) raises. */
  function JobPathsAsWritten(docs: seq<Job>, jid: string, args: seq<(Key, Value)>, b: Builtins, files: Files): (r: Reply)
    requires FilesWellFormed(files)
    ensures PathsStepFor(docs, jid, args, b).Answer? ==> r == PathsStepFor(docs, jid, args, b).reply
    ensures PathsStepFor(docs, jid, args, b).Load? ==> r.Raised?
  {
    match PathsStepFor(docs, jid, args, b)
    case Answer(reply) => reply
    case Load(fid, limit, stride) =>
      match LoadPathsSubset(files(Str(fid, b.floatRepr)), limit, stride)
      case None => Raised(UnpackError())
      case Some(_) =>
        var n := ToInt(StrV("n_total"), b);
        if n.Err? then Raised(n.msg) else
        var steps := ToInt(StrV("steps_total"), b);
        if steps.Err? then Raised(steps.msg) else
        Raised(AttributeError(StrV("t"), "tolist"))
  }

  /** The route as written never answers 200, while the intended one does for every job
      whose paths are stored and whose request passes the guards. */
  lemma PathsNeverServedAsWritten(docs: seq<Job>, jid: string, args: seq<(Key, Value)>, b: Builtins, files: Files)
    requires FilesWellFormed(files)
    ensures var r := JobPathsAsWritten(docs, jid, args, b, files);
            r.Raised? || r.status == 404
    ensures PathsStepFor(docs, jid, args, b).Load? && files(jid).Some? ==>
              JobPathsAsWritten(docs, jid, args, b, files).Raised?
              && JobPaths(docs, jid, args, b, files).status == 200
  {
  }

  // ---------------------------------------------------------------------------
  // From a finished job to its paths
  // ---------------------------------------------------------------------------

  /** A found job whose result is a dict without a truthy "paths" answers 404. */
  lemma NoPathsRecord(docs: seq<Job>, jid: string, args: seq<(Key, Value)>, b: Builtins, files: Files)
    requires FilesWellFormed(files) && FindJob(docs, jid).Some?
    requires var res := ResultOrEmpty(FindJob(docs, jid).value);
             res.DictV? && !Truthy(Field(res.entries, "paths"))
    ensures JobPaths(docs, jid, args, b, files) == Reply(404, ErrorBody("No paths stored for this job"))
  {
  }

  /** The job a finished run leaves, found again by its id. */
  lemma FinishedJobFound(docs: seq<Job>, jobId: string, r: Result<Value>, started: int, finished: int)
    requires FirstIndex(docs, jobId).Some?
    ensures var o := Finish(r);
            var after := SetStatusIn(SetStatusIn(docs, jobId, "Running", NoneV, None, started),
                                     jobId, o.status, o.result, o.error, finished);
            var i := FirstIndex(docs, jobId).value;
            FindJob(after, jobId) == Some(after[i])
            && (r.Err? ==> after[i].result == NoneV)
            && (r.Ok? ==> after[i].result == (if r.value.DictV? then CleanNumbers(r.value) else r.value))
  {
    RunLeavesTerminalJob(docs, jobId, r, started, finished);
  }

  /** A failed job stores no result, so its paths request answers 404. */
  lemma FailedJobHasNoPaths(docs: seq<Job>, jobId: string, msg: string, started: int, finished: int,
                            args: seq<(Key, Value)>, b: Builtins, files: Files)
    requires FirstIndex(docs, jobId).Some? && FilesWellFormed(files)
    ensures var o := Finish(Err(msg));
            var after := SetStatusIn(SetStatusIn(docs, jobId, "Running", NoneV, None, started),
                                     jobId, o.status, o.result, o.error, finished);
            JobPaths(after, jobId, args, b, files) == Reply(404, ErrorBody("No paths stored for this job"))
  {
    var o := Finish(Err(msg));
    var after := SetStatusIn(SetStatusIn(docs, jobId, "Running", NoneV, None, started),
                             jobId, o.status, o.result, o.error, finished);
    var i := FirstIndex(docs, jobId).value;
    FinishedJobFound(docs, jobId, Err(msg), started, finished);
    var j := after[i];
    assert FindJob(after, jobId) == Some(j) && j.result == NoneV;
    assert ResultOrEmpty(j) == DictV([]);
    NoPathsRecord(after, jobId, args, b, files);
  }

  /** A succeeded job whose result dict has no "paths" key answers 404. */
  lemma SucceededWithoutPaths(docs: seq<Job>, jobId: string, v: Value, started: int, finished: int,
                              args: seq<(Key, Value)>, b: Builtins, files: Files)
    requires FirstIndex(docs, jobId).Some? && FilesWellFormed(files)
    requires v.DictV? && !HasKey(v.entries, KStr("paths"))
    ensures var o := Finish(Ok(v));
            var after := SetStatusIn(SetStatusIn(docs, jobId, "Running", NoneV, None, started),
                                     jobId, o.status, o.result, o.error, finished);
            JobPaths(after, jobId, args, b, files) == Reply(404, ErrorBody("No paths stored for this job"))
  {
    var o := Finish(Ok(v));
    var after := SetStatusIn(SetStatusIn(docs, jobId, "Running", NoneV, None, started),
                             jobId, o.status, o.result, o.error, finished);
    var c := CleanNumbers(v);
    assert c.DictV? && |c.entries| == |v.entries| by {
      assert SameShape(v, c);
    }
    assert Field(c.entries, "paths") == NoneV by {
      CleanNumbersLookup(v.entries, KStr("paths"));
    }
    var i := FirstIndex(docs, jobId).value;
    var j := after[i];
    assert FindJob(after, jobId) == Some(j) && j.result == c by {
      FinishedJobFound(docs, jobId, Ok(v), started, finished);
    }
    assert ResultOrEmpty(j) == c || ResultOrEmpty(j) == DictV([]);
    NoPathsRecord(after, jobId, args, b, files);
  }

  /** A multi-leg job keeps its stored paths under its first leg, not at the top of its
      result, so its paths request answers 404 even when the file exists. */
  lemma MultiLegJobHasNoPaths(docs: seq<Job>, jobId: string, algo: Value, t: Totals, started: int, finished: int,
                              args: seq<(Key, Value)>, b: Builtins, files: Files)
    requires FirstIndex(docs, jobId).Some? && FilesWellFormed(files)
    ensures var o := Finish(Ok(MultiLegValue(algo, t)));
            var after := SetStatusIn(SetStatusIn(docs, jobId, "Running", NoneV, None, started),
                                     jobId, o.status, o.result, o.error, finished);
            JobPaths(after, jobId, args, b, files) == Reply(404, ErrorBody("No paths stored for this job"))
  {
    SucceededWithoutPaths(docs, jobId, MultiLegValue(algo, t), started, finished, args, b, files);
  }
}
