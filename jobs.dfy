/** backend/models/jobs.py: the job document, its creation, its listing and
    the status-update rule.  The jobs collection is a sequence of documents in
    MongoDB's natural (insertion) order; `find_one` and `update_one` act on the
    first document whose "id" matches.  Times are integer microseconds since the
    epoch; the wall clock is the `now` parameter. */
module Jobs {
  import opened Base
  import opened Floats
  import opened PyValue
  import opened Sanitize
  import opened Query

  /** A stored job.  `kind` is the document's "type" key. */
  datatype Job = Job(
    id: Value,
    clientId: Value,
    clientName: Value,
    portfolioId: Value,
    portfolioName: Value,
    kind: Value,
    product: Value,
    algo: Value,
    priority: Value,
    submitter: Value,
    createdAt: int,
    updatedAt: int,
    status: string,
    startedAt: Option<int>,
    finishedAt: Option<int>,
    durationSec: Option<int>,
    params: Value,
    result: Value,
    error: Value)

  predicate IsTerminal(status: string)
  {
    status == "Succeeded" || status == "Failed" || status == "Cancelled"
  }

  /** The name look-ups `_name_or` makes in the clients and portfolios collections:
      the "name" of the document with that id, or None when there is no such document. */
  datatype Directory = Directory(clientName: Value -> Value, portfolioName: Value -> Value)

  /** _name_or: a falsy id has no name and is not looked up. */
  function NameOr(id: Value, find: Value -> Value): (r: Value)
    ensures !Truthy(id) ==> r == NoneV
    ensures Truthy(id) ==> r == find(id)
  {
    if Truthy(id) then find(id) else NoneV
  }

  /** The document new_job builds once "type" and "algo" are known. */
  function QueuedJob(e: seq<(Key, Value)>, kind: Value, algo: Value, freshId: string, dir: Directory, now: int): (j: Job)
    ensures j.status == "Queued" && j.createdAt == now && j.updatedAt == now
    ensures j.startedAt.None? && j.finishedAt.None? && j.durationSec.None?
    ensures j.result == NoneV && j.error == NoneV
    ensures j.kind == kind && j.algo == algo
    ensures freshId != "" ==> Truthy(j.id)
  {
    var given := Field(e, "id");
    var cid := Field(e, "clientId");
    var pid := Field(e, "portfolioId");
    Job(
      id := if Truthy(given) then given else StrV(freshId),
      clientId := cid,
      clientName := NameOr(cid, dir.clientName),
      portfolioId := pid,
      portfolioName := NameOr(pid, dir.portfolioName),
      kind := kind,
      product := Field(e, "product"),
      algo := algo,
      priority := FieldOr(e, "priority", StrV("Normal")),
      submitter := FieldOr(e, "submitter", StrV("You")),
      createdAt := now,
      updatedAt := now,
      status := "Queued",
      startedAt := None,
      finishedAt := None,
      durationSec := None,
      params := FieldOr(e, "params", DictV([])),
      result := NoneV,
      error := NoneV)
  }

  /** The document new_job inserts and returns.  `freshId` is `uuid4().hex`.  A payload
      that is not a dict fails on its first `.get`; a missing "type" or "algo" is a KeyError. */
  function NewJobDoc(payload: Value, freshId: string, dir: Directory, now: int): (r: Result<Job>)
    ensures !payload.DictV? ==> r == Err(AttributeError(payload, "get"))
    ensures payload.DictV? ==>
              (r.Ok? <==> HasKey(payload.entries, KStr("type")) && HasKey(payload.entries, KStr("algo")))
    ensures payload.DictV? && !HasKey(payload.entries, KStr("type")) ==> r == Err("'type'")
    ensures (payload.DictV? && HasKey(payload.entries, KStr("type")) && !HasKey(payload.entries, KStr("algo")))
            ==> r == Err("'algo'")
    ensures r.Ok? ==>
              var j := r.value;
              j.status == "Queued" && j.createdAt == now && j.updatedAt == now
              && j.startedAt.None? && j.finishedAt.None? && j.durationSec.None?
              && j.result == NoneV && j.error == NoneV
              && (freshId != "" ==> Truthy(j.id))
              && Some(j.kind) == Lookup(payload.entries, KStr("type"))
              && Some(j.algo) == Lookup(payload.entries, KStr("algo"))
  {
    match payload
    case DictV(e) =>
      var kind := Lookup(e, KStr("type"));
      var algo := Lookup(e, KStr("algo"));
      if kind.None? then Err("'type'")
      else if algo.None? then Err("'algo'")
      else Ok(QueuedJob(e, kind.value, algo.value, freshId, dir, now))
    case _ => Err(AttributeError(payload, "get"))
  }

  /** Defaults of new_job: the payload's own truthy id, else the fresh one; priority
      "Normal", submitter "You" and params {} when those keys are absent; names only
      for truthy ids. */
  lemma NewJobDefaults(e: seq<(Key, Value)>, freshId: string, dir: Directory, now: int)
    requires HasKey(e, KStr("type")) && HasKey(e, KStr("algo"))
    ensures var j := NewJobDoc(DictV(e), freshId, dir, now).value;
            (j.id == StrV(freshId) <==> !Truthy(Field(e, "id")) || Field(e, "id") == StrV(freshId))
            && (!HasKey(e, KStr("priority")) ==> j.priority == StrV("Normal"))
            && (!HasKey(e, KStr("submitter")) ==> j.submitter == StrV("You"))
            && (!HasKey(e, KStr("params")) ==> j.params == DictV([]))
            && (!Truthy(j.clientId) ==> j.clientName == NoneV)
            && (!Truthy(j.portfolioId) ==> j.portfolioName == NoneV)
  {
  }

  /** The filter list_jobs builds: a condition on clientId and on portfolioId, each
      present only when the query value is truthy. */
  datatype JobFilter = JobFilter(clientId: Option<Value>, portfolioId: Option<Value>)

  predicate Matches(f: JobFilter, j: Job)
  {
    (f.clientId.Some? ==> j.clientId == f.clientId.value)
    && (f.portfolioId.Some? ==> j.portfolioId == f.portfolioId.value)
  }

  /** The listing order: newest createdAt first. */
  function CreatedAt(j: Job): int { j.createdAt }
  function UpdatedAt(j: Job): int { j.updatedAt }

  /** The first document with `id == jid`, `find_one({"id": jid})`. */
  function FirstIndex(docs: seq<Job>, jid: string): (r: Option<nat>)
    ensures r.None? <==> forall i :: 0 <= i < |docs| ==> docs[i].id != StrV(jid)
    ensures r.Some? ==> r.value < |docs| && docs[r.value].id == StrV(jid)
                        && forall i :: 0 <= i < r.value ==> docs[i].id != StrV(jid)
  {
    if docs == [] then None
    else if docs[0].id == StrV(jid) then Some(0)
    else
      match FirstIndex(docs[1..], jid)
      case None => None
      case Some(i) => Some(i + 1)
  }

  /** get_job: the first document with that id. */
  function FindJob(docs: seq<Job>, jid: string): (r: Option<Job>)
    ensures r.None? <==> forall i :: 0 <= i < |docs| ==> docs[i].id != StrV(jid)
    ensures r.Some? ==> r.value in docs && r.value.id == StrV(jid)
    ensures r.Some? ==> r == Some(docs[FirstIndex(docs, jid).value])
  {
    match FirstIndex(docs, jid)
    case None => None
    case Some(i) => Some(docs[i])
  }

  // ---------------------------------------------------------------------------
  // set_job_status
  // ---------------------------------------------------------------------------

  /** The `$set` document: `startedAt`, `finishedAt`, `durationSec` and the
      (result, error) pair are keys that may be absent, hence the options. */
  datatype Upd = Upd(
    status: string,
    updatedAt: int,
    startedAt: Option<int>,
    finishedAt: Option<int>,
    durationSec: Option<int>,
    outcome: Option<(Value, Value)>)

  function ErrorValue(error: Option<string>): Value
  {
    match error
    case None => NoneV
    case Some(s) => StrV(s)
  }

  /** `started_at or created_at or now`. */
  function DurationBase(doc: Option<Job>, now: int): int
  {
    match doc
    case None => now
    case Some(j) => if j.startedAt.Some? then j.startedAt.value else j.createdAt
  }

  /** `max(0, int((now - base).total_seconds()))` for times in microseconds. */
  function Duration(base: int, now: int): (d: int)
    ensures d >= 0
    ensures now <= base ==> d == 0
    ensures now >= base ==> d * 1_000_000 <= now - base < (d + 1) * 1_000_000
  {
    var t := Trunc((now - base) as real / 1_000_000.0);
    if t < 0 then 0 else t
  }

  /** The update set_job_status computes from the stored document (if any), the
      requested status, the result and the error. */
  function StatusUpdate(doc: Option<Job>, status: string, result: Value, error: Option<string>, now: int): (u: Upd)
    ensures u.status == status && u.updatedAt == now
    ensures u.startedAt.Some? <==> status == "Running" && (doc.None? || doc.value.startedAt.None?)
    ensures u.startedAt.Some? ==> u.startedAt == Some(now)
    ensures u.finishedAt == if IsTerminal(status) then Some(now) else None
    ensures u.durationSec.Some? <==> IsTerminal(status)
    ensures u.durationSec.Some? ==> u.durationSec.value >= 0
    ensures u.outcome.Some? <==> IsTerminal(status) || result != NoneV || error.Some?
    ensures u.outcome.Some? ==>
              u.outcome.value.1 == ErrorValue(error)
              && u.outcome.value.0 == (if result.DictV? then CleanNumbers(result) else result)
  {
    var started := doc.Some? && doc.value.startedAt.Some?;
    var out := (if result.DictV? then CleanNumbers(result) else result, ErrorValue(error));
    Upd(
      status := status,
      updatedAt := now,
      startedAt := if status == "Running" && !started then Some(now) else None,
      finishedAt := if IsTerminal(status) then Some(now) else None,
      durationSec := if IsTerminal(status) then Some(Duration(DurationBase(doc, now), now)) else None,
      outcome := if IsTerminal(status) || result != NoneV || error.Some? then Some(out) else None)
  }

  /** The fields of a job that no status update writes. */
  predicate SameIdentity(a: Job, b: Job)
  {
    a.id == b.id && a.clientId == b.clientId && a.clientName == b.clientName
    && a.portfolioId == b.portfolioId && a.portfolioName == b.portfolioName
    && a.kind == b.kind && a.product == b.product && a.algo == b.algo
    && a.priority == b.priority && a.submitter == b.submitter
    && a.createdAt == b.createdAt && a.params == b.params
  }

  /** `{"$set": upd}`: the keys present in the update are overwritten, every other key
      keeps its stored value. */
  function ApplyUpdate(j: Job, u: Upd): (r: Job)
    ensures SameIdentity(j, r)
    ensures r.status == u.status && r.updatedAt == u.updatedAt
    ensures u.startedAt.None? ==> r.startedAt == j.startedAt
    ensures u.finishedAt.None? ==> r.finishedAt == j.finishedAt
    ensures u.durationSec.None? ==> r.durationSec == j.durationSec
    ensures u.outcome.None? ==> r.result == j.result && r.error == j.error
  {
    j.(status := u.status,
       updatedAt := u.updatedAt,
       startedAt := if u.startedAt.Some? then u.startedAt else j.startedAt,
       finishedAt := if u.finishedAt.Some? then u.finishedAt else j.finishedAt,
       durationSec := if u.durationSec.Some? then u.durationSec else j.durationSec,
       result := if u.outcome.Some? then u.outcome.value.0 else j.result,
       error := if u.outcome.Some? then u.outcome.value.1 else j.error)
  }

  /** One set_job_status call on a stored document. */
  function SetStatus(j: Job, status: string, result: Value, error: Option<string>, now: int): Job
  {
    ApplyUpdate(j, StatusUpdate(Some(j), status, result, error, now))
  }

  /** set_job_status on the whole collection: the first document with that id takes the
      update, every other document is left as it was, and that document stays the first
      one with its id. */
  function SetStatusIn(docs: seq<Job>, jid: string, status: string, result: Value,
                       error: Option<string>, now: int): (r: seq<Job>)
    ensures |r| == |docs|
    ensures FirstIndex(r, jid) == FirstIndex(docs, jid)
    ensures forall i :: 0 <= i < |docs| && FirstIndex(docs, jid) != Some(i) ==> r[i] == docs[i]
    ensures FirstIndex(docs, jid).Some? ==>
              var i := FirstIndex(docs, jid).value;
              r[i] == SetStatus(docs[i], status, result, error, now)
  {
    match FirstIndex(docs, jid)
    case None => docs
    case Some(i) =>
      var r := docs[i := SetStatus(docs[i], status, result, error, now)];
      assert forall k :: 0 <= k < |r| ==> r[k].id == docs[k].id;
      r
  }

  /** The stored status is never read: the update does not depend on it. */
  lemma StatusUpdateIgnoresOldStatus(j: Job, old_status: string, status: string, result: Value,
                                     error: Option<string>, now: int)
    ensures StatusUpdate(Some(j.(status := old_status)), status, result, error, now)
         == StatusUpdate(Some(j), status, result, error, now)
  {
  }

  /** Any transition is taken, a regression from a terminal status included, and leaves
      the job's identity alone. */
  lemma {:induction false} AnyTransitionAccepted(j: Job, status: string, result: Value,
                                                 error: Option<string>, now: int)
    ensures SetStatus(j, status, result, error, now).status == status
    ensures SetStatus(j, status, result, error, now).updatedAt == now
    ensures SameIdentity(j, SetStatus(j, status, result, error, now))
  {
    var u := StatusUpdate(Some(j), status, result, error, now);
    assert ApplyUpdate(j, u).status == u.status;
  }

  /** A second "Running" keeps the first start time. */
  lemma {:induction false} RepeatedRunningKeepsStart(j: Job, t1: int, t2: int)
    ensures var j1 := SetStatus(j, "Running", NoneV, None, t1);
            var j2 := SetStatus(j1, "Running", NoneV, None, t2);
            j1.startedAt.Some? && j2.startedAt == j1.startedAt
            && (j.startedAt.Some? ==> j1.startedAt == j.startedAt)
            && (j.startedAt.None? ==> j1.startedAt == Some(t1))
  {
    var u1 := StatusUpdate(Some(j), "Running", NoneV, None, t1);
    var j1 := ApplyUpdate(j, u1);
    assert j1.startedAt.Some?;
    var u2 := StatusUpdate(Some(j1), "Running", NoneV, None, t2);
    assert u2.startedAt.None?;
  }

  /** A terminal status records the finish time, a non-negative duration measured from
      the start (or, never started, from creation), and both result and error. */
  lemma {:induction false} TerminalStatusWritesOutcome(j: Job, status: string, result: Value,
                                                       error: Option<string>, now: int)
    requires IsTerminal(status)
    ensures var r := SetStatus(j, status, result, error, now);
            var base := if j.startedAt.Some? then j.startedAt.value else j.createdAt;
            r.finishedAt == Some(now)
            && r.durationSec == Some(Duration(base, now))
            && r.durationSec.value >= 0
            && r.result == (if result.DictV? then CleanNumbers(result) else result)
            && r.error == ErrorValue(error)
            && r.startedAt == j.startedAt
  {
    var u := StatusUpdate(Some(j), status, result, error, now);
    assert u.durationSec == Some(Duration(DurationBase(Some(j), now), now));
    assert u.startedAt.None?;
  }

  /** A non-terminal status with neither result nor error leaves both, and the finish
      data, as they were. */
  lemma {:induction false} ProgressKeepsOutcome(j: Job, status: string, now: int)
    requires !IsTerminal(status)
    ensures var r := SetStatus(j, status, NoneV, None, now);
            r.result == j.result && r.error == j.error
            && r.finishedAt == j.finishedAt && r.durationSec == j.durationSec
  {
    var u := StatusUpdate(Some(j), status, NoneV, None, now);
    assert u.outcome.None? && u.finishedAt.None? && u.durationSec.None?;
  }

  // ---- the end of a task: one terminal set_job_status call ----

  datatype Outcome = Outcome(status: string, result: Value, error: Option<string>)

  /** `set_job_status(job_id, "Succeeded", result=res)` or, from the `except`,
      `set_job_status(job_id, "Failed", error=str(e))`. */
  function Finish(r: Result<Value>): (o: Outcome)
    ensures IsTerminal(o.status)
    ensures o.status == "Succeeded" <==> r.Ok?
    ensures r.Ok? ==> o.result == r.value && o.error.None?
    ensures r.Err? ==> o == Outcome("Failed", NoneV, Some(r.msg))
  {
    match r
    case Ok(v) => Outcome("Succeeded", v, None)
    case Err(m) => Outcome("Failed", NoneV, Some(m))
  }

  /** The stored job after a run: started (keeping an earlier start), finished, its
      duration measured from the start, and either the cleaned result with no error or the
      error text with the result cleared. */
  lemma {:induction false} RunLeavesTerminalJob(docs: seq<Job>, jobId: string, r: Result<Value>, started: int, finished: int)
    requires FirstIndex(docs, jobId).Some?
    ensures var i := FirstIndex(docs, jobId).value;
            var o := Finish(r);
            var d := SetStatusIn(SetStatusIn(docs, jobId, "Running", NoneV, None, started),
                                 jobId, o.status, o.result, o.error, finished)[i];
            var s := if docs[i].startedAt.Some? then docs[i].startedAt.value else started;
            SameIdentity(docs[i], d)
            && d.status == o.status && d.updatedAt == finished
            && d.startedAt == Some(s) && d.finishedAt == Some(finished)
            && d.durationSec == Some(Duration(s, finished))
            && (r.Err? ==> d.status == "Failed" && d.result == NoneV && d.error == StrV(r.msg))
            && (r.Ok? ==> d.status == "Succeeded" && d.error == NoneV
                          && d.result == (if r.value.DictV? then CleanNumbers(r.value) else r.value))
  {
    var i := FirstIndex(docs, jobId).value;
    var o := Finish(r);
    var j1 := SetStatus(docs[i], "Running", NoneV, None, started);
    RepeatedRunningKeepsStart(docs[i], started, started);
    AnyTransitionAccepted(docs[i], "Running", NoneV, None, started);
    TerminalStatusWritesOutcome(j1, o.status, o.result, o.error, finished);
    AnyTransitionAccepted(j1, o.status, o.result, o.error, finished);
  }

  /** The jobs collection. */
  class JobStore {
    var docs: seq<Job>

    constructor()
      ensures docs == []
    {
      docs := [];
    }

    /** new_job: build the document, insert it, return it.  Nothing is inserted when
        building it raises. */
    method NewJob(payload: Value, freshId: string, dir: Directory, now: int) returns (r: Result<Job>)
      modifies this
      ensures r == NewJobDoc(payload, freshId, dir, now)
      ensures r.Ok? ==> docs == old(docs) + [r.value]
      ensures r.Err? ==> docs == old(docs)
    {
      r := NewJobDoc(payload, freshId, dir, now);
      if r.Ok? {
        docs := docs + [r.value];
      }
    }

    /** list_jobs: the filter gains a clientId and a portfolioId condition only for
        truthy query values; the newest 200 matching documents come back, newest first. */
    method ListJobs(q: seq<(Key, Value)>) returns (r: seq<Job>)
      ensures var f := JobFilter(if Truthy(Field(q, "clientId")) then Some(Field(q, "clientId")) else None,
                                 if Truthy(Field(q, "portfolioId")) then Some(Field(q, "portfolioId")) else None);
              r == Top(Filter(docs, (j: Job) => Matches(f, j)), CreatedAt, 200)
      ensures |r| <= 200
      ensures forall j :: j in r ==> j in docs
      ensures forall j :: j in r && Truthy(Field(q, "clientId")) ==> j.clientId == Field(q, "clientId")
      ensures forall j :: j in r && Truthy(Field(q, "portfolioId")) ==> j.portfolioId == Field(q, "portfolioId")
      ensures SortedDesc(r, CreatedAt)
    {
      var f := JobFilter(None, None);
      if Truthy(Field(q, "clientId")) {
        f := f.(clientId := Some(Field(q, "clientId")));
      }
      if Truthy(Field(q, "portfolioId")) {
        f := f.(portfolioId := Some(Field(q, "portfolioId")));
      }
      var matching := Filter(docs, (j: Job) => Matches(f, j));
      r := Top(matching, CreatedAt, 200);
      forall j | j in r ensures j in matching {
        assert j in multiset(r);
      }
    }

    /** get_job: `find_one({"id": jid}, {"_id": 0})`. */
    method GetJob(jid: string) returns (r: Option<Job>)
      ensures r == FindJob(docs, jid)
    {
      var i := FirstIndex(docs, jid);
      r := if i.Some? then Some(docs[i.value]) else None;
    }

    /** set_job_status: read the stored start and creation times, build the update key by
        key, then `$set` it on the first document with that id (none: nothing changes). */
    method SetJobStatus(jid: string, status: string, result: Value, error: Option<string>, now: int)
      modifies this
      ensures docs == SetStatusIn(old(docs), jid, status, result, error, now)
    {
      var i := FirstIndex(docs, jid);
      var doc := if i.Some? then Some(docs[i.value]) else None;
      var upd := StatusUpdateOf(doc, status, result, error, now);
      if i.Some? {
        docs := docs[i.value := ApplyUpdate(docs[i.value], upd)];
      }
    }
  }

  /** The `$set` document set_job_status builds, one field at a time. */
  method StatusUpdateOf(doc: Option<Job>, status: string, result: Value, error: Option<string>, now: int)
    returns (upd: Upd)
    ensures upd == StatusUpdate(doc, status, result, error, now)
  {
    var startedAt := if doc.Some? then doc.value.startedAt else None;
    upd := Upd(status, now, None, None, None, None);
    if status == "Running" && startedAt.None? {
      upd := upd.(startedAt := Some(now));
    }
    if IsTerminal(status) {
      upd := upd.(finishedAt := Some(now));
      upd := upd.(durationSec := Some(Duration(DurationBase(doc, now), now)));
      upd := upd.(outcome := Some((result, ErrorValue(error))));
    } else if result != NoneV || error.Some? {
      upd := upd.(outcome := Some((result, ErrorValue(error))));
    }
    if upd.outcome.Some? && upd.outcome.value.0.DictV? {
      upd := upd.(outcome := Some((CleanNumbers(upd.outcome.value.0), upd.outcome.value.1)));
    }
    var u := StatusUpdate(doc, status, result, error, now);
    assert upd.startedAt == u.startedAt && upd.finishedAt == u.finishedAt;
    assert upd.durationSec == u.durationSec;
    assert upd.outcome == u.outcome;
  }
}
