/**
 * What the two client variants share: the acquire POST and the list GET given
 * their full URL, the four task actions, the reducer given the base URL it
 * uses, and the dispatch of one polling cycle's jobs.
 */
module Cycle {
  import opened Wrappers
  import opened Json
  import opened Types
  import opened Transport
  import opened Urls
  import opened Reducer
  import opened Acquisition
  import opened Dispatch
  import opened Callback

  /** `Acquire_jobs` after the URL is built: one POST of the payload, the reply read as a JSON array. */
  method Acquire(t: Transport, codec: JsonCodec, full: string, request: Json) returns (out: AcquireOutcome)
    modifies t
    ensures t.requests == old(t.requests) + AcquirePosts(codec, full, request)
    ensures out == AcquireResult(codec, full, request, |old(t.requests)|, t.respond)
  {
    var payload := codec.marshal(request);
    if payload.Failure? {
      return AcquireOutcome([], "", -1, Some(payload.error));
    }
    var reply := t.Post(full, payload.value);
    if reply.err.Some? {
      return AcquireOutcome([], "", reply.status, reply.err);
    }
    var parsed := codec.parse(reply.body);
    match parsed {
      case Failure(e) =>
        out := AcquireOutcome([], reply.body, reply.status, Some(e));
      case Success(JArr(items)) =>
        out := AcquireOutcome(items, reply.body, reply.status, None);
      case Success(JNull) =>
        out := AcquireOutcome([], reply.body, reply.status, None);
      case Success(other) =>
        out := AcquireOutcome([], reply.body, reply.status, Some(UnmarshalTypeError(other, JobListType)));
    }
  }

  /** `List_jobs` after the URL is built: one GET, the reply passed through undecoded; a transport error gives (-1, ""). */
  method List(t: Transport, full: string) returns (status: int, body: string, err: Option<string>)
    modifies t
    ensures t.requests == old(t.requests) + [Request.Get(full)]
    ensures var reply := t.respond(|old(t.requests)|, Request.Get(full));
            if reply.err.Some? then status == -1 && body == "" && err == reply.err
            else status == reply.status && body == reply.body && err.None?
  {
    var reply := t.Get(full);
    if reply.err.Some? {
      return -1, "", reply.err;
    }
    return reply.status, reply.body, None;
  }

  /**
   * `task_complete`, `task_fail`, `task_bpmnError`, `task_cmmnTerminate`: skip an
   * empty job id, otherwise marshal the result and POST it once to the job's
   * action URL; marshal and POST errors are swallowed.
   */
  method TaskAction(t: Transport, codec: JsonCodec, baseURL: string, jobId: string, k: TaskKind, res: HandlerResult)
    modifies t
    ensures t.requests == old(t.requests) + TaskPosts(codec, baseURL, jobId, k, res.Snapshot())
  {
    if jobId == "" {
      return;
    }
    var path := baseURL + JobApi + "/acquire/jobs/" + jobId + "/" + PathSegment(k);
    var b := codec.marshal(ResultJson(res.Snapshot()));
    if b.Failure? {
      return;
    }
    var reply := t.Post(path, b.value);
  }

  /**
   * The body of `handle_worker_response` once the base URL is fixed: patches
   * the handler's result in place (worker id, default error code) and calls the
   * task action the status selects, if any.
   */
  method Reduce(t: Transport, codec: JsonCodec, base: string, workerId: string, jobId: string,
                resStatus: HandlerStatus, resObj: HandlerResult?)
    modifies t, resObj
    ensures resObj != null ==> resObj.Snapshot() == Prepared(workerId, resStatus, old(Snap(resObj)))
    ensures t.requests == old(t.requests) + ReducerPosts(codec, base, workerId, jobId, resStatus, old(Snap(resObj)))
  {
    if resObj != null && resObj.workerId == "" {
      resObj.workerId := workerId;
    }
    var res := resObj;
    if res == null {
      res := new HandlerResult("", workerId, NilSlice, "");
    }
    if resStatus == StatusSuccess {
      TaskAction(t, codec, base, jobId, Complete, res);
    } else if resStatus == StatusFail {
      if res.errorCode == "" {
        res.errorCode := "failed";
      }
      TaskAction(t, codec, base, jobId, Fail, res);
    } else if resStatus == StatusBpmnError {
      if res.errorCode == "" {
        res.errorCode := "bpmnError";
      }
      TaskAction(t, codec, base, jobId, BpmnError, res);
    } else if resStatus == StatusCmmnTerminate {
      if res.errorCode == "" {
        res.errorCode := "cmmnTerminate";
      }
      TaskAction(t, codec, base, jobId, CmmnTerminate, res);
    }
  }

  /** A failed acquire: the handler is still called once, with `(500, "")` and no job id. */
  method DispatchFailure(t: Transport, codec: JsonCodec, base: string, workerId: string, h: Handler)
    returns (d: Call)
    modifies t
    ensures d.status == 500 && d.body == "" && d.jobId == ""
    ensures HandlerAllows(h, codec, d.status, d.body, d.verdict)
    ensures t.requests == old(t.requests) + ReducerPosts(codec, base, workerId, d.jobId, d.verdict.status, d.verdict.result)
  {
    var resStatus, resObj := InvokeHandler(h, codec, 500, "");
    d := Call(500, "", "", Verdict(resStatus, Snap(resObj)));
    Reduce(t, codec, base, workerId, "", resStatus, resObj);
  }

  /**
   * One job of a successful acquire: re-serialise it, find its id, call the
   * handler and reduce the verdict. A job that cannot be re-serialised is
   * handed over as `(500, "")` with no id.
   */
  method DispatchJob(t: Transport, codec: JsonCodec, base: string, workerId: string, acquireStatus: int,
                     job: Json, h: Handler) returns (d: Call)
    modifies t
    ensures DispatchedAs(codec, acquireStatus, job, d)
    ensures HandlerAllows(h, codec, d.status, d.body, d.verdict)
    ensures t.requests == old(t.requests) + ReducerPosts(codec, base, workerId, d.jobId, d.verdict.status, d.verdict.result)
  {
    var jobBytes := codec.marshal(job);
    if jobBytes.Failure? {
      var resStatus, resObj := InvokeHandler(h, codec, 500, "");
      d := Call(500, "", "", Verdict(resStatus, Snap(resObj)));
      Reduce(t, codec, base, workerId, "", resStatus, resObj);
    } else {
      var jobId := JobIdOf(codec, jobBytes.value);
      var resStatus, resObj := InvokeHandler(h, codec, acquireStatus, jobBytes.value);
      d := Call(acquireStatus, jobBytes.value, jobId, Verdict(resStatus, Snap(resObj)));
      Reduce(t, codec, base, workerId, jobId, resStatus, resObj);
    }
  }

  /**
   * The jobs `jobs[..i]` have been dispatched as `log`, and `t` holds the
   * requests made before them followed by their action POSTs.
   */
  ghost predicate Progress(t: Transport, codec: JsonCodec, base: string, workerId: string, acquireStatus: int,
                           jobs: seq<Json>, h: Handler, before: seq<Request>, i: nat, log: seq<Call>)
    reads t
  {
    && i <= |jobs| && |log| == i
    && DispatchedAll(codec, acquireStatus, jobs[..i], log)
    && Answered(h, codec, log)
    && t.requests == before + DispatchPosts(codec, base, workerId, log)
  }

  /** One more dispatched job extends both the dispatch record and the handler record. */
  lemma StepFacts(codec: JsonCodec, acquireStatus: int, jobs: seq<Json>, h: Handler, i: nat, log: seq<Call>, d: Call)
    requires i < |jobs| && |log| == i
    requires DispatchedAll(codec, acquireStatus, jobs[..i], log) && Answered(h, codec, log)
    requires DispatchedAs(codec, acquireStatus, jobs[i], d) && HandlerAllows(h, codec, d.status, d.body, d.verdict)
    ensures DispatchedAll(codec, acquireStatus, jobs[..i + 1], log + [d]) && Answered(h, codec, log + [d])
  {
    assert (log + [d])[..|log|] == log;
    assert jobs[..i + 1][..i] == jobs[..i];
  }

  /** Dispatches `jobs[i]`, extending the progress by one job. */
  method DispatchNext(t: Transport, codec: JsonCodec, base: string, workerId: string, acquireStatus: int,
                      jobs: seq<Json>, h: Handler, ghost before: seq<Request>, i: nat, log: seq<Call>)
    returns (log': seq<Call>)
    requires i < |jobs|
    requires Progress(t, codec, base, workerId, acquireStatus, jobs, h, before, i, log)
    modifies t
    ensures Progress(t, codec, base, workerId, acquireStatus, jobs, h, before, i + 1, log')
  {
    var d := DispatchJob(t, codec, base, workerId, acquireStatus, jobs[i], h);
    DispatchPostsSnoc(codec, base, workerId, log, d);
    StepFacts(codec, acquireStatus, jobs, h, i, log, d);
    log' := log + [d];
  }

  /** The jobs of a successful acquire, dispatched one after the other in the order received. */
  method DispatchAll(t: Transport, codec: JsonCodec, base: string, workerId: string, acquireStatus: int,
                     jobs: seq<Json>, h: Handler) returns (log: seq<Call>)
    modifies t
    ensures |log| == |jobs|
    ensures DispatchedAll(codec, acquireStatus, jobs, log)
    ensures Answered(h, codec, log)
    ensures t.requests == old(t.requests) + DispatchPosts(codec, base, workerId, log)
  {
    log := [];
    var i := 0;
    while i < |jobs|
      invariant Progress(t, codec, base, workerId, acquireStatus, jobs, h, old(t.requests), i, log)
    {
      log := DispatchNext(t, codec, base, workerId, acquireStatus, jobs, h, old(t.requests), i, log);
      i := i + 1;
    }
    assert jobs[..i] == jobs;
  }

  /**
   * The body of one `Subscribe` iteration after the acquire: one `(500, "")`
   * call when it failed, otherwise every job in order. `base` is the URL the
   * reducer builds action paths from.
   */
  method Handle(t: Transport, codec: JsonCodec, base: string, workerId: string, out: AcquireOutcome, h: Handler)
    returns (log: seq<Call>)
    modifies t
    ensures CycleShape(codec, out, log)
    ensures forall i :: 0 <= i < |log| ==> HandlerAllows(h, codec, log[i].status, log[i].body, log[i].verdict)
    ensures t.requests == old(t.requests) + DispatchPosts(codec, base, workerId, log)
  {
    if out.err.Some? {
      var d := DispatchFailure(t, codec, base, workerId, h);
      log := [d];
      DispatchPostsSnoc(codec, base, workerId, [], d);
      assert [d][..0] == [];
      AnsweredEach(h, codec, log);
      return;
    }
    log := DispatchAll(t, codec, base, workerId, out.status, out.jobs, h);
    DispatchedEach(codec, out.status, out.jobs, log);
    AnsweredEach(h, codec, log);
  }
}
