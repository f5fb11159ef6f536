/**
 * flowable/ExternalWorkerClient.go: the current client. The connection
 * settings travel in the acquire request, and every URL is built from the
 * base with its trailing '/' characters removed.
 */
module Client {
  import opened Wrappers
  import opened Json
  import opened Types
  import opened Transport
  import opened Urls
  import opened Acquisition
  import opened Dispatch
  import opened Callback
  import Reducer
  import Cycle

  /** The subscription: the acquire parameters plus the connection settings, which are not sent. */
  datatype AcquireRequest = AcquireRequest(
    topic: string, lockDuration: string, numberOfTasks: int, numberOfRetries: int,
    workerId: string, scopeType: string, url: string, interval: nat)
  {
    /** The acquire body: the six acquire parameters under their JSON names, and nothing else. */
    function Payload(): (j: Json)
      ensures j.JObj? && j.fields.Keys == {"topic", "lockDuration", "numberOfTasks", "numberOfRetries", "workerId", "scopeType"}
      ensures j.fields["topic"] == JStr(topic) && j.fields["workerId"] == JStr(workerId)
      ensures j.fields["lockDuration"] == JStr(lockDuration) && j.fields["scopeType"] == JStr(scopeType)
      ensures j.fields["numberOfTasks"] == JNum(Integral(numberOfTasks))
      ensures j.fields["numberOfRetries"] == JNum(Integral(numberOfRetries))
    {
      AcquireJson(topic, lockDuration, numberOfTasks, numberOfRetries, workerId, scopeType)
    }
  }

  /** `Acquire_jobs`: the acquire POST to the trimmed base URL. */
  method AcquireJobs(t: Transport, codec: JsonCodec, req: AcquireRequest) returns (out: AcquireOutcome)
    modifies t
    ensures t.requests == old(t.requests) + AcquirePosts(codec, AcquirePath(TrimRight(req.url)), req.Payload())
    ensures out == AcquireResult(codec, AcquirePath(TrimRight(req.url)), req.Payload(), |old(t.requests)|, t.respond)
  {
    var baseURL := TrimRight(req.url);
    out := Cycle.Acquire(t, codec, baseURL + JobApi + "/acquire/jobs", req.Payload());
  }

  /** `List_jobs`: the list GET to the trimmed base URL. */
  method ListJobs(t: Transport, url: string) returns (status: int, body: string, err: Option<string>)
    modifies t
    ensures t.requests == old(t.requests) + [Request.Get(ListPath(TrimRight(url)))]
    ensures var reply := t.respond(|old(t.requests)|, Request.Get(ListPath(TrimRight(url))));
            if reply.err.Some? then status == -1 && body == "" && err == reply.err
            else status == reply.status && body == reply.body && err.None?
  {
    status, body, err := Cycle.List(t, TrimRight(url) + JobApi + "/jobs");
  }

  /** `handle_worker_response`: the reducer on the trimmed base URL. */
  method HandleWorkerResponse(t: Transport, codec: JsonCodec, baseURL: string, workerId: string, jobId: string,
                              resStatus: HandlerStatus, resObj: HandlerResult?)
    modifies t, resObj
    ensures resObj != null ==> resObj.Snapshot() == Reducer.Prepared(workerId, resStatus, old(Snap(resObj)))
    ensures t.requests == old(t.requests)
                          + Reducer.ReducerPosts(codec, TrimRight(baseURL), workerId, jobId, resStatus, old(Snap(resObj)))
  {
    Cycle.Reduce(t, codec, TrimRight(baseURL), workerId, jobId, resStatus, resObj);
  }

  /**
   * One iteration of `Subscribe`: acquire, then hand every job to the handler
   * in order and reduce each verdict against the trimmed base URL; a failed
   * acquire gets one `(500, "")` call. Returns what the acquire gave and the
   * handler calls made.
   */
  method PollOnce(t: Transport, codec: JsonCodec, req: AcquireRequest, h: Handler)
    returns (out: AcquireOutcome, log: seq<Call>)
    modifies t
    ensures out == AcquireResult(codec, AcquirePath(TrimRight(req.url)), req.Payload(), |old(t.requests)|, t.respond)
    ensures CycleShape(codec, out, log)
    ensures forall i :: 0 <= i < |log| ==> HandlerAllows(h, codec, log[i].status, log[i].body, log[i].verdict)
    ensures t.requests == old(t.requests) + AcquirePosts(codec, AcquirePath(TrimRight(req.url)), req.Payload())
                          + DispatchPosts(codec, TrimRight(req.url), req.workerId, log)
  {
    out := AcquireJobs(t, codec, req);
    log := Cycle.Handle(t, codec, TrimRight(req.url), req.workerId, out, h);
  }
}
