/**
 * flowable/flowable.go: the earlier client. The base URL is passed
 * separately from the acquire parameters and is used exactly as given, so a
 * trailing '/' ends up doubled in every path.
 */
module Legacy {
  import opened Wrappers
  import opened Json
  import opened Types
  import opened Transport
  import opened Urls
  import opened Acquisition
  import opened Dispatch
  import opened Callback
  import Reducer
  import Cycle
  import Client

  /** The acquire parameters; every field is sent. */
  datatype AcquireRequest = AcquireRequest(
    topic: string, lockDuration: string, numberOfTasks: int, numberOfRetries: int,
    workerId: string, scopeType: string)
  {
    function Payload(): Json {
      AcquireJson(topic, lockDuration, numberOfTasks, numberOfRetries, workerId, scopeType)
    }
  }

  /** `Acquire_jobs`: the acquire POST to the base URL as given. */
  method AcquireJobs(t: Transport, codec: JsonCodec, url: string, req: AcquireRequest) returns (out: AcquireOutcome)
    modifies t
    ensures t.requests == old(t.requests) + AcquirePosts(codec, AcquirePath(url), req.Payload())
    ensures out == AcquireResult(codec, AcquirePath(url), req.Payload(), |old(t.requests)|, t.respond)
  {
    out := Cycle.Acquire(t, codec, url + JobApi + "/acquire/jobs", req.Payload());
  }

  /** `List_jobs`: the list GET to the base URL as given. */
  method ListJobs(t: Transport, url: string) returns (status: int, body: string, err: Option<string>)
    modifies t
    ensures t.requests == old(t.requests) + [Request.Get(ListPath(url))]
    ensures var reply := t.respond(|old(t.requests)|, Request.Get(ListPath(url)));
            if reply.err.Some? then status == -1 && body == "" && err == reply.err
            else status == reply.status && body == reply.body && err.None?
  {
    status, body, err := Cycle.List(t, url + JobApi + "/jobs");
  }

  /** `handle_worker_response`: the reducer on the base URL as given. */
  method HandleWorkerResponse(t: Transport, codec: JsonCodec, baseURL: string, workerId: string, jobId: string,
                              resStatus: HandlerStatus, resObj: HandlerResult?)
    modifies t, resObj
    ensures resObj != null ==> resObj.Snapshot() == Reducer.Prepared(workerId, resStatus, old(Snap(resObj)))
    ensures t.requests == old(t.requests)
                          + Reducer.ReducerPosts(codec, baseURL, workerId, jobId, resStatus, old(Snap(resObj)))
  {
    Cycle.Reduce(t, codec, baseURL, workerId, jobId, resStatus, resObj);
  }

  /** One iteration of `Subscribe`, every URL built from `url` as given. */
  method PollOnce(t: Transport, codec: JsonCodec, url: string, h: Handler, req: AcquireRequest)
    returns (out: AcquireOutcome, log: seq<Call>)
    modifies t
    ensures out == AcquireResult(codec, AcquirePath(url), req.Payload(), |old(t.requests)|, t.respond)
    ensures CycleShape(codec, out, log)
    ensures forall i :: 0 <= i < |log| ==> HandlerAllows(h, codec, log[i].status, log[i].body, log[i].verdict)
    ensures t.requests == old(t.requests) + AcquirePosts(codec, AcquirePath(url), req.Payload())
                          + DispatchPosts(codec, url, req.workerId, log)
  {
    out := AcquireJobs(t, codec, url, req);
    log := Cycle.Handle(t, codec, url, req.workerId, out, h);
  }

  /** The current request type with the connection settings dropped. */
  function Current(req: AcquireRequest, url: string, interval: nat): (c: Client.AcquireRequest)
    ensures c.url == url && c.workerId == req.workerId
    ensures c.Payload() == req.Payload()
  {
    Client.AcquireRequest(req.topic, req.lockDuration, req.numberOfTasks, req.numberOfRetries,
                          req.workerId, req.scopeType, url, interval)
  }

  /**
   * For a base URL without a trailing '/', the two variants send the same
   * acquire request and resolve the same action paths; the current one also
   * reaches the same paths when the URL carries a trailing '/'.
   */
  lemma SameRequestsWithoutTrailingSlash(codec: JsonCodec, url: string, req: AcquireRequest, interval: nat,
                                         log: seq<Call>)
    requires url == "" || url[|url| - 1] != '/'
    ensures var c := Current(req, url, interval);
            && AcquirePosts(codec, AcquirePath(TrimRight(c.url)), c.Payload()) == AcquirePosts(codec, AcquirePath(url), req.Payload())
            && DispatchPosts(codec, TrimRight(c.url), c.workerId, log) == DispatchPosts(codec, url, req.workerId, log)
    ensures var c := Current(req, url + "/", interval);
            && AcquirePosts(codec, AcquirePath(TrimRight(c.url)), c.Payload()) == AcquirePosts(codec, AcquirePath(url), req.Payload())
            && DispatchPosts(codec, TrimRight(c.url), c.workerId, log) == DispatchPosts(codec, url, req.workerId, log)
  {
    TrimRightFixpoint(url);
    TrimRightSlash(url);
  }

  /** With a trailing '/', the earlier variant posts the acquire to a path with "//" that the current one avoids. */
  lemma TrailingSlashDiffers(codec: JsonCodec, url: string, req: AcquireRequest, interval: nat)
    requires url == "" || url[|url| - 1] != '/'
    requires codec.marshal(req.Payload()).Success?
    ensures var c := Current(req, url + "/", interval);
            var legacy := AcquirePosts(codec, AcquirePath(url + "/"), req.Payload());
            var current := AcquirePosts(codec, AcquirePath(TrimRight(c.url)), c.Payload());
            && legacy[0].url == url + "//external-job-api/acquire/jobs"
            && legacy[0].url != current[0].url
  {
    UntrimmedDoubleSlash(url);
  }
}
