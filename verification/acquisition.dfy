/**
 * The acquire call shared by both client variants: the body that is posted
 * and how the engine's reply is read back into a list of jobs.
 */
module Acquisition {
  import opened Wrappers
  import opened Json
  import opened Transport

  /** The Go type the acquire reply is decoded into. */
  const JobListType := "[]interface {}"

  /** What `Acquire_jobs` returns: `(jobs, body, status, err)`; a nil job list is the empty one. */
  datatype AcquireOutcome = AcquireOutcome(jobs: seq<Json>, body: string, status: int, err: Option<string>)

  /**
   * The JSON body of the acquire POST: the six acquire parameters under their
   * JSON names, strings as strings and counts as numbers (the connection
   * settings are not part of it).
   */
  function AcquireJson(topic: string, lockDuration: string, numberOfTasks: int, numberOfRetries: int,
                       workerId: string, scopeType: string): (j: Json)
    ensures j.JObj? && j.fields.Keys == {"topic", "lockDuration", "numberOfTasks", "numberOfRetries", "workerId", "scopeType"}
    ensures forall k :: k in j.fields && k !in {"numberOfTasks", "numberOfRetries"} ==> j.fields[k].JStr?
    ensures j.fields["numberOfTasks"] == JNum(Integral(numberOfTasks))
    ensures j.fields["numberOfRetries"] == JNum(Integral(numberOfRetries))
  {
    JObj(map["topic" := JStr(topic), "lockDuration" := JStr(lockDuration),
             "numberOfTasks" := JNum(Integral(numberOfTasks)), "numberOfRetries" := JNum(Integral(numberOfRetries)),
             "workerId" := JStr(workerId), "scopeType" := JStr(scopeType)])
  }

  /**
   * Reading the acquire reply: a transport error gives no jobs and no body; a
   * body that is not a JSON array gives no jobs but keeps the raw body; the
   * reply's status is passed through and is never itself a reason to fail.
   */
  function ReadJobs(codec: JsonCodec, reply: Reply): (out: AcquireOutcome)
    ensures out.status == reply.status
    ensures out.err.Some? ==> out.jobs == []
    ensures reply.err.Some? ==> out == AcquireOutcome([], "", reply.status, reply.err)
    ensures reply.err.None? ==> out.body == reply.body
    ensures out.err.None? <==> reply.err.None? && codec.parse(reply.body).Success?
                               && (codec.parse(reply.body).value.JArr? || codec.parse(reply.body).value.JNull?)
    ensures out.err.None? && codec.parse(reply.body).value.JArr? ==> out.jobs == codec.parse(reply.body).value.items
    ensures out.err.None? && codec.parse(reply.body).value.JNull? ==> out.jobs == []
  {
    if reply.err.Some? then AcquireOutcome([], "", reply.status, reply.err)
    else
      match codec.parse(reply.body)
      case Failure(e) => AcquireOutcome([], reply.body, reply.status, Some(e))
      case Success(JArr(items)) => AcquireOutcome(items, reply.body, reply.status, None)
      case Success(JNull) => AcquireOutcome([], reply.body, reply.status, None)
      case Success(other) => AcquireOutcome([], reply.body, reply.status, Some(UnmarshalTypeError(other, JobListType)))
  }

  /** The requests `Acquire_jobs` sends: one POST, or none when the body cannot be marshalled. */
  function AcquirePosts(codec: JsonCodec, url: string, payload: Json): (posts: seq<Request>)
    ensures |posts| <= 1
    ensures |posts| == 1 <==> codec.marshal(payload).Success?
    ensures |posts| == 1 ==> posts[0] == Request.Post(url, codec.marshal(payload).value)
  {
    match codec.marshal(payload)
    case Failure(_) => []
    case Success(b) => [Request.Post(url, b)]
  }

  /** What `Acquire_jobs` returns when its POST is the transport's n-th request. */
  function AcquireResult(codec: JsonCodec, url: string, payload: Json, n: nat, respond: (nat, Request) -> Reply): (out: AcquireOutcome)
    ensures codec.marshal(payload).Failure? ==> out == AcquireOutcome([], "", -1, Some(codec.marshal(payload).error))
    ensures codec.marshal(payload).Success? ==> out == ReadJobs(codec, respond(n, Request.Post(url, codec.marshal(payload).value)))
  {
    match codec.marshal(payload)
    case Failure(e) => AcquireOutcome([], "", -1, Some(e))
    case Success(b) => ReadJobs(codec, respond(n, Request.Post(url, b)))
  }

  /** A non-2xx reply whose body is a JSON array is accepted: the status is not checked. */
  lemma StatusNotChecked(codec: JsonCodec, status: int, body: string, items: seq<Json>)
    requires codec.parse(body) == Success(JArr(items))
    ensures ReadJobs(codec, Reply(status, body, None)) == AcquireOutcome(items, body, status, None)
  {
  }
}
