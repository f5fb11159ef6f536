/**
 * Per-job dispatch, shared by both client variants: how a job id is found in a
 * job document, what each handler call of a cycle is given, and which action
 * POSTs a cycle's verdicts turn into.
 */
module Dispatch {
  import opened Wrappers
  import opened Json
  import opened Decimal
  import opened Types
  import opened Transport
  import opened Urls
  import opened Reducer
  import opened Acquisition

  predicate HasStringId(m: map<string, Json>) {
    StringField(m, "id").Some? && StringField(m, "id").value != ""
  }

  predicate HasStringJobId(m: map<string, Json>) {
    StringField(m, "jobId").Some? && StringField(m, "jobId").value != ""
  }

  predicate HasNumericId(m: map<string, Json>) {
    "id" in m && m["id"].JNum?
  }

  /**
   * The job id found in a decoded job object: a non-empty string `id`, else a
   * non-empty string `jobId`, else a numeric `id` printed with `%.0f`, else "".
   */
  function JobIdFromFields(m: map<string, Json>): (id: string)
    ensures id != "" <==> HasStringId(m) || HasStringJobId(m) || HasNumericId(m)
    ensures HasNumericId(m) && !HasStringJobId(m) ==> '.' !in id
  {
    if HasStringId(m) then StringField(m, "id").value
    else if HasStringJobId(m) then StringField(m, "jobId").value
    else if HasNumericId(m) then FormatFixed0(m["id"].n)
    else ""
  }

  /** The order in which the three sources of a job id are consulted. */
  lemma JobIdPrecedence(m: map<string, Json>)
    ensures HasStringId(m) ==> JobIdFromFields(m) == m["id"].s
    ensures !HasStringId(m) && HasStringJobId(m) ==> JobIdFromFields(m) == m["jobId"].s
    ensures !HasStringId(m) && !HasStringJobId(m) && HasNumericId(m) ==> JobIdFromFields(m) == FormatFixed0(m["id"].n)
    ensures !HasStringId(m) && !HasStringJobId(m) && !HasNumericId(m) ==> JobIdFromFields(m) == ""
  {
  }

  /** The job id of a job's serialised bytes: only a document that decodes to an object has one. */
  function JobIdOf(codec: JsonCodec, jobBytes: string): (id: string)
    ensures id != "" ==> codec.parse(jobBytes).Success? && codec.parse(jobBytes).value.JObj?
  {
    match codec.parse(jobBytes)
    case Success(JObj(m)) => JobIdFromFields(m)
    case _ => ""
  }

  /** What a handler returned: its status and its (possibly nil) result, as it was before the reducer. */
  datatype Verdict = Verdict(status: HandlerStatus, result: Option<ResultRecord>)

  /** One handler call of a cycle: the `(status, body)` it was given, the job id used, its verdict. */
  datatype Call = Call(status: int, body: string, jobId: string, verdict: Verdict)

  /** How a job of a successful acquire is handed to the handler. */
  ghost predicate DispatchedAs(codec: JsonCodec, acquireStatus: int, job: Json, d: Call) {
    match codec.marshal(job)
    case Failure(_) => d.status == 500 && d.body == "" && d.jobId == ""
    case Success(b) => d.status == acquireStatus && d.body == b && d.jobId == JobIdOf(codec, b)
  }

  /**
   * The handler calls of one cycle: one synthetic `(500, "")` call with no job
   * id when acquiring failed; otherwise one call per job, in the engine's order
   * (so none when there are no jobs).
   */
  ghost predicate CycleShape(codec: JsonCodec, out: AcquireOutcome, log: seq<Call>) {
    if out.err.Some? then |log| == 1 && log[0].status == 500 && log[0].body == "" && log[0].jobId == ""
    else |log| == |out.jobs| && forall i :: 0 <= i < |log| ==> DispatchedAs(codec, out.status, out.jobs[i], log[i])
  }

  /** Job by job, `log` is how `jobs` were handed over, in the same order. */
  ghost predicate DispatchedAll(codec: JsonCodec, acquireStatus: int, jobs: seq<Json>, log: seq<Call>)
    decreases |log|
  {
    |log| == |jobs|
    && (log == [] ||
        (DispatchedAll(codec, acquireStatus, jobs[..|jobs| - 1], log[..|log| - 1])
         && DispatchedAs(codec, acquireStatus, jobs[|jobs| - 1], log[|log| - 1])))
  }

  lemma {:induction false} DispatchedEach(codec: JsonCodec, acquireStatus: int, jobs: seq<Json>, log: seq<Call>)
    requires DispatchedAll(codec, acquireStatus, jobs, log)
    ensures |log| == |jobs|
    ensures forall i :: 0 <= i < |log| ==> DispatchedAs(codec, acquireStatus, jobs[i], log[i])
  {
    if log != [] {
      var front, jfront := log[..|log| - 1], jobs[..|jobs| - 1];
      DispatchedEach(codec, acquireStatus, jfront, front);
      forall i | 0 <= i < |log|
        ensures DispatchedAs(codec, acquireStatus, jobs[i], log[i])
      {
        if i < |front| {
          assert log[i] == front[i] && jobs[i] == jfront[i];
        }
      }
    }
  }

  /** The action POSTs a cycle's verdicts lead to, in order. */
  function DispatchPosts(codec: JsonCodec, base: string, workerId: string, log: seq<Call>): (r: seq<Request>)
    ensures |r| <= |log|
    ensures forall p :: p in r ==> p.Post?
  {
    if log == [] then []
    else
      var d := log[|log| - 1];
      DispatchPosts(codec, base, workerId, log[..|log| - 1])
        + ReducerPosts(codec, base, workerId, d.jobId, d.verdict.status, d.verdict.result)
  }

  /** A further handler call appends its own action POSTs, if any, to those of the earlier calls. */
  lemma DispatchPostsSnoc(codec: JsonCodec, base: string, workerId: string, log: seq<Call>, d: Call)
    ensures DispatchPosts(codec, base, workerId, log + [d])
            == DispatchPosts(codec, base, workerId, log) + ReducerPosts(codec, base, workerId, d.jobId, d.verdict.status, d.verdict.result)
  {
    assert (log + [d])[..|log|] == log;
  }

  /**
   * At most one POST per handler call, and only for calls that had a job id;
   * every POST goes to the action URL of one of those job ids.
   */
  lemma {:induction false} DispatchPostsBound(codec: JsonCodec, base: string, workerId: string, log: seq<Call>)
    ensures |DispatchPosts(codec, base, workerId, log)| <= |log|
    ensures (forall i :: 0 <= i < |log| ==> log[i].jobId == "") ==> DispatchPosts(codec, base, workerId, log) == []
    ensures forall p :: p in DispatchPosts(codec, base, workerId, log) ==>
              exists i, k :: 0 <= i < |log| && log[i].jobId != "" && p.Post? && p.url == ActionPath(base, log[i].jobId, PathSegment(k))
  {
    if log != [] {
      var front := log[..|log| - 1];
      var d := log[|log| - 1];
      DispatchPostsBound(codec, base, workerId, front);
      var tail := ReducerPosts(codec, base, workerId, d.jobId, d.verdict.status, d.verdict.result);
      forall p | p in DispatchPosts(codec, base, workerId, log)
        ensures exists i, k :: 0 <= i < |log| && log[i].jobId != "" && p.Post? && p.url == ActionPath(base, log[i].jobId, PathSegment(k))
      {
        if p in tail {
          assert p.url == ActionPath(base, log[|log| - 1].jobId, PathSegment(TaskFor(d.verdict.status).value));
        } else {
          var i, k :| 0 <= i < |front| && front[i].jobId != "" && p.Post? && p.url == ActionPath(base, front[i].jobId, PathSegment(k));
          assert log[i] == front[i];
        }
      }
    }
  }

  /** A failed acquire leads to no action POST, whatever the handler answers. */
  lemma AcquireErrorPostsNothing(codec: JsonCodec, base: string, workerId: string, out: AcquireOutcome, log: seq<Call>)
    requires CycleShape(codec, out, log) && out.err.Some?
    ensures DispatchPosts(codec, base, workerId, log) == []
  {
    assert log[..0] == [];
  }

  /** A successful acquire with no jobs calls no handler and posts nothing. */
  lemma NoJobsNoCalls(codec: JsonCodec, base: string, workerId: string, out: AcquireOutcome, log: seq<Call>)
    requires CycleShape(codec, out, log) && out.err.None? && out.jobs == []
    ensures log == [] && DispatchPosts(codec, base, workerId, log) == []
  {
  }

  /**
   * Two jobs A and B; the handler answers success for A and bpmnError with code
   * "E1" for B: exactly one POST to A's complete URL, then one to B's bpmnError
   * URL whose body carries errorCode "E1".
   */
  lemma TwoJobScenario(codec: JsonCodec, base: string, workerId: string, a: Call, b: Call)
    requires a.jobId == "A" && a.verdict.status == StatusSuccess && a.verdict.result.Some?
    requires b.jobId == "B" && b.verdict.status == StatusBpmnError && b.verdict.result.Some?
    requires b.verdict.result.value.errorCode == "E1"
    requires codec.marshal(ResultJson(Prepared(workerId, StatusSuccess, a.verdict.result))).Success?
    requires codec.marshal(ResultJson(Prepared(workerId, StatusBpmnError, b.verdict.result))).Success?
    ensures var posts := DispatchPosts(codec, base, workerId, [a, b]);
            var bodyB := ResultJson(Prepared(workerId, StatusBpmnError, b.verdict.result));
            && |posts| == 2
            && posts[0] == Request.Post(ActionPath(base, "A", "complete"),
                                        codec.marshal(ResultJson(Prepared(workerId, StatusSuccess, a.verdict.result))).value)
            && posts[1] == Request.Post(ActionPath(base, "B", "bpmnError"), codec.marshal(bodyB).value)
            && bodyB.fields["errorCode"] == JStr("E1")
  {
    assert [a, b][..1] == [a];
    assert [a][..0] == [];
    assert TaskFor(StatusSuccess) == Some(Complete) && TaskFor(StatusBpmnError) == Some(BpmnError);
    var pa := ReducerPosts(codec, base, workerId, "A", StatusSuccess, a.verdict.result);
    var pb := ReducerPosts(codec, base, workerId, "B", StatusBpmnError, b.verdict.result);
    assert DispatchPosts(codec, base, workerId, [a]) == pa;
    assert DispatchPosts(codec, base, workerId, [a, b]) == pa + pb;
  }
}
