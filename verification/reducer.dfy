/**
 * What `handle_worker_response` and the four `task_*` helpers do with a
 * handler's verdict, stated on values: the result that is sent and the POST
 * (at most one) that carries it. Both client variants share this; they differ
 * only in the base URL they pass (trimmed or not).
 */
module Reducer {
  import opened Wrappers
  import opened Json
  import opened Types
  import opened Transport
  import opened Urls

  /** The four terminal actions, one per `task_*` helper. */
  datatype TaskKind = Complete | Fail | BpmnError | CmmnTerminate

  /** The last path segment of the action URL. */
  function PathSegment(k: TaskKind): (seg: string)
    ensures seg != "" && '/' !in seg
  {
    match k
    case Complete => "complete"
    case Fail => "fail"
    case BpmnError => "bpmnError"
    case CmmnTerminate => "cmmnTerminate"
  }

  /**
   * The `switch resStatus`: which helper a status selects; any other status
   * selects none. Success selects complete; every other selected helper posts
   * to the segment named like the status itself.
   */
  function TaskFor(status: HandlerStatus): (r: Option<TaskKind>)
    ensures r.Some? <==> status in {StatusSuccess, StatusFail, StatusBpmnError, StatusCmmnTerminate}
    ensures r == Some(Complete) <==> status == StatusSuccess
    ensures r.Some? && r.value != Complete ==> PathSegment(r.value) == status
  {
    if status == StatusSuccess then Some(Complete)
    else if status == StatusFail then Some(Fail)
    else if status == StatusBpmnError then Some(BpmnError)
    else if status == StatusCmmnTerminate then Some(CmmnTerminate)
    else None
  }

  /**
   * The error code a helper falls back on when the handler left it empty: none
   * for complete; otherwise a non-empty code, the action's own name except for
   * fail, whose default is "failed".
   */
  function DefaultErrorCode(k: TaskKind): (r: Option<string>)
    ensures r.None? <==> k == Complete
    ensures r.Some? ==> r.value != ""
    ensures k in {BpmnError, CmmnTerminate} ==> r == Some(PathSegment(k))
    ensures k == Fail ==> r == Some("failed")
  {
    match k
    case Complete => None
    case Fail => Some("failed")
    case BpmnError => Some("bpmnError")
    case CmmnTerminate => Some("cmmnTerminate")
  }

  /** Distinct statuses select distinct helpers. */
  lemma TaskForDistinct(s1: HandlerStatus, s2: HandlerStatus)
    requires TaskFor(s1).Some? && TaskFor(s1) == TaskFor(s2)
    ensures s1 == s2
  {
  }

  /**
   * The result the reducer sends: a nil result becomes `{WorkerId: workerId}`;
   * an empty worker id is filled in; an empty error code gets the status'
   * default. Nothing else changes, and a code the handler set is never replaced.
   */
  function Prepared(workerId: string, status: HandlerStatus, r: Option<ResultRecord>): (p: ResultRecord)
    ensures p.workerId == (if r.Some? && r.value.workerId != "" then r.value.workerId else workerId)
    ensures r.Some? ==> p.status == r.value.status && p.variables == r.value.variables
    ensures r.None? ==> p.status == "" && p.variables == NilSlice
    ensures r.Some? && r.value.errorCode != "" ==> p.errorCode == r.value.errorCode
    ensures (r.None? || r.value.errorCode == "") ==>
              p.errorCode == (if TaskFor(status).Some? && DefaultErrorCode(TaskFor(status).value).Some?
                              then DefaultErrorCode(TaskFor(status).value).value else "")
  {
    var filled := match r
      case None => ResultRecord("", workerId, NilSlice, "")
      case Some(x) => if x.workerId == "" then x.(workerId := workerId) else x;
    match TaskFor(status)
    case Some(k) =>
      if filled.errorCode == "" && DefaultErrorCode(k).Some? then filled.(errorCode := DefaultErrorCode(k).value)
      else filled
    case None => filled
  }

  /** What one `task_*` helper sends: nothing for an empty job id or a result that cannot be marshalled. */
  function TaskPosts(codec: JsonCodec, base: string, jobId: string, k: TaskKind, res: ResultRecord): (posts: seq<Request>)
    ensures |posts| <= 1
    ensures |posts| == 1 <==> jobId != "" && codec.marshal(ResultJson(res)).Success?
    ensures |posts| == 1 ==>
              posts[0] == Request.Post(ActionPath(base, jobId, PathSegment(k)), codec.marshal(ResultJson(res)).value)
  {
    if jobId == "" then []
    else
      match codec.marshal(ResultJson(res))
      case Failure(_) => []
      case Success(b) => [Request.Post(ActionPath(base, jobId, PathSegment(k)), b)]
  }

  /** What the reducer sends for one verdict, given the base URL the variant uses. */
  function ReducerPosts(codec: JsonCodec, base: string, workerId: string, jobId: string,
                        status: HandlerStatus, r: Option<ResultRecord>): (posts: seq<Request>)
    ensures |posts| <= 1
    ensures jobId == "" ==> posts == []
    ensures TaskFor(status).None? ==> posts == []
    ensures |posts| == 1 <==> jobId != "" && TaskFor(status).Some?
                              && codec.marshal(ResultJson(Prepared(workerId, status, r))).Success?
    ensures |posts| == 1 ==>
              posts[0] == Request.Post(ActionPath(base, jobId, PathSegment(TaskFor(status).value)),
                                       codec.marshal(ResultJson(Prepared(workerId, status, r))).value)
  {
    match TaskFor(status)
    case None => []
    case Some(k) => TaskPosts(codec, base, jobId, k, Prepared(workerId, status, r))
  }

  /**
   * The `errorCode` member of the body that is posted: present exactly when the
   * handler supplied one or the status has a default, and never added for success.
   */
  lemma PostedErrorCode(workerId: string, status: HandlerStatus, r: Option<ResultRecord>)
    requires TaskFor(status).Some?
    ensures var j := ResultJson(Prepared(workerId, status, r));
            var given := if r.Some? then r.value.errorCode else "";
            && ("errorCode" in j.fields <==> given != "" || status != StatusSuccess)
            && (given != "" ==> j.fields["errorCode"] == JStr(given))
            && (given == "" && status == StatusFail ==> j.fields["errorCode"] == JStr("failed"))
            && (given == "" && status == StatusBpmnError ==> j.fields["errorCode"] == JStr("bpmnError"))
            && (given == "" && status == StatusCmmnTerminate ==> j.fields["errorCode"] == JStr("cmmnTerminate"))
  {
  }

  /** The posted body always names a worker: the handler's own id, or the subscription's. */
  lemma PostedWorkerId(workerId: string, status: HandlerStatus, r: Option<ResultRecord>)
    requires workerId != ""
    ensures var j := ResultJson(Prepared(workerId, status, r));
            "workerId" in j.fields
            && j.fields["workerId"] == JStr(if r.Some? && r.value.workerId != "" then r.value.workerId else workerId)
  {
  }
}
