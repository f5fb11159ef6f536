/**
 * The handler-facing types shared by both client variants: the verdict a
 * handler gives, the variables it returns, and the result object the reducer
 * patches in place before posting it.
 */
module Types {
  import opened Wrappers
  import opened Json
  import Decimal

  /** A Go string type: the four named values below, or anything else a handler returns. */
  type HandlerStatus = string

  const StatusSuccess: HandlerStatus := "success"
  const StatusFail: HandlerStatus := "fail"
  const StatusBpmnError: HandlerStatus := "bpmnError"
  const StatusCmmnTerminate: HandlerStatus := "cmmnTerminate"

  /**
   * The variable both sample handlers add to a job they accept
   * (worker/external_worker.go:39, handlers/external_worker.go:34).
   */
  const DummyVariable := HandlerVariable("dummy", "string", JStr("a simple string"))

  /** One `{name, type, value}` variable. */
  datatype HandlerVariable = HandlerVariable(name: string, typ: string, value: Json)

  /** A Go slice of variables: `nil` marshals as `null`, an empty slice as `[]`. */
  datatype VarSlice = NilSlice | Slice(items: seq<HandlerVariable>)

  function Items(v: VarSlice): seq<HandlerVariable> {
    match v
    case NilSlice => []
    case Slice(items) => items
  }

  /** Go's `append(v, xs...)`: appending nothing to nil leaves nil. */
  function Append(v: VarSlice, xs: seq<HandlerVariable>): (r: VarSlice)
    ensures Items(r) == Items(v) + xs
    ensures r.NilSlice? <==> v.NilSlice? && xs == []
  {
    if v.NilSlice? && xs == [] then NilSlice else Slice(Items(v) + xs)
  }

  /** The value of a `HandlerResult` at one moment. */
  datatype ResultRecord = ResultRecord(status: HandlerStatus, workerId: string, variables: VarSlice, errorCode: string)

  /** `*HandlerResult`: built by a handler, then patched in place by the reducer. */
  class HandlerResult {
    var status: HandlerStatus
    var workerId: string
    var variables: VarSlice
    var errorCode: string

    constructor (status: HandlerStatus, workerId: string, variables: VarSlice, errorCode: string)
      ensures Snapshot() == ResultRecord(status, workerId, variables, errorCode)
    {
      this.status := status;
      this.workerId := workerId;
      this.variables := variables;
      this.errorCode := errorCode;
    }

    function Snapshot(): ResultRecord
      reads this
    {
      ResultRecord(status, workerId, variables, errorCode)
    }
  }

  /**
   * The result both sample handlers start from, after their status check:
   * success, or fail with the status' decimal text as error code when it is 400 or more.
   */
  function StatusOnlyResult(status: int): (r: ResultRecord)
    ensures r.workerId == "" && r.variables == Slice([])
    ensures r.status == (if status >= 400 then StatusFail else StatusSuccess)
    ensures status >= 400 ==> Decimal.ParseInt(r.errorCode) == Some(status) && Decimal.Canonical(r.errorCode)
    ensures status < 400 ==> r.errorCode == ""
  {
    if status >= 400 then
      Decimal.IntToDecimalRoundTrip(status);
      ResultRecord(StatusFail, "", Slice([]), Decimal.IntToDecimal(status))
    else ResultRecord(StatusSuccess, "", Slice([]), "")
  }

  /** The value behind a possibly nil result pointer. */
  function Snap(r: HandlerResult?): Option<ResultRecord>
    reads r
  {
    if r == null then None else Some(r.Snapshot())
  }

  function VariableJson(v: HandlerVariable): Json {
    JObj(map["name" := JStr(v.name), "type" := JStr(v.typ), "value" := v.value])
  }

  function VariablesJson(v: VarSlice): (j: Json)
    ensures v.NilSlice? ==> j == JNull
    ensures v.Slice? ==> j.JArr? && |j.items| == |v.items|
    ensures v.Slice? ==> forall i :: 0 <= i < |v.items| ==> j.items[i] == VariableJson(v.items[i])
  {
    match v
    case NilSlice => JNull
    case Slice(items) => JArr(seq(|items|, i requires 0 <= i < |items| => VariableJson(items[i])))
  }

  /**
   * The JSON object `json.Marshal` is given for a `HandlerResult`: `status` and
   * `variables` always, `workerId` and `errorCode` only when non-empty (`omitempty`).
   */
  function ResultJson(r: ResultRecord): (j: Json)
    ensures j.JObj?
    ensures j.fields.Keys == {"status", "variables"}
                             + (if r.workerId != "" then {"workerId"} else {})
                             + (if r.errorCode != "" then {"errorCode"} else {})
    ensures j.fields["status"] == JStr(r.status) && j.fields["variables"] == VariablesJson(r.variables)
    ensures r.workerId != "" ==> j.fields["workerId"] == JStr(r.workerId)
    ensures r.errorCode != "" ==> j.fields["errorCode"] == JStr(r.errorCode)
  {
    var always := map["status" := JStr(r.status), "variables" := VariablesJson(r.variables)];
    var withWorker := if r.workerId != "" then always["workerId" := JStr(r.workerId)] else always;
    JObj(if r.errorCode != "" then withWorker["errorCode" := JStr(r.errorCode)] else withWorker)
  }
}
