/**
 * The sample handler of handlers/external_worker.go: a status check, then a
 * JSON validity check of the body, then one extra variable.
 */
module Handlers {
  import opened Wrappers
  import opened Json
  import opened Decimal
  import opened Types


  /**
   * The sample's verdict, case by case: an empty body keeps the status check's
   * verdict; invalid JSON is a fail carrying the parse error; valid JSON is a
   * success with exactly `DummyVariable`, keeping the status check's error code.
   */
  function SampleOutcome(codec: JsonCodec, status: int, body: string): (rec: ResultRecord)
    ensures rec.workerId == ""
    ensures body == "" ==> rec == StatusOnlyResult(status)
    ensures body != "" && codec.parse(body).Failure? ==>
              rec == ResultRecord(StatusFail, "", Slice([]), codec.parse(body).error)
    ensures body != "" && codec.parse(body).Success? ==>
              rec == ResultRecord(StatusSuccess, "", Slice([DummyVariable]), StatusOnlyResult(status).errorCode)
  {
    if body == "" then StatusOnlyResult(status)
    else
      match codec.parse(body)
      case Failure(e) => ResultRecord(StatusFail, "", Slice([]), e)
      case Success(_) => ResultRecord(StatusSuccess, "", Slice([DummyVariable]), StatusOnlyResult(status).errorCode)
  }

  /** `handlers.ExternalWorker`: builds the result step by step; never nil; the returned status is the result's. */
  method ExternalWorker(codec: JsonCodec, status: int, body: string) returns (verdict: HandlerStatus, res: HandlerResult)
    ensures fresh(res)
    ensures verdict == res.status
    ensures res.Snapshot() == SampleOutcome(codec, status, body)
  {
    res := new HandlerResult(StatusSuccess, "", Slice([]), "");
    if status >= 400 {
      res.errorCode := IntToDecimal(status);
      res.status := StatusFail;
    }
    if body != "" {
      var data := codec.parse(body);
      if data.Failure? {
        res.errorCode := data.error;
        res.status := StatusFail;
      } else {
        res.variables := Append(res.variables, [DummyVariable]);
        res.status := StatusSuccess;
      }
    }
    verdict := res.status;
  }

  /** The sample's verdict is success or fail, never one of the other actions. */
  lemma SampleStatuses(codec: JsonCodec, status: int, body: string)
    ensures SampleOutcome(codec, status, body).status in {StatusSuccess, StatusFail}
    ensures SampleOutcome(codec, status, body).status == StatusFail <==>
              (body == "" && status >= 400) || (body != "" && codec.parse(body).Failure?)
  {
  }
}
