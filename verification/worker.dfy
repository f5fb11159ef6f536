/**
 * The sample handler of worker/external_worker.go: a status check, then the
 * job's variables are decoded and echoed back with one extra variable.
 */
module Worker {
  import opened Wrappers
  import opened Json
  import opened Decimal
  import opened Types
  import opened Variables


  /**
   * The sample's verdict for `(status, body)`. An empty body leaves the status
   * check's verdict. A body that does not decode gives fail with the decode
   * error as code. A body that decodes gives success with the decoded variables
   * followed by `DummyVariable` (up to the order of an object-shape decoding), and keeps
   * the status check's error code.
   */
  ghost predicate WorkerOutcome(codec: JsonCodec, status: int, body: string, rec: ResultRecord)
    ensures WorkerOutcome(codec, status, body, rec) && body != "" ==>
              rec.workerId == "" && rec.status in {StatusSuccess, StatusFail} && rec.variables.Slice?
    ensures WorkerOutcome(codec, status, body, rec) && body != "" && rec.status == StatusSuccess ==>
              DummyVariable in rec.variables.items
  {
    if body == "" then rec == StatusOnlyResult(status)
    else
      && rec.workerId == ""
      && ((rec.status == StatusFail && rec.variables == Slice([]) && Decoded(codec, body, Failure(rec.errorCode)))
          || (&& rec.status == StatusSuccess
              && rec.variables.Slice? && |rec.variables.items| >= 1
              && rec.variables.items[|rec.variables.items| - 1] == DummyVariable
              && Decoded(codec, body, Success(rec.variables.items[..|rec.variables.items| - 1]))
              && rec.errorCode == StatusOnlyResult(status).errorCode))
  }

  /** `worker.ExternalWorker`: builds the result step by step; the returned status is the result's. */
  method ExternalWorker(codec: JsonCodec, status: int, body: string) returns (verdict: HandlerStatus, res: HandlerResult)
    ensures fresh(res)
    ensures verdict == res.status
    ensures WorkerOutcome(codec, status, body, res.Snapshot())
  {
    res := new HandlerResult(StatusSuccess, "", Slice([]), "");
    if status >= 400 {
      res.errorCode := IntToDecimal(status);
      res.status := StatusFail;
    }
    if body != "" {
      var vars := ExtractVariablesFromBody(codec, body);
      match vars {
        case Failure(e) =>
          res.errorCode := e;
          res.status := StatusFail;
        case Success(decoded) =>
          res.variables := Append(res.variables, decoded);
          var inputVar := GetVar(codec, decoded, "inputVar");
          res.variables := Append(res.variables, [DummyVariable]);
          assert Items(res.variables)[..|Items(res.variables)| - 1] == decoded;
          res.status := StatusSuccess;
      }
    }
    verdict := res.status;
  }

  /**
   * The sample's quirk: a status of 400 or more with a body that decodes ends
   * as success, yet the error code still reads back as that status.
   */
  lemma SuccessKeepsStatusCode(codec: JsonCodec, status: int, body: string, rec: ResultRecord)
    requires WorkerOutcome(codec, status, body, rec)
    requires status >= 400 && rec.status == StatusSuccess
    ensures body != "" && ParseInt(rec.errorCode) == Some(status)
  {
  }

  /** A decode failure always ends as fail, whatever the status was. */
  lemma DecodeFailureFails(codec: JsonCodec, status: int, body: string, rec: ResultRecord, e: string)
    requires WorkerOutcome(codec, status, body, rec)
    requires body != "" && Decoded(codec, body, Failure(e))
    ensures rec.status == StatusFail && rec.errorCode == e && rec.variables == Slice([])
  {
  }
}
