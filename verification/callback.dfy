/**
 * The handler a subscription is given: `func(status int, body string)
 * (HandlerStatus, *HandlerResult)`. The two sample handlers of the repository,
 * or any deterministic function of `(status, body)`.
 */
module Callback {
  import opened Wrappers
  import opened Json
  import opened Types
  import opened Dispatch
  import Worker
  import Handlers

  datatype Handler =
    | WorkerSample
    | HandlersSample
    | Custom(respond: (int, string) -> Verdict)

  /** The verdicts handler `h` may give for `(status, body)`. */
  ghost predicate HandlerAllows(h: Handler, codec: JsonCodec, status: int, body: string, v: Verdict) {
    match h
    case WorkerSample =>
      v.result.Some? && v.status == v.result.value.status && Worker.WorkerOutcome(codec, status, body, v.result.value)
    case HandlersSample =>
      var rec := Handlers.SampleOutcome(codec, status, body);
      v == Verdict(rec.status, Some(rec))
    case Custom(respond) => v == respond(status, body)
  }

  /** Calls the handler; a result it returns is a new object. */
  method InvokeHandler(h: Handler, codec: JsonCodec, status: int, body: string)
    returns (verdict: HandlerStatus, res: HandlerResult?)
    ensures res != null ==> fresh(res)
    ensures HandlerAllows(h, codec, status, body, Verdict(verdict, Snap(res)))
  {
    match h {
      case WorkerSample =>
        verdict, res := Worker.ExternalWorker(codec, status, body);
      case HandlersSample =>
        verdict, res := Handlers.ExternalWorker(codec, status, body);
      case Custom(respond) =>
        var v := respond(status, body);
        verdict := v.status;
        if v.result.Some? {
          var r := v.result.value;
          res := new HandlerResult(r.status, r.workerId, r.variables, r.errorCode);
        } else {
          res := null;
        }
    }
  }

  /** Every handler call of a log got a verdict `h` may give for its `(status, body)`. */
  ghost predicate Answered(h: Handler, codec: JsonCodec, log: seq<Call>)
    decreases |log|
  {
    log == [] ||
    (Answered(h, codec, log[..|log| - 1])
     && HandlerAllows(h, codec, log[|log| - 1].status, log[|log| - 1].body, log[|log| - 1].verdict))
  }

  lemma {:induction false} AnsweredEach(h: Handler, codec: JsonCodec, log: seq<Call>)
    requires Answered(h, codec, log)
    ensures forall i :: 0 <= i < |log| ==> HandlerAllows(h, codec, log[i].status, log[i].body, log[i].verdict)
  {
    if log != [] {
      var front := log[..|log| - 1];
      AnsweredEach(h, codec, front);
      forall i | 0 <= i < |log|
        ensures HandlerAllows(h, codec, log[i].status, log[i].body, log[i].verdict)
      {
        if i < |front| {
          assert log[i] == front[i];
        }
      }
    }
  }
}
