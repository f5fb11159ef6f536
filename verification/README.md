# Flowable external worker client — a Dafny model

This project models the Go client for the Flowable external-worker REST API.
The client acquires jobs for a topic with a POST to
`{base}/external-job-api/acquire/jobs` and hands each job to a handler
`func(status int, body string) (HandlerStatus, *HandlerResult)`. It then turns
the handler's verdict into one of four terminal actions, POSTed to
`{base}/external-job-api/acquire/jobs/{jobId}/{complete|fail|bpmnError|cmmnTerminate}`.
It also models the codec that flattens a job's `"variables"` element into
`{name, type, value}` triples, the lookup `GetVar`, and the two sample handlers.

Module layout (leaves first):

- `Wrappers` (`wrappers.dfy`): `Option` and `Result`.
- `Json` (`json.dfy`): the values `encoding/json` decodes into `interface{}`, and the codec.
  - The codec is a pair of functions: `parse` for `json.Unmarshal`, `marshal` for `json.Marshal`.
  - It is passed in as a parameter, so nothing is assumed about the JSON text format.
- `Decimal` (`decimal.dfy`): `strconv.Itoa` and `%.0f`, with the parser that reads them back.
- `Transport` (`transport.dfy`): the `restGet` / `restPost` capability.
  - It is a class that records every request it receives.
  - Its replies come from a function of the request's position in the history and of the request itself.
- `Types` (`types.dfy`): `HandlerStatus`, `HandlerVariable`, the nil-or-slice `Variables`, and the `HandlerResult` class.
  - It also holds the `dummy` variable both sample handlers add.
  - `HandlerResult` is mutated in place by the reducer.
  - The module also gives the JSON object a `HandlerResult` marshals to.
- `Variables` (`variables.dfy`): `ExtractVariablesFromBody` (object shape, array shape, anything else) and `GetVar`.
- `Worker` (`worker.dfy`) and `Handlers` (`handlers.dfy`): the two sample handlers.
- `Callback` (`callback.dfy`): the handler type; a handler is one of the two samples or any function of `(status, body)`.
- `Urls` (`urls.dfy`): `strings.TrimRight(url, "/")` and the three endpoint paths.
- `Reducer` (`reducer.dfy`): `handle_worker_response` and the `task_*` helpers, stated on values.
  - It gives the result that is sent and the POST, at most one, that carries it.
- `Acquisition` (`acquisition.dfy`): the acquire body and how the acquire reply is read.
- `Dispatch` (`dispatch.dfy`): job-id extraction, what each handler call (`Call`) of a cycle is given, and the POSTs a cycle produces.
- `Cycle` (`cycle.dfy`): the imperative code shared by both client files.
  - Acquire and list given the full URL, the task actions, and the reducer given its base URL.
  - The per-job dispatch loop of one `Subscribe` iteration.
- `Client` (`client.dfy`): `flowable/ExternalWorkerClient.go`, which trims the base URL and carries it in the request.
- `Legacy` (`legacy.dfy`): `flowable/flowable.go`, which uses the base URL exactly as given.

Behaviour of the code worth noting:

- `Acquire_jobs` does not check the HTTP status of the acquire reply.
  - A non-2xx reply whose body is a JSON array is accepted as a job list (`Acquisition.StatusNotChecked`).
  - So is a body of `null`, which gives no jobs and no error.
- The body POSTed by a `task_*` helper is the whole `HandlerResult`.
  - `status` and `variables` are always present.
  - `workerId` and `errorCode` are present only when non-empty (`omitempty`).
  - A nil result is replaced by `{WorkerId: workerId}`, whose nil `Variables` marshal as `null`.
- `GetVar` returns the *first* variable with the name.
- A job body that is valid JSON other than an object or `null` makes `ExtractVariablesFromBody` fail.
  - The error is Go's `json: cannot unmarshal <kind> into Go value of type map[string]interface {}`.
  - A body of `null` leaves the map nil and gives no variables and no error.
- The current client's `Subscribe` passes the untrimmed URL to `handle_worker_response`, which trims it.
  - The model trims once before dispatching, and `Cycle.Reduce` does not trim again, so both trim exactly once before building an action URL.
- `flowable/flowable.go` and `flowable/ExternalWorkerClient.go` declare the same identifiers in the same package, so they cannot be built together.
  - They are modelled as two separate modules sharing `Cycle`.
- In `worker/external_worker.go`, a status of 400 or more followed by a body that decodes ends as `success`.
  - The error code still reads back as the status (`Worker.SuccessKeepsStatusCode`).
  - This is modelled as written.

## Model

| member | source | states |
|---|---|---|
| Json.StringField | flowable/ExternalWorkerClient.go:305-307 | `m[key].(string)` with comma-ok: present iff the key exists and holds a string, and then it is that string |
| Json.UnmarshalTypeError | flowable/ExternalWorkerClient.go:296-297 | the decode error begins `json: cannot unmarshal <kind>` naming the JSON value's kind, and ends with the Go type it was decoded into |
| Decimal.NatToDecimal | worker/external_worker.go:21 | decimal text of a natural number: non-empty, digits only, no leading zero |
| Decimal.IntToDecimal | worker/external_worker.go:21 | `strconv.Itoa`: canonical text (no leading zero, no "-0"); digits for non-negative numbers, '-' then digits for negative ones |
| Decimal.NatToDecimalRoundTrip | worker/external_worker.go:21 | the digits of a natural number read back as that number |
| Decimal.IntToDecimalRoundTrip | worker/external_worker.go:21 | `strconv.Itoa` loses nothing: parsing its text gives the integer back |
| Decimal.IntToDecimalInjective | worker/external_worker.go:21 | distinct status codes give distinct error codes |
| Decimal.CanonicalDigits | worker/external_worker.go:21 | digits with no leading zero are the decimal text of their own value |
| Decimal.CanonicalIsItoa | flowable/ExternalWorkerClient.go:127-128 | every canonical text reads as an integer and is that integer's `strconv.Itoa` text, so value and canonical shape fix the spelling |
| Decimal.FormatFixed0 | flowable/ExternalWorkerClient.go:127-128 | `%.0f` of a numeric id is canonical (no leading zero, no decimal point) and reads back as the integral value (or the integer a non-integral one rounds to), so it is that integer's one spelling |
| Transport.Transport.Post | flowable/rest_utils.go:85-103 | one POST is appended to the request log; the reply is the environment's reply for that position and request |
| Transport.Transport.Get | flowable/rest_utils.go:64-83 | one GET is appended to the request log; the reply is the environment's reply for that position and request |
| Types.Append | worker/external_worker.go:32-39 | Go `append`: the items are the old items followed by the new ones; the result stays nil only when nil gets nothing appended |
| Types.HandlerResult.constructor | flowable/ExternalWorkerClient.go:31-36 | a new result holds exactly the four given fields |
| Types.StatusOnlyResult | worker/external_worker.go:12-23 | sample handlers' start: empty variable slice, no worker id; status 400 or more gives fail with the status's canonical decimal text as error code (read back exactly), otherwise success with no code |
| Types.VariablesJson | flowable/ExternalWorkerClient.go:34 | a nil variable slice marshals as `null`, a slice as an array of `{name,type,value}` objects in order |
| Types.ResultJson | flowable/ExternalWorkerClient.go:31-36 | marshalled result: keys are exactly status, variables, plus workerId / errorCode when non-empty, with the result's values |
| Variables.ExtractVariablesFromBody | flowable/ExternalWorkerClient.go:294-334 | parse error passed through; valid JSON other than an object or `null` fails with Go's type error; `null` or no "variables" gives none; object shape gives one variable per key in some order; array shape gives one per object element in order; any other value gives one `variables/json` variable |
| Variables.ObjectEntry | flowable/ExternalWorkerClient.go:303-313 | the entry's key is the name; an object entry takes a string "type" (else "") and "value" (else null); any other entry is the value itself with an empty type |
| Variables.ArrayEntry | flowable/ExternalWorkerClient.go:317-325 | a non-empty string "name" wins, otherwise a string "id", otherwise ""; a string "type" (else ""); "value" (else null) |
| Variables.ArrayEntries | flowable/ExternalWorkerClient.go:315-328 | every variable of the array shape comes from an object element of the array |
| Variables.Display | flowable/ExternalWorkerClient.go:345-362 | strings unchanged; integral numbers print canonically (no leading zero, no decimal point) and read back as the number; other numbers as `%v`; booleans as true/false; anything else as its JSON text or "" |
| Variables.GetVar | flowable/ExternalWorkerClient.go:340-365 | the display text of the first variable with the name; "" when none has it |
| Variables.ObjectDecodedLength | flowable/ExternalWorkerClient.go:302-314 | object shape yields exactly as many variables as the object has keys |
| Variables.ArrayEntriesBound | flowable/ExternalWorkerClient.go:315-328 | array shape yields at most one variable per element, and none when no element is an object |
| Variables.ArrayShapeDecodes | flowable/ExternalWorkerClient.go:315-328 | triples written in array shape decode back to exactly those triples, in order |
| Variables.ShapesAgree | test/variables_test.go:9-58 | object shape and array shape carrying the same distinct-named triples decode to the same variables, up to order |
| Variables.DisplayExamples | test/getvar_test.go:10-36 | 5 renders as "5", true as "true", "hello" as "hello" |
| Worker.ExternalWorker | worker/external_worker.go:10-47 | fresh result whose status is the verdict: the status-only result for an empty body; on a decode error fail with that error and no variables; otherwise success with the decoded variables then `dummy`, keeping the status-derived code |
| Worker.WorkerOutcome | worker/external_worker.go:10-47 | the sample's outcome for a non-empty body has no worker id, a variable slice, and is success or fail; a success carries the `dummy` variable |
| Worker.SuccessKeepsStatusCode | worker/external_worker.go:20-43 | a success verdict after a status of 400 or more still carries that status as error code |
| Worker.DecodeFailureFails | worker/external_worker.go:25-29 | a body that fails to decode always ends as fail with the decode error as code and no variables |
| Handlers.SampleOutcome | handlers/external_worker.go:11-40 | the sample's result: status-only for an empty body; fail with the parse error for invalid JSON; otherwise success with the single `dummy` variable and the status-derived code |
| Handlers.ExternalWorker | handlers/external_worker.go:11-40 | fresh result equal to the sample's outcome, whose status is the verdict |
| Handlers.SampleStatuses | handlers/external_worker.go:13-37 | the verdict is success or fail, and fail exactly for an empty body with status 400 or more, or an unparseable body |
| Callback.InvokeHandler | flowable/ExternalWorkerClient.go:39 | a handler call returns a new result (or nil) and a verdict the handler may give for that input |
| Urls.TrimRight | flowable/ExternalWorkerClient.go:64 | `strings.TrimRight(s, "/")`: a prefix of s with no trailing '/', and only '/' characters were removed |
| Urls.TrimRightFixpoint | flowable/ExternalWorkerClient.go:142 | trimming a base that ends in no '/' changes nothing, so trimming twice is trimming once |
| Urls.TrimRightSlash | flowable/ExternalWorkerClient.go:64 | an extra trailing '/' never changes the trimmed base |
| Urls.AcquirePath | flowable/ExternalWorkerClient.go:65 | the acquire URL is the base followed by `/external-job-api/acquire/jobs` |
| Urls.ListPath | flowable/ExternalWorkerClient.go:85 | the list URL is the base followed by `/external-job-api/jobs`, never the acquire URL |
| Urls.ActionPath | flowable/ExternalWorkerClient.go:186 | an action URL starts with the acquire URL, `/`, the job id and `/`, and ends with the action |
| Urls.TrimmedPathsIgnoreTrailingSlash | test/flowable_integration_test.go:197-206 | the acquire and list URLs of the current client are the same with or without a trailing '/' on the base |
| Urls.UntrimmedDoubleSlash | flowable/flowable.go:52 | without trimming, a base ending in '/' gives a `//external-job-api` path that differs from the trimmed one |
| Urls.ActionPathExtendsAcquirePath | flowable/ExternalWorkerClient.go:186 | an action URL is the acquire URL followed by `/{jobId}/{action}` |
| Urls.ActionPathInjective | flowable/ExternalWorkerClient.go:179-288 | for a fixed base, an action URL determines both the job id and the action |
| Reducer.PathSegment | flowable/ExternalWorkerClient.go:179-288 | each action's path segment is non-empty and contains no '/' |
| Reducer.TaskFor | flowable/ExternalWorkerClient.go:153-175 | exactly the four known statuses select a task action; success selects complete, each other status the action named like itself |
| Reducer.DefaultErrorCode | flowable/ExternalWorkerClient.go:156-170 | no default code for complete; a non-empty one otherwise: "failed" for fail, the action's own name for bpmnError and cmmnTerminate |
| Reducer.TaskForDistinct | flowable/ExternalWorkerClient.go:153-175 | different statuses never select the same task action |
| Reducer.Prepared | flowable/ExternalWorkerClient.go:144-175 | the result sent: nil becomes `{WorkerId}`; empty worker id filled; handler's status, variables and error code kept; an empty code gets the status' default (failed / bpmnError / cmmnTerminate, none for success or an unknown status) |
| Reducer.TaskPosts | flowable/ExternalWorkerClient.go:179-288 | a task helper sends at most one POST: exactly one iff the job id is non-empty and the result marshals, to the action URL with the marshalled result |
| Reducer.ReducerPosts | flowable/ExternalWorkerClient.go:141-176 | at most one POST; none for an empty job id or an unknown status; otherwise the selected action's POST of the prepared result, iff it marshals |
| Reducer.PostedErrorCode | flowable/ExternalWorkerClient.go:156-170 | the posted errorCode is present iff the handler set one or the status is not success; a handler's code is kept, otherwise the status' default |
| Reducer.PostedWorkerId | flowable/ExternalWorkerClient.go:144-151 | with a configured worker id, every posted body names a worker: the handler's own or the configured one |
| Acquisition.ReadJobs | flowable/ExternalWorkerClient.go:70-80 | the reply's status passed through; transport error gives no body; an error iff the body is not a JSON array or null; the jobs are the array's elements, none for null |
| Acquisition.AcquirePosts | flowable/ExternalWorkerClient.go:66-70 | acquire sends one POST of the marshalled body, or none when marshalling fails |
| Acquisition.AcquireResult | flowable/ExternalWorkerClient.go:63-81 | a marshal failure returns status -1 with the error; otherwise the reading of the engine's reply to the POST |
| Acquisition.StatusNotChecked | flowable/ExternalWorkerClient.go:70-80 | any status with a JSON-array body is accepted as the job list |
| Acquisition.AcquireJson | flowable/ExternalWorkerClient.go:42-47 | the acquire body is an object with exactly the six JSON names; the two counts are numbers with the given values, the other four are strings |
| Dispatch.JobIdFromFields | flowable/ExternalWorkerClient.go:120-130 | the job id is non-empty iff there is a non-empty string id, a non-empty string jobId or a numeric id; a numeric id prints with no decimal point |
| Dispatch.JobIdPrecedence | flowable/ExternalWorkerClient.go:122-129 | string `id` first, then string `jobId`, then numeric `id` via `%.0f`, otherwise "" |
| Dispatch.JobIdOf | flowable/ExternalWorkerClient.go:120-123 | only a serialised job that parses as an object can have a job id |
| Dispatch.DispatchPosts | flowable/ExternalWorkerClient.go:111-134 | a cycle's action requests are all POSTs, at most one per handler call |
| Dispatch.DispatchedEach | flowable/ExternalWorkerClient.go:111-134 | after a successful acquire, handler call i is given job i, in the engine's order |
| Dispatch.DispatchPostsSnoc | flowable/ExternalWorkerClient.go:111-134 | a further handler call adds its own action POST, if any, after those of the earlier calls |
| Dispatch.DispatchPostsBound | flowable/ExternalWorkerClient.go:111-134 | a cycle sends at most one action POST per handler call, none when no call had a job id, each to the action URL of a call's job id |
| Dispatch.AcquireErrorPostsNothing | flowable/ExternalWorkerClient.go:98-104 | after a failed acquire the synthetic handler call leads to no action POST |
| Dispatch.NoJobsNoCalls | flowable/ExternalWorkerClient.go:105-109 | an empty job list calls no handler and posts nothing |
| Dispatch.TwoJobScenario | flowable/ExternalWorkerClient.go:111-134 | jobs A (success) and B (bpmnError "E1"): one POST to A's complete URL, then one to B's bpmnError URL carrying errorCode E1 |
| Callback.AnsweredEach | flowable/ExternalWorkerClient.go:131-133 | every recorded handler call got a verdict that handler may give for its input |
| Cycle.Acquire | flowable/ExternalWorkerClient.go:66-80 | the request log grows by the acquire POST (or nothing), and the outcome is the acquire result for that position |
| Cycle.List | flowable/ExternalWorkerClient.go:86-90 | one GET is logged; a transport error gives (-1, ""), otherwise status and body are passed through undecoded |
| Cycle.TaskAction | flowable/ExternalWorkerClient.go:179-288 | the request log grows by exactly the task helper's POSTs for the current result |
| Cycle.Reduce | flowable/ExternalWorkerClient.go:144-176 | the handler's result object ends as the prepared result, and the log grows by exactly the reducer's POSTs |
| Cycle.DispatchFailure | flowable/ExternalWorkerClient.go:98-104 | a failed acquire calls the handler with (500, "") and reduces its verdict with no job id |
| Cycle.DispatchJob | flowable/ExternalWorkerClient.go:112-133 | one job: the handler gets the re-serialised job with the acquire status, or (500, "") when it cannot be serialised; the log grows by the reducer's POSTs for its job id |
| Cycle.StepFacts | flowable/ExternalWorkerClient.go:111-134 | one more dispatched job extends the dispatch record and the handler record |
| Cycle.DispatchNext | flowable/ExternalWorkerClient.go:111-134 | dispatching job i extends the progress of the loop by one job |
| Cycle.DispatchAll | flowable/ExternalWorkerClient.go:111-134 | every job dispatched in order; the log grows by the action POSTs of all calls, in call order |
| Cycle.Handle | flowable/ExternalWorkerClient.go:98-134 | one synthetic call after a failed acquire, otherwise one call per job; every verdict allowed; the log grows by the cycle's action POSTs |
| Client.AcquireRequest.Payload | flowable/ExternalWorkerClient.go:42-52 | the acquire body holds exactly the six acquire parameters, each under its JSON name with the request's value (strings as strings, counts as numbers); URL and interval are not sent |
| Client.AcquireJobs | flowable/ExternalWorkerClient.go:63-81 | the acquire POST goes to the trimmed base URL; the outcome is the acquire result |
| Client.ListJobs | flowable/ExternalWorkerClient.go:84-91 | one GET to the trimmed list URL; the reply is passed through, a transport error gives (-1, "") |
| Client.HandleWorkerResponse | flowable/ExternalWorkerClient.go:141-176 | the reducer on the trimmed base URL: the result patched as prepared, the log grows by the reducer's POSTs |
| Client.PollOnce | flowable/ExternalWorkerClient.go:95-137 | one Subscribe iteration: the acquire outcome, one handler call per job in order (one synthetic call on failure), each verdict allowed, requests = acquire POST then the action POSTs |
| Legacy.AcquireJobs | flowable/flowable.go:51-68 | the acquire POST goes to the base URL as given; the outcome is the acquire result |
| Legacy.ListJobs | flowable/flowable.go:71-78 | one GET to the untrimmed list URL; the reply is passed through, a transport error gives (-1, "") |
| Legacy.HandleWorkerResponse | flowable/flowable.go:128-160 | the reducer on the base URL as given |
| Legacy.PollOnce | flowable/flowable.go:82-124 | one Subscribe iteration with every URL built from the base as given |
| Legacy.Current | flowable/flowable.go:41-48 | the earlier request and the current one send the same acquire body |
| Legacy.SameRequestsWithoutTrailingSlash | flowable/flowable.go:52 | for a base with no trailing '/', both variants send identical requests, and the current one does so also when the base has a trailing '/' |
| Legacy.TrailingSlashDiffers | flowable/flowable.go:52 | for a base with a trailing '/', the earlier variant's acquire URL contains "//" and differs from the current one's |

## Left out

- The HTTP transport (`flowable/rest_utils.go`) is not part of this model: the client, authentication, headers and timeouts. It is replaced by the `Transport` class, whose replies are a parameter.
- `time.Sleep` and the endless `for` loop of `Subscribe` are left out; one iteration is modelled (`PollOnce`).
- Logging and `EnableLogging` / `SetEnableLogging` only affect log output and are left out.
- The JSON text format is left out: `json.Unmarshal` and `json.Marshal` are the codec parameter.
  - Consequently, nothing about their text (escaping, key order) is modelled.
- Floating point is left out.
  - A number is either integral or carries what `%.0f` and `%v` print for it.
  - float64 rounding and values outside the int64 range are not modelled.
- Variables.ExtractVariablesFromBody: the Go map iteration order is chosen nondeterministically, so the object shape is specified only up to order.
- Variables.ExtractVariablesFromBody: Go returns a nil slice when no variable is found; the model returns the empty sequence, and the difference never reaches a marshalled body.
- `main.go` and running `Subscribe` in a goroutine are not part of this model, and neither is any concurrency.
- Callback.InvokeHandler: for a custom handler, the result is a new object. A handler that returns an object shared with other code, or the same object twice, is not modelled.
- The `interval` of the current request is carried but never used, since sleeping is left out.

## Findings

| source | as written | input that shows it | evidently intended | confidence | as-written member | corrected member |
|---|---|---|---|---|---|---|
| flowable/flowable.go:52 | the base URL is concatenated untrimmed, so a trailing '/' gives `//external-job-api/...` | base `http://host/` | a single '/', as the current client's `strings.TrimRight` gives | high; not executed | Legacy.TrailingSlashDiffers | Client.AcquireJobs |
