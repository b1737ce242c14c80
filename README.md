# wanx image-edit task, modelled in Dafny

The task `tasks/wanx-image-edit/index.ts` edits images through a remote
service. It validates its inputs and builds a JSON request body. It submits
the job (`POST /submit`), then polls the job state (`GET /state/{sessionID}`)
every two seconds, at most 300 times. Finally it fetches the result
(`GET /result/{sessionID}`) and returns the output image URLs and the task
identifier. It reports progress to its host as it goes: 10, 20, one value
per successful poll (in 20-90 when the API progress is in 0-100), 95 and 100.

The model replaces the three endpoints by their answers:

- one `SubmitResponse`;
- a sequence of `StateResponse`, where `states[i]` answers state query `i + 1`;
- one `ResultResponse`.

A run returns its `Outcome`, which is either the outputs or the kind of error
thrown. It also returns the trace of its observable events, in order:
progress reports, the submit request with its body, the state requests and
the result request.

Modules:

- `JobTypes` (`job_types.dfy`): inputs with JavaScript's `undefined`/`null`
  distinction (`Opt`), truthiness, the request body, the responses, one error
  kind per `throw` in the task, and the events.
- `JobRequest` (`job_request.dfy`): validation, the request body as a
  function (`RequestBody`), and the in-place construction of the body
  (`BuildRequestBody`).
- `Progress` (`progress.dfy`): the 0-100 to 20-90 progress formula.
- `Poll` (`poll.dfy`): the poll loop (`PollState`, a `while` loop with
  `break` and early returns). It is proved against a loop-free description:
  the number of queries (`Queries`), the verdict (`PollVerdict`) and the
  events (`PollEvents`).
- `Orchestrator` (`orchestrator.dfy`): the whole task (`Run`). It is proved
  equal to `Expected`, the same run with the poll replaced by its loop-free
  description. The lemmas beside it state what the task promises.

Behaviours of the code that the model keeps as written:

- Progress is reported for every successful state answer, not only for
  `processing` ones. That includes the answer that reports `completed` or
  `failed`.
- `promptExtend` defaults to `true` only when it is absent; `null` is sent
  as `null`. The output count `n` becomes 4 when it is 0 as well as when it
  is absent or null. A seed of 0 is left out of the body.
- A job that reports `completed` on exactly the 300th query ends in the
  timeout error, because the timeout check comes after the loop
  (`TimeoutWhenCompletedOnLastQuery`). A `failed` answer on the 300th query
  still ends in the task-failed error.
- A state other than `processing`, `completed` or `failed` is treated like
  `processing`.

## Model

| member | source | states |
|---|---|---|
| `JobRequest.Validate` | tasks/wanx-image-edit/index.ts:56-67 | Accepts exactly a prompt of 1-2000 characters with 1-4 image URLs. Otherwise it returns the validation error of the first failing check: the prompt is checked before the URL list. |
| `JobRequest.PromptExtendValue` | tasks/wanx-image-edit/index.ts:75 | `promptExtend` is sent as `true` only when the input is absent or `true`. It is sent as `null` exactly when the input is `null`, and any given boolean is sent unchanged. |
| `JobRequest.RequestBody` | tasks/wanx-image-edit/index.ts:70-87 | The body has the six fixed keys and no keys beyond the three optional ones. `prompt` and `imageURLs` are copied verbatim. `model` defaults to "wan2.6-image", `n` to 4 and `watermark` to false when their input is falsy. `negativePrompt`, `size` and `seed` are present exactly when their input is truthy, and then hold it. |
| `JobRequest.BuildRequestBody` | tasks/wanx-image-edit/index.ts:70-87 | Building the record and then inserting the truthy optional keys one by one yields exactly `RequestBody`. |
| `JobRequest.ZeroSeedDropped` | tasks/wanx-image-edit/index.ts:85-87 | A seed of 0 is left out, and the body is the same as with no seed or a null seed. |
| `JobRequest.SeedOnlyAddsSeed` | tasks/wanx-image-edit/index.ts:79-87 | Giving a non-zero seed adds exactly the `seed` key and changes no other key. |
| `Progress.MapProgress` | tasks/wanx-image-edit/index.ts:145 | The report minus 20 is the floor of 70% of the API progress. For API progress in 0-100 the report lies in [20, 90]. |
| `Progress.MapProgressMonotone` | tasks/wanx-image-edit/index.ts:145 | A larger API progress never gives a smaller report. |
| `Progress.MapProgressExamples` | tasks/wanx-image-edit/index.ts:145 | 0 maps to 20, 50 to 55 and 100 to 90. |
| `Poll.QueriesFrom` | tasks/wanx-image-edit/index.ts:120-155 | Once `done` answers have not stopped the loop, the loop makes at most 300 queries in all. No answer before the last one stops it, and below 300 the last one does. |
| `Poll.Queries` | tasks/wanx-image-edit/index.ts:117-155 | The poll makes between 1 and 300 queries. It stops at the first unsuccessful, `completed` or `failed` answer, and otherwise at 300. |
| `Poll.QueriesIs` | tasks/wanx-image-edit/index.ts:120-155 | If the first k-1 answers do not stop the loop and answer k does (or k = 300), the poll makes exactly k queries. |
| `Poll.StepEvents` | tasks/wanx-image-edit/index.ts:124-146 | One iteration issues one state query, and reports the mapped progress exactly when the answer is ok and successful. |
| `Poll.PollState` | tasks/wanx-image-edit/index.ts:116-159 | The loop makes `Queries(states)` queries and ends with `PollVerdict(states)`: a state-query error, task failed, timeout, or completion before query 300. Its events are those of the answers it consumed. |
| `Poll.PollQueryCount` | tasks/wanx-image-edit/index.ts:120-129 | The poll events hold exactly one state query per answer consumed. |
| `Poll.PollReportsMapped` | tasks/wanx-image-edit/index.ts:140-146 | When every answer consumed succeeded, the progress reported while polling is `ProgressOf` the answers: one remapped API progress value per answer, in order, with as many values as answers. |
| `Poll.PollReportsBounded` | tasks/wanx-image-edit/index.ts:145-146 | With API progress in 0-100, every value reported while polling lies in [20, 90], whatever the answers. |
| `Poll.PollEventsSession` | tasks/wanx-image-edit/index.ts:124 | Every state query is issued for the session identifier it was given. |
| `Poll.LaterAnswersIgnored` | tasks/wanx-image-edit/index.ts:120-155 | Answers after the last query made change neither the number of queries nor the verdict. |
| `Poll.CompletedPollSucceeded` | tasks/wanx-image-edit/index.ts:140-159 | A poll that ends without error saw `completed` before query 300, and every answer it consumed was ok and successful. |
| `Orchestrator.Run` | tasks/wanx-image-edit/index.ts:48-190 | The task returns the outcome and produces the events of `Expected`, the loop-free description of a run. |
| `Orchestrator.FetchTail` | tasks/wanx-image-edit/index.ts:157-184 | The events after the poll are progress reports and the one result request for the session. |
| `Orchestrator.AcceptedTrace` | tasks/wanx-image-edit/index.ts:89-184 | After an accepted submission the trace is: report 10, the submit request, report 20, the poll events, then the fetch events. |
| `Orchestrator.ValidationFirst` | tasks/wanx-image-edit/index.ts:55-67 | A run fails with a validation error exactly when the inputs are not well formed. It then makes no request and reports no progress. |
| `Orchestrator.SubmitsRequestBody` | tasks/wanx-image-edit/index.ts:89-98 | A valid run first reports 10 and then submits exactly `RequestBody` of its inputs. |
| `Orchestrator.SubmitRejected` | tasks/wanx-image-edit/index.ts:100-110 | A submit answer that is not ok, not successful or without a session identifier ends the run with a submission error. The run makes no state query and reports only 10. |
| `Orchestrator.QueryCount` | tasks/wanx-image-edit/index.ts:100-159 | A run makes `Queries(states)` state queries when its submission is accepted and none otherwise, so never more than 300. |
| `Orchestrator.RequestsUseSession` | tasks/wanx-image-edit/index.ts:112-169 | Every state and result request uses the session identifier returned by the accepted submission. |
| `Orchestrator.StopsAtQuery` | tasks/wanx-image-edit/index.ts:131-155 | If answer k is the first to stop the poll, the run makes exactly k queries. It fails with the HTTP or state-check error when answer k is unsuccessful, and with task-failed when it reports `failed`. A `completed` answer before query 300 goes on to the result request. |
| `Orchestrator.TimeoutWhenNeverTerminal` | tasks/wanx-image-edit/index.ts:120-159 | 300 answers that never stop the poll give the timeout error after exactly 300 queries. |
| `Orchestrator.TimeoutWhenCompletedOnLastQuery` | tasks/wanx-image-edit/index.ts:148-159 | `completed` on exactly the 300th query still gives the timeout error after 300 queries, and no result request is made. |
| `Orchestrator.SuccessExactly` | tasks/wanx-image-edit/index.ts:56-189 | A run succeeds exactly when the inputs are valid, the submission is accepted, the poll completes in time and the result carries data. |
| `Orchestrator.SuccessfulRun` | tasks/wanx-image-edit/index.ts:145-189 | On success the outputs are the result data's images and task id verbatim. The poll saw `completed` before query 300, and the progress log is 10, 20, one mapped value per query, 95, 100. |
| `Orchestrator.SuccessLogNonDecreasing` | tasks/wanx-image-edit/index.ts:90-184 | With non-decreasing API progress in 0-100, the log 10, 20, mapped values, 95, 100 is non-decreasing. |
| `Orchestrator.SuccessfulRunProgressMonotone` | tasks/wanx-image-edit/index.ts:90-184 | When the API progress of the answers the run consumed is non-decreasing and in 0-100, a successful run's progress log is non-decreasing and ends in 100. Answers to queries never made are unconstrained. |
| `Orchestrator.LaterAnswersIrrelevant` | tasks/wanx-image-edit/index.ts:120-155 | Changing the answers to queries a run never made changes neither its outcome nor its trace, since no further query is issued. |
| `Orchestrator.CompletedOnFirstQuery` | tasks/wanx-image-edit/index.ts:89-189 | Example: `completed` at progress 50 on the first query, with result data `t1`/`u1,u2`, returns images `u1,u2` and task `t1`. The trace is 10, submit, 20, one state query, 55, 95, result request, 100. |

## Left out

- Token acquisition (`context.getOomolToken()`, line 53) and the `Authorization` header. This is a call into the host. In the source it happens before validation, but it is not an HTTP request to the image service.
- HTTP transport: URLs, methods, headers, status codes, status text and response bodies. Each response is reduced to its `ok` flag and the parsed payload fields. An error keeps its kind but not its message.
- JSON parsing failures (`response.json()` throwing) and payload fields of unexpected types. `success` is modelled by its truthiness. `data.images` and `data.taskId` are assumed present when `data` is.
- `sleep`/`POLL_INTERVAL`: the wait between queries. Only the number of queries is modelled.
- Floating point in the progress formula. API progress is an integer, and the floor of `(p / 100) * 70` is taken exactly as `(p * 70) / 100`. Non-integer progress values are not modelled.
- Number inputs (`n`, `seed`) are integers. `NaN` and fractional numbers are not modelled.
- String length: the source counts UTF-16 code units, while the model counts characters of a Dafny string.
- `prompt` and `imageURLs` are never `null` in the model, as their declared types say. The source would reject a `null` with the same errors as an empty value.
- The key order of the serialized JSON body: the body is a map.
- The state answers are given as a sequence of at least 300 entries, one per possible query. `LaterAnswersIgnored` and `LaterAnswersIrrelevant` show that answers after the last query made have no effect.
