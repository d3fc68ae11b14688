# Sec1 Azure DevOps task: scan, deploy and API-scan model

This project is a Dafny model of the Azure DevOps pipeline task of the Sec1 security
extension (the `buildandreleasetask` pipeline step). The model covers three parts of it:

- **File scan** (`buildandreleasetask/index.js`, module `FileScan` in `file_scan.dfy`).
  The step picks a manifest and reads the API key from the service connection. It then
  classifies the scan service's answer and decides whether the step fails on its
  severity thresholds.
- **Deployment** (`buildandreleasetask/deployment.js`, module `Deployment` in
  `deployment.dfy`). The docker strategy builds, tags, pushes and remotely deploys an
  image to a GCP VM. The script strategy runs a deployment script on the VM. Both end
  by looking up the VM's address and return `http://<address>:8000`.
- **API scan** (`buildandreleasetask/api-scan.js`, module `ApiScan` in `api_scan.dfy`,
  with the polling properties in `api_scan_properties.dfy`). The step submits a rescan
  and normalises the answer. In synchronous mode it polls the status endpoint every ten
  seconds within a budget of `timeout * 6` attempts. It checks the reported counts
  against the severity thresholds.

`common.dfy` (module `Common`) holds the JavaScript semantics the three parts share:
- `x || default` on pipeline inputs;
- NaN comparisons;
- `String.prototype.trim`;
- ASCII `toLowerCase`;
- decimal rendering of a number.

External effects are parameters:
- The answers of HTTP requests and shell commands are given as outcomes. A sequence of
  them is an oracle indexed by the number of the request.
- The presence of files is given as booleans.
- Pipeline inputs are given as their values. `parseInt`/`Number` results are `Numeric`
  (an integer or NaN). An empty input is `None`, so the source's fallback applies.

Imperative code stays imperative and is proved against specification functions:
- `ApiScan.WaitForScanCompletion` is a loop proved equal to the recursive `ApiScan.Poll`.
- `FileScan.CheckIfThresholdReached` visits map entries in an arbitrary order and is
  proved equal to an order-free predicate.
- `Deployment.RunSteps` issues commands until the first failure.

Where the code does something other than what its structure and messages evidently intend, the model follows the code:

- Inside the polling loop, a `FAILED` or `ERROR` status is swallowed like any other error,
  and so is a threshold breach. While the retry guard allows, polling goes on, although the `throw` on these
  statuses reads as meant to end the scan. See
  `ApiScanProperties.FailedStatusThenCompleted` and
  `ApiScanProperties.BreachInLoopSwallowed`.
- The retry guard `attempts >= maxAttempts - 1` is checked after the increment. A
  non-404 error on the second-to-last attempt is therefore already rethrown. See
  `ApiScanProperties.PenultimateErrorRethrown`.
- The API-scan threshold check uses a strict `count > threshold`, with 999 for an empty
  input. The file-scan check uses `count >= value`.
- Any error thrown in polling passes through the catch block of `initiateApiScan`. An
  axios error there is rewritten to "API scan failed: ..." or the network message.

## Model

| member | source | states |
|---|---|---|
| Common.Trim | buildandreleasetask/deployment.js:99 | The result is an infix of the input with only white space cut off on either side (the ECMA-262 white-space and line-terminator set), and it neither starts nor ends with white space |
| Common.ToLower | buildandreleasetask/index.js:91 | Same length as the input; every character is the input's character with A–Z lowered |
| Common.NatToString | buildandreleasetask/deployment.js:26 | The timeout in the timeout message is written as the decimal digits whose value is the timeout, non-empty and without a leading zero |
| ApiScan.FirstOf | buildandreleasetask/api-scan.js:83 | A single object is taken as is; an array yields its first element, or nothing (undefined) when it is empty |
| ApiScan.FirstTruthy | buildandreleasetask/api-scan.js:84 | The report id is the first truthy of uuid, reportId, id, and 'unknown' when none is truthy |
| ApiScan.AsyncResult | buildandreleasetask/api-scan.js:95-106 | Async mode returns the triggered handle with the answer's config id, application and location; it has a report link on the reports page exactly when the id is not 'unknown' |
| ApiScan.SubmissionFailure | buildandreleasetask/api-scan.js:113-126 | An error with a response becomes "API scan failed: " + the response message if truthy, else the status text; one with only a request becomes the network message; any other error is rethrown unchanged |
| ApiScan.CheckApiScanThresholds | buildandreleasetask/api-scan.js:258-288 | Exceeded exactly when some severity's count (0 when absent) is strictly above its threshold (999 when empty, never for NaN); it throws the threshold error exactly when exceeded and the threshold check is on |
| ApiScan.WaitForScanCompletion | buildandreleasetask/api-scan.js:132-221 | The polling loop issues exactly the requests and returns exactly the result of the recursive attempt-by-attempt specification from attempt 0 with budget timeout*6, waiting ten seconds per request |
| ApiScan.Initiated | buildandreleasetask/api-scan.js:60-127 | A rejected submission fails through the error mapping after one request; an empty array answer fails reading `uuid`; async mode returns the handle after one request; a triggered handle only ever comes from async mode, any other mode's result comes from polling |
| ApiScan.PollNeverTriggers | buildandreleasetask/api-scan.js:180-220 | Polling only ever returns a completed or a timed-out result, never the asynchronous handle |
| ApiScan.InitiateApiScan | buildandreleasetask/api-scan.js:60-127 | The method issues the requests and returns the result that the submission specification gives |
| ApiScan.Handled | buildandreleasetask/api-scan.js:43-54 | An error is rethrown exactly when failOnApiScanError is set; otherwise the result is the failed-but-continuing record carrying the error's message |
| ApiScan.TriggerApiScan | buildandreleasetask/api-scan.js:11-55 | An empty config id skips without any request; a failed key lookup is handled before any request; otherwise the result is the submission's, with mode defaulting to 'async' and timeout to 10 minutes, and errors handled per failOnApiScanError |
| ApiScan.TriggerApiScanManual | buildandreleasetask/api-scan.js:306-337 | Without a config id or a truthy key it throws before any request; otherwise one request, whose raw answer is returned or whose error is rethrown unchanged |
| ApiScanProperties.PollBounds | buildandreleasetask/api-scan.js:133-138 | Polling never issues more requests than the budget, and with no budget left it issues none and returns the timeout result |
| ApiScanProperties.QueriesWithinBudget | buildandreleasetask/api-scan.js:133-138 | At most timeout*6 status requests; a non-positive or NaN timeout returns the timeout result without any request |
| ApiScanProperties.SkipSwallowed | buildandreleasetask/api-scan.js:196-208 | Attempts that poll on do not change the outcome of polling |
| ApiScanProperties.FirstStopDecides | buildandreleasetask/api-scan.js:136-209 | The first attempt that does not poll on decides the result, after exactly n + 1 requests |
| ApiScanProperties.TimedOutIffAllSwallowed | buildandreleasetask/api-scan.js:136-220 | The timeout result comes back exactly when every attempt of the budget polled on, and then after the whole budget of requests |
| ApiScanProperties.InProgressSwallowed | buildandreleasetask/api-scan.js:192-196 | A status other than COMPLETED, FAILED and ERROR always polls on |
| ApiScanProperties.FirstCompletedWins | buildandreleasetask/api-scan.js:160-190 | After any earlier attempts that polled on (QUEUED/RUNNING answers, swallowed request errors, FAILED/ERROR statuses or threshold breaches), the first COMPLETED answer that passes the threshold check returns the completed result with its counts, application, assets and date, and the dashboard link |
| ApiScanProperties.NetworkErrorThenCompleted | buildandreleasetask/api-scan.js:198-208 | A status request that fails without a 404 is swallowed and polling goes on, so a COMPLETED answer on the next attempt returns the completed result after two queries |
| ApiScanProperties.ErrorSwallowedIff | buildandreleasetask/api-scan.js:198-208 | A non-404 error on attempt k polls on exactly when k + 1 < maxAttempts - 1, and is otherwise rethrown unchanged |
| ApiScanProperties.NotFoundAborts | buildandreleasetask/api-scan.js:199-201 | A 404 ends polling with "Scan report <id> not found" whatever budget remains |
| ApiScanProperties.PenultimateErrorRethrown | buildandreleasetask/api-scan.js:205-207 | As written, a failed request on the second-to-last attempt ends polling after maxAttempts - 1 requests with that error |
| ApiScanProperties.FailedStatusThenCompleted | buildandreleasetask/api-scan.js:192-208 | As written, a FAILED status early in the budget is swallowed and a later COMPLETED answer wins |
| ApiScanProperties.BreachInLoopSwallowed | buildandreleasetask/api-scan.js:176-208 | As written, a threshold breach in a COMPLETED answer is swallowed while budget remains, and polling goes on |
| ApiScanProperties.ScenarioCompletesAfterFourQueries | buildandreleasetask/api-scan.js:132-190 | QUEUED, RUNNING, RUNNING, COMPLETED within a one-minute budget returns the completed counts after four requests |
| ApiScanProperties.AlwaysRunningTimesOut | buildandreleasetask/api-scan.js:209-220 | Answers in progress for the whole budget end in the timeout result with the reports link, after the whole budget |
| ApiScanProperties.EqualCountDoesNotBreach | buildandreleasetask/api-scan.js:260-272 | A count equal to its threshold, or 999 under an empty input, does not breach |
| ApiScanProperties.AsyncNeverPolls | buildandreleasetask/api-scan.js:95-106 | Async mode issues only the submission request and returns the handle, with a link exactly when the id is known |
| ApiScanProperties.OtherModesPoll | buildandreleasetask/api-scan.js:107-126 | Any other mode issues the submission plus the polling requests, and polling errors go through the submission error mapping |
| FileScan.Run | buildandreleasetask/index.js:7-42 | An empty connection id or a missing authorization fails with the connection message; without pom.xml or package.json it fails as unsupported; otherwise it scans pom.xml (preferred) or the fixed package.json path with the connection's password |
| FileScan.Classify | buildandreleasetask/index.js:65-81 | A non-empty errorMessage comes first, then status FAILED, then missing counts; otherwise the summary has the counts (0 when absent), totalCve (0 when absent) and the report URL |
| FileScan.GetThresholdMap | buildandreleasetask/index.js:144-165 | The method builds the threshold-map specification: four entries, defaulting to 1, 0, 0, 0, when critical is numeric, and none otherwise |
| FileScan.ThresholdMapAllOrNothing | buildandreleasetask/index.js:150-162 | The map holds all four severities or none, and it is empty exactly when critical is not numeric |
| FileScan.CheckIfThresholdReached | buildandreleasetask/index.js:167-176 | True exactly when some mapped severity's count is at or above its value (NaN values never match), whatever order the entries are visited in |
| FileScan.ThresholdCheckEnabledIff | buildandreleasetask/index.js:89-91 | The threshold check is on exactly for "true" in any mix of letter cases |
| FileScan.HandleScanResponse | buildandreleasetask/index.js:64-106 | A non-empty errorMessage, then a FAILED status, fail the step with the ReferenceError for the undeclared `options` (never the service message or the report id); missing counts fail it with the TypeError of reading CRITICAL; a summary fails with the threshold message exactly when the check is on, the map is non-empty and a threshold is reached, and otherwise nothing is recorded |
| FileScan.DefaultsFailOnOneCritical | buildandreleasetask/index.js:89-93 | With the default thresholds and the threshold check on, one critical finding reaches the map and fails the step; the default check input (read as 'false') leaves the check off |
| FileScan.EmptyMapNeverReached | buildandreleasetask/index.js:167-176 | An empty map never reports a breach |
| FileScan.NonNumericCriticalDisablesCheck | buildandreleasetask/index.js:151-162 | A non-numeric critical input switches the whole threshold check off |
| Deployment.EffectiveTimeout | buildandreleasetask/deployment.js:10 | An absent or zero timeout becomes 60000 ms; any other is kept |
| Deployment.DockerPlan | buildandreleasetask/deployment.js:61-98 | The docker strategy issues six commands with deadlines 300000, 60000, 30000, 300000, 300000 and 60000 ms |
| Deployment.DockerPlanCommands | buildandreleasetask/deployment.js:63-98 | The commands are build, tag, auth, push, remote deploy and describe, in that order; tag, push and the deploy script receive the artifact-registry reference |
| Deployment.ScriptPlan | buildandreleasetask/deployment.js:122-124 | The script strategy issues the remote script (300000 ms) and then describe (60000 ms) |
| Deployment.ScriptPlanHasNoDocker | buildandreleasetask/deployment.js:114-135 | The script strategy issues no docker command |
| Deployment.RunSteps | buildandreleasetask/deployment.js:89-108 | Commands run in order until the first failure, whose error is rethrown; success exactly when all exit, yielding the last command's output |
| Deployment.BuildDockerImage | buildandreleasetask/deployment.js:61-75 | One build command; it returns `sec1-app:<build id>`, or the command's error |
| Deployment.DeployDockerToGcpVm | buildandreleasetask/deployment.js:80-109 | Runs tag, auth, push, deploy and describe to the first failure; on success the URL is built from the trimmed describe output |
| Deployment.DeployViaScript | buildandreleasetask/deployment.js:114-135 | Runs the remote script and describe to the first failure; on success the URL is built from the trimmed describe output |
| Deployment.BuildThenDeploy | buildandreleasetask/deployment.js:44-46 | An exited build followed by a docker deployment is a run of the whole docker plan |
| Deployment.DeployApplication | buildandreleasetask/deployment.js:38-56 | An unsupported type fails before any command with its message; otherwise the issued commands are the strategy's plan run to its first failure, and the result is the URL or that failure's error |
| Deployment.NoDeployAfterFailedPush | buildandreleasetask/deployment.js:93-96 | A failed push ends the docker strategy with the push's error; the remote deploy and describe are never issued |

## Left out

- HTTP transport (axios, headers, request timeouts, the status URL) is left out. Each request is
  represented only by its outcome: an answer body or an axios error with `response`/`request`.
- The ten-second sleep is not modelled as time. `WaitForScanCompletion` returns the seconds it would have
  waited.
- `child_process.exec`, `SIGKILL` and the timer race are left out. A command's outcome is given as
  exited, errored or killed; `exec`'s own `timeout` option only changes which of these happens.
- `tl.getInput(name, true)` throwing on an empty required input is not modelled; inputs are the values it
  returns. A failing `getServiceConnectionPassword` is `apiKey == None`.
- The pipeline variables set through `##vso[task.setvariable]`, `process.env` and all console output are
  left out.
- `fs.accessSync` is left out; file presence is a boolean. Reading and uploading the manifest
  (`triggerSec1Scan`, `scanRequest`) are left out; `HandleScanResponse` starts from the received answer.
- The `setResult` calls of the two error branches of the answer handler (index.js:70, :74) are never
  reached, because `options` is evaluated first; they would pass the misspelled, undefined
  `errorMessag`. The model records the ReferenceError that fails the step instead.
- The `.catch` path of `triggerSec1Scan` for a failed scan request is left out. It is the I/O failure path,
  and it ends in a second TypeError when the error has no response.
- `run` does not await `triggerSec1Scan`, so the step is first marked succeeded and later possibly
  failed. The model gives the two verdicts separately (`Run`, `HandleScanResponse`), not their ordering.
- `displayApiScanResults` and `checkFilePresence` are left out: one is console output, the other a file
  check.
- `Date.now()` as the fallback build id is left out; `BuildDockerImage` takes the build id as a
  parameter.
- Number parsing is left out. `parseInt` (api-scan.js) and the `Number` coercion of `isNaN` and `>=`
  (index.js) are given as `Numeric`.
- Common.ToLower: only ASCII letters are lowered, not the full Unicode case mapping of `toLowerCase`.
- The constant `vulnerabilities: []` and `mode: 'sync'` / `status: ...` fields of the scan results are
  represented by the `ScanResult` constructors, not as fields.
- A `Submission` or `StatusReport` holds only the fields the source reads; the rest of each answer is
  dropped.
