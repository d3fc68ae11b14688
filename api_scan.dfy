/** The API-scan lifecycle of buildandreleasetask/api-scan.js: submitting a rescan,
    normalising the service's answer, polling the status endpoint, and checking the
    reported counts against the severity thresholds. HTTP requests are replaced by
    their outcomes, given as parameters: one for the submission and an oracle
    `query` whose `query(k)` is the outcome of the (k+1)-th status request. */
module ApiScan {
  import opened Common

  const ReportsBase := "https://unified.sec1.io/reports/"
  const DashboardBase := "https://unified.sec1.io/api-security-advanced-dashboard/"
  /** Seconds slept before each status request. */
  const PollIntervalSeconds := 10
  /** Status requests per minute of the timeout budget. */
  const PollsPerMinute := 6
  const DefaultTimeoutMinutes := 10
  const DefaultScanMode := "async"
  /** The limit of a severity whose input is empty. */
  const DefaultApiThreshold := 999

  const NoConfigReason := "No configuration ID"
  const NetworkMessage := "Failed to connect to Sec1 API. Please check network connectivity."
  const ThresholdMessage := "API scan vulnerability thresholds exceeded"
  const KeyLookupMessage := "Failed to retrieve API key from service connection"
  const ManualPreconditionMessage := "Config ID and API key are required for manual API scan trigger"
  /** What V8 throws when the submission answer is an empty array (`undefined.uuid`). */
  const ReadUuidMessage := "Cannot read properties of undefined (reading 'uuid')"
  /** What V8 throws when the status answer is an empty array (destructuring `undefined`). */
  const DestructureMessage := "Cannot destructure property 'scanStatus' of 'statusData' as it is undefined."

  /** The HTTP response an axios error carries when the service answered with an error status. */
  datatype HttpResponse = HttpResponse(status: int, statusText: string, message: Option<string>)

  /** A thrown JavaScript error: its message, and the `response` / `request` properties
      that axios sets on errors it raises. */
  datatype JsError = JsError(message: string, response: Option<HttpResponse>, request: bool)

  /** `new Error(message)` */
  function Plain(message: string): JsError
  {
    JsError(message, None, false)
  }

  /** A JSON answer is either one object or an array of them. */
  datatype Body<T> = Single(item: T) | Many(items: seq<T>)

  /** `Array.isArray(data) ? data[0] : data`; `None` is `undefined` (an empty array). */
  function FirstOf<T>(b: Body<T>): (r: Option<T>)
    ensures b.Single? ==> r == Some(b.item)
    ensures b.Many? ==> (r.Some? <==> b.items != []) && (r.Some? ==> r.value == b.items[0])
  {
    match b
    case Single(x) => Some(x)
    case Many(xs) => if xs == [] then None else Some(xs[0])
  }

  /** The fields the source reads from the rescan answer. */
  datatype Submission = Submission(
    uuid: Option<string>, reportId: Option<string>, id: Option<string>,
    configId: Option<string>, applicationName: Option<string>,
    location: Option<string>, message: Option<string>)

  datatype SubmitOutcome = Accepted(body: Body<Submission>) | Rejected(error: JsError)

  /** The fields the source reads from a status answer. */
  datatype StatusReport = StatusReport(
    scanStatus: Option<string>,
    critical: Option<int>, high: Option<int>, medium: Option<int>, low: Option<int>,
    total: Option<int>, applicationName: Option<string>, assetsCount: Option<int>,
    scanDateTime: Option<string>)

  datatype StatusOutcome = Answered(body: Body<StatusReport>) | Failed(error: JsError)

  /** The counts copied from a COMPLETED status answer, absent ones left absent. */
  datatype ApiSummary = ApiSummary(
    critical: Option<int>, high: Option<int>, medium: Option<int>, low: Option<int>, total: Option<int>)

  /** The four threshold inputs after `parseInt`; `None` is an empty input. */
  datatype Thresholds = Thresholds(
    critical: Option<Numeric>, high: Option<Numeric>, medium: Option<Numeric>, low: Option<Numeric>)

  /** What a scan returns: the asynchronous handle, a completed synchronous scan,
      or the report link after the polling budget ran out. */
  datatype ScanResult =
    | Triggered(reportId: string, applicationName: Option<string>, location: Option<string>,
                configId: Option<string>, reportUrl: Option<string>)
    | Completed(reportId: string, reportUrl: Option<string>, summary: ApiSummary,
                applicationName: Option<string>, assetsCount: Option<int>, scanDateTime: Option<string>)
    | TimedOut(reportId: string, reportUrl: Option<string>)

  /** What `triggerApiScan` returns when it does not throw. */
  datatype TriggerOutcome =
    | Skipped(reason: string)
    | Finished(result: ScanResult)
    | FailedButContinuing(error: string)

  // ---------------------------------------------------------------------------
  // Submission (initiateApiScan)
  // ---------------------------------------------------------------------------

  /** `a || b || ... || fallback` over optional strings: the first truthy one. */
  function FirstTruthy(xs: seq<Option<string>>, fallback: string): (r: string)
    ensures (forall i :: 0 <= i < |xs| ==> !Truthy(xs[i])) ==> r == fallback
    ensures forall i :: 0 <= i < |xs| && Truthy(xs[i]) && (forall j :: 0 <= j < i ==> !Truthy(xs[j]))
              ==> r == xs[i].value
    decreases |xs|
  {
    if xs == [] then fallback
    else if Truthy(xs[0]) then xs[0].value
    else FirstTruthy(xs[1..], fallback)
  }

  /** `uuid || reportId || id || 'unknown'` */
  function ReportIdOf(s: Submission): string
  {
    FirstTruthy([s.uuid, s.reportId, s.id], "unknown")
  }

  /** The handle returned in asynchronous mode: the report link exists only for a known id. */
  function AsyncResult(s: Submission): (r: ScanResult)
    ensures r.Triggered? && r.reportId == ReportIdOf(s)
    ensures r.reportUrl.Some? <==> ReportIdOf(s) != "unknown"
    ensures r.reportUrl.Some? ==> r.reportUrl.value == ReportsBase + ReportIdOf(s)
    ensures r.configId == s.configId && r.applicationName == s.applicationName && r.location == s.location
  {
    var id := ReportIdOf(s);
    Triggered(id, s.applicationName, s.location, s.configId,
              if id != "unknown" then Some(ReportsBase + id) else None)
  }

  /** The catch block of initiateApiScan: an error with a response becomes "API scan
      failed: ..." (the service's message, else the status text), one with only a request
      becomes the network message, and any other error is rethrown unchanged. */
  function SubmissionFailure(e: JsError): (r: JsError)
    ensures r.response.None?
    ensures e.response.Some? ==>
              !r.request && r.message == "API scan failed: " + (if Truthy(e.response.value.message)
                then e.response.value.message.value else e.response.value.statusText)
    ensures e.response.None? && e.request ==> r == Plain(NetworkMessage)
    ensures e.response.None? && !e.request ==> r == e
  {
    if e.response.Some? then
      var resp := e.response.value;
      Plain("API scan failed: " + (if Truthy(resp.message) then resp.message.value else resp.statusText))
    else if e.request then Plain(NetworkMessage)
    else e
  }

  // ---------------------------------------------------------------------------
  // Thresholds (checkApiScanThresholds)
  // ---------------------------------------------------------------------------

  function CountOf(summary: ApiSummary, s: Severity): Option<int>
  {
    match s
    case Critical => summary.critical
    case High => summary.high
    case Medium => summary.medium
    case Low => summary.low
  }

  function InputOf(t: Thresholds, s: Severity): Option<Numeric>
  {
    match s
    case Critical => t.critical
    case High => t.high
    case Medium => t.medium
    case Low => t.low
  }

  /** `(summary[s] || 0) > parseInt(input || '999')`: strictly more findings than the limit. */
  predicate ApiBreaches(summary: ApiSummary, t: Thresholds, s: Severity)
  {
    Exceeds(OrZero(CountOf(summary, s)), OrDefault(InputOf(t, s), DefaultApiThreshold))
  }

  predicate AnyApiBreach(summary: ApiSummary, t: Thresholds)
  {
    exists s :: ApiBreaches(summary, t, s)
  }

  /** What checkApiScanThresholds throws: only a breach with `thresholdCheck` set. */
  function ThresholdError(summary: ApiSummary, t: Thresholds, failOnThreshold: bool): Option<JsError>
  {
    if AnyApiBreach(summary, t) && failOnThreshold then Some(Plain(ThresholdMessage)) else None
  }

  /** checkApiScanThresholds: visits the four severities, raising a flag on each breach;
      throws only when some severity breached and `failOnThreshold` is set. */
  method CheckApiScanThresholds(summary: ApiSummary, t: Thresholds, failOnThreshold: bool)
    returns (exceeded: bool, thrown: Option<JsError>)
    ensures exceeded <==> exists s :: ApiBreaches(summary, t, s)
    ensures thrown.Some? <==> exceeded && failOnThreshold
    ensures thrown.Some? ==> thrown.value == Plain(ThresholdMessage)
  {
    exceeded := false;
    var i := 0;
    while i < |Severities|
      invariant 0 <= i <= |Severities|
      invariant exceeded <==> exists j :: 0 <= j < i && ApiBreaches(summary, t, Severities[j])
    {
      var severity := Severities[i];
      var count := OrZero(CountOf(summary, severity));
      var threshold := OrDefault(InputOf(t, severity), DefaultApiThreshold);
      if Exceeds(count, threshold) {
        exceeded := true;
      }
      i := i + 1;
    }
    assert exceeded ==> exists s :: ApiBreaches(summary, t, s);
    if !exceeded {
      forall s | true ensures !ApiBreaches(summary, t, s) {
        SeveritiesListsAll(s);
      }
    }
    if exceeded && failOnThreshold {
      thrown := Some(Plain(ThresholdMessage));
    } else {
      thrown := None;
    }
  }

  // ---------------------------------------------------------------------------
  // Polling (waitForScanCompletion)
  // ---------------------------------------------------------------------------

  /** `timeoutMinutes * 6`; a NaN budget compares false with every counter, which is
      the behaviour of a budget of zero attempts. */
  function MaxAttempts(timeoutMinutes: Numeric): int
  {
    if timeoutMinutes.Int? then timeoutMinutes.n * PollsPerMinute else 0
  }

  function SummaryOf(rep: StatusReport): ApiSummary
  {
    ApiSummary(rep.critical, rep.high, rep.medium, rep.low, rep.total)
  }

  /** The try block of one polling iteration: `Ok(Some(r))` returns r, `Ok(None)` polls
      on, `Err(e)` throws e into the catch block of the same iteration. */
  function TryStatus(reportId: string, outcome: StatusOutcome, t: Thresholds, failOnThreshold: bool)
    : Result<Option<ScanResult>, JsError>
  {
    match outcome
    case Failed(e) => Err(e)
    case Answered(body) =>
      match FirstOf(body)
      case None => Err(Plain(DestructureMessage))
      case Some(rep) =>
        if rep.scanStatus == Some("COMPLETED") then
          var summary := SummaryOf(rep);
          var thrown := ThresholdError(ApiSummary(rep.critical, rep.high, rep.medium, rep.low, None), t, failOnThreshold);
          if thrown.Some? then Err(thrown.value)
          else Ok(Some(Completed(reportId, Some(DashboardBase + reportId), summary,
                                 rep.applicationName, rep.assetsCount, rep.scanDateTime)))
        else if rep.scanStatus == Some("FAILED") || rep.scanStatus == Some("ERROR") then
          Err(Plain("API scan failed with status: " + rep.scanStatus.value))
        else Ok(None)
  }

  function NotFound(reportId: string): JsError
  {
    Plain("Scan report " + reportId + " not found")
  }

  predicate IsNotFound(e: JsError)
  {
    e.response.Some? && e.response.value.status == 404
  }

  datatype Step = Continue | Stop(result: Result<ScanResult, JsError>)

  /** One iteration, `attempts` being the counter after its increment: a 404 always ends
      polling, any other error ends it only once `attempts >= maxAttempts - 1`. */
  function AttemptStep(reportId: string, outcome: StatusOutcome, t: Thresholds, failOnThreshold: bool,
                       attempts: int, maxAttempts: int): Step
  {
    match TryStatus(reportId, outcome, t, failOnThreshold)
    case Ok(Some(r)) => Stop(Ok(r))
    case Ok(None) => Continue
    case Err(e) =>
      if IsNotFound(e) then Stop(Err(NotFound(reportId)))
      else if attempts >= maxAttempts - 1 then Stop(Err(e))
      else Continue
  }

  /** Polling from a counter of `attempts`: how many status requests have been issued
      when it ends, and what it returns or throws. */
  function Poll(reportId: string, query: nat -> StatusOutcome, t: Thresholds, failOnThreshold: bool,
                attempts: nat, maxAttempts: int): (nat, Result<ScanResult, JsError>)
    decreases maxAttempts - attempts
  {
    if attempts >= maxAttempts then (attempts, Ok(TimedOut(reportId, Some(ReportsBase + reportId))))
    else
      match AttemptStep(reportId, query(attempts), t, failOnThreshold, attempts + 1, maxAttempts)
      case Stop(r) => (attempts + 1, r)
      case Continue => Poll(reportId, query, t, failOnThreshold, attempts + 1, maxAttempts)
  }

  /** waitForScanCompletion: sleeps, queries and classifies until a result, an error it
      does not swallow, or the end of the attempt budget. */
  method WaitForScanCompletion(reportId: string, timeoutMinutes: Numeric, query: nat -> StatusOutcome,
                               t: Thresholds, failOnThreshold: bool)
    returns (queries: nat, waitedSeconds: nat, r: Result<ScanResult, JsError>)
    ensures (queries, r) == Poll(reportId, query, t, failOnThreshold, 0, MaxAttempts(timeoutMinutes))
    ensures waitedSeconds == PollIntervalSeconds * queries
  {
    var maxAttempts := MaxAttempts(timeoutMinutes);
    var attempts: nat := 0;
    waitedSeconds := 0;
    while attempts < maxAttempts
      invariant Poll(reportId, query, t, failOnThreshold, attempts, maxAttempts)
             == Poll(reportId, query, t, failOnThreshold, 0, maxAttempts)
      invariant waitedSeconds == PollIntervalSeconds * attempts
      decreases maxAttempts - attempts
    {
      ghost var before := attempts;
      ghost var step := AttemptStep(reportId, query(attempts), t, failOnThreshold, attempts + 1, maxAttempts);
      waitedSeconds := waitedSeconds + PollIntervalSeconds;
      attempts := attempts + 1;
      var thrown: Option<JsError> := None;
      match query(attempts - 1) {
        case Failed(e) =>
          thrown := Some(e);
        case Answered(body) =>
          var statusData := FirstOf(body);
          if statusData.None? {
            thrown := Some(Plain(DestructureMessage));
          } else {
            var rep := statusData.value;
            if rep.scanStatus == Some("COMPLETED") {
              var _, err := CheckApiScanThresholds(ApiSummary(rep.critical, rep.high, rep.medium, rep.low, None),
                                                   t, failOnThreshold);
              if err.None? {
                queries := attempts;
                r := Ok(Completed(reportId, Some(DashboardBase + reportId), SummaryOf(rep),
                                  rep.applicationName, rep.assetsCount, rep.scanDateTime));
                assert step == Stop(r);
                return;
              }
              thrown := err;
            } else if rep.scanStatus == Some("FAILED") || rep.scanStatus == Some("ERROR") {
              thrown := Some(Plain("API scan failed with status: " + rep.scanStatus.value));
            }
          }
      }
      if thrown.Some? {
        var e := thrown.value;
        if IsNotFound(e) {
          queries := attempts;
          r := Err(NotFound(reportId));
          assert step == Stop(r);
          return;
        }
        if attempts >= maxAttempts - 1 {
          queries := attempts;
          r := Err(e);
          assert step == Stop(r);
          return;
        }
      }
      assert step == Continue;
      assert Poll(reportId, query, t, failOnThreshold, before, maxAttempts)
          == Poll(reportId, query, t, failOnThreshold, attempts, maxAttempts);
    }
    queries := attempts;
    r := Ok(TimedOut(reportId, Some(ReportsBase + reportId)));
  }

  // ---------------------------------------------------------------------------
  // initiateApiScan and triggerApiScan
  // ---------------------------------------------------------------------------

  /** initiateApiScan, as a value: the number of HTTP requests it issues (the submission
      and the status queries) and what it returns or throws. Errors from polling pass
      through the same catch block as submission errors. */
  function Initiated(scanMode: string, timeoutMinutes: Numeric, submission: SubmitOutcome,
                     query: nat -> StatusOutcome, t: Thresholds, failOnThreshold: bool)
    : (out: (nat, Result<ScanResult, JsError>))
    ensures out.0 >= 1
    ensures submission.Rejected? ==> out == (1, Err(SubmissionFailure(submission.error)))
    ensures submission.Accepted? && FirstOf(submission.body).None? ==> out == (1, Err(Plain(ReadUuidMessage)))
    ensures scanMode == DefaultScanMode && submission.Accepted? && FirstOf(submission.body).Some? ==>
              out == (1, Ok(AsyncResult(FirstOf(submission.body).value)))
    ensures out.1.Ok? && out.1.value.Triggered? ==> scanMode == DefaultScanMode && out.0 == 1
    ensures out.1.Ok? && !out.1.value.Triggered? ==> scanMode != DefaultScanMode
  {
    match submission
    case Rejected(e) => (1, Err(SubmissionFailure(e)))
    case Accepted(body) =>
      match FirstOf(body)
      case None => (1, Err(SubmissionFailure(Plain(ReadUuidMessage))))
      case Some(s) =>
        if scanMode == DefaultScanMode then (1, Ok(AsyncResult(s)))
        else
          var (queries, polled) := Poll(ReportIdOf(s), query, t, failOnThreshold, 0, MaxAttempts(timeoutMinutes));
          PollNeverTriggers(ReportIdOf(s), query, t, failOnThreshold, 0, MaxAttempts(timeoutMinutes));
          (1 + queries, if polled.Ok? then polled else Err(SubmissionFailure(polled.error)))
  }

  /** Polling never produces the asynchronous handle. */
  lemma {:induction false} PollNeverTriggers(reportId: string, query: nat -> StatusOutcome, t: Thresholds,
                                             failOnThreshold: bool, attempts: nat, maxAttempts: int)
    ensures var (_, r) := Poll(reportId, query, t, failOnThreshold, attempts, maxAttempts);
            r.Ok? ==> !r.value.Triggered?
    decreases maxAttempts - attempts
  {
    if attempts < maxAttempts {
      var step := AttemptStep(reportId, query(attempts), t, failOnThreshold, attempts + 1, maxAttempts);
      if step.Continue? {
        PollNeverTriggers(reportId, query, t, failOnThreshold, attempts + 1, maxAttempts);
      }
    }
  }

  /** initiateApiScan: submits, normalises the answer, and returns the handle in
      asynchronous mode or polls in any other mode. */
  method InitiateApiScan(scanMode: string, timeoutMinutes: Numeric, submission: SubmitOutcome,
                         query: nat -> StatusOutcome, t: Thresholds, failOnThreshold: bool)
    returns (requests: nat, r: Result<ScanResult, JsError>)
    ensures (requests, r) == Initiated(scanMode, timeoutMinutes, submission, query, t, failOnThreshold)
  {
    requests := 1;
    if submission.Rejected? {
      r := Err(SubmissionFailure(submission.error));
      return;
    }
    var responseData := FirstOf(submission.body);
    if responseData.None? {
      r := Err(SubmissionFailure(Plain(ReadUuidMessage)));
      return;
    }
    var reportId := ReportIdOf(responseData.value);
    if scanMode == DefaultScanMode {
      r := Ok(AsyncResult(responseData.value));
    } else {
      var queries, _, polled := WaitForScanCompletion(reportId, timeoutMinutes, query, t, failOnThreshold);
      requests := requests + queries;
      r := if polled.Ok? then polled else Err(SubmissionFailure(polled.error));
    }
  }

  /** The catch block of triggerApiScan: rethrow when `failOnApiScanError` is set,
      otherwise report the failure and let the pipeline continue. */
  function Handled(e: JsError, failOnApiScanError: bool): (r: Result<TriggerOutcome, JsError>)
    ensures r.Err? <==> failOnApiScanError
    ensures r.Err? ==> r.error == e
    ensures r.Ok? ==> r.value == FailedButContinuing(e.message)
  {
    if failOnApiScanError then Err(e) else Ok(FailedButContinuing(e.message))
  }

  /** triggerApiScan. `scanModeInput` and `timeoutInput` are the raw inputs (empty input
      falls back to 'async' and 10 minutes); `apiKey` is the service-connection password,
      `None` when looking it up throws. */
  method TriggerApiScan(configId: string, scanModeInput: string, timeoutInput: Option<Numeric>,
                        apiKey: Option<string>, submission: SubmitOutcome, query: nat -> StatusOutcome,
                        t: Thresholds, failOnThreshold: bool, failOnApiScanError: bool)
    returns (requests: nat, r: Result<TriggerOutcome, JsError>)
    ensures configId == "" ==> requests == 0 && r == Ok(Skipped(NoConfigReason))
    ensures configId != "" && apiKey.None? ==>
              requests == 0 && r == Handled(Plain(KeyLookupMessage), failOnApiScanError)
    ensures configId != "" && apiKey.Some? ==>
              var scanMode := if scanModeInput == "" then DefaultScanMode else scanModeInput;
              var (sent, outcome) := Initiated(scanMode, OrDefault(timeoutInput, DefaultTimeoutMinutes),
                                               submission, query, t, failOnThreshold);
              requests == sent
              && r == (if outcome.Ok? then Ok(Finished(outcome.value)) else Handled(outcome.error, failOnApiScanError))
  {
    var scanMode := if scanModeInput == "" then DefaultScanMode else scanModeInput;
    var timeoutMinutes := OrDefault(timeoutInput, DefaultTimeoutMinutes);
    if configId == "" {
      requests := 0;
      r := Ok(Skipped(NoConfigReason));
      return;
    }
    if apiKey.None? {
      requests := 0;
      r := Handled(Plain(KeyLookupMessage), failOnApiScanError);
      return;
    }
    var sent, scanResult := InitiateApiScan(scanMode, timeoutMinutes, submission, query, t, failOnThreshold);
    requests := sent;
    if scanResult.Ok? {
      r := Ok(Finished(scanResult.value));
    } else {
      r := Handled(scanResult.error, failOnApiScanError);
    }
  }

  /** triggerApiScanManual: both the config id and the key must be truthy before any
      request; the raw answer is returned and a failed request is rethrown unchanged. */
  function TriggerApiScanManual(configId: string, apiKey: Option<string>, submission: SubmitOutcome)
    : (out: (nat, Result<Body<Submission>, JsError>))
    ensures configId == "" || !Truthy(apiKey) ==> out == (0, Err(Plain(ManualPreconditionMessage)))
    ensures configId != "" && Truthy(apiKey) ==> out.0 == 1
    ensures configId != "" && Truthy(apiKey) && submission.Accepted? ==> out.1 == Ok(submission.body)
    ensures configId != "" && Truthy(apiKey) && submission.Rejected? ==> out.1 == Err(submission.error)
  {
    if configId == "" || !Truthy(apiKey) then (0, Err(Plain(ManualPreconditionMessage)))
    else match submission
      case Accepted(body) => (1, Ok(body))
      case Rejected(e) => (1, Err(e))
  }
}
