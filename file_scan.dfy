/** The file-scan step of buildandreleasetask/index.js: the preconditions on the service
    connection, the choice of manifest, the classification of the scan service's answer,
    the threshold map built from the four inputs, and the `>=` threshold test. The file
    checks, the HTTP upload and the pipeline inputs are parameters. */
module FileScan {
  import opened Common

  const MissingConnectionMessage := "Service connection not found or authorization details missing."
  const UnsupportedRepoMessage := "Repo not supported. Supported Repos are Maven and NodeJS repo"
  const ThresholdMessage := "Vulnerabilities reported are more than threshold"
  const PomPath := "pom.xml"
  /** The source checks for `package.json` in the working directory but then scans this fixed path. */
  const PackageJsonPath := "/Users/dineshrawat/Desktop/TestWorkspace/vulnerable-node/package.json"

  /** The endpoint authorization of the service connection; its `password` is the API key. */
  datatype Authorization = Authorization(password: Option<string>)

  /** What `run` hands to the scan: the API key and the manifest to upload. */
  datatype ScanPlan = ScanPlan(apiKey: Option<string>, filePath: string)

  /** run: an empty connection id or a missing authorization fails the step before any
      file is looked at; then `pom.xml` wins over `package.json`, and neither fails the
      step as an unsupported repository. */
  function Run(serviceConnectionId: string, authorization: Option<Authorization>,
               pomPresent: bool, packageJsonPresent: bool): (r: Result<ScanPlan, string>)
    ensures serviceConnectionId == "" || authorization.None? ==> r == Err(MissingConnectionMessage)
    ensures serviceConnectionId != "" && authorization.Some? ==>
              (!pomPresent && !packageJsonPresent ==> r == Err(UnsupportedRepoMessage))
    ensures r.Ok? <==> serviceConnectionId != "" && authorization.Some? && (pomPresent || packageJsonPresent)
    ensures r.Ok? ==> r.value.apiKey == authorization.value.password
    ensures r.Ok? && pomPresent ==> r.value.filePath == PomPath
    ensures r.Ok? && !pomPresent ==> r.value.filePath == PackageJsonPath
  {
    if serviceConnectionId == "" then Err(MissingConnectionMessage)
    else if authorization.None? then Err(MissingConnectionMessage)
    else if pomPresent then Ok(ScanPlan(authorization.value.password, PomPath))
    else if packageJsonPresent then Ok(ScanPlan(authorization.value.password, PackageJsonPath))
    else Err(UnsupportedRepoMessage)
  }

  /** `cveCountDetails` of the answer. */
  datatype CveCounts = CveCounts(critical: Option<int>, high: Option<int>, medium: Option<int>, low: Option<int>)

  /** The fields the source reads from the answer body. */
  datatype ScanResponse = ScanResponse(
    errorMessage: Option<string>, status: Option<string>, reportId: Option<string>,
    cveCountDetails: Option<CveCounts>, totalCve: Option<int>, reportUrl: Option<string>)

  /** The summary object filled field by field. */
  datatype Summary = Summary(scanFile: string, critical: int, high: int, medium: int, low: int,
                             totalCve: int, reportUrl: Option<string>)

  datatype Classification =
    | ServiceError(message: string)
    | ScanFailed(reportId: Option<string>)
    /** `cveCountDetails` is absent, so reading its fields throws. */
    | MissingCounts
    | Summarised(summary: Summary)

  /** The branches of the answer handler: a non-empty `errorMessage` first, then a FAILED
      status, and only otherwise the summary, each count defaulting to zero. */
  function Classify(filePath: string, response: ScanResponse): (c: Classification)
    ensures c.ServiceError? <==> Truthy(response.errorMessage)
    ensures c.ServiceError? ==> c.message == response.errorMessage.value
    ensures c.ScanFailed? <==> !Truthy(response.errorMessage) && response.status == Some("FAILED")
    ensures c.ScanFailed? ==> c.reportId == response.reportId
    ensures c.MissingCounts? <==> !Truthy(response.errorMessage) && response.status != Some("FAILED")
                                  && response.cveCountDetails.None?
    ensures c.Summarised? ==>
              var counts := response.cveCountDetails.value;
              && c.summary.scanFile == filePath
              && c.summary.critical == OrZero(counts.critical) && c.summary.high == OrZero(counts.high)
              && c.summary.medium == OrZero(counts.medium) && c.summary.low == OrZero(counts.low)
              && c.summary.totalCve == OrZero(response.totalCve) && c.summary.reportUrl == response.reportUrl
  {
    if Truthy(response.errorMessage) then ServiceError(response.errorMessage.value)
    else if response.status == Some("FAILED") then ScanFailed(response.reportId)
    else if response.cveCountDetails.None? then MissingCounts
    else
      var counts := response.cveCountDetails.value;
      Summarised(Summary(filePath, OrZero(counts.critical), OrZero(counts.high), OrZero(counts.medium),
                         OrZero(counts.low), OrZero(response.totalCve), response.reportUrl))
  }

  /** `summary[severity]` */
  function SummaryCount(summary: Summary, s: Severity): int
  {
    match s
    case Critical => summary.critical
    case High => summary.high
    case Medium => summary.medium
    case Low => summary.low
  }

  /** The map getThresholdMap builds: every entry is guarded by `isNaN(critical)`, so a
      non-numeric critical input leaves it empty and otherwise it holds all four inputs
      (defaults '1', '0', '0', '0'), whether they are numeric or not. */
  function ThresholdMap(critical: Option<Numeric>, high: Option<Numeric>, medium: Option<Numeric>,
                        low: Option<Numeric>): map<Severity, Numeric>
  {
    if OrDefault(critical, 1).NaN? then map[]
    else map[Critical := OrDefault(critical, 1), High := OrDefault(high, 0),
             Medium := OrDefault(medium, 0), Low := OrDefault(low, 0)]
  }

  /** getThresholdMap: four guarded insertions into a fresh map. */
  method GetThresholdMap(criticalInput: Option<Numeric>, highInput: Option<Numeric>,
                         mediumInput: Option<Numeric>, lowInput: Option<Numeric>)
    returns (data: map<Severity, Numeric>)
    ensures data == ThresholdMap(criticalInput, highInput, mediumInput, lowInput)
  {
    var critical := OrDefault(criticalInput, 1);
    var high := OrDefault(highInput, 0);
    var medium := OrDefault(mediumInput, 0);
    var low := OrDefault(lowInput, 0);
    data := map[];
    if !critical.NaN? {
      data := data[Critical := critical];
    }
    if !critical.NaN? {
      data := data[High := high];
    }
    if !critical.NaN? {
      data := data[Medium := medium];
    }
    if !critical.NaN? {
      data := data[Low := low];
    }
  }

  /** The map holds all four severities or none, and it is empty exactly when the
      critical input (after its default) is not a number. */
  lemma ThresholdMapAllOrNothing(critical: Option<Numeric>, high: Option<Numeric>, medium: Option<Numeric>,
                                 low: Option<Numeric>)
    ensures var m := ThresholdMap(critical, high, medium, low);
            && (|m| == 4 || |m| == 0)
            && (|m| == 0 <==> OrDefault(critical, 1).NaN?)
            && (|m| == 4 ==> m.Keys == {Critical, High, Medium, Low})
  {
    var m := ThresholdMap(critical, high, medium, low);
    if !OrDefault(critical, 1).NaN? {
      assert m.Keys == {Critical, High, Medium, Low};
      assert |{Critical, High, Medium, Low}| == 4;
    } else {
      assert m == map[];
    }
  }

  /** Some mapped severity has a count at or above its value (`>=`: an equal count
      reaches the threshold; a non-numeric value never does). */
  predicate ThresholdReached(summary: Summary, m: map<Severity, Numeric>)
  {
    exists s :: s in m && Reaches(SummaryCount(summary, s), m[s])
  }

  /** checkIfThresholdReached: visits the entries in whatever order the map yields them
      and raises a flag on any entry that is reached; the result is the disjunction over
      all entries, so the order does not matter. */
  method CheckIfThresholdReached(summary: Summary, thresholdMap: map<Severity, Numeric>)
    returns (thresholdBreak: bool)
    ensures thresholdBreak <==> ThresholdReached(summary, thresholdMap)
  {
    thresholdBreak := false;
    var remaining := thresholdMap.Keys;
    while remaining != {}
      invariant remaining <= thresholdMap.Keys
      invariant thresholdBreak <==>
                  exists s :: s in thresholdMap && s !in remaining && Reaches(SummaryCount(summary, s), thresholdMap[s])
      decreases remaining
    {
      var severity :| severity in remaining;
      if Reaches(SummaryCount(summary, severity), thresholdMap[severity]) {
        thresholdBreak := true;
      }
      remaining := remaining - {severity};
    }
  }

  /** `(input || 'false').toLowerCase() === 'true'` */
  predicate ThresholdCheckEnabled(input: string)
  {
    ToLower(if input == "" then "false" else input) == "true"
  }

  /** The check is on exactly for a four-letter input spelling "true" in any mix of cases. */
  lemma ThresholdCheckEnabledIff(input: string)
    ensures ThresholdCheckEnabled(input) <==>
              |input| == 4 && LowerChar(input[0]) == 't' && LowerChar(input[1]) == 'r'
              && LowerChar(input[2]) == 'u' && LowerChar(input[3]) == 'e'
  {
    if ThresholdCheckEnabled(input) {
      assert ToLower(input)[0] == 't';
    }
    if |input| == 4 && LowerChar(input[0]) == 't' && LowerChar(input[1]) == 'r'
       && LowerChar(input[2]) == 'u' && LowerChar(input[3]) == 'e' {
      assert ToLower(input) == "true";
    }
  }

  datatype Failure =
    | ResponseError(message: string)
    | ReportFailed(reportId: Option<string>)
    | MalformedResponse
    | ThresholdExceeded

  /** What V8 throws when the error branches evaluate the undeclared `options`. */
  const OptionsReferenceMessage := "options is not defined"
  /** What V8 throws when `cveCountDetails` is absent and its `CRITICAL` is read. */
  const ReadCriticalMessage := "Cannot read properties of undefined (reading 'CRITICAL')"

  /** The error the step's failure is recorded with. Both error branches of the handler
      evaluate the undeclared `options` before reaching their own `setResult` (which in
      any case passes the misspelled, hence undefined, `errorMessag`), so the
      ReferenceError, caught by the `.catch` handler, is what fails the step; a missing
      `cveCountDetails` fails it with the TypeError of reading `CRITICAL`. */
  function RecordedError(f: Failure): string
  {
    match f
    case ResponseError(_) => OptionsReferenceMessage
    case ReportFailed(_) => OptionsReferenceMessage
    case MalformedResponse => ReadCriticalMessage
    case ThresholdExceeded => ThresholdMessage
  }

  /** What the answer handler leaves as the step's result: failed for a reason, or left
      as `run` set it with the summary printed. */
  datatype Verdict = Failed(reason: Failure) | Passed(summary: Summary)

  /** The `.then` handler of triggerSec1Scan for a received answer, with the message the
      step's failure is recorded with (`None` when the handler leaves the result alone).
      Neither the service's `errorMessage` nor the report id ever reaches the record. */
  method HandleScanResponse(filePath: string, response: ScanResponse, thresholdCheckInput: string,
                            critical: Option<Numeric>, high: Option<Numeric>, medium: Option<Numeric>,
                            low: Option<Numeric>)
    returns (v: Verdict, recorded: Option<string>)
    ensures Truthy(response.errorMessage) ==>
              v == Failed(ResponseError(response.errorMessage.value)) && recorded == Some(OptionsReferenceMessage)
    ensures !Truthy(response.errorMessage) && response.status == Some("FAILED") ==>
              v == Failed(ReportFailed(response.reportId)) && recorded == Some(OptionsReferenceMessage)
    ensures Classify(filePath, response).MissingCounts? ==>
              v == Failed(MalformedResponse) && recorded == Some(ReadCriticalMessage)
    ensures Classify(filePath, response).Summarised? ==>
              var summary := Classify(filePath, response).summary;
              var m := ThresholdMap(critical, high, medium, low);
              if ThresholdCheckEnabled(thresholdCheckInput) && |m| > 0 && ThresholdReached(summary, m)
              then v == Failed(ThresholdExceeded) && recorded == Some(ThresholdMessage)
              else v == Passed(summary) && recorded == None
  {
    match Classify(filePath, response) {
      case ServiceError(msg) => v := Failed(ResponseError(msg));
      case ScanFailed(id) => v := Failed(ReportFailed(id));
      case MissingCounts => v := Failed(MalformedResponse);
      case Summarised(summary) =>
        var thresholdCheck := ThresholdCheckEnabled(thresholdCheckInput);
        var thresholdMap := GetThresholdMap(critical, high, medium, low);
        var reached := false;
        if thresholdCheck && |thresholdMap| > 0 {
          reached := CheckIfThresholdReached(summary, thresholdMap);
        }
        v := if reached then Failed(ThresholdExceeded) else Passed(summary);
    }
    recorded := if v.Failed? then Some(RecordedError(v.reason)) else None;
  }

  /** With the default thresholds (critical 1, the others 0) and the threshold check on,
      a single critical finding reaches the map, so the step fails; the default check
      input (empty, read as 'false') leaves the check off. */
  lemma DefaultsFailOnOneCritical(filePath: string, response: ScanResponse)
    requires !Truthy(response.errorMessage) && response.status != Some("FAILED")
    requires response.cveCountDetails == Some(CveCounts(Some(1), None, None, None))
    ensures var c := Classify(filePath, response);
            c.Summarised? && ThresholdReached(c.summary, ThresholdMap(None, None, None, None))
    ensures ThresholdCheckEnabled("true") && |ThresholdMap(None, None, None, None)| > 0
    ensures !ThresholdCheckEnabled("")
  {
    var c := Classify(filePath, response);
    assert Reaches(SummaryCount(c.summary, Critical), ThresholdMap(None, None, None, None)[Critical]);
    assert ToLower("true") == "true";
    assert ToLower("false") != "true" by {
      assert ToLower("false")[0] == 'f';
    }
  }

  /** An empty map never reports a breach, whatever the counts. */
  lemma EmptyMapNeverReached(summary: Summary)
    ensures !ThresholdReached(summary, map[])
  {
  }

  /** A non-numeric critical input switches the whole threshold check off. */
  lemma NonNumericCriticalDisablesCheck(summary: Summary, high: Option<Numeric>, medium: Option<Numeric>,
                                        low: Option<Numeric>)
    ensures !ThresholdReached(summary, ThresholdMap(Some(NaN), high, medium, low))
  {
  }
}
