/** What the polling loop of waitForScanCompletion guarantees, and what it does not:
    its bounds, which response ends it, when it times out, and how errors raised inside
    its try block (including a FAILED status and a threshold breach) are swallowed. */
module ApiScanProperties {
  import opened Common
  import opened ApiScan

  /** Attempt `k` (0-based; the counter reads k + 1 after its increment) polls on. */
  predicate Swallows(reportId: string, query: nat -> StatusOutcome, t: Thresholds, failOnThreshold: bool,
                     k: nat, maxAttempts: int)
  {
    AttemptStep(reportId, query(k), t, failOnThreshold, k + 1, maxAttempts) == Continue
  }

  /** A status answer that is neither COMPLETED nor FAILED nor ERROR (QUEUED, RUNNING, ...). */
  predicate InProgress(o: StatusOutcome)
  {
    && o.Answered?
    && FirstOf(o.body).Some?
    && var s := FirstOf(o.body).value.scanStatus;
       s != Some("COMPLETED") && s != Some("FAILED") && s != Some("ERROR")
  }

  /** Polling issues at least as many requests as already counted, never more than the
      budget, and with no budget left it issues none and returns the timeout result. */
  lemma {:induction false} PollBounds(reportId: string, query: nat -> StatusOutcome, t: Thresholds,
                                      failOnThreshold: bool, attempts: nat, maxAttempts: int)
    ensures var (queries, r) := Poll(reportId, query, t, failOnThreshold, attempts, maxAttempts);
            && attempts <= queries
            && (attempts < maxAttempts ==> queries <= maxAttempts)
            && (attempts >= maxAttempts ==>
                  queries == attempts && r == Ok(TimedOut(reportId, Some(ReportsBase + reportId))))
    decreases maxAttempts - attempts
  {
    if attempts < maxAttempts {
      if Swallows(reportId, query, t, failOnThreshold, attempts, maxAttempts) {
        PollBounds(reportId, query, t, failOnThreshold, attempts + 1, maxAttempts);
      }
    }
  }

  /** waitForScanCompletion issues at most `timeoutMinutes * 6` status requests (none for
      a non-positive or NaN budget, in which case it returns the timeout result at once). */
  lemma QueriesWithinBudget(reportId: string, timeoutMinutes: Numeric, query: nat -> StatusOutcome,
                            t: Thresholds, failOnThreshold: bool)
    ensures var maxAttempts := MaxAttempts(timeoutMinutes);
            var (queries, r) := Poll(reportId, query, t, failOnThreshold, 0, maxAttempts);
            && (maxAttempts > 0 ==> queries <= maxAttempts)
            && (maxAttempts <= 0 ==> queries == 0 && r == Ok(TimedOut(reportId, Some(ReportsBase + reportId))))
  {
    PollBounds(reportId, query, t, failOnThreshold, 0, MaxAttempts(timeoutMinutes));
  }

  /** Attempts that poll on do not change the outcome: polling from `lo` is polling from `hi`. */
  lemma {:induction false} SkipSwallowed(reportId: string, query: nat -> StatusOutcome, t: Thresholds,
                                         failOnThreshold: bool, lo: nat, hi: nat, maxAttempts: int)
    requires lo <= hi <= maxAttempts
    requires forall k :: lo <= k < hi ==> Swallows(reportId, query, t, failOnThreshold, k, maxAttempts)
    ensures Poll(reportId, query, t, failOnThreshold, lo, maxAttempts)
         == Poll(reportId, query, t, failOnThreshold, hi, maxAttempts)
    decreases hi - lo
  {
    if lo < hi {
      assert Swallows(reportId, query, t, failOnThreshold, lo, maxAttempts);
      SkipSwallowed(reportId, query, t, failOnThreshold, lo + 1, hi, maxAttempts);
    }
  }

  /** The first attempt that does not poll on decides the outcome, however many attempts
      polled on before it: its own result after exactly n + 1 requests. */
  lemma FirstStopDecides(reportId: string, query: nat -> StatusOutcome, t: Thresholds,
                         failOnThreshold: bool, n: nat, maxAttempts: int)
    requires n < maxAttempts
    requires forall k :: 0 <= k < n ==> Swallows(reportId, query, t, failOnThreshold, k, maxAttempts)
    requires AttemptStep(reportId, query(n), t, failOnThreshold, n + 1, maxAttempts).Stop?
    ensures Poll(reportId, query, t, failOnThreshold, 0, maxAttempts)
         == (n + 1, AttemptStep(reportId, query(n), t, failOnThreshold, n + 1, maxAttempts).result)
  {
    SkipSwallowed(reportId, query, t, failOnThreshold, 0, n, maxAttempts);
  }

  /** Polling returns the timeout result exactly when every attempt of the budget polled
      on; it then issued the whole budget of requests. It never times out after an
      attempt that stopped it. */
  lemma {:induction false} TimedOutIffAllSwallowed(reportId: string, query: nat -> StatusOutcome,
                                                    t: Thresholds, failOnThreshold: bool,
                                                    attempts: nat, maxAttempts: int)
    ensures var (queries, r) := Poll(reportId, query, t, failOnThreshold, attempts, maxAttempts);
            (r.Ok? && r.value.TimedOut?)
              <==> forall k :: attempts <= k < maxAttempts ==> Swallows(reportId, query, t, failOnThreshold, k, maxAttempts)
    ensures var (queries, r) := Poll(reportId, query, t, failOnThreshold, attempts, maxAttempts);
            r.Ok? && r.value.TimedOut? ==> queries == (if attempts < maxAttempts then maxAttempts else attempts)
    decreases maxAttempts - attempts
  {
    if attempts < maxAttempts {
      var step := AttemptStep(reportId, query(attempts), t, failOnThreshold, attempts + 1, maxAttempts);
      if step.Continue? {
        TimedOutIffAllSwallowed(reportId, query, t, failOnThreshold, attempts + 1, maxAttempts);
        PollBounds(reportId, query, t, failOnThreshold, attempts + 1, maxAttempts);
      } else {
        assert !Swallows(reportId, query, t, failOnThreshold, attempts, maxAttempts);
        assert step.result.Ok? ==> step.result.value.Completed?;
      }
    }
  }

  /** A QUEUED or RUNNING answer always polls on. */
  lemma InProgressSwallowed(reportId: string, query: nat -> StatusOutcome, t: Thresholds,
                            failOnThreshold: bool, k: nat, maxAttempts: int)
    requires InProgress(query(k))
    ensures Swallows(reportId, query, t, failOnThreshold, k, maxAttempts)
  {
  }

  /** A COMPLETED answer whose counts pass the threshold check ends polling with status
      completed and the counts of that answer, whatever came before it as long as it was
      polled on: QUEUED/RUNNING answers, swallowed request errors, FAILED/ERROR statuses
      or threshold breaches. */
  lemma FirstCompletedWins(reportId: string, query: nat -> StatusOutcome, t: Thresholds,
                           failOnThreshold: bool, n: nat, maxAttempts: int)
    requires n < maxAttempts
    requires forall k :: 0 <= k < n ==> Swallows(reportId, query, t, failOnThreshold, k, maxAttempts)
    requires query(n).Answered? && FirstOf(query(n).body).Some?
    requires FirstOf(query(n).body).value.scanStatus == Some("COMPLETED")
    requires !(failOnThreshold && AnyApiBreach(SummaryOf(FirstOf(query(n).body).value), t))
    ensures var rep := FirstOf(query(n).body).value;
            Poll(reportId, query, t, failOnThreshold, 0, maxAttempts)
            == (n + 1, Ok(Completed(reportId, Some(DashboardBase + reportId),
                                    ApiSummary(rep.critical, rep.high, rep.medium, rep.low, rep.total),
                                    rep.applicationName, rep.assetsCount, rep.scanDateTime)))
  {
    var rep := FirstOf(query(n).body).value;
    assert AnyApiBreach(ApiSummary(rep.critical, rep.high, rep.medium, rep.low, None), t)
        == AnyApiBreach(SummaryOf(rep), t) by {
      forall s ensures ApiBreaches(ApiSummary(rep.critical, rep.high, rep.medium, rep.low, None), t, s)
                    == ApiBreaches(SummaryOf(rep), t, s) {
      }
    }
    FirstStopDecides(reportId, query, t, failOnThreshold, n, maxAttempts);
  }

  /** An error raised in the try block of attempt k (0-based) other than a 404 -- a
      failed request, a FAILED or ERROR status, or a threshold breach -- is swallowed
      exactly when the counter k + 1 is below maxAttempts - 1; otherwise it is rethrown. */
  lemma ErrorSwallowedIff(reportId: string, outcome: StatusOutcome, t: Thresholds, failOnThreshold: bool,
                          k: nat, maxAttempts: int)
    requires TryStatus(reportId, outcome, t, failOnThreshold).Err?
    requires !IsNotFound(TryStatus(reportId, outcome, t, failOnThreshold).error)
    ensures var step := AttemptStep(reportId, outcome, t, failOnThreshold, k + 1, maxAttempts);
            && (step.Continue? <==> k + 1 < maxAttempts - 1)
            && (step.Stop? ==> step.result == Err(TryStatus(reportId, outcome, t, failOnThreshold).error))
  {
  }

  /** A 404 on any attempt ends polling with "Scan report ... not found", whatever budget remains. */
  lemma NotFoundAborts(reportId: string, query: nat -> StatusOutcome, t: Thresholds,
                       failOnThreshold: bool, n: nat, maxAttempts: int)
    requires n < maxAttempts
    requires forall k :: 0 <= k < n ==> Swallows(reportId, query, t, failOnThreshold, k, maxAttempts)
    requires query(n).Failed? && IsNotFound(query(n).error)
    ensures Poll(reportId, query, t, failOnThreshold, 0, maxAttempts) == (n + 1, Err(NotFound(reportId)))
  {
    FirstStopDecides(reportId, query, t, failOnThreshold, n, maxAttempts);
  }

  /** As written, the retry guard runs one attempt short: a failed request on the
      second-to-last attempt is rethrown, so polling ends after maxAttempts - 1 requests
      although one attempt of the budget remains. */
  lemma PenultimateErrorRethrown(reportId: string, query: nat -> StatusOutcome, t: Thresholds,
                                 failOnThreshold: bool, maxAttempts: int)
    requires maxAttempts >= 2
    requires forall k :: 0 <= k < maxAttempts - 2 ==> Swallows(reportId, query, t, failOnThreshold, k, maxAttempts)
    requires query(maxAttempts - 2).Failed? && !IsNotFound(query(maxAttempts - 2).error)
    ensures Poll(reportId, query, t, failOnThreshold, 0, maxAttempts)
         == (maxAttempts - 1, Err(query(maxAttempts - 2).error))
  {
    FirstStopDecides(reportId, query, t, failOnThreshold, maxAttempts - 2, maxAttempts);
  }

  /** As written, a FAILED status early in the budget does not end the scan: the next
      answer is polled, and a COMPLETED one then wins. */
  lemma FailedStatusThenCompleted(reportId: string, query: nat -> StatusOutcome)
    requires query(0) == Answered(Single(StatusReport(Some("FAILED"), None, None, None, None, None, None, None, None)))
    requires query(1) == Answered(Single(StatusReport(Some("COMPLETED"), None, None, None, None, None, None, None, None)))
    ensures Poll(reportId, query, Thresholds(None, None, None, None), true, 0, 6)
         == (2, Ok(Completed(reportId, Some(DashboardBase + reportId), ApiSummary(None, None, None, None, None),
                             None, None, None)))
  {
    var t := Thresholds(None, None, None, None);
    var none := ApiSummary(None, None, None, None, None);
    assert !AnyApiBreach(none, t) by {
      forall s ensures !ApiBreaches(none, t, s) { }
    }
    assert Swallows(reportId, query, t, true, 0, 6);
    FirstStopDecides(reportId, query, t, true, 1, 6);
  }

  /** As written, a threshold breach reported inside the loop is swallowed like any other
      error while budget remains: the same COMPLETED answer is asked for again. */
  lemma BreachInLoopSwallowed(reportId: string, outcome: StatusOutcome, t: Thresholds, k: nat, maxAttempts: int)
    requires outcome.Answered? && FirstOf(outcome.body).Some?
    requires FirstOf(outcome.body).value.scanStatus == Some("COMPLETED")
    requires AnyApiBreach(SummaryOf(FirstOf(outcome.body).value), t)
    requires k + 1 < maxAttempts - 1
    ensures AttemptStep(reportId, outcome, t, true, k + 1, maxAttempts) == Continue
  {
    var rep := FirstOf(outcome.body).value;
    var s :| ApiBreaches(SummaryOf(rep), t, s);
    assert ApiBreaches(ApiSummary(rep.critical, rep.high, rep.medium, rep.low, None), t, s);
  }

  function Status(s: string): StatusOutcome
  {
    Answered(Many([StatusReport(Some(s), Some(0), Some(1), Some(2), Some(3), Some(6), None, None, None)]))
  }

  /** QUEUED, RUNNING, RUNNING, COMPLETED with a one-minute budget (six attempts, one
      every ten seconds): the COMPLETED answer's counts are returned after exactly four
      requests. */
  lemma ScenarioCompletesAfterFourQueries(reportId: string, query: nat -> StatusOutcome)
    requires query(0) == Status("QUEUED") && query(1) == Status("RUNNING")
    requires query(2) == Status("RUNNING") && query(3) == Status("COMPLETED")
    ensures Poll(reportId, query, Thresholds(None, None, None, None), true, 0, MaxAttempts(Int(1)))
         == (4, Ok(Completed(reportId, Some(DashboardBase + reportId),
                             ApiSummary(Some(0), Some(1), Some(2), Some(3), Some(6)), None, None, None)))
  {
    var t := Thresholds(None, None, None, None);
    var rep := FirstOf(query(3).body).value;
    assert !AnyApiBreach(SummaryOf(rep), t) by {
      forall s ensures !ApiBreaches(SummaryOf(rep), t, s) { }
    }
    forall k | 0 <= k < 3 ensures Swallows(reportId, query, t, true, k, MaxAttempts(Int(1))) {
      InProgressSwallowed(reportId, query, t, true, k, MaxAttempts(Int(1)));
    }
    FirstCompletedWins(reportId, query, t, true, 3, MaxAttempts(Int(1)));
  }

  /** Answers that stay in progress for the whole budget end in the timeout result, not
      an error, after the whole budget of requests. */
  lemma AlwaysRunningTimesOut(reportId: string, query: nat -> StatusOutcome, t: Thresholds,
                              failOnThreshold: bool, maxAttempts: int)
    requires maxAttempts > 0
    requires forall k :: 0 <= k < maxAttempts ==> InProgress(query(k))
    ensures Poll(reportId, query, t, failOnThreshold, 0, maxAttempts)
         == (maxAttempts, Ok(TimedOut(reportId, Some(ReportsBase + reportId))))
  {
    forall k | 0 <= k < maxAttempts ensures Swallows(reportId, query, t, failOnThreshold, k, maxAttempts) {
      InProgressSwallowed(reportId, query, t, failOnThreshold, k, maxAttempts);
    }
    SkipSwallowed(reportId, query, t, failOnThreshold, 0, maxAttempts, maxAttempts);
  }

  /** A count equal to its threshold does not breach (the comparison is strict), and an
      empty input stands for 999. */
  lemma EqualCountDoesNotBreach(summary: ApiSummary, t: Thresholds, s: Severity)
    requires InputOf(t, s) == Some(Int(OrZero(CountOf(summary, s)))) || (InputOf(t, s).None? && OrZero(CountOf(summary, s)) == 999)
    ensures !ApiBreaches(summary, t, s)
  {
  }

  /** Asynchronous mode issues only the submission request and returns the handle,
      with a report link exactly when the report id is known. */
  lemma AsyncNeverPolls(timeoutMinutes: Numeric, submission: SubmitOutcome, query: nat -> StatusOutcome,
                        t: Thresholds, failOnThreshold: bool)
    requires submission.Accepted? && FirstOf(submission.body).Some?
    ensures var (requests, r) := Initiated(DefaultScanMode, timeoutMinutes, submission, query, t, failOnThreshold);
            var s := FirstOf(submission.body).value;
            && requests == 1 && r.Ok? && r.value.Triggered?
            && r.value.reportId == FirstTruthy([s.uuid, s.reportId, s.id], "unknown")
            && (r.value.reportUrl.Some? <==> r.value.reportId != "unknown")
  {
  }

  /** Any other mode polls: the requests are the submission plus the status queries, and
      an error from polling goes through the submission error mapping. */
  lemma OtherModesPoll(scanMode: string, timeoutMinutes: Numeric, submission: SubmitOutcome,
                       query: nat -> StatusOutcome, t: Thresholds, failOnThreshold: bool)
    requires scanMode != DefaultScanMode
    requires submission.Accepted? && FirstOf(submission.body).Some?
    ensures var id := ReportIdOf(FirstOf(submission.body).value);
            var (queries, polled) := Poll(id, query, t, failOnThreshold, 0, MaxAttempts(timeoutMinutes));
            Initiated(scanMode, timeoutMinutes, submission, query, t, failOnThreshold)
              == (1 + queries, if polled.Ok? then polled else Err(SubmissionFailure(polled.error)))
  {
  }

  /** A request that fails with a network error early in the budget is retried, and the
      COMPLETED answer that follows is returned after two requests. */
  lemma NetworkErrorThenCompleted(reportId: string, query: nat -> StatusOutcome)
    requires query(0) == Failed(JsError("socket hang up", None, true))
    requires query(1) == Answered(Single(StatusReport(Some("COMPLETED"), Some(2), None, None, None, None, None, None, None)))
    ensures Poll(reportId, query, Thresholds(None, None, None, None), true, 0, 6)
         == (2, Ok(Completed(reportId, Some(DashboardBase + reportId), ApiSummary(Some(2), None, None, None, None),
                             None, None, None)))
  {
    var t := Thresholds(None, None, None, None);
    var rep := FirstOf(query(1).body).value;
    assert !AnyApiBreach(SummaryOf(rep), t) by {
      forall s ensures !ApiBreaches(SummaryOf(rep), t, s) { }
    }
    assert Swallows(reportId, query, t, true, 0, 6);
    FirstCompletedWins(reportId, query, t, true, 1, 6);
  }
}
