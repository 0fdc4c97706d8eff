/**
 * The browser test-session recorder: a manager that is entered and exited
 * around a test, numbers the screenshots it is asked to take, keeps the
 * console log, remembers a failure message, and on exit writes an HTML and a
 * Markdown report under the next free report number.
 *
 * The browser is not modelled: a screenshot is a boolean saying whether it
 * succeeded, the page URL and the clock are parameters, and the directory
 * listing of the reports folder is a sequence of names.
 */
module TestSession {
  import opened Wrappers
  import opened Text

  datatype Status = Pending | Running | Passed | Failed

  /** One recorded step; `timestamp` stands for the ISO time string. */
  datatype Step = Step(num: nat, name: string, filename: string, url: string, timestamp: nat, isFailure: bool)

  datatype ConsoleLog = ConsoleLog(kind: string, text: string, timestamp: nat)

  /** Sub-directory of the test directory that receives screenshots. */
  const ScreenshotsFolder := "screenshots"
  /** Sub-directory of the test directory that receives reports. */
  const ReportsFolder := "test-reports"
  /** Name of the screenshot taken when the test body raises. */
  const ErrorCaptureName := "錯誤"

  /** `f"{counter:02d}_{name}.png"`. */
  function ScreenshotName(counter: nat, name: string): string {
    TwoDigits(counter) + "_" + name + ".png"
  }

  /** The number a screenshot name starts with, as a reader of the folder recovers it. */
  function LeadingNumber(f: string): nat {
    DigitsValue(LeadingDigits(f))
  }

  /** A screenshot name starts with its step number, then `_`, and ends in `.png`. */
  lemma ScreenshotNameParts(counter: nat, name: string)
    ensures LeadingNumber(ScreenshotName(counter, name)) == counter
    ensures var f := ScreenshotName(counter, name);
      |f| >= 7 && f[|LeadingDigits(f)|] == '_' && f[|f| - 4..] == ".png"
  {
    var d := TwoDigits(counter);
    var f := ScreenshotName(counter, name);
    assert f == d + ("_" + name + ".png");
    LeadingDigitsOfConcat(d, "_" + name + ".png");
  }

  /** Screenshots of steps with different numbers never overwrite each other. */
  lemma ScreenshotNamesDistinct(c1: nat, n1: string, c2: nat, n2: string)
    requires c1 != c2
    ensures ScreenshotName(c1, n1) != ScreenshotName(c2, n2)
  {
    ScreenshotNameParts(c1, n1);
    ScreenshotNameParts(c2, n2);
  }

  /**
   * Step numbers are strictly increasing, lie in 1..counter, and each file
   * name is the one `capture` derives from the number and the step name.
   */
  ghost predicate Numbered(steps: seq<Step>, counter: nat) {
    (forall i :: 0 <= i < |steps| ==> 1 <= steps[i].num <= counter)
    && (forall i, j :: 0 <= i < j < |steps| ==> steps[i].num < steps[j].num)
    && (forall i :: 0 <= i < |steps| ==> steps[i].filename == ScreenshotName(steps[i].num, steps[i].name))
  }

  /** A capture keeps the numbering whether or not it records its step. */
  lemma NumberedExtend(steps: seq<Step>, counter: nat, name: string, url: string, now: nat, isFailure: bool)
    requires Numbered(steps, counter)
    ensures Numbered(steps, counter + 1)
    ensures Numbered(steps + [Step(counter + 1, name, ScreenshotName(counter + 1, name), url, now, isFailure)], counter + 1)
  {
  }

  lemma {:induction false} NumberedLowerBound(steps: seq<Step>, counter: nat, i: nat)
    requires Numbered(steps, counter) && i < |steps|
    ensures steps[i].num >= i + 1
  {
    if i > 0 {
      NumberedLowerBound(steps, counter, i - 1);
    }
  }

  lemma {:induction false} NumberedUpperBound(steps: seq<Step>, counter: nat, i: nat)
    requires Numbered(steps, counter) && i < |steps|
    ensures steps[i].num + (|steps| - 1 - i) <= counter
    decreases |steps| - i
  {
    if i < |steps| - 1 {
      NumberedUpperBound(steps, counter, i + 1);
    }
  }

  /** There are never more steps than the counter says. */
  lemma StepsWithinCounter(steps: seq<Step>, counter: nat)
    requires Numbered(steps, counter)
    ensures |steps| <= counter
  {
    if |steps| > 0 {
      NumberedUpperBound(steps, counter, 0);
    }
  }

  /** When every screenshot succeeded (counter = |steps|) the steps are numbered 1..N in order. */
  lemma ConsecutiveNumbers(steps: seq<Step>, counter: nat)
    requires Numbered(steps, counter) && counter == |steps|
    ensures forall i :: 0 <= i < |steps| ==> steps[i].num == i + 1
  {
    forall i | 0 <= i < |steps| ensures steps[i].num == i + 1 {
      NumberedLowerBound(steps, counter, i);
      NumberedUpperBound(steps, counter, i);
    }
  }

  /** No two recorded steps share a screenshot file. */
  lemma DistinctScreenshotFiles(steps: seq<Step>, counter: nat)
    requires Numbered(steps, counter)
    ensures forall i, j :: 0 <= i < j < |steps| ==> steps[i].filename != steps[j].filename
  {
    forall i, j | 0 <= i < j < |steps| ensures steps[i].filename != steps[j].filename {
      ScreenshotNamesDistinct(steps[i].num, steps[i].name, steps[j].num, steps[j].name);
    }
  }

  // ---------------------------------------------------------------------
  // Report numbering

  /**
   * The number in a report file name matching `^(\d+)_result\.(html|md)$`,
   * where Python's `$` also accepts one trailing newline.
   */
  function ParseReportName(f: string): (r: Option<nat>)
    ensures r.Some? <==> LeadingDigits(f) != [] && f[|LeadingDigits(f)|..] in ReportSuffixes
    ensures r.Some? ==> r.value == LeadingNumber(f)
  {
    var d := LeadingDigits(f);
    var rest := f[|d|..];
    if d != [] && rest in ReportSuffixes
    then Some(DigitsValue(d)) else None
  }

  /** What may follow the digits of a report name: the extension, and for `$` one optional newline. */
  const ReportSuffixes: set<string> := {"_result.html", "_result.md", "_result.html\n", "_result.md\n"}

  /** `f"{n:02d}_result.{ext}"`. */
  function ReportName(n: nat, ext: string): string {
    TwoDigits(n) + "_result." + ext
  }

  /** The two files a report run writes are recognised, with their number, by the next run. */
  lemma ReportNameRoundTrip(n: nat)
    ensures ParseReportName(ReportName(n, "html")) == Some(n)
    ensures ParseReportName(ReportName(n, "md")) == Some(n)
  {
    var d := TwoDigits(n);
    assert ReportName(n, "html") == d + "_result.html";
    assert ReportName(n, "md") == d + "_result.md";
    LeadingDigitsOfConcat(d, "_result.html");
    LeadingDigitsOfConcat(d, "_result.md");
    assert (d + "_result.html")[|d|..] == "_result.html";
    assert (d + "_result.md")[|d|..] == "_result.md";
  }

  /** The largest number among the report names in `listing`, 0 when there is none. */
  function MaxReportNumber(listing: seq<string>): nat {
    if listing == [] then 0
    else
      var m := MaxReportNumber(listing[..|listing| - 1]);
      match ParseReportName(listing[|listing| - 1])
      case Some(k) => if k > m then k else m
      case None => m
  }

  lemma {:induction false} MaxReportNumberBounds(listing: seq<string>)
    ensures forall i :: 0 <= i < |listing| && ParseReportName(listing[i]).Some? ==>
      ParseReportName(listing[i]).value <= MaxReportNumber(listing)
    ensures MaxReportNumber(listing) == 0 ||
      exists i :: 0 <= i < |listing| && ParseReportName(listing[i]) == Some(MaxReportNumber(listing))
  {
    if listing != [] {
      var init := listing[..|listing| - 1];
      MaxReportNumberBounds(init);
      if MaxReportNumber(init) != 0 && MaxReportNumber(listing) == MaxReportNumber(init) {
        var i :| 0 <= i < |init| && ParseReportName(init[i]) == Some(MaxReportNumber(init));
        assert listing[i] == init[i];
      }
      if MaxReportNumber(listing) != MaxReportNumber(init) {
        assert ParseReportName(listing[|listing| - 1]) == Some(MaxReportNumber(listing));
      }
    }
  }

  /**
   * `_get_next_report_number`: one more than the largest report number in the
   * folder, so a number is never reused even when earlier ones are missing.
   */
  method NextReportNumber(listing: seq<string>) returns (n: nat)
    ensures n == MaxReportNumber(listing) + 1
    ensures forall i :: 0 <= i < |listing| && ParseReportName(listing[i]).Some? ==>
      ParseReportName(listing[i]).value < n
    ensures n == 1 || exists i :: 0 <= i < |listing| && ParseReportName(listing[i]) == Some(n - 1)
  {
    var best := 0;
    var i := 0;
    while i < |listing|
      invariant 0 <= i <= |listing|
      invariant best == MaxReportNumber(listing[..i])
    {
      assert listing[..i + 1][..i] == listing[..i];
      match ParseReportName(listing[i]) {
        case Some(k) =>
          if k > best { best := k; }
        case None =>
      }
      i := i + 1;
    }
    assert listing[..i] == listing;
    MaxReportNumberBounds(listing);
    n := best + 1;
  }

  /** After a run writes its two reports, the following run takes the next number. */
  lemma NextRunTakesNextNumber(listing: seq<string>, html: string, md: string)
    requires html == ReportName(MaxReportNumber(listing) + 1, "html")
    requires md == ReportName(MaxReportNumber(listing) + 1, "md")
    ensures MaxReportNumber(listing + [html, md]) + 1 == (MaxReportNumber(listing) + 1) + 1
  {
    ReportNameRoundTrip(MaxReportNumber(listing) + 1);
    MaxAfterTwoReports(listing, html, md, MaxReportNumber(listing) + 1);
  }

  lemma MaxAfterTwoReports(listing: seq<string>, html: string, md: string, n: nat)
    requires n == MaxReportNumber(listing) + 1
    requires ParseReportName(html) == Some(n) && ParseReportName(md) == Some(n)
    ensures MaxReportNumber(listing + [html, md]) == n
  {
    MaxReportNumberAppend(listing, html);
    MaxReportNumberAppend(listing + [html], md);
    assert listing + [html, md] == listing + [html] + [md];
  }

  lemma MaxReportNumberAppend(listing: seq<string>, f: string)
    ensures ParseReportName(f).None? ==> MaxReportNumber(listing + [f]) == MaxReportNumber(listing)
    ensures ParseReportName(f).Some? ==>
      MaxReportNumber(listing + [f]) ==
        (if ParseReportName(f).value > MaxReportNumber(listing) then ParseReportName(f).value else MaxReportNumber(listing))
  {
    assert (listing + [f])[..|listing|] == listing;
  }

  /** Gaps are not filled: with reports 1, 2 and 5 on disk the next one is 6. */
  lemma GapsAreNotReused()
    ensures MaxReportNumber([ReportName(1, "html"), ReportName(2, "md"), ReportName(5, "html")]) + 1 == 6
  {
    var a, b, c := ReportName(1, "html"), ReportName(2, "md"), ReportName(5, "html");
    ReportNameRoundTrip(1);
    ReportNameRoundTrip(2);
    ReportNameRoundTrip(5);
    MaxReportNumberAppend([], a);
    assert [] + [a] == [a];
    MaxReportNumberAppend([a], b);
    assert [a] + [b] == [a, b];
    MaxReportNumberAppend([a, b], c);
    assert [a, b] + [c] == [a, b, c];
  }

  // ---------------------------------------------------------------------
  // Report structure

  /** How one step appears in either report. */
  datatype StepEntry = StepEntry(num: nat, name: string, url: string, timestamp: nat, failed: bool, image: string)

  function EntryOf(s: Step): StepEntry {
    StepEntry(s.num, s.name, s.url, s.timestamp, s.isFailure, "../screenshots/" + s.filename)
  }

  /** A console line of the HTML report; `cssClass` is `console-error` or `console-log`. */
  datatype HtmlLog = HtmlLog(cssClass: string, kind: string, text: string)

  datatype MarkdownLog = MarkdownLog(kind: string, text: string)

  /** The HTML report, section by section: header, four summary cards, error, steps, console. */
  datatype HtmlReport = HtmlReport(
    number: nat, testName: string, passed: bool, duration: int,
    totalSteps: nat, succeededSteps: nat, failedSteps: nat,
    errorSection: Option<string>,
    steps: seq<StepEntry>, noStepsPlaceholder: bool,
    logs: seq<HtmlLog>, noLogsPlaceholder: bool)

  /** The Markdown report: title, summary table, error, steps, console. */
  datatype MarkdownReport = MarkdownReport(
    number: nat, testName: string, passed: bool, duration: int,
    totalSteps: nat, failedSteps: nat,
    errorSection: Option<string>,
    steps: seq<StepEntry>, noStepsPlaceholder: bool,
    logs: seq<MarkdownLog>, noLogsPlaceholder: bool)

  /** Number of steps recorded as failures. */
  function CountFailed(steps: seq<Step>): (r: nat)
    ensures r <= |steps|
  {
    if steps == [] then 0
    else CountFailed(steps[..|steps| - 1]) + (if steps[|steps| - 1].isFailure then 1 else 0)
  }

  /** Number of steps recorded as successes. */
  function CountSucceeded(steps: seq<Step>): nat {
    if steps == [] then 0
    else CountSucceeded(steps[..|steps| - 1]) + (if steps[|steps| - 1].isFailure then 0 else 1)
  }

  /** The success and failure cards of a report add up to its step total. */
  lemma {:induction false} CountsPartitionSteps(steps: seq<Step>)
    ensures CountSucceeded(steps) + CountFailed(steps) == |steps|
  {
    if steps != [] {
      CountsPartitionSteps(steps[..|steps| - 1]);
    }
  }

  /** The message shown in the error section; an absent or empty message shows none. */
  function ErrorSection(message: Option<string>): (r: Option<string>)
    ensures r.Some? <==> message.Some? && message.value != ""
    ensures r.Some? ==> r == message
  {
    if message.Some? && message.value != "" then message else None
  }

  /** The files and contents one `__exit__` writes. */
  datatype ReportPair = ReportPair(htmlPath: string, markdownPath: string, html: HtmlReport, markdown: MarkdownReport)

  class TestManager {
    var headless: bool
    var viewportWidth: int
    var viewportHeight: int
    var status: Status
    var stepCounter: nat
    var steps: seq<Step>
    var consoleLogs: seq<ConsoleLog>
    var errorMessage: Option<string>
    var startTime: Option<nat>
    var endTime: Option<nat>
    /** The directory of the test script, known once the manager is entered. */
    var testDir: Option<string>

    ghost predicate Valid()
      reads this
    {
      Numbered(steps, stepCounter)
      && (testDir.Some? ==> status != Pending && startTime.Some?)
      && (status == Running || status == Passed ==> testDir.Some?)
    }

    constructor (headless: bool, viewportWidth: int, viewportHeight: int)
      ensures Valid()
      ensures this.headless == headless && this.viewportWidth == viewportWidth
      ensures this.viewportHeight == viewportHeight
      ensures status == Pending && stepCounter == 0 && steps == [] && consoleLogs == []
      ensures errorMessage == None && startTime == None && endTime == None && testDir == None
    {
      this.headless := headless;
      this.viewportWidth := viewportWidth;
      this.viewportHeight := viewportHeight;
      status := Pending;
      stepCounter := 0;
      steps := [];
      consoleLogs := [];
      errorMessage := None;
      startTime := None;
      endTime := None;
      testDir := None;
    }

    function ScreenshotsDir(): string
      reads this
      requires testDir.Some?
    {
      JoinPath(testDir.value, ScreenshotsFolder)
    }

    function ReportsDir(): string
      reads this
      requires testDir.Some?
    {
      JoinPath(testDir.value, ReportsFolder)
    }

    /** `__enter__`: records the start time and the caller's directory, and starts running. */
    method Enter(now: nat, callerDir: string)
      requires Valid()
      modifies this
      ensures Valid()
      ensures status == Running && startTime == Some(now) && testDir == Some(callerDir)
      ensures stepCounter == old(stepCounter) && steps == old(steps) && consoleLogs == old(consoleLogs)
      ensures errorMessage == old(errorMessage) && endTime == old(endTime)
      ensures headless == old(headless) && viewportWidth == old(viewportWidth)
      ensures viewportHeight == old(viewportHeight)
    {
      startTime := Some(now);
      status := Running;
      testDir := Some(callerDir);
    }

    /** The console listener: appends one log line. */
    method OnConsole(kind: string, text: string, now: nat)
      requires Valid()
      modifies this`consoleLogs
      ensures Valid()
      ensures consoleLogs == old(consoleLogs) + [ConsoleLog(kind, text, now)]
    {
      consoleLogs := consoleLogs + [ConsoleLog(kind, text, now)];
    }

    /**
     * `capture`: the counter moves first; the step is recorded only if the
     * screenshot can be written (the manager was entered and `shotOk`).
     * Otherwise the call raises, modelled as `None`, and the counter stays
     * one ahead of the steps.
     */
    method Capture(name: string, isFailure: bool, shotOk: bool, url: string, now: nat)
      returns (path: Option<string>)
      requires Valid()
      modifies this`stepCounter, this`steps
      ensures Valid()
      ensures stepCounter == old(stepCounter) + 1
      ensures path.Some? <==> testDir.Some? && shotOk
      ensures path.Some? ==>
        steps == old(steps) + [Step(stepCounter, name, ScreenshotName(stepCounter, name), url, now, isFailure)]
        && path.value == JoinPath(ScreenshotsDir(), ScreenshotName(stepCounter, name))
      ensures path.None? ==> steps == old(steps)
    {
      NumberedExtend(steps, stepCounter, name, url, now, isFailure);
      stepCounter := stepCounter + 1;
      var filename := ScreenshotName(stepCounter, name);
      if testDir.None? || !shotOk {
        path := None;
        return;
      }
      steps := steps + [Step(stepCounter, name, filename, url, now, isFailure)];
      path := Some(JoinPath(ScreenshotsDir(), filename));
    }

    /** `fail`: marks the test failed; the latest message wins and no step is added. */
    method Fail(message: string)
      requires Valid()
      modifies this`status, this`errorMessage
      ensures Valid()
      ensures status == Failed && errorMessage == Some(message)
    {
      status := Failed;
      errorMessage := Some(message);
    }

    /** `_generate_html`, section by section. */
    method GenerateHtml(testName: string, duration: int, number: nat) returns (h: HtmlReport)
      ensures h.number == number && h.testName == testName && h.duration == duration
      ensures h.passed <==> status == Passed
      ensures h.totalSteps == |steps| && h.failedSteps == CountFailed(steps)
      ensures h.succeededSteps == CountSucceeded(steps)
      ensures h.errorSection == ErrorSection(errorMessage)
      ensures |h.steps| == |steps| && forall i :: 0 <= i < |steps| ==> h.steps[i] == EntryOf(steps[i])
      ensures h.noStepsPlaceholder <==> steps == []
      ensures |h.logs| == |consoleLogs|
      ensures forall i :: 0 <= i < |consoleLogs| ==> h.logs[i] == HtmlLog(
        if consoleLogs[i].kind == "error" then "console-error" else "console-log",
        consoleLogs[i].kind, consoleLogs[i].text)
      ensures h.noLogsPlaceholder <==> consoleLogs == []
    {
      var entries: seq<StepEntry> := [];
      var failed, succeeded := 0, 0;
      var i := 0;
      while i < |steps|
        invariant 0 <= i <= |steps|
        invariant |entries| == i && forall k :: 0 <= k < i ==> entries[k] == EntryOf(steps[k])
        invariant failed == CountFailed(steps[..i]) && succeeded == CountSucceeded(steps[..i])
      {
        assert steps[..i + 1][..i] == steps[..i];
        entries := entries + [EntryOf(steps[i])];
        if steps[i].isFailure { failed := failed + 1; } else { succeeded := succeeded + 1; }
        i := i + 1;
      }
      assert steps[..i] == steps;
      var logs: seq<HtmlLog> := [];
      var j := 0;
      while j < |consoleLogs|
        invariant 0 <= j <= |consoleLogs|
        invariant |logs| == j
        invariant forall k :: 0 <= k < j ==> logs[k] == HtmlLog(
          if consoleLogs[k].kind == "error" then "console-error" else "console-log",
          consoleLogs[k].kind, consoleLogs[k].text)
      {
        var log := consoleLogs[j];
        var cssClass := if log.kind == "error" then "console-error" else "console-log";
        logs := logs + [HtmlLog(cssClass, log.kind, log.text)];
        j := j + 1;
      }
      h := HtmlReport(number, testName, status == Passed, duration,
        |steps|, succeeded, failed, ErrorSection(errorMessage),
        entries, entries == [], logs, logs == []);
    }

    /** `_generate_markdown`, section by section. */
    method GenerateMarkdown(testName: string, duration: int, number: nat) returns (m: MarkdownReport)
      ensures m.number == number && m.testName == testName && m.duration == duration
      ensures m.passed <==> status == Passed
      ensures m.totalSteps == |steps| && m.failedSteps == CountFailed(steps)
      ensures m.errorSection == ErrorSection(errorMessage)
      ensures |m.steps| == |steps| && forall i :: 0 <= i < |steps| ==> m.steps[i] == EntryOf(steps[i])
      ensures m.noStepsPlaceholder <==> steps == []
      ensures |m.logs| == |consoleLogs|
      ensures forall i :: 0 <= i < |consoleLogs| ==>
        m.logs[i] == MarkdownLog(consoleLogs[i].kind, consoleLogs[i].text)
      ensures m.noLogsPlaceholder <==> consoleLogs == []
    {
      var entries: seq<StepEntry> := [];
      var failed := 0;
      var i := 0;
      while i < |steps|
        invariant 0 <= i <= |steps|
        invariant |entries| == i && forall k :: 0 <= k < i ==> entries[k] == EntryOf(steps[k])
        invariant failed == CountFailed(steps[..i])
      {
        assert steps[..i + 1][..i] == steps[..i];
        entries := entries + [EntryOf(steps[i])];
        if steps[i].isFailure { failed := failed + 1; }
        i := i + 1;
      }
      assert steps[..i] == steps;
      var logs: seq<MarkdownLog> := [];
      var j := 0;
      while j < |consoleLogs|
        invariant 0 <= j <= |consoleLogs|
        invariant |logs| == j
        invariant forall k :: 0 <= k < j ==> logs[k] == MarkdownLog(consoleLogs[k].kind, consoleLogs[k].text)
      {
        logs := logs + [MarkdownLog(consoleLogs[j].kind, consoleLogs[j].text)];
        j := j + 1;
      }
      m := MarkdownReport(number, testName, status == Passed, duration,
        |steps|, failed, ErrorSection(errorMessage),
        entries, entries == [], logs, logs == []);
    }

    /**
     * `__exit__`: resolves the final status, writes both reports under the
     * next free number of the reports folder (whose names are `listing`),
     * and never suppresses the exception. `exception` is the text of the
     * exception that ended the body, if any; the diagnostic screenshot it
     * triggers may fail without effect.
     */
    method Exit(exception: Option<string>, now: nat, shotOk: bool, url: string, listing: seq<string>)
      returns (suppress: bool, reports: ReportPair)
      requires Valid() && testDir.Some?
      modifies this`status, this`errorMessage, this`endTime, this`stepCounter, this`steps
      ensures Valid()
      ensures !suppress
      ensures endTime == Some(now)
      ensures status == Passed || status == Failed
      ensures exception.Some? ==> status == Failed && errorMessage == exception
      ensures exception.None? ==>
        status == (if old(status) == Running then Passed else old(status))
        && errorMessage == old(errorMessage) && steps == old(steps) && stepCounter == old(stepCounter)
      ensures exception.Some? ==> (
        stepCounter == old(stepCounter) + 1
        && steps == (if shotOk then old(steps) + [Step(stepCounter, ErrorCaptureName,
                       ScreenshotName(stepCounter, ErrorCaptureName), url, now, true)]
                     else old(steps)))
      ensures ReportsDescribe(reports, listing, now)
    {
      ResolveStatus(exception, now, shotOk, url);
      reports := BuildReports(listing, now);
      suppress := false;
    }

    /** The first half of `__exit__`: the end time, the final status and the diagnostic screenshot. */
    method ResolveStatus(exception: Option<string>, now: nat, shotOk: bool, url: string)
      requires Valid() && testDir.Some?
      modifies this`status, this`errorMessage, this`endTime, this`stepCounter, this`steps
      ensures Valid() && testDir.Some?
      ensures endTime == Some(now)
      ensures status == Passed || status == Failed
      ensures exception.Some? ==> status == Failed && errorMessage == exception
      ensures exception.None? ==>
        status == (if old(status) == Running then Passed else old(status))
        && errorMessage == old(errorMessage) && steps == old(steps) && stepCounter == old(stepCounter)
      ensures exception.Some? ==> (
        stepCounter == old(stepCounter) + 1
        && steps == (if shotOk then old(steps) + [Step(stepCounter, ErrorCaptureName,
                       ScreenshotName(stepCounter, ErrorCaptureName), url, now, true)]
                     else old(steps)))
    {
      endTime := Some(now);
      if exception.Some? {
        status := Failed;
        errorMessage := exception;
        var _ := Capture(ErrorCaptureName, true, shotOk, url, now);
      } else if status == Running {
        status := Passed;
      }
    }

    /** What the two reports written at the end of a run say about it. */
    ghost predicate ReportsDescribe(reports: ReportPair, listing: seq<string>, now: nat)
      reads this
      requires testDir.Some? && startTime.Some?
    {
      reports.html.number == reports.markdown.number == MaxReportNumber(listing) + 1
      && reports.htmlPath == JoinPath(ReportsDir(), ReportName(reports.html.number, "html"))
      && reports.markdownPath == JoinPath(ReportsDir(), ReportName(reports.html.number, "md"))
      && reports.html.testName == reports.markdown.testName == Basename(testDir.value)
      && reports.html.passed == reports.markdown.passed == (status == Passed)
      && reports.html.duration == reports.markdown.duration == now - startTime.value
      && reports.html.totalSteps == reports.markdown.totalSteps == |steps|
      && reports.html.failedSteps == reports.markdown.failedSteps == CountFailed(steps)
      && reports.html.succeededSteps + reports.html.failedSteps == |steps|
      && reports.html.errorSection == reports.markdown.errorSection == ErrorSection(errorMessage)
      && reports.html.steps == reports.markdown.steps
      && |reports.html.steps| == |steps|
      && (forall i :: 0 <= i < |steps| ==> reports.html.steps[i] == EntryOf(steps[i]))
      && reports.html.noStepsPlaceholder == reports.markdown.noStepsPlaceholder == (steps == [])
      && |reports.html.logs| == |reports.markdown.logs| == |consoleLogs|
      && (forall i :: 0 <= i < |consoleLogs| ==>
            reports.html.logs[i] == HtmlLog(
              if consoleLogs[i].kind == "error" then "console-error" else "console-log",
              consoleLogs[i].kind, consoleLogs[i].text)
            && reports.markdown.logs[i] == MarkdownLog(consoleLogs[i].kind, consoleLogs[i].text))
      && reports.html.noLogsPlaceholder == reports.markdown.noLogsPlaceholder == (consoleLogs == [])
    }

    /** The second half of `__exit__`: both reports under the next free number. */
    method BuildReports(listing: seq<string>, now: nat) returns (reports: ReportPair)
      requires Valid() && testDir.Some?
      ensures ReportsDescribe(reports, listing, now)
    {
      var number := NextReportNumber(listing);
      var duration := now - startTime.value;
      var testName := Basename(testDir.value);
      var html := GenerateHtml(testName, duration, number);
      var markdown := GenerateMarkdown(testName, duration, number);
      CountsPartitionSteps(steps);
      reports := ReportPair(
        JoinPath(ReportsDir(), ReportName(number, "html")),
        JoinPath(ReportsDir(), ReportName(number, "md")),
        html, markdown);
    }
  }
}
