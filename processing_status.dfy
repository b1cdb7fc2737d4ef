/**
 * The processing screen: the mm:ss clock, the activity log with its
 * timestamps, the three step rows (indicator, percentage label, progress
 * bar), and the error screen that replaces everything when the status is
 * "error". Progress values are whole percentages.
 */
module ProcessingStatus {
  import opened Options
  import opened Strings

  /** `formatTime(seconds)`: minutes and seconds, each left-padded with '0' to two digits, around a ':'. */
  function FormatTime(seconds: nat): string {
    PadStart(NatToString(seconds / 60), 2, '0') + ":" + PadStart(NatToString(seconds % 60), 2, '0')
  }

  /** A number below 100 has at most two digits. */
  lemma {:induction false} ShortNumber(n: nat)
    requires n < 100
    ensures |NatToString(n)| <= 2
  {
    if n >= 10 {
      assert |NatToString(n / 10)| == 1;
    }
  }

  /** Padding a number with zeros to two places keeps its value and only adds digits. */
  lemma PaddedValue(n: nat)
    ensures AllDigits(PadStart(NatToString(n), 2, '0'))
    ensures DecimalValue(PadStart(NatToString(n), 2, '0')) == n
    ensures |PadStart(NatToString(n), 2, '0')| >= 2
  {
    var s := NatToString(n);
    DecimalRoundTrip(n);
    if |s| < 2 {
      LeadingZeros(2 - |s|, s);
    }
  }

  /**
   * Reading the clock back: the text is the minutes, a ':' and exactly two
   * second digits; the digits give back the minutes and the seconds, the
   * seconds are below 60, and minutes × 60 + seconds is the input.
   */
  lemma FormatTimeRoundTrip(seconds: nat)
    ensures ReadsAsClock(FormatTime(seconds), seconds / 60, seconds % 60)
    ensures forall minutes: nat, secs: nat | ReadsAsClock(FormatTime(seconds), minutes, secs) :: secs < 60 && minutes * 60 + secs == seconds
  {
    var m := PadStart(NatToString(seconds / 60), 2, '0');
    var s := PadStart(NatToString(seconds % 60), 2, '0');
    PaddedValue(seconds / 60);
    PaddedValue(seconds % 60);
    ShortNumber(seconds % 60);
    var r := FormatTime(seconds);
    assert r == m + ":" + s;
    assert |s| == 2;
    assert r[..|m|] == m;
    assert r[|m| + 1..] == s;
  }

  /** `r` is a clock `mm:ss` whose digits before the colon read `minutes` and after it `secs`. */
  predicate ReadsAsClock(r: string, minutes: nat, secs: nat) {
    var k := |r| - 3;
    && k >= 2 && r[k] == ':'
    && AllDigits(r[..k]) && AllDigits(r[k + 1..])
    && DecimalValue(r[..k]) == minutes && DecimalValue(r[k + 1..]) == secs
  }

  /**
   * Below 100 minutes the clock has exactly five characters; from then on
   * the minutes are written in full, never cut to two digits.
   */
  lemma FormatTimeWidth(seconds: nat)
    ensures seconds < 6000 ==> |FormatTime(seconds)| == 5
    ensures seconds >= 6000 ==> FormatTime(seconds)[..|FormatTime(seconds)| - 3] == NatToString(seconds / 60)
  {
    ShortNumber(seconds % 60);
    if seconds < 6000 {
      ShortNumber(seconds / 60);
    } else {
      var m := NatToString(seconds / 60);
      assert |m| >= 3 by {
        assert m == NatToString(seconds / 60 / 10) + [DigitChar(seconds / 60 % 10)];
        assert seconds / 60 / 10 >= 10;
      }
      var r := FormatTime(seconds);
      assert r == m + ":" + PadStart(NatToString(seconds % 60), 2, '0');
      assert r[..|m|] == m;
    }
  }

  /** `Math.min(index * 3 + 2, elapsedTime)`: the log entry's time, two seconds plus three per earlier entry, never past the elapsed time. */
  function LogTimestamp(index: nat, elapsed: nat): (t: nat)
    ensures t <= elapsed && t <= 3 * index + 2
    ensures t == elapsed || t == 3 * index + 2
  {
    if 3 * index + 2 < elapsed then 3 * index + 2 else elapsed
  }

  /** The status values during which each step's row is animated. */
  const Transcribing: string := "transcribing"
  const Analyzing: string := "analyzing"
  const Summarizing: string := "summarizing"
  const ErrorStatus: string := "error"

  const DefaultErrorMessage: string := "Ha ocurrido un error durante el procesamiento del audio."

  /** A step row's icon: animated, check mark, or empty circle. */
  datatype Indicator = Active | Done | Pending

  /** The icon of a step row, given its progress, the current status and the status the step runs under. */
  function StepIndicator(progress: int, status: string, stepStatus: string): Indicator {
    if progress < 100 && status == stepStatus then Active
    else if progress == 100 then Done
    else Pending
  }

  /**
   * The icon classification in both directions: active exactly while the
   * step is unfinished and its status is current, done exactly at 100,
   * pending in every other case, including a progress above 100.
   */
  lemma StepIndicatorCases(progress: int, status: string, stepStatus: string)
    ensures StepIndicator(progress, status, stepStatus) == Active <==> progress < 100 && status == stepStatus
    ensures StepIndicator(progress, status, stepStatus) == Done <==> progress == 100
    ensures StepIndicator(progress, status, stepStatus) == Pending <==>
      (progress > 100 || (progress < 100 && status != stepStatus))
  {
  }

  /** The text right of a step's title: nothing until progress starts, then the percentage, then "Completado". */
  function ProgressLabel(progress: int): (r: Option<string>)
    ensures r.None? <==> progress <= 0
    ensures 0 < progress < 100 ==> r == Some(NatToString(progress) + "%")
    ensures progress >= 100 ==> r == Some("Completado")
  {
    if progress <= 0 then None
    else if progress < 100 then Some(IntToString(progress) + "%")
    else Some("Completado")
  }

  /** The three progress values of the props. */
  datatype Progress = Progress(transcription: int, analysis: int, summary: int)

  /** One line of the activity log. */
  datatype LogLine = LogLine(time: string, message: string, highlighted: bool)

  /** One step row. */
  datatype StepRow = StepRow(indicator: Indicator, progressText: Option<string>, showBar: bool)

  /** What the component renders. */
  datatype View =
    | ErrorView(message: string, log: seq<LogLine>, emptyLog: bool)
    | ProgressView(steps: seq<StepRow>, clock: string, log: seq<LogLine>, emptyLog: bool, slowNotice: bool)

  function Row(progress: int, status: string, stepStatus: string): StepRow {
    StepRow(StepIndicator(progress, status, stepStatus), ProgressLabel(progress), progress > 0)
  }

  /** The log lines, timestamped; in the error view a line is highlighted when it starts with "Error". */
  function LogLines(messages: seq<string>, elapsed: nat, highlightErrors: bool): (r: seq<LogLine>)
    ensures |r| == |messages|
    ensures forall i | 0 <= i < |messages| ::
      r[i] == LogLine(FormatTime(LogTimestamp(i, elapsed)), messages[i], highlightErrors && StartsWith(messages[i], "Error"))
  {
    seq(|messages|, i requires 0 <= i < |messages| =>
      LogLine(FormatTime(LogTimestamp(i, elapsed)), messages[i], highlightErrors && StartsWith(messages[i], "Error")))
  }

  /** The component: the error view when the status is "error", otherwise the three rows, the clock and the log. */
  function Render(status: string, error: Option<string>, progress: Progress, messages: seq<string>, elapsed: nat): View {
    if status == ErrorStatus then
      ErrorView(
        if error.Some? && error.value != "" then error.value else DefaultErrorMessage,
        LogLines(messages, elapsed, true),
        messages == [])
    else
      ProgressView(
        [Row(progress.transcription, status, Transcribing),
         Row(progress.analysis, status, Analyzing),
         Row(progress.summary, status, Summarizing)],
        FormatTime(elapsed),
        LogLines(messages, elapsed, false),
        messages == [],
        status == Analyzing && progress.analysis > 50)
  }

  /**
   * The error view is chosen by the status alone: whatever the progress
   * values, status "error" gives the same error view, with the given
   * message or the default one, and every other status gives the progress
   * view.
   */
  lemma ErrorViewSelection(status: string, error: Option<string>, p: Progress, q: Progress, messages: seq<string>, elapsed: nat)
    ensures Render(status, error, p, messages, elapsed).ErrorView? <==> status == ErrorStatus
    ensures status == ErrorStatus ==> Render(status, error, p, messages, elapsed) == Render(status, error, q, messages, elapsed)
    ensures status == ErrorStatus ==> Render(status, error, p, messages, elapsed).message != ""
  {
  }

  /**
   * In the error view a log line is highlighted exactly when its message
   * starts with "Error"; the progress view highlights none.
   */
  lemma HighlightRule(status: string, error: Option<string>, p: Progress, messages: seq<string>, elapsed: nat, i: nat)
    requires i < |messages|
    ensures var v := Render(status, error, p, messages, elapsed);
            v.log[i].highlighted <==> status == ErrorStatus && StartsWith(messages[i], "Error")
  {
  }

  /** No log line is stamped later than the elapsed time, and each stamp reads back as a valid clock. */
  lemma LogTimesWithinElapsed(messages: seq<string>, elapsed: nat, highlight: bool, i: nat)
    requires i < |messages|
    ensures var t := LogTimestamp(i, elapsed);
            var r := LogLines(messages, elapsed, highlight)[i].time;
            && t <= elapsed
            && ReadsAsClock(r, t / 60, t % 60)
            && forall minutes: nat, secs: nat | ReadsAsClock(r, minutes, secs) :: secs < 60 && minutes * 60 + secs == t
  {
    FormatTimeRoundTrip(LogTimestamp(i, elapsed));
  }
}
