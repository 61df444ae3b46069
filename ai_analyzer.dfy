/**
 * backend/app/services/ai_analyzer.py: reading the model's `KEY: value`
 * reply into a task analysis (AIAnalyzer.analyze_task once the reply text is
 * known) and the ROI arithmetic of AIAnalyzer.calculate_roi.
 */
module AiAnalyzer {

  import opened Wrappers
  import opened Text
  import Reals

  const DefaultScore: real := 50.0
  const DefaultTimeSaved: real := 25.0
  const DefaultDifficulty: string := "medium"
  const DefaultRecommendation: string :=
    "Automation potential identified - review with team to determine best approach."
  /** The recommendation analyze_task returns when the model call raises. */
  const ErrorRecommendation: string :=
    "Unable to analyze at this time. Please review this task manually for automation opportunities."

  /** The four keys analyze_task returns. */
  datatype TaskAnalysis = TaskAnalysis(
    readinessScore: real,
    timeSavedPercentage: real,
    difficulty: string,
    recommendation: string)

  /** The `result` dict while the reply's lines are read: None while a key is missing. */
  datatype Partial = Partial(
    score: Option<real>,
    timeSaved: Option<real>,
    difficulty: Option<string>,
    recommendation: Option<string>)

  const NoKeys: Partial := Partial(None, None, None, None)

  predicate IsDifficulty(d: string) {
    d == "easy" || d == "medium" || d == "hard"
  }

  predicate DifficultyKnown(p: Partial) {
    p.difficulty.Some? ==> IsDifficulty(p.difficulty.value)
  }

  lemma ColonInKeyLine(line: string, key: string)
    requires StartsWith(line, key) && key != [] && key[|key| - 1] == ':'
    ensures ':' in line
  {
    assert line[|key| - 1] == key[|key| - 1];
  }

  /** `float(line.split(':')[1].strip())`, or `fallback` when float() raises. */
  function NumberField(line: string, parseFloat: string -> Option<real>, fallback: real): real
    requires ':' in line
  {
    parseFloat(Trim(Split(line, ':')[1])).GetOr(fallback)
  }

  /** `line.split(':')[1].strip().lower()`, kept only when it is one of the three levels. */
  function DifficultyField(line: string): (d: string)
    requires ':' in line
    ensures IsDifficulty(d)
    ensures IsDifficulty(Lower(Trim(Split(line, ':')[1]))) ==> d == Lower(Trim(Split(line, ':')[1]))
    ensures !IsDifficulty(Lower(Trim(Split(line, ':')[1]))) ==> d == DefaultDifficulty
  {
    var d := Lower(Trim(Split(line, ':')[1]));
    if IsDifficulty(d) then d else DefaultDifficulty
  }

  /** `line.split(':', 1)[1].strip()`. */
  function RecommendationField(line: string): string
    requires ':' in line
  {
    Trim(AfterFirst(line, ':'))
  }

  /** One pass of the parsing loop: a line sets the key it starts with, others change nothing. */
  function ParseLine(p: Partial, line: string, parseFloat: string -> Option<real>): Partial {
    if StartsWith(line, "SCORE:") then
      ColonInKeyLine(line, "SCORE:");
      p.(score := Some(NumberField(line, parseFloat, DefaultScore)))
    else if StartsWith(line, "TIME_SAVED:") then
      ColonInKeyLine(line, "TIME_SAVED:");
      p.(timeSaved := Some(NumberField(line, parseFloat, DefaultTimeSaved)))
    else if StartsWith(line, "DIFFICULTY:") then
      ColonInKeyLine(line, "DIFFICULTY:");
      p.(difficulty := Some(DifficultyField(line)))
    else if StartsWith(line, "RECOMMENDATION:") then
      ColonInKeyLine(line, "RECOMMENDATION:");
      p.(recommendation := Some(RecommendationField(line)))
    else p
  }

  /** The parsing loop over all lines, first to last. */
  function ParseLines(lines: seq<string>, parseFloat: string -> Option<real>): (p: Partial)
    ensures DifficultyKnown(p)
  {
    if lines == [] then NoKeys
    else ParseLine(ParseLines(lines[..|lines| - 1], parseFloat), lines[|lines| - 1], parseFloat)
  }

  /** "Ensure all required fields are present". */
  function Complete(p: Partial): (r: TaskAnalysis)
    requires DifficultyKnown(p)
    ensures IsDifficulty(r.difficulty)
    ensures p.score.None? ==> r.readinessScore == DefaultScore
    ensures p.timeSaved.None? ==> r.timeSavedPercentage == DefaultTimeSaved
    ensures p.recommendation.None? ==> r.recommendation == DefaultRecommendation
    ensures p.difficulty.None? ==> r.difficulty == DefaultDifficulty
    ensures p.difficulty.Some? ==> r.difficulty == p.difficulty.value
  {
    TaskAnalysis(
      p.score.GetOr(DefaultScore),
      p.timeSaved.GetOr(DefaultTimeSaved),
      p.difficulty.GetOr(DefaultDifficulty),
      p.recommendation.GetOr(DefaultRecommendation))
  }

  /** The lines analyze_task reads: `response_text.strip().split('\n')`. */
  function ReplyLines(text: string): seq<string> {
    Split(Trim(text), '\n')
  }

  /** The parsing part of analyze_task, on the reply text. */
  method ParseReply(text: string, parseFloat: string -> Option<real>) returns (r: TaskAnalysis)
    ensures r == Complete(ParseLines(ReplyLines(text), parseFloat))
    ensures IsDifficulty(r.difficulty)
  {
    var lines := ReplyLines(text);
    var result := NoKeys;
    var i := 0;
    while i < |lines|
      invariant 0 <= i <= |lines|
      invariant result == ParseLines(lines[..i], parseFloat)
    {
      ParseLinesStep(lines, i, parseFloat);
      result := ParseLine(result, lines[i], parseFloat);
      i := i + 1;
    }
    assert lines[..|lines|] == lines;
    if result.score.None? {
      result := result.(score := Some(DefaultScore));
    }
    if result.timeSaved.None? {
      result := result.(timeSaved := Some(DefaultTimeSaved));
    }
    if result.difficulty.None? {
      result := result.(difficulty := Some(DefaultDifficulty));
    }
    if result.recommendation.None? {
      result := result.(recommendation := Some(DefaultRecommendation));
    }
    r := TaskAnalysis(result.score.value, result.timeSaved.value, result.difficulty.value, result.recommendation.value);
  }

  /**
   * analyze_task with the model's reply given: None stands for the call
   * raising (no reply, or a reply without text), which yields the error defaults.
   */
  method AnalyzeTask(reply: Option<string>, parseFloat: string -> Option<real>) returns (r: TaskAnalysis)
    ensures reply.None? ==> r == TaskAnalysis(DefaultScore, DefaultTimeSaved, DefaultDifficulty, ErrorRecommendation)
    ensures reply.Some? ==> r == Complete(ParseLines(ReplyLines(reply.value), parseFloat))
    ensures IsDifficulty(r.difficulty)
  {
    if reply.None? {
      r := TaskAnalysis(DefaultScore, DefaultTimeSaved, DefaultDifficulty, ErrorRecommendation);
    } else {
      r := ParseReply(reply.value, parseFloat);
    }
  }

  lemma ParseLinesStep(lines: seq<string>, i: int, parseFloat: string -> Option<real>)
    requires 0 <= i < |lines|
    ensures ParseLines(lines[..i + 1], parseFloat) == ParseLine(ParseLines(lines[..i], parseFloat), lines[i], parseFloat)
  {
    assert lines[..i + 1][..i] == lines[..i];
  }

  lemma ParseLinesLast(lines: seq<string>, parseFloat: string -> Option<real>)
    requires lines != []
    ensures ParseLines(lines, parseFloat)
         == ParseLine(ParseLines(lines[..|lines| - 1], parseFloat), lines[|lines| - 1], parseFloat)
  {
  }

  /** The four keys of the reply, and the prefix that marks a line for each. */
  datatype Key = ScoreKey | TimeSavedKey | DifficultyKey | RecommendationKey

  function KeyPrefix(k: Key): string {
    match k
    case ScoreKey => "SCORE:"
    case TimeSavedKey => "TIME_SAVED:"
    case DifficultyKey => "DIFFICULTY:"
    case RecommendationKey => "RECOMMENDATION:"
  }

  /** The value of one key, a number or a text. */
  datatype Value = Number(x: real) | Label(s: string)

  /** The entry of `result` for a key, None while it is missing. */
  function Field(p: Partial, k: Key): Option<Value> {
    match k
    case ScoreKey => if p.score.Some? then Some(Number(p.score.value)) else None
    case TimeSavedKey => if p.timeSaved.Some? then Some(Number(p.timeSaved.value)) else None
    case DifficultyKey => if p.difficulty.Some? then Some(Label(p.difficulty.value)) else None
    case RecommendationKey => if p.recommendation.Some? then Some(Label(p.recommendation.value)) else None
  }

  /** What a line carrying the key sets it to. */
  function LineValue(line: string, k: Key, parseFloat: string -> Option<real>): Value
    requires ':' in line
  {
    match k
    case ScoreKey => Number(NumberField(line, parseFloat, DefaultScore))
    case TimeSavedKey => Number(NumberField(line, parseFloat, DefaultTimeSaved))
    case DifficultyKey => Label(DifficultyField(line))
    case RecommendationKey => Label(RecommendationField(line))
  }

  /** The value "Ensure all required fields are present" puts in for a missing key. */
  function DefaultValue(k: Key): Value {
    match k
    case ScoreKey => Number(DefaultScore)
    case TimeSavedKey => Number(DefaultTimeSaved)
    case DifficultyKey => Label(DefaultDifficulty)
    case RecommendationKey => Label(DefaultRecommendation)
  }

  /** The entry of the returned dict for a key. */
  function Completed(r: TaskAnalysis, k: Key): Value {
    match k
    case ScoreKey => Number(r.readinessScore)
    case TimeSavedKey => Number(r.timeSavedPercentage)
    case DifficultyKey => Label(r.difficulty)
    case RecommendationKey => Label(r.recommendation)
  }

  /** The prefixes start with S, T, D and R, so a line carries at most one key. */
  lemma KeyPrefixesDiffer(line: string, k: Key, other: Key)
    requires StartsWith(line, KeyPrefix(k)) && other != k
    ensures !StartsWith(line, KeyPrefix(other))
  {
    assert line[0] == KeyPrefix(k)[0];
  }

  /** Complete keeps a key that is there and fills in the default for one that is not. */
  lemma CompleteField(p: Partial, k: Key)
    requires DifficultyKnown(p)
    ensures Field(p, k).Some? ==> Completed(Complete(p), k) == Field(p, k).value
    ensures Field(p, k).None? ==> Completed(Complete(p), k) == DefaultValue(k)
  {
  }

  /** A line that carries the key sets it; any other line leaves it alone. */
  lemma ParseLineField(p: Partial, line: string, k: Key, parseFloat: string -> Option<real>)
    ensures StartsWith(line, KeyPrefix(k)) ==>
      ':' in line && Field(ParseLine(p, line, parseFloat), k) == Some(LineValue(line, k, parseFloat))
    ensures !StartsWith(line, KeyPrefix(k)) ==> Field(ParseLine(p, line, parseFloat), k) == Field(p, k)
  {
    if StartsWith(line, KeyPrefix(k)) {
      ColonInKeyLine(line, KeyPrefix(k));
      if k != ScoreKey { KeyPrefixesDiffer(line, k, ScoreKey); }
      if k != TimeSavedKey { KeyPrefixesDiffer(line, k, TimeSavedKey); }
      if k != DifficultyKey { KeyPrefixesDiffer(line, k, DifficultyKey); }
    }
  }

  /**
   * Each key comes from the last line that carries it: a later line
   * overrides an earlier one, other lines leave it alone, and Complete
   * returns that value.
   */
  lemma {:induction false} LastKeyLineWins(lines: seq<string>, i: int, k: Key, parseFloat: string -> Option<real>)
    requires 0 <= i < |lines| && StartsWith(lines[i], KeyPrefix(k))
    requires forall j :: i < j < |lines| ==> !StartsWith(lines[j], KeyPrefix(k))
    ensures ':' in lines[i]
    ensures Field(ParseLines(lines, parseFloat), k) == Some(LineValue(lines[i], k, parseFloat))
    ensures Completed(Complete(ParseLines(lines, parseFloat)), k) == LineValue(lines[i], k, parseFloat)
  {
    ColonInKeyLine(lines[i], KeyPrefix(k));
    var n := |lines| - 1;
    var before := ParseLines(lines[..n], parseFloat);
    var after := ParseLines(lines, parseFloat);
    ParseLinesLast(lines, parseFloat);
    assert after == ParseLine(before, lines[n], parseFloat);
    ParseLineField(before, lines[n], k, parseFloat);
    if i == n {
      assert Field(after, k) == Some(LineValue(lines[n], k, parseFloat));
    } else {
      assert !StartsWith(lines[n], KeyPrefix(k));
      assert Field(after, k) == Field(before, k);
      var prefix := lines[..n];
      forall j | i < j < n ensures !StartsWith(prefix[j], KeyPrefix(k)) {
        assert prefix[j] == lines[j];
      }
      assert prefix[i] == lines[i];
      LastKeyLineWins(prefix, i, k, parseFloat);
      assert Field(before, k) == Some(LineValue(prefix[i], k, parseFloat));
    }
    CompleteField(after, k);
  }

  /** Without a line carrying the key it stays unset, and Complete gives its default. */
  lemma {:induction false} NoKeyLine(lines: seq<string>, k: Key, parseFloat: string -> Option<real>)
    requires forall j :: 0 <= j < |lines| ==> !StartsWith(lines[j], KeyPrefix(k))
    ensures Field(ParseLines(lines, parseFloat), k) == None
    ensures Completed(Complete(ParseLines(lines, parseFloat)), k) == DefaultValue(k)
  {
    if lines != [] {
      var n := |lines| - 1;
      forall j | 0 <= j < n ensures !StartsWith(lines[..n][j], KeyPrefix(k)) {
        assert lines[..n][j] == lines[j];
      }
      NoKeyLine(lines[..n], k, parseFloat);
      ParseLinesLast(lines, parseFloat);
      ParseLineField(ParseLines(lines[..n], parseFloat), lines[n], k, parseFloat);
    }
    CompleteField(ParseLines(lines, parseFloat), k);
  }

  /** The SCORE value is the text between the first and the second colon of the line. */
  lemma ScoreTextEndsAtNextColon(rest: string, parseFloat: string -> Option<real>)
    ensures ':' in "SCORE:" + rest
    ensures NumberField("SCORE:" + rest, parseFloat, DefaultScore)
         == parseFloat(Trim(Split(rest, ':')[0])).GetOr(DefaultScore)
  {
    assert "SCORE:" + rest == "SCORE" + [':'] + rest;
    SplitAfterPiece("SCORE", rest, ':');
  }

  /** A RECOMMENDATION keeps everything after the first colon, later colons included. */
  lemma RecommendationKeepsLaterColons(rest: string)
    ensures ':' in "RECOMMENDATION:" + rest
    ensures RecommendationField("RECOMMENDATION:" + rest) == Trim(rest)
  {
    assert "RECOMMENDATION:" + rest == "RECOMMENDATION" + [':'] + rest;
    AfterFirstAfterPiece("RECOMMENDATION", rest, ':');
  }

  // ---- calculate_roi ------------------------------------------------------

  /** The `task` dict inside one analysis: None stands for an absent key. */
  datatype TaskInfo = TaskInfo(timePerTask: Option<real>, frequency: Option<string>)

  /** One entry of `tasks_analysis`, with the key calculate_roi writes into it. */
  datatype AnalysisRecord = AnalysisRecord(
    task: TaskInfo,
    readinessScore: real,
    timeSavedPercentage: Option<real>,
    estimatedHoursSaved: Option<real>)

  datatype Roi = Roi(automationScore: real, hoursSaved: real, annualSavings: real)

  /** Work days for daily, weeks for weekly and for anything else, months for monthly. */
  function YearlyOccurrences(frequency: Option<string>): (n: int)
    ensures n == 250 <==> frequency == Some("daily")
    ensures n == 12 <==> frequency == Some("monthly")
    ensures n == 52 <==> frequency != Some("daily") && frequency != Some("monthly")
  {
    match frequency.GetOr("weekly")
    case "daily" => 250
    case "weekly" => 52
    case "monthly" => 12
    case _ => 52
  }

  /** `time_per_task / 60 * time_saved_pct / 100 * yearly_occurrences`, absent keys read as 0. */
  function HoursSaved(a: AnalysisRecord): real {
    (a.task.timePerTask.GetOr(0.0) / 60.0)
      * (a.timeSavedPercentage.GetOr(0.0) / 100.0)
      * YearlyOccurrences(a.task.frequency) as real
  }

  /** A task never saves more than all the hours it takes in a year. */
  lemma HoursSavedBounded(a: AnalysisRecord)
    requires 0.0 <= a.task.timePerTask.GetOr(0.0)
    requires 0.0 <= a.timeSavedPercentage.GetOr(0.0) <= 100.0
    ensures 0.0 <= HoursSaved(a) <= a.task.timePerTask.GetOr(0.0) / 60.0 * YearlyOccurrences(a.task.frequency) as real
  {
    var hours := a.task.timePerTask.GetOr(0.0) / 60.0;
    var frac := a.timeSavedPercentage.GetOr(0.0) / 100.0;
    var occ := YearlyOccurrences(a.task.frequency) as real;
    assert HoursSaved(a) == hours * frac * occ;
    assert 0.0 <= frac <= 1.0 && 0.0 <= hours && 0.0 < occ;
    Reals.MulLe(0.0, frac, hours);
    Reals.MulLe(frac, 1.0, hours);
    Reals.MulLe(0.0, frac * hours, occ);
    Reals.MulLe(frac * hours, hours, occ);
    assert hours * frac == frac * hours;
  }

  function Scores(s: seq<AnalysisRecord>): (r: seq<real>)
    ensures |r| == |s| && forall k :: 0 <= k < |s| ==> r[k] == s[k].readinessScore
  {
    seq(|s|, k requires 0 <= k < |s| => s[k].readinessScore)
  }

  function HoursEach(s: seq<AnalysisRecord>): (r: seq<real>)
    ensures |r| == |s| && forall k :: 0 <= k < |s| ==> r[k] == HoursSaved(s[k])
  {
    seq(|s|, k requires 0 <= k < |s| => HoursSaved(s[k]))
  }

  /** The `estimated_hours_saved` values stored in the records (0 where unset). */
  function StoredHours(s: seq<AnalysisRecord>): (r: seq<real>)
    ensures |r| == |s| && forall k :: 0 <= k < |s| ==> r[k] == s[k].estimatedHoursSaved.GetOr(0.0)
  {
    seq(|s|, k requires 0 <= k < |s| => s[k].estimatedHoursSaved.GetOr(0.0))
  }

  /** `total_score / len(tasks_analysis) if tasks_analysis else 0`. */
  function MeanScore(s: seq<AnalysisRecord>): real {
    if |s| == 0 then 0.0 else Reals.Sum(Scores(s)) / |s| as real
  }

  /** Scores on the 0-100 scale give an automation score on the same scale. */
  lemma MeanScoreInRange(s: seq<AnalysisRecord>)
    requires forall k :: 0 <= k < |s| ==> 0.0 <= s[k].readinessScore <= 100.0
    ensures 0.0 <= MeanScore(s) <= 100.0
  {
    if |s| > 0 {
      Reals.MeanBounds(Scores(s), 0.0, 100.0);
    }
  }

  /** Totals of non-negative times and percentages are non-negative. */
  lemma TotalHoursNonNegative(s: seq<AnalysisRecord>)
    requires forall k :: 0 <= k < |s| ==> 0.0 <= s[k].task.timePerTask.GetOr(0.0)
    requires forall k :: 0 <= k < |s| ==> 0.0 <= s[k].timeSavedPercentage.GetOr(0.0) <= 100.0
    ensures 0.0 <= Reals.Sum(HoursEach(s))
  {
    forall k | 0 <= k < |s| ensures 0.0 <= HoursEach(s)[k] {
      HoursSavedBounded(s[k]);
    }
    Reals.SumNonNegative(HoursEach(s));
  }

  /** One more record adds its score and its hours to the running totals. */
  lemma PrefixSums(s: seq<AnalysisRecord>, i: int)
    requires 0 <= i < |s|
    ensures Reals.Sum(Scores(s[..i + 1])) == Reals.Sum(Scores(s[..i])) + s[i].readinessScore
    ensures Reals.Sum(HoursEach(s[..i + 1])) == Reals.Sum(HoursEach(s[..i])) + HoursSaved(s[i])
  {
    assert Scores(s[..i + 1]) == Scores(s[..i]) + [s[i].readinessScore];
    assert HoursEach(s[..i + 1]) == HoursEach(s[..i]) + [HoursSaved(s[i])];
    Reals.SumSnoc(Scores(s[..i]), s[i].readinessScore);
    Reals.SumSnoc(HoursEach(s[..i]), HoursSaved(s[i]));
  }

  /** After every record got its hours written, the stored hours are the computed ones. */
  lemma StoredAfterWrite(before: seq<AnalysisRecord>, after: seq<AnalysisRecord>)
    requires |after| == |before|
    requires forall k :: 0 <= k < |after| ==> after[k] == WithHours(before[k])
    ensures StoredHours(after) == HoursEach(before)
  {
  }

  /** The records after the loop has written the first `i` of them. */
  function Written(s: seq<AnalysisRecord>, i: int): (r: seq<AnalysisRecord>)
    requires 0 <= i <= |s|
    ensures |r| == |s|
    ensures forall k :: 0 <= k < i ==> r[k] == WithHours(s[k])
    ensures forall k :: i <= k < |s| ==> r[k] == s[k]
  {
    seq(|s|, k requires 0 <= k < |s| => if k < i then WithHours(s[k]) else s[k])
  }

  lemma WrittenStep(s: seq<AnalysisRecord>, i: int)
    requires 0 <= i < |s|
    ensures Written(s, i)[i] == s[i]
    ensures Written(s, i)[i := WithHours(s[i])] == Written(s, i + 1)
  {
  }

  /** `hours_saved * hourly_rate` before rounding. */
  function AnnualSavings(s: seq<AnalysisRecord>, hourlyRate: real): real {
    Reals.Sum(HoursEach(s)) * hourlyRate
  }

  /** The dict calculate_roi returns, as a function of the records it was given. */
  function RoiOf(s: seq<AnalysisRecord>, hourlyRate: real, round2: real -> real): Roi {
    Roi(round2(MeanScore(s)), round2(Reals.Sum(HoursEach(s))), round2(AnnualSavings(s, hourlyRate)))
  }

  function WithHours(a: AnalysisRecord): AnalysisRecord {
    a.(estimatedHoursSaved := Some(HoursSaved(a)))
  }

  /**
   * The loop of calculate_roi: every record gets its estimated_hours_saved
   * written, while the scores and the hours are summed.
   */
  method WriteHours(analyses: array<AnalysisRecord>) returns (totalScore: real, totalHoursSaved: real)
    modifies analyses
    ensures forall k :: 0 <= k < analyses.Length ==> analyses[k] == WithHours(old(analyses[k]))
    ensures totalScore == Reals.Sum(Scores(old(analyses[..])))
    ensures totalHoursSaved == Reals.Sum(HoursEach(old(analyses[..])))
  {
    ghost var original := analyses[..];
    totalScore := 0.0;
    totalHoursSaved := 0.0;
    var i := 0;
    while i < analyses.Length
      invariant 0 <= i <= analyses.Length
      invariant analyses[..] == Written(original, i)
      invariant totalScore == Reals.Sum(Scores(original[..i]))
      invariant totalHoursSaved == Reals.Sum(HoursEach(original[..i]))
    {
      var analysis := analyses[i];
      PrefixSums(original, i);
      totalScore := totalScore + analysis.readinessScore;
      var hoursSaved := HoursSaved(analysis);
      totalHoursSaved := totalHoursSaved + hoursSaved;
      WrittenStep(original, i);
      analyses[i] := analysis.(estimatedHoursSaved := Some(hoursSaved));
      i := i + 1;
    }
    assert original[..analyses.Length] == original;
    assert forall k :: 0 <= k < analyses.Length ==> analyses[k] == analyses[..][k];
  }

  /**
   * calculate_roi: writes estimated_hours_saved into every record and returns
   * the rounded mean score, summed hours and hours times the rate.
   * `round2` is Python's round(x, 2).
   */
  method CalculateRoi(analyses: array<AnalysisRecord>, hourlyRate: real, round2: real -> real) returns (roi: Roi)
    modifies analyses
    ensures forall k :: 0 <= k < analyses.Length ==> analyses[k] == WithHours(old(analyses[k]))
    ensures roi == RoiOf(old(analyses[..]), hourlyRate, round2)
    ensures roi.hoursSaved == round2(Reals.Sum(StoredHours(analyses[..])))
  {
    ghost var original := analyses[..];
    var totalScore, totalHoursSaved := WriteHours(analyses);
    assert forall k :: 0 <= k < analyses.Length ==> analyses[..][k] == WithHours(original[k]);
    StoredAfterWrite(original, analyses[..]);
    var avgScore := if analyses.Length > 0 then totalScore / analyses.Length as real else 0.0;
    assert avgScore == MeanScore(original);
    var annualSavings := totalHoursSaved * hourlyRate;
    assert annualSavings == AnnualSavings(original, hourlyRate);
    roi := Roi(round2(avgScore), round2(totalHoursSaved), round2(annualSavings));
  }
}
