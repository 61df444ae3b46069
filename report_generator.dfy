/**
 * backend/app/services/report_generator.py: what the DOCX and PDF reports
 * select and say — the score tiers, the results in descending score order,
 * the per-task labels and sentences, and the three roadmap phases. The
 * document emission itself is not modelled.
 */
module ReportGenerator {

  import opened Wrappers
  import opened Text
  import Seqs

  /**
   * One entry of `analysis_data['results']` as the report routes build it:
   * the recommendation, difficulty and hours are columns that may be NULL.
   */
  datatype ReportResult = ReportResult(
    taskName: string,
    score: real,
    recommendation: Option<string>,
    difficulty: Option<string>,
    estimatedHoursSaved: Option<real>)

  // ---- Key insights: the three tiers ---------------------------------------

  predicate IsHigh(r: ReportResult) { r.score >= 70.0 }
  predicate IsMedium(r: ReportResult) { 40.0 <= r.score < 70.0 }
  predicate IsLow(r: ReportResult) { r.score < 40.0 }

  function High(rs: seq<ReportResult>): seq<ReportResult> { Seqs.Filter(rs, IsHigh) }
  function Medium(rs: seq<ReportResult>): seq<ReportResult> { Seqs.Filter(rs, IsMedium) }
  function Low(rs: seq<ReportResult>): seq<ReportResult> { Seqs.Filter(rs, IsLow) }

  /** Every result lies in exactly one tier, so the tiers split the results between them. */
  lemma {:induction false} TiersPartition(rs: seq<ReportResult>)
    ensures |High(rs)| + |Medium(rs)| + |Low(rs)| == |rs|
    ensures multiset(High(rs)) + multiset(Medium(rs)) + multiset(Low(rs)) == multiset(rs)
  {
    if rs != [] {
      TiersPartition(rs[1..]);
      assert rs == [rs[0]] + rs[1..];
    }
  }

  lemma TierExactlyOne(r: ReportResult)
    ensures (if IsHigh(r) then 1 else 0) + (if IsMedium(r) then 1 else 0) + (if IsLow(r) then 1 else 0) == 1
  {
  }

  /** The "Total Tasks Analyzed" cell and the three "Key Insights" counts. */
  datatype Insights = Insights(totalTasks: nat, high: nat, medium: nat, low: nat)

  function KeyInsights(rs: seq<ReportResult>): (i: Insights)
    ensures i.totalTasks == |rs|
    ensures i.high + i.medium + i.low == i.totalTasks
    ensures i.high == |High(rs)| && i.medium == |Medium(rs)| && i.low == |Low(rs)|
  {
    TiersPartition(rs);
    Insights(|rs|, |High(rs)|, |Medium(rs)|, |Low(rs)|)
  }

  // ---- sorted(results, key=score, reverse=True) ----------------------------

  predicate SortedDesc(s: seq<ReportResult>) {
    forall i, j :: 0 <= i < j < |s| ==> s[i].score >= s[j].score
  }

  /**
   * Put x into a descending list in front of the first entry whose score is
   * not higher, so x stays ahead of entries with its own score that came
   * after it in the input.
   */
  function Insert(x: ReportResult, s: seq<ReportResult>): seq<ReportResult> {
    if s == [] then [x]
    else if s[0].score > x.score then [s[0]] + Insert(x, s[1..])
    else [x] + s
  }

  /** Python's stable sorted(..., reverse=True) on the readiness score. */
  function SortByScore(s: seq<ReportResult>): seq<ReportResult> {
    if s == [] then [] else Insert(s[0], SortByScore(s[1..]))
  }

  lemma {:induction false} InsertPermutes(x: ReportResult, s: seq<ReportResult>)
    ensures multiset(Insert(x, s)) == multiset(s) + multiset{x}
    ensures |Insert(x, s)| == |s| + 1
  {
    if s != [] && s[0].score > x.score {
      InsertPermutes(x, s[1..]);
      assert s == [s[0]] + s[1..];
    }
  }

  lemma {:induction false} InsertSorted(x: ReportResult, s: seq<ReportResult>)
    requires SortedDesc(s)
    ensures SortedDesc(Insert(x, s))
  {
    if s != [] && s[0].score > x.score {
      InsertSorted(x, s[1..]);
      InsertPermutes(x, s[1..]);
      var t := Insert(x, s[1..]);
      forall k | 0 <= k < |t| ensures s[0].score >= t[k].score {
        assert t[k] in multiset(t);
        assert t[k] == x || t[k] in multiset(s[1..]);
      }
    }
  }

  /** The sorted list holds the same results and never rises in score. */
  lemma {:induction false} SortByScoreCorrect(s: seq<ReportResult>)
    ensures SortedDesc(SortByScore(s))
    ensures multiset(SortByScore(s)) == multiset(s)
    ensures |SortByScore(s)| == |s|
  {
    if s != [] {
      SortByScoreCorrect(s[1..]);
      InsertSorted(s[0], SortByScore(s[1..]));
      InsertPermutes(s[0], SortByScore(s[1..]));
      assert s == [s[0]] + s[1..];
    }
  }

  function ScoreIs(v: real): ReportResult -> bool {
    (r: ReportResult) => r.score == v
  }

  lemma {:induction false} InsertKeepsEqualOrder(x: ReportResult, s: seq<ReportResult>, v: real)
    requires SortedDesc(s)
    ensures Seqs.Filter(Insert(x, s), ScoreIs(v))
         == (if x.score == v then [x] else []) + Seqs.Filter(s, ScoreIs(v))
  {
    if s != [] && s[0].score > x.score {
      InsertKeepsEqualOrder(x, s[1..], v);
      if x.score == v {
        assert s[0].score != v;
      }
    }
  }

  /** Stability: the results with any one score appear in the same order before and after sorting. */
  lemma {:induction false} SortByScoreStable(s: seq<ReportResult>, v: real)
    ensures Seqs.Filter(SortByScore(s), ScoreIs(v)) == Seqs.Filter(s, ScoreIs(v))
  {
    if s != [] {
      SortByScoreStable(s[1..], v);
      SortByScoreCorrect(s[1..]);
      InsertKeepsEqualOrder(s[0], SortByScore(s[1..]), v);
    }
  }

  // ---- Per-task details ------------------------------------------------------

  const HighLabel: string := "HIGH - Strong candidate for automation"
  const MediumLabel: string := "MEDIUM - Partial automation recommended"
  const LowLabel: string := "LOW - Requires human judgment"

  /** The "Automation Potential" row and its colour indicator. */
  datatype Potential = Potential(text: string, indicator: string)

  function PotentialOf(score: real): (p: Potential)
    ensures p.text == HighLabel <==> score >= 70.0
    ensures p.text == MediumLabel <==> 40.0 <= score < 70.0
    ensures p.text == LowLabel <==> score < 40.0
    ensures p.text == HighLabel ==> p.indicator == "🟢"
    ensures p.text == MediumLabel ==> p.indicator == "🟡"
    ensures p.text == LowLabel ==> p.indicator == "🔴"
  {
    if score >= 70.0 then Potential(HighLabel, "🟢")
    else if score >= 40.0 then Potential(MediumLabel, "🟡")
    else Potential(LowLabel, "🔴")
  }

  /** The label a result gets names the tier it is counted in. */
  lemma LabelMatchesTier(r: ReportResult)
    ensures PotentialOf(r.score).text == HighLabel <==> r in High([r])
    ensures PotentialOf(r.score).text == MediumLabel <==> r in Medium([r])
    ensures PotentialOf(r.score).text == LowLabel <==> r in Low([r])
  {
    assert [r][0] == r;
  }

  /** `f"Task {idx}: {task['name']}"` for `enumerate(sorted_results, 1)`. */
  function Headings(sorted: seq<ReportResult>): (h: seq<string>)
    ensures |h| == |sorted|
    ensures forall i :: 0 <= i < |sorted| ==> h[i] == "Task " + Decimal(i + 1) + ": " + sorted[i].taskName
  {
    seq(|sorted|, i requires 0 <= i < |sorted| => "Task " + Decimal(i + 1) + ": " + sorted[i].taskName)
  }

  /** The number in the i-th heading reads back as i + 1: the tasks are numbered 1..n in sorted order. */
  lemma HeadingNumbers(sorted: seq<ReportResult>, i: int)
    requires 0 <= i < |sorted|
    ensures var h := Headings(sorted)[i];
      StartsWith(h, "Task ") && h[5..5 + |Decimal(i + 1)|] == Decimal(i + 1)
      && DecimalValue(Decimal(i + 1)) == i + 1
  {
    DecimalRoundTrip(i + 1);
    var h := Headings(sorted)[i];
    assert h == "Task " + (Decimal(i + 1) + ": " + sorted[i].taskName);
  }

  /** The "Implementation Difficulty" paragraph, written only for a non-empty difficulty. */
  function DifficultySentence(difficulty: Option<string>): (s: Option<string>)
    ensures s.Some? <==> difficulty.Some? && difficulty.value != []
  {
    if difficulty.None? || difficulty.value == [] then None
    else
      var d := Title(difficulty.value);
      var text := "Implementation Difficulty: " + d;
      if d == "Easy" then Some(text + " - Can be set up with no-code tools (Zapier, Make.com, etc.)")
      else if d == "Medium" then Some(text + " - Requires some technical setup (APIs, scripts)")
      else Some(text + " - Requires custom development and expertise")
  }

  const NoCodeSuffix: string := " - Can be set up with no-code tools (Zapier, Make.com, etc.)"
  const TechnicalSuffix: string := " - Requires some technical setup (APIs, scripts)"
  const CustomSuffix: string := " - Requires custom development and expertise"

  lemma TitleLetters(s: string, afterLetter: bool)
    ensures forall k :: 0 <= k < |s| ==> (IsLetter(TitleAfter(s, afterLetter)[k]) <==> IsLetter(s[k]))
    ensures forall k :: 0 <= k < |s| ==> LowerChar(TitleAfter(s, afterLetter)[k]) == LowerChar(s[k])
  {
    if s != [] {
      TitleLetters(s[1..], IsLetter(s[0]));
      var t := TitleAfter(s, afterLetter);
      forall k | 1 <= k < |s|
        ensures IsLetter(t[k]) <==> IsLetter(s[k])
        ensures LowerChar(t[k]) == LowerChar(s[k])
      {
        assert t[k] == TitleAfter(s[1..], IsLetter(s[0]))[k - 1];
        assert s[k] == s[1..][k - 1];
      }
    }
  }

  /** A word of letters title-cases to its first letter upper-cased and the rest lower-cased. */
  lemma {:induction false} TitleOfLetters(s: string, afterLetter: bool)
    requires forall k :: 0 <= k < |s| ==> IsLetter(s[k])
    ensures afterLetter ==> TitleAfter(s, afterLetter) == Lower(s)
    ensures s != [] && !afterLetter ==> TitleAfter(s, afterLetter) == [UpperChar(s[0])] + Lower(s[1..])
  {
    if s != [] {
      TitleOfLetters(s[1..], true);
      assert Lower(s) == [LowerChar(s[0])] + Lower(s[1..]);
    }
  }

  lemma LowerLetterIsLetter(c: char)
    ensures IsLetter(LowerChar(c)) <==> IsLetter(c)
  {
  }

  /** `difficulty.title() == w.title()` exactly when `difficulty.lower() == w`, for a lower-case word w. */
  lemma TitleMatchIffLower(d: string, w: string)
    requires w != [] && forall k :: 0 <= k < |w| ==> 'a' <= w[k] <= 'z'
    ensures Title(d) == [UpperChar(w[0])] + w[1..] <==> Lower(d) == w
  {
    TitleLetters(d, false);
    if Lower(d) == w {
      forall k | 0 <= k < |d| ensures IsLetter(d[k]) {
        LowerLetterIsLetter(d[k]);
        assert LowerChar(d[k]) == w[k];
      }
      TitleOfLetters(d, false);
      assert UpperChar(d[0]) == UpperChar(LowerChar(d[0]));
      assert Lower(d[1..]) == w[1..];
    }
    if Title(d) == [UpperChar(w[0])] + w[1..] {
      var t := Title(d);
      forall k | 0 <= k < |d| ensures LowerChar(d[k]) == w[k] {
        assert LowerChar(t[k]) == LowerChar(d[k]);
        if k == 0 {
          assert t[0] == UpperChar(w[0]);
        } else {
          assert t[k] == w[k];
        }
      }
    }
  }

  /** The sentence for a difficulty follows its lower-cased value: easy, medium, anything else. */
  lemma DifficultySentenceByLevel(d: string)
    requires d != []
    ensures Lower(d) == "easy" ==> DifficultySentence(Some(d)) == Some("Implementation Difficulty: Easy" + NoCodeSuffix)
    ensures Lower(d) == "medium" ==> DifficultySentence(Some(d)) == Some("Implementation Difficulty: Medium" + TechnicalSuffix)
    ensures Lower(d) != "easy" && Lower(d) != "medium" ==>
      DifficultySentence(Some(d)) == Some("Implementation Difficulty: " + Title(d) + CustomSuffix)
  {
    TitleMatchIffLower(d, "easy");
    TitleMatchIffLower(d, "medium");
    assert [UpperChar('e')] + "asy" == "Easy";
    assert [UpperChar('m')] + "edium" == "Medium";
    assert "Implementation Difficulty: " + "Easy" == "Implementation Difficulty: Easy";
    assert "Implementation Difficulty: " + "Medium" == "Implementation Difficulty: Medium";
  }

  /**
   * "Estimated Annual Savings" for one task: only when estimated_hours_saved
   * is truthy (set and not zero), at `analysis_data.get('hourly_rate', 50)`.
   */
  function AnnualValue(r: ReportResult, hourlyRate: Option<real>): (v: Option<real>)
    ensures v.Some? <==> r.estimatedHoursSaved.Some? && r.estimatedHoursSaved.value != 0.0
    ensures v.Some? && hourlyRate.None? ==> v.value == r.estimatedHoursSaved.value * 50.0
    ensures v.Some? && hourlyRate.Some? ==> v.value == r.estimatedHoursSaved.value * hourlyRate.value
  {
    match r.estimatedHoursSaved
    case Some(h) => if h != 0.0 then Some(h * hourlyRate.GetOr(50.0)) else None
    case None => None
  }

  // ---- Implementation roadmap -----------------------------------------------

  /**
   * A phase member: score at least `minScore` and difficulty, lower-cased,
   * equal to `level`.
   */
  function InPhase(minScore: real, level: string): ReportResult -> bool {
    (r: ReportResult) => r.score >= minScore && r.difficulty.Some? && Lower(r.difficulty.value) == level
  }

  /**
   * `r.get('difficulty', '').lower()` is evaluated only after the score test
   * passes; on a NULL difficulty it raises AttributeError.
   */
  predicate PhaseRaises(sorted: seq<ReportResult>, minScore: real) {
    exists k :: 0 <= k < |sorted| && sorted[k].score >= minScore && sorted[k].difficulty.None?
  }

  /** A phase's list comprehension over sorted_results: None when it raises. */
  function Phase(sorted: seq<ReportResult>, minScore: real, level: string): (p: Option<seq<ReportResult>>)
    ensures p.None? <==> PhaseRaises(sorted, minScore)
    ensures p.Some? ==> forall k :: 0 <= k < |p.value| ==> InPhase(minScore, level)(p.value[k])
    ensures p.Some? ==> forall k :: 0 <= k < |sorted| && InPhase(minScore, level)(sorted[k]) ==> sorted[k] in p.value
    ensures p.Some? ==> multiset(p.value) <= multiset(sorted)
    ensures p.Some? ==> forall k :: 0 <= k < |sorted| && InPhase(minScore, level)(sorted[k]) ==>
      multiset(p.value)[sorted[k]] == multiset(sorted)[sorted[k]]
  {
    if PhaseRaises(sorted, minScore) then None
    else
      Seqs.FilterMultiset(sorted, InPhase(minScore, level));
      Some(Seqs.Filter(sorted, InPhase(minScore, level)))
  }

  function QuickWins(sorted: seq<ReportResult>): Option<seq<ReportResult>> { Phase(sorted, 70.0, "easy") }
  function MediumTerm(sorted: seq<ReportResult>): Option<seq<ReportResult>> { Phase(sorted, 50.0, "medium") }
  function Advanced(sorted: seq<ReportResult>): Option<seq<ReportResult>> { Phase(sorted, 40.0, "hard") }

  /** Each phase keeps its members in sorted_results order. */
  lemma PhaseIsSubsequence(sorted: seq<ReportResult>, minScore: real, level: string)
    requires Phase(sorted, minScore, level).Some?
    ensures Seqs.IsSubsequence(Phase(sorted, minScore, level).value, sorted)
  {
    Seqs.FilterIsSubsequence(sorted, InPhase(minScore, level));
  }

  /** No task is in two phases. */
  lemma PhasesDisjoint(sorted: seq<ReportResult>)
    requires QuickWins(sorted).Some? && MediumTerm(sorted).Some? && Advanced(sorted).Some?
    ensures forall i, j :: 0 <= i < |QuickWins(sorted).value| && 0 <= j < |MediumTerm(sorted).value| ==>
      QuickWins(sorted).value[i] != MediumTerm(sorted).value[j]
    ensures forall i, j :: 0 <= i < |QuickWins(sorted).value| && 0 <= j < |Advanced(sorted).value| ==>
      QuickWins(sorted).value[i] != Advanced(sorted).value[j]
    ensures forall i, j :: 0 <= i < |MediumTerm(sorted).value| && 0 <= j < |Advanced(sorted).value| ==>
      MediumTerm(sorted).value[i] != Advanced(sorted).value[j]
  {
  }

  /** Phase 1 raises whenever phase 2 does, and phase 2 whenever phase 3 does, since 70 >= 50 >= 40. */
  lemma PhaseRaisesMonotone(sorted: seq<ReportResult>)
    ensures PhaseRaises(sorted, 70.0) ==> PhaseRaises(sorted, 50.0)
    ensures PhaseRaises(sorted, 50.0) ==> PhaseRaises(sorted, 40.0)
  {
  }

  /** `str(None)` for a NULL recommendation inside the f-string. */
  function RecommendationText(r: Option<string>): string {
    r.GetOr("None")
  }

  function PhaseLine(r: ReportResult): string {
    "• " + r.taskName + " - " + RecommendationText(r.recommendation)
  }

  /** The bullets under a phase heading: one per member, or the phase's fallback sentence. */
  function PhaseLines(members: seq<ReportResult>, fallback: string): (lines: seq<string>)
    ensures members == [] ==> lines == [fallback]
    ensures members != [] ==> |lines| == |members| && forall k :: 0 <= k < |members| ==> lines[k] == PhaseLine(members[k])
  {
    if members == [] then [fallback]
    else seq(|members|, k requires 0 <= k < |members| => PhaseLine(members[k]))
  }

  const QuickWinsFallback: string := "No immediate quick wins identified. Focus on medium-complexity tasks."
  const MediumTermFallback: string := "Consider advanced automation for high-value tasks."
  const AdvancedFallback: string := "Focus on continuous improvement and optimization of existing automations."

  /** A quick win is always described as set up with no-code tools in the task details. */
  lemma QuickWinGetsNoCodeSentence(sorted: seq<ReportResult>, k: int)
    requires QuickWins(sorted).Some? && 0 <= k < |QuickWins(sorted).value|
    ensures DifficultySentence(QuickWins(sorted).value[k].difficulty)
         == Some("Implementation Difficulty: Easy" + NoCodeSuffix)
  {
    var r := QuickWins(sorted).value[k];
    assert InPhase(70.0, "easy")(r);
    assert r.difficulty.value != [] by {
      assert |Lower(r.difficulty.value)| == 4;
    }
    DifficultySentenceByLevel(r.difficulty.value);
  }
}
