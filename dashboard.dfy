/**
 * frontend/src/app/dashboard/page.tsx: the dashboard's list of workflows.
 * Each workflow is joined with its analysis when one can be fetched, the
 * list is put newest first, and the figures at the top are computed from
 * the analysed workflows.
 */
module Dashboard {

  import opened Wrappers
  import opened Text
  import Seqs
  import Reals

  /** An entry of `GET /api/workflows` (the creation time as a number). */
  datatype WorkflowItem = WorkflowItem(
    id: nat,
    name: string,
    description: Option<string>,
    createdAt: int,
    taskCount: Option<nat>)

  /** `GET /api/results/{id}`: no analysis (a failed or not-ok fetch), or the analysis fields. */
  datatype AnalysisFetch =
    | NoAnalysis
    | Analysis(
        automationScore: Option<real>,
        hoursSaved: Option<real>,
        annualSavings: Option<real>,
        workflowTaskCount: Option<nat>)

  datatype WorkflowSummary = WorkflowSummary(
    id: nat,
    name: string,
    description: Option<string>,
    createdAt: int,
    automationScore: Option<real>,
    hoursSaved: Option<real>,
    annualSavings: Option<real>,
    taskCount: nat)

  /**
   * One workflow joined with its analysis. The task count comes from the
   * analysis' workflow when it has one, else from the list entry, else 0.
   */
  function Enrich(wf: WorkflowItem, fetched: AnalysisFetch): (s: WorkflowSummary)
    ensures s.id == wf.id && s.name == wf.name && s.description == wf.description && s.createdAt == wf.createdAt
    ensures fetched.NoAnalysis? ==>
      s.automationScore.None? && s.hoursSaved.None? && s.annualSavings.None? && s.taskCount == wf.taskCount.GetOr(0)
    ensures fetched.Analysis? ==>
      s.automationScore == fetched.automationScore && s.hoursSaved == fetched.hoursSaved
      && s.annualSavings == fetched.annualSavings
    ensures fetched.Analysis? && fetched.workflowTaskCount.Some? ==> s.taskCount == fetched.workflowTaskCount.value
    ensures fetched.Analysis? && fetched.workflowTaskCount.None? ==> s.taskCount == wf.taskCount.GetOr(0)
  {
    match fetched
    case NoAnalysis =>
      WorkflowSummary(wf.id, wf.name, wf.description, wf.createdAt, None, None, None, wf.taskCount.GetOr(0))
    case Analysis(score, hours, savings, count) =>
      var taskCount := if count.Some? then count.value else wf.taskCount.GetOr(0);
      WorkflowSummary(wf.id, wf.name, wf.description, wf.createdAt, score, hours, savings, taskCount)
  }

  /** The list is newest first: no workflow is created after one shown above it. */
  predicate NewestFirst(s: seq<WorkflowSummary>) {
    forall p, q :: 0 <= p < q < |s| ==> s[p].createdAt >= s[q].createdAt
  }

  /** Each workflow is created no later than the one shown above it. */
  predicate NeighboursNewestFirst(s: seq<WorkflowSummary>) {
    forall k :: 0 < k < |s| ==> s[k - 1].createdAt >= s[k].createdAt
  }

  lemma {:induction false} NeighboursGiveNewestFirst(s: seq<WorkflowSummary>)
    requires NeighboursNewestFirst(s)
    ensures NewestFirst(s)
  {
    if |s| > 1 {
      var front := s[..|s| - 1];
      assert NeighboursNewestFirst(front);
      NeighboursGiveNewestFirst(front);
      forall p | 0 <= p < |s| - 1
        ensures s[p].createdAt >= s[|s| - 1].createdAt
      {
        assert front[p] == s[p];
        assert s[|s| - 2].createdAt >= s[|s| - 1].createdAt;
      }
    }
  }

  /** Exchanges two neighbouring workflows in the list. */
  method Swap(a: array<WorkflowSummary>, i: int, j: int)
    requires 0 <= i < j < a.Length
    modifies a
    ensures a[i] == old(a[j]) && a[j] == old(a[i])
    ensures forall k :: 0 <= k < a.Length && k != i && k != j ==> a[k] == old(a[k])
    ensures multiset(a[..]) == multiset(old(a[..]))
  {
    ghost var before := a[..];
    a[i], a[j] := a[j], a[i];
    assert a[..] == before[i := before[j]][j := before[i]];
  }

  /**
   * One step of the sort: a[i] moves left past every workflow created
   * before it, so that a[..i + 1] becomes newest first.
   */
  method InsertNewest(a: array<WorkflowSummary>, i: int)
    requires 0 <= i < a.Length
    requires NeighboursNewestFirst(a[..i])
    modifies a
    ensures NeighboursNewestFirst(a[..i + 1])
    ensures multiset(a[..]) == multiset(old(a[..]))
  {
    var j := i;
    while j > 0 && a[j - 1].createdAt < a[j].createdAt
      invariant 0 <= j <= i
      invariant forall k :: 0 < k <= i && k != j ==> a[k - 1].createdAt >= a[k].createdAt
      invariant 0 < j < i ==> a[j - 1].createdAt >= a[j + 1].createdAt
      invariant multiset(a[..]) == multiset(old(a[..]))
    {
      Swap(a, j - 1, j);
      j := j - 1;
    }
  }

  /**
   * `enriched.sort((a, b) => b.created_at - a.created_at)`: in place,
   * newest first, the same workflows as before.
   */
  method SortNewestFirst(a: array<WorkflowSummary>)
    modifies a
    ensures NewestFirst(a[..])
    ensures multiset(a[..]) == multiset(old(a[..]))
  {
    var i := 0;
    while i < a.Length
      invariant 0 <= i <= a.Length
      invariant NeighboursNewestFirst(a[..i])
      invariant multiset(a[..]) == multiset(old(a[..]))
    {
      InsertNewest(a, i);
      i := i + 1;
    }
    assert a[..a.Length] == a[..];
    NeighboursGiveNewestFirst(a[..]);
  }

  predicate IsAnalyzed(w: WorkflowSummary) {
    w.automationScore.Some?
  }

  predicate IsPending(w: WorkflowSummary) {
    w.automationScore.None?
  }

  /** `workflows.filter(w => w.automation_score !== null)`. */
  function Analyzed(ws: seq<WorkflowSummary>): (r: seq<WorkflowSummary>)
    ensures |r| <= |ws|
    ensures forall k :: 0 <= k < |r| ==> IsAnalyzed(r[k]) && r[k] in ws
    ensures forall k :: 0 <= k < |ws| && IsAnalyzed(ws[k]) ==> ws[k] in r
    ensures Seqs.IsSubsequence(r, ws)
    ensures multiset(r) <= multiset(ws)
    ensures forall k :: 0 <= k < |ws| && IsAnalyzed(ws[k]) ==> multiset(r)[ws[k]] == multiset(ws)[ws[k]]
  {
    Seqs.FilterIsSubsequence(ws, IsAnalyzed);
    Seqs.FilterMultiset(ws, IsAnalyzed);
    Seqs.Filter(ws, IsAnalyzed)
  }

  /** `workflows.length - analyzed.length` counts exactly the workflows without an analysis. */
  lemma PendingCount(ws: seq<WorkflowSummary>)
    ensures |ws| - |Analyzed(ws)| == |Seqs.Filter(ws, IsPending)|
    ensures |ws| - |Analyzed(ws)| == 0 <==> forall k :: 0 <= k < |ws| ==> IsAnalyzed(ws[k])
  {
    Seqs.FilterComplement(ws, IsAnalyzed, IsPending);
    Seqs.FilterNoneIff(ws, IsPending);
  }

  /** The line under the analysed count. */
  function PendingLine(ws: seq<WorkflowSummary>): (line: string)
    ensures (forall k :: 0 <= k < |ws| ==> IsAnalyzed(ws[k])) <==> line == "All workflows analyzed"
    ensures !(forall k :: 0 <= k < |ws| ==> IsAnalyzed(ws[k])) ==>
      line == Decimal(|Seqs.Filter(ws, IsPending)|) + " pending analysis"
  {
    PendingCount(ws);
    var pending := |ws| - |Analyzed(ws)|;
    if pending > 0 then
      var line := Decimal(pending) + " pending analysis";
      assert line[0] == Decimal(pending)[0] != 'A';
      line
    else "All workflows analyzed"
  }

  function Hours(w: WorkflowSummary): real {
    w.hoursSaved.GetOr(0.0)
  }

  function Score(w: WorkflowSummary): real {
    w.automationScore.GetOr(0.0)
  }

  function Savings(w: WorkflowSummary): real {
    w.annualSavings.GetOr(0.0)
  }

  function Each(ws: seq<WorkflowSummary>, f: WorkflowSummary -> real): (r: seq<real>)
    ensures |r| == |ws| && forall k :: 0 <= k < |ws| ==> r[k] == f(ws[k])
  {
    seq(|ws|, k requires 0 <= k < |ws| => f(ws[k]))
  }

  /** `analyzed.reduce((sum, w) => sum + (w.hours_saved ?? 0), 0)`. */
  function TotalHours(ws: seq<WorkflowSummary>): real {
    Reals.Sum(Each(Analyzed(ws), Hours))
  }

  /** `analyzed.reduce((sum, w) => sum + (w.annual_savings ?? 0), 0)`. */
  function TotalSavings(ws: seq<WorkflowSummary>): real {
    Reals.Sum(Each(Analyzed(ws), Savings))
  }

  /** JavaScript's Math.round: the nearest integer, halves rounded up. */
  function Round(x: real): (n: int)
    ensures n as real - 0.5 <= x < n as real + 0.5
  {
    (x + 0.5).Floor
  }

  /** Rounding keeps a value between two whole bounds between them. */
  lemma RoundBounds(x: real, lo: int, hi: int)
    requires lo as real <= x <= hi as real
    ensures lo <= Round(x) <= hi
  {
  }

  /** avgScore: the rounded mean score of the analysed workflows, or null when there are none. */
  function AvgScore(ws: seq<WorkflowSummary>): (r: Option<int>)
    ensures r.None? <==> Analyzed(ws) == []
    ensures r.Some? ==>
      var analyzed := Analyzed(ws);
      r.value as real - 0.5 <= Reals.Sum(Each(analyzed, Score)) / |analyzed| as real < r.value as real + 0.5
  {
    var analyzed := Analyzed(ws);
    if |analyzed| > 0 then Some(Round(Reals.Sum(Each(analyzed, Score)) / |analyzed| as real)) else None
  }

  /** Scores between 0 and 100 give an average between 0 and 100. */
  lemma AvgScoreInRange(ws: seq<WorkflowSummary>)
    requires forall k :: 0 <= k < |ws| && IsAnalyzed(ws[k]) ==> 0.0 <= ws[k].automationScore.value <= 100.0
    ensures AvgScore(ws).Some? ==> 0 <= AvgScore(ws).value <= 100
  {
    var analyzed := Analyzed(ws);
    if |analyzed| > 0 {
      var scores := Each(analyzed, Score);
      forall k | 0 <= k < |scores|
        ensures 0.0 <= scores[k] <= 100.0
      {
        var j :| 0 <= j < |ws| && ws[j] == analyzed[k];
      }
      Reals.MeanBounds(scores, 0.0, 100.0);
      RoundBounds(Reals.Sum(scores) / |scores| as real, 0, 100);
    }
  }

  /** Non-negative hours on the analysed workflows give a non-negative total. */
  lemma TotalHoursNonNegative(ws: seq<WorkflowSummary>)
    requires forall k :: 0 <= k < |ws| && IsAnalyzed(ws[k]) && ws[k].hoursSaved.Some? ==> 0.0 <= ws[k].hoursSaved.value
    ensures 0.0 <= TotalHours(ws)
  {
    var hours := Each(Analyzed(ws), Hours);
    forall k | 0 <= k < |hours|
      ensures 0.0 <= hours[k]
    {
      var j :| 0 <= j < |ws| && ws[j] == Analyzed(ws)[k];
    }
    Reals.SumNonNegative(hours);
  }

  /** The savings banner shows only once loading is over and the total is positive. */
  predicate ShowSavingsBanner(loading: bool, ws: seq<WorkflowSummary>) {
    !loading && TotalSavings(ws) > 0.0
  }

  /** With no analysed workflow nothing is summed: no banner. */
  lemma NoAnalysisNoBanner(loading: bool, ws: seq<WorkflowSummary>)
    requires forall k :: 0 <= k < |ws| ==> IsPending(ws[k])
    ensures !ShowSavingsBanner(loading, ws)
  {
    Seqs.FilterNoneIff(ws, IsAnalyzed);
  }

  datatype Tier = Green | Yellow | Red

  /** The colour band of a score: 75 and up, 50 and up, below 50. */
  function ScoreTier(score: real): (t: Tier)
    ensures t == Green <==> score >= 75.0
    ensures t == Yellow <==> 50.0 <= score < 75.0
    ensures t == Red <==> score < 50.0
  {
    if score >= 75.0 then Green else if score >= 50.0 then Yellow else Red
  }

  /** getScoreColor and getScoreBadge: the text colour and the badge classes of a score's band. */
  function ScoreStyle(score: real): (s: (string, string))
    ensures ScoreTier(score) == Green ==> s == ("text-green-600", "bg-green-100 text-green-700 border-green-200")
    ensures ScoreTier(score) == Yellow ==> s == ("text-yellow-600", "bg-yellow-100 text-yellow-700 border-yellow-200")
    ensures ScoreTier(score) == Red ==> s == ("text-red-500", "bg-red-100 text-red-700 border-red-200")
  {
    match ScoreTier(score)
    case Green => ("text-green-600", "bg-green-100 text-green-700 border-green-200")
    case Yellow => ("text-yellow-600", "bg-yellow-100 text-yellow-700 border-yellow-200")
    case Red => ("text-red-500", "bg-red-100 text-red-700 border-red-200")
  }

  /** A higher score never gets a lower band. */
  lemma TierMonotone(a: real, b: real)
    requires a <= b
    ensures ScoreTier(a) == Green ==> ScoreTier(b) == Green
    ensures ScoreTier(a) == Yellow ==> ScoreTier(b) != Red
  {
  }

  /** A card links to its results only when the workflow has been analysed. */
  function CardLink(w: WorkflowSummary): (link: string)
    ensures IsAnalyzed(w) ==> link == "/dashboard/results/" + Decimal(w.id)
    ensures !IsAnalyzed(w) ==> link == "#"
  {
    if IsAnalyzed(w) then "/dashboard/results/" + Decimal(w.id) else "#"
  }

  /** `{wf.task_count} task{wf.task_count !== 1 ? 's' : ''}`. */
  function TaskCountLabel(count: nat): (text: string)
    ensures StartsWith(text, Decimal(count) + " task")
    ensures text[|text| - 1] == 's' <==> count != 1
    ensures |text| == |Decimal(count)| + 5 + (if count != 1 then 1 else 0)
  {
    Decimal(count) + " task" + (if count != 1 then "s" else "")
  }
}
