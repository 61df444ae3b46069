/**
 * frontend/src/app/page.tsx: the landing page's quick-analysis form. It
 * keeps a list of task lines (three to start with), records speech into a
 * transcript of at most 2000 characters, merges the transcript into the
 * task lines, and lets the visitor go on to the demo results.
 */
module LandingPage {

  import opened Wrappers
  import opened Text
  import Seqs

  const MaxRecordingSeconds: int := 120
  const MaxTranscript: nat := 2000
  const MaxTasks: nat := 20
  const MinFields: nat := 3
  const DemoResults: string := "/dashboard/results/demo-123"
  const NotSupported: string := "Speech recognition is not supported in your browser. Please use Chrome, Edge, or Safari."
  const NameAndTaskMissing: string := "Please enter a workflow name and at least one task"
  const TaskMissing: string := "Please enter at least one task"

  /** One entry of `event.results`: its best alternative's text and whether it is final. */
  datatype SpeechResult = SpeechResult(text: string, isFinal: bool)

  /** `transcript + ' '` for every final result with index in [lo, hi), in order. */
  function FinalText(results: seq<SpeechResult>, lo: nat, hi: nat): string
    requires hi <= |results|
    decreases hi
  {
    if hi <= lo then []
    else FinalText(results, lo, hi - 1) + (if results[hi - 1].isFinal then results[hi - 1].text + " " else [])
  }

  /** The texts of the results in [lo, hi) that are not final yet, in order. */
  function InterimText(results: seq<SpeechResult>, lo: nat, hi: nat): string
    requires hi <= |results|
    decreases hi
  {
    if hi <= lo then []
    else InterimText(results, lo, hi - 1) + (if results[hi - 1].isFinal then [] else results[hi - 1].text)
  }

  /** `s.substring(0, 2000)` when s is longer than 2000 characters. */
  function Capped(s: string): (r: string)
    ensures |r| <= MaxTranscript && |r| <= |s|
    ensures r == s[..|r|]
    ensures |s| <= MaxTranscript ==> r == s
    ensures |s| > MaxTranscript ==> |r| == MaxTranscript
  {
    if |s| > MaxTranscript then s[..MaxTranscript] else s
  }

  predicate Visible(c: char) {
    !IsSpace(c)
  }

  /** The characters of s that are not whitespace, in order. */
  function VisibleChars(s: string): string {
    Seqs.Filter(s, Visible)
  }

  /** Dropping leading whitespace drops no visible character. */
  lemma {:induction false} TrimLeftKeepsVisible(s: string)
    ensures VisibleChars(TrimLeft(s)) == VisibleChars(s)
    decreases |s|
  {
    if s != [] && IsSpace(s[0]) {
      TrimLeftKeepsVisible(s[1..]);
      assert TrimLeft(s) == TrimLeft(s[1..]);
    }
  }

  /** `.replace(/\s+/g, ' ')`: every run of whitespace becomes one space; the other characters are kept in order. */
  function CollapseSpaces(s: string): (r: string)
    ensures r == [] <==> s == []
    ensures r != [] && r[0] == ' ' ==> IsSpace(s[0])
    ensures forall i :: 0 <= i < |r| && IsSpace(r[i]) ==> r[i] == ' '
    ensures forall i :: 0 <= i < |r| - 1 ==> !(r[i] == ' ' && r[i + 1] == ' ')
    ensures VisibleChars(r) == VisibleChars(s)
    decreases |s|
  {
    if s == [] then []
    else if IsSpace(s[0]) then
      var rest := TrimLeft(s[1..]);
      var tail := CollapseSpaces(rest);
      assert tail != [] ==> !IsSpace(rest[0]);
      TrimLeftKeepsVisible(s[1..]);
      assert ([' '] + tail)[1..] == tail;
      [' '] + tail
    else
      var tail := CollapseSpaces(s[1..]);
      assert ([s[0]] + tail)[1..] == tail;
      [s[0]] + tail
  }

  /**
   * The replacement described character by character, as a left-to-right
   * scan: a whitespace character becomes a space when it starts a run and
   * is dropped when it follows whitespace; every other character is copied.
   */
  function CollapsedFrom(s: string, afterSpace: bool): string
    decreases |s|
  {
    if s == [] then []
    else if IsSpace(s[0]) then (if afterSpace then [] else [' ']) + CollapsedFrom(s[1..], true)
    else [s[0]] + CollapsedFrom(s[1..], false)
  }

  lemma {:induction false} CollapsedSkipsRun(s: string)
    ensures CollapsedFrom(s, true) == CollapsedFrom(TrimLeft(s), true)
    decreases |s|
  {
    if s != [] && IsSpace(s[0]) {
      assert TrimLeft(s) == TrimLeft(s[1..]);
      CollapsedSkipsRun(s[1..]);
    }
  }

  /** Each whitespace run becomes exactly one space, wherever it is, and the rest is copied. */
  lemma {:induction false} CollapseSpacesIsScan(s: string)
    ensures CollapseSpaces(s) == CollapsedFrom(s, false)
    decreases |s|
  {
    if s != [] {
      if IsSpace(s[0]) {
        var rest := TrimLeft(s[1..]);
        CollapseSpacesIsScan(rest);
        assert rest == [] || !IsSpace(rest[0]);
        assert CollapsedFrom(rest, true) == CollapsedFrom(rest, false);
        CollapsedSkipsRun(s[1..]);
      } else {
        CollapseSpacesIsScan(s[1..]);
      }
    }
  }

  /** A run made only of whitespace collapses to a single space. */
  lemma CollapseSpacesRun(s: string)
    requires s != [] && forall i :: 0 <= i < |s| ==> IsSpace(s[i])
    ensures CollapseSpaces(s) == " "
  {
    var rest := s[1..];
    assert forall i :: 0 <= i < |rest| ==> IsSpace(rest[i]) by {
      forall i | 0 <= i < |rest| ensures IsSpace(rest[i]) { assert rest[i] == s[i + 1]; }
    }
    assert LeadingSpaces(rest) == |rest|;
    assert TrimLeft(rest) == [];
  }

  /** A string whose only whitespace is single spaces is left as it is. */
  lemma {:induction false} CollapseSpacesFixed(r: string)
    requires forall i :: 0 <= i < |r| && IsSpace(r[i]) ==> r[i] == ' '
    requires forall i :: 0 <= i < |r| - 1 ==> !(r[i] == ' ' && r[i + 1] == ' ')
    ensures CollapseSpaces(r) == r
    decreases |r|
  {
    if r != [] {
      var tail := r[1..];
      assert forall i :: 0 <= i < |tail| ==> tail[i] == r[i + 1];
      CollapseSpacesFixed(tail);
      if IsSpace(r[0]) {
        assert tail == [] || !IsSpace(tail[0]);
        assert TrimLeft(tail) == tail;
      }
      assert [r[0]] + tail == r;
    }
  }

  /** Collapsing twice is collapsing once. */
  lemma CollapseSpacesIdempotent(s: string)
    ensures CollapseSpaces(CollapseSpaces(s)) == CollapseSpaces(s)
  {
    CollapseSpacesFixed(CollapseSpaces(s));
  }

  /**
   * The three regular expressions of applyTranscriptToTasks, which are not
   * modelled: removing filler words, splitting at spoken separators such as
   * "first" or "also", and removing a leading "I need to" and the like.
   */
  datatype Patterns = Patterns(
    removeFillers: string -> string,
    splitTasks: string -> seq<string>,
    stripLead: string -> string)

  /** `cleanedTranscript`: fillers removed, whitespace runs collapsed, ends trimmed. */
  function Cleaned(transcript: string, p: Patterns): string {
    Trim(CollapseSpaces(p.removeFillers(transcript)))
  }

  predicate NonEmpty(t: string) {
    |t| > 0
  }

  /**
   * JavaScript's `length`: the number of UTF-16 code units, two for a
   * character outside the Basic Multilingual Plane.
   */
  function Utf16Length(s: string): (n: nat)
    ensures |s| <= n <= 2 * |s|
  {
    if s == [] then 0 else (if s[0] as int > 0xFFFF then 2 else 1) + Utf16Length(s[1..])
  }

  /** Long enough to count as a task (`t.length > 5`). */
  predicate Meaningful(t: string) {
    Utf16Length(t) > 5
  }

  function Shape(t: string, p: Patterns): string {
    Capitalize(p.stripLead(t))
  }

  /** `.map(t => t.trim())`. */
  function TrimAll(pieces: seq<string>): (r: seq<string>)
    ensures |r| == |pieces| && forall k :: 0 <= k < |pieces| ==> r[k] == Trim(pieces[k])
  {
    seq(|pieces|, k requires 0 <= k < |pieces| => Trim(pieces[k]))
  }

  /** `.map(t => { ...strip the lead...; capitalise })`. */
  function ShapeAll(ts: seq<string>, p: Patterns): (r: seq<string>)
    ensures |r| == |ts| && forall k :: 0 <= k < |ts| ==> r[k] == Shape(ts[k], p)
  {
    seq(|ts|, k requires 0 <= k < |ts| => Shape(ts[k], p))
  }

  /** `detectedTasks`: the trimmed, non-empty pieces, reshaped, that are long enough. */
  function Detected(cleaned: string, p: Patterns): (r: seq<string>)
    ensures forall k :: 0 <= k < |r| ==> Utf16Length(r[k]) > 5
    ensures |r| <= |p.splitTasks(cleaned)|
  {
    var pieces := p.splitTasks(cleaned);
    Seqs.Filter(ShapeAll(Seqs.Filter(TrimAll(pieces), NonEmpty), p), Meaningful)
  }

  /**
   * The detected tasks described piece by piece: a piece contributes its
   * trimmed, reshaped text exactly when the trimmed piece is not empty and
   * the reshaped text is longer than five characters.
   */
  function DetectedFrom(pieces: seq<string>, p: Patterns): seq<string> {
    if pieces == [] then []
    else
      var t := Trim(pieces[0]);
      (if NonEmpty(t) && Meaningful(Shape(t, p)) then [Shape(t, p)] else []) + DetectedFrom(pieces[1..], p)
  }

  /** The map-filter-map-filter chain is the piece-by-piece description. */
  lemma {:induction false} DetectedPieceByPiece(pieces: seq<string>, p: Patterns)
    ensures Seqs.Filter(ShapeAll(Seqs.Filter(TrimAll(pieces), NonEmpty), p), Meaningful) == DetectedFrom(pieces, p)
  {
    if pieces != [] {
      DetectedPieceByPiece(pieces[1..], p);
      var t := Trim(pieces[0]);
      var trimmed := TrimAll(pieces);
      assert trimmed[0] == t && trimmed[1..] == TrimAll(pieces[1..]);
      var restKept := Seqs.Filter(TrimAll(pieces[1..]), NonEmpty);
      if NonEmpty(t) {
        assert Seqs.Filter(trimmed, NonEmpty) == [t] + restKept;
        var shaped := ShapeAll([t] + restKept, p);
        assert shaped[0] == Shape(t, p) && shaped[1..] == ShapeAll(restKept, p);
      } else {
        assert Seqs.Filter(trimmed, NonEmpty) == restKept;
      }
    }
  }

  lemma DetectedIsPieceByPiece(cleaned: string, p: Patterns)
    ensures Detected(cleaned, p) == DetectedFrom(p.splitTasks(cleaned), p)
  {
    DetectedPieceByPiece(p.splitTasks(cleaned), p);
  }

  /** The task lines before padding: the filled-in lines, then the detected tasks (at most 20 in all) or the whole transcript. */
  function Merged(tasks: seq<string>, detected: seq<string>, cleaned: string): (r: seq<string>)
    ensures detected != [] ==> |r| <= MaxTasks
    ensures detected != [] ==> |r| == if |NonBlank(tasks) + detected| <= MaxTasks then |NonBlank(tasks) + detected| else MaxTasks
    ensures detected != [] ==> r == (NonBlank(tasks) + detected)[..|r|]
    ensures detected == [] ==> r == NonBlank(tasks) + [cleaned]
  {
    var current := NonBlank(tasks);
    if detected != [] then
      var all := current + detected;
      if |all| <= MaxTasks then all else all[..MaxTasks]
    else current + [cleaned]
  }

  /** `while (allTasks.length < 3) allTasks.push('')`. */
  function Padded(s: seq<string>): (r: seq<string>)
    ensures |r| >= MinFields && |r| >= |s| && r[..|s|] == s
    ensures forall k :: 0 <= k < |s| ==> r[k] == s[k]
    ensures |s| >= MinFields ==> r == s
    ensures forall k :: |s| <= k < |r| ==> r[k] == ""
    decreases MinFields - |s|
  {
    if |s| >= MinFields then s else Padded(s + [""])
  }

  /** The filled-in lines always come first and keep their order, as long as they fit in twenty. */
  lemma MergeKeepsExisting(tasks: seq<string>, detected: seq<string>, cleaned: string)
    requires |NonBlank(tasks)| <= MaxTasks
    ensures Padded(Merged(tasks, detected, cleaned))[..|NonBlank(tasks)|] == NonBlank(tasks)
  {
    var m := Merged(tasks, detected, cleaned);
    var n := |NonBlank(tasks)|;
    assert n <= |m|;
    assert Padded(m)[..|m|] == m;
    assert Padded(m)[..n] == Padded(m)[..|m|][..n];
    if detected != [] {
      assert m[..n] == (NonBlank(tasks) + detected)[..n];
    } else {
      assert m[..n] == (NonBlank(tasks) + [cleaned])[..n];
    }
  }

  /** With room for every detected task, the merge is the filled-in lines followed by all of them. */
  lemma MergedWhenRoom(tasks: seq<string>, detected: seq<string>, cleaned: string)
    requires detected != []
    requires |NonBlank(tasks)| + |detected| <= MaxTasks
    ensures Merged(tasks, detected, cleaned) == NonBlank(tasks) + detected
  {
    var all := NonBlank(tasks) + detected;
    assert all[..|all|] == all;
  }

  /** Padding never moves an element: the entries after a prefix are still where they were. */
  lemma PaddedAfterPrefix(prefix: seq<string>, rest: seq<string>)
    ensures forall k :: 0 <= k < |rest| ==> Padded(prefix + rest)[|prefix| + k] == rest[k]
  {
    var all := prefix + rest;
    forall k | 0 <= k < |rest|
      ensures Padded(all)[|prefix| + k] == rest[k]
    {
      assert all[|prefix| + k] == rest[k];
    }
  }

  /** Every detected task is kept when there is room for all of them. */
  lemma MergeKeepsDetected(tasks: seq<string>, detected: seq<string>, cleaned: string)
    requires detected != []
    requires |NonBlank(tasks)| + |detected| <= MaxTasks
    ensures forall k :: 0 <= k < |detected| ==> Padded(Merged(tasks, detected, cleaned))[|NonBlank(tasks)| + k] == detected[k]
  {
    MergedWhenRoom(tasks, detected, cleaned);
    PaddedAfterPrefix(NonBlank(tasks), detected);
  }

  /** The padding loop of applyTranscriptToTasks: empty lines are pushed until there are three. */
  method PadLines(merged: seq<string>) returns (all: seq<string>)
    ensures all == Padded(merged)
  {
    all := merged;
    while |all| < MinFields
      invariant Padded(all) == Padded(merged)
      decreases MinFields - |all|
    {
      all := all + [""];
    }
  }

  class Landing {
    var workflowName: string
    var tasks: seq<string>
    var isRecording: bool
    var transcript: string
    var recordingTime: int
    /** `recognitionRef.current !== null`. */
    var recognitionActive: bool
    /** Whether `recognition.stop()` has been asked for in this session. */
    var stopRequested: bool
    /** The transcript when the session started, as the session's handlers see it. */
    var sessionBase: string
    /** `fullTranscript`: the final results of this session. */
    var sessionFinal: string
    var alerts: seq<string>
    var location: Option<string>

    /** At least three task lines; the timer is between 0 and 120 and is 0 when not recording. */
    ghost predicate Valid()
      reads this
    {
      |tasks| >= MinFields && 0 <= recordingTime <= MaxRecordingSeconds && (!isRecording ==> recordingTime == 0)
    }

    constructor ()
      ensures Valid()
      ensures workflowName == "" && tasks == ["", "", ""] && transcript == ""
      ensures !isRecording && recordingTime == 0 && !recognitionActive
      ensures alerts == [] && location == None
      ensures !stopRequested && sessionBase == "" && sessionFinal == ""
    {
      workflowName := "";
      tasks := ["", "", ""];
      isRecording := false;
      transcript := "";
      recordingTime := 0;
      recognitionActive := false;
      stopRequested := false;
      sessionBase := "";
      sessionFinal := "";
      alerts := [];
      location := None;
    }

    /**
     * One second of the recording timer: at 120 it stops the recognition
     * and starts again from 0, otherwise it counts up. There is no timer
     * while not recording.
     */
    method Tick()
      requires Valid()
      modifies this
      ensures Valid()
      ensures !old(isRecording) ==> recordingTime == old(recordingTime) && recognitionActive == old(recognitionActive)
      ensures old(isRecording) && old(recordingTime) >= MaxRecordingSeconds ==>
        recordingTime == 0 && !recognitionActive && (old(recognitionActive) ==> stopRequested)
      ensures old(isRecording) && old(recordingTime) < MaxRecordingSeconds ==>
        recordingTime == old(recordingTime) + 1 && recognitionActive == old(recognitionActive)
      ensures !(old(isRecording) && old(recordingTime) >= MaxRecordingSeconds && old(recognitionActive)) ==>
        stopRequested == old(stopRequested)
      ensures isRecording == old(isRecording) && tasks == old(tasks) && transcript == old(transcript)
      ensures workflowName == old(workflowName) && alerts == old(alerts) && location == old(location)
      ensures sessionBase == old(sessionBase) && sessionFinal == old(sessionFinal)
    {
      if isRecording {
        if recordingTime >= MaxRecordingSeconds {
          if recognitionActive {
            stopRequested := true;
            recognitionActive := false;
          }
          recordingTime := 0;
        } else {
          recordingTime := recordingTime + 1;
        }
      }
    }

    /** startRecording: without speech support an alert; otherwise a new session that keeps the transcript so far. */
    method StartRecording(supported: bool)
      requires Valid()
      modifies this
      ensures Valid()
      ensures !supported ==> alerts == old(alerts) + [NotSupported] && recognitionActive == old(recognitionActive)
      ensures !supported ==> stopRequested == old(stopRequested) && sessionBase == old(sessionBase) && sessionFinal == old(sessionFinal)
      ensures supported ==>
        alerts == old(alerts) && recognitionActive && !stopRequested && sessionBase == old(transcript) && sessionFinal == ""
      ensures transcript == old(transcript) && tasks == old(tasks) && isRecording == old(isRecording)
      ensures recordingTime == old(recordingTime) && workflowName == old(workflowName) && location == old(location)
    {
      if !supported {
        alerts := alerts + [NotSupported];
        return;
      }
      sessionBase := transcript;
      sessionFinal := "";
      stopRequested := false;
      recognitionActive := true;
    }

    /** recognition.onstart. */
    method OnStart()
      requires Valid()
      modifies this
      ensures Valid()
      ensures isRecording && recordingTime == old(recordingTime)
      ensures transcript == old(transcript) && tasks == old(tasks)
      ensures workflowName == old(workflowName) && alerts == old(alerts) && location == old(location)
      ensures recognitionActive == old(recognitionActive) && stopRequested == old(stopRequested)
      ensures sessionBase == old(sessionBase) && sessionFinal == old(sessionFinal)
    {
      isRecording := true;
    }

    /**
     * recognition.onresult: the session's final results are appended to
     * `fullTranscript`, and the transcript becomes the session's starting
     * text, the final results and the interim ones, cut at 2000 characters
     * (and recognition asked to stop) when longer.
     */
    method OnResult(results: seq<SpeechResult>, resultIndex: nat)
      requires Valid()
      modifies this
      ensures Valid()
      ensures resultIndex <= |results| ==> sessionFinal == old(sessionFinal) + FinalText(results, resultIndex, |results|)
      ensures resultIndex > |results| ==> sessionFinal == old(sessionFinal)
      ensures var interim := if resultIndex <= |results| then InterimText(results, resultIndex, |results|) else [];
        transcript == Capped(sessionBase + sessionFinal + interim)
        && (|sessionBase + sessionFinal + interim| > MaxTranscript ==> stopRequested)
        && (|sessionBase + sessionFinal + interim| <= MaxTranscript ==> stopRequested == old(stopRequested))
      ensures |transcript| <= MaxTranscript
      ensures sessionBase == old(sessionBase) && tasks == old(tasks) && isRecording == old(isRecording)
      ensures recordingTime == old(recordingTime) && recognitionActive == old(recognitionActive)
      ensures workflowName == old(workflowName) && alerts == old(alerts) && location == old(location)
    {
      var final := sessionFinal;
      var interim := "";
      var i := resultIndex;
      while i < |results|
        invariant resultIndex <= i <= |results| || (i == resultIndex && resultIndex > |results|)
        invariant i <= |results| ==> final == sessionFinal + FinalText(results, resultIndex, i)
        invariant i <= |results| ==> interim == InterimText(results, resultIndex, i)
        invariant i > |results| ==> final == sessionFinal && interim == []
        decreases |results| - i
      {
        var text := results[i].text;
        if results[i].isFinal {
          final := final + text + " ";
        } else {
          interim := interim + text;
        }
        i := i + 1;
      }
      sessionFinal := final;
      var combined := sessionBase + sessionFinal + interim;
      if |combined| > MaxTranscript {
        stopRequested := true;
        transcript := combined[..MaxTranscript];
      } else {
        transcript := combined;
      }
    }

    /** recognition.onend: recording stops, and a space is added when the session started with text. */
    method OnEnd()
      requires Valid()
      modifies this
      ensures Valid()
      ensures !isRecording && recordingTime == 0 && !recognitionActive
      ensures transcript == old(transcript) + (if IsBlank(sessionBase) then [] else " ")
      ensures tasks == old(tasks) && stopRequested == old(stopRequested)
      ensures workflowName == old(workflowName) && alerts == old(alerts) && location == old(location)
      ensures sessionBase == old(sessionBase) && sessionFinal == old(sessionFinal)
    {
      isRecording := false;
      recordingTime := 0;
      recognitionActive := false;
      if !IsBlank(sessionBase) {
        transcript := transcript + " ";
      }
    }

    /** stopRecording. */
    method StopRecording()
      requires Valid()
      modifies this
      ensures Valid()
      ensures !isRecording && recordingTime == 0 && !recognitionActive
      ensures old(recognitionActive) ==> stopRequested
      ensures !old(recognitionActive) ==> stopRequested == old(stopRequested)
      ensures transcript == old(transcript) && tasks == old(tasks)
      ensures workflowName == old(workflowName) && alerts == old(alerts) && location == old(location)
      ensures sessionBase == old(sessionBase) && sessionFinal == old(sessionFinal)
    {
      if recognitionActive {
        stopRequested := true;
        recognitionActive := false;
      }
      isRecording := false;
      recordingTime := 0;
    }

    /**
     * applyTranscriptToTasks: a blank transcript changes nothing; otherwise
     * the filled-in lines are kept and the detected tasks (or, if none, the
     * whole cleaned transcript) follow, padded to three lines, and the
     * transcript is cleared.
     */
    method ApplyTranscript(p: Patterns)
      requires Valid()
      modifies this
      ensures Valid()
      ensures IsBlank(old(transcript)) ==> tasks == old(tasks) && transcript == old(transcript)
      ensures !IsBlank(old(transcript)) ==>
        var cleaned := Cleaned(old(transcript), p);
        tasks == Padded(Merged(old(tasks), Detected(cleaned, p), cleaned)) && transcript == ""
      ensures isRecording == old(isRecording) && recordingTime == old(recordingTime)
      ensures alerts == old(alerts) && location == old(location) && workflowName == old(workflowName)
      ensures recognitionActive == old(recognitionActive) && stopRequested == old(stopRequested)
      ensures sessionBase == old(sessionBase) && sessionFinal == old(sessionFinal)
    {
      if !IsBlank(transcript) {
        var cleaned := Cleaned(transcript, p);
        var lines := PadLines(Merged(tasks, Detected(cleaned, p), cleaned));
        tasks := lines;
        transcript := "";
      }
    }

    /** updateTask: line `index` gets the value; the others are unchanged. */
    method UpdateTask(index: int, value: string)
      requires Valid()
      requires 0 <= index < |tasks|
      modifies this
      ensures Valid()
      ensures tasks == old(tasks)[index := value]
      ensures transcript == old(transcript) && workflowName == old(workflowName)
      ensures alerts == old(alerts) && location == old(location)
      ensures isRecording == old(isRecording) && recordingTime == old(recordingTime)
      ensures recognitionActive == old(recognitionActive) && stopRequested == old(stopRequested)
      ensures sessionBase == old(sessionBase) && sessionFinal == old(sessionFinal)
    {
      tasks := tasks[index := value];
    }

    /**
     * handleSubmit: with no filled-in task line an alert (naming the
     * workflow name too when that is blank as well); otherwise, whatever
     * the name, on to the demo results.
     */
    method Submit()
      requires Valid()
      modifies this
      ensures Valid()
      ensures NonBlank(tasks) == [] && IsBlank(workflowName) ==>
        alerts == old(alerts) + [NameAndTaskMissing] && location == old(location)
      ensures NonBlank(tasks) == [] && !IsBlank(workflowName) ==>
        alerts == old(alerts) + [TaskMissing] && location == old(location)
      ensures NonBlank(tasks) != [] ==> alerts == old(alerts) && location == Some(DemoResults)
      ensures tasks == old(tasks) && workflowName == old(workflowName) && transcript == old(transcript)
      ensures isRecording == old(isRecording) && recordingTime == old(recordingTime)
      ensures recognitionActive == old(recognitionActive) && stopRequested == old(stopRequested)
      ensures sessionBase == old(sessionBase) && sessionFinal == old(sessionFinal)
    {
      var valid := NonBlank(tasks);
      if valid == [] && IsBlank(workflowName) {
        alerts := alerts + [NameAndTaskMissing];
        return;
      }
      if valid == [] {
        alerts := alerts + [TaskMissing];
        return;
      }
      location := Some(DemoResults);
    }
  }

}
