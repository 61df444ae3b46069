/**
 * frontend/src/components/WorkflowForm.tsx: the workflow entry form. The
 * task list is edited row by row, a document or recording can replace it
 * with parsed tasks, and submitting validates the form, creates the
 * workflow and asks for its analysis.
 */
module WorkflowForm {

  import opened Wrappers
  import opened Text
  import Seqs

  datatype FormTask = FormTask(
    name: string,
    description: string,
    frequency: string,
    timePerTask: int,
    category: string,
    complexity: string)

  /** The row a new task starts as. */
  const NewTask: FormTask := FormTask("", "", "weekly", 30, "general", "medium")

  /** `updateTask(index, field, value)`: which field gets which value. */
  datatype Edit =
    | SetName(name: string)
    | SetDescription(description: string)
    | SetFrequency(frequency: string)
    | SetTimePerTask(minutes: int)
    | SetCategory(category: string)
    | SetComplexity(complexity: string)

  /** `{ ...task, [field]: value }`: the one field replaced, every other kept. */
  function ApplyEdit(t: FormTask, e: Edit): (r: FormTask)
    ensures r.name == (if e.SetName? then e.name else t.name)
    ensures r.description == (if e.SetDescription? then e.description else t.description)
    ensures r.frequency == (if e.SetFrequency? then e.frequency else t.frequency)
    ensures r.timePerTask == (if e.SetTimePerTask? then e.minutes else t.timePerTask)
    ensures r.category == (if e.SetCategory? then e.category else t.category)
    ensures r.complexity == (if e.SetComplexity? then e.complexity else t.complexity)
  {
    match e
    case SetName(v) => t.(name := v)
    case SetDescription(v) => t.(description := v)
    case SetFrequency(v) => t.(frequency := v)
    case SetTimePerTask(v) => t.(timePerTask := v)
    case SetCategory(v) => t.(category := v)
    case SetComplexity(v) => t.(complexity := v)
  }

  predicate HasName(t: FormTask) {
    !IsBlank(t.name)
  }

  /** A row as sent: `description: t.description || t.name`. */
  function PayloadTask(t: FormTask): FormTask {
    if t.description == "" then t.(description := t.name) else t
  }

  /** The rows with a non-blank name, in order, each with its description filled in. */
  function PayloadTasks(tasks: seq<FormTask>): (r: seq<FormTask>)
    ensures forall k :: 0 <= k < |r| ==> HasName(r[k]) && r[k].description != ""
    ensures |r| <= |tasks|
  {
    var named := Seqs.Filter(tasks, HasName);
    seq(|named|, k requires 0 <= k < |named| => PayloadTask(named[k]))
  }

  function Names(tasks: seq<FormTask>): (r: seq<string>)
    ensures |r| == |tasks| && forall k :: 0 <= k < |tasks| ==> r[k] == tasks[k].name
  {
    seq(|tasks|, k requires 0 <= k < |tasks| => tasks[k].name)
  }

  /** Filling in the description leaves every name as it was. */
  lemma PayloadTaskNames(tasks: seq<FormTask>)
    ensures Names(PayloadTasks(tasks)) == Names(Seqs.Filter(tasks, HasName))
  {
    var named := Seqs.Filter(tasks, HasName);
    forall k | 0 <= k < |named|
      ensures Names(PayloadTasks(tasks))[k] == Names(named)[k]
    {
      assert PayloadTasks(tasks)[k] == PayloadTask(named[k]);
    }
  }

  /** Names([t] + rest) is t's name, then the names of rest. */
  lemma NamesCons(t: FormTask, rest: seq<FormTask>)
    ensures Names([t] + rest) == [t.name] + Names(rest)
  {
    var l := [t] + rest;
    var lhs := Names(l);
    var rhs := [t.name] + Names(rest);
    forall k | 0 <= k < |lhs|
      ensures lhs[k] == rhs[k]
    {
      if k > 0 {
        assert l[k] == rest[k - 1];
      }
    }
  }

  /** Keeping the named rows and then taking names is taking names and then keeping the non-blank ones. */
  lemma {:induction false} FilterNames(tasks: seq<FormTask>)
    ensures Names(Seqs.Filter(tasks, HasName)) == NonBlank(Names(tasks))
  {
    if tasks != [] {
      FilterNames(tasks[1..]);
      var names := Names(tasks);
      var rest := Seqs.Filter(tasks[1..], HasName);
      assert names[1..] == Names(tasks[1..]);
      assert NonBlank(names) == if NotBlank(names[0]) then [names[0]] + NonBlank(names[1..]) else NonBlank(names[1..]);
      if HasName(tasks[0]) {
        assert Seqs.Filter(tasks, HasName) == [tasks[0]] + rest;
        NamesCons(tasks[0], rest);
      } else {
        assert Seqs.Filter(tasks, HasName) == rest;
      }
    }
  }

  /** The names sent are exactly the non-blank names of the form, in the form's order. */
  lemma PayloadNames(tasks: seq<FormTask>)
    ensures Names(PayloadTasks(tasks)) == NonBlank(Names(tasks))
  {
    PayloadTaskNames(tasks);
    FilterNames(tasks);
  }

  /** Every field but the description goes out as entered, and a description that was given is kept. */
  lemma PayloadKeepsFields(tasks: seq<FormTask>)
    ensures forall k :: 0 <= k < |PayloadTasks(tasks)| ==>
      PayloadTasks(tasks)[k] == Seqs.Filter(tasks, HasName)[k].(description := PayloadTasks(tasks)[k].description)
      && (Seqs.Filter(tasks, HasName)[k].description != "" ==> PayloadTasks(tasks)[k] == Seqs.Filter(tasks, HasName)[k])
      && (Seqs.Filter(tasks, HasName)[k].description == "" ==> PayloadTasks(tasks)[k].description == Seqs.Filter(tasks, HasName)[k].name)
  {
  }

  /** `tasks.some(t => t.name.trim())`. */
  predicate AnyNamed(tasks: seq<FormTask>) {
    exists k :: 0 <= k < |tasks| && HasName(tasks[k])
  }

  /** The payload has a row exactly when some row of the form has a non-blank name. */
  lemma PayloadNonEmptyIff(tasks: seq<FormTask>)
    ensures PayloadTasks(tasks) != [] <==> AnyNamed(tasks)
  {
    Seqs.FilterNoneIff(tasks, HasName);
  }

  /** What a fetch to the API came back as. */
  datatype Reply =
    | Ok(id: int)
    | NotOk(detail: Option<string>)
    | NetworkError(message: string)

  datatype Request =
    | CreateWorkflow(name: string, description: string, tasks: seq<FormTask>)
    | Analyze(workflowId: int, hourlyRate: real)

  const NameMissing: string := "Please provide a workflow name"
  const NoTasks: string := "Please add at least one task"
  const CreateFailed: string := "Failed to create workflow"
  const AnalyzeFailed: string := "Failed to analyze workflow"
  const SubmitFailed: string := "Failed to analyze workflow. Please try again."

  /** `throw new Error(errorData.detail || fallback)` and then `error.message || SubmitFailed`. */
  function ShownError(reply: Reply, fallback: string): (m: string)
    requires !reply.Ok?
    requires fallback != ""
    ensures m != ""
    ensures reply.NotOk? && reply.detail.Some? && reply.detail.value != "" ==> m == reply.detail.value
    ensures reply.NotOk? && (reply.detail.None? || reply.detail.value == "") ==> m == fallback
    ensures reply.NetworkError? ==> m == (if reply.message == "" then SubmitFailed else reply.message)
  {
    var message :=
      match reply
      case NotOk(detail) => if detail.Some? && detail.value != "" then detail.value else fallback
      case NetworkError(msg) => msg;
    if message == "" then SubmitFailed else message
  }

  /** What one submit adds to the `onError` calls, the requests sent and the `onAnalysisComplete` calls. */
  datatype SubmitEffect = SubmitEffect(errors: seq<string>, requests: seq<Request>, completed: seq<int>)

  /** The two checks handleSubmit makes before sending anything. */
  predicate Passes(name: string, tasks: seq<FormTask>) {
    !IsBlank(name) && AnyNamed(tasks)
  }

  /** handleSubmit: the checks, then the two requests, each sent only when the one before succeeded. */
  function Submission(name: string, description: string, tasks: seq<FormTask>, hourlyRate: real,
                      create: Reply, analyze: Reply): (r: SubmitEffect)
    ensures IsBlank(name) ==> r == SubmitEffect([NameMissing], [], [])
    ensures !IsBlank(name) && !AnyNamed(tasks) ==> r == SubmitEffect([NoTasks], [], [])
    ensures Passes(name, tasks) ==>
      1 <= |r.requests| <= 2 && r.requests[0] == CreateWorkflow(name, description, PayloadTasks(tasks))
      && r.requests[0].tasks != [] && r.errors != [] && r.errors[0] == ""
    ensures |r.requests| == 2 <==> Passes(name, tasks) && create.Ok?
    ensures |r.requests| == 2 ==> r.requests[1] == Analyze(create.id, hourlyRate)
    ensures r.completed != [] <==> Passes(name, tasks) && create.Ok? && analyze.Ok?
    ensures r.completed != [] ==> r.completed == [create.id] && r.errors == [""]
    ensures r.requests != [] && r.completed == [] ==> |r.errors| == 2 && r.errors[1] != ""
  {
    if IsBlank(name) then SubmitEffect([NameMissing], [], [])
    else if !AnyNamed(tasks) then SubmitEffect([NoTasks], [], [])
    else
      PayloadNonEmptyIff(tasks);
      var first := CreateWorkflow(name, description, PayloadTasks(tasks));
      match create
      case Ok(id) =>
        var second := Analyze(id, hourlyRate);
        if analyze.Ok? then SubmitEffect([""], [first, second], [id])
        else SubmitEffect(["", ShownError(analyze, AnalyzeFailed)], [first, second], [])
      case _ => SubmitEffect(["", ShownError(create, CreateFailed)], [first], [])
  }

  /**
   * The message shown when a request fails: the create step's error when
   * creating failed, otherwise the analyse step's, each as ShownError
   * derives it from the server's `detail` and the step's fallback.
   */
  lemma SubmissionShowsError(name: string, description: string, tasks: seq<FormTask>, hourlyRate: real,
                             create: Reply, analyze: Reply)
    ensures var r := Submission(name, description, tasks, hourlyRate, create, analyze);
      r.requests != [] && r.completed == [] ==>
        r.errors[1] == (if create.Ok? then ShownError(analyze, AnalyzeFailed) else ShownError(create, CreateFailed))
  {
  }

  /** The `/api/parse-tasks` reply: the parsed tasks and workflow name and description, or a failure. */
  datatype ParseReply =
    | Parsed(tasks: Option<seq<FormTask>>, workflowName: Option<string>, workflowDescription: Option<string>)
    | ParseFailed

  const ExtractFailed: string := "Failed to extract tasks. Please try manual input."

  /** How the text to parse was obtained, for the error message when that step fails. */
  datatype Source = Voice | Document

  datatype Upload = NoFile | UploadFailed | Uploaded(text: string)

  function UploadFailedMessage(source: Source): string {
    match source
    case Voice => "Failed to process voice recording. Please try again or use manual input."
    case Document => "Failed to process document. Please try again or use manual input."
  }

  predicate Truthy(s: Option<string>) {
    s.Some? && s.value != ""
  }

  class Form {
    var workflowName: string
    var workflowDescription: string
    var tasks: seq<FormTask>
    var isUploading: bool
    var isAnalyzing: bool
    var hourlyRate: real
    /** Every message handed to `onError`, oldest first. */
    var errors: seq<string>
    /** Every request sent to the API, oldest first. */
    var requests: seq<Request>
    /** Every workflow id handed to `onAnalysisComplete`. */
    var completed: seq<int>

    /** The form always shows at least one task row. */
    ghost predicate Valid()
      reads this
    {
      |tasks| >= 1
    }

    constructor ()
      ensures Valid()
      ensures workflowName == "" && workflowDescription == "" && tasks == [NewTask]
      ensures !isUploading && !isAnalyzing && hourlyRate == 50.0
      ensures errors == [] && requests == [] && completed == []
    {
      workflowName := "";
      workflowDescription := "";
      tasks := [NewTask];
      isUploading := false;
      isAnalyzing := false;
      hourlyRate := 50.0;
      errors := [];
      requests := [];
      completed := [];
    }

    /** addTask: one new row at the end; the rows before it are unchanged. */
    method AddTask()
      requires Valid()
      modifies this
      ensures Valid()
      ensures tasks == old(tasks) + [NewTask]
      ensures |tasks| == |old(tasks)| + 1
      ensures workflowName == old(workflowName) && workflowDescription == old(workflowDescription)
      ensures errors == old(errors) && requests == old(requests) && completed == old(completed)
      ensures isUploading == old(isUploading) && isAnalyzing == old(isAnalyzing) && hourlyRate == old(hourlyRate)
    {
      tasks := tasks + [NewTask];
    }

    /** removeTask: the last row is never removed; otherwise row `index` goes and the rest keep their order. */
    method RemoveTask(index: int)
      requires Valid()
      modifies this
      ensures Valid()
      ensures |old(tasks)| <= 1 ==> tasks == old(tasks)
      ensures |old(tasks)| > 1 ==> tasks == Seqs.Without(old(tasks), index)
      ensures workflowName == old(workflowName) && workflowDescription == old(workflowDescription)
      ensures errors == old(errors) && requests == old(requests) && completed == old(completed)
      ensures isUploading == old(isUploading) && isAnalyzing == old(isAnalyzing) && hourlyRate == old(hourlyRate)
    {
      if |tasks| > 1 {
        tasks := Seqs.Without(tasks, index);
      }
    }

    /** updateTask: row `index` gets the edit; every other row is unchanged. */
    method UpdateTask(index: int, e: Edit)
      requires Valid()
      requires 0 <= index < |tasks|
      modifies this
      ensures Valid()
      ensures |tasks| == |old(tasks)|
      ensures tasks[index] == ApplyEdit(old(tasks)[index], e)
      ensures forall k :: 0 <= k < |tasks| && k != index ==> tasks[k] == old(tasks)[k]
      ensures workflowName == old(workflowName) && workflowDescription == old(workflowDescription)
      ensures errors == old(errors) && requests == old(requests) && completed == old(completed)
      ensures isUploading == old(isUploading) && isAnalyzing == old(isAnalyzing) && hourlyRate == old(hourlyRate)
    {
      tasks := tasks[index := ApplyEdit(tasks[index], e)];
    }

    /**
     * extractTasksFromText once the reply is in: a non-empty task list
     * replaces the rows, and then the name and description are replaced
     * only by a non-empty value; a failed call reports an error.
     */
    method ExtractTasksFromText(reply: ParseReply)
      requires Valid()
      modifies this
      ensures Valid()
      ensures reply.Parsed? && reply.tasks.Some? && reply.tasks.value != [] ==>
        tasks == reply.tasks.value
        && workflowName == (if Truthy(reply.workflowName) then reply.workflowName.value else old(workflowName))
        && workflowDescription == (if Truthy(reply.workflowDescription) then reply.workflowDescription.value
                                   else old(workflowDescription))
      ensures !(reply.Parsed? && reply.tasks.Some? && reply.tasks.value != []) ==>
        tasks == old(tasks) && workflowName == old(workflowName) && workflowDescription == old(workflowDescription)
      ensures errors == old(errors) + (if reply.ParseFailed? then [ExtractFailed] else [])
      ensures requests == old(requests) && completed == old(completed)
      ensures isUploading == old(isUploading) && isAnalyzing == old(isAnalyzing) && hourlyRate == old(hourlyRate)
    {
      match reply
      case ParseFailed =>
        errors := errors + [ExtractFailed];
      case Parsed(parsed, name, description) =>
        if parsed.Some? && parsed.value != [] {
          tasks := parsed.value;
          if Truthy(name) {
            workflowName := name.value;
          }
          if Truthy(description) {
            workflowDescription := description.value;
          }
        }
    }

    /**
     * The part processVoiceInput and handleDocumentUpload share: with no
     * file nothing happens; otherwise the upload flag is raised, the text
     * obtained is parsed into tasks (or the upload failure reported with
     * the caller's message), and the flag is lowered again.
     */
    method ImportText(failureMessage: string, upload: Upload, reply: ParseReply)
      requires Valid()
      modifies this
      ensures Valid()
      ensures upload.NoFile? ==>
        tasks == old(tasks) && errors == old(errors) && isUploading == old(isUploading)
      ensures upload.UploadFailed? ==>
        tasks == old(tasks) && errors == old(errors) + [failureMessage] && !isUploading
      ensures upload.Uploaded? ==>
        !isUploading && errors == old(errors) + (if reply.ParseFailed? then [ExtractFailed] else [])
        && tasks == (if reply.Parsed? && reply.tasks.Some? && reply.tasks.value != [] then reply.tasks.value else old(tasks))
      ensures upload.Uploaded? && reply.Parsed? && reply.tasks.Some? && reply.tasks.value != [] ==>
        workflowName == (if Truthy(reply.workflowName) then reply.workflowName.value else old(workflowName))
        && workflowDescription == (if Truthy(reply.workflowDescription) then reply.workflowDescription.value else old(workflowDescription))
      ensures upload.Uploaded? && !(reply.Parsed? && reply.tasks.Some? && reply.tasks.value != []) ==>
        workflowName == old(workflowName) && workflowDescription == old(workflowDescription)
      ensures !upload.Uploaded? ==> workflowName == old(workflowName) && workflowDescription == old(workflowDescription)
      ensures requests == old(requests) && completed == old(completed)
      ensures isAnalyzing == old(isAnalyzing) && hourlyRate == old(hourlyRate)
    {
      match upload
      case NoFile =>
      case UploadFailed =>
        isUploading := true;
        errors := errors + [failureMessage];
        isUploading := false;
      case Uploaded(_) =>
        isUploading := true;
        ExtractTasksFromText(reply);
        isUploading := false;
    }

    /** processVoiceInput: the recording is sent for transcription and the transcript parsed. It is always given a recording. */
    method ProcessVoiceInput(upload: Upload, reply: ParseReply)
      requires Valid()
      requires !upload.NoFile?
      modifies this
      ensures Valid()
      ensures upload.UploadFailed? ==>
        tasks == old(tasks) && errors == old(errors) + [UploadFailedMessage(Voice)] && !isUploading
      ensures upload.Uploaded? ==>
        !isUploading && errors == old(errors) + (if reply.ParseFailed? then [ExtractFailed] else [])
        && tasks == (if reply.Parsed? && reply.tasks.Some? && reply.tasks.value != [] then reply.tasks.value else old(tasks))
      ensures upload.Uploaded? && reply.Parsed? && reply.tasks.Some? && reply.tasks.value != [] ==>
        workflowName == (if Truthy(reply.workflowName) then reply.workflowName.value else old(workflowName))
        && workflowDescription == (if Truthy(reply.workflowDescription) then reply.workflowDescription.value else old(workflowDescription))
      ensures upload.Uploaded? && !(reply.Parsed? && reply.tasks.Some? && reply.tasks.value != []) ==>
        workflowName == old(workflowName) && workflowDescription == old(workflowDescription)
      ensures upload.UploadFailed? ==> workflowName == old(workflowName) && workflowDescription == old(workflowDescription)
      ensures requests == old(requests) && completed == old(completed)
      ensures isAnalyzing == old(isAnalyzing) && hourlyRate == old(hourlyRate)
    {
      ImportText(UploadFailedMessage(Voice), upload, reply);
    }

    /** handleDocumentUpload: the chosen file, if any, is sent for text extraction and the text parsed. */
    method HandleDocumentUpload(upload: Upload, reply: ParseReply)
      requires Valid()
      modifies this
      ensures Valid()
      ensures upload.NoFile? ==>
        tasks == old(tasks) && errors == old(errors) && isUploading == old(isUploading)
      ensures upload.UploadFailed? ==>
        tasks == old(tasks) && errors == old(errors) + [UploadFailedMessage(Document)] && !isUploading
      ensures upload.Uploaded? ==>
        !isUploading && errors == old(errors) + (if reply.ParseFailed? then [ExtractFailed] else [])
        && tasks == (if reply.Parsed? && reply.tasks.Some? && reply.tasks.value != [] then reply.tasks.value else old(tasks))
      ensures upload.Uploaded? && reply.Parsed? && reply.tasks.Some? && reply.tasks.value != [] ==>
        workflowName == (if Truthy(reply.workflowName) then reply.workflowName.value else old(workflowName))
        && workflowDescription == (if Truthy(reply.workflowDescription) then reply.workflowDescription.value else old(workflowDescription))
      ensures upload.Uploaded? && !(reply.Parsed? && reply.tasks.Some? && reply.tasks.value != []) ==>
        workflowName == old(workflowName) && workflowDescription == old(workflowDescription)
      ensures !upload.Uploaded? ==> workflowName == old(workflowName) && workflowDescription == old(workflowDescription)
      ensures requests == old(requests) && completed == old(completed)
      ensures isAnalyzing == old(isAnalyzing) && hourlyRate == old(hourlyRate)
    {
      ImportText(UploadFailedMessage(Document), upload, reply);
    }

    /**
     * handleSubmit, with the two API replies given: the effect is the one
     * Submission describes, and the busy flag is down when the requests are done.
     */
    method Submit(create: Reply, analyze: Reply)
      requires Valid()
      modifies this
      ensures Valid()
      ensures var effect := Submission(old(workflowName), old(workflowDescription), old(tasks), old(hourlyRate), create, analyze);
        errors == old(errors) + effect.errors
        && requests == old(requests) + effect.requests
        && completed == old(completed) + effect.completed
      ensures Passes(old(workflowName), old(tasks)) ==> !isAnalyzing
      ensures !Passes(old(workflowName), old(tasks)) ==> isAnalyzing == old(isAnalyzing)
      ensures tasks == old(tasks) && workflowName == old(workflowName) && workflowDescription == old(workflowDescription)
      ensures isUploading == old(isUploading) && hourlyRate == old(hourlyRate)
    {
      ghost var effect := Submission(workflowName, workflowDescription, tasks, hourlyRate, create, analyze);
      if IsBlank(workflowName) {
        errors := errors + [NameMissing];
        return;
      }
      if |tasks| == 0 || !AnyNamed(tasks) {
        errors := errors + [NoTasks];
        return;
      }
      isAnalyzing := true;
      var first := CreateWorkflow(workflowName, workflowDescription, PayloadTasks(tasks));
      match create {
        case Ok(id) =>
          var second := Analyze(id, hourlyRate);
          if analyze.Ok? {
            assert effect == SubmitEffect([""], [first, second], [id]);
            errors := errors + [""];
            requests := requests + [first, second];
            completed := completed + [id];
          } else {
            var message := ShownError(analyze, AnalyzeFailed);
            assert effect == SubmitEffect(["", message], [first, second], []);
            errors := errors + ["", message];
            requests := requests + [first, second];
          }
        case _ =>
          var message := ShownError(create, CreateFailed);
          assert effect == SubmitEffect(["", message], [first], []);
          errors := errors + ["", message];
          requests := requests + [first];
      }
      isAnalyzing := false;
    }
  }
}
