/**
 * backend/app/schemas/workflow.py: the second set of workflow schemas. Here
 * every optional task field defaults to null, a workflow may have no tasks,
 * and the analyze request carries the hourly rate and the captcha token.
 */
module WorkflowSchemas {

  import opened Wrappers
  import opened SchemaFields
  import ApiSchemas

  /** TaskCreate: a name of 1 to 255 characters; every other field defaults to null. */
  function TaskCreate(input: TaskInput): (r: Result<Task, seq<ValidationError>>)
    ensures r.Success? <==> input.name.Present? && input.name.value.Some? && 1 <= |input.name.value.value| <= 255
    ensures r.Failure? ==> |r.error| == 1 && r.error[0].loc == [Key("name")]
    ensures r.Success? ==> r.value.name == input.name.value.value
    ensures r.Success? && input.frequency.Absent? ==> r.value.frequency == None
    ensures r.Success? && input.complexity.Absent? ==> r.value.complexity == None
    ensures r.Success? && input.description.Absent? ==> r.value.description == None
    ensures r.Success? && input.timePerTask.Absent? ==> r.value.timePerTask == None
    ensures r.Success? && input.category.Absent? ==> r.value.category == None
    ensures r.Success? && input.frequency.Present? ==> r.value.frequency == input.frequency.value
    ensures r.Success? && input.complexity.Present? ==> r.value.complexity == input.complexity.value
    ensures r.Success? && input.description.Present? ==> r.value.description == input.description.value
    ensures r.Success? && input.timePerTask.Present? ==> r.value.timePerTask == input.timePerTask.value
    ensures r.Success? && input.category.Present? ==> r.value.category == input.category.value
  {
    ValidateTask(input, None, None)
  }

  /**
   * The two TaskCreate schemas accept the same bodies and agree on every
   * field except frequency and complexity when those keys are left out.
   */
  lemma TaskCreateSchemasAgree(input: TaskInput)
    ensures TaskCreate(input).Success? == ApiSchemas.TaskCreate(input).Success?
    ensures TaskCreate(input).Success? ==>
      var mine := TaskCreate(input).value;
      var api := ApiSchemas.TaskCreate(input).value;
      mine.(frequency := api.frequency, complexity := api.complexity) == api
      && (input.frequency.Present? ==> mine.frequency == api.frequency)
      && (input.complexity.Present? ==> mine.complexity == api.complexity)
      && (input.frequency.Absent? ==> mine.frequency == None && api.frequency == Some("daily"))
      && (input.complexity.Absent? ==> mine.complexity == None && api.complexity == Some("medium"))
  {
  }

  /** WorkflowCreate: a name of 1 to 255 characters; `tasks` defaults to an empty list. */
  function WorkflowCreate(input: WorkflowInput): (r: Result<Workflow, seq<ValidationError>>)
    ensures r.Success? <==>
      input.name.Present? && input.name.value.Some? && 1 <= |input.name.value.value| <= 255
      && (input.tasks.Present? ==>
            input.tasks.value.Some?
            && forall k :: 0 <= k < |input.tasks.value.value| ==> TaskCreate(input.tasks.value.value[k]).Success?)
    ensures r.Success? ==>
      r.value.name == input.name.value.value && r.value.description == Defaulted(input.description, None)
    ensures r.Success? && input.tasks.Absent? ==> r.value.tasks == []
    ensures r.Success? && input.tasks.Present? ==>
      |r.value.tasks| == |input.tasks.value.value|
      && forall k :: 0 <= k < |r.value.tasks| ==> r.value.tasks[k] == TaskCreate(input.tasks.value.value[k]).value
  {
    var name := BoundedString("name", input.name, 1, 255);
    var tasks :=
      match input.tasks
      case Absent => Success([])
      case Present(None) => Failure([ValidationError([Key("tasks")], NoneNotAllowed)])
      case Present(Some(items)) => ValidateList("tasks", items, TaskCreate);
    if name.Success? && tasks.Success? then
      Success(Workflow(name.value, Defaulted(input.description, None), tasks.value))
    else
      Failure(Errors(name) + Errors(tasks))
  }

  /** Unlike the other schema module, a workflow with an empty task list is valid. */
  lemma EmptyTaskListAccepted(input: WorkflowInput)
    requires input.name.Present? && input.name.value.Some? && 1 <= |input.name.value.value| <= 255
    requires input.tasks == Present(Some([]))
    ensures WorkflowCreate(input).Success? && WorkflowCreate(input).value.tasks == []
    ensures ApiSchemas.WorkflowCreate(input).Failure?
  {
  }

  /** TaskResponse here: this module's TaskCreate plus id, workflow_id and created_at. */
  function TaskResponseOf(row: TaskRow): (r: Result<TaskResponse, seq<ValidationError>>)
    ensures r.Success? <==>
      TaskCreate(row.fields).Success? && row.keys.id.Present? && row.keys.id.value.Some?
      && row.keys.workflowId.Present? && row.keys.workflowId.value.Some?
      && row.keys.createdAt.Present? && row.keys.createdAt.value.Some?
    ensures r.Success? ==>
      r.value.task == TaskCreate(row.fields).value && r.value.id == row.keys.id.value.value
      && r.value.workflowId == row.keys.workflowId.value.value && r.value.createdAt == row.keys.createdAt.value.value
  {
    ValidateTaskResponse(row.fields, row.keys, None, None)
  }

  datatype TaskRow = TaskRow(fields: TaskInput, keys: TaskRowKeys)

  /** A workflow row as read for the response (timestamps as seconds). */
  datatype WorkflowRow = WorkflowRow(
    id: Field<Option<int>>,
    name: Field<Option<string>>,
    description: Field<Option<string>>,
    createdAt: Field<Option<int>>,
    updatedAt: Field<Option<int>>,
    tasks: Field<Option<seq<TaskRow>>>)

  datatype WorkflowResponse = WorkflowResponse(
    id: int,
    name: string,
    description: Option<string>,
    createdAt: int,
    updatedAt: Option<int>,
    tasks: seq<TaskResponse>)

  /**
   * WorkflowResponse: id, name and created_at must be given and not null;
   * description and updated_at may be null but, declared without a default,
   * must be given; tasks defaults to an empty list.
   */
  function WorkflowResponseOf(row: WorkflowRow): (r: Result<WorkflowResponse, seq<ValidationError>>)
    ensures r.Success? <==>
      row.id.Present? && row.id.value.Some? && row.name.Present? && row.name.value.Some?
      && row.description.Present? && row.createdAt.Present? && row.createdAt.value.Some?
      && row.updatedAt.Present?
      && (row.tasks.Present? ==>
            row.tasks.value.Some?
            && forall k :: 0 <= k < |row.tasks.value.value| ==> TaskResponseOf(row.tasks.value.value[k]).Success?)
    ensures r.Success? ==>
      r.value.id == row.id.value.value && r.value.name == row.name.value.value
      && r.value.description == row.description.value && r.value.createdAt == row.createdAt.value.value
      && r.value.updatedAt == row.updatedAt.value
    ensures r.Success? && row.tasks.Absent? ==> r.value.tasks == []
    ensures r.Success? && row.tasks.Present? ==>
      |r.value.tasks| == |row.tasks.value.value|
      && forall k :: 0 <= k < |r.value.tasks| ==> r.value.tasks[k] == TaskResponseOf(row.tasks.value.value[k]).value
  {
    var id := Required("id", row.id);
    var name := Required("name", row.name);
    var description := RequiredNullable("description", row.description);
    var createdAt := Required("created_at", row.createdAt);
    var updatedAt := RequiredNullable("updated_at", row.updatedAt);
    var tasks :=
      match row.tasks
      case Absent => Success([])
      case Present(None) => Failure([ValidationError([Key("tasks")], NoneNotAllowed)])
      case Present(Some(items)) => ValidateList("tasks", items, TaskResponseOf);
    if id.Success? && name.Success? && description.Success? && createdAt.Success?
       && updatedAt.Success? && tasks.Success? then
      Success(WorkflowResponse(id.value, name.value, description.value, createdAt.value, updatedAt.value, tasks.value))
    else
      Failure(Errors(id) + Errors(name) + Errors(description) + Errors(createdAt) + Errors(updatedAt) + Errors(tasks))
  }

  const HourlyRateDefault: real := 50.0

  datatype AnalyzeInput = AnalyzeInput(
    workflowId: Field<Option<int>>,
    hourlyRate: Field<Option<real>>,
    recaptchaToken: Field<Option<string>>)

  datatype AnalyzeRequest = AnalyzeRequest(workflowId: int, hourlyRate: Option<real>, recaptchaToken: Option<string>)

  /**
   * AnalyzeRequest: workflow_id must be given; hourly_rate defaults to 50.0
   * and recaptcha_token to null when left out, and an explicit null is kept.
   */
  function AnalyzeRequestOf(input: AnalyzeInput): (r: Result<AnalyzeRequest, seq<ValidationError>>)
    ensures r.Success? <==> input.workflowId.Present? && input.workflowId.value.Some?
    ensures r.Success? ==> r.value.workflowId == input.workflowId.value.value
    ensures r.Success? && input.hourlyRate.Absent? ==> r.value.hourlyRate == Some(HourlyRateDefault)
    ensures r.Success? && input.hourlyRate.Present? ==> r.value.hourlyRate == input.hourlyRate.value
    ensures r.Success? && input.recaptchaToken.Absent? ==> r.value.recaptchaToken == None
    ensures r.Success? && input.recaptchaToken.Present? ==> r.value.recaptchaToken == input.recaptchaToken.value
    ensures r.Failure? ==> |r.error| == 1 && r.error[0].loc == [Key("workflow_id")]
  {
    match Required("workflow_id", input.workflowId)
    case Failure(e) => Failure(e)
    case Success(id) =>
      Success(AnalyzeRequest(id, Defaulted(input.hourlyRate, Some(HourlyRateDefault)), Defaulted(input.recaptchaToken, None)))
  }
}
