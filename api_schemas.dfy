/**
 * backend/app/api/schemas.py: the request and response schemas the
 * workflow routes validate against. A task's frequency defaults to
 * "daily" and its complexity to "medium"; a workflow needs at least one task.
 */
module ApiSchemas {

  import opened Wrappers
  import opened SchemaFields

  const FrequencyDefault: string := "daily"
  const ComplexityDefault: string := "medium"

  /** TaskCreate: a name of 1 to 255 characters; the other fields have defaults. */
  function TaskCreate(input: TaskInput): (r: Result<Task, seq<ValidationError>>)
    ensures r.Success? <==> input.name.Present? && input.name.value.Some? && 1 <= |input.name.value.value| <= 255
    ensures r.Failure? ==> |r.error| == 1 && r.error[0].loc == [Key("name")]
    ensures r.Success? ==> r.value.name == input.name.value.value
    ensures r.Success? && input.frequency.Absent? ==> r.value.frequency == Some(FrequencyDefault)
    ensures r.Success? && input.complexity.Absent? ==> r.value.complexity == Some(ComplexityDefault)
    ensures r.Success? && input.description.Absent? ==> r.value.description == None
    ensures r.Success? && input.timePerTask.Absent? ==> r.value.timePerTask == None
    ensures r.Success? && input.category.Absent? ==> r.value.category == None
    ensures r.Success? && input.frequency.Present? ==> r.value.frequency == input.frequency.value
    ensures r.Success? && input.complexity.Present? ==> r.value.complexity == input.complexity.value
    ensures r.Success? && input.description.Present? ==> r.value.description == input.description.value
    ensures r.Success? && input.timePerTask.Present? ==> r.value.timePerTask == input.timePerTask.value
    ensures r.Success? && input.category.Present? ==> r.value.category == input.category.value
  {
    ValidateTask(input, Some(FrequencyDefault), Some(ComplexityDefault))
  }

  /** WorkflowCreate: a name of 1 to 255 characters and a `tasks` list of at least one valid task. */
  function WorkflowCreate(input: WorkflowInput): (r: Result<Workflow, seq<ValidationError>>)
    ensures r.Success? <==>
      input.name.Present? && input.name.value.Some? && 1 <= |input.name.value.value| <= 255
      && input.tasks.Present? && input.tasks.value.Some? && |input.tasks.value.value| >= 1
      && forall k :: 0 <= k < |input.tasks.value.value| ==> TaskCreate(input.tasks.value.value[k]).Success?
    ensures r.Success? ==>
      r.value.name == input.name.value.value
      && r.value.description == Defaulted(input.description, None)
      && |r.value.tasks| == |input.tasks.value.value|
      && forall k :: 0 <= k < |r.value.tasks| ==> r.value.tasks[k] == TaskCreate(input.tasks.value.value[k]).value
    ensures input.tasks == Present(Some([])) ==> ValidationError([Key("tasks")], ListTooShort) in r.error
    ensures input.tasks.Absent? ==> ValidationError([Key("tasks")], MissingField) in r.error
  {
    var name := BoundedString("name", input.name, 1, 255);
    var tasks :=
      match Required("tasks", input.tasks)
      case Failure(e) => Failure(e)
      case Success(items) =>
        if |items| < 1 then Failure([ValidationError([Key("tasks")], ListTooShort)])
        else ValidateList("tasks", items, TaskCreate);
    if name.Success? && tasks.Success? then
      Success(Workflow(name.value, Defaulted(input.description, None), tasks.value))
    else
      Failure(Errors(name) + Errors(tasks))
  }

  /** TaskResponse: a TaskCreate together with id, workflow_id and created_at, each required. */
  function TaskResponseOf(input: TaskInput, keys: TaskRowKeys): (r: Result<TaskResponse, seq<ValidationError>>)
    ensures r.Success? <==>
      TaskCreate(input).Success? && keys.id.Present? && keys.id.value.Some?
      && keys.workflowId.Present? && keys.workflowId.value.Some?
      && keys.createdAt.Present? && keys.createdAt.value.Some?
    ensures r.Success? ==>
      r.value.task == TaskCreate(input).value && r.value.id == keys.id.value.value
      && r.value.workflowId == keys.workflowId.value.value && r.value.createdAt == keys.createdAt.value.value
  {
    ValidateTaskResponse(input, keys, Some(FrequencyDefault), Some(ComplexityDefault))
  }

  /** The keys of an analysis result object. */
  datatype ResultInput = ResultInput(
    taskId: Field<Option<int>>,
    taskName: Field<Option<string>>,
    readinessScore: Field<Option<real>>,
    timeSavedPercentage: Field<Option<real>>,
    recommendation: Field<Option<string>>,
    difficulty: Field<Option<string>>,
    estimatedHoursSaved: Field<Option<real>>)

  datatype AnalysisResult = AnalysisResult(
    taskId: int,
    taskName: string,
    readinessScore: real,
    timeSavedPercentage: Option<real>,
    recommendation: Option<string>,
    difficulty: Option<string>,
    estimatedHoursSaved: Option<real>)

  /**
   * AnalysisResultResponse: task_id, task_name and ai_readiness_score must be
   * given and not null; the other four may be null but, declared without a
   * default, must still be given.
   */
  function AnalysisResultResponse(input: ResultInput): (r: Result<AnalysisResult, seq<ValidationError>>)
    ensures r.Success? <==>
      input.taskId.Present? && input.taskId.value.Some?
      && input.taskName.Present? && input.taskName.value.Some?
      && input.readinessScore.Present? && input.readinessScore.value.Some?
      && input.timeSavedPercentage.Present? && input.recommendation.Present?
      && input.difficulty.Present? && input.estimatedHoursSaved.Present?
    ensures r.Success? ==>
      r.value == AnalysisResult(input.taskId.value.value, input.taskName.value.value, input.readinessScore.value.value,
        input.timeSavedPercentage.value, input.recommendation.value, input.difficulty.value, input.estimatedHoursSaved.value)
    ensures r.Failure? ==> |r.error| >= 1
  {
    var taskId := Required("task_id", input.taskId);
    var taskName := Required("task_name", input.taskName);
    var score := Required("ai_readiness_score", input.readinessScore);
    var timeSaved := RequiredNullable("time_saved_percentage", input.timeSavedPercentage);
    var recommendation := RequiredNullable("recommendation", input.recommendation);
    var difficulty := RequiredNullable("difficulty", input.difficulty);
    var hours := RequiredNullable("estimated_hours_saved", input.estimatedHoursSaved);
    if taskId.Success? && taskName.Success? && score.Success? && timeSaved.Success?
       && recommendation.Success? && difficulty.Success? && hours.Success? then
      Success(AnalysisResult(taskId.value, taskName.value, score.value, timeSaved.value,
        recommendation.value, difficulty.value, hours.value))
    else
      Failure(Errors(taskId) + Errors(taskName) + Errors(score) + Errors(timeSaved)
        + Errors(recommendation) + Errors(difficulty) + Errors(hours))
  }
}
