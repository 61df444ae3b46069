/**
 * The field declarations the request and response schemas are built from,
 * as pydantic v2 applies them to a JSON object or an ORM row: a required
 * field, a required field that may be null (`Optional[X]` with no default),
 * a field with a default, and `min_length`/`max_length` on strings.
 */
module SchemaFields {

  import opened Wrappers

  /** Where an error is: a key, or a position in a list. */
  datatype Loc = Key(name: string) | Index(i: nat)

  datatype ErrorKind = MissingField | NoneNotAllowed | StringTooShort | StringTooLong | ListTooShort

  datatype ValidationError = ValidationError(loc: seq<Loc>, kind: ErrorKind)

  /** The errors a field check reports (none when it passed). */
  function Errors<T>(r: Result<T, seq<ValidationError>>): seq<ValidationError> {
    if r.Failure? then r.error else []
  }

  /** A field declared `x: T` (or `T = Field(...)`): it must be given and not null. */
  function Required<T>(key: string, f: Field<Option<T>>): (r: Result<T, seq<ValidationError>>)
    ensures r.Success? <==> f.Present? && f.value.Some?
    ensures r.Success? ==> r.value == f.value.value
    ensures f.Absent? ==> r == Failure([ValidationError([Key(key)], MissingField)])
    ensures f.Present? && f.value.None? ==> r == Failure([ValidationError([Key(key)], NoneNotAllowed)])
  {
    match f
    case Absent => Failure([ValidationError([Key(key)], MissingField)])
    case Present(None) => Failure([ValidationError([Key(key)], NoneNotAllowed)])
    case Present(Some(v)) => Success(v)
  }

  /** `x: Optional[T]` with no default: it must be given, but null is accepted. */
  function RequiredNullable<T>(key: string, f: Field<Option<T>>): (r: Result<Option<T>, seq<ValidationError>>)
    ensures r.Success? <==> f.Present?
    ensures r.Success? ==> r.value == f.value
    ensures f.Absent? ==> r == Failure([ValidationError([Key(key)], MissingField)])
  {
    match f
    case Absent => Failure([ValidationError([Key(key)], MissingField)])
    case Present(v) => Success(v)
  }

  /** `x: Optional[T] = d`: the default when the key is left out; an explicit null stays null. */
  function Defaulted<T>(f: Field<Option<T>>, d: Option<T>): (v: Option<T>)
    ensures f.Absent? ==> v == d
    ensures f.Present? ==> v == f.value
  {
    match f
    case Absent => d
    case Present(v) => v
  }

  /** `str = Field(..., min_length=lo, max_length=hi)`: a length check only, no stripping. */
  function BoundedString(key: string, f: Field<Option<string>>, lo: nat, hi: nat): (r: Result<string, seq<ValidationError>>)
    ensures r.Success? <==> f.Present? && f.value.Some? && lo <= |f.value.value| <= hi
    ensures r.Success? ==> r.value == f.value.value
    ensures f.Present? && f.value.Some? && |f.value.value| < lo ==>
      r == Failure([ValidationError([Key(key)], StringTooShort)])
    ensures f.Present? && f.value.Some? && lo <= |f.value.value| && |f.value.value| > hi ==>
      r == Failure([ValidationError([Key(key)], StringTooLong)])
  {
    match Required(key, f)
    case Failure(e) => Failure(e)
    case Success(s) =>
      if |s| < lo then Failure([ValidationError([Key(key)], StringTooShort)])
      else if |s| > hi then Failure([ValidationError([Key(key)], StringTooLong)])
      else Success(s)
  }

  /** An error of a list element, moved under the list's key and the element's position. */
  function Under(key: string, i: nat, errs: seq<ValidationError>): (r: seq<ValidationError>)
    ensures |r| == |errs|
    ensures forall k :: 0 <= k < |errs| ==> r[k] == ValidationError([Key(key), Index(i)] + errs[k].loc, errs[k].kind)
  {
    seq(|errs|, k requires 0 <= k < |errs| => ValidationError([Key(key), Index(i)] + errs[k].loc, errs[k].kind))
  }

  /** The body of a task object in a request. */
  datatype TaskInput = TaskInput(
    name: Field<Option<string>>,
    description: Field<Option<string>>,
    frequency: Field<Option<string>>,
    timePerTask: Field<Option<int>>,
    category: Field<Option<string>>,
    complexity: Field<Option<string>>)

  /** A validated TaskCreate. */
  datatype Task = Task(
    name: string,
    description: Option<string>,
    frequency: Option<string>,
    timePerTask: Option<int>,
    category: Option<string>,
    complexity: Option<string>)

  /** The columns a TaskResponse adds to a TaskCreate (the timestamp as seconds). */
  datatype TaskRowKeys = TaskRowKeys(id: Field<Option<int>>, workflowId: Field<Option<int>>, createdAt: Field<Option<int>>)

  datatype TaskResponse = TaskResponse(task: Task, id: int, workflowId: int, createdAt: int)

  /**
   * `List[X]`: each element checked in turn, the errors of element i
   * reported under `[key, i]`; the list is accepted when every element is.
   */
  function ValidateList<I, O>(key: string, items: seq<I>, check: I -> Result<O, seq<ValidationError>>): (r: Result<seq<O>, seq<ValidationError>>)
    ensures r.Success? <==> forall k :: 0 <= k < |items| ==> check(items[k]).Success?
    ensures r.Success? ==> |r.value| == |items| && forall k :: 0 <= k < |items| ==> r.value[k] == check(items[k]).value
  {
    if items == [] then Success([])
    else
      var n := |items| - 1;
      var front := ValidateList(key, items[..n], check);
      var last := check(items[n]);
      assert forall k :: 0 <= k < n ==> items[..n][k] == items[k];
      if front.Success? && last.Success? then Success(front.value + [last.value])
      else Failure(Errors(front) + Under(key, n, Errors(last)))
  }

  /** A TaskCreate, with the defaults its schema module gives frequency and complexity. */
  function ValidateTask(input: TaskInput, frequencyDefault: Option<string>, complexityDefault: Option<string>): (r: Result<Task, seq<ValidationError>>)
  {
    match BoundedString("name", input.name, 1, 255)
    case Failure(e) => Failure(e)
    case Success(name) =>
      Success(Task(
        name,
        Defaulted(input.description, None),
        Defaulted(input.frequency, frequencyDefault),
        Defaulted(input.timePerTask, None),
        Defaulted(input.category, None),
        Defaulted(input.complexity, complexityDefault)))
  }

  /** A TaskResponse: the TaskCreate fields first, then id, workflow_id and created_at. */
  function ValidateTaskResponse(input: TaskInput, keys: TaskRowKeys, frequencyDefault: Option<string>, complexityDefault: Option<string>): (r: Result<TaskResponse, seq<ValidationError>>)
  {
    var task := ValidateTask(input, frequencyDefault, complexityDefault);
    var id := Required("id", keys.id);
    var workflowId := Required("workflow_id", keys.workflowId);
    var createdAt := Required("created_at", keys.createdAt);
    if task.Success? && id.Success? && workflowId.Success? && createdAt.Success? then
      Success(TaskResponse(task.value, id.value, workflowId.value, createdAt.value))
    else
      Failure(Errors(task) + Errors(id) + Errors(workflowId) + Errors(createdAt))
  }

  /** A request body for a workflow. */
  datatype WorkflowInput = WorkflowInput(
    name: Field<Option<string>>,
    description: Field<Option<string>>,
    tasks: Field<Option<seq<TaskInput>>>)

  /** A validated WorkflowCreate. */
  datatype Workflow = Workflow(name: string, description: Option<string>, tasks: seq<Task>)
}
