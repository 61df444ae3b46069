/**
 * frontend/src/app/dashboard/analyze/page.tsx: the dashboard's analyze
 * form. It keeps a list of task lines (one to start with) and, on submit,
 * goes on to the demo results when some line is filled in.
 */
module AnalyzePage {

  import opened Wrappers
  import opened Text
  import Seqs

  const DemoResults: string := "/dashboard/results/demo-123"
  const NoTask: string := "Please add at least one task"
  const AnalysisFailed: string := "Analysis failed. Please try again."

  class AnalyzeForm {
    var workflowName: string
    var tasks: seq<string>
    var isLoading: bool
    var alerts: seq<string>
    var location: Option<string>

    constructor ()
      ensures workflowName == "" && tasks == [""] && !isLoading
      ensures alerts == [] && location == None
    {
      workflowName := "";
      tasks := [""];
      isLoading := false;
      alerts := [];
      location := None;
    }

    /** addTask: one empty line at the end; the others are unchanged. */
    method AddTask()
      modifies this
      ensures tasks == old(tasks) + [""]
      ensures workflowName == old(workflowName) && isLoading == old(isLoading)
      ensures alerts == old(alerts) && location == old(location)
    {
      tasks := tasks + [""];
    }

    /** updateTask: line `index` gets the value; the others are unchanged. */
    method UpdateTask(index: int, value: string)
      requires 0 <= index < |tasks|
      modifies this
      ensures tasks == old(tasks)[index := value]
      ensures workflowName == old(workflowName) && isLoading == old(isLoading)
      ensures alerts == old(alerts) && location == old(location)
    {
      tasks := tasks[index := value];
    }

    /**
     * removeTask: line `index` goes, the rest keep their order. There is
     * no guard here; the page offers the remove button only while there
     * is more than one line, and then at least one is left.
     */
    method RemoveTask(index: int)
      modifies this
      ensures tasks == Seqs.Without(old(tasks), index)
      ensures |old(tasks)| > 1 ==> |tasks| >= 1
      ensures workflowName == old(workflowName) && isLoading == old(isLoading)
      ensures alerts == old(alerts) && location == old(location)
    {
      tasks := Seqs.Without(tasks, index);
    }

    /**
     * handleSubmit: with no filled-in line an alert and no navigation;
     * otherwise on to the demo results, or an alert if that fails. The
     * busy flag is down again on every path.
     */
    method Submit(navigationFails: bool)
      modifies this
      ensures !isLoading
      ensures NonBlank(old(tasks)) == [] ==> alerts == old(alerts) + [NoTask] && location == old(location)
      ensures NonBlank(old(tasks)) != [] && !navigationFails ==> alerts == old(alerts) && location == Some(DemoResults)
      ensures NonBlank(old(tasks)) != [] && navigationFails ==>
        alerts == old(alerts) + [AnalysisFailed] && location == old(location)
      ensures tasks == old(tasks) && workflowName == old(workflowName)
    {
      isLoading := true;
      var valid := NonBlank(tasks);
      if valid == [] {
        alerts := alerts + [NoTask];
        isLoading := false;
        return;
      }
      if navigationFails {
        alerts := alerts + [AnalysisFailed];
      } else {
        location := Some(DemoResults);
      }
      isLoading := false;
    }
  }

}
