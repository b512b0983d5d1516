/**
  The progress-log store of main.py: a map from task id to the ordered list
  of progress strings reported so far.
 */
module ProgressLog {

  import opened Errors

  type Logs = map<string, seq<string>>

  const TaskNotFound := "Task not found"

  /** The log of a task, empty for an unknown task. */
  function LogOf(logs: Logs, taskId: string): seq<string>
  {
    if taskId in logs then logs[taskId] else []
  }

  /**
    The store after appending `msgs` to one task's log, one status at a
    time: that log (created if needed) grows by exactly `msgs` at its end,
    earlier entries stay, and every other task is untouched.
   */
  function Appended(logs: Logs, taskId: string, msgs: seq<string>): (r: Logs)
    ensures msgs != [] ==> taskId in r && r[taskId] == LogOf(logs, taskId) + msgs
    ensures msgs == [] ==> r == logs
  {
    if msgs == [] then logs else logs[taskId := LogOf(logs, taskId) + msgs]
  }

  /** Appending touches one task only: no task appears or disappears but that one, and every other log is as it was. */
  lemma AppendedLeavesOthers(logs: Logs, taskId: string, msgs: seq<string>)
    ensures LogOf(Appended(logs, taskId, msgs), taskId) == LogOf(logs, taskId) + msgs
    ensures Appended(logs, taskId, msgs).Keys == logs.Keys + (if msgs == [] then {} else {taskId})
    ensures forall t :: t != taskId ==> LogOf(Appended(logs, taskId, msgs), t) == LogOf(logs, t)
  {
  }

  /** Appending twice is appending the concatenation. */
  lemma AppendedTwice(logs: Logs, taskId: string, a: seq<string>, b: seq<string>)
    ensures Appended(Appended(logs, taskId, a), taskId, b) == Appended(logs, taskId, a + b)
  {
    if a == [] {
      assert a + b == b;
    } else if b == [] {
      assert a + b == a;
    } else {
      var once := Appended(logs, taskId, a);
      assert LogOf(once, taskId) + b == LogOf(logs, taskId) + (a + b);
    }
  }

  /** The module-level `progress_logs` dictionary of main.py. */
  class ProgressStore {
    var logs: Logs

    constructor ()
      ensures logs == map[]
    {
      logs := map[];
    }

    /** `update_progress_log`: append to a known task's log, or start an unknown task's log with the status. */
    method Update(taskId: string, status: string)
      modifies this
      ensures logs == Appended(old(logs), taskId, [status])
    {
      if taskId in logs {
        logs := logs[taskId := logs[taskId] + [status]];
      } else {
        assert LogOf(logs, taskId) + [status] == [status];
        logs := logs[taskId := [status]];
      }
    }

    /** `get_progress_log`: the stored log of a known task; an unknown task is not found. */
    function Get(taskId: string): (r: Result<seq<string>>)
      reads this
      ensures r.Ok? <==> taskId in logs
      ensures r.Ok? ==> r.value == logs[taskId]
      ensures r.Err? ==> r.error == NotFound(TaskNotFound)
    {
      if taskId in logs then Ok(logs[taskId]) else Err(NotFound(TaskNotFound))
    }
  }
}
