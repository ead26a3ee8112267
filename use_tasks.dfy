/**
  The `useTasks` composable: the query cache entry under the key `['tasks']`,
  the new-task form, and the optimistic lifecycle shared by the create,
  delete and change-status mutations (cancel refreshes, snapshot, optimistic
  write; roll back and notify on error; invalidate on settle).
*/
module UseTasks {
  import opened Wrappers
  import opened Tasks
  import opened JsText
  import opened OptimisticUpdates

  /** The variables a mutation is started with. */
  datatype Mutation =
    | CreateTask(title: string, description: string)
    | DeleteTask(id: int)
    | ChangeStatus(id: int, completed: bool)

  /** How the request sent by `mutationFn` ended; a failure carries `error.message`. */
  datatype Outcome = Success | Failure(message: string)

  /** What `onMutate` returns and `onError` receives: the cache value read before the optimistic write. */
  datatype Context = Context(previousTasks: Option<seq<Task>>)

  /** What the promise returned by `addTask` does. */
  datatype AddResult = Skipped | Added | Rejected(message: string)

  /** The optimistic list written by the `onMutate` of mutation `m`; `now` is the clock reading a create uses as placeholder id. */
  function Optimistic(m: Mutation, cached: Option<seq<Task>>, now: int): seq<Task> {
    match m
    case CreateTask(title, description) => OptimisticCreate(cached, now, title, description)
    case DeleteTask(id) => OptimisticDelete(cached, id)
    case ChangeStatus(id, completed) => OptimisticChangeStatus(cached, id, completed)
  }

  /** The text of the toast shown by the `onError` of mutation `m`. */
  function ErrorToast(m: Mutation, message: string): (r: string)
    ensures |r| >= |message| + 10 && r[|r| - |message|..] == message
    ensures r[..10] == "Failed to "
    ensures m.CreateTask? <==> r[..|r| - |message|] == "Failed to create task: "
  {
    match m
    case CreateTask(_, _) => "Failed to create task: " + message
    case DeleteTask(_) => "Failed to delete task: " + message
    case ChangeStatus(_, _) => "Failed to update task status: " + message
  }

  class TasksComposable {
    /** The cache entry of `['tasks']` (None until the first fetch has stored a list). */
    var data: Option<seq<Task>>
    /** Set by `invalidateQueries`: the entry must be refetched from the server. */
    var stale: bool
    var newTaskTitle: string
    var newTaskDescription: string
    var isAddingTask: bool
    /** The error toasts shown so far, oldest first. */
    ghost var toasts: seq<string>

    constructor (cached: Option<seq<Task>>)
      ensures data == cached && !stale && toasts == []
      ensures newTaskTitle == "" && newTaskDescription == "" && !isAddingTask
    {
      data := cached;
      stale := false;
      newTaskTitle := "";
      newTaskDescription := "";
      isAddingTask := false;
      toasts := [];
    }

    /** `onMutate` of the create mutation. */
    method CreateOnMutate(title: string, description: string, now: int) returns (ctx: Context)
      modifies this`data
      ensures ctx.previousTasks == old(data)
      ensures data == Some(OptimisticCreate(old(data), now, title, description))
    {
      // cancelQueries: no refresh is modelled, so there is nothing to cancel
      var previousTasks := data;
      data := Some(OptimisticCreate(data, now, title, description));
      ctx := Context(previousTasks);
    }

    /** `onMutate` of the delete mutation. */
    method DeleteOnMutate(id: int) returns (ctx: Context)
      modifies this`data
      ensures ctx.previousTasks == old(data)
      ensures data == Some(OptimisticDelete(old(data), id))
    {
      var previousTasks := data;
      data := Some(OptimisticDelete(data, id));
      ctx := Context(previousTasks);
    }

    /** `onMutate` of the change-status mutation. */
    method ChangeStatusOnMutate(id: int, completed: bool) returns (ctx: Context)
      modifies this`data
      ensures ctx.previousTasks == old(data)
      ensures data == Some(OptimisticChangeStatus(old(data), id, completed))
    {
      var previousTasks := data;
      data := Some(OptimisticChangeStatus(data, id, completed));
      ctx := Context(previousTasks);
    }

    /**
      `onError` of mutation `m`: the snapshot is written back whenever there is
      one (an empty list is a snapshot too), whatever was written since; with
      no snapshot the cache keeps its current value. Then a toast is shown.
    */
    method OnError(m: Mutation, ctx: Context, message: string)
      modifies this`data, this`toasts
      ensures ctx.previousTasks.Some? ==> data == ctx.previousTasks
      ensures ctx.previousTasks.None? ==> data == old(data)
      ensures toasts == old(toasts) + [ErrorToast(m, message)]
    {
      if ctx.previousTasks.Some? {
        data := ctx.previousTasks;
      }
      toasts := toasts + [ErrorToast(m, message)];
    }

    /** `onSettled` of every mutation: `invalidateQueries(['tasks'])`. */
    method OnSettled()
      modifies this`stale
      ensures stale
    {
      stale := true;
    }

    /**
      One run of mutation `m` through its lifecycle: `onMutate`, the request
      (whose result is `outcome`), `onError` on failure, `onSettled` always.
    */
    method Mutate(m: Mutation, now: int, outcome: Outcome)
      modifies this`data, this`stale, this`toasts
      ensures outcome.Failure? && old(data).Some? ==> data == old(data)
      ensures !(outcome.Failure? && old(data).Some?) ==> data == Some(Optimistic(m, old(data), now))
      ensures stale
      ensures toasts == old(toasts) + (if outcome.Failure? then [ErrorToast(m, outcome.message)] else [])
    {
      var ctx: Context;
      match m {
        case CreateTask(title, description) => ctx := CreateOnMutate(title, description, now);
        case DeleteTask(id) => ctx := DeleteOnMutate(id);
        case ChangeStatus(id, completed) => ctx := ChangeStatusOnMutate(id, completed);
      }
      if outcome.Failure? {
        OnError(m, ctx, outcome.message);
      }
      OnSettled();
    }

    /**
      `addTask`: runs the create mutation with the fields as typed, but only
      when both fields are non-blank after trimming; on success it clears the
      fields, and in every case `isAddingTask` ends false. On failure the
      returned promise rejects with the request's error.
    */
    method AddTask(now: int, outcome: Outcome) returns (r: AddResult)
      modifies this
      ensures var submit := HasContent(old(newTaskTitle)) && HasContent(old(newTaskDescription));
        && (r == Skipped <==> !submit)
        && (r == Added <==> submit && outcome.Success?)
        && (r.Rejected? <==> submit && outcome.Failure?)
        && (r.Rejected? ==> r.message == outcome.message)
      ensures r == Skipped ==> unchanged(this)
      ensures r != Skipped ==>
        && !isAddingTask
        && stale
        && (outcome.Failure? && old(data).Some? ==> data == old(data))
        && (!(outcome.Failure? && old(data).Some?) ==>
              data == Some(Optimistic(CreateTask(old(newTaskTitle), old(newTaskDescription)), old(data), now)))
        && toasts == old(toasts) + (if outcome.Failure? then [ErrorToast(CreateTask(old(newTaskTitle), old(newTaskDescription)), outcome.message)] else [])
        && (outcome.Success? ==> newTaskTitle == "" && newTaskDescription == "")
        && (outcome.Failure? ==> newTaskTitle == old(newTaskTitle) && newTaskDescription == old(newTaskDescription))
    {
      if HasContent(newTaskTitle) && HasContent(newTaskDescription) {
        r := SubmitNewTask(now, outcome);
      } else {
        r := Skipped;
      }
    }

    /** The guarded part of `addTask` (lines 92-101): the create mutation with the fields as typed. */
    method SubmitNewTask(now: int, outcome: Outcome) returns (r: AddResult)
      modifies this
      ensures outcome.Success? ==> r == Added
      ensures outcome.Failure? ==> r == Rejected(outcome.message)
      ensures !isAddingTask
      ensures stale
      ensures outcome.Failure? && old(data).Some? ==> data == old(data)
      ensures !(outcome.Failure? && old(data).Some?) ==>
        data == Some(Optimistic(CreateTask(old(newTaskTitle), old(newTaskDescription)), old(data), now))
      ensures toasts == old(toasts) + (if outcome.Failure? then [ErrorToast(CreateTask(old(newTaskTitle), old(newTaskDescription)), outcome.message)] else [])
      ensures outcome.Success? ==> newTaskTitle == "" && newTaskDescription == ""
      ensures outcome.Failure? ==> newTaskTitle == old(newTaskTitle) && newTaskDescription == old(newTaskDescription)
    {
      isAddingTask := true;
      Mutate(CreateTask(newTaskTitle, newTaskDescription), now, outcome);
      if outcome.Success? {
        newTaskTitle := "";
        newTaskDescription := "";
        r := Added;
      } else {
        r := Rejected(outcome.message);
      }
      isAddingTask := false;
    }

    /** `handleTaskStatusChange`: starts the change-status mutation (no clock reading is taken). */
    method HandleTaskStatusChange(id: int, completed: bool, outcome: Outcome)
      modifies this`data, this`stale, this`toasts
      ensures outcome.Failure? && old(data).Some? ==> data == old(data)
      ensures !(outcome.Failure? && old(data).Some?) ==> data == Some(OptimisticChangeStatus(old(data), id, completed))
      ensures stale
      ensures toasts == old(toasts) + (if outcome.Failure? then ["Failed to update task status: " + outcome.message] else [])
    {
      Mutate(ChangeStatus(id, completed), 0, outcome);
    }

    /** `handleDeleteTask`: starts the delete mutation (no clock reading is taken). */
    method HandleDeleteTask(id: int, outcome: Outcome)
      modifies this`data, this`stale, this`toasts
      ensures outcome.Failure? && old(data).Some? ==> data == old(data)
      ensures !(outcome.Failure? && old(data).Some?) ==> data == Some(OptimisticDelete(old(data), id))
      ensures stale
      ensures toasts == old(toasts) + (if outcome.Failure? then ["Failed to delete task: " + outcome.message] else [])
    {
      Mutate(DeleteTask(id), 0, outcome);
    }
  }

  /**
    Two mutations in flight: a delete starts, then a status change starts on
    top of the delete's optimistic list, then the delete fails. Its rollback
    restores the list from before the delete, so the status change's
    optimistic write is gone from the cache until the refetch.
  */
  method InterleavedRollback(c: TasksComposable, deletedId: int, changedId: int, message: string)
    requires c.data.Some?
    modifies c
    ensures c.data == old(c.data)
  {
    var ctxDelete := c.DeleteOnMutate(deletedId);
    var ctxChange := c.ChangeStatusOnMutate(changedId, true);
    assert ctxChange.previousTasks == Some(RemoveId(old(c.data).value, deletedId));
    c.OnError(DeleteTask(deletedId), ctxDelete, message);
  }
}
