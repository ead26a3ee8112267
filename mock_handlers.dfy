/**
  The mock backend: an in-memory `tasks` store seeded with three tasks and
  the GET, POST, PUT and DELETE handlers of `/api/tasks`.
*/
module MockHandlers {
  import opened Wrappers
  import opened Tasks
  import opened OptimisticUpdates

  /** The JSON body of a response. */
  datatype Body = TaskList(tasks: seq<Task>) | OneTask(task: Task) | Message(message: string)

  datatype Response = Response(status: int, body: Body)

  /** The store's seed: tasks 1, 2 and 3 with distinct ids; 1 is completed, 2 and 3 are not. */
  function InitialData(): (r: seq<Task>)
    ensures |r| == 3 && UniqueIds(r)
    ensures forall k | 0 <= k < 3 :: r[k].id == k + 1
    ensures r[0].completed && !r[1].completed && !r[2].completed
  {
    [ Task(1, "Completare il progetto Vue", "Finire di implementare tutte le funzionalità", true),
      Task(2, "Imparare Pinia", "Studiare la documentazione e fare esercizi", false),
      Task(3, "Scrivere test unitari", "Coprire almeno l'80% del codice con test", false) ]
  }

  /** `findIndex((task) => task.id === id)`: the first index carrying `id`, or -1. */
  function FirstIndex(s: seq<Task>, id: int): (r: int)
    ensures -1 <= r < |s|
    ensures r == -1 <==> !HasId(s, id)
    ensures 0 <= r ==> s[r].id == id && forall j | 0 <= j < r :: s[j].id != id
  {
    if s == [] then -1
    else if s[0].id == id then 0
    else
      var k := FirstIndex(s[1..], id);
      assert k == -1 ==> forall j | 0 <= j < |s| :: s[j].id != id by {
        if k == -1 {
          forall j | 0 <= j < |s| ensures s[j].id != id {
            if j > 0 { assert s[j] == s[1..][j - 1]; }
          }
        }
      }
      if k == -1 then -1 else k + 1
  }

  /** The scan `findIndex` performs. */
  method FindIndex(s: seq<Task>, id: int) returns (r: int)
    ensures r == FirstIndex(s, id)
  {
    var i := 0;
    while i < |s|
      invariant 0 <= i <= |s|
      invariant forall j | 0 <= j < i :: s[j].id != id
    {
      if s[i].id == id {
        return i;
      }
      i := i + 1;
    }
    return -1;
  }

  /** The store after PUT: only the `completed` field of the first task carrying `id` changes; an absent id changes nothing. */
  function UpdatedStore(s: seq<Task>, id: int, completed: bool): (r: seq<Task>)
    ensures |r| == |s|
    ensures !HasId(s, id) ==> r == s
    ensures HasId(s, id) ==>
      var i := FirstIndex(s, id);
      && r[i] == s[i].(completed := completed)
      && forall k | 0 <= k < |s| && k != i :: r[k] == s[k]
  {
    var i := FirstIndex(s, id);
    if i == -1 then s else s[i := s[i].(completed := completed)]
  }

  /** The store after DELETE: exactly the first task carrying `id` is spliced out; an absent id changes nothing. */
  function DeletedStore(s: seq<Task>, id: int): (r: seq<Task>)
    ensures !HasId(s, id) ==> r == s
    ensures HasId(s, id) ==>
      var i := FirstIndex(s, id);
      && |r| == |s| - 1
      && r[..i] == s[..i]
      && r[i..] == s[i + 1..]
  {
    var i := FirstIndex(s, id);
    if i == -1 then s else s[..i] + s[i + 1..]
  }

  /** The decimal digits of `n`, as a template literal shows a number. */
  function NatToString(n: nat): (r: string)
    ensures |r| >= 1
  {
    var d := ['0', '1', '2', '3', '4', '5', '6', '7', '8', '9'][n % 10];
    if n < 10 then [d] else NatToString(n / 10) + [d]
  }

  function IntToString(n: int): string {
    if n < 0 then "-" + NatToString(-n) else NatToString(n)
  }

  class TaskStore {
    /** The contents of the `tasks` storage. */
    var tasks: seq<Task>

    constructor ()
      ensures tasks == InitialData()
    {
      tasks := InitialData();
    }

    /** GET /api/tasks: the whole store, unchanged. */
    method Get() returns (resp: Response)
      ensures resp == Response(200, TaskList(tasks))
    {
      resp := Response(200, TaskList(tasks));
    }

    /** POST /api/tasks: a new incomplete task with id `now` goes in front; status 201 with that task. */
    method Post(title: string, description: string, now: int) returns (resp: Response)
      modifies this
      ensures |tasks| == |old(tasks)| + 1
      ensures tasks[0] == Task(now, title, description, false) && tasks[1..] == old(tasks)
      ensures resp == Response(201, OneTask(tasks[0]))
    {
      var newTask := Task(now, title, description, false);
      tasks := [newTask] + tasks;
      resp := Response(201, OneTask(newTask));
    }

    /** PUT /api/tasks/:id: set `completed` of the first task carrying `id`, or 404. */
    method Put(id: int, completed: bool) returns (resp: Response)
      modifies this
      ensures tasks == UpdatedStore(old(tasks), id, completed)
      ensures HasId(old(tasks), id) ==>
        resp == Response(200, OneTask(tasks[FirstIndex(old(tasks), id)]))
      ensures HasId(old(tasks), id) ==>
        resp.body.task == old(tasks)[FirstIndex(old(tasks), id)].(completed := completed)
      ensures !HasId(old(tasks), id) ==> resp == Response(404, Message("Task not found"))
    {
      var taskIndex := FindIndex(tasks, id);
      if taskIndex != -1 {
        tasks := tasks[taskIndex := tasks[taskIndex].(completed := completed)];
        resp := Response(200, OneTask(tasks[taskIndex]));
      } else {
        resp := Response(404, Message("Task not found"));
      }
    }

    /** DELETE /api/tasks/:id: splice out the first task carrying `id`, or 404. */
    method Delete(id: int) returns (resp: Response)
      modifies this
      ensures tasks == DeletedStore(old(tasks), id)
      ensures HasId(old(tasks), id) ==>
        resp == Response(200, Message("Task with id " + IntToString(id) + " deleted successfully"))
      ensures !HasId(old(tasks), id) ==> resp == Response(404, Message("Task not found"))
    {
      var taskIndex := FindIndex(tasks, id);
      if taskIndex != -1 {
        tasks := tasks[..taskIndex] + tasks[taskIndex + 1..];
        resp := Response(200, Message("Task with id " + IntToString(id) + " deleted successfully"));
      } else {
        resp := Response(404, Message("Task not found"));
      }
    }
  }

  /** With unique ids, no task after the first one carrying `id` carries it too. */
  lemma NoLaterId(s: seq<Task>, id: int, i: int)
    requires UniqueIds(s) && 0 <= i < |s| && s[i].id == id
    ensures !HasId(s[i + 1..], id)
  {
  }

  /** No task before the first one carrying `id` carries it. */
  lemma NoEarlierId(s: seq<Task>, id: int, i: int)
    requires 0 <= i < |s| && forall j | 0 <= j < i :: s[j].id != id
    ensures !HasId(s[..i], id)
  {
  }

  /** Filtering `id` out of a list where it occurs only at `i` is the splice at `i`. */
  lemma RemoveIdSplice(s: seq<Task>, id: int, i: int)
    requires 0 <= i < |s| && s[i].id == id
    requires !HasId(s[..i], id) && !HasId(s[i + 1..], id)
    ensures RemoveId(s, id) == s[..i] + s[i + 1..]
  {
    var pre, mid, post := s[..i], [s[i]], s[i + 1..];
    assert s == (pre + mid) + post;
    assert RemoveId(mid, id) == [] by {
      assert mid[1..] == [];
    }
    calc {
      RemoveId(s, id);
      RemoveId((pre + mid) + post, id);
      { RemoveIdAppend(pre + mid, post, id); }
      RemoveId(pre + mid, id) + RemoveId(post, id);
      { RemoveIdAppend(pre, mid, id); }
      RemoveId(pre, id) + RemoveId(mid, id) + RemoveId(post, id);
      { RemoveIdAbsent(pre, id); RemoveIdAbsent(post, id); }
      pre + [] + post;
    }
    assert pre + [] + post == pre + post;
  }

  /** With unique ids, the server's splice and the client's optimistic filter give the same list. */
  lemma ServerDeleteAgrees(s: seq<Task>, id: int)
    requires UniqueIds(s)
    ensures DeletedStore(s, id) == OptimisticDelete(Some(s), id)
  {
    var i := FirstIndex(s, id);
    if i == -1 {
      RemoveIdAbsent(s, id);
    } else {
      NoEarlierId(s, id, i);
      NoLaterId(s, id, i);
      RemoveIdSplice(s, id, i);
    }
  }

  /** With unique ids, the server's in-place update and the client's optimistic map give the same list. */
  lemma ServerPutAgrees(s: seq<Task>, id: int, completed: bool)
    requires UniqueIds(s)
    ensures UpdatedStore(s, id, completed) == OptimisticChangeStatus(Some(s), id, completed)
  {
  }

  /** Without unique ids the two disagree: the server updates only the first of two tasks sharing an id. */
  lemma DuplicateIdsDisagree()
    ensures var s := [Task(7, "a", "b", false), Task(7, "c", "d", false)];
      UpdatedStore(s, 7, true) != OptimisticChangeStatus(Some(s), 7, true)
  {
  }

  /** POST on the store leaves it as the client's optimistic create of the same task would show it, when the ids coincide. */
  method ServerPostAgrees(store: TaskStore, title: string, description: string, now: int)
    modifies store
    ensures store.tasks == OptimisticCreate(Some(old(store.tasks)), now, title, description)
  {
    var _ := store.Post(title, description, now);
  }

  /** PUT and DELETE keep the store's ids unique; POST does when the new id is not in use. */
  lemma StoreKeepsUniqueIds(s: seq<Task>, id: int, completed: bool, now: int, title: string, description: string)
    requires UniqueIds(s)
    ensures UniqueIds(UpdatedStore(s, id, completed))
    ensures UniqueIds(DeletedStore(s, id))
    ensures !HasId(s, now) ==> UniqueIds([Task(now, title, description, false)] + s)
  {
    ServerPutAgrees(s, id, completed);
    SetStatusUnique(s, id, completed);
    ServerDeleteAgrees(s, id);
    RemoveIdUnique(s, id);
    if !HasId(s, now) {
      var r := [Task(now, title, description, false)] + s;
      forall i, j | 0 <= i < j < |r| ensures r[i].id != r[j].id {
        assert r[j] == s[j - 1];
        if i > 0 { assert r[i] == s[i - 1]; }
      }
    }
  }
}
