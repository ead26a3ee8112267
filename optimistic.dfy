/**
  The optimistic updaters that the three task mutations hand to
  `setQueryData`: each maps the cached list (possibly not loaded yet) to the
  list shown while the request is in flight.
*/
module OptimisticUpdates {
  import opened Wrappers
  import opened Tasks

  /** `old || []`: the cached list, or the empty list when nothing is cached. */
  function OrEmpty(cached: Option<seq<Task>>): seq<Task> {
    match cached
    case None => []
    case Some(s) => s
  }

  /** The placeholder a create shows until the server's record replaces it. */
  function Placeholder(now: int, title: string, description: string): Task {
    Task(now, title, description, false)
  }

  /** Create: the placeholder goes in front of whatever was cached. */
  function OptimisticCreate(cached: Option<seq<Task>>, now: int, title: string, description: string): (r: seq<Task>)
    ensures |r| == |OrEmpty(cached)| + 1
    ensures r[0].id == now && r[0].title == title && r[0].description == description && !r[0].completed
    ensures r[1..] == OrEmpty(cached)
    ensures cached.None? ==> r == [Placeholder(now, title, description)]
  {
    [Placeholder(now, title, description)] + OrEmpty(cached)
  }

  /** `filter((task) => task.id !== id)`. */
  function RemoveId(s: seq<Task>, id: int): (r: seq<Task>)
    ensures |r| <= |s|
    ensures !HasId(r, id)
  {
    if s == [] then []
    else (if s[0].id != id then [s[0]] else []) + RemoveId(s[1..], id)
  }

  /** Delete: the cached list without the tasks carrying `id`; nothing cached gives the empty list. */
  function OptimisticDelete(cached: Option<seq<Task>>, id: int): (r: seq<Task>)
    ensures cached.None? ==> r == []
    ensures cached.Some? ==> r == RemoveId(cached.value, id)
  {
    match cached
    case None => []
    case Some(s) => RemoveId(s, id)
  }

  /** `(task.id === id ? { ...task, completed } : task)` for one task. */
  function WithStatus(t: Task, id: int, completed: bool): Task {
    if t.id == id then t.(completed := completed) else t
  }

  /** `map` of `WithStatus` over the list. */
  function SetStatus(s: seq<Task>, id: int, completed: bool): (r: seq<Task>)
    ensures |r| == |s|
    ensures forall k | 0 <= k < |s| ::
      r[k].id == s[k].id && r[k].title == s[k].title && r[k].description == s[k].description
    ensures forall k | 0 <= k < |s| ::
      r[k].completed == (if s[k].id == id then completed else s[k].completed)
  {
    if s == [] then [] else [WithStatus(s[0], id, completed)] + SetStatus(s[1..], id, completed)
  }

  /** Change status: the cached list with every task carrying `id` set to `completed`; nothing cached gives the empty list. */
  function OptimisticChangeStatus(cached: Option<seq<Task>>, id: int, completed: bool): (r: seq<Task>)
    ensures cached.None? ==> r == []
    ensures cached.Some? ==> r == SetStatus(cached.value, id, completed)
  {
    match cached
    case None => []
    case Some(s) => SetStatus(s, id, completed)
  }

  /** A task survives the filter exactly when it was in the list and does not carry `id`. */
  lemma {:induction false} RemoveIdMembers(s: seq<Task>, id: int, t: Task)
    ensures t in RemoveId(s, id) <==> t in s && t.id != id
  {
    if s != [] {
      RemoveIdMembers(s[1..], id, t);
      assert s == [s[0]] + s[1..];
    }
  }

  /** Filtering is a homomorphism of concatenation, so it keeps the survivors' relative order. */
  lemma {:induction false} RemoveIdAppend(a: seq<Task>, b: seq<Task>, id: int)
    ensures RemoveId(a + b, id) == RemoveId(a, id) + RemoveId(b, id)
  {
    if a == [] {
      assert a + b == b;
    } else {
      assert (a + b)[1..] == a[1..] + b;
      RemoveIdAppend(a[1..], b, id);
    }
  }

  /** Removing an id nobody carries changes nothing. */
  lemma {:induction false} RemoveIdAbsent(s: seq<Task>, id: int)
    requires !HasId(s, id)
    ensures RemoveId(s, id) == s
  {
    if s != [] {
      assert !HasId(s[1..], id) by {
        forall k | 0 <= k < |s[1..]| ensures s[1..][k].id != id {
          assert s[1..][k] == s[k + 1];
        }
      }
      RemoveIdAbsent(s[1..], id);
    }
  }

  /** On a list with unique ids, deleting keeps the ids unique and removes exactly one task when the id is present, none otherwise. */
  lemma {:induction false} RemoveIdUnique(s: seq<Task>, id: int)
    requires UniqueIds(s)
    ensures UniqueIds(RemoveId(s, id))
    ensures HasId(s, id) ==> |RemoveId(s, id)| == |s| - 1
    ensures !HasId(s, id) ==> |RemoveId(s, id)| == |s|
  {
    if s == [] {
    } else {
      var tail := s[1..];
      assert UniqueIds(tail) by {
        forall i, j | 0 <= i < j < |tail| ensures tail[i].id != tail[j].id {
          assert tail[i] == s[i + 1] && tail[j] == s[j + 1];
        }
      }
      RemoveIdUnique(tail, id);
      var rt := RemoveId(tail, id);
      assert forall j | 0 <= j < |tail| :: tail[j].id != s[0].id by {
        forall j | 0 <= j < |tail| ensures tail[j].id != s[0].id {
          assert tail[j] == s[j + 1];
        }
      }
      assert forall j | 0 <= j < |rt| :: rt[j].id != s[0].id by {
        forall j | 0 <= j < |rt| ensures rt[j].id != s[0].id {
          RemoveIdMembers(tail, id, rt[j]);
        }
      }
      if s[0].id == id {
        assert !HasId(tail, id);
        RemoveIdAbsent(tail, id);
      } else {
        assert HasId(tail, id) <==> HasId(s, id) by {
          if HasId(s, id) {
            var k :| 0 <= k < |s| && s[k].id == id;
            assert tail[k - 1] == s[k];
          }
          if HasId(tail, id) {
            var k :| 0 <= k < |tail| && tail[k].id == id;
            assert s[k + 1] == tail[k];
          }
        }
        var r := [s[0]] + rt;
        assert UniqueIds(r) by {
          forall i, j | 0 <= i < j < |r| ensures r[i].id != r[j].id {
            if i == 0 { assert r[j] == rt[j - 1]; } else { assert r[i] == rt[i - 1] && r[j] == rt[j - 1]; }
          }
        }
      }
    }
  }

  /** Changing a status never changes an id, so a list with unique ids keeps them. */
  lemma SetStatusUnique(s: seq<Task>, id: int, completed: bool)
    requires UniqueIds(s)
    ensures UniqueIds(SetStatus(s, id, completed))
  {
  }

  /** A task not carrying `id` is left exactly as it was; one carrying it differs at most in `completed`. */
  lemma SetStatusPointwise(s: seq<Task>, id: int, completed: bool, k: int)
    requires 0 <= k < |s|
    ensures s[k].id != id ==> SetStatus(s, id, completed)[k] == s[k]
    ensures s[k].id == id ==> SetStatus(s, id, completed)[k] == s[k].(completed := completed)
  {
  }

  /** Applying the same status change twice is the same as applying it once. */
  lemma SetStatusIdempotent(s: seq<Task>, id: int, completed: bool)
    ensures SetStatus(SetStatus(s, id, completed), id, completed) == SetStatus(s, id, completed)
  {
  }

  /** Deleting the placeholder's id undoes an optimistic create when that id was not in use. */
  lemma CreateThenDelete(cached: Option<seq<Task>>, now: int, title: string, description: string)
    requires !HasId(OrEmpty(cached), now)
    ensures OptimisticDelete(Some(OptimisticCreate(cached, now, title, description)), now) == OrEmpty(cached)
  {
    var s := OrEmpty(cached);
    RemoveIdAppend([Placeholder(now, title, description)], s, now);
    RemoveIdAbsent(s, now);
  }
}
