/** The task record shared by the client and the mock backend (src/types/tasks.ts). */
module Tasks {

  /** One task as it travels on the wire: `{ id, title, description, completed }`. */
  datatype Task = Task(id: int, title: string, description: string, completed: bool)

  /** No two tasks of the collection share an id. */
  predicate UniqueIds(s: seq<Task>) {
    forall i, j | 0 <= i < j < |s| :: s[i].id != s[j].id
  }

  /** Some task of the collection carries `id`. */
  predicate HasId(s: seq<Task>, id: int) {
    exists k | 0 <= k < |s| :: s[k].id == id
  }
}
