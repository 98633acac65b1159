/** The shared map from user id to the `JoinHandle` of that user's tracking task. Handles
    are identities; aborting one is recorded in a ghost set, which is all the model says
    about the task behind it. The `Mutex` around the map only serialises the updates
    below and is not modelled. */
module Registry {

  /** The identity of a spawned task's `JoinHandle`. */
  type Handle = nat

  /** The registry and the aborted handles after `user`'s entry is cancelled: when the
      user has an entry, its handle is aborted and the entry removed; otherwise nothing
      changes. */
  function AfterCancel(tasks: map<string, Handle>, aborted: set<Handle>, user: string): (r: (map<string, Handle>, set<Handle>))
    ensures user !in r.0
    ensures forall u :: u != user ==> (u in r.0 <==> u in tasks)
    ensures forall u :: u in r.0 ==> r.0[u] == tasks[u]
    ensures user in tasks ==> r.1 == aborted + {tasks[user]}
    ensures user !in tasks ==> r == (tasks, aborted)
  {
    if user in tasks then (tasks - {user}, aborted + {tasks[user]}) else (tasks, aborted)
  }

  /** Cancelling twice is cancelling once. */
  lemma CancelIdempotent(tasks: map<string, Handle>, aborted: set<Handle>, user: string)
    ensures var once := AfterCancel(tasks, aborted, user);
      AfterCancel(once.0, once.1, user) == once
  {
  }

  /** Inserting over an existing entry neither aborts its handle nor keeps it anywhere a
      later cancel could find it: unless another user's entry holds the same handle, the
      old task goes on running out of reach. */
  lemma InsertOrphansPrevious(tasks: map<string, Handle>, aborted: set<Handle>, user: string, handle: Handle, other: string)
    requires user in tasks && tasks[user] != handle && tasks[user] !in aborted
    requires forall u :: u in tasks && u != user ==> tasks[u] != tasks[user]
    ensures var previous := tasks[user];
      var after := AfterCancel(tasks[user := handle], aborted, other);
      previous !in after.1 && forall u :: u in after.0 ==> after.0[u] != previous
  {
  }

  class TaskRegistry {
    var tasks: map<string, Handle>
    ghost var aborted: set<Handle>

    constructor ()
      ensures tasks == map[] && aborted == {}
    {
      tasks := map[];
      aborted := {};
    }

    /** `t.insert(user, task)`: the entry is set to the new handle, replacing any
        previous one, which is not aborted. */
    method Insert(user: string, handle: Handle)
      modifies this
      ensures tasks == old(tasks)[user := handle]
      ensures aborted == old(aborted)
    {
      tasks := tasks[user := handle];
    }

    /** `if let Some(v) = t.get(&user) { v.abort(); t.remove(&user); }` */
    method Cancel(user: string)
      modifies this
      ensures (tasks, aborted) == AfterCancel(old(tasks), old(aborted), user)
    {
      if user in tasks {
        aborted := aborted + {tasks[user]};
        tasks := tasks - {user};
      }
    }
  }
}
