/**
 The attachment workers and the usage guard as objects.  Each method is one region under the lock, and is the step
 of the same name in `Workers`; so whatever order threads enter the regions in, the invariant holds.
 */
module AttachmentWorkers {
  import opened Workers

  /** Users and cleaners of conversations; `readers` is what the holders of leases outside the workers know. */
  class UsageGuard {
    var users: map<Cid, nat>
    var cleaning: set<Cid>
    ghost var readers: multiset<Cid>

    constructor ()
      ensures users == map[] && cleaning == {} && readers == multiset{}
    {
      users, cleaning, readers := map[], {}, multiset{};
    }

    /** Refused while the conversation is being cleaned up. */
    method Enter(c: Cid) returns (ok: bool)
      modifies this
      ensures ok == (c !in old(cleaning)) && cleaning == old(cleaning) && readers == old(readers)
      ensures users == if ok then Lease(old(users), c) else old(users)
    {
      if c in cleaning { return false; }
      users := users[c := (if c in users then users[c] else 0) + 1];
      return true;
    }

    method Exit(c: Cid)
      requires c in users && users[c] > 0
      modifies this
      ensures users == Unlease(old(users), c) && cleaning == old(cleaning) && readers == old(readers)
    {
      var remaining := users[c] - 1;
      if remaining > 0 { users := users[c := remaining]; } else { users := users - {c}; }
    }

    method AcquireCleanupIfIdle(c: Cid) returns (ok: bool)
      modifies this
      ensures ok == (Count(old(users), c) == 0 && c !in old(cleaning)) && users == old(users) && readers == old(readers)
      ensures cleaning == if ok then old(cleaning) + {c} else old(cleaning)
    {
      if (c in users && users[c] > 0) || c in cleaning { return false; }
      cleaning := cleaning + {c};
      return true;
    }
  }

  class Slots {
    const guard: UsageGuard
    var tasks: seq<Task>
    var slots: map<Cid, TaskId>
    var waiting: set<Cid>
    var queue: seq<TaskId>
    var started: bool
    var stopping: bool

    ghost function State(): Pool
      reads this, guard
    {
      Pool(tasks, slots, waiting, queue, started, stopping, guard.users, guard.cleaning, guard.readers)
    }

    ghost predicate Valid()
      reads this, guard
    {
      Inv(State())
    }

    predicate Holds(t: TaskId)
      reads this
    {
      t < |tasks| && tasks[t].cid in slots && slots[tasks[t].cid] == t
    }

    constructor (guard: UsageGuard)
      requires guard.users == map[] && guard.cleaning == {} && guard.readers == multiset{}
      ensures Valid() && State() == Start() && this.guard == guard
    {
      this.guard := guard;
      tasks, slots, waiting, queue, started, stopping := [], map[], {}, [], false, false;
      new;
      StartOk();
    }

    method ReserveSlot(c: Cid) returns (task: TaskId, ok: bool)
      requires Valid()
      modifies this, guard
      ensures Valid() && State() == Apply(old(State()), Reserve(c))
      ensures ok ==> task == |old(tasks)| && Owns(State(), task) && tasks[task] == Task(c, Reserved, 0)
      ensures !ok ==> tasks == old(tasks) && slots == old(slots) && guard.users == old(guard.users)
    {
      StepKeeps(State(), Reserve(c));
      hide Inv, Lease;
      task, ok := |tasks|, false;
      if stopping || c in slots { return; }
      if |slots| >= LIMIT {
        waiting := waiting + {c};
        return;
      }
      ok := guard.Enter(c);
      if ok {
        slots := slots[c := task];
        tasks := tasks + [Task(c, Reserved, 0)];
      }
    }

    method SubmitTask(t: TaskId) returns (running: bool)
      requires Valid() && t < |tasks| && (tasks[t].state == Reserved || tasks[t].state == Done)
      modifies this
      ensures Valid() && State() == Apply(old(State()), Submit(t))
      ensures running ==> tasks[t].state == Running
    {
      StepKeeps(State(), Submit(t));
      hide Inv;
      if stopping || !Holds(t) { return false; }
      if started {
        tasks := tasks[t := tasks[t].(state := Queued)];
        queue := queue + [t];
        return false;
      }
      tasks := tasks[t := tasks[t].(state := Running)];
      return true;
    }

    method TakeNext() returns (t: TaskId, ok: bool)
      requires Valid()
      modifies this
      ensures Valid() && State() == Apply(old(State()), Take)
      ensures ok <==> !old(stopping) && old(queue) != []
      ensures ok ==> t < |tasks| && tasks[t].state == Running && t == old(queue)[0]
    {
      StepKeeps(State(), Take);
      QueueHead(State());
      hide Inv;
      if stopping || queue == [] { return 0, false; }
      t := queue[0];
      queue := queue[1..];
      tasks := tasks[t := tasks[t].(state := Running)];
      return t, true;
    }

    /** Gives back slot and lease, if the task still has them. */
    method GiveBack(t: TaskId)
      requires Sound(State()) && t < |tasks|
      modifies this, guard
      ensures State() == Discarded(old(State()), t)
    {
      OwnerCounted(State(), t);
      hide Sound, Unlease;
      if !Holds(t) { return; }
      var c := tasks[t].cid;
      guard.Exit(c);
      tasks := tasks[t := Task(c, Done, tasks[t].releases + 1)];
      slots := slots - {c};
      waiting := {};
    }

    /** The end of a task, by its own thread or by whoever gives up a reservation. */
    method Discard(t: TaskId)
      requires Valid() && t < |tasks| && tasks[t].state != Queued
      modifies this, guard
      ensures Valid() && State() == Discarded(old(State()), t)
    {
      DiscardKeeps(State(), t);
      hide Sound, QueueOk, Discarded;
      GiveBack(t);
    }

    /** Stops everything that is not running; what runs is left to its thread. */
    method BeginShutdown()
      requires Valid()
      modifies this, guard
      ensures Valid() && State() == Apply(old(State()), Shutdown) && stopping
    {
      ShutdownKeeps(State());
      ghost var all := Apply(State(), Shutdown);
      SameSlots(State(), State().(stopping := true, waiting := {}, queue := []));
      hide Inv, Sound, Discarded;
      stopping := true;
      waiting := {};
      queue := [];
      var t := 0;
      while t < |tasks|
        invariant Sound(State()) && DiscardFrom(State(), t) == all
        decreases |tasks| - t
      {
        if tasks[t].state != Running {
          DiscardSound(State(), t);
          GiveBack(t);
        }
        t := t + 1;
      }
    }
  }

  lemma QueueHead(p: Pool)
    requires Inv(p)
    ensures p.queue != [] ==> p.queue[0] < |p.tasks|
  {}

  lemma OwnerCounted(p: Pool, t: TaskId)
    requires Sound(p) && t < |p.tasks|
    ensures Owns(p, t) ==> p.tasks[t].cid in p.users && p.users[p.tasks[t].cid] > 0
  {
    assert LeaseAt(p, p.tasks[t].cid);
  }
}
