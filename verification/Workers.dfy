/**
 Attachment workers, usage leases and cleanup, one lock region at a time, in any interleaving.
 */
module Workers {
  type Cid = nat
  type TaskId = nat

  const LIMIT := 2

  datatype TaskState = Reserved | Queued | Running | Done

  /** A task with the number of times its usage lease was given back. */
  datatype Task = Task(cid: Cid, state: TaskState, releases: nat)

  /**
   `tasks` are all tasks ever reserved and `slots` the one each conversation has now.  A RUNNING task is one a
   thread is carrying out.  `readers` are the leases held by anyone but a task.
   */
  datatype Pool = Pool(tasks: seq<Task>, slots: map<Cid, TaskId>, waiting: set<Cid>, queue: seq<TaskId>, started: bool,
                       stopping: bool, users: map<Cid, nat>, cleaning: set<Cid>, readers: multiset<Cid>)

  function Start(): Pool { Pool([], map[], {}, [], false, false, map[], {}, multiset{}) }

  // ----- the usage guard -----

  function Count(users: map<Cid, nat>, c: Cid): nat { if c in users then users[c] else 0 }

  function Lease(users: map<Cid, nat>, c: Cid): map<Cid, nat> { users[c := Count(users, c) + 1] }

  function Unlease(users: map<Cid, nat>, c: Cid): map<Cid, nat> {
    if Count(users, c) <= 1 then users - {c} else users[c := users[c] - 1]
  }

  // ----- the lock regions -----

  predicate Owns(p: Pool, t: TaskId) { t < |p.tasks| && p.tasks[t].cid in p.slots && p.slots[p.tasks[t].cid] == t }

  function Discarded(p: Pool, t: TaskId): (q: Pool)
    ensures |q.tasks| == |p.tasks|
  {
    if !Owns(p, t) then p
    else
      var c := p.tasks[t].cid;
      p.(slots := p.slots - {c}, users := Unlease(p.users, c), waiting := {},
         tasks := p.tasks[t := Task(c, Done, p.tasks[t].releases + 1)])
  }

  /** Shutdown goes through the tasks that are not running. */
  function DiscardFrom(p: Pool, t: TaskId): Pool
    decreases |p.tasks| - t
  {
    if t >= |p.tasks| then p
    else DiscardFrom(if p.tasks[t].state == Running then p else Discarded(p, t), t + 1)
  }

  datatype Step =
    | AcquireLease(c: Cid)
    | ReleaseLease(c: Cid)
    | Busy(c: Cid)
    | Reserve(c: Cid)
    | StartThreads
    | Submit(t: TaskId)
    | Take
    | Finish(t: TaskId)
    | DiscardUnsubmitted(t: TaskId)
    | Shutdown
    | BeginCleanup(c: Cid)
    | EndCleanup(c: Cid)

  /** What the callers of a region bring with them; the region itself decides everything else. */
  predicate Enabled(p: Pool, step: Step) {
    match step
    case ReleaseLease(c) => c in p.readers
    // a reservation is handed to one caller, who submits it once
    case Submit(t) => t < |p.tasks| && (p.tasks[t].state == Reserved || p.tasks[t].state == Done)
    case Finish(t) => t < |p.tasks| && p.tasks[t].state == Running
    case EndCleanup(c) => c in p.cleaning
    case _ => true
  }

  function Move(p: Pool, t: TaskId, state: TaskState): Pool
    requires t < |p.tasks|
  {
    p.(tasks := p.tasks[t := p.tasks[t].(state := state)])
  }

  function Apply(p: Pool, step: Step): Pool {
    match step
    case AcquireLease(c) =>
      if c in p.cleaning then p else p.(users := Lease(p.users, c), readers := p.readers + multiset{c})
    case ReleaseLease(c) => p.(users := Unlease(p.users, c), readers := p.readers - multiset{c})
    case Busy(c) =>
      if c in p.slots || (c in p.waiting && |p.slots| >= LIMIT) then p else p.(waiting := p.waiting - {c})
    case Reserve(c) =>
      if p.stopping || c in p.slots then p
      else if |p.slots| >= LIMIT then p.(waiting := p.waiting + {c})
      else if c in p.cleaning then p
      else p.(users := Lease(p.users, c), slots := p.slots[c := |p.tasks|], tasks := p.tasks + [Task(c, Reserved, 0)])
    case StartThreads => if p.stopping then p else p.(started := true)
    case Submit(t) =>
      if p.stopping || !Owns(p, t) then p
      else if p.started then Move(p, t, Queued).(queue := p.queue + [t])
      else Move(p, t, Running)
    case Take =>
      if p.stopping || p.queue == [] || p.queue[0] >= |p.tasks| then p
      else Move(p, p.queue[0], Running).(queue := p.queue[1..])
    case Finish(t) => Discarded(p, t)
    case DiscardUnsubmitted(t) => if t < |p.tasks| && p.tasks[t].state == Reserved then Discarded(p, t) else p
    case Shutdown => DiscardFrom(p.(stopping := true, waiting := {}, queue := []), 0)
    case BeginCleanup(c) =>
      if Count(p.users, c) > 0 || c in p.cleaning then p else p.(cleaning := p.cleaning + {c})
    case EndCleanup(c) => p.(cleaning := p.cleaning - {c})
  }

  // ----- the invariant -----

  /** Leases are counted exactly: one for every reader and one for a task. */
  ghost predicate LeaseAt(p: Pool, c: Cid) {
    && Count(p.users, c) == p.readers[c] + (if c in p.slots then 1 else 0)
    && (c in p.users ==> p.users[c] > 0)
    && (c in p.cleaning ==> Count(p.users, c) == 0)
  }

  /** A task holds its slot until it is done, and gives back its lease exactly then. */
  ghost predicate TaskAt(p: Pool, t: TaskId)
    requires t < |p.tasks|
  {
    && (p.tasks[t].state != Done <==> Owns(p, t))
    && p.tasks[t].releases == (if p.tasks[t].state == Done then 1 else 0)
  }

  /** A queued task has its place in the queue; after shutdown only running tasks are left. */
  ghost predicate QueueOk(p: Pool) {
    && (forall t :: 0 <= t < |p.tasks| && p.tasks[t].state == Queued ==> t in p.queue)
    && (p.stopping ==> forall t :: 0 <= t < |p.tasks| ==> p.tasks[t].state == Running || p.tasks[t].state == Done)
    && (forall i :: 0 <= i < |p.queue| ==> p.queue[i] < |p.tasks| && p.tasks[p.queue[i]].state == Queued)
    && (forall i, j :: 0 <= i < j < |p.queue| ==> p.queue[i] != p.queue[j])
    && (p.stopping ==> p.queue == [])
  }

  ghost predicate SlotsOk(p: Pool) {
    |p.slots| <= LIMIT && forall c :: c in p.slots ==> p.slots[c] < |p.tasks| && p.tasks[p.slots[c]].cid == c
  }

  ghost predicate Sound(p: Pool) {
    (forall c :: LeaseAt(p, c)) && (forall t :: 0 <= t < |p.tasks| ==> TaskAt(p, t)) && SlotsOk(p)
  }

  ghost predicate Inv(p: Pool) { Sound(p) && QueueOk(p) }

  lemma StartOk()
    ensures Inv(Start())
  {}

  lemma SmallerMap(m: map<Cid, TaskId>, c: Cid)
    requires c in m
    ensures |m - {c}| == |m| - 1
  {
    assert (m - {c}).Keys == m.Keys - {c};
    assert |m.Keys - {c}| == |m.Keys| - 1;
  }

  lemma LargerMap(m: map<Cid, TaskId>, c: Cid, t: TaskId)
    requires c !in m
    ensures |m[c := t]| == |m| + 1
  {
    assert m[c := t].Keys == m.Keys + {c};
  }

  // ----- every region keeps it -----

  /** The pieces of the invariant a step of the guard does not touch. */
  lemma GuardKeeps(p: Pool, q: Pool)
    requires Inv(p) && q == p.(users := q.users, readers := q.readers, cleaning := q.cleaning, waiting := q.waiting,
                               started := q.started)
    requires forall c :: LeaseAt(q, c)
    ensures Inv(q)
  {
    hide LeaseAt;
    forall t | 0 <= t < |q.tasks| ensures TaskAt(q, t) { assert TaskAt(p, t); }
  }

  lemma LeaseStep(p: Pool, step: Step, c: Cid)
    requires LeaseAt(p, c) && Enabled(p, step)
    requires step.AcquireLease? || step.ReleaseLease? || step.Busy? || step.BeginCleanup? || step.EndCleanup?
             || step.StartThreads?
    ensures LeaseAt(Apply(p, step), c)
  {}

  lemma GuardStepKeeps(p: Pool, step: Step)
    requires Inv(p) && Enabled(p, step)
    requires step.AcquireLease? || step.ReleaseLease? || step.Busy? || step.BeginCleanup? || step.EndCleanup?
             || step.StartThreads?
    ensures Inv(Apply(p, step))
  {
    hide LeaseAt, TaskAt, QueueOk, SlotsOk;
    forall c ensures LeaseAt(Apply(p, step), c) { LeaseStep(p, step, c); }
    GuardKeeps(p, Apply(p, step));
  }

  lemma ReserveLease(p: Pool, c: Cid, d: Cid)
    requires LeaseAt(p, d) && LeaseAt(p, c)
    ensures LeaseAt(Apply(p, Reserve(c)), d)
  {}

  lemma ReserveKeeps(p: Pool, c: Cid)
    requires Inv(p)
    ensures Inv(Apply(p, Reserve(c)))
  {
    hide LeaseAt;
    var q := Apply(p, Reserve(c));
    forall d ensures LeaseAt(q, d) { ReserveLease(p, c, d); }
    if |q.tasks| == |p.tasks| + 1 {
      ReserveSlots(p, q, c);
      ReserveQueue(p, q);
      hide TaskAt, QueueOk, SlotsOk;
      forall t | 0 <= t < |q.tasks| ensures TaskAt(q, t) {
        if t < |p.tasks| { assert TaskAt(p, t); }
        ReserveTask(p, q, c, t);
      }
    } else {
      GuardKeeps(p, q);
    }
  }

  lemma ReserveSlots(p: Pool, q: Pool, c: Cid)
    requires SlotsOk(p) && c !in p.slots && |p.slots| < LIMIT
    requires q.slots == p.slots[c := |p.tasks|] && q.tasks == p.tasks + [Task(c, Reserved, 0)]
    ensures SlotsOk(q)
  {
    LargerMap(p.slots, c, |p.tasks|);
    assert forall t :: 0 <= t < |p.tasks| ==> q.tasks[t] == p.tasks[t];
  }

  lemma ReserveTask(p: Pool, q: Pool, c: Cid, t: TaskId)
    requires t < |q.tasks| && q.tasks == p.tasks + [Task(c, Reserved, 0)] && q.slots == p.slots[c := |p.tasks|]
             && c !in p.slots
    requires t < |p.tasks| ==> TaskAt(p, t)
    ensures TaskAt(q, t)
  {
    if t < |p.tasks| { assert q.tasks[t] == p.tasks[t]; }
  }

  lemma ReserveQueue(p: Pool, q: Pool)
    requires QueueOk(p) && !q.stopping && q.queue == p.queue && p.tasks < q.tasks && |q.tasks| == |p.tasks| + 1
    requires q.tasks[|p.tasks|].state == Reserved
    ensures QueueOk(q)
  {
    assert forall t :: 0 <= t < |p.tasks| ==> q.tasks[t] == p.tasks[t];
  }

  /** A reserved or queued task moves on in its slot. */
  lemma MoveKeeps(p: Pool, t: TaskId, state: TaskState)
    requires Sound(p) && t < |p.tasks| && p.tasks[t].state != Done && state != Done
    ensures Sound(Move(p, t, state))
  {
    var q := Move(p, t, state);
    forall c ensures LeaseAt(q, c) { assert LeaseAt(p, c); }
    forall s | 0 <= s < |q.tasks| ensures TaskAt(q, s) { assert TaskAt(p, s); }
  }

  lemma SameSlots(p: Pool, q: Pool)
    requires Sound(p) && q == p.(queue := q.queue, waiting := q.waiting, stopping := q.stopping)
    ensures Sound(q)
  {
    forall c ensures LeaseAt(q, c) { assert LeaseAt(p, c); }
    forall s | 0 <= s < |q.tasks| ensures TaskAt(q, s) { assert TaskAt(p, s); }
  }

  lemma SubmitKeeps(p: Pool, t: TaskId)
    requires Inv(p) && Enabled(p, Submit(t))
    ensures Inv(Apply(p, Submit(t)))
  {
    if !p.stopping && Owns(p, t) {
      assert TaskAt(p, t);
      SubmitQueue(p, t);
      hide LeaseAt, TaskAt, SlotsOk, QueueOk, Sound;
      var state := if p.started then Queued else Running;
      MoveKeeps(p, t, state);
      SameSlots(Move(p, t, state), Apply(p, Submit(t)));
    }
  }

  lemma SubmitQueue(p: Pool, t: TaskId)
    requires QueueOk(p) && t < |p.tasks| && p.tasks[t].state == Reserved && !p.stopping
    ensures QueueOk(Move(p, t, Running)) && QueueOk(Move(p, t, Queued).(queue := p.queue + [t]))
  {
    assert forall i :: 0 <= i < |p.queue| ==> p.queue[i] != t;
    QueueLonger(p, t);
  }

  lemma QueueLonger(p: Pool, t: TaskId)
    requires QueueOk(p) && t < |p.tasks| && !p.stopping && forall i :: 0 <= i < |p.queue| ==> p.queue[i] != t
    ensures QueueOk(Move(p, t, Queued).(queue := p.queue + [t]))
  {
    var q := Move(p, t, Queued).(queue := p.queue + [t]);
    assert forall i :: 0 <= i < |p.queue| ==> q.queue[i] == p.queue[i];
    assert q.queue[|p.queue|] == t;
    forall s | 0 <= s < |q.tasks| && q.tasks[s].state == Queued ensures s in q.queue {
      if s != t { assert s in p.queue; }
    }
  }

  lemma TakeQueue(p: Pool)
    requires QueueOk(p) && !p.stopping && p.queue != []
    ensures p.queue[0] < |p.tasks| && p.tasks[p.queue[0]].state == Queued
    ensures QueueOk(Move(p, p.queue[0], Running).(queue := p.queue[1..]))
  {
    var t := p.queue[0];
    var q := Move(p, t, Running).(queue := p.queue[1..]);
    assert forall i :: 0 <= i < |q.queue| ==> q.queue[i] == p.queue[i + 1];
    forall s | 0 <= s < |q.tasks| && q.tasks[s].state == Queued ensures s in q.queue {
      var i :| 0 <= i < |p.queue| && p.queue[i] == s;
      assert q.queue[i - 1] == s;
    }
  }

  lemma TakeKeeps(p: Pool)
    requires Inv(p)
    ensures Inv(Apply(p, Take))
  {
    if !p.stopping && p.queue != [] {
      TakeQueue(p);
      hide LeaseAt, TaskAt, SlotsOk, QueueOk, Sound;
      MoveKeeps(p, p.queue[0], Running);
      SameSlots(Move(p, p.queue[0], Running), Apply(p, Take));
    }
  }

  lemma DiscardLease(p: Pool, t: TaskId, c: Cid)
    requires Owns(p, t) && LeaseAt(p, c) && LeaseAt(p, p.tasks[t].cid)
    ensures LeaseAt(Discarded(p, t), c)
  {}

  lemma DiscardTask(p: Pool, t: TaskId, s: TaskId)
    requires t < |p.tasks| && s < |p.tasks| && TaskAt(p, t) && TaskAt(p, s) && Owns(p, t)
    ensures TaskAt(Discarded(p, t), s)
  {}

  lemma DiscardSlots(p: Pool, t: TaskId)
    requires SlotsOk(p) && Owns(p, t)
    ensures SlotsOk(Discarded(p, t))
  {
    SmallerMap(p.slots, p.tasks[t].cid);
  }

  lemma DiscardSound(p: Pool, t: TaskId)
    requires Sound(p) && t < |p.tasks|
    ensures Sound(Discarded(p, t)) && Discarded(p, t).tasks[t].state == Done
    ensures forall s :: 0 <= s < |p.tasks| && s != t ==> Discarded(p, t).tasks[s] == p.tasks[s]
  {
    assert TaskAt(p, t);
    if Owns(p, t) {
      var q := Discarded(p, t);
      DiscardSlots(p, t);
      hide LeaseAt, SlotsOk;
      forall c ensures LeaseAt(q, c) { DiscardLease(p, t, c); }
      forall s | 0 <= s < |q.tasks| ensures TaskAt(q, s) { assert TaskAt(p, s); DiscardTask(p, t, s); }
    }
  }

  lemma DiscardKeeps(p: Pool, t: TaskId)
    requires Inv(p) && t < |p.tasks| && p.tasks[t].state != Queued
    ensures Inv(Discarded(p, t))
  {
    DiscardSound(p, t);
    hide Sound;
    var q := Discarded(p, t);
    assert q.queue == p.queue && q.stopping == p.stopping;
  }

  lemma {:induction false} DiscardFromKeeps(p: Pool, t: TaskId)
    requires Sound(p)
    requires forall s :: 0 <= s < |p.tasks| && s < t ==> p.tasks[s].state == Running || p.tasks[s].state == Done
    ensures var q := DiscardFrom(p, t);
            && Sound(q) && q.stopping == p.stopping && q.queue == p.queue && |q.tasks| == |p.tasks|
            && forall s :: 0 <= s < |q.tasks| ==> q.tasks[s].state == Running || q.tasks[s].state == Done
    decreases |p.tasks| - t
  {
    hide Sound;
    if t < |p.tasks| {
      if p.tasks[t].state == Running {
        DiscardFromKeeps(p, t + 1);
      } else {
        DiscardSound(p, t);
        DiscardFromKeeps(Discarded(p, t), t + 1);
      }
    }
  }

  lemma ShutdownKeeps(p: Pool)
    requires Inv(p)
    ensures Inv(Apply(p, Shutdown)) && Apply(p, Shutdown).stopping
  {
    hide Sound;
    var p1 := p.(stopping := true, waiting := {}, queue := []);
    SameSlots(p, p1);
    DiscardFromKeeps(p1, 0);
  }

  lemma StepKeeps(p: Pool, step: Step)
    requires Inv(p) && Enabled(p, step)
    ensures Inv(Apply(p, step))
  {
    hide Inv;
    match step
    case Reserve(c) => ReserveKeeps(p, c);
    case Submit(t) => SubmitKeeps(p, t);
    case Take => TakeKeeps(p);
    case Finish(t) => DiscardKeeps(p, t);
    case DiscardUnsubmitted(t) => if t < |p.tasks| && p.tasks[t].state == Reserved { DiscardKeeps(p, t); }
    case Shutdown => ShutdownKeeps(p);
    case _ => GuardStepKeeps(p, step);
  }

  // ----- over every interleaving -----

  ghost predicate IsRun(tr: seq<Pool>, steps: seq<Step>) {
    && |tr| == |steps| + 1 && tr[0] == Start()
    && forall i :: 0 <= i < |steps| ==> Enabled(tr[i], steps[i]) && tr[i + 1] == Apply(tr[i], steps[i])
  }

  lemma {:induction false} Always(tr: seq<Pool>, steps: seq<Step>, n: nat)
    requires IsRun(tr, steps) && n < |tr|
    ensures Inv(tr[n])
  {
    hide Inv, Enabled, Apply;
    if n == 0 {
      StartOk();
    } else {
      Always(tr, steps, n - 1);
      assert Enabled(tr[n - 1], steps[n - 1]) && tr[n - 1 + 1] == Apply(tr[n - 1], steps[n - 1]);
      StepKeeps(tr[n - 1], steps[n - 1]);
    }
  }

  /**
   At most two unfinished tasks, at most one a conversation; a task gives back its lease exactly when it is done,
   once; a conversation under cleanup has neither an unfinished task nor any other user.
   */
  lemma WorkersAreBounded(tr: seq<Pool>, steps: seq<Step>, n: nat)
    requires IsRun(tr, steps) && n < |tr|
    ensures var p := tr[n];
            && |p.slots| <= LIMIT
            && (forall t :: 0 <= t < |p.tasks| && p.tasks[t].state != Done ==> p.tasks[t].cid in p.slots)
            && (forall s, t :: 0 <= s < t < |p.tasks| && p.tasks[s].state != Done && p.tasks[t].state != Done ==>
                  p.tasks[s].cid != p.tasks[t].cid)
            && (forall t :: 0 <= t < |p.tasks| ==> p.tasks[t].releases == (if p.tasks[t].state == Done then 1 else 0))
            && (forall c :: c in p.cleaning ==> c !in p.slots && c !in p.readers && Count(p.users, c) == 0)
            && (forall c :: Count(p.users, c) == p.readers[c] + (if c in p.slots then 1 else 0))
  {
    Always(tr, steps, n);
    var p := tr[n];
    hide IsRun, QueueOk;
    forall t | 0 <= t < |p.tasks|
      ensures p.tasks[t].state != Done ==> Owns(p, t)
      ensures p.tasks[t].releases == (if p.tasks[t].state == Done then 1 else 0)
    {
      assert TaskAt(p, t);
    }
    forall c | c in p.cleaning ensures c !in p.slots && c !in p.readers && Count(p.users, c) == 0 {
      assert LeaseAt(p, c);
    }
    forall c ensures Count(p.users, c) == p.readers[c] + (if c in p.slots then 1 else 0) { assert LeaseAt(p, c); }
  }

  // ----- what the regions grant -----

  /** The tasks that are not done. */
  ghost function Unfinished(p: Pool): set<int> { set t | 0 <= t < |p.tasks| && p.tasks[t].state != Done }

  lemma {:induction false} AsManyTasks(keys: set<Cid>, slots: map<Cid, TaskId>, tasks: seq<Task>)
    requires keys <= slots.Keys
    requires forall c :: c in slots ==> slots[c] < |tasks| && tasks[slots[c]].cid == c
    ensures |set c | c in keys :: slots[c]| == |keys|
  {
    if keys != {} {
      var c :| c in keys;
      AsManyTasks(keys - {c}, slots, tasks);
      assert (set d | d in keys :: slots[d]) == (set d | d in keys - {c} :: slots[d]) + {slots[c]};
    }
  }

  lemma SlotsAreUnfinished(p: Pool)
    requires Sound(p)
    ensures |Unfinished(p)| == |p.slots|
    ensures forall c :: c in p.slots <==> exists t :: t in Unfinished(p) && p.tasks[t].cid == c
  {
    forall t | 0 <= t < |p.tasks| ensures t in Unfinished(p) <==> Owns(p, t) { assert TaskAt(p, t); }
    forall c | c in p.slots ensures p.slots[c] in Unfinished(p) { assert Owns(p, p.slots[c]); }
    AsManyTasks(p.slots.Keys, p.slots, p.tasks);
    assert Unfinished(p) == set c | c in p.slots.Keys :: p.slots[c];
  }

  /**
   A task is reserved iff the pool is not stopping, the conversation has no unfinished task and is not being cleaned,
   and fewer than two tasks are unfinished.  It then holds a lease; otherwise no task and no lease changes.
   */
  lemma ReservedIff(p: Pool, c: Cid)
    requires Inv(p)
    ensures var q := Apply(p, Reserve(c));
            var granted := !p.stopping && c !in p.cleaning && |Unfinished(p)| < 2
                           && forall t :: t in Unfinished(p) ==> p.tasks[t].cid != c;
            && q.tasks == (if granted then p.tasks + [Task(c, Reserved, 0)] else p.tasks)
            && Count(q.users, c) == Count(p.users, c) + (if granted then 1 else 0)
            && (forall d :: d != c ==> Count(q.users, d) == Count(p.users, d))
  {
    SlotsAreUnfinished(p);
    hide Inv, Unfinished;
  }

  /** Submitted tasks run in their order: a thread that takes one takes the one that has waited longest. */
  lemma TakenInOrder(p: Pool, t: TaskId)
    requires Inv(p) && Enabled(p, Submit(t)) && p.started && !p.stopping && t < |p.tasks|
             && p.tasks[t].state == Reserved
    ensures Apply(p, Submit(t)).queue == p.queue + [t] && Apply(p, Submit(t)).tasks[t].state == Queued
    ensures var q := Apply(Apply(p, Submit(t)), Take); var first := (p.queue + [t])[0];
            && first < |q.tasks| && q.tasks[first].state == Running && q.queue == (p.queue + [t])[1..]
            && forall s :: 0 <= s < |p.tasks| && s != first && s != t ==> q.tasks[s] == p.tasks[s]
  {
    assert TaskAt(p, t);
    hide LeaseAt, SlotsOk;
  }

  /** A step after shutdown reserves nothing, and a task that is done stays done. */
  lemma StepAfterShutdown(p: Pool, step: Step)
    requires Inv(p) && Enabled(p, step) && p.stopping
    ensures var q := Apply(p, step);
            && q.stopping && |q.tasks| == |p.tasks|
            && forall t :: 0 <= t < |p.tasks| && p.tasks[t].state == Done ==> q.tasks[t].state == Done
  {
    hide Sound;
    if step.Shutdown? { DoneStays(p.(stopping := true, waiting := {}, queue := []), 0); }
  }

  lemma {:induction false} DoneStays(p: Pool, t: TaskId)
    ensures var q := DiscardFrom(p, t);
            && q.stopping == p.stopping && |q.tasks| == |p.tasks|
            && forall s :: 0 <= s < |p.tasks| && p.tasks[s].state == Done ==> q.tasks[s].state == Done
    decreases |p.tasks| - t
  {
    if t < |p.tasks| { DoneStays(if p.tasks[t].state == Running then p else Discarded(p, t), t + 1); }
  }

  /**
   After shutdown only tasks that were already running are left.  From a state on in which all are done, which is what
   a successful shutdown has seen, all stay done and none appears again.
   */
  lemma {:induction false} ShutdownIsFinal(tr: seq<Pool>, steps: seq<Step>, n: nat, m: nat)
    requires IsRun(tr, steps) && n <= m < |tr| && tr[n].stopping
    ensures forall t :: 0 <= t < |tr[n].tasks| ==> tr[n].tasks[t].state == Running || tr[n].tasks[t].state == Done
    ensures tr[m].stopping && |tr[m].tasks| == |tr[n].tasks|
    ensures tr[n].slots == map[] ==>
      tr[m].slots == map[] && forall t :: 0 <= t < |tr[m].tasks| ==> tr[m].tasks[t].state == Done
    decreases m
  {
    hide Apply, Enabled, Inv;
    Always(tr, steps, n);
    OnlyRunning(tr[n]);
    if n < m {
      ShutdownIsFinal(tr, steps, n, m - 1);
      Always(tr, steps, m - 1);
      assert Enabled(tr[m - 1], steps[m - 1]) && tr[m - 1 + 1] == Apply(tr[m - 1], steps[m - 1]);
      StepAfterShutdown(tr[m - 1], steps[m - 1]);
      Always(tr, steps, m);
    }
    if tr[n].slots == map[] {
      if n == m { NoSlotsAllDone(tr[m]); }
      AllDoneNoSlots(tr[m]);
    }
  }

  lemma OnlyRunning(p: Pool)
    requires Inv(p) && p.stopping
    ensures forall t :: 0 <= t < |p.tasks| ==> p.tasks[t].state == Running || p.tasks[t].state == Done
  {
    hide Sound;
  }

  lemma NoSlotsAllDone(p: Pool)
    requires Inv(p) && p.slots == map[]
    ensures forall t :: 0 <= t < |p.tasks| ==> p.tasks[t].state == Done
  {
    forall t | 0 <= t < |p.tasks| ensures p.tasks[t].state == Done { assert TaskAt(p, t); }
  }

  lemma AllDoneNoSlots(p: Pool)
    requires Inv(p) && forall t :: 0 <= t < |p.tasks| ==> p.tasks[t].state == Done
    ensures p.slots == map[]
  {
    hide LeaseAt, QueueOk;
    assert forall t :: 0 <= t < |p.tasks| ==> TaskAt(p, t) && !Owns(p, t);
    assert forall c :: c in p.slots ==> Owns(p, p.slots[c]);
  }
}
