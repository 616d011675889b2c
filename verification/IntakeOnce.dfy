/**
 The intake model is called at most once for a message of a run, over retries, deferrals, crashes and restarts.

 Workers of one process, the registration of runs they share, and the durable dispatch ledger, which alone
 survives a crash.  Each step is one lock region or one transaction.
 */
module IntakeOnce {
  import opened Conversation

  type Token = nat
  type WorkerId = nat

  /** How far a worker is with the intake of one message. */
  datatype Phase = Free | Looked(id: DispatchId) | Noted(id: DispatchId) | Called(id: DispatchId)

  datatype Worker = Worker(run: nat, token: Token, phase: Phase)

  /** `active` registers a run under the token of whoever works on it; a parked token waits for its attachments. */
  datatype Sys = Sys(ledger: seq<Dispatch>, epoch: Epoch, active: map<nat, Token>, workers: map<WorkerId, Worker>,
                     parked: map<Token, nat>, nextToken: Token, calls: seq<DispatchId>)

  datatype Step =
    | Enter(w: WorkerId, run: nat)
    | Park(w: WorkerId)
    | Resume(w: WorkerId, token: Token)
    | Discard(token: Token)
    | Look(w: WorkerId, message: MessageId)
    | Note(w: WorkerId, key: CommandKey, open: bool)
    | NoteCommand(w: WorkerId, name: nat, op: Operation, key: CommandKey, batch: Option<seq<MessageId>>, open: bool)
    | Call(w: WorkerId)
    | Complete(w: WorkerId)
    | Leave(w: WorkerId)
    | Crash(epoch: Epoch)
    | Interrupt(run: nat)

  function Start(epoch: Epoch): Sys { Sys([], epoch, map[], map[], map[], 0, []) }

  predicate Known(ledger: seq<Dispatch>, id: DispatchId) { DispatchWithId(ledger, id) < |ledger| }

  function Unregister(s: Sys, w: WorkerId): Sys
    requires w in s.workers
  {
    s.(active := s.active - {s.workers[w].run}, workers := s.workers - {w})
  }

  function Continue(s: Sys, w: WorkerId, phase: Phase): Sys
    requires w in s.workers
  {
    s.(workers := s.workers[w := s.workers[w].(phase := phase)])
  }

  function Apply(s: Sys, step: Step): Sys {
    match step
    case Enter(w, run) =>
      if w in s.workers || run in s.active then s
      else s.(active := s.active[run := s.nextToken], workers := s.workers[w := Worker(run, s.nextToken, Free)],
              nextToken := s.nextToken + 1)
    case Park(w) =>
      if w !in s.workers then s
      else s.(workers := s.workers - {w}, parked := s.parked[s.workers[w].token := s.workers[w].run])
    case Resume(w, token) =>
      if w in s.workers || token !in s.parked then s
      else
        var run := s.parked[token];
        if run !in s.active || s.active[run] != token then s
        else s.(workers := s.workers[w := Worker(run, token, Free)], parked := s.parked - {token})
    case Discard(token) =>
      if token !in s.parked then s
      else
        var run := s.parked[token];
        s.(parked := s.parked - {token},
           active := if run in s.active && s.active[run] == token then s.active - {run} else s.active)
    case Look(w, message) =>
      if w !in s.workers || !s.workers[w].phase.Free? then s
      else
        var id := IntakeId(s.workers[w].run, message);
        var k := DispatchWithId(s.ledger, id);
        if k == |s.ledger| then Continue(s, w, Looked(id))
        else if s.ledger[k].status == DispatchCompleted then s
        else Unregister(s, w)
    case Note(w, key, open) =>
      if w !in s.workers || !s.workers[w].phase.Looked? then s
      else
        var id := s.workers[w].phase.id;
        var r := Recorded(s.ledger, Dispatch(id, s.workers[w].run, s.epoch, DispatchPending, IntakeCall, key, None),
                          open);
        if r.Err? then Unregister(s, w) else Continue(s.(ledger := r.value), w, Noted(id))
    case NoteCommand(w, name, op, key, batch, open) =>
      if w !in s.workers || !s.workers[w].phase.Free? then s
      else
        var run := s.workers[w].run;
        var r := Recorded(s.ledger, Dispatch(CommandId(run, name), run, s.epoch, DispatchPending, op, key, batch),
                          open);
        if r.Err? then Unregister(s, w) else s.(ledger := r.value)
    case Call(w) =>
      if w !in s.workers || !s.workers[w].phase.Noted? then s
      else Continue(s.(calls := s.calls + [s.workers[w].phase.id]), w, Called(s.workers[w].phase.id))
    case Complete(w) =>
      if w !in s.workers || !(s.workers[w].phase.Noted? || s.workers[w].phase.Called?) then s
      else Continue(s.(ledger := Ended(s.ledger, s.workers[w].phase.id, s.epoch, DispatchCompleted)), w, Free)
    case Leave(w) => if w !in s.workers then s else Unregister(s, w)
    case Crash(epoch) => Sys(s.ledger, epoch, map[], map[], map[], s.nextToken, s.calls)
    case Interrupt(run) => s.(ledger := InterruptDispatches(s.ledger, run, s.epoch))
  }

  // ----- the invariant -----

  ghost predicate Registered(s: Sys) {
    && (forall w :: w in s.workers ==>
          var v := s.workers[w];
          v.run in s.active && s.active[v.run] == v.token && v.token < s.nextToken && v.token !in s.parked)
    && (forall v, w :: v in s.workers && w in s.workers && v != w ==> s.workers[v].token != s.workers[w].token)
    && (forall t :: t in s.parked ==> t < s.nextToken)
  }

  ghost predicate PhaseOk(s: Sys, v: Worker) {
    match v.phase
    case Free => true
    case Looked(id) => id.IntakeId? && id.runOf == v.run && !Known(s.ledger, id)
    case Noted(id) => id.IntakeId? && id.runOf == v.run && Known(s.ledger, id) && id !in s.calls
    case Called(id) => id.IntakeId? && id.runOf == v.run && Known(s.ledger, id)
  }

  ghost predicate Inv(s: Sys) {
    && Registered(s) && (forall w :: w in s.workers ==> PhaseOk(s, s.workers[w]))
    && (forall i :: 0 <= i < |s.calls| ==> Known(s.ledger, s.calls[i]))
    && (forall i, j :: 0 <= i < j < |s.calls| ==> s.calls[i] != s.calls[j])
  }

  /** A run that nobody works on is taken by the first worker that comes; others find it taken. */
  lemma EnterIff(s: Sys, w: WorkerId, run: nat)
    requires w !in s.workers
    ensures var t := Apply(s, Enter(w, run));
            && (w in t.workers <==> run !in s.active)
            && (w in t.workers ==> t.workers[w].run == run && run in t.active && t.active[run] == t.workers[w].token)
            && t.ledger == s.ledger && t.calls == s.calls
  {}

  /** A run that waits for its attachments is kept for its token: whoever resumes it has it, and nobody enters it. */
  lemma ParkedIsResumed(s: Sys, w: WorkerId, v: WorkerId, other: WorkerId)
    requires Registered(s) && w in s.workers && v !in s.workers && other !in s.workers && other != v
    ensures var run, token := s.workers[w].run, s.workers[w].token; var p := Apply(s, Park(w));
            && w !in p.workers && Apply(p, Enter(other, run)) == p
            && var t := Apply(p, Resume(v, token));
               v in t.workers && t.workers[v] == Worker(run, token, Free) && token !in t.parked
    ensures var run, token := s.workers[w].run, s.workers[w].token;
            run !in Apply(Apply(s, Park(w)), Discard(token)).active
  {}

  /**
   And it is called: a worker that finds no dispatch of the message records one in an open run, calls the model for it
   and completes it, so that from then on it is only read.
   */
  lemma FreshIsCalled(s: Sys, w: WorkerId, message: MessageId, key: CommandKey)
    requires w in s.workers && s.workers[w].phase.Free? && !Known(s.ledger, IntakeId(s.workers[w].run, message))
    ensures var id := IntakeId(s.workers[w].run, message);
            var t := Apply(Apply(Apply(s, Look(w, message)), Note(w, key, true)), Call(w));
            var u := Apply(t, Complete(w));
            && t.calls == s.calls + [id] && w in t.workers && Known(t.ledger, id)
            && u.calls == t.calls && w in u.workers && u.workers[w].phase.Free?
            && (exists k :: 0 <= k < |u.ledger| && u.ledger[k].id == id && u.ledger[k].status == DispatchCompleted)
            && Apply(u, Look(w, message)) == u
  {
    var id := IntakeId(s.workers[w].run, message);
    var s1 := Apply(s, Look(w, message));
    var d := Dispatch(id, s.workers[w].run, s.epoch, DispatchPending, IntakeCall, key, None);
    var s2 := Apply(s1, Note(w, key, true));
    assert s2.ledger == s.ledger + [d];
    AddedLast(s.ledger, d);
    var t := Apply(s2, Call(w));
    var u := Apply(t, Complete(w));
    assert u.ledger == s2.ledger[|s.ledger| := d.(status := DispatchCompleted)];
    AddedLast(s.ledger, d.(status := DispatchCompleted));
    assert u.ledger == s.ledger + [d.(status := DispatchCompleted)];
  }

  lemma {:induction false} AddedLast(ds: seq<Dispatch>, d: Dispatch)
    requires DispatchWithId(ds, d.id) == |ds|
    ensures DispatchWithId(ds + [d], d.id) == |ds| && (ds + [d])[|ds|] == d
  {
    assert forall k :: 0 <= k < |ds| ==> (ds + [d])[k] == ds[k];
    assert (ds + [d])[|ds|].id == d.id;
  }

  /** Two workers never share a run. */
  lemma OneWorkerPerRun(s: Sys, v: WorkerId, w: WorkerId)
    requires Registered(s) && v in s.workers && w in s.workers && s.workers[v].run == s.workers[w].run
    ensures v == w
  {}

  lemma KnownIsThere(ledger: seq<Dispatch>, id: DispatchId)
    ensures Known(ledger, id) <==> exists k :: 0 <= k < |ledger| && ledger[k].id == id
  {}

  /** The ledger keeps its entries and gains at most the one that is recorded. */
  lemma RecordedKnows(ledger: seq<Dispatch>, d: Dispatch, open: bool, id: DispatchId)
    ensures var r := Recorded(ledger, d, open); r.Ok? ==> (Known(r.value, id) <==> Known(ledger, id) || id == d.id)
  {
    var r := Recorded(ledger, d, open);
    if r.Ok? {
      KnownIsThere(ledger, id);
      KnownIsThere(r.value, id);
      hide Known;
      if Known(ledger, id) {
        var k :| 0 <= k < |ledger| && ledger[k].id == id;
        assert r.value[k].id == id;
      }
      if r.value != ledger { assert r.value[|ledger|].id == d.id; }
    }
  }

  lemma SameIdsKnow(a: seq<Dispatch>, b: seq<Dispatch>, id: DispatchId)
    requires |a| == |b| && forall k :: 0 <= k < |a| ==> a[k].id == b[k].id
    ensures Known(a, id) <==> Known(b, id)
  {
    KnownIsThere(a, id);
    KnownIsThere(b, id);
    hide Known;
    if Known(a, id) { var k :| 0 <= k < |a| && a[k].id == id; assert b[k].id == id; }
    if Known(b, id) { var k :| 0 <= k < |b| && b[k].id == id; assert a[k].id == id; }
  }

  lemma {:induction false} InterruptedIds(ds: seq<Dispatch>, run: nat, epoch: Epoch)
    ensures var r := InterruptDispatches(ds, run, epoch);
            |r| == |ds| && forall k :: 0 <= k < |ds| ==> r[k].id == ds[k].id
  {
    if ds != [] {
      InterruptedIds(ds[1..], run, epoch);
      var r := InterruptDispatches(ds, run, epoch);
      assert r[1..] == InterruptDispatches(ds[1..], run, epoch);
      forall k | 0 <= k < |ds| ensures r[k].id == ds[k].id {
        if k > 0 { assert r[k] == r[1..][k - 1] && ds[k] == ds[1..][k - 1]; }
      }
    }
  }

  /** A ledger that knows the same dispatches keeps the invariant. */
  lemma SameLedger(s: Sys, ledger: seq<Dispatch>)
    requires Inv(s) && forall id :: Known(ledger, id) <==> Known(s.ledger, id)
    ensures Inv(s.(ledger := ledger))
  {
    hide Known;
    var s2 := s.(ledger := ledger);
    forall w | w in s2.workers ensures PhaseOk(s2, s2.workers[w]) { assert PhaseOk(s, s.workers[w]); }
  }

  lemma UnregisterKeeps(s: Sys, w: WorkerId)
    requires Inv(s) && w in s.workers
    ensures Inv(Unregister(s, w))
  {
    hide Known;
    var s2 := Unregister(s, w);
    forall v | v in s2.workers
      ensures var x := s2.workers[v];
              x.run in s2.active && s2.active[x.run] == x.token && x.token < s2.nextToken && x.token !in s2.parked
    {
      if s.workers[v].run == s.workers[w].run { OneWorkerPerRun(s, v, w); }
    }
    forall v | v in s2.workers ensures PhaseOk(s2, s2.workers[v]) { assert PhaseOk(s, s.workers[v]); }
  }

  lemma ContinueKeeps(s: Sys, w: WorkerId, phase: Phase)
    requires Inv(s) && w in s.workers && PhaseOk(s, s.workers[w].(phase := phase))
    ensures Inv(Continue(s, w, phase))
  {
    hide Known;
    var s2 := Continue(s, w, phase);
    forall v | v in s2.workers ensures PhaseOk(s2, s2.workers[v]) {
      if v != w { assert PhaseOk(s, s.workers[v]); }
    }
  }

  /** A new entry for a run touches nobody but the one worker of that run. */
  lemma RecordKeeps(s: Sys, w: WorkerId, d: Dispatch, open: bool)
    requires Inv(s) && w in s.workers && d.id.runOf == s.workers[w].run && Recorded(s.ledger, d, open).Ok?
    requires s.workers[w].phase == Free || s.workers[w].phase == Looked(d.id)
    ensures var s2 := s.(ledger := Recorded(s.ledger, d, open).value,
                         workers := s.workers[w := s.workers[w].(phase := Free)]);
            Inv(s2) && Known(s2.ledger, d.id)
  {
    hide Known;
    var s2 := s.(ledger := Recorded(s.ledger, d, open).value, workers := s.workers[w := s.workers[w].(phase := Free)]);
    forall v | v in s2.workers ensures PhaseOk(s2, s2.workers[v]) {
      if v != w {
        assert PhaseOk(s, s.workers[v]);
        if !s.workers[v].phase.Free? {
          RecordedKnows(s.ledger, d, open, s.workers[v].phase.id);
          if s.workers[v].run == s.workers[w].run { OneWorkerPerRun(s, v, w); }
        }
      }
    }
    forall i | 0 <= i < |s.calls| ensures Known(s2.ledger, s.calls[i]) { RecordedKnows(s.ledger, d, open, s.calls[i]); }
    RecordedKnows(s.ledger, d, open, d.id);
  }

  lemma CallKeeps(s: Sys, w: WorkerId)
    requires Inv(s) && w in s.workers && s.workers[w].phase.Noted?
    ensures Inv(Apply(s, Call(w)))
  {
    hide Known;
    var id := s.workers[w].phase.id;
    assert PhaseOk(s, s.workers[w]);
    var s2 := Apply(s, Call(w));
    forall v | v in s2.workers ensures PhaseOk(s2, s2.workers[v]) {
      if v != w {
        assert PhaseOk(s, s.workers[v]);
        if s.workers[v].run == s.workers[w].run { OneWorkerPerRun(s, v, w); }
      }
    }
  }

  lemma NoteKeeps(s: Sys, w: WorkerId, key: CommandKey, open: bool)
    requires Inv(s) && w in s.workers && s.workers[w].phase.Looked?
    ensures Inv(Apply(s, Note(w, key, open)))
  {
    hide Known;
    var id := s.workers[w].phase.id;
    assert PhaseOk(s, s.workers[w]);
    var d := Dispatch(id, s.workers[w].run, s.epoch, DispatchPending, IntakeCall, key, None);
    hide Recorded;
    if Recorded(s.ledger, d, open).Err? {
      UnregisterKeeps(s, w);
    } else {
      RecordKeeps(s, w, d, open);
      var s1 := s.(ledger := Recorded(s.ledger, d, open).value,
                   workers := s.workers[w := s.workers[w].(phase := Free)]);
      assert id !in s.calls;
      ContinueKeeps(s1, w, Noted(id));
      assert s1.workers[w := s1.workers[w].(phase := Noted(id))] == s.workers[w := s.workers[w].(phase := Noted(id))];
    }
  }

  lemma ThreadKeeps(s: Sys, step: Step)
    requires Inv(s) && (step.Enter? || step.Park? || step.Resume? || step.Discard? || step.Crash?)
    ensures Inv(Apply(s, step))
  {
    hide Known;
    var s2 := Apply(s, step);
    forall w | w in s2.workers ensures PhaseOk(s2, s2.workers[w]) {
      if w in s.workers { assert PhaseOk(s, s.workers[w]); }
    }
    if step.Discard? && step.token in s.parked {
      forall w | w in s2.workers
        ensures var v := s2.workers[w]; v.run in s2.active && s2.active[v.run] == v.token
      {
        assert s.workers[w].token != step.token;
      }
    }
  }

  /** Every step keeps the invariant. */
  lemma StepKeeps(s: Sys, step: Step)
    requires Inv(s)
    ensures Inv(Apply(s, step))
  {
    hide Known, Registered, PhaseOk, Recorded, Ended, InterruptDispatches;
    match step
    case Enter(_, _) => ThreadKeeps(s, step);
    case Park(_) => ThreadKeeps(s, step);
    case Resume(_, _) => ThreadKeeps(s, step);
    case Discard(_) => ThreadKeeps(s, step);
    case Crash(_) => ThreadKeeps(s, step);
    case Look(w, message) => LookKeeps(s, w, message);
    case Note(w, key, open) => if w in s.workers && s.workers[w].phase.Looked? { NoteKeeps(s, w, key, open); }
    case NoteCommand(w, name, op, key, batch, open) => CommandKeeps(s, w, name, op, key, batch, open);
    case Call(w) => if w in s.workers && s.workers[w].phase.Noted? { CallKeeps(s, w); }
    case Complete(w) => CompleteKeeps(s, w);
    case Leave(w) => if w in s.workers { UnregisterKeeps(s, w); }
    case Interrupt(run) =>
      InterruptedIds(s.ledger, run, s.epoch);
      forall id ensures Known(InterruptDispatches(s.ledger, run, s.epoch), id) <==> Known(s.ledger, id) {
        SameIdsKnow(s.ledger, InterruptDispatches(s.ledger, run, s.epoch), id);
      }
      SameLedger(s, InterruptDispatches(s.ledger, run, s.epoch));
  }

  lemma LookKeeps(s: Sys, w: WorkerId, message: MessageId)
    requires Inv(s)
    ensures Inv(Apply(s, Look(w, message)))
  {
    hide Registered;
    if w in s.workers && s.workers[w].phase.Free? {
      var id := IntakeId(s.workers[w].run, message);
      if DispatchWithId(s.ledger, id) == |s.ledger| { ContinueKeeps(s, w, Looked(id)); }
      else if s.ledger[DispatchWithId(s.ledger, id)].status != DispatchCompleted { UnregisterKeeps(s, w); }
    }
  }

  lemma CommandKeeps(s: Sys, w: WorkerId, name: nat, op: Operation, key: CommandKey, batch: Option<seq<MessageId>>,
                     open: bool)
    requires Inv(s)
    ensures Inv(Apply(s, NoteCommand(w, name, op, key, batch, open)))
  {
    hide Known, Registered, Recorded;
    if w in s.workers && s.workers[w].phase.Free? {
      var run := s.workers[w].run;
      var d := Dispatch(CommandId(run, name), run, s.epoch, DispatchPending, op, key, batch);
      if Recorded(s.ledger, d, open).Err? { UnregisterKeeps(s, w); }
      else {
        RecordKeeps(s, w, d, open);
        assert s.workers[w := s.workers[w].(phase := Free)] == s.workers;
      }
    }
  }

  lemma CompleteKeeps(s: Sys, w: WorkerId)
    requires Inv(s)
    ensures Inv(Apply(s, Complete(w)))
  {
    hide Registered;
    if w in s.workers && (s.workers[w].phase.Noted? || s.workers[w].phase.Called?) {
      var ledger := Ended(s.ledger, s.workers[w].phase.id, s.epoch, DispatchCompleted);
      forall id ensures Known(ledger, id) <==> Known(s.ledger, id) { SameIdsKnow(s.ledger, ledger, id); }
      SameLedger(s, ledger);
      ContinueKeeps(s.(ledger := ledger), w, Free);
    }
  }

  // ----- over every run -----

  ghost predicate IsRun(tr: seq<Sys>, steps: seq<Step>, epoch: Epoch) {
    |tr| == |steps| + 1 && tr[0] == Start(epoch) && forall i :: 0 <= i < |steps| ==> tr[i + 1] == Apply(tr[i], steps[i])
  }

  lemma {:induction false} Always(tr: seq<Sys>, steps: seq<Step>, epoch: Epoch, n: nat)
    requires IsRun(tr, steps, epoch) && n < |tr|
    ensures Inv(tr[n])
  {
    hide Inv, Apply;
    if n == 0 {
      StartOk(epoch);
    } else {
      Always(tr, steps, epoch, n - 1);
      assert tr[n - 1 + 1] == Apply(tr[n - 1], steps[n - 1]);
      StepKeeps(tr[n - 1], steps[n - 1]);
    }
  }

  lemma StartOk(epoch: Epoch)
    ensures Inv(Start(epoch))
  {}

  /** The model is called at most once for a message of a run, and never for one that was not recorded first. */
  lemma CalledAtMostOnce(tr: seq<Sys>, steps: seq<Step>, epoch: Epoch, n: nat)
    requires IsRun(tr, steps, epoch) && n < |tr|
    ensures forall i, j :: 0 <= i < j < |tr[n].calls| ==> tr[n].calls[i] != tr[n].calls[j]
    ensures forall i :: 0 <= i < |tr[n].calls| ==> Known(tr[n].ledger, tr[n].calls[i])
  {
    Always(tr, steps, epoch, n);
  }

  /** A dispatch left unfinished by a crash is never taken up again. */
  lemma CrashedIsNeverCalled(tr: seq<Sys>, steps: seq<Step>, epoch: Epoch, m: nat, n: nat, id: DispatchId)
    requires IsRun(tr, steps, epoch) && m < n < |tr| && steps[m].Crash? && Known(tr[m].ledger, id) && id !in tr[m].calls
    ensures id !in tr[n].calls && Known(tr[n].ledger, id)
    ensures forall w :: w in tr[n].workers ==> tr[n].workers[w].phase != Noted(id)
  {
    hide Known, Inv;
    if n == m + 1 {
      assert tr[m + 1] == Apply(tr[m], steps[m]);
    } else {
      CrashedIsNeverCalled(tr, steps, epoch, m, n - 1, id);
      Always(tr, steps, epoch, n - 1);
      assert tr[n - 1 + 1] == Apply(tr[n - 1], steps[n - 1]);
      StaysUncalled(tr[n - 1], steps[n - 1], id);
    }
  }

  lemma StaysUncalled(s: Sys, step: Step, id: DispatchId)
    requires Inv(s) && Known(s.ledger, id) && id !in s.calls
    requires forall w :: w in s.workers ==> s.workers[w].phase != Noted(id)
    ensures var s2 := Apply(s, step);
            id !in s2.calls && Known(s2.ledger, id) && forall w :: w in s2.workers ==> s2.workers[w].phase != Noted(id)
  {
    hide Known, Registered, Recorded, Ended, InterruptDispatches;
    match step
    case Note(w, key, open) =>
      if w in s.workers && s.workers[w].phase.Looked? {
        assert PhaseOk(s, s.workers[w]);
        var d := Dispatch(s.workers[w].phase.id, s.workers[w].run, s.epoch, DispatchPending, IntakeCall, key, None);
        RecordedKnows(s.ledger, d, open, id);
      }
    case NoteCommand(w, name, op, key, batch, open) =>
      if w in s.workers {
        var run := s.workers[w].run;
        RecordedKnows(s.ledger, Dispatch(CommandId(run, name), run, s.epoch, DispatchPending, op, key, batch), open,
                      id);
      }
    case Complete(w) =>
      if w in s.workers && !s.workers[w].phase.Free? { EndedKnows(s.ledger, s.workers[w].phase.id, s.epoch, id); }
    case Interrupt(run) =>
      InterruptedIds(s.ledger, run, s.epoch);
      SameIdsKnow(s.ledger, InterruptDispatches(s.ledger, run, s.epoch), id);
    case _ => {}
  }

  lemma EndedKnows(ledger: seq<Dispatch>, ended: DispatchId, epoch: Epoch, id: DispatchId)
    ensures Known(ledger, id) <==> Known(Ended(ledger, ended, epoch, DispatchCompleted), id)
  {
    SameIdsKnow(ledger, Ended(ledger, ended, epoch, DispatchCompleted), id);
  }

  // ----- why the registration is needed -----

  /** The ledger returns a pending dispatch of its own epoch without objection, so two workers on one run both call. */
  lemma LedgerAloneIsNotEnough(s: Sys, v: WorkerId, w: WorkerId, id: DispatchId, key: CommandKey)
    requires v != w && v in s.workers && w in s.workers && s.workers[v].run == s.workers[w].run == id.runOf
    requires s.workers[v].phase == s.workers[w].phase == Looked(id) && !Known(s.ledger, id)
    ensures var s1 := Apply(Apply(s, Note(v, key, true)), Note(w, key, true));
            Apply(Apply(s1, Call(v)), Call(w)).calls == s.calls + [id, id]
  {
    var d := Dispatch(id, id.runOf, s.epoch, DispatchPending, IntakeCall, key, None);
    var ledger := s.ledger + [d];
    assert Recorded(s.ledger, d, true) == Ok(ledger);
    assert ledger[|s.ledger|].id == id;
    FoundLast(s.ledger, d);
    assert Recorded(ledger, d, true) == Ok(ledger);
    assert s.calls + [id] + [id] == s.calls + [id, id];
  }

  lemma {:induction false} FoundLast(ledger: seq<Dispatch>, d: Dispatch)
    requires !Known(ledger, d.id)
    ensures DispatchWithId(ledger + [d], d.id) == |ledger|
  {
    assert forall k :: 0 <= k < |ledger| ==> (ledger + [d])[k] == ledger[k];
    assert (ledger + [d])[|ledger|] == d;
  }
}
