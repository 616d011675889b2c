/**
 Stopping, deletion, intake, adoption, failure and recovery keep the invariant as well.
 */
module ConversationControl {
  import opened Conversation
  import opened ConversationInvariant
  import opened ConversationSteps

  /** What the invariant says of the run a transaction has just loaded. */
  lemma Loaded(db: Db, k: nat)
    requires Inv(db) && k < |db.runs|
    ensures var t := Load(db, k);
            && TxOk(t) && View(t) == db && InvBut(View(t), k) && LogOk(t.db.events, t.last)
            && RunOk(t.body) && Shown(t.body)
            && (Settled(t.body) ==> AllFinal(db.messages, k))
            && (!Settled(t.body) ==> CoverOk(db.messages, k, t.body))
            && (forall i :: 0 <= i < |db.stops| && db.stops[i].run == k && !db.deleted ==>
                  ReceiptOk(db.stops[i].status, t.body))
  {}

  lemma SavedFrom(db: Db, k: nat, u: Tx)
    requires Inv(db) && k < |db.runs| && Moves(Load(db, k), u, false) && GoodBody(Load(db, k), u, false)
    ensures Inv(Save(u)) && Evolves(db, Save(u)) && Save(u) == View(u) && u.run == k
  {
    Loaded(db, k);
    Saved(Load(db, k), u, false);
  }

  // ----- stopping -----

  /** A new receipt for a run that has ended says so. */
  lemma StopEndedStep(db: Db, request: RequestId, run: nat, status: StopStatus)
    requires Inv(db) && run < |db.runs| && !db.deleted && ReceiptOk(status, db.runs[run])
    ensures var b := db.(stops := db.stops + [Stop(request, run, status)]); Inv(b) && Evolves(db, b)
  {
    var b := db.(stops := db.stops + [Stop(request, run, status)]);
    assert forall i :: 0 <= i < |db.stops| ==> b.stops[i] == db.stops[i];
  }

  /** A receipt added to an open run; the body catches up before it is saved. */
  lemma StopOpenStep(db: Db, request: RequestId, run: nat)
    requires Inv(db) && run < |db.runs| && !db.deleted && !Settled(db.runs[run])
    ensures var t := Load(db.(stops := db.stops + [Stop(request, run, StopCancelling)]), run);
            var t1 := t.(body := t.body.(stop := true, status := Cancelling, pending := false, questions := []));
            var b := Save(Append(MarkUnused(t1), RunStopping));
            Inv(b) && Evolves(db, b) && b.runs[run].stop
  {
    hide InvBut, Evolves, LogOk;
    Loaded(db, run);
    var t0 := Load(db, run);
    NoReceipts(t0);
    var s := t0.(body := t0.body.(stop := true, status := Cancelling, pending := false, questions := []));
    MovesBody(t0, s.body);
    MarkUnusedMoves(s);
    var s1 := MarkUnused(s);
    MovesTrans(t0, s, s1, false, false);
    AppendMoves(s1, RunStopping);
    var s2 := Append(s1, RunStopping);
    MovesTrans(t0, s1, s2, false, false);
    SavedFrom(db, run, s2);
    WithStops(s, Stop(request, run, StopCancelling));
    WithStopsSave(db, Save(s2), run, Stop(request, run, StopCancelling));
  }

  /** Nothing on the way to the save looks at the receipts. */
  lemma WithStopsGiveUp(t: Tx, stop: Stop, k: nat)
    requires k < |t.db.messages|
    ensures var w := t.(db := t.db.(stops := t.db.stops + [stop])); var u := GiveUp(t, k);
            GiveUp(w, k) == u.(db := u.db.(stops := u.db.stops + [stop])) && u.db.stops == t.db.stops
  {}

  lemma {:induction false} WithStopsFrom(t: Tx, stop: Stop, k: nat)
    requires k <= |t.db.messages|
    ensures var w := t.(db := t.db.(stops := t.db.stops + [stop])); var u := MarkUnusedFrom(t, k);
            MarkUnusedFrom(w, k) == u.(db := u.db.(stops := u.db.stops + [stop]))
    decreases |t.db.messages| - k
  {
    if k < |t.db.messages| {
      WithStopsGiveUp(t, stop, k);
      hide GiveUp;
      WithStopsFrom(GiveUp(t, k), stop, k + 1);
    }
  }

  lemma WithStops(t: Tx, stop: Stop)
    ensures var w := t.(db := t.db.(stops := t.db.stops + [stop])); var u := Append(MarkUnused(t), RunStopping);
            Save(Append(MarkUnused(w), RunStopping)) == Save(u).(stops := Save(u).stops + [stop])
  {
    WithStopsFrom(t, stop, 0);
  }

  lemma WithStopsSave(db: Db, b: Db, run: nat, stop: Stop)
    requires Inv(b) && Evolves(db, b) && run < |b.runs| && stop.run == run && !b.deleted
    requires ReceiptOk(stop.status, b.runs[run])
    ensures var c := b.(stops := b.stops + [stop]); Inv(c) && Evolves(db, c)
  {
    StopEndedStep(b, stop.request, run, stop.status);
    EvolvesTransitive(db, b, b.(stops := b.stops + [stop]));
  }

  lemma RequestStopStep(db: Db, request: RequestId, run: nat)
    requires Inv(db)
    ensures var r := RequestStop(db, request, run); r.Ok? ==> Inv(r.value) && Evolves(db, r.value)
  {
    hide InvBut, Evolves;
    EvolvesReflexive(db);
    var r := RequestStop(db, request, run);
    if r.Ok? && !StopKnown(db.stops, request) {
      var b := db.runs[run];
      if Closed(b.status) || b.report {
        Loaded(db, run);
        StopEndedStep(db, request, run, if b.status == Cancelled then StopCancelled else StopAlreadyFinished);
      } else if b.stop {
        StopAgainStep(db, request, run);
      } else {
        StopOpenStep(db, request, run);
      }
    }
  }

  /** A second stop of a run that is already stopping. */
  lemma StopAgainStep(db: Db, request: RequestId, run: nat)
    requires Inv(db) && run < |db.runs| && !db.deleted && db.runs[run].stop
    ensures var t := Load(db.(stops := db.stops + [Stop(request, run, StopCancelling)]), run);
            var t1 := t.(body := t.body.(stop := true, status := Cancelling, pending := false, questions := []));
            var b := Save(Append(MarkUnused(t1), RunStopping));
            Inv(b) && Evolves(db, b)
  {
    hide InvBut, Evolves;
    Loaded(db, run);
    StopEndedStep(db, request, run, StopCancelling);
    var a := db.(stops := db.stops + [Stop(request, run, StopCancelling)]);
    Loaded(a, run);
    var t := Load(a, run);
    var t1 := t.(body := t.body.(stop := true, status := Cancelling, pending := false, questions := []));
    MovesBody(t, t1.body);
    MarkUnusedMoves(t1);
    MovesTrans(t, t1, MarkUnused(t1), false, false);
    AppendMoves(MarkUnused(t1), RunStopping);
    var u := Append(MarkUnused(t1), RunStopping);
    MovesTrans(t, MarkUnused(t1), u, false, false);
    SavedFrom(a, run, u);
    EvolvesTransitive(db, a, Save(u));
  }

  lemma IdleStopStep(db: Db, run: nat, idle: bool)
    requires Inv(db)
    ensures var r := RequestIdleStop(db, run, idle); r.Ok? ==> Inv(r.value) && Evolves(db, r.value)
  {
    hide InvBut, Evolves;
    EvolvesReflexive(db);
    if IdleStoppable(db, run) && idle {
      Loaded(db, run);
      var t := Load(db, run);
      NoReceipts(t);
      var t1 := t.(body := t.body.(stop := true, status := Cancelling, pending := false, questions := []));
      MovesBody(t, t1.body);
      AppendMoves(t1, RunStopping);
      var u := Append(t1, RunStopping);
      MovesTrans(t, t1, u, false, false);
      assert AllFinal(db.messages, run);
      SavedFrom(db, run, u);
    }
  }

  /** The run a stop is being settled for has been asked to stop, or has ended since. */
  predicate Stoppable(db: Db, run: nat) {
    run < |db.runs| ==> StopAnswered(db.runs[run]) || db.deleted
  }

  /** The transaction a settled stop saves, with its receipts already settled. */
  ghost function Settling(t: Tx): Tx {
    var status := if t.body.report then StopAlreadyFinished else StopCancelled;
    var t1 := if t.body.report then t else Close(t, Cancelled);
    t1.(body := t1.body.(stop := false), db := t1.db.(stops := SettleStops(t1.db.stops, t.run, status)))
  }

  lemma SettlingMoves(t: Tx)
    requires TxOk(t) && LogOk(t.db.events, t.last)
    ensures Moves(t, Settling(t), false)
    ensures !t.body.report ==> AllFinal(Settling(t).db.messages, t.run)
    ensures t.body.report ==> Settling(t).db.messages == t.db.messages
  {
    var t1 := if t.body.report then t else Close(t, Cancelled);
    if t.body.report { MovesBody(t, t.body); } else { CloseMoves(t, Cancelled); }
    MovesSettle(t1, Settling(t), if t.body.report then StopAlreadyFinished else StopCancelled);
    MovesTrans(t, t1, Settling(t), false, false);
  }

  lemma SettlingGood(t: Tx, u: Tx)
    requires RunOk(t.body) && u == Settling(t)
    requires t.body.report || t.body.stop || t.body.status == Cancelled || t.db.deleted
    requires t.body.report ==> AllFinal(t.db.messages, t.run) && u.db.messages == t.db.messages
    requires !t.body.report ==> AllFinal(u.db.messages, t.run)
    ensures GoodBody(t, u, false) && !u.body.stop
    ensures u.body.status == if t.body.report then t.body.status else Cancelled
  {}

  lemma FinishStopStep(db: Db, run: nat)
    requires Inv(db) && Stoppable(db, run)
    ensures var r := FinishStop(db, run);
            r.Ok? ==>
              && Inv(r.value) && Evolves(db, r.value) && !r.value.runs[run].stop
              && (db.runs[run].report ==> r.value.runs[run].status == db.runs[run].status)
              && (!db.runs[run].report ==> r.value.runs[run].status == Cancelled)
  {
    hide InvBut, Evolves, Moves, LogOk, GoodBody, RunOk;
    if run < |db.runs| {
      Loaded(db, run);
      var t := Load(db, run);
      SettlingMoves(t);
      SettlingGood(t, Settling(t));
      SavedFrom(db, run, Settling(t));
    }
  }

  lemma {:induction false} MovesSettle(t: Tx, u: Tx, status: StopStatus)
    requires TxOk(t) && LogOk(t.db.events, t.last)
    requires u == t.(body := u.body, db := t.db.(stops := SettleStops(t.db.stops, t.run, status)))
    ensures Moves(t, u, false)
  {}

  // ----- deletion -----

  lemma DeleteRunStep(db: Db, k: nat)
    requires Inv(db) && db.deleted && k < |db.runs|
    ensures Inv(DeleteRun(db, k)) && Evolves(db, DeleteRun(db, k))
  {
    hide InvBut, Evolves;
    EvolvesReflexive(db);
    Loaded(db, k);
    var t := Load(db, k);
    var t1 := t.(body := t.body.(stop := true, status := Cancelling, pending := false, questions := []));
    MovesBody(t, t1.body);
    MarkUnusedMoves(t1);
    MovesTrans(t, t1, MarkUnused(t1), false, false);
    if !t.body.report { SavedFrom(db, k, MarkUnused(t1)); }
  }

  lemma {:induction false} DeleteFromStep(db: Db, k: nat)
    requires Inv(db) && db.deleted
    ensures Inv(DeleteFrom(db, k)) && Evolves(db, DeleteFrom(db, k))
    decreases |db.runs| - k
  {
    hide InvBut, Evolves;
    EvolvesReflexive(db);
    if k < |db.runs| {
      DeleteRunStep(db, k);
      DeleteFromStep(DeleteRun(db, k), k + 1);
      EvolvesTransitive(db, DeleteRun(db, k), DeleteFrom(db, k));
    }
  }

  lemma DeleteStep(db: Db)
    requires Inv(db)
    ensures Inv(Delete(db)) && Evolves(db, Delete(db)) && Delete(db).deleted
  {
    EvolvesReflexive(db);
    if !db.deleted {
      var a := db.(deleted := true);
      assert Inv(a) && Evolves(db, a);
      DeleteFromStep(a, 0);
      EvolvesTransitive(db, a, DeleteFrom(a, 0));
    }
  }

  // ----- intake -----

  lemma IntakeSettledMoves(t: Tx, covered: set<MessageId>, questions: Option<seq<Question>>)
    requires TxOk(t) && LogOk(t.db.events, t.last)
    ensures var u := IntakeSettled(t, covered, questions);
            Moves(t, u, false) && u.db.messages == t.db.messages && u.db.stops == t.db.stops
  {
    var u := IntakeSettled(t, covered, questions);
    var t1 := t.(body := t.body.(covered := covered, pending := false, status := WaitingInput));
    var qs := if questions.Some? then questions.value else t.body.authoritative;
    MovesBody(t, t1.body);
    PublishMoves(t1, qs);
    MovesTrans(t, t1, Publish(t1, qs), false, false);
    MovesBody(t, u.body);
    hide Moves, Publish;
  }

  lemma IntakeSettledGood(t: Tx, covered: set<MessageId>, questions: Option<seq<Question>>)
    requires RunOk(t.body) && Shown(t.body) && !Settled(t.body) && t.body.covered <= covered
    requires CoverOk(t.db.messages, t.run, t.body)
    ensures var u := IntakeSettled(t, covered, questions);
            RunOk(u.body) && Shown(u.body) && !Settled(u.body) && CoverOk(t.db.messages, t.run, u.body)
  {}

  lemma FinishIntakeStep(db: Db, run: nat, ids: set<MessageId>, questions: Option<seq<Question>>)
    requires Inv(db)
    ensures var r := FinishIntake(db, run, ids, questions); r.Ok? ==> Inv(r.value) && Evolves(db, r.value)
  {
    hide InvBut, Evolves, Moves, GoodBody, IntakeSettled;
    EvolvesReflexive(db);
    if FinishIntake(db, run, ids, questions).Ok? && !Settled(db.runs[run]) {
      Loaded(db, run);
      var t := Load(db, run);
      var u := IntakeSettled(t, t.body.covered + ids, questions);
      IntakeSettledMoves(t, t.body.covered + ids, questions);
      IntakeSettledGood(t, t.body.covered + ids, questions);
      OpenBodyGood(t, u);
      SavedFrom(db, run, u);
    }
  }

  /** A run whose Case works, and whose input is all read, must not be shown as waiting. */
  predicate MayShow(b: Run, status: RunStatus) {
    status != WaitingInput || b.pending || b.caseStatus.None? || Waiting(b.caseStatus.value)
  }

  /** The body an update of the intake saves. */
  function Drafted(t: Tx, draft: nat, questions: seq<Question>, status: RunStatus): (u: Tx)
    ensures u.body == t.body.(questions := if t.body.pending then [] else questions,
                              status := if t.body.pending && status == WaitingInput then Intake else status)
    ensures SameRows(t, u)
  {
    var t1 := t.(body := t.body.(questions := if t.body.pending then [] else questions,
                                 status := if t.body.pending && status == WaitingInput then Intake else status));
    if questions != [] && !t.body.pending then Append(t1, DraftQuestions(draft, questions)) else t1
  }

  lemma DraftedMoves(t: Tx, draft: nat, questions: seq<Question>, status: RunStatus)
    requires TxOk(t) && LogOk(t.db.events, t.last)
    ensures var u := Drafted(t, draft, questions, status);
            Moves(t, u, false) && u.db.messages == t.db.messages && u.db.stops == t.db.stops
  {
    var t1 := t.(body := Drafted(t, draft, questions, status).body);
    MovesBody(t, t1.body);
    AppendMoves(t1, DraftQuestions(draft, questions));
    MovesTrans(t, t1, Append(t1, DraftQuestions(draft, questions)), false, false);
  }

  lemma DraftedGood(db: Db, run: nat, draft: nat, questions: seq<Question>, status: RunStatus)
    requires Inv(db) && run < |db.runs| && !Settled(db.runs[run]) && MayShow(db.runs[run], status)
    requires status == Intake || status == WaitingInput || status == Running
    ensures var b := Save(Drafted(Load(db, run), draft, questions, status)); Inv(b) && Evolves(db, b)
  {
    hide InvBut, Evolves, Moves, GoodBody, Drafted;
    Loaded(db, run);
    var t := Load(db, run);
    DraftedMoves(t, draft, questions, status);
    OpenBodyGood(t, Drafted(t, draft, questions, status));
    SavedFrom(db, run, Drafted(t, draft, questions, status));
  }

  lemma DraftedBad(db: Db, run: nat, draft: nat, questions: seq<Question>, status: RunStatus)
    requires run < |db.runs| && !MayShow(db.runs[run], status)
    ensures !Inv(Save(Drafted(Load(db, run), draft, questions, status)))
  {
    var u := Drafted(Load(db, run), draft, questions, status);
    assert Save(u).runs[run] == u.body && !RunOk(u.body);
    hide Drafted, RowsOk, LogOk, MessagesOk, RestartsOk, ReportsOk, StopsOk;
  }

  /**
   Any update of the intake, with any questions and status: it keeps the invariant exactly when it does not show a
   run as waiting whose Case works and whose input is all read.
   */
  lemma UpdateIntakeIff(db: Db, run: nat, draft: nat, questions: seq<Question>, status: RunStatus)
    requires Inv(db)
    ensures var r := UpdateIntake(db, run, draft, questions, status);
            r.Ok? ==>
              && run < |db.runs| && (Inv(r.value) <==> MayShow(db.runs[run], status))
              && (MayShow(db.runs[run], status) ==> Evolves(db, r.value))
  {
    hide InvBut, Evolves, Save, Append, MayShow;
    var r := UpdateIntake(db, run, draft, questions, status);
    if r.Ok? {
      assert r.value == Save(Drafted(Load(db, run), draft, questions, status));
      if MayShow(db.runs[run], status) { DraftedGood(db, run, draft, questions, status); }
      else { DraftedBad(db, run, draft, questions, status); }
    }
  }

  /** Where it does, the next message leaves the run waiting with unread input. */
  lemma WaitingWithUnreadInput(db: Db, draft: nat, questions: seq<Question>, q: Request)
    requires Inv(db) && Open(Load(db, db.current)) && !MayShow(db.runs[db.current], WaitingInput)
    requires !HasRequest(db.messages, q.id) && RestartOf(db.restarts, q.id) == |db.restarts|
    requires q.digest.target.None? && q.digest.payload.attachments == {}
    requires RunMessages(db.messages, db.current) < MESSAGE_LIMIT
    ensures var a := UpdateIntake(db, db.current, draft, questions, WaitingInput);
            a.Ok? && a.value.current == db.current < |a.value.runs|
            && var b := Submit(a.value, q, None);
               && b.Ok? && HasRequest(b.value.messages, q.id) && db.current < |b.value.runs|
               && b.value.runs[db.current].pending && b.value.runs[db.current].status == WaitingInput
  {
    var t := Drafted(Load(db, db.current), draft, questions, WaitingInput);
    var a := Save(t);
    DraftedRows(db, draft, questions);
    hide InvBut, Drafted, Save, RunMessages, RestartOf;
    assert MessageOf(a.messages, q.id) == |a.messages|;
    SubmitShows(a, q);
  }

  lemma DraftedRows(db: Db, draft: nat, questions: seq<Question>)
    requires Inv(db) && Open(Load(db, db.current)) && !MayShow(db.runs[db.current], WaitingInput)
    ensures var t := Drafted(Load(db, db.current), draft, questions, WaitingInput); var a := Save(t);
            && UpdateIntake(db, db.current, draft, questions, WaitingInput) == Ok(a)
            && a.current == db.current < |a.runs| && a.runs[a.current] == t.body && !a.deleted
            && a.messages == db.messages && a.restarts == db.restarts && a.ready == db.ready
  {
    hide InvBut, Append;
    RowsOf(db);
  }

  lemma RowsOf(db: Db)
    requires Inv(db)
    ensures RowsOk(db)
  {}

  lemma SubmitShows(a: Db, q: Request)
    requires a.current < |a.runs| && Open(Load(a, a.current)) && a.runs[a.current].status == WaitingInput
    requires a.runs[a.current].caseStatus.Some? && !Waiting(a.runs[a.current].caseStatus.value)
    requires MessageOf(a.messages, q.id) == |a.messages| && RestartOf(a.restarts, q.id) == |a.restarts|
    requires q.digest.target.None? && q.digest.payload.attachments == {}
    requires RunMessages(a.messages, a.current) < MESSAGE_LIMIT
    ensures var b := Submit(a, q, None);
            && b.Ok? && HasRequest(b.value.messages, q.id) && a.current < |b.value.runs|
            && b.value.runs[a.current].pending && b.value.runs[a.current].status == WaitingInput
  {
    hide RunMessages, RestartOf, HasEvent, MessageOf;
    var u := AcceptMessage(Load(a, a.current), q);
    assert u.db.messages[|a.messages|].request == q.id;
  }

  lemma FinalizeGood(db: Db, run: nat, k: nat, status: MessageStatus)
    requires Inv(db) && run < |db.runs| && k < |db.messages|
    requires db.messages[k].run == run && !Final(db.messages[k].status)
    ensures var b := Save(Finalize(Load(db, run), k, status)); Inv(b) && Evolves(db, b)
  {
    hide InvBut, Evolves;
    Loaded(db, run);
    var t := Load(db, run);
    FinalizeMoves(t, k, status);
    if !db.deleted { NoReceipts(t); }
    SavedFrom(db, run, Finalize(t, k, status));
  }

  lemma SetMessageStatusStep(db: Db, run: nat, id: MessageId, status: MessageStatus)
    requires Inv(db)
    ensures var r := SetMessageStatus(db, run, id, status); r.Ok? ==> Inv(r.value) && Evolves(db, r.value)
  {
    hide InvBut, Evolves;
    EvolvesReflexive(db);
    var r := SetMessageStatus(db, run, id, status);
    var k := MessageAt(db.messages, run, id);
    if r.Ok? && db.messages[k].status != status { FinalizeGood(db, run, k, status); }
  }

  // ----- ledger and adoptions -----

  lemma LedgerStep(db: Db, dispatches: seq<Dispatch>, adoptions: map<MessageId, DispatchId>)
    requires Inv(db)
    ensures var b := db.(dispatches := dispatches, adoptions := adoptions); Inv(b) && Evolves(db, b)
  {}

  lemma RecordDispatchStep(db: Db, run: nat, id: DispatchId, op: Operation, key: CommandKey,
                           batch: Option<seq<MessageId>>)
    requires Inv(db)
    ensures var r := RecordDispatch(db, run, id, op, key, batch); r.Ok? ==> Inv(r.value) && Evolves(db, r.value)
  {
    hide InvBut, Evolves;
    var r := RecordDispatch(db, run, id, op, key, batch);
    if r.Ok? { LedgerStep(db, r.value.dispatches, db.adoptions); }
  }

  lemma CompleteDispatchStep(db: Db, id: DispatchId, status: DispatchStatus)
    requires Inv(db)
    ensures Inv(CompleteDispatch(db, id, status)) && Evolves(db, CompleteDispatch(db, id, status))
  {
    hide InvBut, Evolves;
    LedgerStep(db, CompleteDispatch(db, id, status).dispatches, db.adoptions);
  }

  lemma BeginAdoptionStep(db: Db, run: nat, id: MessageId, dispatch: DispatchId)
    requires Inv(db)
    ensures var r := BeginAdoption(db, run, id, dispatch); r.Ok? ==> Inv(r.value) && Evolves(db, r.value)
  {
    hide InvBut, Evolves;
    var r := BeginAdoption(db, run, id, dispatch);
    if r.Ok? { LedgerStep(db, db.dispatches, r.value.adoptions); }
  }

  lemma FinishAdoptionStep(db: Db, run: nat, id: MessageId, accepted: bool)
    requires Inv(db)
    ensures var r := FinishAdoption(db, run, id, accepted); r.Ok? ==> Inv(r.value) && Evolves(db, r.value)
  {
    hide InvBut, Evolves;
    var r := FinishAdoption(db, run, id, accepted);
    var k := MessageAt(db.messages, run, id);
    if r.Ok? {
      if Final(db.messages[k].status) {
        LedgerStep(db, db.dispatches, r.value.adoptions);
      } else {
        var status := if accepted then Applied else Unused;
        FinalizeGood(db, run, k, status);
        var b := Save(Finalize(Load(db, run), k, status));
        LedgerStep(b, b.dispatches, r.value.adoptions);
        EvolvesTransitive(db, b, r.value);
      }
    }
  }

  /** Rewriting the run row and its mirror with a body that differs in unwatched fields. */
  lemma StampStep(db: Db, k: nat, body: Run)
    requires Inv(db) && k < |db.runs|
    requires body == db.runs[k].(createKey := body.createKey, epoch := body.epoch)
    ensures var b := db.(runs := db.runs[k := body], head := if db.current == k then body else db.head);
            Inv(b) && Evolves(db, b)
  {
    hide InvBut, Evolves;
    Loaded(db, k);
    var t := Load(db, k);
    var u := t.(body := body);
    MovesBody(t, body);
    SavedFrom(db, k, u);
  }

  lemma ExpectCaseStep(db: Db, run: nat, key: CommandKey)
    requires Inv(db)
    ensures var r := ExpectCase(db, run, key); r.Ok? ==> Inv(r.value) && Evolves(db, r.value)
  {
    hide InvBut, Evolves;
    if ExpectCase(db, run, key).Ok? { StampStep(db, run, db.runs[run].(createKey := Some(key))); }
  }

  // ----- events, failure, recovery -----

  lemma ReadyStep(db: Db, b: Db, ready: set<nat>)
    requires Inv(b) && Evolves(db, b)
    ensures Inv(b.(ready := ready)) && Evolves(db, b.(ready := ready))
  {}

  lemma AppendEventStep(db: Db, run: nat, key: EventKey, readied: set<nat>)
    requires Inv(db)
    ensures var r := AppendEvent(db, run, key, readied); r.Ok? ==> Inv(r.value) && Evolves(db, r.value)
  {
    hide InvBut, Evolves;
    var r := AppendEvent(db, run, key, readied);
    if r.Ok? {
      Loaded(db, run);
      var t := Load(db, run);
      AppendMoves(t, key);
      SavedFrom(db, run, Append(t, key));
      ReadyStep(db, Save(Append(t, key)), r.value.ready);
    }
  }

  lemma CloseStep(db: Db, run: nat, status: RunStatus)
    requires Inv(db) && run < |db.runs| && !Closed(db.runs[run].status) && !db.runs[run].stop
    requires status == Failed || status == Interrupted
    requires db.runs[run].report ==> status == Interrupted
    ensures var b := Save(Close(Load(db, run), status)); Inv(b) && Evolves(db, b)
  {
    hide InvBut, Evolves, Moves;
    Loaded(db, run);
    var t := Load(db, run);
    CloseMoves(t, status);
    if !t.body.report { EndedBodyGood(t, Close(t, status)); }
    SavedFrom(db, run, Close(t, status));
  }

  lemma FailRunStep(db: Db, run: nat, interrupted: bool)
    requires Inv(db)
    ensures var r := FailRun(db, run, interrupted); r.Ok? ==> Inv(r.value) && Evolves(db, r.value)
  {
    hide InvBut, Evolves;
    EvolvesReflexive(db);
    var r := FailRun(db, run, interrupted);
    if r.Ok? && !Settled(db.runs[run]) { CloseStep(db, run, if interrupted then Interrupted else Failed); }
  }

  lemma StampEpochStep(db: Db, k: nat)
    requires Inv(db) && k < |db.runs|
    ensures Inv(StampEpoch(db, k)) && Evolves(db, StampEpoch(db, k))
  {
    hide InvBut, Evolves;
    var body := db.runs[k].(epoch := db.epoch);
    StampStep(db, k, body);
    var a := db.(runs := db.runs[k := body], head := if db.current == k then body else db.head);
    LedgerStep(a, StampEpoch(db, k).dispatches, a.adoptions);
    EvolvesTransitive(db, a, StampEpoch(db, k));
  }

  /** Recovery trusts a finished Case as a commit does. */
  ghost predicate TrustedAll(finished: map<CaseId, CaseView>, db: Db) {
    forall k :: 0 <= k < |db.runs| && db.runs[k].caseId.Some? && db.runs[k].caseId.value in finished ==>
      Trusted(finished[db.runs[k].caseId.value], db.runs[k])
  }

  lemma RecoverProject(db: Db, k: nat, cv: CaseView, records: set<Record>)
    requires Inv(db) && k < |db.runs| && !Closed(db.runs[k].status) && Trusted(cv, db.runs[k])
    requires AcceptAdoptions(Load(db, k), records, cv.id).Ok?
    ensures var b := ProjectCase(AcceptAdoptions(Load(db, k), records, cv.id).value, cv);
            Inv(b) && Evolves(db, b) && |b.runs| == |db.runs|
            && forall i :: 0 <= i < |db.runs| && i != k ==> b.runs[i] == db.runs[i]
  {
    hide InvBut, Evolves, AcceptAdoptions;
    Loaded(db, k);
    AcceptAdoptionsOk(Load(db, k), records, cv.id);
    var t := AcceptAdoptions(Load(db, k), records, cv.id).value;
    ProjectCaseOk(t, cv);
    EvolvesTransitive(db, View(t), ProjectCase(t, cv));
  }

  lemma RecoverRunStep(db: Db, k: nat, finished: map<CaseId, CaseView>, records: set<Record>)
    requires Inv(db) && k < |db.runs|
    requires var c := db.runs[k].caseId; c.Some? && c.value in finished ==> Trusted(finished[c.value], db.runs[k])
    requires forall c :: c in finished ==> finished[c].id == c
    ensures var r := RecoverRun(db, k, finished, records);
            r.Ok? ==>
              && Inv(r.value) && Evolves(db, r.value)
              && forall i :: 0 <= i < |db.runs| && i != k ==> r.value.runs[i] == db.runs[i]
  {
    hide InvBut, Evolves, AcceptAdoptions, ProjectCase;
    EvolvesReflexive(db);
    var b := db.runs[k];
    var r := RecoverRun(db, k, finished, records);
    if r.Ok? && !Closed(b.status) && b.epoch != db.epoch {
      if b.caseId.Some? && b.caseId.value in finished {
        var cv := finished[b.caseId.value];
        RecoverProject(db, k, cv, records);
        var db1 := ProjectCase(AcceptAdoptions(Load(db, k), records, cv.id).value, cv);
        StampEpochStep(db1, k);
        EvolvesTransitive(db, db1, r.value);
      } else if !b.stop && RunMessages(db.messages, k) > 0 {
        CloseStep(db, k, Interrupted);
        var db1 := Save(Close(Load(db, k), Interrupted));
        StampEpochStep(db1, k);
        EvolvesTransitive(db, db1, r.value);
      } else {
        StampEpochStep(db, k);
      }
    }
  }

  lemma {:induction false} RecoverFromStep(db: Db, k: nat, finished: map<CaseId, CaseView>, records: set<Record>)
    requires Inv(db) && forall c :: c in finished ==> finished[c].id == c
    requires forall i :: k <= i < |db.runs| && db.runs[i].caseId.Some? && db.runs[i].caseId.value in finished ==>
      Trusted(finished[db.runs[i].caseId.value], db.runs[i])
    ensures var r := RecoverFrom(db, k, finished, records); r.Ok? ==> Inv(r.value) && Evolves(db, r.value)
    decreases |db.runs| - k
  {
    hide InvBut, Evolves;
    EvolvesReflexive(db);
    if k < |db.runs| && RecoverRun(db, k, finished, records).Ok? {
      RecoverRunStep(db, k, finished, records);
      var db1 := RecoverRun(db, k, finished, records).value;
      RecoverFromStep(db1, k + 1, finished, records);
      var r := RecoverFrom(db, k, finished, records);
      if r.Ok? { EvolvesTransitive(db, db1, r.value); }
    }
  }

  lemma EpochStep(db: Db, epoch: Epoch)
    requires Inv(db)
    ensures Inv(db.(epoch := epoch)) && Evolves(db, db.(epoch := epoch))
  {}

  lemma RecoverStep(db: Db, epoch: Epoch, finished: map<CaseId, CaseView>, records: set<Record>)
    requires Inv(db) && TrustedAll(finished, db) && forall c :: c in finished ==> finished[c].id == c
    ensures var r := Recover(db, epoch, finished, records); r.Ok? ==> Inv(r.value) && Evolves(db, r.value)
  {
    hide InvBut, Evolves;
    var a := db.(epoch := epoch);
    EpochStep(db, epoch);
    RecoverFromStep(a, 0, finished, records);
    var r := RecoverFrom(a, 0, finished, records);
    if r.Ok? { EvolvesTransitive(db, a, r.value); }
  }
}
