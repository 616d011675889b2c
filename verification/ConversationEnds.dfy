/**
 How runs end: which events the log has of the end of a run, what a projection makes of every status a Case can have,
 and by which steps a run is closed at all.
 */
module ConversationEnds {
  import opened Conversation
  import opened ConversationInvariant
  import opened ConversationSteps
  import opened ConversationControl
  import opened ConversationRuns
  import opened ConversationSafety
  import opened ConversationTheorems
  import opened ConversationMeaning
  import opened ConversationUse

  // ----- the events of an end -----

  predicate IsEnd(key: EventKey) { key == RunCompleted || key == RunFailed || key == RunInterrupted }

  /** The events a run that ended in `status` has in the log. */
  predicate EndOf(key: EventKey, status: RunStatus) {
    key == RunCompleted || (key == RunFailed && status == Failed) || (key == RunInterrupted && status == Interrupted)
  }

  ghost predicate SameEnds(a: seq<Event>, b: seq<Event>) {
    forall k: nat, e :: IsEnd(e) ==> (HasEvent(b, k, e) <==> HasEvent(a, k, e))
  }

  lemma SameEndsTrans(a: seq<Event>, b: seq<Event>, c: seq<Event>)
    requires SameEnds(a, b) && SameEnds(b, c)
    ensures SameEnds(a, c)
  {
    hide HasEvent;
  }

  lemma AppendHas(t: Tx, key: EventKey, k: nat, e: EventKey)
    ensures HasEvent(Append(t, key).db.events, k, e) <==> HasEvent(t.db.events, k, e) || (k == t.run && e == key)
  {
    var u := Append(t, key);
    if !HasEvent(t.db.events, t.run, key) {
      assert u.db.events[|t.db.events|].run == t.run && u.db.events[|t.db.events|].key == key;
      if HasEvent(t.db.events, k, e) {
        var i :| 0 <= i < |t.db.events| && t.db.events[i].run == k && t.db.events[i].key == e;
        assert u.db.events[i] == t.db.events[i];
      }
    }
  }

  lemma AppendEnds(t: Tx, key: EventKey)
    requires !IsEnd(key)
    ensures SameEnds(t.db.events, Append(t, key).db.events)
  {
    hide HasEvent, Append;
    forall k: nat, e | IsEnd(e) ensures HasEvent(Append(t, key).db.events, k, e) <==> HasEvent(t.db.events, k, e) {
      AppendHas(t, key, k, e);
    }
  }

  lemma FinalizeEnds(t: Tx, k: nat, status: MessageStatus)
    requires k < |t.db.messages|
    ensures SameEnds(t.db.events, Finalize(t, k, status).db.events)
  {
    hide HasEvent, Append, SameEnds;
    var m := t.db.messages[k];
    AppendEnds(t.(db := t.db.(messages := t.db.messages[k := m.(status := status)])), MessageUpdated(m.id, status));
  }

  lemma NoChange(a: seq<Event>)
    ensures SameEnds(a, a)
  {}

  lemma {:induction false} MarkUnusedFromEnds(t: Tx, k: nat)
    requires k <= |t.db.messages|
    ensures SameEnds(t.db.events, MarkUnusedFrom(t, k).db.events)
    decreases |t.db.messages| - k
  {
    hide HasEvent, Append, SameEnds, Finalize;
    NoChange(t.db.events);
    if k < |t.db.messages| {
      FinalizeEnds(t, k, Unused);
      var t1 := GiveUp(t, k);
      MarkUnusedFromEnds(t1, k + 1);
      SameEndsTrans(t.db.events, t1.db.events, MarkUnusedFrom(t1, k + 1).db.events);
    }
  }

  lemma CloseEnds(t: Tx, status: RunStatus, k: nat, e: EventKey)
    requires IsEnd(e)
    ensures HasEvent(Close(t, status).db.events, k, e)
            <==> HasEvent(t.db.events, k, e) || (k == t.run && EndOf(e, status))
  {
    hide HasEvent, Append, MarkUnusedFrom;
    var t0 := t.(body := t.body.(status := status, pending := false, questions := []));
    MarkUnusedFromEnds(t0, 0);
    var t1 := MarkUnused(t0);
    var t2 := if status == Interrupted then Append(t1, RunInterrupted)
              else if status == Failed then Append(t1, RunFailed) else t1;
    AppendHas(t1, RunInterrupted, k, e);
    AppendHas(t1, RunFailed, k, e);
    AppendHas(t2, RunCompleted, k, e);
  }

  lemma PublishEnds(t: Tx, questions: seq<Question>)
    ensures SameEnds(t.db.events, Publish(t, questions).db.events)
  {
    hide HasEvent, Append, SameEnds;
    NoChange(t.db.events);
    var t1 := t.(body := t.body.(questions := questions));
    AppendEnds(t1, QuestionsAsked(t1.body.asOf, t1.body.covered, questions));
  }

  lemma InsertEnds(t: Tx, id: MessageId, request: RequestId, digest: Fingerprint)
    ensures SameEnds(t.db.events, InsertMessage(t, id, request, digest).db.events)
  {
    hide HasEvent, Append, SameEnds;
    AppendEnds(t, MessageAccepted(id));
  }

  lemma PublishReportEnds(t: Tx)
    ensures SameEnds(t.db.events, PublishReport(t).db.events)
  {
    hide HasEvent, Append, SameEnds, MarkUnusedFrom;
    var t1 := t.(body := t.body.(report := true, stop := false, pending := false, questions := []),
                 db := t.db.(stops := SettleStops(t.db.stops, t.run, StopAlreadyFinished)));
    var t2 := Append(t1, ResultAvailable);
    AppendEnds(t1, ResultAvailable);
    MarkUnusedFromEnds(t2, 0);
    SameEndsTrans(t.db.events, t2.db.events, MarkUnused(t2).db.events);
  }

  lemma {:induction false} ApplyBatchEnds(t: Tx, ids: seq<MessageId>)
    ensures var r := ApplyBatch(t, ids); r.Ok? ==> SameEnds(t.db.events, r.value.db.events)
    decreases ids
  {
    hide HasEvent, SameEnds, Finalize;
    NoChange(t.db.events);
    if ids != [] {
      var k := MessageAt(t.db.messages, t.run, ids[0]);
      if k < |t.db.messages| {
        FinalizeEnds(t, k, Applied);
        var t1 := if Final(t.db.messages[k].status) then t else Finalize(t, k, Applied);
        ApplyBatchEnds(t1, ids[1..]);
        var r := ApplyBatch(t1, ids[1..]);
        if r.Ok? { SameEndsTrans(t.db.events, t1.db.events, r.value.db.events); }
      }
    }
  }

  lemma {:induction false} ApplyBatchesEnds(t: Tx, records: set<Record>, c: CaseId, k: nat)
    requires k <= |t.db.dispatches|
    ensures var r := ApplyBatchesFrom(t, records, c, k); r.Ok? ==> SameEnds(t.db.events, r.value.db.events)
    decreases |t.db.dispatches| - k
  {
    hide HasEvent, SameEnds, ApplyBatch;
    NoChange(t.db.events);
    if k < |t.db.dispatches| {
      var d := t.db.dispatches[k];
      ApplyBatchesEnds(t, records, c, k + 1);
      if d.batch.Some? {
        ApplyBatchEnds(t, d.batch.value);
        var b := ApplyBatch(t, d.batch.value);
        if b.Ok? {
          ApplyBatchesEnds(b.value, records, c, k + 1);
          var r := ApplyBatchesFrom(b.value, records, c, k + 1);
          if r.Ok? { SameEndsTrans(t.db.events, b.value.db.events, r.value.db.events); }
        }
      }
    }
  }

  lemma {:induction false} AdoptFromEnds(t: Tx, records: set<Record>, c: CaseId, k: nat)
    requires k <= |t.db.messages|
    ensures SameEnds(t.db.events, AdoptFrom(t, records, c, k).db.events)
    decreases |t.db.messages| - k
  {
    hide HasEvent, SameEnds, Finalize, DispatchWithId;
    NoChange(t.db.events);
    if k < |t.db.messages| {
      FinalizeEnds(t, k, Applied);
      var t1 := AdoptOne(t, records, c, k);
      AdoptFromEnds(t1, records, c, k + 1);
      SameEndsTrans(t.db.events, t1.db.events, AdoptFrom(t1, records, c, k + 1).db.events);
    }
  }

  lemma AcceptAdoptionsEnds(t: Tx, records: set<Record>, c: CaseId)
    ensures var r := AcceptAdoptions(t, records, c); r.Ok? ==> SameEnds(t.db.events, r.value.db.events)
  {
    hide HasEvent, SameEnds, ApplyBatchesFrom, AdoptFrom;
    ApplyBatchesEnds(t, records, c, 0);
    var b := ApplyBatchesFrom(t, records, c, 0);
    if b.Ok? {
      AdoptFromEnds(b.value, records, c, 0);
      SameEndsTrans(t.db.events, b.value.db.events, AdoptFrom(b.value, records, c, 0).db.events);
    }
  }

  lemma {:induction false} AcceptRestartsEnds(t: Tx, records: set<Record>, c: CaseId, k: nat)
    requires k <= |t.db.restarts|
    ensures var r := AcceptRestartsFrom(t, records, c, k); r.Ok? ==> SameEnds(t.db.events, r.value.db.events)
    decreases |t.db.restarts| - k
  {
    hide HasEvent, SameEnds, InsertMessage;
    NoChange(t.db.events);
    if k < |t.db.restarts| {
      var rs := t.db.restarts[k];
      InsertEnds(t, rs.message, rs.request, rs.digest);
      InsertKeeps(t, rs.message, rs.request, rs.digest);
      if Accepts(rs, t.run, records, c) {
        var t1 := AcceptRestart(t, k);
        AcceptRestartsEnds(t1, records, c, k + 1);
        var r := AcceptRestartsFrom(t1, records, c, k + 1);
        if r.Ok? { SameEndsTrans(t.db.events, t1.db.events, r.value.db.events); }
      } else {
        AcceptRestartsEnds(t, records, c, k + 1);
      }
    }
  }

  lemma InsertKeeps(t: Tx, id: MessageId, request: RequestId, digest: Fingerprint)
    ensures InsertMessage(t, id, request, digest).db.restarts == t.db.restarts
  {}

  // ----- what a projection makes of a Case -----

  /** What an open run shows of its Case; `stop` says that it was asked to stop before. */
  predicate Mirrors(cv: CaseView, stop: bool, b: Run) {
    match cv.status
    case Resolved | PartiallyResolved | Unresolved =>
      b.status == (if cv.archive == ArchivePending then Running else Completed)
      && (cv.hasReport ==> b.report && !b.stop)
    case CaseFailed => b.status == (if stop then Cancelling else Failed)
    case CaseInterrupted => b.status == (if stop then Cancelling else Interrupted)
    case CaseCancelled => b.status == (if stop then Cancelling else Cancelled)
    case CaseWaitingInput | CaseWaitingAttachment =>
      b.status == (if stop then Cancelling else if b.pending then Intake else WaitingInput)
    case CaseNew | CaseRunning | CaseReviewing => b.status == (if stop then Cancelling else Running)
  }

  lemma WaitingMirrors(t: Tx, cv: CaseView)
    ensures var u := ProjectWaiting(t, cv); u.body.status == if u.body.pending then Intake else WaitingInput
  {
    hide HasEvent, Append;
  }

  lemma ResultMirrors(t: Tx, cv: CaseView)
    ensures var u := ProjectResult(t, cv);
            u.body.status == (if cv.archive == ArchivePending then Running else Completed)
            && (cv.hasReport ==> u.body.report && !u.body.stop)
  {
    hide HasEvent, Append, MarkUnusedFrom;
  }

  lemma ProjectedMirrors(t: Tx, cv: CaseView)
    requires !Closed(t.body.status)
    ensures Mirrors(cv, t.body.stop, Projected(t, cv).body)
    ensures Projected(t, cv).body.caseId == Some(cv.id) && Projected(t, cv).body.caseStatus == Some(cv.status)
  {
    hide HasEvent, Append, Projected, Close, ProjectWaiting, ProjectResult;
    ProjectedIsTold(t, cv);
    WaitingMirrors(Announce(t, cv), cv);
    ResultMirrors(Announce(t, cv), cv);
  }

  /** `u` continues `t` by the events of the end of its run, if its body says so now, and of no other end. */
  ghost predicate EndsWith(t: Tx, u: Tx) {
    forall k: nat, e :: IsEnd(e) ==>
      (HasEvent(u.db.events, k, e)
       <==> HasEvent(t.db.events, k, e) || (k == t.run && Closed(u.body.status) && EndOf(e, u.body.status)))
  }

  lemma ClosedEndsWith(t: Tx, status: RunStatus)
    requires Closed(status)
    ensures EndsWith(t, Close(t, status))
  {
    hide HasEvent, Close, EndOf;
    forall k: nat, e | IsEnd(e)
      ensures HasEvent(Close(t, status).db.events, k, e)
              <==> HasEvent(t.db.events, k, e) || (k == t.run && EndOf(e, status))
    {
      CloseEnds(t, status, k, e);
    }
  }

  lemma OpenEndsWith(t: Tx, u: Tx)
    requires SameEnds(t.db.events, u.db.events) && !Closed(u.body.status)
    ensures EndsWith(t, u)
  {
    hide HasEvent, EndOf;
  }

  lemma EndsWithTrans(t: Tx, u: Tx, v: Tx)
    requires SameEnds(t.db.events, u.db.events) && t.run == u.run && EndsWith(u, v)
    ensures EndsWith(t, v)
  {
    hide HasEvent, EndOf;
  }

  lemma WaitingEnds(t: Tx, cv: CaseView)
    ensures EndsWith(t, ProjectWaiting(t, cv))
  {
    hide HasEvent, EndsWith, SameEnds, Publish;
    NoChange(t.db.events);
    var w := t.(body := t.body.(authoritative := cv.questions, asOf := Some(cv.revision)));
    PublishEnds(w.(body := w.body.(status := WaitingInput)), cv.questions);
    OpenEndsWith(t, ProjectWaiting(t, cv));
  }

  lemma ResultEnds(t: Tx, cv: CaseView)
    ensures EndsWith(t, ProjectResult(t, cv))
  {
    hide HasEvent, EndsWith, SameEnds, PublishReport, Append, Close;
    NoChange(t.db.events);
    PublishReportEnds(t);
    var p := if cv.hasReport then PublishReport(t) else t;
    AppendEnds(p, ArchiveUpdated(cv.archive));
    var t1 := Append(p, ArchiveUpdated(cv.archive));
    SameEndsTrans(t.db.events, p.db.events, t1.db.events);
    ClosedEndsWith(t1, Completed);
    EndsWithTrans(t, t1, Close(t1, Completed));
    OpenEndsWith(t, t1.(body := t1.body.(status := Running)));
  }

  /** The projection, once the Case is announced. */
  ghost function Told(t: Tx, cv: CaseView): Tx {
    if t.body.stop && !IsResult(cv.status) then
      t.(body := t.body.(status := Cancelling, pending := false, questions := []))
    else if Waiting(cv.status) then ProjectWaiting(t, cv)
    else if IsResult(cv.status) then ProjectResult(t, cv)
    else if CaseUnfinished(cv.status) then t.(body := t.body.(status := Running, questions := []))
    else
      Close(t, if cv.status == CaseCancelled then Cancelled
               else if cv.status == CaseInterrupted then Interrupted else Failed)
  }

  lemma ProjectedIsTold(t: Tx, cv: CaseView)
    ensures Projected(t, cv) == Told(Announce(t, cv), cv)
  {
    hide Append, Close, ProjectWaiting, ProjectResult;
  }

  lemma ToldEnds(t: Tx, cv: CaseView)
    requires !Closed(t.body.status)
    ensures EndsWith(t, Told(t, cv))
  {
    hide EndsWith, SameEnds, Close, ProjectWaiting, ProjectResult;
    NoChange(t.db.events);
    if (t.body.stop && !IsResult(cv.status)) || (!Waiting(cv.status) && CaseUnfinished(cv.status)) {
      OpenEndsWith(t, Told(t, cv));
    } else if Waiting(cv.status) {
      WaitingEnds(t, cv);
    } else if IsResult(cv.status) {
      ResultEnds(t, cv);
    } else {
      ClosedEndsWith(t, Cancelled);
      ClosedEndsWith(t, Interrupted);
      ClosedEndsWith(t, Failed);
    }
  }

  lemma ProjectedEnds(t: Tx, cv: CaseView)
    requires !Closed(t.body.status)
    ensures EndsWith(t, Projected(t, cv))
  {
    hide HasEvent, EndsWith, SameEnds, Append, Projected, Told;
    var t0 := t.(body := t.body.(caseId := Some(cv.id), caseStatus := Some(cv.status),
                                 selectedSkill := cv.selectedSkill));
    AppendEnds(t0, CaseUpdated(cv.revision));
    ProjectedIsTold(t, cv);
    ToldEnds(Announce(t, cv), cv);
    EndsWithTrans(t, Announce(t, cv), Projected(t, cv));
  }

  // ----- which runs a transaction closes -----

  /** Between the two states no run but `x` is closed, and the log has the events of that end and of no other. */
  ghost predicate Closes(a: Db, b: Db, x: int) {
    && |a.runs| <= |b.runs|
    && (forall k :: 0 <= k < |a.runs| && k != x && Closed(b.runs[k].status) ==> Closed(a.runs[k].status))
    && (forall k :: |a.runs| <= k < |b.runs| ==> !Closed(b.runs[k].status))
    && (forall k: nat, e :: IsEnd(e) ==>
          (HasEvent(b.events, k, e)
           <==> HasEvent(a.events, k, e)
                || (k == x && k < |b.runs| && Closed(b.runs[k].status) && EndOf(e, b.runs[k].status))))
  }

  lemma SaveQuiet(db: Db, k: nat, u: Tx)
    requires k < |db.runs| && u.run == k && u.db.runs == db.runs && SameEnds(db.events, u.db.events)
    requires Closed(u.body.status) ==> Closed(db.runs[k].status)
    ensures Closes(db, Save(u), -1)
  {
    hide HasEvent;
  }

  lemma SaveCloses(db: Db, k: nat, u: Tx)
    requires k < |db.runs| && u.run == k && u.db.runs == db.runs
    requires EndsWith(Load(db, k), u)
    ensures Closes(db, Save(u), k)
  {
    hide HasEvent;
  }

  lemma SameCloses(a: Db, b: Db)
    requires b.events == a.events && |a.runs| == |b.runs|
    requires forall k :: 0 <= k < |a.runs| ==> b.runs[k].status == a.runs[k].status
    ensures Closes(a, b, -1)
  {}

  lemma ClosedTx(db: Db, run: nat, status: RunStatus)
    requires run < |db.runs| && Closed(status)
    ensures var u := Close(Load(db, run), status);
            && Closes(db, Save(u), run) && Closes(db, Save(u.(body := u.body.(stop := false))), run)
            && run < |Save(u).runs| && Save(u).runs[run].status == status
  {
    hide HasEvent, Close, Closes, EndsWith;
    var u := Close(Load(db, run), status);
    ClosedEndsWith(Load(db, run), status);
    SaveCloses(db, run, u);
    SameBodyEnds(Load(db, run), u, u.(body := u.body.(stop := false)));
    SaveCloses(db, run, u.(body := u.body.(stop := false)));
  }

  lemma SameBodyEnds(t: Tx, u: Tx, v: Tx)
    requires EndsWith(t, u) && v.db.events == u.db.events && v.body.status == u.body.status
    ensures EndsWith(t, v)
  {}

  lemma StopQuiet(db: Db, t: Tx)
    requires t.run < |db.runs| && t.db.runs == db.runs && t.db.events == db.events && !Closed(t.body.status)
    ensures Closes(db, Save(MarkUnused(t)), -1) && Closes(db, Save(Append(MarkUnused(t), RunStopping)), -1)
  {
    hide HasEvent, SameEnds, Closes, MarkUnusedFrom, Append;
    MarkUnusedFromEnds(t, 0);
    var u := MarkUnused(t);
    AppendEnds(u, RunStopping);
    SameEndsTrans(db.events, u.db.events, Append(u, RunStopping).db.events);
    SaveQuiet(db, t.run, u);
    SaveQuiet(db, t.run, Append(u, RunStopping));
  }

  lemma RequestStopQuiet(db: Db, request: RequestId, run: nat)
    ensures var r := RequestStop(db, request, run); r.Ok? ==> Closes(db, r.value, -1)
  {
    hide HasEvent, Closes, MarkUnused, Append, Save, StopKnown;
    var r := RequestStop(db, request, run);
    if r.Ok? {
      SameCloses(db, db);
      var t := Load(db, run);
      var status := if t.body.status == Cancelled then StopCancelled
                    else if Closed(t.body.status) || t.body.report then StopAlreadyFinished else StopCancelling;
      var t1 := t.(db := db.(stops := db.stops + [Stop(request, run, status)]));
      SameCloses(db, t1.db);
      StopQuiet(db, t1.(body := t1.body.(stop := true, status := Cancelling, pending := false, questions := [])));
    }
  }

  lemma IdleStopQuiet(db: Db, run: nat, idle: bool)
    ensures var r := RequestIdleStop(db, run, idle); r.Ok? ==> Closes(db, r.value, -1)
  {
    hide HasEvent, Closes, Append, Save, SameEnds, IdleStoppable;
    var r := RequestIdleStop(db, run, idle);
    if r.Ok? {
      SameCloses(db, db);
      var t := Load(db, run);
      var t1 := t.(body := t.body.(stop := true, status := Cancelling, pending := false, questions := []));
      AppendEnds(t1, RunStopping);
      SaveQuiet(db, run, Append(t1, RunStopping));
    }
  }

  lemma FinishStopCloses(db: Db, run: nat)
    requires run < |db.runs|
    ensures var r := FinishStop(db, run);
            && r.Ok? && run < |r.value.runs|
            && (db.runs[run].report ==> Closes(db, r.value, -1) && r.value.runs[run].status == db.runs[run].status)
            && (!db.runs[run].report ==> Closes(db, r.value, run) && r.value.runs[run].status == Cancelled)
  {
    hide HasEvent, Close, Closes;
    var t := Load(db, run);
    ClosedTx(db, run, Cancelled);
    NoChange(db.events);
    SaveQuiet(db, run, t.(body := t.body.(stop := false)));
    var b := FinishStop(db, run).value;
    var c := if t.body.report then Save(t.(body := t.body.(stop := false)))
             else Save(Close(t, Cancelled).(body := Close(t, Cancelled).body.(stop := false)));
    OtherTables(db, c, b, -1);
    OtherTables(db, c, b, run);
  }

  /** Only runs and events matter here. */
  lemma OtherTables(a: Db, b: Db, c: Db, x: int)
    requires b.runs == c.runs && b.events == c.events
    ensures Closes(a, b, x) <==> Closes(a, c, x)
  {}

  lemma {:induction false} DeleteFromQuiet(db: Db, k: nat)
    ensures Closes(db, DeleteFrom(db, k), -1)
    decreases |db.runs| - k
  {
    hide HasEvent, Closes, MarkUnused, Save;
    SameCloses(db, db);
    if k < |db.runs| {
      var t := Load(db, k);
      var t1 := t.(body := t.body.(stop := true, status := Cancelling, pending := false, questions := []));
      StopQuiet(db, t1);
      var b := DeleteRun(db, k);
      DeleteFromQuiet(b, k + 1);
      QuietTrans(db, b, DeleteFrom(b, k + 1));
    }
  }

  lemma QuietTrans(a: Db, b: Db, c: Db)
    requires Closes(a, b, -1) && Closes(b, c, -1)
    ensures Closes(a, c, -1)
  {
    hide HasEvent;
  }

  lemma FailRunCloses(db: Db, run: nat, interrupted: bool)
    ensures var r := FailRun(db, run, interrupted);
            r.Ok? ==>
              && run < |db.runs| == |r.value.runs|
              && (Settled(db.runs[run]) ==> r.value == db)
              && (!Settled(db.runs[run]) ==>
                    Closes(db, r.value, run) && r.value.runs[run].status == if interrupted then Interrupted else Failed)
  {
    hide HasEvent, Close, Closes;
    if run < |db.runs| { ClosedTx(db, run, if interrupted then Interrupted else Failed); }
  }

  lemma IntakeQuiet(db: Db, run: nat, ids: set<MessageId>, questions: Option<seq<Question>>)
    ensures var r := FinishIntake(db, run, ids, questions); r.Ok? ==> Closes(db, r.value, -1)
  {
    hide HasEvent, Closes, Save, SameEnds, Publish, Uncovered, KnownMessages;
    var r := FinishIntake(db, run, ids, questions);
    if r.Ok? {
      SameCloses(db, db);
      NoChange(db.events);
      var t := Load(db, run);
      var covered := t.body.covered + ids;
      var t1 := t.(body := t.body.(covered := covered, pending := Uncovered(db.messages, run, covered),
                                   status := WaitingInput));
      PublishEnds(t1, if questions.Some? then questions.value else t.body.authoritative);
      var u := IntakeSettled(t, covered, questions);
      if r.value != db { SaveQuiet(db, run, u); }
    }
  }

  lemma DraftQuiet(db: Db, run: nat, draft: nat, questions: seq<Question>, status: RunStatus)
    ensures var r := UpdateIntake(db, run, draft, questions, status); r.Ok? ==> Closes(db, r.value, -1)
  {
    hide HasEvent, Closes, Save, SameEnds, Append;
    var r := UpdateIntake(db, run, draft, questions, status);
    if r.Ok? {
      NoChange(db.events);
      var u := Drafted(Load(db, run), draft, questions, status);
      var t1 := Load(db, run).(body := u.body);
      AppendEnds(t1, DraftQuestions(draft, questions));
      SaveQuiet(db, run, u);
    }
  }

  lemma FinalizeQuiet(db: Db, run: nat, k: nat, status: MessageStatus)
    requires run < |db.runs| && k < |db.messages|
    ensures Closes(db, Save(Finalize(Load(db, run), k, status)), -1)
  {
    hide HasEvent, Closes, Save, SameEnds, Append;
    FinalizeEnds(Load(db, run), k, status);
    SaveQuiet(db, run, Finalize(Load(db, run), k, status));
  }

  lemma EmitQuiet(db: Db, run: nat, key: EventKey, readied: set<nat>)
    ensures var r := AppendEvent(db, run, key, readied); r.Ok? ==> Closes(db, r.value, -1)
  {
    hide HasEvent, Closes, Save, SameEnds, Append;
    var r := AppendEvent(db, run, key, readied);
    if r.Ok? {
      AppendEnds(Load(db, run), key);
      var c := Save(Append(Load(db, run), key));
      SaveQuiet(db, run, Append(Load(db, run), key));
      OtherTables(db, c, r.value, -1);
    }
  }

  lemma SubmitQuiet(db: Db, q: Request, routed: Option<CommandKey>)
    requires db.current < |db.runs|
    ensures var r := Submit(db, q, routed); r.Ok? ==> Closes(db, r.value, -1)
  {
    hide HasEvent, Closes, Save, SameEnds, SubmitTarget, AcceptMessage;
    var r := Submit(db, q, routed);
    var o := SubmitTarget(db, q, routed);
    if r.Ok? {
      SameCloses(db, db);
      if o.value.Some? {
        var t := o.value.value;
        AcceptedQuiet(db, q, routed, t);
        OtherTables(db, Save(AcceptMessage(t, q)), r.value, -1);
      }
    }
  }

  lemma AcceptedQuiet(db: Db, q: Request, routed: Option<CommandKey>, t: Tx)
    requires db.current < |db.runs| && SubmitTarget(db, q, routed) == Ok(Some(t))
    ensures Closes(db, Save(AcceptMessage(t, q)), -1)
  {
    hide HasEvent, SameEnds, Append, RunMessages, RestartOf, MessageOf, TargetChanged;
    var t0 := Load(db, db.current);
    var n := Tx(db.(runs := db.runs + [FreshRun(db.epoch)], current := |db.runs|), |db.runs|, FreshRun(db.epoch),
                t0.last);
    AppendEnds(n, RunStarted);
    NoChange(db.events);
    assert SameEnds(db.events, t.db.events);
    var t1 := t.(db := t.db.(nextId := t.db.nextId + 1));
    AppendEnds(t1, MessageAccepted(t.db.nextId));
    SameEndsTrans(db.events, t.db.events, AcceptMessage(t, q).db.events);
    EndsSame(db.events, AcceptMessage(t, q).db.events);
  }

  lemma EndsSame(a: seq<Event>, b: seq<Event>)
    requires SameEnds(a, b)
    ensures forall k: nat, e :: IsEnd(e) ==> (HasEvent(b, k, e) <==> HasEvent(a, k, e))
  {}

  // ----- the projection of a commit -----

  /** A projection closes at most the run of its Case, with the events of that end. */
  lemma ProjectCloses(db: Db, cv: CaseView, records: set<Record>)
    ensures var k, r := RunFor(db, cv.id, records), Project(db, cv, records);
            r.Ok? ==>
              && |r.value.runs| == |db.runs|
              && (k == |db.runs| || Closed(db.runs[k].status) ==> Closes(db, r.value, -1))
              && (k < |db.runs| && !Closed(db.runs[k].status) ==>
                    && Closes(db, r.value, k) && Mirrors(cv, db.runs[k].stop, r.value.runs[k])
                    && r.value.runs[k].caseId == Some(cv.id) && r.value.runs[k].caseStatus == Some(cv.status))
  {
    hide HasEvent, Closes, SameEnds, EndsWith, AcceptRestartsFrom, AcceptAdoptions, RunFor, Projected, Mirrors;
    var k, r := RunFor(db, cv.id, records), Project(db, cv, records);
    SameCloses(db, db);
    if r.Ok? && k < |db.runs| {
      var t := Load(db, k).(body := Load(db, k).body.(caseId := Some(cv.id)));
      PassesKeepRun(t, records, cv.id);
      AcceptRestartsEnds(t, records, cv.id, 0);
      var t1 := AcceptRestartsFrom(t, records, cv.id, 0).value;
      AcceptAdoptionsEnds(t1, records, cv.id);
      var t2 := AcceptAdoptions(t1, records, cv.id).value;
      SameEndsTrans(db.events, t1.db.events, t2.db.events);
      if Closed(db.runs[k].status) {
        RunsAndEnds(db, t2.db);
      } else {
        ProjectedMirrors(t2, cv);
        ProjectedEnds(t2, cv);
        EndsWithTrans(Load(db, k), t2, Projected(t2, cv));
        SaveCloses(db, k, Projected(t2, cv));
      }
    }
  }

  lemma RunsAndEnds(a: Db, b: Db)
    requires a.runs == b.runs && SameEnds(a.events, b.events)
    ensures Closes(a, b, -1)
  {
    hide HasEvent;
  }

  // ----- the log says how a run ended -----

  /** Until the deletion the log has exactly the events that belong to the way every run ended. */
  ghost predicate EndsOk(db: Db) {
    !db.deleted ==> forall k: nat, e :: k < |db.runs| && IsEnd(e) ==>
      (HasEvent(db.events, k, e) <==> Closed(db.runs[k].status) && EndOf(e, db.runs[k].status))
  }

  lemma NoEventsBeyond(db: Db, k: nat, e: EventKey)
    requires RowsOk(db) && k >= |db.runs|
    ensures !HasEvent(db.events, k, e)
  {}

  lemma ClosesKeepsEnds(a: Db, b: Db, x: int)
    requires RowsOk(a) && EndsOk(a) && Evolves(a, b) && Closes(a, b, x)
    ensures EndsOk(b)
  {
    hide HasEvent, EndOf;
    if !b.deleted {
      forall k: nat, e | k < |b.runs| && IsEnd(e)
        ensures HasEvent(b.events, k, e) <==> Closed(b.runs[k].status) && EndOf(e, b.runs[k].status)
      {
        if k >= |a.runs| { NoEventsBeyond(a, k, e); }
      }
    }
  }

  // ----- recovery -----

  /** The run was closed just now. */
  predicate Newly(a: Db, b: Db, k: nat) {
    k < |a.runs| && k < |b.runs| && !Closed(a.runs[k].status) && Closed(b.runs[k].status)
  }

  ghost predicate ClosesOwn(a: Db, b: Db, k: nat) { Closes(a, b, if Newly(a, b, k) then k else -1) }

  lemma IsOwn(a: Db, b: Db, k: nat)
    requires Closes(a, b, k) && k < |a.runs| && !Closed(a.runs[k].status)
    ensures ClosesOwn(a, b, k)
  {}

  /** How recovery closes a run: as its finished Case says, or interrupted. */
  predicate RecoveredAs(finished: map<CaseId, CaseView>, b: Run) {
    || (b.caseId.Some? && b.caseId.value in finished && Shows(finished[b.caseId.value], b.status))
    || (b.status == Interrupted && !(b.caseId.Some? && b.caseId.value in finished))
  }

  /** The end of a run that shows this Case. */
  predicate Shows(cv: CaseView, status: RunStatus) {
    match status
    case Failed => cv.status == CaseFailed
    case Interrupted => cv.status == CaseInterrupted
    case Cancelled => cv.status == CaseCancelled
    case Completed =>
      && (cv.status == Resolved || cv.status == PartiallyResolved || cv.status == Unresolved)
      && cv.archive != ArchivePending
    case _ => false
  }

  lemma MirroredShows(cv: CaseView, stop: bool, b: Run)
    requires Mirrors(cv, stop, b) && Closed(b.status)
    ensures Shows(cv, b.status)
  {}

  lemma StampOwn(a: Db, b: Db, k: nat)
    requires k < |b.runs| && ClosesOwn(a, b, k)
    ensures var c := StampEpoch(b, k);
            ClosesOwn(a, c, k) && |c.runs| == |b.runs| && c.runs[k] == b.runs[k].(epoch := b.epoch)
  {}

  lemma RecoverRunCloses(db: Db, k: nat, finished: map<CaseId, CaseView>, records: set<Record>)
    requires k < |db.runs| && forall c :: c in finished ==> finished[c].id == c
    ensures var r := RecoverRun(db, k, finished, records);
            r.Ok? ==> ClosesOwn(db, r.value, k) && (Newly(db, r.value, k) ==> RecoveredAs(finished, r.value.runs[k]))
  {
    hide HasEvent, Closes, SameEnds, EndsWith, AcceptAdoptions, Projected, Mirrors, Close, Shows, RunMessages;
    var r := RecoverRun(db, k, finished, records);
    var t := Load(db, k);
    SameCloses(db, db);
    if r.Ok? && !Closed(t.body.status) && t.body.epoch != db.epoch {
      if t.body.caseId.Some? && t.body.caseId.value in finished {
        var cv := finished[t.body.caseId.value];
        AcceptAdoptionsEnds(t, records, cv.id);
        AdoptionsShell(t, records, cv.id);
        var t1 := AcceptAdoptions(t, records, cv.id).value;
        ProjectedMirrors(t1, cv);
        ProjectedEnds(t1, cv);
        var u := Projected(t1, cv);
        EndsWithTrans(t, t1, u);
        SaveCloses(db, k, u);
        IsOwn(db, Save(u), k);
        StampOwn(db, Save(u), k);
        if Closed(u.body.status) { MirroredShows(cv, t1.body.stop, u.body); }
      } else {
        ClosedTx(db, k, Interrupted);
        IsOwn(db, Save(Close(t, Interrupted)), k);
        StampOwn(db, Save(Close(t, Interrupted)), k);
        StampOwn(db, db, k);
      }
    }
  }

  lemma {:induction false} RecoverFromCloses(db: Db, k: nat, finished: map<CaseId, CaseView>, records: set<Record>)
    requires Inv(db) && EndsOk(db) && forall c :: c in finished ==> finished[c].id == c
    requires forall i :: k <= i < |db.runs| && db.runs[i].caseId.Some? && db.runs[i].caseId.value in finished ==>
      Trusted(finished[db.runs[i].caseId.value], db.runs[i])
    ensures var r := RecoverFrom(db, k, finished, records);
            r.Ok? ==>
              && EndsOk(r.value) && |r.value.runs| == |db.runs|
              && (forall i :: 0 <= i < |db.runs| && i < k ==> r.value.runs[i] == db.runs[i])
              && (forall i: nat :: k <= i < |db.runs| && Newly(db, r.value, i) ==>
                  RecoveredAs(finished, r.value.runs[i]))
    decreases |db.runs| - k
  {
    hide InvBut, Evolves, EndsOk, RecoverRun, ClosesOwn, RecoveredAs, Trusted;
    if k < |db.runs| {
      var r := RecoverRun(db, k, finished, records);
      RecoverRunStep(db, k, finished, records);
      RecoverRunCloses(db, k, finished, records);
      if r.Ok? {
        IsRows(db);
        OwnKeepsEnds(db, r.value, k);
        RecoverFromCloses(r.value, k + 1, finished, records);
      }
    }
  }

  lemma OwnKeepsEnds(a: Db, b: Db, k: nat)
    requires RowsOk(a) && EndsOk(a) && Evolves(a, b) && ClosesOwn(a, b, k)
    ensures EndsOk(b)
  {
    hide EndsOk, Evolves, RowsOk, Closes;
    ClosesKeepsEnds(a, b, if Newly(a, b, k) then k else -1);
  }

  // ----- every step, every run -----

  /** What can close run `k`, and how. */
  predicate Reason(s: Sys, step: Step, k: nat, b: Run) {
    match step
    case FinishSettle(run) => k == run && b.status == Cancelled
    case Fail(run, interrupted) => k == run && b.status == (if interrupted then Interrupted else Failed)
    case CommitCase(cv, _) => b.caseId == Some(cv.id) && Shows(cv, b.status)
    case Restarted(_) => RecoveredAs(Finished(s.cases), b)
    case _ => false
  }

  ghost predicate EndsStep(s: Sys, step: Step, s2: Sys) {
    && EndsOk(s2.db) && (forall k: nat :: Newly(s.db, s2.db, k) ==> Reason(s, step, k, s2.db.runs[k]))
  }

  lemma QuietEnds(s: Sys, step: Step, s2: Sys)
    requires SysInv(s) && EndsOk(s.db) && Evolves(s.db, s2.db) && Closes(s.db, s2.db, -1)
    ensures EndsStep(s, step, s2)
  {
    hide Evolves, EndsOk, HasEvent;
    Base(s);
    ClosesKeepsEnds(s.db, s2.db, -1);
  }

  lemma OneEnds(s: Sys, step: Step, s2: Sys, x: nat)
    requires SysInv(s) && EndsOk(s.db) && Evolves(s.db, s2.db) && Closes(s.db, s2.db, x)
    requires Newly(s.db, s2.db, x) ==> Reason(s, step, x, s2.db.runs[x])
    ensures EndsStep(s, step, s2)
  {
    hide Evolves, EndsOk, HasEvent, Reason;
    Base(s);
    ClosesKeepsEnds(s.db, s2.db, x);
  }

  lemma CommitEnds(s: Sys, cv: CaseView, record: Option<Record>)
    requires SysInv(s) && EndsOk(s.db) && Enabled(s, CommitCase(cv, record)) && s.db.current < |s.db.runs|
    ensures EndsStep(s, CommitCase(cv, record), Apply(s, CommitCase(cv, record)))
  {
    hide SysInv, EndsOk, Evolves, Closes, Enabled, EndsStep, Project, RunFor, Mirrors, Shows;
    StepKeeps(s, CommitCase(cv, record));
    var s2 := Apply(s, CommitCase(cv, record));
    var records := if record.Some? then s.records + {record.value} else s.records;
    ProjectCloses(s.db, cv, records);
    SameCloses(s.db, s.db);
    var k := RunFor(s.db, cv.id, records);
    if Project(s.db, cv, records).Ok? && k < |s.db.runs| && !Closed(s.db.runs[k].status) {
      if Closed(s2.db.runs[k].status) { MirroredShows(cv, s.db.runs[k].stop, s2.db.runs[k]); }
      OneEnds(s, CommitCase(cv, record), s2, k);
    } else {
      QuietEnds(s, CommitCase(cv, record), s2);
    }
  }

  lemma RestartEnds(s: Sys, epoch: Epoch)
    requires SysInv(s) && EndsOk(s.db) && Enabled(s, Restarted(epoch)) && s.db.current < |s.db.runs|
    ensures EndsStep(s, Restarted(epoch), Apply(s, Restarted(epoch)))
  {
    hide SysInv, EndsOk, Evolves, Closes, Enabled, RecoverFrom, InvBut, RecoveredAs;
    Base(s);
    FinishedTrusted(s);
    var a := s.db.(epoch := epoch);
    EpochStep(s.db, epoch);
    SameEndsOk(s.db, a);
    if !s.db.deleted {
      RecoverFromCloses(a, 0, Finished(s.cases), s.records);
      assert forall i: nat :: Newly(s.db, Apply(s, Restarted(epoch)).db, i) ==>
             Newly(a, Apply(s, Restarted(epoch)).db, i);
    }
  }

  lemma SameEndsOk(a: Db, b: Db)
    requires EndsOk(a) && b.runs == a.runs && b.events == a.events && b.deleted == a.deleted
    ensures EndsOk(b)
  {}

  lemma StepEnds(s: Sys, step: Step)
    requires SysInv(s) && EndsOk(s.db) && Enabled(s, step) && s.db.current < |s.db.runs|
    ensures EndsStep(s, step, Apply(s, step))
  {
    hide SysInv, EndsOk, Evolves, Closes, Enabled, EndsStep, Submit, Freeze, Retarget, FinishRestart, Project,
      RequestStop, RequestIdleStop, FinishStop, DeleteFrom, FinishIntake, UpdateIntake, Finalize, Save, AppendEvent,
      FailRun, Recover;
    match step
    case CommitCase(cv, record) => CommitEnds(s, cv, record);
    case Restarted(epoch) => RestartEnds(s, epoch);
    case FinishSettle(run) => SettleEnds(s, run);
    case Fail(run, interrupted) => FailEnds(s, run, interrupted);
    case _ =>
      StepKeeps(s, step);
      StepQuiet(s, step);
      QuietEnds(s, step, Apply(s, step));
  }

  lemma SettleEnds(s: Sys, run: nat)
    requires SysInv(s) && EndsOk(s.db) && Enabled(s, FinishSettle(run)) && s.db.current < |s.db.runs|
    ensures EndsStep(s, FinishSettle(run), Apply(s, FinishSettle(run)))
  {
    hide SysInv, EndsOk, Evolves, Closes, EndsStep, FinishStop;
    StepKeeps(s, FinishSettle(run));
    var s2 := Apply(s, FinishSettle(run));
    SameCloses(s.db, s.db);
    if run < |s.db.runs| { FinishStopCloses(s.db, run); } else { NoSuchRun(s.db, run); }
    if run < |s.db.runs| && !s.db.runs[run].report { OneEnds(s, FinishSettle(run), s2, run); }
    else { QuietEnds(s, FinishSettle(run), s2); }
  }

  lemma NoSuchRun(db: Db, run: nat)
    requires run >= |db.runs|
    ensures FinishStop(db, run).Err?
  {}

  lemma FailEnds(s: Sys, run: nat, interrupted: bool)
    requires SysInv(s) && EndsOk(s.db) && Enabled(s, Fail(run, interrupted)) && s.db.current < |s.db.runs|
    ensures EndsStep(s, Fail(run, interrupted), Apply(s, Fail(run, interrupted)))
  {
    hide SysInv, EndsOk, Evolves, Closes, EndsStep, FailRun, Enabled;
    var step := Fail(run, interrupted);
    StepKeeps(s, step);
    var s2 := Apply(s, step);
    SameCloses(s.db, s.db);
    FailRunCloses(s.db, run, interrupted);
    if FailRun(s.db, run, interrupted).Ok? && !Settled(s.db.runs[run]) { OneEnds(s, step, s2, run); }
    else { QuietEnds(s, step, s2); }
  }

  lemma StepQuiet(s: Sys, step: Step)
    requires s.db.current < |s.db.runs|
    requires !step.CommitCase? && !step.Restarted? && !step.FinishSettle? && !step.Fail?
    ensures Closes(s.db, Apply(s, step).db, -1)
  {
    hide Closes, Submit, RequestStop, RequestIdleStop, DeleteFrom, FinishIntake, UpdateIntake, Finalize, Save,
      AppendEvent, HasEvent, MessageAt, DispatchWithId, RestartOf, RestartWithKey, Recorded, Ended;
    SameCloses(s.db, s.db);
    match step
    case DirectSubmit(q) => SubmitQuiet(s.db, q, None);
    case RoutedSubmit(q, key) => SubmitQuiet(s.db, q, Some(key));
    case AskStop(request, run) => RequestStopQuiet(s.db, request, run);
    case AskIdleStop(run, idle) => IdleStopQuiet(s.db, run, idle);
    case DeleteConversation => DeleteQuiet(s.db);
    case SettleIntake(run, ids, questions) => IntakeQuiet(s.db, run, ids, questions);
    case DraftIntake(run, draft, questions, status) => DraftQuiet(s.db, run, draft, questions, status);
    case MarkMessage(run, id, status) => MarkQuiet(s.db, run, id, status);
    case EndAdopt(run, id, accepted) => EndAdoptQuiet(s.db, run, id, accepted);
    case Emit(run, key, readied) => EmitQuiet(s.db, run, key, readied);
    case CommitCase(_, _) => {}
    case Restarted(_) => {}
    case FinishSettle(_) => {}
    case Fail(_, _) => {}
    case _ => StatusesStay(s, step);
  }

  lemma StatusesStay(s: Sys, step: Step)
    requires s.db.current < |s.db.runs|
    requires || step.BeginSend? || step.EndSend? || step.FreezeIntent? || step.RetargetIntent? || step.RejectIntent?
             || step.CompleteIntent? || step.BeginSettle? || step.BeginDispatch? || step.EndDispatch? || step.Adopt?
             || step.AwaitCase?
    ensures Closes(s.db, Apply(s, step).db, -1)
  {
    hide Closes, HasEvent, MessageAt, DispatchWithId, RestartOf, RestartWithKey, Recorded, Ended, RunMessages,
      LiveRestart;
    SameCloses(s.db, Apply(s, step).db);
  }

  lemma DeleteQuiet(db: Db)
    ensures Closes(db, Delete(db), -1)
  {
    hide Closes, DeleteFrom;
    SameCloses(db, db);
    var a := db.(deleted := true);
    DeleteFromQuiet(a, 0);
    SameStart(db, a, DeleteFrom(a, 0));
  }

  lemma SameStart(a: Db, b: Db, c: Db)
    requires a.runs == b.runs && a.events == b.events && Closes(b, c, -1)
    ensures Closes(a, c, -1)
  {}

  lemma MarkQuiet(db: Db, run: nat, id: MessageId, status: MessageStatus)
    ensures var r := SetMessageStatus(db, run, id, status); r.Ok? ==> Closes(db, r.value, -1)
  {
    hide Closes, Finalize, Save, MessageAt;
    SameCloses(db, db);
    var k := MessageAt(db.messages, run, id);
    if run < |db.runs| && k < |db.messages| { FinalizeQuiet(db, run, k, status); }
  }

  lemma EndAdoptQuiet(db: Db, run: nat, id: MessageId, accepted: bool)
    ensures var r := FinishAdoption(db, run, id, accepted); r.Ok? ==> Closes(db, r.value, -1)
  {
    hide Closes, Finalize, Save, MessageAt;
    var r := FinishAdoption(db, run, id, accepted);
    var k := MessageAt(db.messages, run, id);
    if r.Ok? {
      var status := if accepted then Applied else Unused;
      FinalizeQuiet(db, run, k, status);
      SameCloses(db, db.(adoptions := db.adoptions - {id}));
      OtherTables(db, Save(Finalize(Load(db, run), k, status)),
                  Save(Finalize(Load(db, run), k, status)).(adoptions := r.value.adoptions), -1);
    }
  }

  lemma {:induction false} EndsAlways(tr: seq<Sys>, steps: seq<Step>, epoch: Epoch, n: nat)
    requires IsRun(tr, steps, epoch) && n < |tr|
    ensures EndsOk(tr[n].db)
  {
    hide SysInv, Enabled, Apply, EndsOk;
    if n == 0 {
      NothingEnded(epoch);
    } else {
      EndsAlways(tr, steps, epoch, n - 1);
      Always(tr, steps, epoch, n - 1);
      assert Next(tr[n - 1], steps[n - 1], tr[n - 1 + 1]);
      StepEnds(tr[n - 1], steps[n - 1]);
    }
  }

  lemma NothingEnded(epoch: Epoch)
    ensures EndsOk(Start(epoch).db)
  {}

  /**
   How runs end, over every run: until the deletion the log says of every run that it was completed iff it is closed,
   that it failed iff it is FAILED, and that it was interrupted iff it is INTERRUPTED.
   */
  lemma LogTellsEnds(tr: seq<Sys>, steps: seq<Step>, epoch: Epoch, n: nat, k: nat)
    requires IsRun(tr, steps, epoch) && n < |tr| && k < |tr[n].db.runs| && !tr[n].db.deleted
    ensures var db := tr[n].db; var status := db.runs[k].status;
            && (HasEvent(db.events, k, RunCompleted) <==>
                  status == Completed || status == Failed || status == Interrupted || status == Cancelled)
            && (HasEvent(db.events, k, RunFailed) <==> status == Failed)
            && (HasEvent(db.events, k, RunInterrupted) <==> status == Interrupted)
  {
    EndsAlways(tr, steps, epoch, n);
    hide HasEvent, IsRun;
  }

  /** A run is closed only by what `Reason` names. */
  lemma ClosedOnlyBy(tr: seq<Sys>, steps: seq<Step>, epoch: Epoch, n: nat, k: nat)
    requires IsRun(tr, steps, epoch) && n < |steps| && Newly(tr[n].db, tr[n + 1].db, k)
    ensures Reason(tr[n], steps[n], k, tr[n + 1].db.runs[k])
  {
    hide SysInv, Enabled, Apply, EndsOk, Reason, Newly;
    EndsAlways(tr, steps, epoch, n);
    Always(tr, steps, epoch, n);
    assert Next(tr[n], steps[n], tr[n + 1]);
    StepEnds(tr[n], steps[n]);
  }

  /** In particular a run is cancelled only by settling its stop, or because its Case was cancelled. */
  lemma CancelledOnlyBy(tr: seq<Sys>, steps: seq<Step>, epoch: Epoch, n: nat, k: nat)
    requires IsRun(tr, steps, epoch) && n < |steps| && Newly(tr[n].db, tr[n + 1].db, k)
    requires tr[n + 1].db.runs[k].status == Cancelled
    ensures || steps[n] == FinishSettle(k)
            || (steps[n].CommitCase? && steps[n].cv.status == CaseCancelled
                && tr[n + 1].db.runs[k].caseId == Some(steps[n].cv.id))
            || (steps[n].Restarted? && tr[n + 1].db.runs[k].caseId.Some?
                && var c := tr[n + 1].db.runs[k].caseId.value;
                   c in tr[n].cases && tr[n].cases[c].status == CaseCancelled)
  {
    ClosedOnlyBy(tr, steps, epoch, n, k);
    hide IsRun;
  }

  // ----- what a projection announces -----

  lemma AppendGrows(t: Tx, key: EventKey)
    ensures t.db.events <= Append(t, key).db.events && HasEvent(Append(t, key).db.events, t.run, key)
  {
    AppendHas(t, key, t.run, key);
  }

  lemma {:induction false} MarkUnusedGrows(t: Tx, k: nat)
    requires k <= |t.db.messages|
    ensures t.db.events <= MarkUnusedFrom(t, k).db.events
    decreases |t.db.messages| - k
  {
    hide HasEvent;
    if k < |t.db.messages| { MarkUnusedGrows(GiveUp(t, k), k + 1); }
  }

  lemma CloseGrows(t: Tx, status: RunStatus)
    ensures t.db.events <= Close(t, status).db.events
  {
    hide HasEvent, MarkUnusedFrom;
    MarkUnusedGrows(t.(body := t.body.(status := status, pending := false, questions := [])), 0);
  }

  lemma StillThere(a: seq<Event>, b: seq<Event>, run: nat, key: EventKey)
    requires a <= b && HasEvent(a, run, key)
    ensures HasEvent(b, run, key)
  {
    var i :| 0 <= i < |a| && a[i].run == run && a[i].key == key;
    assert b[i] == a[i];
  }

  /** The events of a projection: the Case was updated; a result has its archive state and, once there, its report. */
  ghost predicate Announces(cv: CaseView, run: nat, events: seq<Event>) {
    && HasEvent(events, run, CaseUpdated(cv.revision))
    && (cv.status == Resolved || cv.status == PartiallyResolved || cv.status == Unresolved ==>
          HasEvent(events, run, ArchiveUpdated(cv.archive))
          && (cv.hasReport ==> HasEvent(events, run, ResultAvailable)))
  }

  lemma ResultAnnounces(t: Tx, cv: CaseView)
    ensures var u := ProjectResult(t, cv);
            && t.db.events <= u.db.events && HasEvent(u.db.events, t.run, ArchiveUpdated(cv.archive))
            && (cv.hasReport ==> HasEvent(u.db.events, t.run, ResultAvailable))
  {
    hide HasEvent, Append, Close, MarkUnusedFrom;
    var t0 := t.(body := t.body.(report := true, stop := false, pending := false, questions := []),
                 db := t.db.(stops := SettleStops(t.db.stops, t.run, StopAlreadyFinished)));
    AppendGrows(t0, ResultAvailable);
    MarkUnusedGrows(Append(t0, ResultAvailable), 0);
    var p := if cv.hasReport then PublishReport(t) else t;
    var t1 := Append(p, ArchiveUpdated(cv.archive));
    AppendGrows(p, ArchiveUpdated(cv.archive));
    CloseGrows(t1, Completed);
    var u := ProjectResult(t, cv);
    StillThere(t1.db.events, u.db.events, t.run, ArchiveUpdated(cv.archive));
    if cv.hasReport { StillThere(Append(t0, ResultAvailable).db.events, u.db.events, t.run, ResultAvailable); }
  }

  lemma WaitingGrows(t: Tx, cv: CaseView)
    ensures t.db.events <= ProjectWaiting(t, cv).db.events
  {
    hide HasEvent;
  }

  lemma ProjectedAnnounces(t: Tx, cv: CaseView)
    ensures Announces(cv, t.run, Projected(t, cv).db.events)
    ensures t.db.events <= Projected(t, cv).db.events
  {
    hide HasEvent, Append, Close, ProjectResult, ProjectWaiting;
    var t0 := t.(body := t.body.(caseId := Some(cv.id), caseStatus := Some(cv.status),
                                 selectedSkill := cv.selectedSkill));
    AppendGrows(t0, CaseUpdated(cv.revision));
    var t1 := Append(t0, CaseUpdated(cv.revision));
    ResultAnnounces(t1, cv);
    WaitingGrows(t1, cv);
    CloseGrows(t1, Cancelled);
    CloseGrows(t1, Interrupted);
    CloseGrows(t1, Failed);
    StillThere(t1.db.events, Projected(t, cv).db.events, t.run, CaseUpdated(cv.revision));
  }

  /** An open run after the commit of its Case: it shows the Case, and the log says so. */
  ghost predicate ShowsCase(a: Db, b: Db, k: nat, cv: CaseView) {
    && k < |a.runs| && |b.runs| == |a.runs| && Mirrors(cv, a.runs[k].stop, b.runs[k])
    && b.runs[k].caseId == Some(cv.id) && b.runs[k].caseStatus == Some(cv.status)
    && Announces(cv, k, b.events) && Closes(a, b, k)
  }

  /** What the projection of a commit means, for the run of the Case and whatever status the Case has. */
  lemma ProjectMeaning(db: Db, cv: CaseView, records: set<Record>)
    ensures var k, r := RunFor(db, cv.id, records), Project(db, cv, records);
            r.Ok? && k < |db.runs| && !Closed(db.runs[k].status) ==> ShowsCase(db, r.value, k, cv)
  {
    hide HasEvent, Closes, AcceptRestartsFrom, AcceptAdoptions, RunFor, Projected, Mirrors, Announces;
    var k, r := RunFor(db, cv.id, records), Project(db, cv, records);
    ProjectCloses(db, cv, records);
    if r.Ok? && k < |db.runs| && !Closed(db.runs[k].status) {
      var t := Load(db, k).(body := Load(db, k).body.(caseId := Some(cv.id)));
      PassesKeepRun(t, records, cv.id);
      var t1 := AcceptRestartsFrom(t, records, cv.id, 0).value;
      var t2 := AcceptAdoptions(t1, records, cv.id).value;
      ProjectedAnnounces(t2, cv);
    }
  }

  /** Failing an open run ends it as told, with the events of that end; a settled run is left alone. */
  lemma FailMeaning(db: Db, run: nat, interrupted: bool)
    requires Inv(db) && run < |db.runs| && !db.deleted
    ensures var r := FailRun(db, run, interrupted);
            && r.Ok? && |r.value.runs| == |db.runs| && (Settled(db.runs[run]) ==> r.value == db)
            && (!Settled(db.runs[run]) ==>
                  && Closes(db, r.value, run) && GivenUp(db.messages, r.value.messages, run)
                  && r.value.runs[run].status == (if interrupted then Interrupted else Failed)
                  && !r.value.runs[run].pending && r.value.runs[run].questions == []
                  && HasEvent(r.value.events, run, if interrupted then RunInterrupted else RunFailed)
                  && HasEvent(r.value.events, run, RunCompleted))
  {
    hide HasEvent, Close, Closes, InvBut, GivenUp;
    FailRunCloses(db, run, interrupted);
    CloseGives(Load(db, run), if interrupted then Interrupted else Failed);
    if !Settled(db.runs[run]) {
      var b := FailRun(db, run, interrupted).value;
      EndsThere(db, b, run, RunCompleted);
      EndsThere(db, b, run, if interrupted then RunInterrupted else RunFailed);
    }
  }

  lemma EndsThere(a: Db, b: Db, k: nat, e: EventKey)
    requires Closes(a, b, k) && k < |b.runs| && Closed(b.runs[k].status) && IsEnd(e) && EndOf(e, b.runs[k].status)
    ensures HasEvent(b.events, k, e)
  {
    hide HasEvent;
  }

  /** The end of an adoption: a message not final before is APPLIED iff it was accepted, else UNUSED, and released. */
  lemma AdoptionEnds(db: Db, run: nat, id: MessageId, accepted: bool)
    requires Inv(db)
    ensures var r := FinishAdoption(db, run, id, accepted);
            r.Ok? ==>
              && id !in r.value.adoptions && r.value.adoptions == db.adoptions - {id} && r.value.runs == db.runs
              && |r.value.messages| == |db.messages|
              && (exists i :: 0 <= i < |db.messages| && db.messages[i].id == id && db.messages[i].run == run)
              && forall i :: 0 <= i < |db.messages| ==>
                   r.value.messages[i]
                   == if db.messages[i].id == id && !Final(db.messages[i].status)
                      then db.messages[i].(status := if accepted then Applied else Unused) else db.messages[i]
  {
    hide HasEvent;
    var k := MessageAt(db.messages, run, id);
    if FinishAdoption(db, run, id, accepted).Ok? {
      UniqueIds(db);
      hide InvBut;
      assert db.messages[k].id == id && db.messages[k].run == run;
      assert db.runs[run := db.runs[run]] == db.runs;
    }
  }

  lemma UniqueIds(db: Db)
    requires Inv(db)
    ensures forall i, j :: 0 <= i < j < |db.messages| ==> db.messages[i].id != db.messages[j].id
  {}
}
