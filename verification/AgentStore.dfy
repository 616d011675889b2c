/**
 The store as it works: a transaction object that is changed step by step, and the store that opens one for
 every operation and either commits it or drops it.  Every method is tied to the function of the same
 operation in `Conversation`, and every operation keeps the invariant of the tables.
 */
module AgentStore {
  import opened Conversation
  import opened ConversationInvariant
  import opened ConversationSteps
  import opened ConversationControl
  import opened ConversationSafety
  import opened ConversationReceipts
  import opened ConversationEnds

  /** One open transaction: its tables, and the run body it holds in memory. */
  class Transaction {
    var db: Db
    var run: nat
    var body: Run
    var last: nat

    constructor (db: Db, run: nat)
      requires run < |db.runs|
      ensures State() == Load(db, run)
    {
      this.db, this.run, this.body, this.last := db, run, db.runs[run], db.headLast;
    }

    function State(): Tx
      reads this
    {
      Tx(db, run, body, last)
    }

    method Emit(key: EventKey)
      modifies this
      ensures State() == Append(old(State()), key)
    {
      if !HasEvent(db.events, run, key) {
        last := Max(last, db.headLast) + 1;
        db := db.(events := db.events + [Event(last, run, key)]);
      }
    }

    /** Writes the body back. */
    method Store()
      modifies this
      ensures db == Save(old(State())) && run == old(run) && body == old(body) && last == old(last)
    {
      if run < |db.runs| { db := db.(runs := db.runs[run := body]); }
      if db.current == run {
        db := db.(head := body, headLast := last);
      } else {
        db := db.(headLast := Max(db.headLast, last));
      }
    }

    method FinishMessage(k: nat, status: MessageStatus)
      requires k < |db.messages|
      modifies this
      ensures State() == Finalize(old(State()), k, status)
    {
      var id := db.messages[k].id;
      db := db.(messages := db.messages[k := db.messages[k].(status := status)]);
      Emit(MessageUpdated(id, status));
    }

    /** Every message of the run that is not finished is given up, and its adoption with it. */
    method GiveUpMessages()
      modifies this
      ensures State() == MarkUnused(old(State()))
    {
      var k := 0;
      while k < |db.messages|
        invariant k <= |db.messages|
        invariant MarkUnusedFrom(State(), k) == MarkUnusedFrom(old(State()), 0)
      {
        var m := db.messages[k];
        if m.run == run {
          if !Final(m.status) { FinishMessage(k, Unused); }
          db := db.(adoptions := db.adoptions - {m.id});
        }
        k := k + 1;
      }
    }

    method CloseRun(status: RunStatus)
      modifies this
      ensures State() == Close(old(State()), status)
    {
      body := body.(status := status, pending := false, questions := []);
      GiveUpMessages();
      if status == Interrupted { Emit(RunInterrupted); }
      else if status == Failed { Emit(RunFailed); }
      Emit(RunCompleted);
    }

    method PublishQuestions(questions: seq<Question>)
      modifies this
      ensures State() == Publish(old(State()), questions)
    {
      if body.questions != questions {
        body := body.(questions := questions);
        if questions != [] { Emit(QuestionsAsked(body.asOf, body.covered, questions)); }
      }
    }

    method AddMessage(id: MessageId, request: RequestId, digest: Fingerprint)
      modifies this
      ensures State() == InsertMessage(old(State()), id, request, digest)
    {
      Emit(MessageAccepted(id));
      db := db.(messages := db.messages + [Message(id, request, digest, run, Queued, last)]);
    }

    /** The run is asked to stop: it takes no more input and what it has not read is given up. */
    method StopRun(announce: bool)
      modifies this
      ensures var t := old(State());
              var t1 := MarkUnused(t.(body := t.body.(stop := true, status := Cancelling, pending := false,
                                                      questions := [])));
              db == Save(if announce then Append(t1, RunStopping) else t1)
    {
      body := body.(stop := true, status := Cancelling, pending := false, questions := []);
      GiveUpMessages();
      if announce { Emit(RunStopping); }
      Store();
    }

    /** After a batch was read: what is still unread decides whether the run asks its questions. */
    method FinishBatch(covered: set<MessageId>, questions: Option<seq<Question>>)
      modifies this
      ensures State() == IntakeSettled(old(State()), covered, questions)
    {
      var pending := Uncovered(db.messages, run, covered);
      body := body.(covered := covered, pending := pending);
      var waiting := body.caseStatus.Some? && Waiting(body.caseStatus.value);
      if pending {
        body := body.(questions := []);
        if waiting || body.caseId.None? { body := body.(status := Intake); }
      } else if waiting || (questions.Some? && body.caseId.None?) {
        body := body.(status := WaitingInput);
        PublishQuestions(if questions.Some? then questions.value else body.authoritative);
      } else if body.caseId.Some? {
        body := body.(status := Running, questions := []);
      }
    }

    /** Takes every pending restart whose command the core has just accepted. */
    method AcceptRestarts(records: set<Record>, c: CaseId) returns (error: Option<ErrorCode>)
      modifies this
      ensures AcceptRestartsFrom(old(State()), records, c, 0)
              == if error.None? then Ok(State()) else Err(error.value)
    {
      var k := 0;
      while k < |db.restarts|
        invariant k <= |db.restarts|
        invariant AcceptRestartsFrom(State(), records, c, k) == AcceptRestartsFrom(old(State()), records, c, 0)
      {
        var rs := db.restarts[k];
        if Accepts(rs, run, records, c) {
          if !Open(State()) { return Some(ConversationClosed); }
          AddMessage(rs.message, rs.request, rs.digest);
          db := db.(restarts := db.restarts[k := rs.(status := RestartCommitted)]);
          body := body.(pending := true, questions := [], archive := rs.archive);
        }
        k := k + 1;
      }
      return None;
    }

    method ApplyMessages(ids: seq<MessageId>) returns (error: Option<ErrorCode>)
      modifies this
      ensures ApplyBatch(old(State()), ids) == if error.None? then Ok(State()) else Err(error.value)
    {
      var n := 0;
      while n < |ids|
        invariant n <= |ids|
        invariant ApplyBatch(State(), ids[n..]) == ApplyBatch(old(State()), ids)
      {
        assert ids[n..][1..] == ids[n + 1..];
        var k := MessageAt(db.messages, run, ids[n]);
        if k == |db.messages| { return Some(MessageNotFound); }
        if !Final(db.messages[k].status) { FinishMessage(k, Applied); }
        n := n + 1;
      }
      return None;
    }

    /** Marks as applied what the core has accepted: first whole batches, then single adoptions. */
    method AcceptCommittedAdoptions(records: set<Record>, c: CaseId) returns (error: Option<ErrorCode>)
      modifies this
      ensures AcceptAdoptions(old(State()), records, c) == if error.None? then Ok(State()) else Err(error.value)
    {
      hide ApplyBatchesFrom, AdoptFrom;
      error := ApplyBatches(records, c);
      if error.None? { AdoptMessages(records, c); }
    }

    method ApplyBatches(records: set<Record>, c: CaseId) returns (error: Option<ErrorCode>)
      modifies this
      ensures ApplyBatchesFrom(old(State()), records, c, 0) == if error.None? then Ok(State()) else Err(error.value)
    {
      hide ApplyBatch;
      var d := 0;
      while d < |db.dispatches|
        invariant d <= |db.dispatches|
        invariant ApplyBatchesFrom(State(), records, c, d) == ApplyBatchesFrom(old(State()), records, c, 0)
      {
        var row := db.dispatches[d];
        if row.run == run && row.batch.Some? && row.op == SubmitSupplement && Record(row.op, row.key, c) in records {
          error := ApplyMessages(row.batch.value);
          if error.Some? { return; }
        }
        d := d + 1;
      }
      return None;
    }

    method AdoptMessages(records: set<Record>, c: CaseId)
      modifies this
      ensures State() == AdoptFrom(old(State()), records, c, 0)
    {
      hide HasEvent;
      var k := 0;
      while k < |db.messages|
        invariant k <= |db.messages|
        invariant AdoptFrom(State(), records, c, k) == AdoptFrom(old(State()), records, c, 0)
      {
        var m := db.messages[k];
        if m.run == run && m.id in db.adoptions {
          var at := DispatchWithId(db.dispatches, db.adoptions[m.id]);
          if at < |db.dispatches| && db.dispatches[at].run == run
             && Record(db.dispatches[at].op, db.dispatches[at].key, c) in records {
            if !Final(m.status) { FinishMessage(k, Applied); }
            db := db.(adoptions := db.adoptions - {m.id});
          }
        }
        k := k + 1;
      }
    }

    method PublishResult(cv: CaseView)
      modifies this
      ensures State() == ProjectResult(old(State()), cv)
    {
      if cv.hasReport {
        body := body.(report := true, stop := false, pending := false, questions := []);
        db := db.(stops := SettleStops(db.stops, run, StopAlreadyFinished));
        Emit(ResultAvailable);
        GiveUpMessages();
      }
      Emit(ArchiveUpdated(cv.archive));
      if cv.archive != ArchivePending { CloseRun(Completed); }
      else { body := body.(status := Running); }
    }

    method ProjectOpen(cv: CaseView)
      modifies this
      ensures State() == Projected(old(State()), cv)
    {
      body := body.(caseId := Some(cv.id), caseStatus := Some(cv.status), selectedSkill := cv.selectedSkill);
      Emit(CaseUpdated(cv.revision));
      if body.stop && !IsResult(cv.status) {
        body := body.(status := Cancelling, pending := false, questions := []);
      } else if Waiting(cv.status) {
        body := body.(authoritative := cv.questions, asOf := Some(cv.revision));
        if body.pending {
          body := body.(status := Intake, questions := []);
        } else {
          body := body.(status := WaitingInput);
          PublishQuestions(cv.questions);
        }
      } else if IsResult(cv.status) { PublishResult(cv); }
      else if cv.status == CaseCancelled { CloseRun(Cancelled); }
      else if cv.status == CaseInterrupted { CloseRun(Interrupted); }
      else if cv.status == CaseFailed { CloseRun(Failed); }
      else { body := body.(status := Running, questions := []); }
    }

    /** The projection of a Case on the loaded run; a closed run is left as it is. */
    method ProjectOnRun(cv: CaseView)
      modifies this
      ensures db == ProjectCase(old(State()), cv) && run == old(run)
    {
      if !Closed(body.status) {
        ProjectOpen(cv);
        Store();
      }
    }
  }

  /** What a caller sees of a transaction: it is in the tables as a whole, or it raised and nothing is. */
  predicate Commits(o: Outcome<Db>, before: Db, after: Db, error: Option<ErrorCode>) {
    if o.Ok? then error.None? && after == o.value else error == Some(o.code) && after == before
  }

  /** The store of one conversation. */
  class Store {
    var db: Db

    ghost predicate Valid()
      reads this
    {
      Inv(db)
    }

    constructor (epoch: Epoch)
      ensures Valid() && db == CreateConversation(epoch)
    {
      db := CreateConversation(epoch);
    }

    method SubmitMessage(q: Request, routed: Option<CommandKey>) returns (error: Option<ErrorCode>)
      requires Valid()
      modifies this
      ensures Valid() && Evolves(old(db), db) && (error.None? ==> HasRequest(db.messages, q.id))
      ensures old(db).current < |old(db).runs| && Commits(Submit(old(db), q, routed), old(db), db, error)
      ensures forall digest :: !old(db).deleted && Holds(old(db), q.id, digest) ==>
        db == old(db) && error == if q.digest == digest then None else Some(IdempotencyConflict)
      ensures NewRequest(old(db), q.id) && routed.None? ==>
        (error.None? <==> Welcome(old(db), q)) && (error.None? ==> Entered(old(db), db, q))
    {
      forall digest | !db.deleted && Holds(db, q.id, digest)
        ensures Submit(db, q, routed) == if q.digest == digest then Ok(db) else Err(IdempotencyConflict)
      {
        KnownMessage(db, q, routed, digest);
      }
      if NewRequest(db, q.id) { FreshSubmit(db, q); }
      KnownRequest(db, q, routed);
      SubmitStep(db, q, routed);
      EvolvesReflexive(db);
      hide InvBut, Evolves, HasRequest, Submit, Holds, Welcome, Entered, NewRequest;
      var result;
      error, result := Submitted(db, q, routed);
      db := result;
    }

    method Submitted(before: Db, q: Request, routed: Option<CommandKey>) returns (error: Option<ErrorCode>, after: Db)
      requires before.current < |before.runs|
      ensures Commits(Submit(before, q, routed), before, after, error)
    {
      hide RunMessages, CompleteRouted, AcceptMessage, Save;
      if before.deleted { return Some(NotFound), before; }
      var tx := new Transaction(before, before.current);
      var k := MessageOf(before.messages, q.id);
      if k < |before.messages| {
        return if before.messages[k].digest != q.digest then Some(IdempotencyConflict) else None, before;
      }
      if TargetChanged(tx.State(), q.digest.target) { return Some(RunChanged), before; }
      var r := RestartOf(before.restarts, q.id);
      if r < |before.restarts| {
        var rs := before.restarts[r];
        if rs.digest != q.digest { return Some(IdempotencyConflict), before; }
        if routed != Some(rs.key) || rs.status != RestartIsPending || rs.op != MarkLogsExpected {
          return Some(RestartPending), before;
        }
        if !Open(tx.State()) { return Some(ConversationClosed), before; }
        if rs.run != tx.run { return Some(RunChanged), before; }
        if !tx.body.selectedSkill { return Some(RouteChanged), before; }
      } else if routed.Some? {
        return Some(RunChanged), before;
      }
      if Closed(tx.body.status) || tx.body.report {
        if !q.digest.payload.hasText { return Some(ValidationError), before; }
        StartRun(tx);
      }
      if !Open(tx.State()) { return Some(ConversationClosed), before; }
      if !(q.digest.payload.attachments <= before.ready) { return Some(AttachmentNotReady), before; }
      if RunMessages(before.messages, tx.run) >= MESSAGE_LIMIT { return Some(MessageLimit), before; }
      Accept(tx, q);
      tx.Store();
      after := tx.db;
      if routed.Some? { after := after.(restarts := CompleteRouted(after.restarts, routed.value)); }
      return None, after;
    }

    /** A message to a finished run opens the next one. */
    method StartRun(tx: Transaction)
      modifies tx
      ensures tx.State() == NewRun(old(tx.State())) && db == old(db)
    {
      var body := FreshRun(tx.db.epoch);
      tx.run := |tx.db.runs|;
      tx.db := tx.db.(runs := tx.db.runs + [body], current := tx.run);
      tx.body := body;
      tx.Emit(RunStarted);
    }

    method Accept(tx: Transaction, q: Request)
      modifies tx
      ensures tx.State() == AcceptMessage(old(tx.State()), q) && db == old(db)
    {
      hide InsertMessage;
      var id := tx.db.nextId;
      tx.db := tx.db.(nextId := id + 1);
      tx.AddMessage(id, q.id, q.digest);
      if tx.body.caseStatus.None? || Waiting(tx.body.caseStatus.value) { tx.body := tx.body.(status := Intake); }
      tx.body := tx.body.(pending := true, questions := []);
    }

    /** The caller holds the message lock and has found no receipt; `key` is derived from run and request. */
    method FreezeRestart(q: Request, run: nat, caseId: CaseId, op: Operation, key: CommandKey, archive: Option<nat>)
      returns (error: Option<ErrorCode>)
      requires Valid() && !HasRequest(db.messages, q.id)
      requires RestartWithKey(db.restarts, key) == |db.restarts| || RestartOf(db.restarts, q.id) < |db.restarts|
      modifies this
      ensures Valid() && Evolves(old(db), db)
      ensures old(db).current < |old(db).runs|
              && Commits(Freeze(old(db), q, run, caseId, op, key, archive), old(db), db, error)
      ensures !old(db).deleted ==> forall i :: 0 <= i < |old(db).restarts| && old(db).restarts[i].request == q.id ==>
        && db == old(db) && (error.None? ==> old(db).restarts[i].digest == q.digest)
        && (error == Some(IdempotencyConflict) ==> old(db).restarts[i].digest != q.digest)
    {
      if !db.deleted {
        forall i | 0 <= i < |db.restarts| && db.restarts[i].request == q.id
          ensures var r := Freeze(db, q, run, caseId, op, key, archive);
                  && (r.Ok? ==> r.value == db && db.restarts[i].digest == q.digest)
                  && (r == Err(IdempotencyConflict) ==> db.restarts[i].digest != q.digest)
        {
          KnownFreeze(db, q, run, caseId, op, key, archive, i);
        }
      }
      IsValid(db);
      FreezeStep(db, q, run, caseId, op, key, archive);
      EvolvesReflexive(db);
      hide InvBut, Evolves, HasRequest, Freeze;
      var result;
      error, result := Frozen(db, q, run, caseId, op, key, archive);
      db := result;
    }

    method Frozen(before: Db, q: Request, run: nat, caseId: CaseId, op: Operation, key: CommandKey,
                  archive: Option<nat>)
      returns (error: Option<ErrorCode>, after: Db)
      requires before.current < |before.runs|
      ensures Commits(Freeze(before, q, run, caseId, op, key, archive), before, after, error)
    {
      hide LiveRestart, TargetChanged, Open, RunMessages;
      after := before;
      if before.deleted { return Some(NotFound), before; }
      var t := Load(before, before.current);
      if TargetChanged(t, q.digest.target) { return Some(RunChanged), before; }
      if !Open(t) { return Some(ConversationClosed), before; }
      if t.run != run || t.body.caseId != Some(caseId) { return Some(RunChanged), before; }
      var r := RestartOf(before.restarts, q.id);
      if r < |before.restarts| {
        return if before.restarts[r].digest != q.digest then Some(IdempotencyConflict) else None, before;
      }
      if LiveRestart(before.restarts, run) { return Some(RestartPending), before; }
      if op == RestartGeneric && archive.Some? && t.body.archive == archive { return Some(LogAlreadySelected), before; }
      if RunMessages(before.messages, run) >= MESSAGE_LIMIT { return Some(MessageLimit), before; }
      if !(q.digest.payload.attachments <= before.ready) { return Some(AttachmentNotReady), before; }
      var id := before.nextId;
      var row := Restart(q.id, run, q.digest, caseId, key, op, RestartIsPending, id, archive);
      return None, before.(nextId := id + 1, restarts := before.restarts + [row]);
    }

    /** A Case commit reaches the conversation inside the core's own transaction. */
    method ProjectCommit(cv: CaseView, records: set<Record>) returns (error: Option<ErrorCode>)
      requires Valid()
      requires var k := RunFor(db, cv.id, records);
               k < |db.runs| ==> Closed(db.runs[k].status) || Trusted(cv, db.runs[k])
      modifies this
      ensures Valid() && Evolves(old(db), db)
      ensures Commits(Project(old(db), cv, records), old(db), db, error)
      ensures var k := RunFor(old(db), cv.id, records);
              error.None? && k < |old(db).runs| && !Closed(old(db).runs[k].status) ==> ShowsCase(old(db), db, k, cv)
    {
      ProjectMeaning(db, cv, records);
      ProjectStep(db, cv, records);
      EvolvesReflexive(db);
      hide InvBut, Evolves, AcceptRestartsFrom, AcceptAdoptions, ProjectCase, ShowsCase;
      var k := RunFor(db, cv.id, records);
      if k == |db.runs| { return None; }
      var tx := new Transaction(db, k);
      tx.body := tx.body.(caseId := Some(cv.id));
      error := tx.AcceptRestarts(records, cv.id);
      if error.Some? { return; }
      error := tx.AcceptCommittedAdoptions(records, cv.id);
      if error.Some? { return; }
      tx.ProjectOnRun(cv);
      db := tx.db;
    }

    method AskStop(request: RequestId, run: nat) returns (error: Option<ErrorCode>)
      requires Valid()
      modifies this
      ensures Valid() && Evolves(old(db), db)
      ensures Commits(RequestStop(old(db), request, run), old(db), db, error)
      ensures !old(db).deleted && run < |old(db).runs| && StopKnown(old(db).stops, request) ==>
        db == old(db)
        && error == if exists i :: 0 <= i < |old(db).stops| && old(db).stops[i].request == request
                                   && old(db).stops[i].run == run then None else Some(IdempotencyConflict)
      ensures !old(db).deleted && run < |old(db).runs| && !StopKnown(old(db).stops, request) ==>
        error.None? && |db.runs| == |old(db).runs| && StopAsked(old(db), db, request, run)
    {
      if !db.deleted && run < |db.runs| && !StopKnown(db.stops, request) { FreshStop(db, request, run); }
      RequestStopStep(db, request, run);
      EvolvesReflexive(db);
      if StopKnown(db.stops, request) && !db.deleted && run < |db.runs| { AnswersKnown(db, request, run); }
      hide InvBut, Evolves, RequestStop, StopAsked;
      var result;
      error, result := Stopped(db, request, run);
      db := result;
    }

    method Stopped(before: Db, request: RequestId, run: nat) returns (error: Option<ErrorCode>, after: Db)
      ensures Commits(RequestStop(before, request, run), before, after, error)
    {
      hide StopKnown, MarkUnused, Save, Append;
      if before.deleted || run >= |before.runs| { return Some(NotFound), before; }
      if StopKnown(before.stops, request) {
        return if exists i :: 0 <= i < |before.stops| && before.stops[i].request == request
                              && before.stops[i].run == run
               then None else Some(IdempotencyConflict), before;
      }
      var tx := new Transaction(before, run);
      var ended := Closed(tx.body.status) || tx.body.report;
      var status := if tx.body.status == Cancelled then StopCancelled
                    else if ended then StopAlreadyFinished else StopCancelling;
      tx.db := tx.db.(stops := tx.db.stops + [Stop(request, run, status)]);
      if !ended { tx.StopRun(true); }
      return None, tx.db;
    }

    /** The caller has seen the run CANCELLING and has stopped its work. */
    method SettleStop(run: nat) returns (error: Option<ErrorCode>)
      requires Valid() && Stoppable(db, run)
      modifies this
      ensures Valid() && Evolves(old(db), db)
      ensures Commits(FinishStop(old(db), run), old(db), db, error)
    {
      FinishStopStep(db, run);
      EvolvesReflexive(db);
      hide InvBut, Evolves, FinishStop;
      var result;
      error, result := Settled(db, run);
      db := result;
    }

    method Settled(before: Db, run: nat) returns (error: Option<ErrorCode>, after: Db)
      ensures Commits(FinishStop(before, run), before, after, error)
    {
      hide Close, Save;
      if run >= |before.runs| { return Some(NotFound), before; }
      var tx := new Transaction(before, run);
      var status := if tx.body.report then StopAlreadyFinished else StopCancelled;
      if !tx.body.report { tx.CloseRun(Cancelled); }
      tx.body := tx.body.(stop := false);
      tx.Store();
      return None, tx.db.(stops := SettleStops(tx.db.stops, run, status));
    }

    method DeleteConversation()
      requires Valid()
      modifies this
      ensures Valid() && Evolves(old(db), db) && db == Delete(old(db)) && db.deleted
    {
      DeleteStep(db);
      hide InvBut, Evolves, Inv, DeleteRun;
      if db.deleted { return; }
      db := db.(deleted := true);
      var k := 0;
      while k < |db.runs|
        invariant DeleteFrom(db, k) == Delete(old(db))
      {
        db := DeleteOne(db, k);
        k := k + 1;
      }
    }

    method DeleteOne(before: Db, k: nat) returns (after: Db)
      requires k < |before.runs|
      ensures after == DeleteRun(before, k)
    {
      hide MarkUnused, Save;
      var tx := new Transaction(before, k);
      var unfinished := tx.body.caseId.Some?
                        && (tx.body.caseStatus.None? || CaseUnfinished(tx.body.caseStatus.value));
      if (!Closed(tx.body.status) || unfinished) && !tx.body.report { tx.StopRun(false); }
      after := tx.db;
    }

    method SettleIntake(run: nat, ids: set<MessageId>, questions: Option<seq<Question>>)
      returns (error: Option<ErrorCode>)
      requires Valid()
      modifies this
      ensures Valid() && Evolves(old(db), db)
      ensures Commits(FinishIntake(old(db), run, ids, questions), old(db), db, error)
    {
      FinishIntakeStep(db, run, ids, questions);
      EvolvesReflexive(db);
      hide InvBut, Evolves, IntakeSettled, Save, KnownMessages, Inv;
      if db.deleted || run >= |db.runs| { return Some(NotFound); }
      var tx := new Transaction(db, run);
      if Closed(tx.body.status) || tx.body.stop || tx.body.report { return None; }
      var covered := tx.body.covered + ids;
      if !(covered <= KnownMessages(db.messages, run)) { return Some(MessageNotFound); }
      tx.FinishBatch(covered, questions);
      tx.Store();
      db := tx.db;
      return None;
    }

    method RecoverOne(work: Db, k: nat, finished: map<CaseId, CaseView>, records: set<Record>)
      returns (error: Option<ErrorCode>, result: Db)
      requires k < |work.runs|
      ensures RecoverRun(work, k, finished, records) == if error.None? then Ok(result) else Err(error.value)
    {
      hide AcceptAdoptions, Projected, Close;
      var tx := new Transaction(work, k);
      if Closed(tx.body.status) || tx.body.epoch == work.epoch { return None, work; }
      if tx.body.caseId.Some? && tx.body.caseId.value in finished {
        var c := tx.body.caseId.value;
        var cv := finished[c];
        AdoptionsShell(tx.State(), records, c);
        error := tx.AcceptCommittedAdoptions(records, c);
        if error.Some? { return error, work; }
        tx.ProjectOnRun(cv);
      } else if !tx.body.stop && RunMessages(work.messages, k) > 0 {
        tx.CloseRun(Interrupted);
        tx.Store();
      }
      return None, StampEpoch(tx.db, k);
    }

    /** The service starts again under a new epoch; `finished` are the Cases the core ended. */
    method RecoverAll(epoch: Epoch, finished: map<CaseId, CaseView>, records: set<Record>)
      returns (error: Option<ErrorCode>)
      requires Valid() && TrustedAll(finished, db) && forall c :: c in finished ==> finished[c].id == c
      modifies this
      ensures Valid() && Evolves(old(db), db)
      ensures Commits(Recover(old(db), epoch, finished, records), old(db), db, error)
    {
      RecoverStep(db, epoch, finished, records);
      EvolvesReflexive(db);
      hide InvBut, Evolves, Recover;
      var result;
      error, result := RecoverRuns(db, epoch, finished, records);
      db := result;
    }

    method RecoverRuns(before: Db, epoch: Epoch, finished: map<CaseId, CaseView>, records: set<Record>)
      returns (error: Option<ErrorCode>, after: Db)
      ensures Commits(Recover(before, epoch, finished, records), before, after, error)
    {
      hide RecoverRun;
      after := before.(epoch := epoch);
      if before.deleted { return None, after; }
      var k := 0;
      while k < |after.runs|
        invariant Recover(before, epoch, finished, records) == RecoverFrom(after, k, finished, records)
        decreases |after.runs| - k
      {
        error, after := RecoverOne(after, k, finished, records);
        if error.Some? { return error, before; }
        k := k + 1;
      }
      return None, after;
    }
  }

  lemma IsValid(db: Db)
    requires Inv(db)
    ensures db.current < |db.runs|
  {}
}
