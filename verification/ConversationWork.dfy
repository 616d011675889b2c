/**
 What the transactions of the workers and control threads do, each from the rows it finds: the end of an intake batch,
 the idle stop, intents, message statuses, the dispatch ledger and adoptions.
 */
module ConversationWork {
  import opened Conversation
  import opened ConversationInvariant
  import opened ConversationSteps
  import opened ConversationReceipts

  // ----- intake -----

  predicate IsOf(messages: seq<Message>, run: nat, id: MessageId) {
    exists i :: 0 <= i < |messages| && messages[i].run == run && messages[i].id == id
  }

  /** A message of the run that was neither given up nor covered. */
  predicate Unread(messages: seq<Message>, run: nat, covered: set<MessageId>) {
    exists i :: 0 <= i < |messages| && messages[i].run == run && messages[i].status != Unused
                && messages[i].id !in covered
  }

  predicate CaseWaits(b: Run) {
    b.caseStatus == Some(CaseWaitingInput) || b.caseStatus == Some(CaseWaitingAttachment)
  }

  /** What the end of a batch makes of the run: it goes on reading, asks, works on, or stays as it is. */
  predicate AfterBatch(a: Run, b: Run, unread: bool, questions: Option<seq<Question>>) {
    && b.pending == unread
    && (if unread then
          b.questions == [] && b.status == (if CaseWaits(a) || a.caseId.None? then Intake else a.status)
        else if CaseWaits(a) || (a.caseId.None? && questions.Some?) then
          b.status == WaitingInput && b.questions == (if questions.Some? then questions.value else a.authoritative)
        else if a.caseId.Some? then b.status == Running && b.questions == []
        else b.status == a.status && b.questions == a.questions)
  }

  /** A batch is settled iff the run takes input and all it covers are messages of the run. */
  lemma IntakeMeaning(db: Db, run: nat, ids: set<MessageId>, questions: Option<seq<Question>>)
    requires !db.deleted && run < |db.runs|
    ensures var r := FinishIntake(db, run, ids, questions); var a := db.runs[run]; var covered := a.covered + ids;
            && (HasEnded(a) || a.stop ==> r == Ok(db))
            && (!HasEnded(a) && !a.stop ==>
                  && (r.Ok? <==> forall id :: id in covered ==> IsOf(db.messages, run, id))
                  && (r.Err? ==> r.code == MessageNotFound)
                  && (r.Ok? ==>
                        && |r.value.runs| == |db.runs| && r.value.messages == db.messages
                        && (forall k :: 0 <= k < |db.runs| && k != run ==> r.value.runs[k] == db.runs[k])
                        && r.value.runs[run]
                           == a.(covered := covered, pending := r.value.runs[run].pending,
                                 status := r.value.runs[run].status, questions := r.value.runs[run].questions)
                        && AfterBatch(a, r.value.runs[run], Unread(db.messages, run, covered), questions)))
  {
    hide IntakeSettled, AfterBatch, Unread;
    var covered := db.runs[run].covered + ids;
    SettledBatch(Load(db, run), covered, questions);
  }

  lemma SettledBatch(t: Tx, covered: set<MessageId>, questions: Option<seq<Question>>)
    ensures var u := IntakeSettled(t, covered, questions);
            u.db.messages == t.db.messages
            && AfterBatch(t.body, u.body, Unread(t.db.messages, t.run, covered), questions)
  {
    hide HasEvent, Append;
  }

  // ----- the idle stop -----

  /** Nothing is going on in the run: it is the current one, waits, and has no unfinished message or intent. */
  predicate Idle(db: Db, run: nat) {
    && db.current == run && run < |db.runs|
    && db.runs[run].status == WaitingInput && !db.runs[run].pending && !db.runs[run].report && !db.runs[run].stop
    && (forall i :: 0 <= i < |db.messages| && db.messages[i].run == run ==>
          db.messages[i].status == Applied || db.messages[i].status == Unused)
    && (forall i :: 0 <= i < |db.restarts| && db.restarts[i].run == run ==>
          db.restarts[i].status == RestartCompleted || db.restarts[i].status == RestartRejected)
  }

  lemma IdleStopMeaning(db: Db, run: nat, idle: bool)
    requires !db.deleted && run < |db.runs|
    ensures var r := RequestIdleStop(db, run, idle);
            && r.Ok? && (!(idle && Idle(db, run)) ==> r.value == db)
            && (idle && Idle(db, run) ==>
                  && |r.value.runs| == |db.runs| && r.value.stops == db.stops && r.value.messages == db.messages
                  && r.value.runs[run]
                     == db.runs[run].(stop := true, status := Cancelling, pending := false, questions := [])
                  && HasEvent(r.value.events, run, RunStopping))
  {
    if idle && Idle(db, run) {
      var t := Load(db, run);
      var t1 := t.(body := t.body.(stop := true, status := Cancelling, pending := false, questions := []));
      ConversationReceipts.Announced(t1, RunStopping);
      hide HasEvent, Append;
    }
  }

  // ----- intents -----

  lemma UniqueKey(db: Db, i: nat)
    requires Inv(db) && i < |db.restarts|
    ensures RestartWithKey(db.restarts, db.restarts[i].key) == i
  {
    UniqueKeys(db);
    hide Inv;
  }

  /** An intent follows the Case once: only as the pending wish to wait for logs, in a run that takes input. */
  lemma RetargetMeaning(db: Db, i: nat, newKey: CommandKey)
    requires Inv(db) && !db.deleted && i < |db.restarts|
    ensures db.restarts[i].run < |db.runs|
    ensures var rs := db.restarts[i]; var r := Retarget(db, rs.key, newKey); var b := db.runs[rs.run];
            && (r.Ok? <==> rs.status == RestartIsPending && rs.op == MarkLogsExpected && !HasEnded(b) && !b.stop)
            && (r == Err(RunChanged) <==> rs.status != RestartIsPending || rs.op != MarkLogsExpected)
            && (r.Ok? ==> r.value == db.(restarts := db.restarts[i := rs.(op := RestartGeneric, key := newKey)]))
  {
    UniqueKey(db, i);
    hide RestartWithKey;
  }

  /** An intent that is still live ends as reported; one that has ended keeps its end. */
  lemma FinishMeaning(db: Db, i: nat, rejected: bool)
    requires Inv(db) && i < |db.restarts|
    ensures var rs := db.restarts[i]; var live := rs.status == RestartIsPending || rs.status == RestartCommitted;
            FinishRestart(db, rs.key, rejected)
            == if live
               then db.(restarts := db.restarts[i :=
                          rs.(status := if rejected then RestartRejected else RestartCompleted)])
               else db
  {
    UniqueKey(db, i);
    hide Inv, RestartWithKey;
  }

  // ----- messages -----

  lemma UniqueMessage(db: Db, run: nat, i: nat)
    requires Inv(db) && i < |db.messages|
    ensures MessageAt(db.messages, db.messages[i].run, db.messages[i].id) == i
  {
    assert forall a, b :: 0 <= a < b < |db.messages| ==> db.messages[a].id != db.messages[b].id;
    hide Inv;
  }

  /** A message moves to the status it is told, never back to QUEUED and never out of a final one. */
  lemma MarkMeaning(db: Db, i: nat, status: MessageStatus)
    requires Inv(db) && !db.deleted && i < |db.messages|
    ensures db.messages[i].run < |db.runs|
    ensures var m := db.messages[i]; var r := SetMessageStatus(db, m.run, m.id, status); var b := db.runs[m.run];
            && (r.Ok? <==> status != Queued
                           && (m.status == status
                               || (m.status != Applied && m.status != Unused && !HasEnded(b) && !b.stop)))
            && (r.Ok? ==>
                  r.value.messages == db.messages[i := m.(status := status)] && r.value.runs == db.runs
                  && r.value.adoptions == db.adoptions)
  {
    UniqueMessage(db, db.messages[i].run, i);
    hide HasEvent, MessageAt, Append;
    var m := db.messages[i];
    assert db.runs[m.run := db.runs[m.run]] == db.runs;
  }

  // ----- the ledger -----

  /** The same command: run, operation, key and batch agree. */
  predicate SameCommand(a: Dispatch, b: Dispatch) {
    a.run == b.run && a.op == b.op && a.key == b.key && a.batch == b.batch
  }

  ghost predicate OneEach(ds: seq<Dispatch>) { forall i, j :: 0 <= i < j < |ds| ==> ds[i].id != ds[j].id }

  lemma {:induction false} UniqueDispatch(ds: seq<Dispatch>, i: nat)
    requires OneEach(ds) && i < |ds|
    ensures DispatchWithId(ds, ds[i].id) == i
  {}

  /** A dispatch is recorded once: again it is only read, by its own epoch or once it has completed. */
  lemma RecordMeaning(ds: seq<Dispatch>, d: Dispatch, open: bool)
    requires OneEach(ds)
    ensures var r := Recorded(ds, d, open);
            && ((forall i :: 0 <= i < |ds| ==> ds[i].id != d.id) ==>
                  r == if open then Ok(ds + [d.(status := DispatchPending)]) else Err(ConversationClosed))
            && (forall i :: 0 <= i < |ds| && ds[i].id == d.id ==>
                  r == if !SameCommand(ds[i], d) then Err(IdempotencyConflict)
                       else if ds[i].epoch == d.epoch || ds[i].status == DispatchCompleted then Ok(ds)
                       else Err(DispatchInterrupted))
            && (r.Ok? ==> OneEach(r.value))
  {
    forall i | 0 <= i < |ds| && ds[i].id == d.id ensures DispatchWithId(ds, d.id) == i { UniqueDispatch(ds, i); }
    hide DispatchWithId;
  }

  /** Only the epoch that recorded a dispatch ends it, and only while it is pending. */
  lemma EndedMeaning(ds: seq<Dispatch>, i: nat, epoch: Epoch, status: DispatchStatus)
    requires OneEach(ds) && i < |ds|
    ensures Ended(ds, ds[i].id, epoch, status)
            == if ds[i].epoch == epoch && ds[i].status == DispatchPending then ds[i := ds[i].(status := status)] else ds
  {
    UniqueDispatch(ds, i);
    hide DispatchWithId;
  }

  /** Recovery interrupts what other epochs have left pending in the run, and nothing else. */
  lemma {:induction false} InterruptMeaning(ds: seq<Dispatch>, run: nat, epoch: Epoch, i: nat)
    requires i < |ds|
    ensures InterruptDispatches(ds, run, epoch)[i]
            == if ds[i].run == run && ds[i].status == DispatchPending && ds[i].epoch != epoch
               then ds[i].(status := DispatchInterruptedStatus) else ds[i]
  {
    if i > 0 { InterruptMeaning(ds[1..], run, epoch, i - 1); }
  }

  /** A message in work is tied to one dispatch of its run and epoch, which creates or supplements a Case. */
  lemma AdoptMeaning(db: Db, i: nat, k: nat)
    requires Inv(db) && OneEach(db.dispatches) && !db.deleted && i < |db.messages| && k < |db.dispatches|
    ensures db.messages[i].run < |db.runs|
    ensures var m, d := db.messages[i], db.dispatches[k]; var b := db.runs[m.run];
            var r := BeginAdoption(db, m.run, m.id, d.id);
            var fits := d.run == m.run && d.epoch == db.epoch && (d.op == CreateCase || d.op == SubmitSupplement);
            && (r.Ok? <==> fits && (m.status == Applied
                                    || (m.status == Processing && !HasEnded(b) && !b.stop
                                        && (m.id in db.adoptions ==> db.adoptions[m.id] == d.id))))
            && (r.Ok? ==> r.value == if m.status == Applied then db
                                     else db.(adoptions := db.adoptions[m.id := d.id]))
  {
    UniqueMessage(db, db.messages[i].run, i);
    UniqueDispatch(db.dispatches, k);
    hide MessageAt, DispatchWithId;
  }

  /** Progress is shown while the run takes input, attachments always; both under their own key and only once. */
  lemma EmitMeaning(db: Db, run: nat, key: EventKey, readied: set<nat>)
    requires !db.deleted && run < |db.runs|
    ensures var r := AppendEvent(db, run, key, readied); var b := db.runs[run];
            && (r.Ok? <==> key.AttachmentUpdated? || (key.Progress? && !HasEnded(b) && !b.stop))
            && (r.Ok? ==>
                  && HasEvent(r.value.events, run, key) && r.value.messages == db.messages && r.value.runs == db.runs
                  && (HasEvent(db.events, run, key) ==> r.value.events == db.events)
                  && r.value.ready == (if key.AttachmentUpdated? then db.ready + readied else db.ready))
  {
    ConversationReceipts.Announced(Load(db, run), key);
    hide HasEvent;
    assert db.runs[run := db.runs[run]] == db.runs;
  }

  /** The key under which the Case of a run will be created is fixed once, while the run takes input. */
  lemma ExpectMeaning(db: Db, run: nat, key: CommandKey)
    requires !db.deleted && run < |db.runs|
    ensures var r := ExpectCase(db, run, key); var b := db.runs[run];
            && (r.Ok? <==> !HasEnded(b) && !b.stop && (b.createKey == None || b.createKey == Some(key)))
            && (r.Ok? ==>
                  && |r.value.runs| == |db.runs| && r.value.runs[run] == b.(createKey := Some(key))
                  && r.value.messages == db.messages && r.value.events == db.events)
  {}
}
