/**
 The conversation as the service drives it: any number of threads, each committing whole transactions,
 beside the core that commits Cases.  The theorems hold in every state of every run.
 */
module ConversationRuns {
  import opened Conversation
  import opened ConversationInvariant
  import opened ConversationSteps
  import opened ConversationControl

  /**
   `cases` and `records` are what the core has committed.  `sender` is the request whose sender holds the
   message lock after finding neither a receipt nor a frozen intent for it.  `settling` are the runs some
   control thread has read as CANCELLING and will settle.
   */
  datatype Sys = Sys(db: Db, cases: map<CaseId, CaseView>, records: set<Record>, sender: Option<RequestId>,
                     settling: set<nat>)

  datatype Step =
    | BeginSend(request: RequestId)
    | EndSend
    | DirectSubmit(q: Request)
    | RoutedSubmit(q: Request, key: CommandKey)
    | FreezeIntent(q: Request, run: nat, caseId: CaseId, op: Operation, key: CommandKey, archive: Option<nat>)
    | RetargetIntent(key: CommandKey, newKey: CommandKey)
    | RejectIntent(key: CommandKey)
    | CompleteIntent(key: CommandKey)
    | CommitCase(cv: CaseView, record: Option<Record>)
    | AskStop(request: RequestId, run: nat)
    | AskIdleStop(run: nat, idle: bool)
    | BeginSettle(run: nat)
    | FinishSettle(run: nat)
    | DeleteConversation
    | SettleIntake(run: nat, ids: set<MessageId>, questions: Option<seq<Question>>)
    | DraftIntake(run: nat, draft: nat, asked: seq<Question>, shown: RunStatus)
    | MarkMessage(run: nat, id: MessageId, status: MessageStatus)
    | BeginDispatch(run: nat, dispatch: DispatchId, op: Operation, key: CommandKey, batch: Option<seq<MessageId>>)
    | EndDispatch(dispatch: DispatchId, outcome: DispatchStatus)
    | Adopt(run: nat, id: MessageId, dispatch: DispatchId)
    | EndAdopt(run: nat, id: MessageId, accepted: bool)
    | AwaitCase(run: nat, key: CommandKey)
    | Emit(run: nat, event: EventKey, readied: set<nat>)
    | Fail(run: nat, interrupted: bool)
    | Restarted(epoch: Epoch)

  function Start(epoch: Epoch): Sys { Sys(CreateConversation(epoch), map[], {}, None, {}) }

  /** A transaction that raises leaves everything as it was. */
  function Commit(s: Sys, o: Outcome<Db>): Sys { if o.Ok? then s.(db := o.value) else s }

  function Finished(cases: map<CaseId, CaseView>): map<CaseId, CaseView> {
    map c | c in cases && !CaseUnfinished(cases[c].status) :: cases[c]
  }

  predicate IsCommandOf(rs: Restart, record: Record) { rs.op == record.op && rs.key == record.key }

  /** Who may do what; everything else about a step is decided inside its transaction. */
  ghost predicate Enabled(s: Sys, step: Step) {
    match step
    case BeginSend(_) => s.sender.None?
    case DirectSubmit(q) => s.sender == Some(q.id)
    case FreezeIntent(q, _, _, op, key, _) =>
      && s.sender == Some(q.id) && (op == RestartGeneric || op == MarkLogsExpected)
      && NewKey(s, key)
    // the new key is derived from the old one, which a thread that comes second no longer finds
    case RetargetIntent(key, newKey) => RestartWithKey(s.db.restarts, key) < |s.db.restarts| ==> NewKey(s, newKey)
    // a success is only reported for a command the core holds a receipt of
    case CompleteIntent(key) =>
      var r := RestartWithKey(s.db.restarts, key);
      r < |s.db.restarts| ==>
        Record(s.db.restarts[r].op, key, s.db.restarts[r].caseId) in s.records
    case CommitCase(cv, record) =>
      // the core: a result carries a report, a result stays a result, a command is accepted once, and a
      // frozen command is executed as it was frozen
      && (IsResult(cv.status) ==> cv.hasReport)
      && (cv.id in s.cases && IsResult(s.cases[cv.id].status) ==> IsResult(cv.status))
      && (record.Some? ==>
            && record.value.caseId == cv.id
            && (forall c :: Record(record.value.op, record.value.key, c) !in s.records)
            && (forall i :: 0 <= i < |s.db.restarts| && IsCommandOf(s.db.restarts[i], record.value) ==>
                  s.db.restarts[i].caseId == cv.id))
    case BeginSettle(run) => run < |s.db.runs| && s.db.runs[run].status == Cancelling
    // the one transaction whose caller has to look first; the service passes RUNNING
    case DraftIntake(run, _, _, status) => run < |s.db.runs| ==> MayShow(s.db.runs[run], status)
    // the creation of a Case is prepared for a message of the run
    case AwaitCase(run, _) => run < |s.db.runs| ==> Heard(s.db.messages, run)
    // every process has an epoch of its own
    case Restarted(epoch) => forall k :: 0 <= k < |s.db.runs| ==> s.db.runs[k].epoch != epoch
    case FinishSettle(run) => run in s.settling
    case _ => true
  }

  predicate Heard(messages: seq<Message>, run: nat) { exists i :: 0 <= i < |messages| && messages[i].run == run }

  /** A command key derived from this run and request, which nothing has used before. */
  ghost predicate NewKey(s: Sys, key: CommandKey) {
    && RestartWithKey(s.db.restarts, key) == |s.db.restarts|
    && forall op, c :: Record(op, key, c) !in s.records
  }

  function Apply(s: Sys, step: Step): Sys
    requires s.db.current < |s.db.runs|
  {
    match step
    case BeginSend(q) =>
      if HasRequest(s.db.messages, q) || RestartOf(s.db.restarts, q) < |s.db.restarts| then s
      else s.(sender := Some(q))
    case EndSend => s.(sender := None)
    case DirectSubmit(q) => Commit(s, Submit(s.db, q, None)).(sender := None)
    case RoutedSubmit(q, key) => Commit(s, Submit(s.db, q, Some(key)))
    case FreezeIntent(q, run, caseId, op, key, archive) =>
      Commit(s, Freeze(s.db, q, run, caseId, op, key, archive)).(sender := None)
    case RetargetIntent(key, newKey) => Commit(s, Retarget(s.db, key, newKey))
    case RejectIntent(key) => s.(db := FinishRestart(s.db, key, true))
    case CompleteIntent(key) => s.(db := FinishRestart(s.db, key, false))
    case CommitCase(cv, record) =>
      var records := if record.Some? then s.records + {record.value} else s.records;
      var o := Project(s.db, cv, records);
      if o.Ok? then s.(db := o.value, cases := s.cases[cv.id := cv], records := records) else s
    case AskStop(request, run) => Commit(s, RequestStop(s.db, request, run))
    case AskIdleStop(run, idle) => Commit(s, RequestIdleStop(s.db, run, idle))
    case BeginSettle(run) => s.(settling := s.settling + {run})
    case FinishSettle(run) => Commit(s, FinishStop(s.db, run)).(settling := s.settling - {run})
    case DeleteConversation => s.(db := Delete(s.db))
    case SettleIntake(run, ids, questions) => Commit(s, FinishIntake(s.db, run, ids, questions))
    case DraftIntake(run, draft, questions, status) => Commit(s, UpdateIntake(s.db, run, draft, questions, status))
    case MarkMessage(run, id, status) => Commit(s, SetMessageStatus(s.db, run, id, status))
    case BeginDispatch(run, id, op, key, batch) => Commit(s, RecordDispatch(s.db, run, id, op, key, batch))
    case EndDispatch(id, status) => s.(db := CompleteDispatch(s.db, id, status))
    case Adopt(run, id, dispatch) => Commit(s, BeginAdoption(s.db, run, id, dispatch))
    case EndAdopt(run, id, accepted) => Commit(s, FinishAdoption(s.db, run, id, accepted))
    case AwaitCase(run, key) => Commit(s, ExpectCase(s.db, run, key))
    case Emit(run, key, readied) => Commit(s, AppendEvent(s.db, run, key, readied))
    case Fail(run, interrupted) => Commit(s, FailRun(s.db, run, interrupted))
    case Restarted(epoch) =>
      var o := Recover(s.db, epoch, Finished(s.cases), s.records);
      if o.Ok? then Sys(o.value, Finished(s.cases), s.records, None, {}) else s
  }

  // ----- the invariant of the system -----

  /** Case and creation key of a run, and the frozen intents, tied to what the core has accepted. */
  ghost predicate Bound(db: Db, records: set<Record>) {
    && (forall j, k :: 0 <= j < k < |db.runs| && db.runs[j].caseId.Some? ==> db.runs[j].caseId != db.runs[k].caseId)
    && (forall k :: 0 <= k < |db.runs| && db.runs[k].caseId.Some? ==>
          db.runs[k].createKey.Some?
          && Record(CreateCase, db.runs[k].createKey.value, db.runs[k].caseId.value) in records)
    && (forall i :: 0 <= i < |db.restarts| && db.restarts[i].run < |db.runs| ==>
          db.runs[db.restarts[i].run].caseId == Some(db.restarts[i].caseId))
  }

  /** A command that is still pending has not been accepted by the core. */
  ghost predicate Unaccepted(restarts: seq<Restart>, records: set<Record>) {
    forall i :: 0 <= i < |restarts| && restarts[i].status == RestartIsPending ==>
      Record(restarts[i].op, restarts[i].key, restarts[i].caseId) !in records
  }

  ghost predicate Functional(records: set<Record>) {
    forall a, b :: a in records && b in records && a.op == b.op && a.key == b.key ==> a == b
  }

  ghost predicate CasesOk(db: Db, cases: map<CaseId, CaseView>) {
    && (forall c :: c in cases ==> cases[c].id == c && (IsResult(cases[c].status) ==> cases[c].hasReport))
    && (forall k :: 0 <= k < |db.runs| && db.runs[k].report ==>
          db.runs[k].caseId.Some? && db.runs[k].caseId.value in cases
          && IsResult(cases[db.runs[k].caseId.value].status))
  }

  ghost predicate LockOk(s: Sys) {
    s.sender.Some? ==>
      !HasRequest(s.db.messages, s.sender.value) && RestartOf(s.db.restarts, s.sender.value) == |s.db.restarts|
  }

  ghost predicate SettlingOk(s: Sys) { forall r :: r in s.settling ==> r < |s.db.runs| && Stoppable(s.db, r) }

  ghost predicate SysInv(s: Sys) {
    && Inv(s.db) && Bound(s.db, s.records) && Unaccepted(s.db.restarts, s.records) && Functional(s.records)
    && CasesOk(s.db, s.cases) && LockOk(s) && SettlingOk(s)
  }

  // ----- what a transaction leaves alone -----

  /** Case bindings, reports and intents are untouched; a run that is new starts empty. */
  ghost predicate Keeps(a: Db, b: Db) {
    && |a.runs| <= |b.runs| && b.restarts == a.restarts
    && (forall k :: 0 <= k < |a.runs| ==>
          && b.runs[k].caseId == a.runs[k].caseId && b.runs[k].createKey == a.runs[k].createKey
          && (b.runs[k].report ==> a.runs[k].report))
    && (forall k :: |a.runs| <= k < |b.runs| ==>
          b.runs[k].caseId.None? && b.runs[k].createKey.None? && !b.runs[k].report)
  }

  ghost predicate SameMessages(a: Db, b: Db) { |b.messages| == |a.messages| }

  lemma KeepsBound(a: Db, b: Db, records: set<Record>, cases: map<CaseId, CaseView>)
    requires RowsOk(a) && Keeps(a, b) && Bound(a, records) && CasesOk(a, cases)
    ensures Bound(b, records) && CasesOk(b, cases)
  {}

  lemma SaveKeeps(db: Db, k: nat, u: Tx)
    requires k < |db.runs| && SameRows(Load(db, k), u)
    requires var b := db.runs[k];
             u.body.caseId == b.caseId && u.body.createKey == b.createKey && (u.body.report ==> b.report)
    ensures Keeps(db, Save(u)) && SameMessages(db, Save(u))
  {}

  lemma RequestStopKeeps(db: Db, request: RequestId, run: nat)
    requires RowsOk(db)
    ensures var r := RequestStop(db, request, run); r.Ok? ==> Keeps(db, r.value) && SameMessages(db, r.value)
  {}

  lemma IdleStopKeeps(db: Db, run: nat, idle: bool)
    requires RowsOk(db)
    ensures var r := RequestIdleStop(db, run, idle); r.Ok? ==> Keeps(db, r.value) && SameMessages(db, r.value)
  {}

  lemma FinishStopKeeps(db: Db, run: nat)
    requires RowsOk(db)
    ensures var r := FinishStop(db, run); r.Ok? ==> Keeps(db, r.value) && SameMessages(db, r.value)
  {
    hide Save, Close;
    if run < |db.runs| {
      var t := Load(db, run);
      var t1 := if t.body.report then t else Close(t, Cancelled);
      SaveKeeps(db, run, t1.(body := t1.body.(stop := false)));
    }
  }

  lemma FinishIntakeKeeps(db: Db, run: nat, ids: set<MessageId>, questions: Option<seq<Question>>)
    requires RowsOk(db)
    ensures var r := FinishIntake(db, run, ids, questions); r.Ok? ==> Keeps(db, r.value) && SameMessages(db, r.value)
  {
    hide IntakeSettled, Save, Uncovered;
    if run < |db.runs| { SaveKeeps(db, run, IntakeSettled(Load(db, run), db.runs[run].covered + ids, questions)); }
  }

  lemma MarkMessageKeeps(db: Db, run: nat, id: MessageId, status: MessageStatus)
    requires RowsOk(db)
    ensures var r := SetMessageStatus(db, run, id, status); r.Ok? ==> Keeps(db, r.value) && SameMessages(db, r.value)
  {
    hide Finalize, Save;
    var k := MessageAt(db.messages, run, id);
    if run < |db.runs| && k < |db.messages| { SaveKeeps(db, run, Finalize(Load(db, run), k, status)); }
  }

  lemma EndAdoptKeeps(db: Db, run: nat, id: MessageId, accepted: bool)
    requires RowsOk(db)
    ensures var r := FinishAdoption(db, run, id, accepted); r.Ok? ==> Keeps(db, r.value) && SameMessages(db, r.value)
  {
    hide Finalize, Save;
    var k := MessageAt(db.messages, run, id);
    if run < |db.runs| && k < |db.messages| {
      SaveKeeps(db, run, Finalize(Load(db, run), k, if accepted then Applied else Unused));
    }
  }

  lemma FailKeeps(db: Db, run: nat, interrupted: bool)
    requires RowsOk(db)
    ensures var r := FailRun(db, run, interrupted); r.Ok? ==> Keeps(db, r.value) && SameMessages(db, r.value)
  {
    hide Save, Close;
    if run < |db.runs| { SaveKeeps(db, run, Close(Load(db, run), if interrupted then Interrupted else Failed)); }
  }

  lemma DeleteRunKeeps(db: Db, k: nat)
    requires k < |db.runs|
    ensures Keeps(db, DeleteRun(db, k)) && SameMessages(db, DeleteRun(db, k))
  {}

  lemma {:induction false} DeleteFromKeeps(db: Db, k: nat)
    ensures Keeps(db, DeleteFrom(db, k)) && SameMessages(db, DeleteFrom(db, k))
    decreases |db.runs| - k
  {
    if k < |db.runs| {
      DeleteRunKeeps(db, k);
      DeleteFromKeeps(DeleteRun(db, k), k + 1);
    }
  }

  // ----- the database steps that leave intents and bindings alone -----

  lemma SameRequest(a: Db, b: Db, q: RequestId)
    requires Evolves(a, b) && |b.messages| == |a.messages|
    ensures HasRequest(b.messages, q) ==> HasRequest(a.messages, q)
  {}

  lemma SettlingEvolves(s: Sys, b: Db)
    requires SettlingOk(s) && Evolves(s.db, b)
    ensures SettlingOk(s.(db := b))
  {}

  lemma Quiet(s: Sys, b: Db)
    requires SysInv(s) && Inv(b) && Evolves(s.db, b) && Keeps(s.db, b) && SameMessages(s.db, b)
    ensures SysInv(s.(db := b))
  {
    KeepsBound(s.db, b, s.records, s.cases);
    SettlingEvolves(s, b);
    if s.sender.Some? { SameRequest(s.db, b, s.sender.value); }
    hide InvBut, Evolves, Keeps, Bound, CasesOk, Unaccepted, Functional, SettlingOk, HasRequest;
  }

  /** Steps that only rewrite the intents. */
  lemma IntentsOnly(s: Sys, b: Db)
    requires SysInv(s) && Inv(b) && Evolves(s.db, b) && b == s.db.(restarts := b.restarts, nextId := b.nextId)
    requires Unaccepted(b.restarts, s.records)
    requires forall i :: 0 <= i < |b.restarts| ==>
      b.restarts[i].run < |b.runs| && b.runs[b.restarts[i].run].caseId == Some(b.restarts[i].caseId)
    requires s.sender.Some? ==> forall i :: 0 <= i < |b.restarts| ==> b.restarts[i].request != s.sender.value
    ensures SysInv(s.(db := b))
  {
    SettlingEvolves(s, b);
    hide InvBut, Evolves, Unaccepted, Functional, SettlingOk, HasRequest, RestartOf;
    assert s.sender.Some? ==> RestartOf(b.restarts, s.sender.value) == |b.restarts|;
  }
}
