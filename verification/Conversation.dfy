/**
 The durable tables of one conversation and the transactions that change them.

 `Db` is the committed content of the tables.  `Tx` is what one open transaction works on: the tables
 with its own writes, and the run body it loaded into memory, which carries its own copy of the last
 event number and reaches the tables only through `Save`.  A transaction that raises is an `Err`, and
 then nothing of it is kept.
 */
module Conversation {

  datatype Option<+T> = None | Some(value: T)

  datatype Outcome<+T> = Ok(value: T) | Err(code: ErrorCode)

  datatype ErrorCode =
    | NotFound | IdempotencyConflict | RunChanged | RestartPending | RouteChanged | ConversationClosed
    | ValidationError | AttachmentNotReady | MessageLimit | LogAlreadySelected | MessageNotFound
    | MessageFinalized | AdoptionInvalid | AdoptionConflict | DispatchNotFound | DispatchInterrupted
    | CaseAlreadyBound

  type RequestId = nat
  type MessageId = nat
  type CaseId = nat
  type CommandKey = nat
  type Epoch = nat
  type Question = nat

  datatype RunStatus =
    | Intake | WaitingInput | Running | Cancelling | Completed | Failed | Interrupted | Cancelled

  predicate Closed(s: RunStatus) {
    s == Completed || s == Failed || s == Interrupted || s == Cancelled
  }

  datatype CaseStatus =
    | CaseNew | CaseRunning | CaseWaitingInput | CaseWaitingAttachment | CaseReviewing
    | Resolved | PartiallyResolved | Unresolved | CaseFailed | CaseCancelled | CaseInterrupted

  predicate Waiting(s: CaseStatus) { s == CaseWaitingInput || s == CaseWaitingAttachment }

  predicate IsResult(s: CaseStatus) { s == Resolved || s == PartiallyResolved || s == Unresolved }

  predicate CaseUnfinished(s: CaseStatus) {
    !IsResult(s) && s != CaseFailed && s != CaseCancelled && s != CaseInterrupted
  }

  datatype ArchiveStatus = NotRequired | ArchivePending | ArchiveReady | ArchiveFailed

  datatype MessageStatus = Queued | Processing | Applied | Unused

  predicate Final(s: MessageStatus) { s == Applied || s == Unused }

  datatype StopStatus = StopCancelling | StopCancelled | StopAlreadyFinished

  datatype RestartStatus = RestartIsPending | RestartCommitted | RestartCompleted | RestartRejected

  predicate Live(s: RestartStatus) { s == RestartIsPending || s == RestartCommitted }

  datatype DispatchStatus = DispatchPending | DispatchCompleted | DispatchFailed | DispatchInterruptedStatus

  datatype Operation =
    | CreateCase | SubmitSupplement | PrepareAttachment | IntakeCall | RestartGeneric | MarkLogsExpected | CancelCase

  /** The dedupe key of an event; together with the run it identifies the event. */
  datatype EventKey =
    | RunStarted
    | MessageAccepted(id: MessageId)
    | MessageUpdated(id: MessageId, status: MessageStatus)
    | RunStopping
    | CaseUpdated(revision: nat)
    | QuestionsAsked(asOf: Option<nat>, covered: set<MessageId>, questions: seq<Question>)
    | DraftQuestions(draft: nat, questions: seq<Question>)
    | ResultAvailable
    | ArchiveUpdated(archive: ArchiveStatus)
    | RunInterrupted
    | RunFailed
    | RunCompleted
    | Progress(mark: nat)
    | AttachmentUpdated(mark: nat)

  datatype Event = Event(sequence: nat, run: nat, key: EventKey)

  datatype Message = Message(id: MessageId, request: RequestId, digest: Fingerprint, run: nat,
                             status: MessageStatus, receipt: nat)

  /** Request content that decides branches: whether its text is non-blank and which attachments it names. */
  datatype Payload = Payload(content: nat, hasText: bool, attachments: set<nat>)

  /** The digest of a request, kept as the value it digests: equal prints, equal requests. */
  datatype Fingerprint = Fingerprint(payload: Payload, target: Option<nat>)

  datatype Request = Request(id: RequestId, digest: Fingerprint)

  datatype Restart = Restart(request: RequestId, run: nat, digest: Fingerprint, caseId: CaseId, key: CommandKey,
                             op: Operation, status: RestartStatus, message: MessageId, archive: Option<nat>)

  datatype Stop = Stop(request: RequestId, run: nat, status: StopStatus)

  /** One identifier a command label or intake message of a run. */
  datatype DispatchId = CommandId(runOf: nat, name: nat) | IntakeId(runOf: nat, message: MessageId)

  datatype Dispatch = Dispatch(id: DispatchId, run: nat, epoch: Epoch, status: DispatchStatus, op: Operation,
                               key: CommandKey, batch: Option<seq<MessageId>>)

  /** The body of a run. */
  datatype Run = Run(status: RunStatus, caseId: Option<CaseId>, caseStatus: Option<CaseStatus>,
                     selectedSkill: bool, questions: seq<Question>, authoritative: seq<Question>,
                     asOf: Option<nat>, report: bool, stop: bool, pending: bool, covered: set<MessageId>,
                     archive: Option<nat>, createKey: Option<CommandKey>, epoch: Epoch)

  function FreshRun(epoch: Epoch): Run {
    Run(Intake, None, None, false, [], [], None, false, false, false, {}, None, None, epoch)
  }

  datatype Db = Db(runs: seq<Run>, current: nat, head: Run, headLast: nat, events: seq<Event>,
                   messages: seq<Message>, stops: seq<Stop>, restarts: seq<Restart>,
                   dispatches: seq<Dispatch>, adoptions: map<MessageId, DispatchId>, ready: set<nat>,
                   deleted: bool, nextId: nat, epoch: Epoch)

  /** What a Case commit hands to the projection. */
  datatype CaseView = CaseView(id: CaseId, revision: nat, status: CaseStatus, archive: ArchiveStatus,
                               hasReport: bool, selectedSkill: bool, questions: seq<Question>)

  /** A business receipt held by the core. */
  datatype Record = Record(op: Operation, key: CommandKey, caseId: CaseId)

  function CreateConversation(epoch: Epoch): Db {
    Db([FreshRun(epoch)], 0, FreshRun(epoch), 0, [], [], [], [], [], map[], {}, false, 0, epoch)
  }

  // ----- lookups -----

  predicate HasEvent(events: seq<Event>, run: nat, key: EventKey) {
    exists i :: 0 <= i < |events| && events[i].run == run && events[i].key == key
  }

  predicate HasRequest(messages: seq<Message>, request: RequestId) {
    exists i :: 0 <= i < |messages| && messages[i].request == request
  }

  /** Index of the row, or the length when there is none. */
  function MessageOf(messages: seq<Message>, request: RequestId): (k: nat)
    ensures k <= |messages|
    ensures k < |messages| ==> messages[k].request == request
    ensures k == |messages| ==> !HasRequest(messages, request)
  {
    if messages == [] then 0
    else if messages[0].request == request then 0
    else
      var k := MessageOf(messages[1..], request);
      assert forall i :: 0 < i < |messages| ==> messages[i] == messages[1..][i - 1];
      1 + k
  }

  function MessageAt(messages: seq<Message>, run: nat, id: MessageId): (k: nat)
    ensures k <= |messages|
    ensures k < |messages| ==> messages[k].id == id && messages[k].run == run
    ensures k == |messages| ==> forall i :: 0 <= i < |messages| ==> !(messages[i].id == id && messages[i].run == run)
  {
    if messages == [] then 0
    else if messages[0].id == id && messages[0].run == run then 0
    else
      var k := MessageAt(messages[1..], run, id);
      assert forall i :: 0 < i < |messages| ==> messages[i] == messages[1..][i - 1];
      1 + k
  }

  function RestartOf(restarts: seq<Restart>, request: RequestId): (k: nat)
    ensures k <= |restarts|
    ensures k < |restarts| ==> restarts[k].request == request
    ensures k == |restarts| ==> forall i :: 0 <= i < |restarts| ==> restarts[i].request != request
  {
    if restarts == [] then 0
    else if restarts[0].request == request then 0
    else
      var k := RestartOf(restarts[1..], request);
      assert forall i :: 0 < i < |restarts| ==> restarts[i] == restarts[1..][i - 1];
      1 + k
  }

  function RestartWithKey(restarts: seq<Restart>, key: CommandKey): (k: nat)
    ensures k <= |restarts|
    ensures k < |restarts| ==> restarts[k].key == key
    ensures k == |restarts| ==> forall i :: 0 <= i < |restarts| ==> restarts[i].key != key
  {
    if restarts == [] then 0
    else if restarts[0].key == key then 0
    else
      var k := RestartWithKey(restarts[1..], key);
      assert forall i :: 0 < i < |restarts| ==> restarts[i] == restarts[1..][i - 1];
      1 + k
  }

  function DispatchWithId(dispatches: seq<Dispatch>, id: DispatchId): (k: nat)
    ensures k <= |dispatches|
    ensures k < |dispatches| ==> dispatches[k].id == id
    ensures k == |dispatches| ==> forall i :: 0 <= i < |dispatches| ==> dispatches[i].id != id
  {
    if dispatches == [] then 0
    else if dispatches[0].id == id then 0
    else
      var k := DispatchWithId(dispatches[1..], id);
      assert forall i :: 0 < i < |dispatches| ==> dispatches[i] == dispatches[1..][i - 1];
      1 + k
  }

  function RunOfCase(runs: seq<Run>, c: CaseId): (k: nat)
    ensures k <= |runs|
    ensures k < |runs| ==> runs[k].caseId == Some(c)
    ensures k == |runs| ==> forall i :: 0 <= i < |runs| ==> runs[i].caseId != Some(c)
  {
    if runs == [] then 0
    else if runs[0].caseId == Some(c) then 0
    else
      var k := RunOfCase(runs[1..], c);
      assert forall i :: 0 < i < |runs| ==> runs[i] == runs[1..][i - 1];
      1 + k
  }

  function RunOfCreate(runs: seq<Run>, c: CaseId, records: set<Record>): (k: nat)
    ensures k <= |runs|
    ensures k < |runs| ==> runs[k].createKey.Some? && Record(CreateCase, runs[k].createKey.value, c) in records
  {
    if runs == [] then 0
    else if runs[0].createKey.Some? && Record(CreateCase, runs[0].createKey.value, c) in records then 0
    else 1 + RunOfCreate(runs[1..], c, records)
  }

  function RunMessages(messages: seq<Message>, run: nat): nat {
    if messages == [] then 0
    else (if messages[0].run == run then 1 else 0) + RunMessages(messages[1..], run)
  }

  predicate LiveRestart(restarts: seq<Restart>, run: nat) {
    exists i :: 0 <= i < |restarts| && restarts[i].run == run && Live(restarts[i].status)
  }

  predicate PendingMessage(messages: seq<Message>, run: nat) {
    exists i :: 0 <= i < |messages| && messages[i].run == run && !Final(messages[i].status)
  }

  // ----- pieces of a transaction -----

  datatype Tx = Tx(db: Db, run: nat, body: Run, last: nat)

  function Load(db: Db, run: nat): Tx
    requires run < |db.runs|
  {
    Tx(db, run, db.runs[run], db.headLast)
  }

  function Max(a: nat, b: nat): nat { if a < b then b else a }

  /** `u` is `t` after changes to events, message statuses and adoptions only. */
  predicate SameShell(t: Tx, u: Tx) {
    && u.run == t.run && u.body == t.body && |u.db.messages| == |t.db.messages|
    && u.db == t.db.(events := u.db.events, messages := u.db.messages, adoptions := u.db.adoptions)
  }

  /** Like `SameShell`, but the body and the statuses of stop receipts may have changed too. */
  predicate SameRows(t: Tx, u: Tx) {
    && u.run == t.run && |u.db.messages| == |t.db.messages| && |u.db.stops| == |t.db.stops|
    && u.db == t.db.(events := u.db.events, messages := u.db.messages, adoptions := u.db.adoptions,
                     stops := u.db.stops)
  }

  function Append(t: Tx, key: EventKey): (u: Tx)
    ensures SameShell(t, u) && u.db.messages == t.db.messages
  {
    if HasEvent(t.db.events, t.run, key) then t
    else
      var sequence := Max(t.last, t.db.headLast) + 1;
      t.(db := t.db.(events := t.db.events + [Event(sequence, t.run, key)]), last := sequence)
  }

  /** Writes the body to its run row, and to the conversation row when the run is the current one. */
  function Save(t: Tx): Db {
    var db := if t.run < |t.db.runs| then t.db.(runs := t.db.runs[t.run := t.body]) else t.db;
    if db.current == t.run then db.(head := t.body, headLast := t.last)
    else db.(headLast := Max(db.headLast, t.last))
  }

  predicate Open(t: Tx) {
    !t.db.deleted && !t.body.stop && !Closed(t.body.status) && !t.body.report
  }

  predicate TargetChanged(t: Tx, target: Option<nat>) {
    target.Some? && (target.value != t.run || Closed(t.body.status) || t.body.report)
  }

  function Finalize(t: Tx, k: nat, status: MessageStatus): (u: Tx)
    requires k < |t.db.messages|
    ensures SameShell(t, u)
  {
    var m := t.db.messages[k];
    Append(t.(db := t.db.(messages := t.db.messages[k := m.(status := status)])), MessageUpdated(m.id, status))
  }

  /** One step of the loop that gives up the unfinished messages of the run. */
  function GiveUp(t: Tx, k: nat): Tx
    requires k < |t.db.messages|
  {
    var m := t.db.messages[k];
    if m.run != t.run then t
    else
      var t1 := if Final(m.status) then t else Finalize(t, k, Unused);
      t1.(db := t1.db.(adoptions := t1.db.adoptions - {m.id}))
  }

  function MarkUnusedFrom(t: Tx, k: nat): (u: Tx)
    requires k <= |t.db.messages|
    ensures SameShell(t, u)
    decreases |t.db.messages| - k
  {
    if k == |t.db.messages| then t else MarkUnusedFrom(GiveUp(t, k), k + 1)
  }

  function MarkUnused(t: Tx): Tx { MarkUnusedFrom(t, 0) }

  function Close(t: Tx, status: RunStatus): (u: Tx)
    ensures SameRows(t, u) && u.body == t.body.(status := status, pending := false, questions := [])
  {
    var t1 := MarkUnused(t.(body := t.body.(status := status, pending := false, questions := [])));
    var t2 := if status == Interrupted then Append(t1, RunInterrupted)
              else if status == Failed then Append(t1, RunFailed) else t1;
    Append(t2, RunCompleted)
  }

  function SettleStops(stops: seq<Stop>, run: nat, status: StopStatus): (r: seq<Stop>)
    ensures |r| == |stops|
    ensures forall i :: 0 <= i < |r| ==>
      r[i] == if stops[i].run == run then stops[i].(status := status) else stops[i]
  {
    if stops == [] then []
    else
      [if stops[0].run == run then stops[0].(status := status) else stops[0]] + SettleStops(stops[1..], run, status)
  }

  function Publish(t: Tx, questions: seq<Question>): (u: Tx)
    ensures SameRows(t, u) && u.body == t.body.(questions := questions)
  {
    if t.body.questions == questions then t
    else
      var t1 := t.(body := t.body.(questions := questions));
      if questions == [] then t1
      else Append(t1, QuestionsAsked(t1.body.asOf, t1.body.covered, questions))
  }

  function InsertMessage(t: Tx, id: MessageId, request: RequestId, digest: Fingerprint): Tx {
    var t1 := Append(t, MessageAccepted(id));
    t1.(db := t1.db.(messages := t1.db.messages + [Message(id, request, digest, t.run, Queued, t1.last)]))
  }

  function NewRun(t: Tx): Tx {
    var body := FreshRun(t.db.epoch);
    var run := |t.db.runs|;
    Append(Tx(t.db.(runs := t.db.runs + [body], current := run), run, body, t.last), RunStarted)
  }

  // ----- sending -----

  const MESSAGE_LIMIT := 200

  /** The checks before a message is accepted; `Ok(None)` means this request already has its receipt. */
  function SubmitTarget(db: Db, q: Request, routed: Option<CommandKey>): Outcome<Option<Tx>>
    requires db.current < |db.runs|
  {
    if db.deleted then Err(NotFound) else
    var t := Load(db, db.current);
    var k := MessageOf(db.messages, q.id);
    if k < |db.messages| then
      if db.messages[k].digest != q.digest then Err(IdempotencyConflict) else Ok(None)
    else if TargetChanged(t, q.digest.target) then Err(RunChanged)
    else
      var r := RestartOf(db.restarts, q.id);
      if r < |db.restarts| && db.restarts[r].digest != q.digest then Err(IdempotencyConflict)
      else if r < |db.restarts|
           && (routed != Some(db.restarts[r].key) || db.restarts[r].status != RestartIsPending
               || db.restarts[r].op != MarkLogsExpected) then Err(RestartPending)
      else if r < |db.restarts| && !Open(t) then Err(ConversationClosed)
      else if r < |db.restarts| && db.restarts[r].run != t.run then Err(RunChanged)
      else if r < |db.restarts| && !t.body.selectedSkill then Err(RouteChanged)
      else if r == |db.restarts| && routed.Some? then Err(RunChanged)
      else if (Closed(t.body.status) || t.body.report) && !q.digest.payload.hasText then Err(ValidationError)
      else
        var t1 := if Closed(t.body.status) || t.body.report then NewRun(t) else t;
        if !Open(t1) then Err(ConversationClosed)
        else if !(q.digest.payload.attachments <= db.ready) then Err(AttachmentNotReady)
        else if RunMessages(db.messages, t1.run) >= MESSAGE_LIMIT then Err(MessageLimit)
        else Ok(Some(t1))
  }

  function AcceptMessage(t: Tx, q: Request): Tx {
    var t1 := InsertMessage(t.(db := t.db.(nextId := t.db.nextId + 1)), t.db.nextId, q.id, q.digest);
    var idle := t1.body.caseStatus.None? || Waiting(t1.body.caseStatus.value);
    t1.(body := t1.body.(pending := true, questions := [], status := if idle then Intake else t1.body.status))
  }

  function CompleteRouted(restarts: seq<Restart>, key: CommandKey): seq<Restart> {
    var r := RestartWithKey(restarts, key);
    if r < |restarts| && restarts[r].status == RestartIsPending
    then restarts[r := restarts[r].(status := RestartCompleted)] else restarts
  }

  function Submit(db: Db, q: Request, routed: Option<CommandKey>): Outcome<Db>
    requires db.current < |db.runs|
  {
    match SubmitTarget(db, q, routed)
    case Err(code) => Err(code)
    case Ok(None) => Ok(db)
    case Ok(Some(t)) =>
      var db1 := Save(AcceptMessage(t, q));
      Ok(if routed.Some? then db1.(restarts := CompleteRouted(db1.restarts, routed.value)) else db1)
  }

  function Freeze(db: Db, q: Request, run: nat, caseId: CaseId, op: Operation, key: CommandKey,
                  archive: Option<nat>): Outcome<Db>
    requires db.current < |db.runs|
  {
    if db.deleted then Err(NotFound) else
    var t := Load(db, db.current);
    if TargetChanged(t, q.digest.target) then Err(RunChanged)
    else if !Open(t) then Err(ConversationClosed)
    else if t.run != run || t.body.caseId != Some(caseId) then Err(RunChanged)
    else
      var r := RestartOf(db.restarts, q.id);
      if r < |db.restarts| then
        if db.restarts[r].digest != q.digest then Err(IdempotencyConflict) else Ok(db)
      else if LiveRestart(db.restarts, run) then Err(RestartPending)
      else if op == RestartGeneric && archive.Some? && t.body.archive == archive then Err(LogAlreadySelected)
      else if RunMessages(db.messages, run) >= MESSAGE_LIMIT then Err(MessageLimit)
      else if !(q.digest.payload.attachments <= db.ready) then Err(AttachmentNotReady)
      else Ok(db.(restarts := db.restarts
                  + [Restart(q.id, run, q.digest, caseId, key, op, RestartIsPending, db.nextId, archive)],
                  nextId := db.nextId + 1))
  }

  function Retarget(db: Db, key: CommandKey, newKey: CommandKey): Outcome<Db> {
    var r := RestartWithKey(db.restarts, key);
    if r == |db.restarts| || db.restarts[r].status != RestartIsPending then Err(RunChanged)
    else if db.restarts[r].op != MarkLogsExpected then Err(RunChanged)
    else if db.deleted || db.restarts[r].run >= |db.runs| then Err(NotFound)
    else if !Open(Load(db, db.restarts[r].run)) then Err(ConversationClosed)
    else Ok(db.(restarts := db.restarts[r := db.restarts[r].(op := RestartGeneric, key := newKey)]))
  }

  function FinishRestart(db: Db, key: CommandKey, rejected: bool): Db {
    var r := RestartWithKey(db.restarts, key);
    if r == |db.restarts| || !Live(db.restarts[r].status) then db
    else db.(restarts := db.restarts[r := db.restarts[r].(
           status := if rejected then RestartRejected else RestartCompleted)])
  }

  // ----- projecting a Case commit -----

  predicate Accepts(rs: Restart, run: nat, records: set<Record>, caseId: CaseId) {
    rs.run == run && rs.status == RestartIsPending && Record(rs.op, rs.key, caseId) in records
  }

  function AcceptRestart(t: Tx, k: nat): Tx
    requires k < |t.db.restarts|
  {
    var rs := t.db.restarts[k];
    var t1 := InsertMessage(t, rs.message, rs.request, rs.digest);
    t1.(db := t1.db.(restarts := t1.db.restarts[k := rs.(status := RestartCommitted)]),
        body := t1.body.(pending := true, questions := [], archive := rs.archive))
  }

  function AcceptRestartsFrom(t: Tx, records: set<Record>, caseId: CaseId, k: nat): Outcome<Tx>
    requires k <= |t.db.restarts|
    decreases |t.db.restarts| - k
  {
    if k == |t.db.restarts| then Ok(t)
    else if !Accepts(t.db.restarts[k], t.run, records, caseId) then AcceptRestartsFrom(t, records, caseId, k + 1)
    else if !Open(t) then Err(ConversationClosed)
    else AcceptRestartsFrom(AcceptRestart(t, k), records, caseId, k + 1)
  }

  function ApplyBatch(t: Tx, ids: seq<MessageId>): (r: Outcome<Tx>)
    ensures r.Ok? ==> SameShell(t, r.value)
    decreases ids
  {
    if ids == [] then Ok(t)
    else
      var k := MessageAt(t.db.messages, t.run, ids[0]);
      if k == |t.db.messages| then Err(MessageNotFound)
      else ApplyBatch(if Final(t.db.messages[k].status) then t else Finalize(t, k, Applied), ids[1..])
  }

  function ApplyBatchesFrom(t: Tx, records: set<Record>, caseId: CaseId, k: nat): (r: Outcome<Tx>)
    requires k <= |t.db.dispatches|
    ensures r.Ok? ==> SameShell(t, r.value)
    decreases |t.db.dispatches| - k
  {
    if k == |t.db.dispatches| then Ok(t)
    else
      var d := t.db.dispatches[k];
      if d.run != t.run || d.batch.None? || d.op != SubmitSupplement || Record(d.op, d.key, caseId) !in records
      then ApplyBatchesFrom(t, records, caseId, k + 1)
      else
        match ApplyBatch(t, d.batch.value)
        case Err(code) => Err(code)
        case Ok(t1) => ApplyBatchesFrom(t1, records, caseId, k + 1)
  }

  function AdoptOne(t: Tx, records: set<Record>, caseId: CaseId, k: nat): Tx
    requires k < |t.db.messages|
  {
    var m := t.db.messages[k];
    if m.run != t.run || m.id !in t.db.adoptions then t
    else
      var d := DispatchWithId(t.db.dispatches, t.db.adoptions[m.id]);
      if d == |t.db.dispatches| || t.db.dispatches[d].run != t.run
         || Record(t.db.dispatches[d].op, t.db.dispatches[d].key, caseId) !in records then t
      else
        var t1 := if Final(m.status) then t else Finalize(t, k, Applied);
        t1.(db := t1.db.(adoptions := t1.db.adoptions - {m.id}))
  }

  function AdoptFrom(t: Tx, records: set<Record>, caseId: CaseId, k: nat): (u: Tx)
    requires k <= |t.db.messages|
    ensures SameShell(t, u)
    decreases |t.db.messages| - k
  {
    if k == |t.db.messages| then t else AdoptFrom(AdoptOne(t, records, caseId, k), records, caseId, k + 1)
  }

  function AcceptAdoptions(t: Tx, records: set<Record>, caseId: CaseId): Outcome<Tx> {
    match ApplyBatchesFrom(t, records, caseId, 0)
    case Err(code) => Err(code)
    case Ok(t1) => Ok(AdoptFrom(t1, records, caseId, 0))
  }

  /** The report branch of a projection, before the archive is looked at. */
  function PublishReport(t: Tx): (u: Tx)
    ensures SameRows(t, u) && u.body == t.body.(report := true, stop := false, pending := false, questions := [])
  {
    var t1 := t.(body := t.body.(report := true, stop := false, pending := false, questions := []),
                 db := t.db.(stops := SettleStops(t.db.stops, t.run, StopAlreadyFinished)));
    MarkUnused(Append(t1, ResultAvailable))
  }

  function ProjectWaiting(t: Tx, cv: CaseView): (u: Tx)
    ensures SameRows(t, u) && u.body.caseId == t.body.caseId && u.body.caseStatus == t.body.caseStatus
    ensures u.body.createKey == t.body.createKey && u.body.report == t.body.report
  {
    var t1 := t.(body := t.body.(authoritative := cv.questions, asOf := Some(cv.revision)));
    if t1.body.pending then t1.(body := t1.body.(status := Intake, questions := []))
    else Publish(t1.(body := t1.body.(status := WaitingInput)), cv.questions)
  }

  function ProjectResult(t: Tx, cv: CaseView): (u: Tx)
    ensures SameRows(t, u) && u.body.caseId == t.body.caseId && u.body.caseStatus == t.body.caseStatus
    ensures u.body.createKey == t.body.createKey
  {
    var t1 := Append(if cv.hasReport then PublishReport(t) else t, ArchiveUpdated(cv.archive));
    if cv.archive != ArchivePending then Close(t1, Completed) else t1.(body := t1.body.(status := Running))
  }

  /** What a projection makes of the body of a run that is not closed. */
  function Projected(t: Tx, cv: CaseView): (u: Tx)
    ensures SameRows(t, u) && u.body.caseId == Some(cv.id) && u.body.caseStatus == Some(cv.status)
    ensures u.body.createKey == t.body.createKey && (u.body.report ==> t.body.report || IsResult(cv.status))
  {
    var t1 := Append(t.(body := t.body.(caseId := Some(cv.id), caseStatus := Some(cv.status),
                                        selectedSkill := cv.selectedSkill)), CaseUpdated(cv.revision));
    if t1.body.stop && !IsResult(cv.status) then
      t1.(body := t1.body.(status := Cancelling, pending := false, questions := []))
    else if Waiting(cv.status) then ProjectWaiting(t1, cv)
    else if IsResult(cv.status) then ProjectResult(t1, cv)
    else if cv.status == CaseCancelled then Close(t1, Cancelled)
    else if cv.status == CaseInterrupted then Close(t1, Interrupted)
    else if cv.status == CaseFailed then Close(t1, Failed)
    else t1.(body := t1.body.(status := Running, questions := []))
  }

  /** A closed run ignores the projection: whatever its transaction appended is kept, its body is not saved. */
  function ProjectCase(t: Tx, cv: CaseView): Db {
    if Closed(t.body.status) then t.db else Save(Projected(t, cv))
  }

  /** The run a Case belongs to: the one bound to it, else the one whose creation request the core recorded. */
  function RunFor(db: Db, c: CaseId, records: set<Record>): (k: nat)
    ensures k <= |db.runs|
  {
    var k := RunOfCase(db.runs, c);
    if k < |db.runs| then k else RunOfCreate(db.runs, c, records)
  }

  function Project(db: Db, cv: CaseView, records: set<Record>): Outcome<Db> {
    var k := RunFor(db, cv.id, records);
    if k == |db.runs| then Ok(db)
    else
      var t0 := Load(db, k);
      var t := t0.(body := t0.body.(caseId := Some(cv.id)));
      match AcceptRestartsFrom(t, records, cv.id, 0)
      case Err(code) => Err(code)
      case Ok(t1) =>
        match AcceptAdoptions(t1, records, cv.id)
        case Err(code) => Err(code)
        case Ok(t2) => Ok(ProjectCase(t2, cv))
  }

  // ----- stopping and deleting -----

  predicate StopKnown(stops: seq<Stop>, request: RequestId) {
    exists i :: 0 <= i < |stops| && stops[i].request == request
  }

  function RequestStop(db: Db, request: RequestId, run: nat): Outcome<Db> {
    if db.deleted || run >= |db.runs| then Err(NotFound)
    else if StopKnown(db.stops, request) then
      if exists i :: 0 <= i < |db.stops| && db.stops[i].request == request && db.stops[i].run == run
      then Ok(db) else Err(IdempotencyConflict)
    else
      var t := Load(db, run);
      var ended := Closed(t.body.status) || t.body.report;
      var status := if t.body.status == Cancelled then StopCancelled
                    else if ended then StopAlreadyFinished else StopCancelling;
      var t1 := t.(db := db.(stops := db.stops + [Stop(request, run, status)]));
      if ended then Ok(t1.db)
      else
        var t2 := t1.(body := t1.body.(stop := true, status := Cancelling, pending := false, questions := []));
        Ok(Save(Append(MarkUnused(t2), RunStopping)))
  }

  predicate IdleStoppable(db: Db, run: nat) {
    && !db.deleted && run < |db.runs| && db.current == run
    && db.runs[run].status == WaitingInput && !db.runs[run].pending && !db.runs[run].report && !db.runs[run].stop
    && !PendingMessage(db.messages, run) && !LiveRestart(db.restarts, run)
  }

  /** `idle` says that the last business activity is not after the cutoff. */
  function RequestIdleStop(db: Db, run: nat, idle: bool): Outcome<Db> {
    if db.deleted || run >= |db.runs| then Err(NotFound)
    else if !IdleStoppable(db, run) || !idle then Ok(db)
    else
      var t := Load(db, run);
      Ok(Save(Append(t.(body := t.body.(stop := true, status := Cancelling, pending := false, questions := [])),
                     RunStopping)))
  }

  function FinishStop(db: Db, run: nat): Outcome<Db> {
    if run >= |db.runs| then Err(NotFound)
    else
      var t := Load(db, run);
      var status := if t.body.report then StopAlreadyFinished else StopCancelled;
      var t1 := if t.body.report then t else Close(t, Cancelled);
      var db1 := Save(t1.(body := t1.body.(stop := false)));
      Ok(db1.(stops := SettleStops(db1.stops, run, status)))
  }

  function DeleteRun(db: Db, k: nat): (r: Db)
    requires k < |db.runs|
    ensures |r.runs| == |db.runs|
  {
    var t := Load(db, k);
    var unfinished := t.body.caseId.Some? && (t.body.caseStatus.None? || CaseUnfinished(t.body.caseStatus.value));
    if (!Closed(t.body.status) || unfinished) && !t.body.report then
      Save(MarkUnused(t.(body := t.body.(stop := true, status := Cancelling, pending := false, questions := []))))
    else db
  }

  function DeleteFrom(db: Db, k: nat): Db
    decreases |db.runs| - k
  {
    if k >= |db.runs| then db else DeleteFrom(DeleteRun(db, k), k + 1)
  }

  function Delete(db: Db): Db {
    if db.deleted then db else DeleteFrom(db.(deleted := true), 0)
  }

  // ----- intake -----

  function KnownMessages(messages: seq<Message>, run: nat): (r: set<MessageId>)
    ensures forall id :: id in r <==> exists i :: 0 <= i < |messages| && messages[i].run == run && messages[i].id == id
  {
    set i | 0 <= i < |messages| && messages[i].run == run :: messages[i].id
  }

  predicate Uncovered(messages: seq<Message>, run: nat, covered: set<MessageId>) {
    exists i :: 0 <= i < |messages| && messages[i].run == run && messages[i].status != Unused
                && messages[i].id !in covered
  }

  /** What is still unread after this batch decides whether the run asks its questions. */
  function IntakeSettled(t: Tx, covered: set<MessageId>, questions: Option<seq<Question>>): (u: Tx)
    ensures SameRows(t, u)
    ensures u.body == t.body.(covered := covered, pending := u.body.pending, status := u.body.status,
                              questions := u.body.questions)
  {
    var pending := Uncovered(t.db.messages, t.run, covered);
    var waiting := t.body.caseStatus.Some? && Waiting(t.body.caseStatus.value);
    var t1 := t.(body := t.body.(covered := covered, pending := pending));
    if pending then
      t1.(body := t1.body.(questions := [],
                           status := if waiting || t.body.caseId.None? then Intake else t.body.status))
    else if waiting || (questions.Some? && t.body.caseId.None?) then
      Publish(t1.(body := t1.body.(status := WaitingInput)),
              if questions.Some? then questions.value else t.body.authoritative)
    else if t.body.caseId.Some? then t1.(body := t1.body.(status := Running, questions := []))
    else t1
  }

  function FinishIntake(db: Db, run: nat, ids: set<MessageId>, questions: Option<seq<Question>>): Outcome<Db> {
    if db.deleted || run >= |db.runs| then Err(NotFound)
    else
      var t := Load(db, run);
      if Closed(t.body.status) || t.body.stop || t.body.report then Ok(db)
      else
        var covered := t.body.covered + ids;
        if !(covered <= KnownMessages(db.messages, run)) then Err(MessageNotFound)
        else
          Ok(Save(IntakeSettled(t, covered, questions)))
  }

  function UpdateIntake(db: Db, run: nat, draft: nat, questions: seq<Question>, status: RunStatus): Outcome<Db> {
    if db.deleted || run >= |db.runs| then Err(NotFound)
    else
      var t := Load(db, run);
      if !Open(t) then Err(ConversationClosed)
      else if status != Intake && status != WaitingInput && status != Running then Err(ValidationError)
      else
        var t1 := t.(body := t.body.(
          questions := if t.body.pending then [] else questions,
          status := if t.body.pending && status == WaitingInput then Intake else status));
        Ok(Save(if questions != [] && !t.body.pending then Append(t1, DraftQuestions(draft, questions)) else t1))
  }

  function SetMessageStatus(db: Db, run: nat, id: MessageId, status: MessageStatus): Outcome<Db> {
    if db.deleted || run >= |db.runs| then Err(NotFound)
    else
      var t := Load(db, run);
      var k := MessageAt(db.messages, run, id);
      if status == Queued then Err(ValidationError)
      else if k == |db.messages| then Err(MessageNotFound)
      else if db.messages[k].status == status then Ok(db)
      else if Final(db.messages[k].status) then Err(MessageFinalized)
      else if !Open(t) then Err(ConversationClosed)
      else Ok(Save(Finalize(t, k, status)))
  }

  // ----- dispatch ledger and adoptions -----

  /** A new dispatch enters the ledger as PENDING; one recorded before is returned as it is, if still ours. */
  function Recorded(ds: seq<Dispatch>, d: Dispatch, open: bool): Outcome<seq<Dispatch>> {
    var k := DispatchWithId(ds, d.id);
    if k < |ds| then
      if ds[k].run != d.run || ds[k].op != d.op || ds[k].key != d.key || ds[k].batch != d.batch
      then Err(IdempotencyConflict)
      else if ds[k].epoch != d.epoch && ds[k].status != DispatchCompleted then Err(DispatchInterrupted)
      else Ok(ds)
    else if !open then Err(ConversationClosed)
    else Ok(ds + [d.(status := DispatchPending)])
  }

  /** Only the epoch that recorded a dispatch can end it, and only once. */
  function Ended(ds: seq<Dispatch>, id: DispatchId, epoch: Epoch, status: DispatchStatus): (r: seq<Dispatch>)
    ensures |r| == |ds|
  {
    var k := DispatchWithId(ds, id);
    if k < |ds| && ds[k].epoch == epoch && ds[k].status == DispatchPending
    then ds[k := ds[k].(status := status)] else ds
  }

  function RecordDispatch(db: Db, run: nat, id: DispatchId, op: Operation, key: CommandKey,
                          batch: Option<seq<MessageId>>): Outcome<Db> {
    if db.deleted || run >= |db.runs| then Err(NotFound)
    else
      match Recorded(db.dispatches, Dispatch(id, run, db.epoch, DispatchPending, op, key, batch), Open(Load(db, run)))
      case Err(code) => Err(code)
      case Ok(ds) => Ok(db.(dispatches := ds))
  }

  function CompleteDispatch(db: Db, id: DispatchId, status: DispatchStatus): Db {
    db.(dispatches := Ended(db.dispatches, id, db.epoch, status))
  }

  function BeginAdoption(db: Db, run: nat, id: MessageId, dispatch: DispatchId): Outcome<Db> {
    if db.deleted || run >= |db.runs| then Err(NotFound)
    else
      var t := Load(db, run);
      var d := DispatchWithId(db.dispatches, dispatch);
      var k := MessageAt(db.messages, run, id);
      if d == |db.dispatches| || db.dispatches[d].run != run || db.dispatches[d].epoch != db.epoch
      then Err(DispatchNotFound)
      else if db.dispatches[d].op != CreateCase && db.dispatches[d].op != SubmitSupplement then Err(AdoptionInvalid)
      else if k == |db.messages| then Err(MessageNotFound)
      else if db.messages[k].status == Applied then Ok(db)
      else if db.messages[k].status != Processing then Err(AdoptionInvalid)
      else if !Open(t) then Err(ConversationClosed)
      else if id in db.adoptions && db.adoptions[id] != dispatch then Err(AdoptionConflict)
      else Ok(db.(adoptions := db.adoptions[id := dispatch]))
  }

  function FinishAdoption(db: Db, run: nat, id: MessageId, accepted: bool): Outcome<Db> {
    if db.deleted || run >= |db.runs| then Err(NotFound)
    else
      var t := Load(db, run);
      var k := MessageAt(db.messages, run, id);
      if k == |db.messages| then Err(MessageNotFound)
      else if Final(db.messages[k].status) then Ok(db.(adoptions := db.adoptions - {id}))
      else if id !in db.adoptions then Err(AdoptionInvalid)
      else
        var db1 := Save(Finalize(t, k, if accepted then Applied else Unused));
        Ok(db1.(adoptions := db1.adoptions - {id}))
  }

  function ExpectCase(db: Db, run: nat, key: CommandKey): Outcome<Db> {
    if db.deleted || run >= |db.runs| then Err(NotFound)
    else if !Open(Load(db, run)) then Err(ConversationClosed)
    else if db.runs[run].createKey.Some? && db.runs[run].createKey != Some(key) then Err(CaseAlreadyBound)
    else
      var body := db.runs[run].(createKey := Some(key));
      Ok(db.(runs := db.runs[run := body], head := if db.current == run then body else db.head))
  }

  // ----- events, failures and restarts of the service -----

  /** A progress or attachment event; attachments of a closed run still report, progress does not. */
  function AppendEvent(db: Db, run: nat, key: EventKey, readied: set<nat>): Outcome<Db> {
    if db.deleted || run >= |db.runs| then Err(NotFound)
    else if !key.Progress? && !key.AttachmentUpdated? then Err(ValidationError)
    else
      var t := Load(db, run);
      if key.Progress? && !Open(t) then Err(ConversationClosed)
      else
        var db1 := Save(Append(t, key));
        Ok(if key.AttachmentUpdated? then db1.(ready := db1.ready + readied) else db1)
  }

  function FailRun(db: Db, run: nat, interrupted: bool): Outcome<Db> {
    if db.deleted || run >= |db.runs| then Err(NotFound)
    else
      var t := Load(db, run);
      if Closed(t.body.status) || t.body.stop || t.body.report then Ok(db)
      else Ok(Save(Close(t, if interrupted then Interrupted else Failed)))
  }

  function StampEpoch(db: Db, k: nat): Db
    requires k < |db.runs|
  {
    var body := db.runs[k].(epoch := db.epoch);
    db.(runs := db.runs[k := body], head := if db.current == k then body else db.head,
        dispatches := InterruptDispatches(db.dispatches, k, db.epoch))
  }

  function InterruptDispatches(ds: seq<Dispatch>, run: nat, epoch: Epoch): (r: seq<Dispatch>)
    ensures |r| == |ds|
  {
    if ds == [] then []
    else
      var d := ds[0];
      [if d.run == run && d.status == DispatchPending && d.epoch != epoch
       then d.(status := DispatchInterruptedStatus) else d] + InterruptDispatches(ds[1..], run, epoch)
  }

  /** Recovery of one run: adopt what its finished Case says, else interrupt it if it ever had a message. */
  function RecoverRun(db: Db, k: nat, finished: map<CaseId, CaseView>, records: set<Record>): (r: Outcome<Db>)
    requires k < |db.runs|
    ensures r.Ok? ==> |r.value.runs| == |db.runs|
  {
    var t := Load(db, k);
    if Closed(t.body.status) || t.body.epoch == db.epoch then Ok(db)
    else if t.body.caseId.Some? && t.body.caseId.value in finished then
      match AcceptAdoptions(t, records, t.body.caseId.value)
      case Err(code) => Err(code)
      case Ok(t1) =>
        var db1 := ProjectCase(t1, finished[t.body.caseId.value]);
        Ok(StampEpoch(db1, k))
    else if !t.body.stop && RunMessages(db.messages, k) > 0 then
      var db1 := Save(Close(t, Interrupted));
      Ok(StampEpoch(db1, k))
    else Ok(StampEpoch(db, k))
  }

  function RecoverFrom(db: Db, k: nat, finished: map<CaseId, CaseView>, records: set<Record>): Outcome<Db>
    decreases |db.runs| - k
  {
    if k >= |db.runs| then Ok(db)
    else
      match RecoverRun(db, k, finished, records)
      case Err(code) => Err(code)
      case Ok(db1) => RecoverFrom(db1, k + 1, finished, records)
  }

  /** The service comes back under a new epoch. */
  function Recover(db: Db, epoch: Epoch, finished: map<CaseId, CaseView>, records: set<Record>): Outcome<Db> {
    var db1 := db.(epoch := epoch);
    if db.deleted then Ok(db1) else RecoverFrom(db1, 0, finished, records)
  }
}
