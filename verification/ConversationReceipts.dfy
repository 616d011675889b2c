/**
 Which sends are answered with a receipt and which with a conflict: a request identifier stands for one content, on the
 direct path, on the frozen path and for stops, and what a new message does to the tables.
 */
module ConversationReceipts {
  import opened Conversation
  import opened ConversationInvariant
  import opened ConversationSteps
  import opened ConversationControl
  import opened ConversationRuns
  import opened ConversationSafety
  import opened ConversationTheorems
  import opened ConversationUse

  // ----- a request that is known -----

  /** The request has a message, with this content. */
  predicate Holds(db: Db, q: RequestId, digest: Fingerprint) {
    exists i :: 0 <= i < |db.messages| && db.messages[i].request == q && db.messages[i].digest == digest
  }

  /** A request that has its message: sent again it succeeds and changes nothing, other content is a conflict. */
  lemma KnownMessage(db: Db, q: Request, routed: Option<CommandKey>, digest: Fingerprint)
    requires Inv(db) && !db.deleted && Holds(db, q.id, digest)
    ensures db.current < |db.runs|
    ensures Submit(db, q, routed) == if q.digest == digest then Ok(db) else Err(IdempotencyConflict)
  {
    var i :| 0 <= i < |db.messages| && db.messages[i].request == q.id && db.messages[i].digest == digest;
    UniqueRequests(db);
    IsRows(db);
    hide InvBut;
    var k := MessageOf(db.messages, q.id);
    assert HasRequest(db.messages, q.id);
    assert k == i;
  }

  lemma UniqueRequests(db: Db)
    requires Inv(db)
    ensures forall i, j :: 0 <= i < j < |db.messages| ==> db.messages[i].request != db.messages[j].request
    ensures forall i, j :: 0 <= i < j < |db.restarts| ==> db.restarts[i].request != db.restarts[j].request
  {}

  /** The run the request aims at is no longer the current one, or takes no message. */
  predicate Missed(db: Db, target: Option<nat>)
    requires db.current < |db.runs|
  {
    target.Some? && (target.value != db.current || HasEnded(db.runs[db.current]))
  }

  predicate HasEnded(b: Run) {
    b.report || b.status == Completed || b.status == Failed || b.status == Interrupted || b.status == Cancelled
  }

  /**
   A request with an intent and no message yet.  Other content is a conflict; its own content is taken only when it
   is routed under the key of the intent, while that waits for the choice of a Skill in the open current run.
   */
  lemma KnownIntent(db: Db, q: Request, routed: Option<CommandKey>, i: nat)
    requires Inv(db) && !db.deleted && !HasRequest(db.messages, q.id)
    requires i < |db.restarts| && db.restarts[i].request == q.id
    ensures db.current < |db.runs|
    ensures var r, rs := Submit(db, q, routed), db.restarts[i];
            && (Missed(db, q.digest.target) ==> r == Err(RunChanged))
            && (!Missed(db, q.digest.target) ==> (r == Err(IdempotencyConflict) <==> rs.digest != q.digest))
            && (r.Ok? ==>
                  && rs.digest == q.digest && routed == Some(rs.key) && rs.status == RestartIsPending
                  && rs.op == MarkLogsExpected && rs.run == db.current && db.runs[db.current].selectedSkill
                  && Holds(r.value, q.id, q.digest) && |r.value.restarts| == |db.restarts|
                  && r.value.restarts[i] == rs.(status := RestartCompleted))
  {
    UniqueRequests(db);
    UniqueKeys(db);
    IsRows(db);
    hide InvBut, RunMessages, HasEvent;
    assert RestartOf(db.restarts, q.id) == i;
    var r := Submit(db, q, routed);
    if r.Ok? {
      var b := Save(AcceptMessage(Load(db, db.current), q));
      assert b.messages[|db.messages|].request == q.id && b.messages[|db.messages|].digest == q.digest;
      assert RestartWithKey(db.restarts, db.restarts[i].key) == i;
    }
  }

  lemma UniqueKeys(db: Db)
    requires Inv(db)
    ensures forall i, j :: 0 <= i < j < |db.restarts| ==> db.restarts[i].key != db.restarts[j].key
  {}

  /** Freezing a request that has an intent changes nothing: its own content is answered, another is a conflict. */
  lemma KnownFreeze(db: Db, q: Request, run: nat, caseId: CaseId, op: Operation, key: CommandKey, archive: Option<nat>,
                    i: nat)
    requires Inv(db) && !db.deleted && i < |db.restarts| && db.restarts[i].request == q.id
    ensures db.current < |db.runs|
    ensures var r := Freeze(db, q, run, caseId, op, key, archive); var b := db.runs[db.current];
            if Missed(db, q.digest.target) || HasEnded(b) || b.stop || run != db.current || b.caseId != Some(caseId)
            then r == Err(RunChanged) || r == Err(ConversationClosed)
            else r == if db.restarts[i].digest == q.digest then Ok(db) else Err(IdempotencyConflict)
  {
    UniqueRequests(db);
    IsRows(db);
    hide InvBut, RunMessages, LiveRestart;
    assert RestartOf(db.restarts, q.id) == i;
  }

  /** A stop request is one of one run: sent again for it nothing changes, and for another run it is a conflict. */
  lemma KnownStop(db: Db, request: RequestId, run: nat, i: nat)
    requires !db.deleted && run < |db.runs| && i < |db.stops| && db.stops[i].request == request
    requires forall j, k :: 0 <= j < k < |db.stops| ==> db.stops[j].request != db.stops[k].request
    ensures RequestStop(db, request, run) == if db.stops[i].run == run then Ok(db) else Err(IdempotencyConflict)
  {
    hide MarkUnused, Append, Save;
  }

  // ----- a new message -----

  /** Nobody has sent this request yet. */
  predicate NewRequest(db: Db, q: RequestId) {
    !db.deleted && !HasRequest(db.messages, q) && forall i :: 0 <= i < |db.restarts| ==> db.restarts[i].request != q
  }

  lemma {:induction false} CountedMessages(messages: seq<Message>, run: nat)
    ensures RunMessages(messages, run) == |set i | 0 <= i < |messages| && messages[i].run == run|
  {
    if messages != [] {
      var n := |messages| - 1;
      CountedMessages(messages[..n], run);
      LastMessage(messages, run);
      var all, less := set i | 0 <= i < |messages| && messages[i].run == run,
                       set i | 0 <= i < n && messages[..n][i].run == run;
      assert all == less + (if messages[n].run == run then {n} else {});
    }
  }

  lemma {:induction false} LastMessage(messages: seq<Message>, run: nat)
    requires messages != []
    ensures var n := |messages| - 1;
            RunMessages(messages, run) == RunMessages(messages[..n], run) + (if messages[n].run == run then 1 else 0)
  {
    var n := |messages| - 1;
    if n > 0 {
      LastMessage(messages[1..], run);
      assert messages[1..][..n - 1] == messages[..n][1..];
    }
  }

  /** The messages of a run. */
  ghost function Of(messages: seq<Message>, run: nat): set<int> {
    set i | 0 <= i < |messages| && messages[i].run == run
  }

  /** When a new message is accepted: its target, its text and attachments, and room in the run decide. */
  ghost predicate Welcome(db: Db, q: Request)
    requires db.current < |db.runs|
  {
    var b := db.runs[db.current];
    && !Missed(db, q.digest.target) && q.digest.payload.attachments <= db.ready
    && (if HasEnded(b) then q.digest.payload.hasText else !b.stop && |Of(db.messages, db.current)| < 200)
  }

  /** What it does: it enters as QUEUED into the current run or, after an end, into a new one, and wakes that run. */
  ghost predicate Entered(a: Db, b: Db, q: Request)
    requires a.current < |a.runs|
  {
    var ended := HasEnded(a.runs[a.current]);
    var run := if ended then |a.runs| else a.current;
    var before := if ended
                  then Run(Intake, None, None, false, [], [], None, false, false, false, {}, None, None, a.epoch)
                  else a.runs[a.current];
    && |b.messages| == |a.messages| + 1 && b.messages[..|a.messages|] == a.messages && b.current == run
    && b.messages[|a.messages|]
       == Message(a.nextId, q.id, q.digest, run, Queued, b.messages[|a.messages|].receipt) && b.nextId == a.nextId + 1
    && |b.runs| == (if ended then |a.runs| + 1 else |a.runs|)
    && (forall k :: 0 <= k < |a.runs| && k != run ==> b.runs[k] == a.runs[k])
    && b.runs[run] == before.(pending := true, questions := [], status := b.runs[run].status)
    && b.runs[run].status == (if before.caseStatus == None || before.caseStatus == Some(CaseWaitingInput)
                                 || before.caseStatus == Some(CaseWaitingAttachment) then Intake else before.status)
    && b.stops == a.stops && b.restarts == a.restarts && b.deleted == a.deleted
    && HasEvent(b.events, run, MessageAccepted(a.nextId)) && (ended ==> HasEvent(b.events, run, RunStarted))
  }

  lemma NoneBeyond(db: Db)
    requires RowsOk(db)
    ensures RunMessages(db.messages, |db.runs|) == 0
  {
    hide RunMessages;
    CountedMessages(db.messages, |db.runs|);
    assert forall i :: 0 <= i < |db.messages| ==> db.messages[i].run < |db.runs|;
  }

  lemma FreshTarget(db: Db, q: Request)
    requires RowsOk(db) && !db.deleted && !HasRequest(db.messages, q.id)
             && RestartOf(db.restarts, q.id) == |db.restarts|
    ensures var r := SubmitTarget(db, q, None);
            && (r.Ok? <==> Welcome(db, q))
            && (r.Ok? ==> r.value == Some(if HasEnded(db.runs[db.current]) then NewRun(Load(db, db.current))
                                          else Load(db, db.current)))
  {
    hide RunMessages, HasEvent, RestartOf;
    CountedMessages(db.messages, db.current);
    NoneBeyond(db);
    assert MessageOf(db.messages, q.id) == |db.messages|;
  }

  lemma FreshEntered(db: Db, q: Request)
    requires RowsOk(db)
    ensures var t := if HasEnded(db.runs[db.current]) then NewRun(Load(db, db.current)) else Load(db, db.current);
            Entered(db, Save(AcceptMessage(t, q)), q)
  {
    hide HasEvent, RunMessages;
    FreshEvents(db, q);
  }

  lemma FreshEvents(db: Db, q: Request)
    requires RowsOk(db)
    ensures var ended := HasEnded(db.runs[db.current]);
            var t := if ended then NewRun(Load(db, db.current)) else Load(db, db.current);
            var u := AcceptMessage(t, q);
            HasEvent(u.db.events, t.run, MessageAccepted(db.nextId))
            && (ended ==> HasEvent(u.db.events, t.run, RunStarted))
  {
    hide HasEvent, Append;
    var ended := HasEnded(db.runs[db.current]);
    var t := if ended then NewRun(Load(db, db.current)) else Load(db, db.current);
    var n := Tx(db.(runs := db.runs + [FreshRun(db.epoch)], current := |db.runs|), |db.runs|, FreshRun(db.epoch),
                db.headLast);
    Announced(n, RunStarted);
    var t1 := t.(db := t.db.(nextId := t.db.nextId + 1));
    Announced(t1, MessageAccepted(t.db.nextId));
    if ended { Remains(t1, RunStarted, MessageAccepted(t.db.nextId)); }
  }

  lemma Remains(t: Tx, key: EventKey, other: EventKey)
    requires HasEvent(t.db.events, t.run, key)
    ensures HasEvent(Append(t, other).db.events, t.run, key)
  {
    var i :| 0 <= i < |t.db.events| && t.db.events[i].run == t.run && t.db.events[i].key == key;
    assert Append(t, other).db.events[i] == t.db.events[i];
  }

  lemma FreshSubmit(db: Db, q: Request)
    requires Inv(db) && NewRequest(db, q.id)
    ensures db.current < |db.runs|
    ensures var r := Submit(db, q, None);
            (r.Ok? <==> Welcome(db, q)) && (r.Ok? ==> Entered(db, r.value, q) && Holds(r.value, q.id, q.digest))
  {
    hide Inv, HasEvent, RestartOf, HasRequest, SubmitTarget, AcceptMessage, NewRun, Save, Welcome, Entered, RowsOk;
    IsRows(db);
    Current(db);
    FreshTarget(db, q);
    FreshEntered(db, q);
    var r := Submit(db, q, None);
    if r.Ok? { EnteredHolds(db, r.value, q); }
  }

  lemma Current(db: Db)
    requires RowsOk(db)
    ensures db.current < |db.runs|
  {}

  lemma EnteredHolds(a: Db, b: Db, q: Request)
    requires a.current < |a.runs| && Entered(a, b, q)
    ensures Holds(b, q.id, q.digest)
  {
    assert b.messages[|a.messages|].request == q.id && b.messages[|a.messages|].digest == q.digest;
  }

  /** The same for an intent: it is frozen when target, run and Case fit and the run has room and no other intent. */
  lemma FreshFreeze(db: Db, q: Request, run: nat, caseId: CaseId, op: Operation, key: CommandKey, archive: Option<nat>)
    requires RowsOk(db) && !db.deleted && RestartOf(db.restarts, q.id) == |db.restarts|
    ensures var r := Freeze(db, q, run, caseId, op, key, archive); var b := db.runs[db.current];
            && (r.Ok? <==>
                  && !Missed(db, q.digest.target) && !HasEnded(b) && !b.stop && run == db.current
                  && b.caseId == Some(caseId)
                  && !(exists i :: 0 <= i < |db.restarts| && db.restarts[i].run == run
                         && (db.restarts[i].status == RestartIsPending || db.restarts[i].status == RestartCommitted))
                  && (op == RestartGeneric && archive.Some? ==> b.archive != archive)
                  && |Of(db.messages, run)| < 200 && q.digest.payload.attachments <= db.ready)
            && (r.Ok? ==>
                  r.value == db.(nextId := db.nextId + 1, restarts := db.restarts
                      + [Restart(q.id, run, q.digest, caseId, key, op, RestartIsPending, db.nextId, archive)]))
  {
    hide RunMessages, RestartOf;
    CountedMessages(db.messages, run);
  }

  // ----- over every run -----

  lemma HoldsStays(a: Db, b: Db, q: RequestId, digest: Fingerprint)
    requires Evolves(a, b) && Holds(a, q, digest)
    ensures Holds(b, q, digest)
  {
    var i :| 0 <= i < |a.messages| && a.messages[i].request == q && a.messages[i].digest == digest;
    assert b.messages[i] == a.messages[i].(status := b.messages[i].status);
  }

  /**
   Once a request has its message, every later send of it, direct or routed, succeeds without changing anything, and
   every other content under its identifier is refused as a conflict, for as long as the conversation is there.
   */
  lemma AnsweredForEver(tr: seq<Sys>, steps: seq<Step>, epoch: Epoch, m: nat, n: nat, q: RequestId, digest: Fingerprint,
                        p: Request, routed: Option<CommandKey>)
    requires IsRun(tr, steps, epoch) && m <= n < |tr| && Holds(tr[m].db, q, digest) && p.id == q && !tr[n].db.deleted
    ensures tr[n].db.current < |tr[n].db.runs|
    ensures Submit(tr[n].db, p, routed) == if p.digest == digest then Ok(tr[n].db) else Err(IdempotencyConflict)
  {
    hide IsRun, SysInv, Evolves, Inv, Holds, Submit;
    Onward(tr, steps, epoch, m, n);
    Always(tr, steps, epoch, n);
    Base(tr[n]);
    HoldsStays(tr[m].db, tr[n].db, q, digest);
    KnownMessage(tr[n].db, p, routed, digest);
  }

  /** An identifier stands for one content: a message and an intent of one request have the same. */
  ghost predicate OneContent(db: Db) {
    forall i, j ::
      0 <= i < |db.messages| && 0 <= j < |db.restarts| && db.messages[i].request == db.restarts[j].request ==>
      db.messages[i].digest == db.restarts[j].digest
  }

  lemma SameTables(a: Db, b: Db)
    requires OneContent(a) && Evolves(a, b) && |a.messages| == |b.messages| && |a.restarts| == |b.restarts|
    ensures OneContent(b)
  {
    forall i, j | 0 <= i < |b.messages| && 0 <= j < |b.restarts| && b.messages[i].request == b.restarts[j].request
      ensures b.messages[i].digest == b.restarts[j].digest
    {
      assert b.messages[i] == a.messages[i].(status := b.messages[i].status);
      assert RestartStep(a.restarts[j], b.restarts[j]);
    }
  }

  lemma SubmitContent(db: Db, q: Request, routed: Option<CommandKey>)
    requires Inv(db) && OneContent(db)
    ensures db.current < |db.runs|
    ensures var r := Submit(db, q, routed); r.Ok? ==> OneContent(r.value)
  {
    IsRows(db);
    Current(db);
    var r := Submit(db, q, routed);
    if r.Ok? && r.value != db {
      Submitting(db, q, routed);
      hide Inv, Submit, SubmitTarget, OneContent, AcceptMessage, Save;
      AddedContent(db, r.value, q);
    }
  }

  /** What a submission that changes something adds. */
  lemma Submitting(db: Db, q: Request, routed: Option<CommandKey>)
    requires Inv(db) && db.current < |db.runs| && Submit(db, q, routed).Ok? && Submit(db, q, routed).value != db
    ensures var b := Submit(db, q, routed).value; var n := |db.messages|;
            && |b.messages| == n + 1 && b.messages[..n] == db.messages && |b.restarts| == |db.restarts|
            && b.messages[n].request == q.id && b.messages[n].digest == q.digest
            && (forall j :: 0 <= j < |db.restarts| ==>
                  b.restarts[j].request == db.restarts[j].request && b.restarts[j].digest == db.restarts[j].digest)
            && (forall j :: 0 <= j < |db.restarts| && db.restarts[j].request == q.id ==>
                db.restarts[j].digest == q.digest)
  {
    hide Inv, SubmitTarget, AcceptMessage, Save;
    var t := SubmitTarget(db, q, routed).value.value;
    SubmitAccepted(db, q, routed, t);
    AcceptedRow(t, q);
    OwnContent(db, q, routed);
  }

  lemma AcceptedRow(t: Tx, q: Request)
    ensures var b, n := Save(AcceptMessage(t, q)), |t.db.messages|;
            && |b.messages| == n + 1 && b.messages[..n] == t.db.messages && b.restarts == t.db.restarts
            && b.messages[n].request == q.id && b.messages[n].digest == q.digest
  {
    hide HasEvent;
  }

  lemma OwnContent(db: Db, q: Request, routed: Option<CommandKey>)
    requires Inv(db) && db.current < |db.runs| && SubmitTarget(db, q, routed).Ok?
    requires SubmitTarget(db, q, routed).value.Some?
    ensures forall j :: 0 <= j < |db.restarts| && db.restarts[j].request == q.id ==> db.restarts[j].digest == q.digest
  {
    UniqueRequests(db);
    hide Inv, RunMessages, HasEvent, Open, TargetChanged, NewRun;
    var r := RestartOf(db.restarts, q.id);
    assert forall j :: 0 <= j < |db.restarts| && db.restarts[j].request == q.id ==> j == r;
  }

  lemma AddedContent(a: Db, b: Db, q: Request)
    requires OneContent(a) && |b.restarts| == |a.restarts| && |b.messages| == |a.messages| + 1
    requires b.messages[..|a.messages|] == a.messages
    requires b.messages[|a.messages|].request == q.id && b.messages[|a.messages|].digest == q.digest
    requires forall j :: 0 <= j < |a.restarts| ==>
      b.restarts[j].request == a.restarts[j].request && b.restarts[j].digest == a.restarts[j].digest
    requires forall j :: 0 <= j < |a.restarts| && a.restarts[j].request == q.id ==> a.restarts[j].digest == q.digest
    ensures OneContent(b)
  {
    forall i, j | 0 <= i < |b.messages| && 0 <= j < |b.restarts| && b.messages[i].request == b.restarts[j].request
      ensures b.messages[i].digest == b.restarts[j].digest
    {
      if i < |a.messages| { assert b.messages[i] == a.messages[i]; }
    }
  }

  lemma FreezeContent(db: Db, q: Request, run: nat, caseId: CaseId, op: Operation, key: CommandKey,
                      archive: Option<nat>)
    requires db.current < |db.runs| && OneContent(db) && !HasRequest(db.messages, q.id)
    ensures var r := Freeze(db, q, run, caseId, op, key, archive); r.Ok? ==> OneContent(r.value)
  {
    hide RunMessages, LiveRestart, RestartOf, Open, TargetChanged;
  }

  lemma {:induction false} AcceptedContent(t: Tx, records: set<Record>, c: CaseId, k: nat)
    requires k <= |t.db.restarts| && OneContent(t.db)
    requires forall i, j :: 0 <= i < j < |t.db.restarts| ==> t.db.restarts[i].request != t.db.restarts[j].request
    ensures var r := AcceptRestartsFrom(t, records, c, k); r.Ok? ==> OneContent(r.value.db)
    decreases |t.db.restarts| - k
  {
    hide HasEvent, OneContent;
    if k < |t.db.restarts| {
      if Accepts(t.db.restarts[k], t.run, records, c) {
        var rs := t.db.restarts[k];
        AddedContent(t.db, AcceptRestart(t, k).db, Request(rs.request, rs.digest));
        AcceptedContent(AcceptRestart(t, k), records, c, k + 1);
      } else {
        AcceptedContent(t, records, c, k + 1);
      }
    }
  }

  lemma ProjectContent(db: Db, cv: CaseView, records: set<Record>, k: nat)
    requires Inv(db) && OneContent(db) && k == RunFor(db, cv.id, records) && k < |db.runs|
    requires Closed(db.runs[k].status) || Trusted(cv, db.runs[k])
    requires Project(db, cv, records).Ok?
    ensures OneContent(Project(db, cv, records).value)
  {
    UniqueRequests(db);
    hide InvBut, Evolves, AcceptRestartsFrom, AcceptAdoptions, ProjectCase, OneContent, Trusted;
    BoundOk(db, k, cv.id);
    var t := Load(db, k).(body := Load(db, k).body.(caseId := Some(cv.id)));
    SameMessagesRows(db, t.db);
    AcceptedContent(t, records, cv.id, 0);
    AcceptRestartsOk(t, records, cv.id, 0);
    var t1 := AcceptRestartsFrom(t, records, cv.id, 0).value;
    AcceptAdoptionsOk(t1, records, cv.id);
    var t2 := AcceptAdoptions(t1, records, cv.id).value;
    AdoptionsShell(t1, records, cv.id);
    SameMessagesRows(t1.db, View(t1));
    SameTables(View(t1), View(t2));
    if Closed(t2.body.status) {
      ClosedProjects(t2, cv);
      SameMessagesRows(View(t2), t2.db);
    } else {
      TrustedStays(cv, db.runs[k], t2.body);
      ProjectCaseOk(t2, cv);
      ProjectedRows(t2, cv);
      SameTables(View(t2), ProjectCase(t2, cv));
    }
  }

  lemma SameMessagesRows(a: Db, b: Db)
    requires OneContent(a) && b.messages == a.messages && b.restarts == a.restarts
    ensures OneContent(b)
  {}

  lemma TrustedStays(cv: CaseView, a: Run, b: Run)
    requires Trusted(cv, a) && b.report == a.report && b.caseStatus == a.caseStatus
    ensures Trusted(cv, b)
  {}

  lemma ProjectedRows(t: Tx, cv: CaseView)
    requires !Closed(t.body.status)
    ensures var b := ProjectCase(t, cv); |b.messages| == |t.db.messages| && b.restarts == t.db.restarts
  {
    hide Projected;
  }

  lemma StepContent(s: Sys, step: Step)
    requires SysInv(s) && OneContent(s.db) && Enabled(s, step) && s.db.current < |s.db.runs|
    ensures OneContent(Apply(s, step).db)
  {
    hide SysInv, Inv, Evolves, OneContent, Submit, Freeze, Retarget, FinishRestart, Project, HasRequest;
    Base(s);
    var b := Apply(s, step).db;
    if !SendStep(step) {
      OtherStepsQuiet(s, step);
      StepKeeps(s, step);
      SameTables(s.db, b);
    } else {
      match step
      case DirectSubmit(q) => SubmitContent(s.db, q, None);
      case RoutedSubmit(q, key) => SubmitContent(s.db, q, Some(key));
      case FreezeIntent(q, run, c, op, key, archive) =>
        Locked(s, q.id);
        FreezeContent(s.db, q, run, c, op, key, archive);
      case CommitCase(cv, record) => CommitContent(s, cv, record);
      case RetargetIntent(key, newKey) => IntentContent(s, step);
      case RejectIntent(key) => IntentContent(s, step);
      case CompleteIntent(key) => IntentContent(s, step);
    }
  }

  lemma Locked(s: Sys, q: RequestId)
    requires SysInv(s) && s.sender == Some(q)
    ensures !HasRequest(s.db.messages, q)
  {}

  lemma IntentContent(s: Sys, step: Step)
    requires SysInv(s) && OneContent(s.db) && Enabled(s, step) && s.db.current < |s.db.runs|
    requires step.RetargetIntent? || step.RejectIntent? || step.CompleteIntent?
    ensures OneContent(Apply(s, step).db)
  {
    hide SysInv, Inv, Evolves, OneContent, Enabled, RestartWithKey, Open;
    StepKeeps(s, step);
    SameTables(s.db, Apply(s, step).db);
  }

  lemma CommitContent(s: Sys, cv: CaseView, record: Option<Record>)
    requires SysInv(s) && OneContent(s.db) && Enabled(s, CommitCase(cv, record)) && s.db.current < |s.db.runs|
    ensures OneContent(Apply(s, CommitCase(cv, record)).db)
  {
    hide SysInv, Inv, OneContent, RunFor, Trusted;
    Base(s);
    var records := RecordsWith(s, record);
    var k := RunFor(s.db, cv.id, records);
    if k < |s.db.runs| {
      RunForTrusted(s, cv, record);
      if Project(s.db, cv, records).Ok? { ProjectContent(s.db, cv, records, k); }
    } else {
      NoRun(s.db, cv, records);
    }
  }

  lemma {:induction false} OneContentAlways(tr: seq<Sys>, steps: seq<Step>, epoch: Epoch, n: nat)
    requires IsRun(tr, steps, epoch) && n < |tr|
    ensures OneContent(tr[n].db)
  {
    hide SysInv, Enabled, Apply, OneContent;
    if n == 0 {
      NoContent(epoch);
    } else {
      OneContentAlways(tr, steps, epoch, n - 1);
      Always(tr, steps, epoch, n - 1);
      assert Next(tr[n - 1], steps[n - 1], tr[n - 1 + 1]);
      StepContent(tr[n - 1], steps[n - 1]);
    }
  }

  lemma NoContent(epoch: Epoch)
    ensures OneContent(Start(epoch).db)
  {}

  // ----- stops -----

  /** The receipt of a new stop, and the run it is for: ended and left alone, or asked to stop. */
  ghost predicate StopAsked(a: Db, b: Db, request: RequestId, run: nat)
    requires run < |a.runs| == |b.runs|
  {
    && b.stops == a.stops + [Stop(request, run, if a.runs[run].status == Cancelled then StopCancelled
                                                else if HasEnded(a.runs[run]) then StopAlreadyFinished
                                                else StopCancelling)]
    && (HasEnded(a.runs[run]) ==> b == a.(stops := b.stops))
    && (!HasEnded(a.runs[run]) ==>
          && b.runs[run] == a.runs[run].(stop := true, status := Cancelling, pending := false, questions := [])
          && GivenUp(a.messages, b.messages, run) && HasEvent(b.events, run, RunStopping))
  }

  /** A stop request nobody has sent before: it gets its receipt, and an open run is asked to stop. */
  lemma FreshStop(db: Db, request: RequestId, run: nat)
    requires Inv(db) && !db.deleted && run < |db.runs|
    requires forall i :: 0 <= i < |db.stops| ==> db.stops[i].request != request
    ensures var r := RequestStop(db, request, run);
            r.Ok? && |r.value.runs| == |db.runs| && StopAsked(db, r.value, request, run)
  {
    RequestStopStep(db, request, run);
    hide InvBut, Evolves, HasEvent, Append, MarkUnusedFrom, GivenUp;
    var r := RequestStop(db, request, run);
    if !HasEnded(db.runs[run]) {
      var t := Load(db, run);
      var t1 := t.(db := db.(stops := r.value.stops),
                   body := t.body.(stop := true, status := Cancelling, pending := false, questions := []));
      UnusedGives(t1);
      Announced(MarkUnused(t1), RunStopping);
    }
  }

  lemma AnswersKnown(db: Db, request: RequestId, run: nat)
    requires StopKnown(db.stops, request) && !db.deleted && run < |db.runs|
    ensures RequestStop(db, request, run)
            == if exists i :: 0 <= i < |db.stops| && db.stops[i].request == request && db.stops[i].run == run
               then Ok(db) else Err(IdempotencyConflict)
  {
    hide MarkUnused, Append, Save;
  }

  lemma Announced(t: Tx, key: EventKey)
    ensures HasEvent(Append(t, key).db.events, t.run, key)
  {
    var u := Append(t, key);
    if !HasEvent(t.db.events, t.run, key) { assert u.db.events[|t.db.events|].key == key; }
  }

  ghost predicate OneStopEach(db: Db) {
    forall i, j :: 0 <= i < j < |db.stops| ==> db.stops[i].request != db.stops[j].request
  }

  lemma AskStopKeeps(db: Db, request: RequestId, run: nat)
    requires OneStopEach(db)
    ensures var r := RequestStop(db, request, run); r.Ok? ==> OneStopEach(r.value)
  {
    hide Append, MarkUnusedFrom, HasEvent;
  }

  lemma SameStops(a: Db, b: Db)
    requires OneStopEach(a) && Evolves(a, b) && |b.stops| == |a.stops|
    ensures OneStopEach(b)
  {
    forall i, j | 0 <= i < j < |b.stops| ensures b.stops[i].request != b.stops[j].request {
      assert b.stops[i] == a.stops[i].(status := b.stops[i].status);
      assert b.stops[j] == a.stops[j].(status := b.stops[j].status);
    }
  }

  lemma {:induction false} DeleteStops(db: Db, k: nat)
    ensures |DeleteFrom(db, k).stops| == |db.stops|
    decreases |db.runs| - k
  {
    hide MarkUnusedFrom;
    if k < |db.runs| { DeleteStops(DeleteRun(db, k), k + 1); }
  }

  lemma {:induction false} RestartsStops(t: Tx, records: set<Record>, c: CaseId, k: nat)
    requires k <= |t.db.restarts|
    ensures var r := AcceptRestartsFrom(t, records, c, k); r.Ok? ==> r.value.db.stops == t.db.stops
    decreases |t.db.restarts| - k
  {
    hide HasEvent;
    if k < |t.db.restarts| {
      var t1 := if Accepts(t.db.restarts[k], t.run, records, c) then AcceptRestart(t, k) else t;
      RestartsStops(t1, records, c, k + 1);
    }
  }

  lemma ProjectStops(db: Db, cv: CaseView, records: set<Record>)
    ensures var r := Project(db, cv, records); r.Ok? ==> |r.value.stops| == |db.stops|
  {
    hide AcceptRestartsFrom, AcceptAdoptions, Projected, RunFor;
    var k := RunFor(db, cv.id, records);
    if k < |db.runs| {
      var t := Load(db, k).(body := Load(db, k).body.(caseId := Some(cv.id)));
      RestartsStops(t, records, cv.id, 0);
      var t1 := AcceptRestartsFrom(t, records, cv.id, 0);
      if t1.Ok? { AdoptionsShell(t1.value, records, cv.id); }
    }
  }

  lemma {:induction false} RecoverStops(db: Db, k: nat, finished: map<CaseId, CaseView>, records: set<Record>)
    ensures var r := RecoverFrom(db, k, finished, records); r.Ok? ==> |r.value.stops| == |db.stops|
    decreases |db.runs| - k
  {
    hide AcceptAdoptions, Projected, Close, RunMessages;
    if k < |db.runs| {
      var t := Load(db, k);
      if t.body.caseId.Some? { AdoptionsShell(t, records, t.body.caseId.value); }
      var r := RecoverRun(db, k, finished, records);
      if r.Ok? { RecoverStops(r.value, k + 1, finished, records); }
    }
  }

  lemma SubmitStops(db: Db, q: Request, routed: Option<CommandKey>)
    requires db.current < |db.runs|
    ensures var r := Submit(db, q, routed); r.Ok? ==> r.value.stops == db.stops
  {
    hide HasEvent, RunMessages, RestartOf, MessageOf, Open, TargetChanged;
  }

  lemma WorkerStops(s: Sys, step: Step)
    requires s.db.current < |s.db.runs|
    requires || step.SettleIntake? || step.DraftIntake? || step.MarkMessage? || step.EndAdopt? || step.Emit?
             || step.Fail?
             || step.AskIdleStop? || step.FinishSettle?
    ensures |Apply(s, step).db.stops| == |s.db.stops|
  {
    hide HasEvent, Append, MarkUnusedFrom, Close, IntakeSettled, MessageAt, KnownMessages, IdleStoppable, Open;
  }

  lemma LedgerStops(s: Sys, step: Step)
    requires s.db.current < |s.db.runs|
    requires || step.BeginSend? || step.EndSend? || step.FreezeIntent? || step.RetargetIntent? || step.RejectIntent?
             || step.CompleteIntent? || step.BeginSettle? || step.BeginDispatch? || step.EndDispatch? || step.Adopt?
             || step.AwaitCase?
    ensures |Apply(s, step).db.stops| == |s.db.stops|
  {
    hide HasEvent, MessageAt, DispatchWithId, RestartOf, RestartWithKey, Recorded, Ended, RunMessages,
      LiveRestart, Open, TargetChanged, HasRequest;
  }

  lemma StopsStay(s: Sys, step: Step)
    requires s.db.current < |s.db.runs|
    ensures step.AskStop? || |Apply(s, step).db.stops| == |s.db.stops|
  {
    hide Apply;
    match step
    case AskStop(_, _) => {}
    case CommitCase(cv, record) => CommitStops(s, cv, record);
    case Restarted(epoch) => RestartedStops(s, epoch);
    case DeleteConversation => DeletedStops(s);
    case DirectSubmit(q) => SubmittedStops(s, step);
    case RoutedSubmit(q, key) => SubmittedStops(s, step);
    case SettleIntake(_, _, _) => WorkerStops(s, step);
    case DraftIntake(_, _, _, _) => WorkerStops(s, step);
    case MarkMessage(_, _, _) => WorkerStops(s, step);
    case EndAdopt(_, _, _) => WorkerStops(s, step);
    case Emit(_, _, _) => WorkerStops(s, step);
    case Fail(_, _) => WorkerStops(s, step);
    case AskIdleStop(_, _) => WorkerStops(s, step);
    case FinishSettle(_) => WorkerStops(s, step);
    case _ => LedgerStops(s, step);
  }

  lemma CommitStops(s: Sys, cv: CaseView, record: Option<Record>)
    requires s.db.current < |s.db.runs|
    ensures |Apply(s, CommitCase(cv, record)).db.stops| == |s.db.stops|
  {
    hide Project;
    ProjectStops(s.db, cv, RecordsWith(s, record));
  }

  lemma RestartedStops(s: Sys, epoch: Epoch)
    requires s.db.current < |s.db.runs|
    ensures |Apply(s, Restarted(epoch)).db.stops| == |s.db.stops|
  {
    hide RecoverFrom;
    RecoverStops(s.db.(epoch := epoch), 0, Finished(s.cases), s.records);
  }

  lemma DeletedStops(s: Sys)
    requires s.db.current < |s.db.runs|
    ensures |Apply(s, DeleteConversation).db.stops| == |s.db.stops|
  {
    hide DeleteFrom;
    DeleteStops(s.db.(deleted := true), 0);
  }

  lemma SubmittedStops(s: Sys, step: Step)
    requires s.db.current < |s.db.runs| && (step.DirectSubmit? || step.RoutedSubmit?)
    ensures |Apply(s, step).db.stops| == |s.db.stops|
  {
    hide Submit;
    SubmitStops(s.db, step.q, if step.DirectSubmit? then None else Some(step.key));
  }

  /** A stop request has one receipt, in every state of every run; so `KnownStop` says how it is answered. */
  lemma {:induction false} StopsAlways(tr: seq<Sys>, steps: seq<Step>, epoch: Epoch, n: nat)
    requires IsRun(tr, steps, epoch) && n < |tr|
    ensures OneStopEach(tr[n].db)
  {
    hide SysInv, Enabled, OneStopEach, RequestStop, Evolves;
    if n == 0 {
      NoStops(epoch);
    } else {
      hide Apply;
      StopsAlways(tr, steps, epoch, n - 1);
      Always(tr, steps, epoch, n - 1);
      var s, step := tr[n - 1], steps[n - 1];
      assert Next(s, step, tr[n - 1 + 1]);
      StopsStay(s, step);
      StepKeeps(s, step);
      if step.AskStop? { AskStopStep(s, step.request, step.run); } else { SameStops(s.db, tr[n].db); }
    }
  }

  /** Once a stop has its receipt, the same request for the same run changes nothing, and for another run conflicts. */
  lemma StopAnsweredForEver(tr: seq<Sys>, steps: seq<Step>, epoch: Epoch, m: nat, n: nat, i: nat, run: nat)
    requires IsRun(tr, steps, epoch) && m <= n < |tr| && i < |tr[m].db.stops|
    requires !tr[n].db.deleted && run < |tr[n].db.runs|
    ensures var stop := tr[m].db.stops[i];
            RequestStop(tr[n].db, stop.request, run)
            == if stop.run == run then Ok(tr[n].db) else Err(IdempotencyConflict)
  {
    hide IsRun, RequestStop;
    Onward(tr, steps, epoch, m, n);
    StopsAlways(tr, steps, epoch, n);
    assert tr[n].db.stops[i] == tr[m].db.stops[i].(status := tr[n].db.stops[i].status);
    hide Evolves;
    KnownStop(tr[n].db, tr[m].db.stops[i].request, run, i);
  }

  lemma AskStopStep(s: Sys, request: RequestId, run: nat)
    requires OneStopEach(s.db) && s.db.current < |s.db.runs|
    ensures OneStopEach(Apply(s, AskStop(request, run)).db)
  {
    hide RequestStop;
    AskStopKeeps(s.db, request, run);
  }

  lemma NoStops(epoch: Epoch)
    ensures OneStopEach(Start(epoch).db)
  {}
}
