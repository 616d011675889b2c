/**
 Runs that show what can happen: an input that becomes both a message and a follow-up, once for each answer that is
 not final, and a frozen command that commits without its message.
 */
module ConversationWitness {
  import opened Conversation
  import opened ConversationInvariant
  import opened ConversationSteps
  import opened ConversationControl
  import opened ConversationRuns
  import opened ConversationSafety
  import opened ConversationTheorems
  import opened ClientInput
  import opened ClientSend

  // ----- the pieces -----

  function First(): Request { Request(0, Fingerprint(Payload(0, true, {}), None)) }

  /** The input in question: text with the log archive 5, aimed at run 0. */
  function Input(): Request { Request(1, Fingerprint(Payload(1, true, {5}), Some(0))) }

  function Created(): Record { Record(CreateCase, 100, 7) }

  function Marked(): Record { Record(MarkLogsExpected, 101, 7) }

  function Seen(revision: nat, status: CaseStatus): CaseView {
    CaseView(7, revision, status, NotRequired, IsResult(status), false, [])
  }

  function Row(op: Operation, key: CommandKey, status: RestartStatus): Restart {
    Restart(1, 0, Input().digest, 7, key, op, status, 1, None)
  }

  /** A history with one run; requests are numbered as they were accepted. */
  ghost predicate Now(s: Sys, body: Run, messages: nat, restarts: seq<Restart>, records: set<Record>) {
    && s.db.runs == [body] && s.db.current == 0 && !s.db.deleted && s.db.epoch == 0
    && |s.db.messages| == messages
    && (forall i :: 0 <= i < messages ==> s.db.messages[i].run == 0 && s.db.messages[i].request == i)
    && s.db.restarts == restarts && s.db.dispatches == [] && s.db.adoptions == map[]
    && s.records == records && s.settling == {}
  }

  predicate OpenBody(b: Run) { !b.stop && !b.report && !Closed(b.status) }

  // ----- the way to the frozen intent -----

  function Opening(): seq<Step> {
    [BeginSend(0), DirectSubmit(First()), AwaitCase(0, 100), CommitCase(Seen(1, CaseRunning), Some(Created())),
     Emit(0, AttachmentUpdated(0), {5}), BeginSend(1), FreezeIntent(Input(), 0, 7, MarkLogsExpected, 101, None)]
  }

  lemma FirstMessage(s: Sys)
    requires s == Start(0).(sender := Some(0))
    ensures var s2 := Apply(s, DirectSubmit(First()));
            && Now(s2, FreshRun(0).(pending := true), 1, [], {}) && s2.sender.None? && s2.cases == map[]
            && s2.db.ready == {} && s2.db.nextId == 1
  {
    assert RunMessages([], 0) == 0;
    hide HasEvent;
  }

  lemma Prepared(s: Sys)
    requires Now(s, FreshRun(0).(pending := true), 1, [], {})
    ensures var s2 := Apply(s, AwaitCase(0, 100));
            && Now(s2, FreshRun(0).(pending := true, createKey := Some(100)), 1, [], {})
            && s2.db.ready == s.db.ready && s2.cases == s.cases && s2.sender == s.sender && s2.db.nextId == s.db.nextId
            && Enabled(s, AwaitCase(0, 100))
  {
    assert s.db.messages[0].run == 0;
  }

  // ----- Case commits -----

  lemma {:induction false} NothingAdopted(t: Tx, records: set<Record>, c: CaseId, k: nat)
    requires k <= |t.db.messages| && t.db.adoptions == map[]
    ensures AdoptFrom(t, records, c, k) == t
    decreases |t.db.messages| - k
  {
    if k < |t.db.messages| { NothingAdopted(t, records, c, k + 1); }
  }

  lemma NothingToAdopt(t: Tx, records: set<Record>, c: CaseId)
    requires t.db.dispatches == [] && t.db.adoptions == map[]
    ensures AcceptAdoptions(t, records, c) == Ok(t)
  {
    NothingAdopted(t, records, c, 0);
  }

  /** The run of the Case, however it is found. */
  predicate Owned(body: Run, records: set<Record>) {
    body.caseId == Some(7) || (body.caseId.None? && body.createKey == Some(100) && Created() in records)
  }

  lemma FoundRun(s: Sys, body: Run, records: set<Record>)
    requires s.db.runs == [body] && Owned(body, records)
    ensures RunFor(s.db, 7, records) == 0
  {
    assert [body][1..] == [];
  }

  function Bound7(s: Sys): Tx
    requires |s.db.runs| == 1
  {
    Load(s.db, 0).(body := s.db.runs[0].(caseId := Some(7)))
  }

  /** What a commit does here, once it is known what the pass over the intents makes of the transaction. */
  lemma CommitsTo(s: Sys, body: Run, n: nat, restarts: seq<Restart>, cv: CaseView, record: Option<Record>, t: Tx)
    requires Now(s, body, n, restarts, s.records) && Owned(body, RecordsWith(s, record)) && cv.id == 7
    requires AcceptRestartsFrom(Bound7(s), RecordsWith(s, record), 7, 0) == Ok(t)
    requires t.db.dispatches == [] && t.db.adoptions == map[]
    ensures var s2 := Apply(s, CommitCase(cv, record));
            s2 == s.(db := ProjectCase(t, cv), cases := s.cases[7 := cv], records := RecordsWith(s, record))
  {
    FoundRun(s, body, RecordsWith(s, record));
    NothingToAdopt(t, RecordsWith(s, record), 7);
    hide AcceptRestartsFrom, AcceptAdoptions, ProjectCase, RunFor;
  }

  lemma {:induction false} NoneTaken(s: Sys, body: Run, n: nat, restarts: seq<Restart>, records: set<Record>)
    requires Now(s, body, n, restarts, s.records) && |restarts| <= 1
    requires restarts == [] || !Accepts(restarts[0], 0, records, 7)
    ensures AcceptRestartsFrom(Bound7(s), records, 7, 0) == Ok(Bound7(s))
  {}

  function Working7(body: Run): Run {
    body.(caseId := Some(7), caseStatus := Some(CaseRunning), selectedSkill := false, status := Running,
          questions := [])
  }

  lemma SavedRunning(t: Tx, revision: nat)
    requires t.run == 0 && |t.db.runs| == 1 && t.db.current == 0 && OpenBody(t.body)
    ensures var b := ProjectCase(t, Seen(revision, CaseRunning));
            b == t.db.(runs := [Working7(t.body)], head := b.head, headLast := b.headLast, events := b.events)
  {
    hide HasEvent;
    assert t.db.runs[0 := Working7(t.body)] == [Working7(t.body)];
  }

  /** A commit of the working Case that takes no intent. */
  lemma Works(s: Sys, body: Run, n: nat, restarts: seq<Restart>, revision: nat, record: Option<Record>)
    requires Now(s, body, n, restarts, s.records) && OpenBody(body) && Owned(body, RecordsWith(s, record))
    requires |restarts| <= 1 && (restarts == [] || !Accepts(restarts[0], 0, RecordsWith(s, record), 7))
    ensures var s2 := Apply(s, CommitCase(Seen(revision, CaseRunning), record));
            && Now(s2, Working7(body), n, restarts, RecordsWith(s, record)) && s2.db.messages == s.db.messages
            && s2.db.ready == s.db.ready && s2.cases == s.cases[7 := Seen(revision, CaseRunning)]
            && s2.sender == s.sender
            && s2.db.nextId == s.db.nextId
  {
    hide ProjectCase, AcceptRestartsFrom, Apply;
    NoneTaken(s, body, n, restarts, RecordsWith(s, record));
    CommitsTo(s, body, n, restarts, Seen(revision, CaseRunning), record, Bound7(s));
    SavedRunning(Bound7(s), revision);
  }

  /** A commit that takes the one intent, and with it the message of the input. */
  lemma Takes(s: Sys, body: Run, op: Operation, key: CommandKey, revision: nat)
    requires Now(s, body, 1, [Row(op, key, RestartIsPending)], s.records) && OpenBody(body) && body.caseId == Some(7)
    ensures var record := Record(op, key, 7); var s2 := Apply(s, CommitCase(Seen(revision, CaseRunning), Some(record)));
            && Now(s2, Working7(body.(pending := true, questions := [], archive := None)), 2,
                   [Row(op, key, RestartCommitted)], s.records + {record})
            && HasRequest(s2.db.messages, 1) && s2.cases == s.cases[7 := Seen(revision, CaseRunning)]
  {
    var records := s.records + {Record(op, key, 7)};
    var t := AcceptRestart(Bound7(s), 0);
    TakenOne(s, body, op, key, records);
    hide ProjectCase, AcceptRestartsFrom, Apply, AcceptRestart, Working7, Bound7, HasRequest;
    CommitsTo(s, body, 1, [Row(op, key, RestartIsPending)], Seen(revision, CaseRunning), Some(Record(op, key, 7)), t);
    SavedRunning(t, revision);
    IsThere(t.db.messages, 1);
  }

  lemma IsThere(messages: seq<Message>, i: nat)
    requires i < |messages|
    ensures HasRequest(messages, messages[i].request)
  {}

  lemma {:induction false} TakenOne(s: Sys, body: Run, op: Operation, key: CommandKey, records: set<Record>)
    requires Now(s, body, 1, [Row(op, key, RestartIsPending)], s.records) && OpenBody(body) && body.caseId == Some(7)
    requires Record(op, key, 7) in records
    ensures var t := AcceptRestart(Bound7(s), 0);
            && AcceptRestartsFrom(Bound7(s), records, 7, 0) == Ok(t)
            && t.run == 0 && t.db.runs == s.db.runs && t.db.current == 0 && !t.db.deleted && t.db.epoch == 0
            && t.body == body.(pending := true, questions := [], archive := None)
            && t.db.restarts == [Row(op, key, RestartCommitted)] && t.db.dispatches == [] && t.db.adoptions == map[]
            && |t.db.messages| == 2 && t.db.messages[0] == s.db.messages[0]
            && t.db.messages[1].run == 0 && t.db.messages[1].request == 1
  {
    hide HasEvent;
    var t := AcceptRestart(Bound7(s), 0);
    assert t.db.restarts == [Row(op, key, RestartCommitted)];
    assert body.(caseId := Some(7)) == body;
  }

  /** The Case is resolved: the run is completed with its report. */
  lemma Resolves(s: Sys, body: Run, n: nat, restarts: seq<Restart>, revision: nat)
    requires Now(s, body, n, restarts, s.records) && OpenBody(body) && body.caseId == Some(7)
    requires |restarts| <= 1 && (restarts == [] || !Accepts(restarts[0], 0, s.records, 7))
    ensures var s2 := Apply(s, CommitCase(Seen(revision, Resolved), None));
            && |s2.db.runs| == 1 && s2.db.current == 0 && s2.db.runs[0].report && s2.db.runs[0].status == Completed
            && s2.db.restarts == restarts && s2.records == s.records && !s2.db.deleted
            && (HasRequest(s.db.messages, 1) ==> HasRequest(s2.db.messages, 1))
  {
    hide ProjectCase, AcceptRestartsFrom, Apply, HasRequest, Accepts;
    NoneTaken(s, body, n, restarts, s.records);
    CommitsTo(s, body, n, restarts, Seen(revision, Resolved), None, Bound7(s));
    SavedResolved(Bound7(s), revision);
  }

  lemma SavedResolved(t: Tx, revision: nat)
    requires t.run == 0 && |t.db.runs| == 1 && t.db.current == 0 && OpenBody(t.body)
    ensures var b := ProjectCase(t, Seen(revision, Resolved));
            && |b.runs| == 1 && b.current == 0 && b.runs[0].report && b.runs[0].status == Completed
            && b.restarts == t.db.restarts && b.deleted == t.db.deleted
            && (HasRequest(t.db.messages, 1) ==> HasRequest(b.messages, 1))
  {
    hide HasEvent, PublishReport;
    var cv := Seen(revision, Resolved);
    var t1 := Append(t.(body := t.body.(caseId := Some(7), caseStatus := Some(Resolved), selectedSkill := false)),
                     CaseUpdated(revision));
    ResultBody(t1, cv);
  }

  lemma ResultBody(t: Tx, cv: CaseView)
    requires cv.hasReport && cv.archive == NotRequired
    ensures var u := ProjectResult(t, cv);
            && u.body.report && u.body.status == Completed && SameRows(t, u)
            && (HasRequest(t.db.messages, 1) ==> HasRequest(u.db.messages, 1))
  {
    var t0 := t.(body := t.body.(report := true, stop := false, pending := false, questions := []),
                 db := t.db.(stops := SettleStops(t.db.stops, t.run, StopAlreadyFinished)));
    var t1 := Append(PublishReport(t), ArchiveUpdated(cv.archive));
    GivesUp(Append(t0, ResultAvailable), 0);
    GivesUp(t1.(body := t1.body.(status := Completed, pending := false, questions := [])), 0);
  }

  lemma {:induction false} GivesUp(t: Tx, k: nat)
    requires k <= |t.db.messages|
    ensures HasRequest(t.db.messages, 1) ==> HasRequest(MarkUnusedFrom(t, k).db.messages, 1)
    decreases |t.db.messages| - k
  {
    if k < |t.db.messages| {
      var u := GiveUp(t, k);
      assert forall i :: 0 <= i < |t.db.messages| ==> u.db.messages[i].request == t.db.messages[i].request;
      SameRequests(t.db.messages, u.db.messages, 1, 0);
      hide GiveUp;
      GivesUp(u, k + 1);
    }
  }

  // ----- histories, step by step -----

  /** A history so far, in which only the input uses its identifier. */
  ghost predicate So(tr: seq<Sys>, steps: seq<Step>) {
    IsRun(tr, steps, 0) && forall n :: 0 <= n < |steps| ==> Uses(steps[n], Input())
  }

  lemma Then(tr: seq<Sys>, steps: seq<Step>, step: Step)
    requires So(tr, steps) && tr[|tr| - 1].db.current < |tr[|tr| - 1].db.runs|
    requires Enabled(tr[|tr| - 1], step) && Uses(step, Input())
    ensures So(tr + [Apply(tr[|tr| - 1], step)], steps + [step])
  {
    hide Apply, Enabled;
    var s := tr[|tr| - 1];
    var tr2, steps2 := tr + [Apply(s, step)], steps + [step];
    forall i | 0 <= i < |steps2| ensures Next(tr2[i], steps2[i], tr2[i + 1]) && Uses(steps2[i], Input()) {
      if i < |steps| { assert Next(tr[i], steps[i], tr[i + 1]); }
    }
  }

  lemma Begun(s: Sys, body: Run, q: RequestId)
    requires Now(s, body, q, [], s.records) && s.sender.None?
    ensures Apply(s, BeginSend(q)) == s.(sender := Some(q)) && Enabled(s, BeginSend(q))
  {}

  lemma Uploaded(s: Sys, body: Run)
    requires Now(s, body, 1, [], s.records) && OpenBody(body)
    ensures var s2 := Apply(s, Emit(0, AttachmentUpdated(0), {5}));
            && Now(s2, body, 1, [], s.records) && s2.db.ready == s.db.ready + {5} && s2.cases == s.cases
            && s2.sender == s.sender && s2.db.nextId == s.db.nextId
  {
    hide HasEvent;
    assert s.db.runs[0 := body] == [body];
  }

  lemma Froze(s: Sys, body: Run)
    requires Now(s, body, 1, [], {Created()}) && OpenBody(body) && body.caseId == Some(7) && 5 in s.db.ready
    requires s.sender == Some(1) && s.db.nextId == 1
    ensures var step := FreezeIntent(Input(), 0, 7, MarkLogsExpected, 101, None); var s2 := Apply(s, step);
            && Enabled(s, step) && Now(s2, body, 1, [Row(MarkLogsExpected, 101, RestartIsPending)], {Created()})
            && s2.sender.None? && s2.cases == s.cases && !HasRequest(s2.db.messages, 1)
  {
    assert RunMessages(s.db.messages, 0) == 1 by { assert RunMessages(s.db.messages[1..], 0) == 0; }
    hide RunMessages;
    assert s.db.messages[0].request == 0;
  }

  function OpenedBody(): Run { Working7(FreshRun(0).(pending := true, createKey := Some(100))) }

  lemma CanCreate(s: Sys, body: Run)
    requires Now(s, body, 1, [], {}) && s.cases == map[]
    ensures Enabled(s, CommitCase(Seen(1, CaseRunning), Some(Created())))
  {}

  /** The Case is created for the first message. */
  lemma CaseCreated() returns (tr: seq<Sys>)
    ensures So(tr, Opening()[..4]) && |tr| == 5 && Now(tr[4], OpenedBody(), 1, [], {Created()})
    ensures tr[4].cases == map[7 := Seen(1, CaseRunning)] && tr[4].sender.None? && tr[4].db.nextId == 1
  {
    hide Apply, Enabled, So;
    var o := Opening();
    StartsSo();
    BegunFirst();
    var steps: seq<Step>;
    tr, steps := [Start(0)], [];
    Then(tr, steps, o[0]);
    tr, steps := tr + [Apply(tr[0], o[0])], steps + [o[0]];
    FirstMessage(tr[1]);
    CanSubmit(tr[1]);
    Then(tr, steps, o[1]);
    tr, steps := tr + [Apply(tr[1], o[1])], steps + [o[1]];
    Prepared(tr[2]);
    Then(tr, steps, o[2]);
    tr, steps := tr + [Apply(tr[2], o[2])], steps + [o[2]];
    var b := FreshRun(0).(pending := true, createKey := Some(100));
    CanCreate(tr[3], b);
    Works(tr[3], b, 1, [], 1, Some(Created()));
    Then(tr, steps, o[3]);
    tr, steps := tr + [Apply(tr[3], o[3])], steps + [o[3]];
    assert {} + {Created()} == {Created()};
    assert steps == o[..4];
  }

  /** The Case is at work and the input is frozen on it, before the core has seen its command. */
  lemma Opened() returns (tr: seq<Sys>)
    ensures So(tr, Opening()) && |tr| == 8
    ensures Now(tr[7], OpenedBody(), 1, [Row(MarkLogsExpected, 101, RestartIsPending)], {Created()})
    ensures tr[7].cases == map[7 := Seen(1, CaseRunning)] && !HasRequest(tr[7].db.messages, 1) && tr[7].sender.None?
  {
    hide Apply, Enabled, HasRequest, So;
    var o := Opening();
    tr := CaseCreated();
    Uploaded(tr[4], OpenedBody());
    Free(tr[4], o[4]);
    Then(tr, o[..4], o[4]);
    tr := tr + [Apply(tr[4], o[4])];
    Begun(tr[5], OpenedBody(), 1);
    Then(tr, o[..4] + [o[4]], o[5]);
    tr := tr + [Apply(tr[5], o[5])];
    Froze(tr[6], OpenedBody());
    Then(tr, o[..4] + [o[4]] + [o[5]], o[6]);
    tr := tr + [Apply(tr[6], o[6])];
    assert o[..4] + [o[4]] + [o[5]] + [o[6]] == o;
  }

  lemma StartsSo()
    ensures So([Start(0)], [])
  {}

  lemma BegunFirst()
    ensures Apply(Start(0), BeginSend(0)) == Start(0).(sender := Some(0)) && Enabled(Start(0), BeginSend(0))
  {}

  lemma CanSubmit(s: Sys)
    requires s.sender == Some(0)
    ensures Enabled(s, DirectSubmit(First()))
  {}

  lemma Free(s: Sys, step: Step)
    requires step.Emit? || step.RejectIntent?
    ensures Enabled(s, step)
  {}

  // ----- what follows on the frozen intent -----

  lemma CanTake(s: Sys, body: Run, op: Operation, key: CommandKey, status: RestartStatus)
    requires Now(s, body, 1, [Row(op, key, status)], {Created()}) && s.cases == map[7 := Seen(1, CaseRunning)]
    requires op != CreateCase
    ensures Enabled(s, CommitCase(Seen(2, CaseRunning), Some(Record(op, key, 7))))
  {}

  lemma CanResolve(s: Sys)
    requires s.cases == map[7 := Seen(2, CaseRunning)] || s.cases == map[7 := Seen(1, CaseRunning)]
    ensures Enabled(s, CommitCase(Seen(3, Resolved), None))
  {}

  /** Giving the intent up, whatever has become of it. */
  lemma GivenUpTo(s: Sys, row: Restart, key: CommandKey)
    requires s.db.restarts == [row] && s.db.current < |s.db.runs|
    ensures var s2 := Apply(s, RejectIntent(key));
            var row2 := if row.key == key && Live(row.status) then row.(status := RestartRejected) else row;
            s2 == s.(db := s.db.(restarts := [row2]))
  {
    assert [row][1..] == [];
  }

  /** The intent follows the Case to a restart; who comes second is refused. */
  lemma Retargeted(s: Sys, body: Run)
    requires Now(s, body, 1, [Row(MarkLogsExpected, 101, RestartIsPending)], {Created()}) && OpenBody(body)
    ensures var s2 := Apply(s, RetargetIntent(101, 102));
            && Enabled(s, RetargetIntent(101, 102))
            && Now(s2, body, 1, [Row(RestartGeneric, 102, RestartIsPending)], {Created()})
            && s2.cases == s.cases && s2.db.messages == s.db.messages
            && Retarget(s2.db, 101, 102) == Err(RunChanged) && Enabled(s2, RetargetIntent(101, 102))
            && Apply(s2, RetargetIntent(101, 102)) == s2
  {
    var row := Row(MarkLogsExpected, 101, RestartIsPending);
    assert [row][1..] == [];
    var s2 := Apply(s, RetargetIntent(101, 102));
    assert s2.db.restarts == [Row(RestartGeneric, 102, RestartIsPending)];
    assert s2.db.restarts[1..] == [];
  }

  // ----- a command without its message -----

  /**
   One thread gives the intent up while another executes it: the command is committed, and its message is not there.
   */
  lemma CommandWithoutMessage() returns (tr: seq<Sys>, steps: seq<Step>)
    ensures IsRun(tr, steps, 0) && |tr| == 10
    ensures steps[8] == CommitCase(Seen(2, CaseRunning), Some(Marked())) && tr[9] != tr[8]
    ensures |tr[8].db.restarts| == 1 && IsCommandOf(tr[8].db.restarts[0], Marked())
    ensures tr[8].db.restarts[0].status == RestartRejected && tr[8].db.restarts[0].request == 1
    ensures Marked() in tr[9].records && !HasRequest(tr[9].db.messages, 1)
  {
    hide Apply, Enabled, HasRequest;
    tr := Opened();
    steps := Opening();
    var body := OpenedBody();
    var row := Row(MarkLogsExpected, 101, RestartIsPending);
    Free(tr[7], RejectIntent(101));
    GivenUpTo(tr[7], row, 101);
    Then(tr, steps, RejectIntent(101));
    tr, steps := tr + [Apply(tr[7], RejectIntent(101))], steps + [RejectIntent(101)];
    var rejected := Row(MarkLogsExpected, 101, RestartRejected);
    var step := CommitCase(Seen(2, CaseRunning), Some(Marked()));
    CanTake(tr[8], body, MarkLogsExpected, 101, RestartRejected);
    Works(tr[8], body, 1, [rejected], 2, Some(Marked()));
    Then(tr, steps, step);
    tr, steps := tr + [Apply(tr[8], step)], steps + [step];
    assert Marked() in tr[9].records && Marked() !in tr[8].records;
  }

  // ----- message and follow-up -----

  /** Everything `NeverBoth` asks of a try, and both happen. */
  ghost predicate Both(tr: seq<Sys>, steps: seq<Step>, x: Send, j: nat) {
    && About(tr, steps, 0, Input(), 0) && Timed(tr, x) && 0 < |tr[x.lookAt].db.runs|
    && Carried(tr, steps, Input(), 0, x)
    && var y := SendReply(tr, Input(), 0, x);
       && y.Changed? && y.when <= j < |tr| && Ready(tr[j].db, 0) && AskFollowup in Calls(false, y, Ready(tr[j].db, 0))
       && HasRequest(tr[j].db.messages, 1)
  }

  function LooksAt(n: nat, rounds: seq<Round>): Send { Send(n, n, true, n, None, n, rounds) }

  lemma AboutInput(tr: seq<Sys>, steps: seq<Step>)
    requires So(tr, steps)
    ensures About(tr, steps, 0, Input(), 0) && |tr| == |steps| + 1
    ensures forall n :: 0 <= n < |tr| ==> tr[n].db.current < |tr[n].db.runs|
  {
    forall n | 0 <= n < |tr| ensures tr[n].db.current < |tr[n].db.runs| {
      Always(tr, steps, 0, n);
      IsRows(tr[n].db);
    }
  }

  lemma {:induction false} LooksUp(tr: seq<Sys>, x: Send, row: Restart)
    requires Timed(tr, x) && tr[x.lookAt].db.restarts == [row] && row.request == 1 && row.digest == Input().digest
    requires !HasRequest(tr[x.lookAt].db.messages, 1) && !tr[x.lookAt].db.deleted
    ensures RestartOf(tr[x.lookAt].db.restarts, 1) == 0
    ensures SendReply(tr, Input(), 0, x) == DispatchReply(tr, Input(), HeldOf(row), x.lookAt, x.rounds, false)
  {
    hide DispatchReply, FreshReply;
    var db := tr[x.lookAt].db;
    assert MessageOf(db.messages, 1) == |db.messages|;
  }

  /** What the three histories have in common: the sender reads the pending intent at 7. */
  ghost predicate Read7(tr: seq<Sys>, steps: seq<Step>) {
    && So(tr, steps) && |tr| > 8 && tr[7].db.restarts == [Row(MarkLogsExpected, 101, RestartIsPending)]
    && !HasRequest(tr[7].db.messages, 1) && !tr[7].db.deleted && !RunOver(tr[7].db, 0)
    && forall c :: Record(MarkLogsExpected, 101, c) !in tr[7].records
  }

  /** At its end the report is ready and the input is a message. */
  ghost predicate EndsBoth(tr: seq<Sys>) {
    tr != [] && Ready(tr[|tr| - 1].db, 0) && HasRequest(tr[|tr| - 1].db.messages, 1)
  }

  lemma Reads7(tr: seq<Sys>)
    requires So(tr, Opening()) && |tr| == 8 && !HasRequest(tr[7].db.messages, 1)
    requires Now(tr[7], OpenedBody(), 1, [Row(MarkLogsExpected, 101, RestartIsPending)], {Created()})
    ensures !RunOver(tr[7].db, 0) && forall c :: Record(MarkLogsExpected, 101, c) !in tr[7].records
  {}

  function Taken7(): Run { Working7(OpenedBody().(pending := true, questions := [], archive := None)) }

  function Take(record: Record): Step { CommitCase(Seen(2, CaseRunning), Some(record)) }

  function Resolve(): Step { CommitCase(Seen(3, Resolved), None) }

  /** From a pending intent: it is taken, and then the Case is resolved. */
  lemma TakenAndResolved(tr: seq<Sys>, steps: seq<Step>, op: Operation, key: CommandKey)
    returns (u: seq<Sys>, more: seq<Step>)
    requires So(tr, steps) && tr != [] && op != CreateCase && tr[|tr| - 1].cases == map[7 := Seen(1, CaseRunning)]
    requires Now(tr[|tr| - 1], OpenedBody(), 1, [Row(op, key, RestartIsPending)], {Created()})
    ensures So(u, more) && |u| == |tr| + 2 && tr <= u && more == steps + [Take(Record(op, key, 7))] + [Resolve()]
    ensures u[|tr| + 1].db.restarts == [Row(op, key, RestartCommitted)] && EndsBoth(u)
    ensures u[|tr| + 1].records == {Created()} + {Record(op, key, 7)} && RunOver(u[|tr| + 1].db, 0)
    ensures u[|tr| + 1].db.current < |u[|tr| + 1].db.runs|
  {
    hide Apply, Enabled, HasRequest, So;
    var s := tr[|tr| - 1];
    var take, end := Take(Record(op, key, 7)), Resolve();
    CanTake(s, OpenedBody(), op, key, RestartIsPending);
    Takes(s, OpenedBody(), op, key, 2);
    Then(tr, steps, take);
    u, more := tr + [Apply(s, take)], steps + [take];
    var s1 := u[|tr|];
    CanResolve(s1);
    Resolves(s1, Taken7(), 2, [Row(op, key, RestartCommitted)], 3);
    Then(u, more, end);
    u, more := u + [Apply(s1, end)], more + [end];
  }

  /** A thread that gives up an intent which has been taken. */
  lemma ThenDropped(tr: seq<Sys>, steps: seq<Step>, row: Restart) returns (u: seq<Sys>, more: seq<Step>)
    requires So(tr, steps) && tr != [] && tr[|tr| - 1].db.restarts == [row] && EndsBoth(tr)
    requires tr[|tr| - 1].db.current < |tr[|tr| - 1].db.runs|
    ensures So(u, more) && |u| == |tr| + 1 && tr <= u && more == steps + [RejectIntent(101)] && EndsBoth(u)
  {
    hide Apply, Enabled, HasRequest, So;
    var s := tr[|tr| - 1];
    Free(s, RejectIntent(101));
    GivenUpTo(s, row, 101);
    Then(tr, steps, RejectIntent(101));
    u, more := tr + [Apply(s, RejectIntent(101))], steps + [RejectIntent(101)];
  }

  /** A thread reads the intent, the control thread commits it and the run completes, the thread finds the run over. */
  lemma StopHistory() returns (tr: seq<Sys>, steps: seq<Step>)
    ensures Read7(tr, steps) && |tr| == 11 && RunOver(tr[9].db, 0) && steps[9] == RejectIntent(101) && EndsBoth(tr)
  {
    hide HasRequest, So, EndsBoth, RunOver;
    var tr0 := Opened();
    Reads7(tr0);
    var tr1, steps1 := TakenAndResolved(tr0, Opening(), MarkLogsExpected, 101);
    tr, steps := ThenDropped(tr1, steps1, Row(MarkLogsExpected, 101, RestartCommitted));
  }

  lemma BothAfterStop() returns (tr: seq<Sys>, steps: seq<Step>, x: Send, j: nat)
    ensures Both(tr, steps, x, j) && SendReply(tr, Input(), 0, x).branch.RunStopped?
  {
    tr, steps := StopHistory();
    AboutInput(tr, steps);
    hide So, About, HasRequest, RunOver;
    var r := Round(9, 9, Broken, false, false, false, 9, 0);
    x, j := LooksAt(7, [r]), 10;
    var row := Row(MarkLogsExpected, 101, RestartIsPending);
    LooksUp(tr, x, row);
    assert DispatchReply(tr, Input(), HeldOf(row), 7, [r], false) == Changed(10, RunStopped(9));
  }

  /** The control thread retargets first; the sender is refused, and the restart goes through after that. */
  lemma RetargetHistory() returns (tr: seq<Sys>, steps: seq<Step>)
    ensures Read7(tr, steps) && |tr| == 12 && steps[8] == RetargetIntent(101, 102)
    ensures Retarget(tr[8].db, 101, 102) == Err(RunChanged) && EndsBoth(tr)
  {
    hide HasRequest, So, EndsBoth, RunOver, Apply, Enabled, Retarget;
    var tr0 := Opened();
    var o := Opening();
    Reads7(tr0);
    var step := RetargetIntent(101, 102);
    Retargeted(tr0[7], OpenedBody());
    Then(tr0, o, step);
    var tr1 := tr0 + [Apply(tr0[7], step)];
    Then(tr1, o + [step], step);
    var tr2 := tr1 + [Apply(tr1[8], step)];
    tr, steps := TakenAndResolved(tr2, o + [step] + [step], RestartGeneric, 102);
    assert tr[7] == tr0[7] && tr[8] == tr1[8];
  }

  lemma {:induction false} RefusedRound(tr: seq<Sys>, steps: seq<Step>, h: Held, at: nat, r: Round)
    requires h.status == RestartIsPending && h.op == MarkLogsExpected && InTime(tr, at, r) && |steps| + 1 == |tr|
    requires !RunOver(tr[r.readAt].db, h.run) && r.core == Refused && r.generic
    requires Retarget(tr[r.actAt].db, h.key, r.newKey) == Err(RunChanged)
    requires steps[r.actAt] == RetargetIntent(h.key, r.newKey)
    requires forall c :: Record(h.op, h.key, c) !in tr[r.ranAt].records
    ensures DispatchReply(tr, Input(), h, at, [r], false) == Changed(r.actAt, RetargetRefused)
    ensures DispatchSteps(tr, steps, Input(), h, at, [r])
  {
    hide Retarget, RunOver, Submit, HasRequest;
    assert [r][1..] == [];
  }

  lemma BothAfterRetarget() returns (tr: seq<Sys>, steps: seq<Step>, x: Send, j: nat)
    ensures Both(tr, steps, x, j) && SendReply(tr, Input(), 0, x).branch.RetargetRefused?
  {
    tr, steps := RetargetHistory();
    AboutInput(tr, steps);
    hide So, About, HasRequest, RunOver, Retarget, DispatchReply, DispatchSteps;
    var r := Round(7, 7, Refused, true, false, false, 8, 102);
    x, j := LooksAt(7, [r]), 11;
    var row := Row(MarkLogsExpected, 101, RestartIsPending);
    LooksUp(tr, x, row);
    RefusedRound(tr, steps, HeldOf(row), 7, r);
  }

  /** The control thread retargets and commits; the sender's old command is refused by the Case that is over. */
  lemma RefusalHistory() returns (tr: seq<Sys>, steps: seq<Step>)
    ensures Read7(tr, steps) && |tr| == 12 && steps[10] == RejectIntent(101) && EndsBoth(tr)
    ensures forall c :: Record(MarkLogsExpected, 101, c) !in tr[10].records
  {
    hide HasRequest, So, EndsBoth, RunOver, Apply, Enabled;
    var tr0 := Opened();
    var o := Opening();
    Reads7(tr0);
    var first := RetargetIntent(101, 102);
    Retargeted(tr0[7], OpenedBody());
    Then(tr0, o, first);
    var tr1 := tr0 + [Apply(tr0[7], first)];
    var tr2, steps2 := TakenAndResolved(tr1, o + [first], RestartGeneric, 102);
    tr, steps := ThenDropped(tr2, steps2, Row(RestartGeneric, 102, RestartCommitted));
    assert tr[7] == tr0[7] && tr[10] == tr2[10];
  }

  lemma BothAfterRefusal() returns (tr: seq<Sys>, steps: seq<Step>, x: Send, j: nat)
    ensures Both(tr, steps, x, j) && SendReply(tr, Input(), 0, x).branch.CommandRefused?
  {
    tr, steps := RefusalHistory();
    AboutInput(tr, steps);
    hide So, About, HasRequest, RunOver;
    var r := Round(7, 10, Refused, false, false, false, 10, 0);
    x, j := LooksAt(7, [r]), 11;
    var row := Row(MarkLogsExpected, 101, RestartIsPending);
    LooksUp(tr, x, row);
    assert DispatchReply(tr, Input(), HeldOf(row), 7, [r], false) == Changed(11, CommandRefused(101));
  }
}
