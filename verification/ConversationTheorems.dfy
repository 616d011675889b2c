/**
 What holds throughout every run of a conversation, whatever its threads do.
 */
module ConversationTheorems {
  import opened Conversation
  import opened ConversationInvariant
  import opened ConversationSteps
  import opened ConversationControl
  import opened ConversationRuns
  import opened ConversationSafety

  ghost predicate Next(s: Sys, step: Step, s2: Sys) {
    s.db.current < |s.db.runs| && Enabled(s, step) && s2 == Apply(s, step)
  }

  /** `tr` is the history of a conversation: its states, one step of some thread apart. */
  ghost predicate IsRun(tr: seq<Sys>, steps: seq<Step>, epoch: Epoch) {
    && |tr| == |steps| + 1 && tr[0] == Start(epoch)
    && forall i :: 0 <= i < |steps| ==> Next(tr[i], steps[i], tr[i + 1])
  }

  lemma StartOk(epoch: Epoch)
    ensures SysInv(Start(epoch))
  {}

  /** The invariant holds in every reachable state. */
  lemma {:induction false} Always(tr: seq<Sys>, steps: seq<Step>, epoch: Epoch, i: nat)
    requires IsRun(tr, steps, epoch) && i < |tr|
    ensures SysInv(tr[i])
  {
    hide SysInv, Enabled, Apply, Start;
    if i == 0 {
      StartOk(epoch);
    } else {
      Always(tr, steps, epoch, i - 1);
      assert Next(tr[i - 1], steps[i - 1], tr[i - 1 + 1]);
      StepKeeps(tr[i - 1], steps[i - 1]);
    }
  }

  lemma {:induction false} Onward(tr: seq<Sys>, steps: seq<Step>, epoch: Epoch, i: nat, j: nat)
    requires IsRun(tr, steps, epoch) && i <= j < |tr|
    ensures Evolves(tr[i].db, tr[j].db)
    decreases j
  {
    hide SysInv, Enabled, Apply, Start, Evolves;
    if i == j {
      EvolvesReflexive(tr[i].db);
    } else {
      Onward(tr, steps, epoch, i, j - 1);
      Always(tr, steps, epoch, j - 1);
      assert Next(tr[j - 1], steps[j - 1], tr[j - 1 + 1]);
      StepKeeps(tr[j - 1], steps[j - 1]);
      EvolvesTransitive(tr[i].db, tr[j - 1].db, tr[j].db);
    }
  }

  /** Events are numbered 1 .. last without gap or repeat, one per run and key, and the log only grows. */
  lemma EventLog(tr: seq<Sys>, steps: seq<Step>, epoch: Epoch, i: nat, j: nat)
    requires IsRun(tr, steps, epoch) && i <= j < |tr|
    ensures tr[i].db.events <= tr[j].db.events && |tr[i].db.events| == tr[i].db.headLast
    ensures forall n :: 0 <= n < |tr[j].db.events| ==> tr[j].db.events[n].sequence == n + 1
    ensures forall m, n :: 0 <= m < n < |tr[j].db.events| ==>
      !(tr[j].db.events[m].run == tr[j].db.events[n].run && tr[j].db.events[m].key == tr[j].db.events[n].key)
  {
    hide IsRun;
    Always(tr, steps, epoch, i);
    Always(tr, steps, epoch, j);
    Onward(tr, steps, epoch, i, j);
  }

  /**
   A stop against a report, before deletion: a run whose report is available is never cancelled and every
   stop of it is answered as too late; a cancelled run never publishes a report.
   */
  lemma StopOrReport(tr: seq<Sys>, steps: seq<Step>, epoch: Epoch, i: nat, j: nat, k: nat)
    requires IsRun(tr, steps, epoch) && i <= j < |tr| && k < |tr[i].db.runs| && !tr[j].db.deleted
    ensures k < |tr[j].db.runs|
    ensures tr[i].db.runs[k].report ==> tr[j].db.runs[k].report && tr[j].db.runs[k].status != Cancelled
    ensures tr[i].db.runs[k].report ==>
      forall n :: 0 <= n < |tr[j].db.stops| && tr[j].db.stops[n].run == k ==>
             tr[j].db.stops[n].status == StopAlreadyFinished
    ensures tr[i].db.runs[k].status == Cancelled ==>
      tr[j].db.runs[k].status == Cancelled && !HasEvent(tr[j].db.events, k, ResultAvailable)
    ensures tr[i].db.runs[k].status == Cancelled ==>
      forall n :: 0 <= n < |tr[j].db.stops| && tr[j].db.stops[n].run == k ==> tr[j].db.stops[n].status == StopCancelled
  {
    Always(tr, steps, epoch, j);
    Onward(tr, steps, epoch, i, j);
    hide IsRun, LogOk, MessagesOk, RestartsOk, Bound, Unaccepted, Functional, CasesOk, LockOk, SettlingOk;
    assert RunOk(tr[j].db.runs[k]);
  }

  /** Once its stop is settled, a run is cancelled or was reported before, and its receipts say which. */
  lemma SettledStop(s: Sys, run: nat)
    requires SysInv(s) && Enabled(s, FinishSettle(run)) && s.db.current < |s.db.runs| && !s.db.deleted
    ensures var b := Apply(s, FinishSettle(run)).db;
            && run < |b.runs| && !b.runs[run].stop
            && (b.runs[run].status == Cancelled <==> !s.db.runs[run].report)
            && forall n :: 0 <= n < |b.stops| && b.stops[n].run == run ==>
                 b.stops[n].status == if s.db.runs[run].report then StopAlreadyFinished else StopCancelled
  {
    hide SysInv, Evolves, RunsOk, LogOk, RowsOk, RestartsOk, MessagesOk, ReportsOk;
    Base(s);
    IsStoppable(s, run);
    FinishStopStep(s.db, run);
    SettledRun(s, run);
  }

  lemma SettledRun(s: Sys, run: nat)
    requires SysInv(s) && run in s.settling
    ensures run < |s.db.runs| && FinishStop(s.db, run).Ok? && !FinishStop(s.db, run).value.deleted == !s.db.deleted
    ensures |FinishStop(s.db, run).value.runs| == |s.db.runs|
    ensures s.db.runs[run].report ==> s.db.runs[run].status != Cancelled
  {}

  /** No accepted input is lost, and a run that asks questions or waits has read everything. */
  lemma NoLostInput(tr: seq<Sys>, steps: seq<Step>, epoch: Epoch, i: nat, m: nat)
    requires IsRun(tr, steps, epoch) && i < |tr| && m < |tr[i].db.messages|
    ensures var db := tr[i].db; var msg := db.messages[m];
            && msg.run < |db.runs|
            && (!Settled(db.runs[msg.run]) && msg.status != Unused && msg.id !in db.runs[msg.run].covered ==>
                  db.runs[msg.run].pending)
            && (Settled(db.runs[msg.run]) ==> Final(msg.status))
    ensures forall k :: 0 <= k < |tr[i].db.runs| && tr[i].db.runs[k].pending ==>
      tr[i].db.runs[k].questions == [] && tr[i].db.runs[k].status != WaitingInput
  {
    Always(tr, steps, epoch, i);
    var db := tr[i].db;
    hide IsRun, LogOk, MessagesOk, RestartsOk, Bound, Unaccepted, Functional, CasesOk, LockOk, SettlingOk, ReportsOk,
      StopsOk;
    var k := db.messages[m].run;
    assert Settled(db.runs[k]) ==> AllFinal(db.messages, k);
    assert !Settled(db.runs[k]) ==> CoverOk(db.messages, k, db.runs[k]);
  }

  /**
   Before deletion at most the current run is neither closed nor reported; the conversation row mirrors the
   current run; a closed run stays as it is; a message that was applied or given up stays so.
   */
  lemma OneOpenRun(tr: seq<Sys>, steps: seq<Step>, epoch: Epoch, i: nat, j: nat)
    requires IsRun(tr, steps, epoch) && i <= j < |tr|
    ensures tr[j].db.current < |tr[j].db.runs| && tr[j].db.head == tr[j].db.runs[tr[j].db.current]
    ensures !tr[j].db.deleted ==> forall k :: 0 <= k < |tr[j].db.runs| && k != tr[j].db.current ==>
      Closed(tr[j].db.runs[k].status) || tr[j].db.runs[k].report
    ensures !tr[j].db.deleted ==> forall k :: 0 <= k < |tr[i].db.runs| && Closed(tr[i].db.runs[k].status) ==>
      k < |tr[j].db.runs| && tr[j].db.runs[k].status == tr[i].db.runs[k].status
    ensures forall m :: 0 <= m < |tr[i].db.messages| && Final(tr[i].db.messages[m].status) ==>
      m < |tr[j].db.messages| && tr[j].db.messages[m] == tr[i].db.messages[m]
  {
    Always(tr, steps, epoch, j);
    Onward(tr, steps, epoch, i, j);
    hide IsRun, LogOk, MessagesOk, RestartsOk, Bound, Unaccepted, Functional, CasesOk, LockOk, SettlingOk, ReportsOk,
      StopsOk;
    forall m | 0 <= m < |tr[i].db.messages| && Final(tr[i].db.messages[m].status)
      ensures m < |tr[j].db.messages| && tr[j].db.messages[m] == tr[i].db.messages[m]
    {
      assert tr[j].db.messages[m] == tr[i].db.messages[m].(status := tr[j].db.messages[m].status);
    }
  }

  /** A request becomes at most one message, and a run has at most one live restart. */
  lemma OncePerRequest(tr: seq<Sys>, steps: seq<Step>, epoch: Epoch, i: nat)
    requires IsRun(tr, steps, epoch) && i < |tr|
    ensures forall a, b :: 0 <= a < b < |tr[i].db.messages| ==>
      tr[i].db.messages[a].request != tr[i].db.messages[b].request
    ensures forall a, b :: 0 <= a < b < |tr[i].db.restarts| && tr[i].db.restarts[a].run == tr[i].db.restarts[b].run ==>
      !(Live(tr[i].db.restarts[a].status) && Live(tr[i].db.restarts[b].status))
    ensures forall a :: 0 <= a < |tr[i].db.restarts| ==>
      var rs := tr[i].db.restarts[a];
      (rs.status == RestartIsPending ==> !HasRequest(tr[i].db.messages, rs.request))
      && (Taken(rs.status) ==> HasRequest(tr[i].db.messages, rs.request))
  {
    Always(tr, steps, epoch, i);
  }

  // ----- restarts -----

  lemma PendingRow(db: Db, i: nat)
    requires Inv(db) && i < |db.restarts|
    ensures db.restarts[i].status == RestartIsPending ==> !HasRequest(db.messages, db.restarts[i].request)
    ensures Taken(db.restarts[i].status) ==> HasRequest(db.messages, db.restarts[i].request)
  {}

  /**
   The command of a pending restart commits together with the restart's message, and not at all once the run
   takes no more input.
   */
  lemma RestartWithCommand(s: Sys, cv: CaseView, record: Record, i: nat)
    requires SysInv(s) && Enabled(s, CommitCase(cv, Some(record))) && s.db.current < |s.db.runs|
    requires i < |s.db.restarts| && s.db.restarts[i].status == RestartIsPending && IsCommandOf(s.db.restarts[i], record)
    ensures var s2 := Apply(s, CommitCase(cv, Some(record))); var rs := s.db.restarts[i];
            || s2 == s
            || (&& record in s2.records && i < |s2.db.restarts|
                && s2.db.restarts[i] == rs.(status := RestartCommitted)
                && !HasRequest(s.db.messages, rs.request) && HasRequest(s2.db.messages, rs.request)
                && !Shut(s.db, rs.run))
  {
    hide SysInv, Enabled, Evolves, Inv, ProjectEffect, RunFor, HasRequest, Shut, Apply, RecordsWith;
    var s2 := Apply(s, CommitCase(cv, Some(record)));
    var records := RecordsWith(s, Some(record));
    if s2 != s {
      AcceptedBy(s, cv, record, i);
      AcceptedRowRun(s, cv, Some(record), i);
      CommitEffect(s, cv, Some(record));
      Base(s);
      Base(s2);
      var k := RunFor(s.db, cv.id, records);
      PassedRow(s.db, s2.db, k, cv, records, i);
      PendingRow(s.db, i);
      PendingRow(s2.db, i);
      if |s2.db.messages| == |s.db.messages| { SameRequest(s.db, s2.db, s.db.restarts[i].request); }
      MoreMessages(s.db, s2.db, k, cv, records);
    }
  }

  /** A Case commit either changes nothing here or projects on the run of its Case. */
  lemma CommitEffect(s: Sys, cv: CaseView, record: Option<Record>)
    requires SysInv(s) && Enabled(s, CommitCase(cv, record)) && s.db.current < |s.db.runs|
    ensures var s2 := Apply(s, CommitCase(cv, record)); var k := RunFor(s.db, cv.id, RecordsWith(s, record));
            && SysInv(s2) && Evolves(s.db, s2.db)
            && (s2 == s || (s2.records == RecordsWith(s, record)
                            && (k == |s.db.runs| ==> s2.db == s.db)
                            && (k < |s.db.runs| ==> ProjectEffect(s.db, s2.db, k, cv, RecordsWith(s, record)))))
  {
    hide SysInv, Inv, Evolves, Project, RunFor, Enabled, ProjectEffect;
    CommitKeeps(s, cv, record);
    Base(s);
    var k := RunFor(s.db, cv.id, RecordsWith(s, record));
    if k == |s.db.runs| {
      NoRun(s.db, cv, RecordsWith(s, record));
    } else {
      RunForTrusted(s, cv, record);
      ProjectChanges(s.db, cv, RecordsWith(s, record), k);
    }
  }

  lemma AcceptedBy(s: Sys, cv: CaseView, record: Record, i: nat)
    requires SysInv(s) && Enabled(s, CommitCase(cv, Some(record))) && i < |s.db.restarts|
             && IsCommandOf(s.db.restarts[i], record)
    ensures s.db.restarts[i].caseId == cv.id == record.caseId
    ensures var rs := s.db.restarts[i]; Record(rs.op, rs.key, rs.caseId) in RecordsWith(s, Some(record))
  {}

  lemma PassedRow(a: Db, b: Db, k: nat, cv: CaseView, records: set<Record>, i: nat)
    requires ProjectEffect(a, b, k, cv, records) && i < |a.restarts| && Accepts(a.restarts[i], k, records, cv.id)
    ensures i < |b.restarts| && b.restarts[i] == a.restarts[i].(status := RestartCommitted)
  {}

  lemma MoreMessages(a: Db, b: Db, k: nat, cv: CaseView, records: set<Record>)
    requires ProjectEffect(a, b, k, cv, records)
    ensures |a.messages| <= |b.messages| && (|b.messages| > |a.messages| ==> !Shut(a, k))
  {}

  /** What a step that accepts the message behind a pending restart must be. */
  ghost predicate Carries(step: Step, rs: Restart) {
    || (step.CommitCase? && step.record == Some(Record(rs.op, rs.key, rs.caseId)))
    || (step.RoutedSubmit? && step.key == rs.key && step.q.id == rs.request && rs.op == MarkLogsExpected)
  }

  /** Conversely, the message of a pending restart is accepted only by its command or by its own routing. */
  lemma RestartMessageSource(s: Sys, step: Step, i: nat)
    requires SysInv(s) && Enabled(s, step) && s.db.current < |s.db.runs|
    requires i < |s.db.restarts| && s.db.restarts[i].status == RestartIsPending
    ensures HasRequest(Apply(s, step).db.messages, s.db.restarts[i].request) ==> Carries(step, s.db.restarts[i])
  {
    hide SysInv, Inv, Evolves, HasRequest, Submit, Project;
    Base(s);
    PendingRow(s.db, i);
    var b := Apply(s, step).db;
    StepKeeps(s, step);
    Base(Apply(s, step));
    if HasRequest(b.messages, s.db.restarts[i].request) {
      if !SendStep(step) {
        OtherStepsQuiet(s, step);
        SameRequest(s.db, b, s.db.restarts[i].request);
      } else {
        match step
        case DirectSubmit(q) => SubmitRow(s.db, q, None, b, i);
        case RoutedSubmit(q, key) => SubmitRow(s.db, q, Some(key), b, i);
        case CommitCase(cv, record) => CommitRow(s, cv, record, i);
        case _ => {}
      }
    }
  }

  lemma SubmitRow(db: Db, q: Request, routed: Option<CommandKey>, b: Db, i: nat)
    requires Inv(db) && Inv(b) && db.current < |db.runs| && i < |db.restarts|
             && db.restarts[i].status == RestartIsPending
    requires b == (var r := Submit(db, q, routed); if r.Ok? then r.value else db)
    requires HasRequest(b.messages, db.restarts[i].request)
    ensures routed == Some(db.restarts[i].key) && db.restarts[i].request == q.id
            && db.restarts[i].op == MarkLogsExpected
  {
    PendingRow(db, i);
    hide InvBut, Evolves, HasRequest;
    SubmitChanges(db, q, routed);
    SubmitRouted(db, q, routed);
    if i < |b.restarts| { PendingRow(b, i); }
    DistinctKeys(db, i, RestartOf(db.restarts, q.id));
  }

  lemma SubmitRouted(db: Db, q: Request, routed: Option<CommandKey>)
    requires Inv(db) && db.current < |db.runs|
    ensures var r := Submit(db, q, routed); var k := RestartOf(db.restarts, q.id);
            r.Ok? && r.value != db && routed.Some? ==>
              k < |db.restarts| && routed == Some(db.restarts[k].key) && db.restarts[k].op == MarkLogsExpected
  {}

  lemma DistinctKeys(db: Db, i: nat, j: nat)
    requires Inv(db) && i < |db.restarts| && j < |db.restarts| && db.restarts[i].key == db.restarts[j].key
    ensures i == j
  {}

  lemma CommitRow(s: Sys, cv: CaseView, record: Option<Record>, i: nat)
    requires SysInv(s) && Enabled(s, CommitCase(cv, record)) && s.db.current < |s.db.runs|
    requires i < |s.db.restarts| && s.db.restarts[i].status == RestartIsPending
    requires HasRequest(Apply(s, CommitCase(cv, record)).db.messages, s.db.restarts[i].request)
    ensures var rs := s.db.restarts[i]; record == Some(Record(rs.op, rs.key, rs.caseId))
  {
    hide SysInv, Inv, Evolves, HasRequest, RunFor, Enabled, Apply, ProjectEffect, RecordsWith;
    Base(s);
    PendingRow(s.db, i);
    var s2 := Apply(s, CommitCase(cv, record));
    CommitEffect(s, cv, record);
    Base(s2);
    var k := RunFor(s.db, cv.id, RecordsWith(s, record));
    if k < |s.db.runs| && s2 != s {
      UnpassedRow(s.db, s2.db, k, cv, RecordsWith(s, record), i);
      PendingRow(s2.db, i);
      NewRecord(s, cv, record, i);
    }
  }

  lemma UnpassedRow(a: Db, b: Db, k: nat, cv: CaseView, records: set<Record>, i: nat)
    requires ProjectEffect(a, b, k, cv, records) && i < |a.restarts| && k < |a.runs|
    ensures i < |b.restarts|
    ensures b.restarts[i] == a.restarts[i] || Accepts(a.restarts[i], k, records, cv.id)
  {}

  lemma NewRecord(s: Sys, cv: CaseView, record: Option<Record>, i: nat)
    requires SysInv(s) && Enabled(s, CommitCase(cv, record)) && i < |s.db.restarts|
    requires var k := RunFor(s.db, cv.id, RecordsWith(s, record));
             k < |s.db.runs| && Accepts(s.db.restarts[i], k, RecordsWith(s, record), cv.id)
    ensures var rs := s.db.restarts[i]; record == Some(Record(rs.op, rs.key, rs.caseId))
  {
    assert Unaccepted(s.db.restarts, s.records);
    RunForTrusted(s, cv, record);
    BoundRows(s.db, s.records);
    hide SysInv, RunFor, Enabled;
  }

  // ----- runs that take no more input -----

  lemma StaysShut(a: Db, b: Db, k: nat)
    requires Evolves(a, b) && k < |a.runs| && Shut(a, k)
    ensures Shut(b, k)
  {}

  lemma SubmitMessage(db: Db, q: Request, routed: Option<CommandKey>, t: Tx)
    requires Inv(db) && db.current < |db.runs| && SubmitTarget(db, q, routed) == Ok(Some(t))
    ensures Submit(db, q, routed).value.messages
            == db.messages + [Message(t.db.nextId, q.id, q.digest, t.run, Queued, t.last + 1)]
  {
    hide InvBut, Evolves, SubmitTarget, AcceptMessage, CompleteRouted, Settled, RunOk, Open, TargetChanged, HasRequest,
      RestartOf, Save, HasId, Shown;
    SubmitAccepted(db, q, routed, t);
    AcceptIs(t, q);
    SavedRows(AcceptMessage(t, q));
  }

  lemma SubmitRunIsOpen(db: Db, q: Request, routed: Option<CommandKey>, t: Tx)
    requires Inv(db) && db.current < |db.runs| && SubmitTarget(db, q, routed) == Ok(Some(t))
    ensures t.run >= |db.runs| || !Shut(db, t.run)
  {}

  lemma SubmitGoesToOpenRun(db: Db, q: Request, routed: Option<CommandKey>)
    requires Inv(db) && db.current < |db.runs|
    ensures var r := Submit(db, q, routed);
            r.Ok? ==> forall m :: |db.messages| <= m < |r.value.messages| ==>
              r.value.messages[m].run >= |db.runs| || !Shut(db, r.value.messages[m].run)
  {
    hide InvBut, SubmitTarget, AcceptMessage, CompleteRouted, Save, Shut;
    var target := SubmitTarget(db, q, routed);
    if target.Ok? && target.value.Some? {
      SubmitMessage(db, q, routed, target.value.value);
      SubmitRunIsOpen(db, q, routed, target.value.value);
    }
  }

  lemma SavedRows(u: Tx)
    ensures Save(u).messages == u.db.messages
  {}

  lemma StepGoesToOpenRun(s: Sys, step: Step)
    requires SysInv(s) && Enabled(s, step) && s.db.current < |s.db.runs|
    ensures var b := Apply(s, step).db;
            forall m :: |s.db.messages| <= m < |b.messages| ==>
              b.messages[m].run >= |s.db.runs| || !Shut(s.db, b.messages[m].run)
  {
    hide SysInv, Inv, Evolves, Submit, Project, RunFor, Shut;
    Base(s);
    if !SendStep(step) {
      OtherStepsQuiet(s, step);
    } else {
      match step
      case DirectSubmit(q) => SubmitGoesToOpenRun(s.db, q, None);
      case RoutedSubmit(q, key) => SubmitGoesToOpenRun(s.db, q, Some(key));
      case CommitCase(cv, record) =>
        hide Apply, Enabled;
        CommitEffect(s, cv, record);
      case _ => {}
    }
  }

  /** Once a run was stopped, closed or reported, or the conversation deleted, it never takes another message. */
  lemma {:induction false} ShutRunsTakeNothing(tr: seq<Sys>, steps: seq<Step>, epoch: Epoch, i: nat, j: nat, k: nat)
    requires IsRun(tr, steps, epoch) && i <= j < |tr| && k < |tr[i].db.runs| && Shut(tr[i].db, k)
    ensures forall m :: |tr[i].db.messages| <= m < |tr[j].db.messages| ==> tr[j].db.messages[m].run != k
    decreases j
  {
    hide SysInv, Enabled, Apply, Start, Evolves, Shut;
    if i < j {
      var a, b := tr[j - 1].db, tr[j].db;
      ShutRunsTakeNothing(tr, steps, epoch, i, j - 1, k);
      Always(tr, steps, epoch, j - 1);
      Onward(tr, steps, epoch, i, j - 1);
      Onward(tr, steps, epoch, j - 1, j);
      StaysShut(tr[i].db, a, k);
      assert Next(tr[j - 1], steps[j - 1], tr[j - 1 + 1]);
      StepGoesToOpenRun(tr[j - 1], steps[j - 1]);
      SameRunRows(a, b);
      MoreRuns(tr[i].db, a);
    }
  }

  lemma SameRunRows(a: Db, b: Db)
    requires Evolves(a, b)
    ensures |a.messages| <= |b.messages| && forall m :: 0 <= m < |a.messages| ==> b.messages[m].run == a.messages[m].run
  {}

  lemma MoreRuns(a: Db, b: Db)
    requires Evolves(a, b)
    ensures |a.runs| <= |b.runs| && |a.messages| <= |b.messages|
  {}

  /** A target that has changed stays changed: a client that was told so may turn to a follow-up. */
  lemma ChangedTargetStays(tr: seq<Sys>, steps: seq<Step>, epoch: Epoch, i: nat, j: nat, target: nat)
    requires IsRun(tr, steps, epoch) && i <= j < |tr| && target < |tr[i].db.runs| && tr[i].db.current < |tr[i].db.runs|
    requires TargetChanged(Load(tr[i].db, tr[i].db.current), Some(target))
    ensures tr[j].db.current < |tr[j].db.runs|
    ensures tr[j].db.deleted || TargetChanged(Load(tr[j].db, tr[j].db.current), Some(target))
  {
    Always(tr, steps, epoch, i);
    Always(tr, steps, epoch, j);
    Onward(tr, steps, epoch, i, j);
    hide IsRun, LogOk, MessagesOk, RestartsOk, Bound, Unaccepted, Functional, CasesOk, LockOk, SettlingOk, ReportsOk,
      StopsOk;
  }

  // ----- a restart given up while its command is on the way -----

  /**
   Which commits of a frozen command bring the message along: exactly those that find the intent pending.
   A thread that gives the intent up while another one executes it leaves a command without its message.
   */
  lemma RestartTakenIffPending(s: Sys, cv: CaseView, record: Record, i: nat)
    requires SysInv(s) && Enabled(s, CommitCase(cv, Some(record))) && s.db.current < |s.db.runs|
    requires i < |s.db.restarts| && IsCommandOf(s.db.restarts[i], record)
             && !HasRequest(s.db.messages, s.db.restarts[i].request)
    ensures var s2 := Apply(s, CommitCase(cv, Some(record)));
            s2 != s ==>
              (HasRequest(s2.db.messages, s.db.restarts[i].request) <==> s.db.restarts[i].status == RestartIsPending)
  {
    hide SysInv, Enabled, Evolves, Inv, ProjectEffect, RunFor, HasRequest, Shut, Apply, RecordsWith;
    var s2 := Apply(s, CommitCase(cv, Some(record)));
    if s.db.restarts[i].status == RestartIsPending {
      RestartWithCommand(s, cv, record, i);
    } else if s2 != s {
      CommitEffect(s, cv, Some(record));
      Base(s);
      Base(s2);
      var k := RunFor(s.db, cv.id, RecordsWith(s, Some(record)));
      if k < |s.db.runs| { RowOrigin(s.db, s2.db, k, cv, RecordsWith(s, Some(record)), i); }
    }
  }

  lemma RowOrigin(a: Db, b: Db, k: nat, cv: CaseView, records: set<Record>, i: nat)
    requires Inv(a) && Inv(b) && Evolves(a, b) && ProjectEffect(a, b, k, cv, records) && i < |a.restarts|
    requires a.restarts[i].status != RestartIsPending && !HasRequest(a.messages, a.restarts[i].request)
    ensures !HasRequest(b.messages, a.restarts[i].request)
  {
    hide Evolves, HasRequest;
    assert !PendingFor(a.restarts, a.restarts[i].request) by {
      assert forall j :: 0 <= j < |a.restarts| && j != i ==> a.restarts[j].request != a.restarts[i].request;
    }
  }
}
