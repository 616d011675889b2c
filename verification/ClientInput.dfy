/**
 When a request can no longer become a message: its run takes nothing more, or its intent was given up; and that this
 stays so through every step of every thread.
 */
module ClientInput {
  import opened Conversation
  import opened ConversationInvariant
  import opened ConversationSteps
  import opened ConversationControl
  import opened ConversationRuns
  import opened ConversationSafety
  import opened ConversationTheorems

  // ----- the server, seen by one request -----

  /** Everyone who uses this request identifier sends this very request, aimed at run `k`. */
  predicate Uses(step: Step, q: Request) {
    match step
    case DirectSubmit(p) => p.id == q.id ==> p == q
    case RoutedSubmit(p, _) => p.id == q.id ==> p == q
    case FreezeIntent(p, _, _, _, _, _) => p.id == q.id ==> p == q
    case _ => true
  }

  ghost predicate RowsIn(db: Db, q: Request, k: nat) {
    forall i :: 0 <= i < |db.restarts| && db.restarts[i].request == q.id ==> db.restarts[i].run == k
  }

  ghost predicate GivenUp(db: Db, q: Request) {
    exists i :: 0 <= i < |db.restarts| && db.restarts[i].request == q.id && db.restarts[i].status == RestartRejected
  }

  /** The request is not a message and cannot become one: its run takes nothing more, or its intent was given up. */
  ghost predicate Dead(db: Db, q: Request, k: nat) {
    && q.digest.target == Some(k) && k < |db.runs| && RowsIn(db, q, k)
    && !HasRequest(db.messages, q.id) && (Shut(db, k) || GivenUp(db, q))
  }

  /** A target that has changed takes nothing more. */
  lemma ChangedShuts(db: Db, k: nat)
    requires Inv(db) && k < |db.runs| && TargetChanged(Load(db, db.current), Some(k))
    ensures Shut(db, k)
  {
    hide LogOk, MessagesOk, RestartsOk, ReportsOk, StopsOk;
  }

  lemma RowsStay(s: Sys, step: Step, q: Request, k: nat)
    requires SysInv(s) && Enabled(s, step) && Uses(step, q) && s.db.current < |s.db.runs|
    requires q.digest.target == Some(k) && RowsIn(s.db, q, k)
    ensures RowsIn(Apply(s, step).db, q, k)
  {
    hide SysInv, Inv, Evolves, Project, Submit;
    StepKeeps(s, step);
    var b := Apply(s, step).db;
    RowsKeepRuns(s.db, b);
    if !SendStep(step) {
      OtherStepsQuiet(s, step);
    } else {
      match step
      case DirectSubmit(p) => SubmitRows(s.db, p, None);
      case RoutedSubmit(p, key) => SubmitRows(s.db, p, Some(key));
      case CommitCase(cv, record) => CommitRows(s, cv, record);
      case _ => {}
    }
  }

  lemma RowsKeepRuns(a: Db, b: Db)
    requires Evolves(a, b)
    ensures |a.restarts| <= |b.restarts|
    ensures forall i :: 0 <= i < |a.restarts| ==>
      b.restarts[i].run == a.restarts[i].run && b.restarts[i].request == a.restarts[i].request
      && (a.restarts[i].status == RestartRejected ==> b.restarts[i].status == RestartRejected)
  {}

  lemma SubmitRows(db: Db, q: Request, routed: Option<CommandKey>)
    requires db.current < |db.runs|
    ensures var r := Submit(db, q, routed); r.Ok? ==> |r.value.restarts| == |db.restarts|
  {
    hide Save;
    var target := SubmitTarget(db, q, routed);
    if target.Ok? && target.value.Some? { SaveRestarts(AcceptMessage(target.value.value, q)); }
  }

  lemma SaveRestarts(t: Tx)
    ensures Save(t).restarts == t.db.restarts
  {}

  lemma CommitRows(s: Sys, cv: CaseView, record: Option<Record>)
    requires SysInv(s) && Enabled(s, CommitCase(cv, record)) && s.db.current < |s.db.runs|
    ensures |Apply(s, CommitCase(cv, record)).db.restarts| == |s.db.restarts|
  {
    hide SysInv, Enabled, Evolves, RunFor, Apply, RecordsWith;
    CommitEffect(s, cv, record);
  }

  lemma GivenUpStays(a: Db, b: Db, q: Request)
    requires Evolves(a, b) && GivenUp(a, q)
    ensures GivenUp(b, q)
  {}

  /** A submission of a dead request is refused. */
  lemma DeadSubmit(db: Db, q: Request, routed: Option<CommandKey>, k: nat)
    requires Inv(db) && db.current < |db.runs| && Dead(db, q, k)
    ensures Submit(db, q, routed).Err?
  {
    assert MessageOf(db.messages, q.id) == |db.messages|;
    if GivenUp(db, q) {
      var i :| 0 <= i < |db.restarts| && db.restarts[i].request == q.id && db.restarts[i].status == RestartRejected;
      assert RestartOf(db.restarts, q.id) == i by { UniqueRow(db, i, RestartOf(db.restarts, q.id)); }
    }
    hide InvBut, NewRun;
  }

  lemma UniqueRow(db: Db, i: nat, j: nat)
    requires Inv(db) && i < |db.restarts| && j < |db.restarts| && db.restarts[i].request == db.restarts[j].request
    ensures i == j
  {}

  /** A Case commit brings no message for a dead request. */
  lemma DeadCommit(s: Sys, cv: CaseView, record: Option<Record>, q: Request, k: nat)
    requires SysInv(s) && Enabled(s, CommitCase(cv, record)) && s.db.current < |s.db.runs| && Dead(s.db, q, k)
    ensures !HasRequest(Apply(s, CommitCase(cv, record)).db.messages, q.id)
  {
    hide SysInv, Enabled, Evolves, RunFor, Apply, RecordsWith, Inv, HasRequest, Shut, FromIntents;
    var s2 := Apply(s, CommitCase(cv, record));
    CommitEffect(s, cv, record);
    Base(s);
    if s2 != s && RunFor(s.db, cv.id, RecordsWith(s, record)) < |s.db.runs| && HasRequest(s2.db.messages, q.id) {
      FromPending(s.db, s2.db, q.id);
      var i :| 0 <= i < |s.db.restarts| && s.db.restarts[i].request == q.id
               && s.db.restarts[i].status == RestartIsPending;
      if GivenUp(s.db, q) {
        var j :| 0 <= j < |s.db.restarts| && s.db.restarts[j].request == q.id
                 && s.db.restarts[j].status == RestartRejected;
        UniqueRow(s.db, i, j);
      }
      CommitRow(s, cv, record, i);
      CommandOf(s.db.restarts[i]);
      RestartWithCommand(s, cv, record.value, i);
    }
  }

  lemma CommandOf(rs: Restart)
    ensures IsCommandOf(rs, Record(rs.op, rs.key, rs.caseId))
  {}

  lemma FromPending(a: Db, b: Db, q: RequestId)
    requires FromIntents(a, b) && HasRequest(b.messages, q) && !HasRequest(a.messages, q)
    ensures PendingFor(a.restarts, q)
  {}

  lemma DeadStays(s: Sys, step: Step, q: Request, k: nat)
    requires SysInv(s) && Enabled(s, step) && Uses(step, q) && s.db.current < |s.db.runs| && Dead(s.db, q, k)
    ensures Dead(Apply(s, step).db, q, k)
  {
    hide SysInv, Inv, Evolves, HasRequest, Shut, GivenUp, RowsIn, Enabled;
    var b := Apply(s, step).db;
    StepKeeps(s, step);
    RowsStay(s, step, q, k);
    MoreRuns(s.db, b);
    if Shut(s.db, k) { StaysShut(s.db, b, k); } else { GivenUpStays(s.db, b, q); }
    NoNewMessage(s, step, q, k);
  }

  lemma NoNewMessage(s: Sys, step: Step, q: Request, k: nat)
    requires SysInv(s) && Enabled(s, step) && Uses(step, q) && s.db.current < |s.db.runs| && Dead(s.db, q, k)
    ensures !HasRequest(Apply(s, step).db.messages, q.id)
  {
    hide SysInv, Inv, Evolves, HasRequest, Project, Submit, RowsIn, GivenUp, Shut, SubmitEffect;
    Base(s);
    StepKeeps(s, step);
    var b := Apply(s, step).db;
    if !SendStep(step) {
      OtherStepsQuiet(s, step);
      SameRequest(s.db, b, q.id);
    } else {
      match step
      case DirectSubmit(p) => SubmitOthers(s.db, p, None, q, k);
      case RoutedSubmit(p, key) => SubmitOthers(s.db, p, Some(key), q, k);
      case CommitCase(cv, record) => DeadCommit(s, cv, record, q, k);
      case _ => {}
    }
  }

  lemma SubmitOthers(db: Db, p: Request, routed: Option<CommandKey>, q: Request, k: nat)
    requires Inv(db) && db.current < |db.runs| && Dead(db, q, k) && (p.id == q.id ==> p == q)
    ensures var r := Submit(db, p, routed); r.Ok? ==> !HasRequest(r.value.messages, q.id)
  {
    if p.id == q.id {
      DeadSubmit(db, q, routed, k);
    } else {
      hide Inv, Submit;
      SubmitChanges(db, p, routed);
    }
  }

  // ----- over every run -----

  /** Once dead, never a message. */
  lemma {:induction false} DeadForever(tr: seq<Sys>, steps: seq<Step>, epoch: Epoch, q: Request, k: nat, i: nat, j: nat)
    requires IsRun(tr, steps, epoch) && i <= j < |tr| && Dead(tr[i].db, q, k)
    requires forall n :: 0 <= n < |steps| ==> Uses(steps[n], q)
    ensures Dead(tr[j].db, q, k)
    decreases j
  {
    hide SysInv, Enabled, Apply, Start, Dead;
    if i < j {
      DeadForever(tr, steps, epoch, q, k, i, j - 1);
      Always(tr, steps, epoch, j - 1);
      assert Next(tr[j - 1], steps[j - 1], tr[j - 1 + 1]);
      DeadStays(tr[j - 1], steps[j - 1], q, k);
    }
  }

  /** Every intent frozen for the request is one of its run. */
  lemma {:induction false} RowsAlways(tr: seq<Sys>, steps: seq<Step>, epoch: Epoch, q: Request, k: nat, n: nat)
    requires IsRun(tr, steps, epoch) && n < |tr| && q.digest.target == Some(k)
    requires forall m :: 0 <= m < |steps| ==> Uses(steps[m], q)
    ensures RowsIn(tr[n].db, q, k)
  {
    hide SysInv, Enabled, Apply;
    if n > 0 {
      RowsAlways(tr, steps, epoch, q, k, n - 1);
      Always(tr, steps, epoch, n - 1);
      assert Next(tr[n - 1], steps[n - 1], tr[n - 1 + 1]);
      RowsStay(tr[n - 1], steps[n - 1], q, k);
    }
  }

  lemma MessagesStay(a: Db, b: Db, q: RequestId)
    requires Evolves(a, b) && HasRequest(a.messages, q)
    ensures HasRequest(b.messages, q)
  {}
}
