/**
 Cases and runs over whole histories: a run keeps its Case, and the Case of a run that still takes input is one the
 core knows and has not ended.
 */
module ConversationCases {
  import opened Conversation
  import opened ConversationInvariant
  import opened ConversationSteps
  import opened ConversationControl
  import opened ConversationRuns
  import opened ConversationSafety
  import opened ConversationTheorems
  import opened ConversationMeaning

  /** Runs keep their Case; a run that is new has none. */
  ghost predicate Bindings(a: Db, b: Db) {
    && |a.runs| <= |b.runs|
    && (forall k :: 0 <= k < |a.runs| && a.runs[k].caseId.Some? ==> b.runs[k].caseId == a.runs[k].caseId)
  }

  /** Like `Bindings`, for steps that bind no Case at all and prepare none. */
  ghost predicate NoBinding(a: Db, b: Db) {
    && |a.runs| <= |b.runs|
    && (forall k :: 0 <= k < |a.runs| ==>
          b.runs[k].caseId == a.runs[k].caseId && b.runs[k].createKey == a.runs[k].createKey)
    && (forall k :: |a.runs| <= k < |b.runs| ==> b.runs[k].caseId.None? && b.runs[k].createKey.None?)
  }

  /** A run that prepared a Case has heard a message, and an open run's Case is known and unfinished. */
  ghost predicate CasesLive(s: Sys) {
    && (forall k :: 0 <= k < |s.db.runs| && s.db.runs[k].createKey.Some? ==> Heard(s.db.messages, k))
    && (forall k :: 0 <= k < |s.db.runs| && s.db.runs[k].caseId.Some? && !Shut(s.db, k) ==>
          s.db.runs[k].caseId.value in s.cases && CaseUnfinished(s.cases[s.db.runs[k].caseId.value].status))
  }

  lemma HeardStays(a: Db, b: Db, k: nat)
    requires Evolves(a, b) && Heard(a.messages, k)
    ensures Heard(b.messages, k)
  {
    var i :| 0 <= i < |a.messages| && a.messages[i].run == k;
    assert b.messages[i] == a.messages[i].(status := b.messages[i].status);
  }

  lemma ShutBack(a: Db, b: Db, k: nat)
    requires Evolves(a, b) && k < |a.runs| && !Shut(b, k)
    ensures !Shut(a, k)
  {
    if Shut(a, k) { StaysShut(a, b, k); }
  }

  /** Steps that leave bindings and the core alone. */
  lemma UnboundLive(s: Sys, s2: Sys)
    requires CasesLive(s) && Evolves(s.db, s2.db) && NoBinding(s.db, s2.db) && s2.cases == s.cases
    ensures CasesLive(s2)
  {
    hide Evolves, Shut, Heard;
    forall k | 0 <= k < |s2.db.runs| && s2.db.runs[k].createKey.Some? ensures Heard(s2.db.messages, k) {
      HeardStays(s.db, s2.db, k);
    }
    forall k | 0 <= k < |s2.db.runs| && s2.db.runs[k].caseId.Some? && !Shut(s2.db, k)
      ensures s2.db.runs[k].caseId.value in s2.cases && CaseUnfinished(s2.cases[s2.db.runs[k].caseId.value].status)
    {
      ShutBack(s.db, s2.db, k);
    }
  }

  lemma SubmitBinds(s: Sys, q: Request, routed: Option<CommandKey>)
    requires SysInv(s) && s.db.current < |s.db.runs|
    ensures NoBinding(s.db, Commit(s, Submit(s.db, q, routed)).db)
  {
    hide SysInv, Inv, Submit;
    Base(s);
    SubmitChanges(s.db, q, routed);
  }

  // ----- a Case commit -----

  /** A Case that has ended leaves its run taking nothing more. */
  lemma EndedCaseSettles(t: Tx, cv: CaseView)
    requires !CaseUnfinished(cv.status) && (IsResult(cv.status) ==> cv.hasReport)
    ensures Settled(Projected(t, cv).body)
  {
    hide Close, PublishReport;
  }

  lemma EndedCommit(db: Db, cv: CaseView, records: set<Record>, k: nat)
    requires k == RunFor(db, cv.id, records) && k < |db.runs|
    requires !CaseUnfinished(cv.status) && (IsResult(cv.status) ==> cv.hasReport)
    requires var r := Project(db, cv, records); r.Ok? && ProjectEffect(db, r.value, k, cv, records)
    ensures Shut(Project(db, cv, records).value, k)
  {
    hide AcceptRestartsFrom, AcceptAdoptions, RunFor, FromIntents, Projected;
    var t := Load(db, k).(body := Load(db, k).body.(caseId := Some(cv.id)));
    var t1 := AcceptRestartsFrom(t, records, cv.id, 0).value;
    var t2 := AcceptAdoptions(t1, records, cv.id).value;
    PassesKeepRun(t, records, cv.id);
    EndedCaseSettles(t2, cv);
  }

  lemma CommitLive(s: Sys, cv: CaseView, record: Option<Record>)
    requires SysInv(s) && CasesLive(s) && Enabled(s, CommitCase(cv, record)) && s.db.current < |s.db.runs|
    ensures var s2 := Apply(s, CommitCase(cv, record)); CasesLive(s2) && Bindings(s.db, s2.db)
  {
    hide SysInv, Inv, Evolves, RunFor, Enabled, ProjectEffect, Project, Shut, Heard, RecordsWith;
    var s2 := Apply(s, CommitCase(cv, record));
    var k := RunFor(s.db, cv.id, RecordsWith(s, record));
    CommitEffect(s, cv, record);
    if s2 != s {
      CommitIs(s, cv, record);
      if k < |s.db.runs| {
        RunForTrusted(s, cv, record);
        OnlyRun(s, cv, record);
        CommitRunLive(s, s2, cv, record, k);
      } else {
        ForeignLive(s, s2, cv, record);
      }
    }
  }

  lemma CommitIs(s: Sys, cv: CaseView, record: Option<Record>)
    requires s.db.current < |s.db.runs|
    ensures var s2 := Apply(s, CommitCase(cv, record)); var r := Project(s.db, cv, RecordsWith(s, record));
            s2 != s ==> r.Ok? && s2.db == r.value && s2.cases == s.cases[cv.id := cv]
  {
    hide Project;
  }

  /** No other run has the Case. */
  lemma OnlyRun(s: Sys, cv: CaseView, record: Option<Record>)
    requires SysInv(s) && Enabled(s, CommitCase(cv, record))
    ensures var k := RunFor(s.db, cv.id, RecordsWith(s, record));
            forall j :: 0 <= j < |s.db.runs| && j != k ==> s.db.runs[j].caseId != Some(cv.id)
  {
    assert Bound(s.db, s.records);
    hide SysInv, Enabled, RunOfCreate;
  }

  lemma ForeignLive(s: Sys, s2: Sys, cv: CaseView, record: Option<Record>)
    requires SysInv(s) && CasesLive(s) && Enabled(s, CommitCase(cv, record)) && s2.db == s.db
    requires RunFor(s.db, cv.id, RecordsWith(s, record)) == |s.db.runs| && s2.cases == s.cases[cv.id := cv]
    ensures CasesLive(s2) && Bindings(s.db, s2.db)
  {
    OnlyRun(s, cv, record);
    hide SysInv, Enabled, RunFor, Heard;
  }

  lemma CommitRunLive(s: Sys, s2: Sys, cv: CaseView, record: Option<Record>, k: nat)
    requires CasesLive(s) && Evolves(s.db, s2.db) && s2.cases == s.cases[cv.id := cv]
    requires k == RunFor(s.db, cv.id, RecordsWith(s, record)) && k < |s.db.runs|
    requires var r := Project(s.db, cv, RecordsWith(s, record)); r.Ok? && s2.db == r.value
    requires ProjectEffect(s.db, s2.db, k, cv, RecordsWith(s, record)) && Enabled(s, CommitCase(cv, record))
    requires s.db.runs[k].caseId == Some(cv.id) || s.db.runs[k].caseId.None?
    requires forall j :: 0 <= j < |s.db.runs| && j != k ==> s.db.runs[j].caseId != Some(cv.id)
    ensures CasesLive(s2) && Bindings(s.db, s2.db)
  {
    if !CaseUnfinished(cv.status) { EndedCommit(s.db, cv, RecordsWith(s, record), k); }
    hide Evolves, Shut, Heard, Project, RunFor, Enabled, FromIntents, RecordsWith;
    forall j | 0 <= j < |s2.db.runs| && s2.db.runs[j].createKey.Some? ensures Heard(s2.db.messages, j) {
      HeardStays(s.db, s2.db, j);
    }
    forall j | 0 <= j < |s2.db.runs| && s2.db.runs[j].caseId.Some? && !Shut(s2.db, j)
      ensures s2.db.runs[j].caseId.value in s2.cases && CaseUnfinished(s2.cases[s2.db.runs[j].caseId.value].status)
    {
      ShutBack(s.db, s2.db, j);
    }
  }

  // ----- a restart -----

  lemma {:induction false} Counted(messages: seq<Message>, run: nat)
    ensures Heard(messages, run) ==> RunMessages(messages, run) > 0
  {
    if messages != [] {
      Counted(messages[1..], run);
      if Heard(messages, run) {
        var i :| 0 <= i < |messages| && messages[i].run == run;
        if i > 0 { assert messages[1..][i - 1].run == run; }
      }
    }
  }

  /** A restart interrupts every open run with a Case the core has lost. */
  lemma RestartedLive(s: Sys, epoch: Epoch)
    requires SysInv(s) && CasesLive(s) && Enabled(s, Restarted(epoch)) && s.db.current < |s.db.runs|
    ensures var s2 := Apply(s, Restarted(epoch)); CasesLive(s2) && Bindings(s.db, s2.db)
  {
    hide SysInv, Inv, Evolves, Shut, Heard, Recover, Recovers;
    var s2 := Apply(s, Restarted(epoch));
    var finished := Finished(s.cases);
    var r := Recover(s.db, epoch, finished, s.records);
    if r.Ok? {
      RestartedKeeps(s, epoch);
      RestartBinds(s, epoch);
      forall k | 0 <= k < |s2.db.runs| && s2.db.runs[k].createKey.Some? ensures Heard(s2.db.messages, k) {
        HeardStays(s.db, s2.db, k);
      }
      forall k | 0 <= k < |s2.db.runs| && s2.db.runs[k].caseId.Some? ensures Shut(s2.db, k) {
        if !Shut(s2.db, k) {
          ShutBack(s.db, s2.db, k);
          LostCaseInterrupts(s, epoch, k);
        }
      }
    }
  }

  lemma RestartBinds(s: Sys, epoch: Epoch)
    requires SysInv(s)
    ensures var r := Recover(s.db, epoch, Finished(s.cases), s.records);
            r.Ok? ==> |r.value.runs| == |s.db.runs|
                      && forall k :: 0 <= k < |s.db.runs| ==>
                           r.value.runs[k].caseId == s.db.runs[k].caseId
                           && r.value.runs[k].createKey == s.db.runs[k].createKey
  {
    FinishedTrusted(s);
    hide SysInv, RecoverFrom;
    RecoverFromChanges(s.db.(epoch := epoch), 0, Finished(s.cases), s.records);
  }

  lemma CreatedByKey(s: Sys, k: nat)
    requires SysInv(s) && k < |s.db.runs| && s.db.runs[k].caseId.Some?
    ensures s.db.runs[k].createKey.Some?
  {
    hide Inv;
    assert Bound(s.db, s.records);
  }

  lemma LostCaseInterrupts(s: Sys, epoch: Epoch, k: nat)
    requires SysInv(s) && CasesLive(s) && Enabled(s, Restarted(epoch)) && k < |s.db.runs|
    requires s.db.runs[k].caseId.Some? && !Shut(s.db, k)
    ensures var r := Recover(s.db, epoch, Finished(s.cases), s.records);
            r.Ok? ==> k < |r.value.runs| && Shut(r.value, k)
  {
    hide SysInv, Inv, Recover, Evolves, TrustedAll;
    CreatedByKey(s, k);
    FinishedTrusted(s);
    Base(s);
    Counted(s.db.messages, k);
    RecoveryLeavesNothingRunning(s.db, epoch, Finished(s.cases), s.records, k);
  }

  // ----- every step, every run -----

  lemma StepCases(s: Sys, step: Step)
    requires SysInv(s) && CasesLive(s) && Enabled(s, step) && s.db.current < |s.db.runs|
    ensures CasesLive(Apply(s, step)) && Bindings(s.db, Apply(s, step).db)
  {
    hide SysInv, Inv, Evolves, Enabled, CasesLive, Keeps;
    match step
    case CommitCase(cv, record) => CommitLive(s, cv, record);
    case Restarted(epoch) => RestartedLive(s, epoch);
    case AwaitCase(run, key) => AwaitLive(s, run, key);
    case _ =>
      StepKeeps(s, step);
      StepBinds(s, step);
      UnboundLive(s, Apply(s, step));
  }

  lemma AwaitLive(s: Sys, run: nat, key: CommandKey)
    requires SysInv(s) && CasesLive(s) && Enabled(s, AwaitCase(run, key)) && s.db.current < |s.db.runs|
    ensures var s2 := Apply(s, AwaitCase(run, key)); CasesLive(s2) && Bindings(s.db, s2.db)
  {
    hide SysInv, Heard;
  }

  lemma QuietBinds(s: Sys, s2: Sys)
    requires QuietStep(s, s2)
    ensures NoBinding(s.db, s2.db)
  {
    hide SysInv, Evolves;
  }

  lemma StepBinds(s: Sys, step: Step)
    requires SysInv(s) && Enabled(s, step) && s.db.current < |s.db.runs|
    requires !step.CommitCase? && !step.Restarted? && !step.AwaitCase?
    ensures NoBinding(s.db, Apply(s, step).db) && Apply(s, step).cases == s.cases
  {
    SameCore(s, step);
    hide SysInv, Inv, Evolves, Enabled, Keeps, Submit, QuietStep, Apply, NoBinding;
    if SendStep(step) {
      SendBinds(s, step);
    } else if step.BeginSend? || step.EndSend? || step.BeginSettle? {
      ThreadKeeps(s, step);
      NothingBound(s.db);
    } else {
      QuietBy(s, step);
      QuietBinds(s, Apply(s, step));
    }
  }

  lemma NothingBound(db: Db)
    ensures NoBinding(db, db)
  {}

  lemma SameCore(s: Sys, step: Step)
    requires s.db.current < |s.db.runs| && !step.CommitCase? && !step.Restarted?
    ensures Apply(s, step).cases == s.cases
  {}

  lemma SendBinds(s: Sys, step: Step)
    requires SysInv(s) && s.db.current < |s.db.runs| && SendStep(step) && !step.CommitCase?
    ensures NoBinding(s.db, Apply(s, step).db)
  {
    hide SysInv, Submit;
    match step
    case DirectSubmit(q) => SubmitBinds(s, q, None);
    case RoutedSubmit(q, key) => SubmitBinds(s, q, Some(key));
    case _ => {}
  }

  lemma QuietBy(s: Sys, step: Step)
    requires SysInv(s) && Enabled(s, step) && s.db.current < |s.db.runs| && !SendStep(step)
    requires !step.Restarted? && !step.AwaitCase? && !step.BeginSend? && !step.EndSend? && !step.BeginSettle?
    ensures QuietStep(s, Apply(s, step))
  {
    hide SysInv, Inv, Evolves, Enabled, Keeps, QuietStep, Apply;
    match step
    case FinishSettle(run) => FinishSettleKeeps(s, run);
    case BeginDispatch(_, _, _, _, _) => LedgerStepKeeps(s, step);
    case EndDispatch(_, _) => LedgerStepKeeps(s, step);
    case Adopt(_, _, _) => LedgerStepKeeps(s, step);
    case SettleIntake(_, _, _) => WorkerKeeps(s, step);
    case DraftIntake(_, _, _, _) => WorkerKeeps(s, step);
    case MarkMessage(_, _, _) => WorkerKeeps(s, step);
    case EndAdopt(_, _, _) => WorkerKeeps(s, step);
    case _ => ControlKeeps(s, step);
  }

  /** In every reachable state the Case of a run that still takes input is known to the core and unfinished. */
  lemma {:induction false} OpenRunsHaveLiveCases(tr: seq<Sys>, steps: seq<Step>, epoch: Epoch, n: nat)
    requires IsRun(tr, steps, epoch) && n < |tr|
    ensures CasesLive(tr[n])
  {
    hide SysInv, Enabled, Apply;
    if n > 0 {
      OpenRunsHaveLiveCases(tr, steps, epoch, n - 1);
      Always(tr, steps, epoch, n - 1);
      assert Next(tr[n - 1], steps[n - 1], tr[n - 1 + 1]);
      StepCases(tr[n - 1], steps[n - 1]);
    }
  }

  /** A run keeps the Case it was bound to. */
  lemma {:induction false} RunsKeepTheirCase(tr: seq<Sys>, steps: seq<Step>, epoch: Epoch, m: nat, n: nat)
    requires IsRun(tr, steps, epoch) && m <= n < |tr|
    ensures Bindings(tr[m].db, tr[n].db)
    decreases n
  {
    hide SysInv, Enabled, Apply, CasesLive;
    if m < n {
      RunsKeepTheirCase(tr, steps, epoch, m, n - 1);
      Always(tr, steps, epoch, n - 1);
      OpenRunsHaveLiveCases(tr, steps, epoch, n - 1);
      assert Next(tr[n - 1], steps[n - 1], tr[n - 1 + 1]);
      StepCases(tr[n - 1], steps[n - 1]);
    }
  }
}
