/**
 Every step of every thread keeps the invariant of the system; hence it holds throughout every run.
 */
module ConversationSafety {
  import opened Conversation
  import opened ConversationInvariant
  import opened ConversationSteps
  import opened ConversationControl
  import opened ConversationRuns

  // ----- sending -----

  /** Everything an accepted submission changes beside its own run's body. */
  ghost predicate SubmitEffect(a: Db, b: Db, q: Request, routed: Option<CommandKey>) {
    && Keeps(a, b.(restarts := a.restarts))
    && b.restarts == (if routed.Some? then CompleteRouted(a.restarts, routed.value) else a.restarts)
    && (routed.Some? ==> RestartOf(a.restarts, q.id) < |a.restarts|)
    && (forall i :: 0 <= i < |b.messages| ==>
          b.messages[i].request == q.id || HasRequest(a.messages, b.messages[i].request))
  }

  lemma SubmitChanges(db: Db, q: Request, routed: Option<CommandKey>)
    requires Inv(db)
    ensures var r := Submit(db, q, routed);
            r.Ok? && r.value != db ==> SubmitEffect(db, r.value, q, routed)
  {
    KnownRequest(db, q, routed);
    hide InvBut, Evolves, SubmitTarget, AcceptMessage, SubmitEffect, CompleteRouted, Save;
    var target := SubmitTarget(db, q, routed);
    if target.Ok? && target.value.Some? {
      var t := target.value.value;
      SubmitAccepted(db, q, routed, t);
      AcceptIs(t, q);
      SubmitRuns(db, q, routed, t);
      SaveIsView(AcceptMessage(t, q));
      var b := View(AcceptMessage(t, q));
      RunsKeep(db, b, AcceptMessage(t, q));
      OneMore(db.messages, b.messages, q.id);
      SubmittedEffect(db, b, q, routed);
    }
  }

  lemma RunsKeep(a: Db, b: Db, u: Tx)
    requires u.run < |u.db.runs| && |a.runs| <= |u.db.runs| && b == View(u)
    requires forall k :: 0 <= k < |a.runs| ==> u.db.runs[k] == a.runs[k]
    requires forall k :: |a.runs| <= k < |u.db.runs| ==>
      u.db.runs[k].caseId.None? && u.db.runs[k].createKey.None? && !u.db.runs[k].report
    requires var t := u.db.runs[u.run];
             u.body.caseId == t.caseId && u.body.createKey == t.createKey && u.body.report == t.report
    ensures Keeps(a, b.(restarts := a.restarts))
  {}

  lemma OneMore(ms: seq<Message>, ns: seq<Message>, q: RequestId)
    requires ms <= ns && |ns| == |ms| + 1 && ns[|ms|].request == q
    ensures forall i :: 0 <= i < |ns| ==> ns[i].request == q || HasRequest(ms, ns[i].request)
  {}

  lemma SubmittedEffect(a: Db, b: Db, q: Request, routed: Option<CommandKey>)
    requires Keeps(a, b.(restarts := a.restarts)) && b.restarts == a.restarts
    requires routed.Some? ==> RestartOf(a.restarts, q.id) < |a.restarts|
    requires forall i :: 0 <= i < |b.messages| ==>
      b.messages[i].request == q.id || HasRequest(a.messages, b.messages[i].request)
    ensures var c := if routed.Some? then b.(restarts := CompleteRouted(b.restarts, routed.value)) else b;
            SubmitEffect(a, c, q, routed)
  {}

  lemma SubmitRuns(db: Db, q: Request, routed: Option<CommandKey>, t: Tx)
    requires db.current < |db.runs| && SubmitTarget(db, q, routed) == Ok(Some(t))
    ensures var u := AcceptMessage(t, q);
            && t.run < |t.db.runs| && u.run == t.run && u.db.runs == t.db.runs && |db.runs| <= |t.db.runs|
            && u.body.caseId == t.body.caseId && u.body.createKey == t.body.createKey && u.body.report == t.body.report
            && (forall k :: 0 <= k < |db.runs| ==> t.db.runs[k] == db.runs[k])
            && t.body == t.db.runs[t.run]
            && (forall k :: |db.runs| <= k < |t.db.runs| ==>
                  t.db.runs[k].caseId.None? && t.db.runs[k].createKey.None? && !t.db.runs[k].report)
  {
    hide HasEvent, RestartOf, MessageOf, RunMessages, Open, TargetChanged;
  }

  lemma CompletedIntents(rs: seq<Restart>, key: CommandKey, records: set<Record>)
    requires Unaccepted(rs, records)
    ensures var ss := CompleteRouted(rs, key);
            && |ss| == |rs| && Unaccepted(ss, records)
            && forall i :: 0 <= i < |rs| ==> ss[i] == rs[i].(status := ss[i].status)
  {}

  lemma SubmitKeeps(s: Sys, q: Request, routed: Option<CommandKey>)
    requires SysInv(s) && s.db.current < |s.db.runs|
    requires routed.None? ==> s.sender == Some(q.id)
    ensures var s1 := Commit(s, Submit(s.db, q, routed)); var s2 := if routed.None? then s1.(sender := None) else s1;
            SysInv(s2) && Evolves(s.db, s2.db)
  {
    hide InvBut, Evolves, Submit;
    EvolvesReflexive(s.db);
    SubmitStep(s.db, q, routed);
    SubmitChanges(s.db, q, routed);
    var r := Submit(s.db, q, routed);
    if r.Ok? && r.value != s.db { SubmitSys(s, r.value, q, routed); }
  }

  lemma SubmitLock(s: Sys, b: Db, q: Request)
    requires LockOk(s) && RestartOf(s.db.restarts, q.id) < |s.db.restarts| && |b.restarts| == |s.db.restarts|
    requires forall i :: 0 <= i < |b.restarts| ==> b.restarts[i].request == s.db.restarts[i].request
    requires forall i :: 0 <= i < |b.messages| ==>
      b.messages[i].request == q.id || HasRequest(s.db.messages, b.messages[i].request)
    ensures LockOk(s.(db := b))
  {}

  lemma RoutedSys(s: Sys, b: Db, q: Request, key: CommandKey)
    requires SysInv(s) && SubmitEffect(s.db, b, q, Some(key)) && Bound(b.(restarts := s.db.restarts), s.records)
    ensures Unaccepted(b.restarts, s.records) && LockOk(s.(db := b)) && Bound(b, s.records)
  {
    hide Inv, Unaccepted, Functional, SettlingOk, CompleteRouted, Keeps, CasesOk, Bound, HasRequest, RestartOf, LockOk;
    CompletedIntents(s.db.restarts, key, s.records);
    SubmitLock(s, b, q);
    BoundIntents(s.db, b, s.records);
  }

  lemma SubmitSys(s: Sys, b: Db, q: Request, routed: Option<CommandKey>)
    requires SysInv(s) && Inv(b) && Evolves(s.db, b) && SubmitEffect(s.db, b, q, routed)
    ensures var s2 := if routed.None? then s.(db := b, sender := None) else s.(db := b); SysInv(s2)
  {
    var a := s.db;
    IsRows(a);
    hide InvBut, Evolves, Unaccepted, Functional, SettlingOk, CompleteRouted, Keeps, RowsOk, CasesOk, Bound, HasRequest,
      RestartOf, LockOk;
    KeepsBound(a, b.(restarts := a.restarts), s.records, s.cases);
    SettlingEvolves(s, b);
    if routed.Some? {
      RoutedSys(s, b, q, routed.value);
    } else {
      SettlingSender(s.(db := b), None);
      FreeLock(s.(db := b));
    }
    SameRuns(b.(restarts := a.restarts), b, s.cases);
  }

  lemma IsRows(db: Db)
    requires Inv(db)
    ensures RowsOk(db)
  {}

  lemma SameRuns(a: Db, b: Db, cases: map<CaseId, CaseView>)
    requires a.runs == b.runs && CasesOk(a, cases)
    ensures CasesOk(b, cases)
  {}

  lemma FreeLock(s: Sys)
    ensures LockOk(s.(sender := None))
  {}

  lemma SettlingSender(s: Sys, sender: Option<RequestId>)
    requires SettlingOk(s)
    ensures SettlingOk(s.(sender := sender))
  {}

  lemma BoundIntents(a: Db, b: Db, records: set<Record>)
    requires Bound(b.(restarts := a.restarts), records) && |a.restarts| == |b.restarts|
    requires forall i :: 0 <= i < |a.restarts| ==> b.restarts[i] == a.restarts[i].(status := b.restarts[i].status)
    ensures Bound(b, records)
  {}

  // ----- intents -----

  lemma FreezeKeeps(s: Sys, q: Request, run: nat, caseId: CaseId, op: Operation, key: CommandKey, archive: Option<nat>)
    requires SysInv(s) && Enabled(s, FreezeIntent(q, run, caseId, op, key, archive)) && s.db.current < |s.db.runs|
    ensures var s2 := Commit(s, Freeze(s.db, q, run, caseId, op, key, archive)).(sender := None);
            SysInv(s2) && Evolves(s.db, s2.db)
  {
    hide InvBut, Evolves, Bound, CasesOk, SettlingOk, Functional, TargetChanged;
    EvolvesReflexive(s.db);
    FreezeStep(s.db, q, run, caseId, op, key, archive);
    SettlingSender(s, None);
    var r := Freeze(s.db, q, run, caseId, op, key, archive);
    if r.Ok? && r.value != s.db {
      var row := Restart(q.id, run, q.digest, caseId, key, op, RestartIsPending, s.db.nextId, archive);
      BoundRows(s.db, s.records);
      MoreIntents(s.(sender := None), r.value, row);
    }
  }

  lemma MoreIntents(s: Sys, b: Db, row: Restart)
    requires SysInv(s) && s.sender.None? && Inv(b) && Evolves(s.db, b)
    requires b == s.db.(restarts := s.db.restarts + [row], nextId := s.db.nextId + 1)
    requires row.run < |b.runs| && b.runs[row.run].caseId == Some(row.caseId)
    requires Record(row.op, row.key, row.caseId) !in s.records
    ensures SysInv(s.(db := b))
  {
    hide InvBut, Evolves, CasesOk, SettlingOk, Functional;
    BoundRows(s.db, s.records);
    assert forall i :: 0 <= i < |s.db.restarts| ==> b.restarts[i] == s.db.restarts[i];
    IntentsOnly(s, b);
  }

  lemma BoundRows(db: Db, records: set<Record>)
    requires Inv(db) && Bound(db, records)
    ensures forall i :: 0 <= i < |db.restarts| ==>
      db.restarts[i].run < |db.runs| && db.runs[db.restarts[i].run].caseId == Some(db.restarts[i].caseId)
  {}

  /** The intents differ in one row, which keeps its identity. */
  lemma OneIntent(s: Sys, r: nat, row: Restart)
    requires SysInv(s) && r < |s.db.restarts| && RestartStep(s.db.restarts[r], row)
    requires var b := s.db.(restarts := s.db.restarts[r := row]); Inv(b) && Evolves(s.db, b)
    requires row.status == RestartIsPending ==> Record(row.op, row.key, row.caseId) !in s.records
    ensures SysInv(s.(db := s.db.(restarts := s.db.restarts[r := row])))
  {
    hide InvBut, Evolves;
    BoundRows(s.db, s.records);
    IntentsOnly(s, s.db.(restarts := s.db.restarts[r := row]));
  }

  lemma {:induction false} RetargetKeeps(s: Sys, key: CommandKey, newKey: CommandKey)
    requires SysInv(s) && (RestartWithKey(s.db.restarts, key) < |s.db.restarts| ==> NewKey(s, newKey))
    ensures var s2 := Commit(s, Retarget(s.db, key, newKey)); SysInv(s2) && Evolves(s.db, s2.db)
  {
    hide InvBut, Evolves, Bound, CasesOk, LockOk, SettlingOk, Functional;
    EvolvesReflexive(s.db);
    var r := RestartWithKey(s.db.restarts, key);
    if Retarget(s.db, key, newKey).Ok? {
      RetargetStep(s.db, key, newKey);
      OneIntent(s, r, s.db.restarts[r].(op := RestartGeneric, key := newKey));
    }
  }

  lemma FinishKeeps(s: Sys, key: CommandKey, rejected: bool)
    requires SysInv(s) && (!rejected ==> Enabled(s, CompleteIntent(key)))
    ensures var b := FinishRestart(s.db, key, rejected); SysInv(s.(db := b)) && Evolves(s.db, b)
  {
    hide InvBut, Evolves, Bound, CasesOk, LockOk, SettlingOk, Functional;
    EvolvesReflexive(s.db);
    var r := RestartWithKey(s.db.restarts, key);
    FinishRestartStep(s.db, key, rejected);
    if r < |s.db.restarts| && Live(s.db.restarts[r].status) {
      OneIntent(s, r, s.db.restarts[r].(status := if rejected then RestartRejected else RestartCompleted));
    }
  }

  // ----- a Case commit -----

  /** What a projection may change outside the run it projects on, and of that run's bindings. */
  ghost predicate ProjectEffect(a: Db, b: Db, k: nat, cv: CaseView, records: set<Record>) {
    && k < |a.runs| && |b.runs| == |a.runs| && (forall i :: 0 <= i < |a.runs| && i != k ==> b.runs[i] == a.runs[i])
    && b.runs[k].createKey == a.runs[k].createKey
    && (b.runs[k] == a.runs[k] || b.runs[k].caseId == Some(cv.id))
    && (b.runs[k].report ==> a.runs[k].report || (IsResult(cv.status) && b.runs[k].caseId == Some(cv.id)))
    && |b.restarts| == |a.restarts|
    && (forall i :: 0 <= i < |a.restarts| ==>
          b.restarts[i] == if Accepts(a.restarts[i], k, records, cv.id)
                           then a.restarts[i].(status := RestartCommitted) else a.restarts[i])
    && FromIntents(a, b) && AddedTo(a, b, k) && (|b.messages| > |a.messages| ==> !Shut(a, k))
  }

  /** Nothing more is accepted for the run. */
  predicate Shut(db: Db, k: nat) { db.deleted || (k < |db.runs| && Settled(db.runs[k])) }

  /** The end of a projection: `t` is loaded and bound, `u` has passed the intents and adoptions. */
  lemma ProjectedEffect(db: Db, t: Tx, u: Tx, cv: CaseView, records: set<Record>)
    requires TxOk(u) && t.run < |db.runs| && t == Load(db, t.run).(body := t.body)
             && t.body == db.runs[t.run].(caseId := Some(cv.id))
    requires u.run == t.run && u.db.runs == t.db.runs && u.body.createKey == t.body.createKey
             && u.body.report == t.body.report
    requires RestartsPassed(t, u, records, cv.id, 0) && FromIntents(db, u.db) && AddedTo(db, u.db, t.run)
    requires |u.db.messages| > |db.messages| ==> Open(t)
    requires Closed(u.body.status) || Evolves(View(u), ProjectCase(u, cv))
    ensures ProjectEffect(db, ProjectCase(u, cv), t.run, cv, records)
  {
    hide Projected, Evolves, FromIntents;
    if !Closed(u.body.status) {
      var v := Projected(u, cv);
      assert SameRows(u, v) && ProjectCase(u, cv).messages == v.db.messages;
      FromIntentsView(db, u, ProjectCase(u, cv));
      AddedSame(db, View(u), ProjectCase(u, cv), t.run);
    }
  }

  lemma AddedSame(a: Db, b: Db, c: Db, run: nat)
    requires AddedTo(a, b, run) && Evolves(b, c) && |c.messages| == |b.messages|
    ensures AddedTo(a, c, run)
  {}

  lemma FromIntentsView(db: Db, u: Tx, c: Db)
    requires TxOk(u) && FromIntents(db, u.db) && Evolves(View(u), c) && |c.messages| == |u.db.messages|
    ensures FromIntents(db, c)
  {}

  lemma ProjectChanges(db: Db, cv: CaseView, records: set<Record>, k: nat)
    requires Inv(db) && k == RunFor(db, cv.id, records) && k < |db.runs|
    requires Closed(db.runs[k].status) || Trusted(cv, db.runs[k])
    ensures var r := Project(db, cv, records); r.Ok? ==> ProjectEffect(db, r.value, k, cv, records)
  {
    hide InvBut, Evolves, AcceptRestartsFrom, AcceptAdoptions, ProjectCase, ProjectEffect, FromIntents, RunFor;
    if Project(db, cv, records).Ok? {
      BoundOk(db, k, cv.id);
      var t := Load(db, k).(body := Load(db, k).body.(caseId := Some(cv.id)));
      AcceptRestartsOk(t, records, cv.id, 0);
      var t1 := AcceptRestartsFrom(t, records, cv.id, 0).value;
      AcceptAdoptionsOk(t1, records, cv.id);
      var t2 := AcceptAdoptions(t1, records, cv.id).value;
      FromIntentsView2(t.db, t1, t2);
      AddedSame(t.db, View(t1), View(t2), k);
      if !Closed(t2.body.status) { ProjectCaseOk(t2, cv); }
      ProjectedEffect(db, t, t2, cv, records);
    }
  }

  lemma FromIntentsView2(db: Db, t: Tx, u: Tx)
    requires TxOk(t) && TxOk(u) && FromIntents(db, t.db) && Evolves(View(t), View(u)) && SameShell(t, u)
    ensures FromIntents(db, u.db)
  {}

  /** A run found by its creation request has no Case yet, so nothing was frozen on it. */
  lemma {:induction false} CreatedRunIsUnbound(db: Db, c: CaseId, records: set<Record>)
    requires Bound(db, records) && Functional(records)
    requires RunOfCase(db.runs, c) == |db.runs| && RunOfCreate(db.runs, c, records) < |db.runs|
    ensures db.runs[RunOfCreate(db.runs, c, records)].caseId.None?
  {}

  function RecordsWith(s: Sys, record: Option<Record>): set<Record> {
    if record.Some? then s.records + {record.value} else s.records
  }

  lemma MoreRecords(s: Sys, cv: CaseView, record: Option<Record>)
    requires SysInv(s) && Enabled(s, CommitCase(cv, record))
    ensures Bound(s.db, RecordsWith(s, record)) && Functional(RecordsWith(s, record))
  {}

  /** The Case of a run that can still change is one the core may project on it. */
  lemma RunForTrusted(s: Sys, cv: CaseView, record: Option<Record>)
    requires SysInv(s) && Enabled(s, CommitCase(cv, record))
    ensures var k := RunFor(s.db, cv.id, RecordsWith(s, record));
            k < |s.db.runs| ==>
              && Trusted(cv, s.db.runs[k])
              && (s.db.runs[k].caseId == Some(cv.id) || s.db.runs[k].caseId.None?)
              && (s.db.runs[k].caseId.None? ==> RunOfCase(s.db.runs, cv.id) == |s.db.runs|)
              && s.db.runs[k].createKey.Some?
              && Record(CreateCase, s.db.runs[k].createKey.value, cv.id) in RecordsWith(s, record)
  {
    MoreRecords(s, cv, record);
    var records := RecordsWith(s, record);
    hide InvBut, Unaccepted, LockOk, SettlingOk;
    if RunOfCase(s.db.runs, cv.id) == |s.db.runs| && RunOfCreate(s.db.runs, cv.id, records) < |s.db.runs| {
      CreatedRunIsUnbound(s.db, cv.id, records);
    }
  }

  /** A row the core has just accepted the command of belongs to the run of that Case. */
  lemma AcceptedRowRun(s: Sys, cv: CaseView, record: Option<Record>, i: nat)
    requires SysInv(s) && Enabled(s, CommitCase(cv, record))
    requires i < |s.db.restarts| && s.db.restarts[i].status == RestartIsPending
    requires var rs := s.db.restarts[i]; Record(rs.op, rs.key, rs.caseId) in RecordsWith(s, record)
    ensures s.db.restarts[i].run == RunFor(s.db, cv.id, RecordsWith(s, record)) && s.db.restarts[i].caseId == cv.id
    ensures s.db.restarts[i].run < |s.db.runs|
  {}

  lemma ProjectIntents(s: Sys, b: Db, k: nat, cv: CaseView, record: Option<Record>)
    requires SysInv(s) && Enabled(s, CommitCase(cv, record)) && k == RunFor(s.db, cv.id, RecordsWith(s, record))
    requires ProjectEffect(s.db, b, k, cv, RecordsWith(s, record))
    ensures Unaccepted(b.restarts, RecordsWith(s, record))
  {
    hide InvBut, CasesOk, LockOk, SettlingOk, RunFor, Bound, FromIntents;
    forall i | 0 <= i < |b.restarts| && b.restarts[i].status == RestartIsPending
      ensures Record(b.restarts[i].op, b.restarts[i].key, b.restarts[i].caseId) !in RecordsWith(s, record)
    {
      var rs := s.db.restarts[i];
      if Record(rs.op, rs.key, rs.caseId) in RecordsWith(s, record) { AcceptedRowRun(s, cv, record, i); }
    }
  }

  lemma ProjectBound(s: Sys, b: Db, k: nat, cv: CaseView, record: Option<Record>)
    requires SysInv(s) && Enabled(s, CommitCase(cv, record)) && k == RunFor(s.db, cv.id, RecordsWith(s, record))
    requires ProjectEffect(s.db, b, k, cv, RecordsWith(s, record))
    ensures Bound(b, RecordsWith(s, record)) && CasesOk(b, s.cases[cv.id := cv])
  {
    MoreRecords(s, cv, record);
    RunForTrusted(s, cv, record);
    BoundRows(s.db, s.records);
    hide InvBut, LockOk, SettlingOk, RunFor, FromIntents, Unaccepted, Functional, CasesOk, Bound, ProjectEffect,
      Enabled;
    ProjectCases(s, b, k, cv, record);
    ProjectBinding(s.db, b, k, cv, RecordsWith(s, record));
  }

  lemma ProjectBinding(a: Db, b: Db, k: nat, cv: CaseView, records: set<Record>)
    requires Bound(a, records) && ProjectEffect(a, b, k, cv, records)
    requires forall i :: 0 <= i < |a.restarts| ==>
      a.restarts[i].run < |a.runs| && a.runs[a.restarts[i].run].caseId == Some(a.restarts[i].caseId)
    requires a.runs[k].caseId == Some(cv.id) || (a.runs[k].caseId.None? && RunOfCase(a.runs, cv.id) == |a.runs|)
    requires a.runs[k].createKey.Some? && Record(CreateCase, a.runs[k].createKey.value, cv.id) in records
    ensures Bound(b, records)
  {}

  lemma ProjectCases(s: Sys, b: Db, k: nat, cv: CaseView, record: Option<Record>)
    requires CasesOk(s.db, s.cases) && Enabled(s, CommitCase(cv, record))
    requires ProjectEffect(s.db, b, k, cv, RecordsWith(s, record))
    requires s.db.runs[k].caseId == Some(cv.id) || s.db.runs[k].caseId.None?
    ensures CasesOk(b, s.cases[cv.id := cv])
  {}

  lemma ProjectLock(s: Sys, b: Db, cv: CaseView, k: nat, records: set<Record>)
    requires LockOk(s) && ProjectEffect(s.db, b, k, cv, records)
    ensures LockOk(s.(db := b))
  {}

  /** A commit the database knows no run for leaves it alone. */
  lemma ForeignCommit(s: Sys, cv: CaseView, record: Option<Record>)
    requires SysInv(s) && Enabled(s, CommitCase(cv, record))
    requires RunFor(s.db, cv.id, RecordsWith(s, record)) == |s.db.runs|
    ensures Unaccepted(s.db.restarts, RecordsWith(s, record)) && CasesOk(s.db, s.cases[cv.id := cv])
  {
    hide InvBut, LockOk, SettlingOk, Bound, Functional;
    assert RunOfCase(s.db.runs, cv.id) == |s.db.runs|;
    forall i | 0 <= i < |s.db.restarts| && s.db.restarts[i].status == RestartIsPending
      ensures Record(s.db.restarts[i].op, s.db.restarts[i].key, s.db.restarts[i].caseId) !in RecordsWith(s, record)
    {
      var rs := s.db.restarts[i];
      if Record(rs.op, rs.key, rs.caseId) in RecordsWith(s, record) { AcceptedRowRun(s, cv, record, i); }
    }
  }

  lemma CommitKeeps(s: Sys, cv: CaseView, record: Option<Record>)
    requires SysInv(s) && Enabled(s, CommitCase(cv, record)) && s.db.current < |s.db.runs|
    ensures var s2 := Apply(s, CommitCase(cv, record)); SysInv(s2) && Evolves(s.db, s2.db)
  {
    hide InvBut, Evolves, Bound, Unaccepted, Functional, CasesOk, LockOk, SettlingOk, Enabled, Project, RunFor,
      ProjectEffect;
    EvolvesReflexive(s.db);
    var records := RecordsWith(s, record);
    var k := RunFor(s.db, cv.id, records);
    var r := Project(s.db, cv, records);
    MoreRecords(s, cv, record);
    if k == |s.db.runs| {
      ForeignCommit(s, cv, record);
      NoRun(s.db, cv, records);
      SettlingCore(s, s.db, s.cases[cv.id := cv], records);
    } else if r.Ok? {
      RunForTrusted(s, cv, record);
      ProjectStep(s.db, cv, records);
      ProjectChanges(s.db, cv, records, k);
      ProjectIntents(s, r.value, k, cv, record);
      ProjectBound(s, r.value, k, cv, record);
      ProjectLock(s, r.value, cv, k, records);
      SettlingEvolves(s, r.value);
      SettlingCore(s, r.value, s.cases[cv.id := cv], records);
    }
  }

  lemma NoRun(db: Db, cv: CaseView, records: set<Record>)
    requires RunFor(db, cv.id, records) == |db.runs|
    ensures Project(db, cv, records) == Ok(db)
  {}

  /** Locks and settling threads do not look at what the core holds. */
  lemma SettlingCore(s: Sys, b: Db, cases: map<CaseId, CaseView>, records: set<Record>)
    requires SettlingOk(s.(db := b)) && LockOk(s.(db := b))
    ensures var s2 := s.(db := b, cases := cases, records := records); SettlingOk(s2) && LockOk(s2)
  {}

  // ----- recovery -----

  /** What recovery leaves of the bindings of run `k`; a report it publishes is that of a finished Case. */
  ghost predicate Recovered(a: Run, b: Run, finished: map<CaseId, CaseView>) {
    && b.caseId == a.caseId && b.createKey == a.createKey
    && (b.report ==>
          a.report || (a.caseId.Some? && a.caseId.value in finished && IsResult(finished[a.caseId.value].status)))
  }

  lemma RecoverRunChanges(db: Db, k: nat, finished: map<CaseId, CaseView>, records: set<Record>)
    requires k < |db.runs| && forall c :: c in finished ==> finished[c].id == c
    ensures var r := RecoverRun(db, k, finished, records);
            r.Ok? ==>
              && r.value.restarts == db.restarts && |r.value.messages| == |db.messages|
              && (forall i :: 0 <= i < |db.runs| && i != k ==> r.value.runs[i] == db.runs[i])
              && Recovered(db.runs[k], r.value.runs[k], finished)
  {
    hide AcceptAdoptions, Projected, Close, Save, StampEpoch, SameRows;
    var t := Load(db, k);
    var r := RecoverRun(db, k, finished, records);
    if !Closed(t.body.status) && t.body.epoch != db.epoch && r.Ok? {
      if t.body.caseId.Some? && t.body.caseId.value in finished {
        var cv := finished[t.body.caseId.value];
        AdoptionsShell(t, records, cv.id);
        var t1 := AcceptAdoptions(t, records, cv.id).value;
        RowsTrans(t, t1, Projected(t1, cv));
        SaveRow(db, k, Projected(t1, cv));
        StampRow(Save(Projected(t1, cv)), k);
      } else if !t.body.stop && RunMessages(db.messages, k) > 0 {
        SaveRow(db, k, Close(t, Interrupted));
        StampRow(Save(Close(t, Interrupted)), k);
      } else {
        StampRow(db, k);
      }
    }
  }

  lemma RowsTrans(t: Tx, u: Tx, v: Tx)
    requires SameShell(t, u) && SameRows(u, v)
    ensures SameRows(t, v)
  {}

  lemma SaveRow(db: Db, k: nat, u: Tx)
    requires k < |db.runs| && SameRows(Load(db, k), u)
    ensures Save(u).runs == db.runs[k := u.body] && Save(u).restarts == db.restarts
            && |Save(u).messages| == |db.messages|
  {}

  lemma StampRow(db: Db, k: nat)
    requires k < |db.runs|
    ensures var b := StampEpoch(db, k);
            && b.runs == db.runs[k := db.runs[k].(epoch := db.epoch)] && b.restarts == db.restarts
            && b.messages == db.messages
  {}

  lemma AdoptionsShell(t: Tx, records: set<Record>, c: CaseId)
    ensures var r := AcceptAdoptions(t, records, c); r.Ok? ==> SameShell(t, r.value)
  {}

  lemma {:induction false} RecoverFromChanges(db: Db, k: nat, finished: map<CaseId, CaseView>, records: set<Record>)
    requires forall c :: c in finished ==> finished[c].id == c
    ensures var r := RecoverFrom(db, k, finished, records);
            r.Ok? ==>
              && r.value.restarts == db.restarts && |r.value.runs| == |db.runs| && |r.value.messages| == |db.messages|
              && (forall i :: 0 <= i < |db.runs| && i < k ==> r.value.runs[i] == db.runs[i])
              && forall i :: k <= i < |db.runs| ==> Recovered(db.runs[i], r.value.runs[i], finished)
    decreases |db.runs| - k
  {
    if k < |db.runs| {
      RecoverRunChanges(db, k, finished, records);
      var r := RecoverRun(db, k, finished, records);
      hide RecoverRun, Recovered;
      if r.Ok? { RecoverFromChanges(r.value, k + 1, finished, records); }
    }
  }

  lemma FinishedTrusted(s: Sys)
    requires SysInv(s)
    ensures TrustedAll(Finished(s.cases), s.db) && forall c :: c in Finished(s.cases) ==> Finished(s.cases)[c].id == c
  {}

  lemma RecoverBound(a: Db, b: Db, cases: map<CaseId, CaseView>, records: set<Record>)
    requires Bound(a, records) && CasesOk(a, cases) && b.restarts == a.restarts && |b.runs| == |a.runs|
    requires forall i :: 0 <= i < |a.runs| ==> Recovered(a.runs[i], b.runs[i], Finished(cases))
    ensures Bound(b, records) && CasesOk(b, Finished(cases))
  {}

  lemma RestartedKeeps(s: Sys, epoch: Epoch)
    requires SysInv(s) && s.db.current < |s.db.runs|
    ensures var s2 := Apply(s, Restarted(epoch)); SysInv(s2) && Evolves(s.db, s2.db)
  {
    hide InvBut, Evolves, Bound, Unaccepted, Functional, CasesOk, Recovered, RecoverFrom;
    EvolvesReflexive(s.db);
    FinishedTrusted(s);
    var finished := Finished(s.cases);
    RecoverStep(s.db, epoch, finished, s.records);
    var a := s.db.(epoch := epoch);
    RecoverFromChanges(a, 0, finished, s.records);
    var r := Recover(s.db, epoch, finished, s.records);
    if r.Ok? {
      if s.db.deleted { RecoveredSame(s.db.runs, finished); }
      RecoverBound(s.db, r.value, s.cases, s.records);
    }
  }

  lemma RecoveredSame(runs: seq<Run>, finished: map<CaseId, CaseView>)
    ensures forall i :: 0 <= i < |runs| ==> Recovered(runs[i], runs[i], finished)
  {}

  // ----- every step -----

  lemma ExpectKeeps(s: Sys, run: nat, key: CommandKey)
    requires SysInv(s)
    ensures var s2 := Commit(s, ExpectCase(s.db, run, key)); SysInv(s2) && Evolves(s.db, s2.db)
  {
    hide InvBut, Evolves, Unaccepted, Functional;
    EvolvesReflexive(s.db);
    ExpectCaseStep(s.db, run, key);
    var r := ExpectCase(s.db, run, key);
    if r.Ok? {
      SettlingEvolves(s, r.value);
      hide SettlingOk;
      ExpectBound(s.db, r.value, run, key, s.records);
    }
  }

  lemma ExpectBound(a: Db, b: Db, run: nat, key: CommandKey, records: set<Record>)
    requires Bound(a, records) && ExpectCase(a, run, key) == Ok(b)
    ensures Bound(b, records)
  {}

  lemma IntakeKeeps(db: Db, run: nat, draft: nat, questions: seq<Question>, status: RunStatus)
    requires RowsOk(db)
    ensures var r := UpdateIntake(db, run, draft, questions, status);
            r.Ok? ==> Keeps(db, r.value) && SameMessages(db, r.value)
  {
    hide Save, Append, RowsOk;
    if run < |db.runs| { SaveKeeps(db, run, Drafted(Load(db, run), draft, questions, status)); }
  }

  lemma EmitKeeps(db: Db, run: nat, key: EventKey, readied: set<nat>)
    requires RowsOk(db)
    ensures var r := AppendEvent(db, run, key, readied); r.Ok? ==> Keeps(db, r.value) && SameMessages(db, r.value)
  {
    hide Save, Append;
    if run < |db.runs| { SaveKeeps(db, run, Append(Load(db, run), key)); }
  }

  /** A transaction that leaves bindings, intents and the number of messages alone. */
  lemma QuietCommit(s: Sys, o: Outcome<Db>)
    requires SysInv(s)
    requires o.Ok? ==> Inv(o.value) && Evolves(s.db, o.value) && Keeps(s.db, o.value) && SameMessages(s.db, o.value)
    ensures QuietStep(s, Commit(s, o))
  {
    hide InvBut, Evolves, Bound, CasesOk, Unaccepted, Functional, LockOk, SettlingOk;
    EvolvesReflexive(s.db);
    if o.Ok? { Quiet(s, o.value); }
  }

  ghost predicate QuietStep(s: Sys, s2: Sys) {
    && SysInv(s2) && Evolves(s.db, s2.db) && s2.db.restarts == s.db.restarts && |s2.db.messages| == |s.db.messages|
    && Keeps(s.db, s2.db)
  }

  lemma Base(s: Sys)
    requires SysInv(s)
    ensures Inv(s.db) && RowsOk(s.db)
  {}

  lemma DeleteKeeps(db: Db)
    ensures Keeps(db, Delete(db)) && SameMessages(db, Delete(db))
  {
    if !db.deleted { DeleteFromKeeps(db.(deleted := true), 0); }
  }

  /** The steps of the control threads. */
  lemma ControlKeeps(s: Sys, step: Step)
    requires SysInv(s) && s.db.current < |s.db.runs|
    requires step.AskStop? || step.AskIdleStop? || step.DeleteConversation? || step.Fail? || step.Emit?
    ensures QuietStep(s, Apply(s, step))
  {
    hide SysInv, Inv, Evolves, RequestStop, RequestIdleStop, Delete, FailRun, AppendEvent, RowsOk, Keeps, QuietStep,
      SameMessages;
    Base(s);
    match step
    case AskStop(request, run) =>
      RequestStopStep(s.db, request, run); RequestStopKeeps(s.db, request, run);
      QuietCommit(s, RequestStop(s.db, request, run));
    case AskIdleStop(run, idle) =>
      IdleStopStep(s.db, run, idle); IdleStopKeeps(s.db, run, idle);
      QuietCommit(s, RequestIdleStop(s.db, run, idle));
    case DeleteConversation =>
      DeleteStep(s.db); DeleteKeeps(s.db);
      QuietCommit(s, Ok(Delete(s.db)));
    case Fail(run, interrupted) =>
      FailRunStep(s.db, run, interrupted); FailKeeps(s.db, run, interrupted);
      QuietCommit(s, FailRun(s.db, run, interrupted));
    case Emit(run, key, readied) =>
      AppendEventStep(s.db, run, key, readied); EmitKeeps(s.db, run, key, readied);
      QuietCommit(s, AppendEvent(s.db, run, key, readied));
    case _ => {}
  }

  /** The steps of the worker that runs intake. */
  lemma WorkerKeeps(s: Sys, step: Step)
    requires SysInv(s) && Enabled(s, step) && s.db.current < |s.db.runs|
    requires step.SettleIntake? || step.DraftIntake? || step.MarkMessage? || step.EndAdopt?
    ensures QuietStep(s, Apply(s, step))
  {
    hide SysInv, Inv, Evolves, FinishIntake, UpdateIntake, SetMessageStatus, FinishAdoption, RowsOk, Keeps, QuietStep,
      SameMessages;
    Base(s);
    match step
    case SettleIntake(run, ids, questions) =>
      FinishIntakeStep(s.db, run, ids, questions); FinishIntakeKeeps(s.db, run, ids, questions);
      QuietCommit(s, FinishIntake(s.db, run, ids, questions));
    case DraftIntake(run, draft, questions, status) =>
      UpdateIntakeIff(s.db, run, draft, questions, status); IntakeKeeps(s.db, run, draft, questions, status);
      QuietCommit(s, UpdateIntake(s.db, run, draft, questions, status));
    case MarkMessage(run, id, status) =>
      SetMessageStatusStep(s.db, run, id, status); MarkMessageKeeps(s.db, run, id, status);
      QuietCommit(s, SetMessageStatus(s.db, run, id, status));
    case EndAdopt(run, id, accepted) =>
      FinishAdoptionStep(s.db, run, id, accepted); EndAdoptKeeps(s.db, run, id, accepted);
      QuietCommit(s, FinishAdoption(s.db, run, id, accepted));
    case _ => {}
  }

  lemma RecordKeeps(db: Db, run: nat, id: DispatchId, op: Operation, key: CommandKey, batch: Option<seq<MessageId>>)
    ensures var r := RecordDispatch(db, run, id, op, key, batch);
            r.Ok? ==> Keeps(db, r.value) && SameMessages(db, r.value)
  {}

  lemma AdoptKeeps(db: Db, run: nat, id: MessageId, dispatch: DispatchId)
    ensures var r := BeginAdoption(db, run, id, dispatch); r.Ok? ==> Keeps(db, r.value) && SameMessages(db, r.value)
  {}

  /** The steps that only touch the dispatch ledger and the adoptions. */
  lemma LedgerStepKeeps(s: Sys, step: Step)
    requires SysInv(s) && s.db.current < |s.db.runs|
    requires step.BeginDispatch? || step.EndDispatch? || step.Adopt?
    ensures QuietStep(s, Apply(s, step))
  {
    hide SysInv, Inv, Evolves, RecordDispatch, CompleteDispatch, BeginAdoption, RowsOk, Keeps, QuietStep, SameMessages;
    Base(s);
    match step
    case BeginDispatch(run, id, op, key, batch) =>
      RecordDispatchStep(s.db, run, id, op, key, batch); RecordKeeps(s.db, run, id, op, key, batch);
      QuietCommit(s, RecordDispatch(s.db, run, id, op, key, batch));
    case EndDispatch(id, status) =>
      CompleteDispatchStep(s.db, id, status); CompleteKeeps(s.db, id, status);
      QuietCommit(s, Ok(CompleteDispatch(s.db, id, status)));
    case Adopt(run, id, dispatch) =>
      BeginAdoptionStep(s.db, run, id, dispatch); AdoptKeeps(s.db, run, id, dispatch);
      QuietCommit(s, BeginAdoption(s.db, run, id, dispatch));
    case _ => {}
  }

  lemma CompleteKeeps(db: Db, id: DispatchId, status: DispatchStatus)
    ensures Keeps(db, CompleteDispatch(db, id, status)) && SameMessages(db, CompleteDispatch(db, id, status))
  {}

  lemma FinishSettleKeeps(s: Sys, run: nat)
    requires SysInv(s) && Enabled(s, FinishSettle(run)) && s.db.current < |s.db.runs|
    ensures QuietStep(s, Apply(s, FinishSettle(run)))
  {
    hide SysInv, Inv, Evolves, FinishStop, RowsOk, Keeps, Stoppable, SameMessages;
    Base(s);
    IsStoppable(s, run);
    FinishStopStep(s.db, run);
    FinishStopKeeps(s.db, run);
    QuietCommit(s, FinishStop(s.db, run));
    FewerSettling(Commit(s, FinishStop(s.db, run)), run);
  }

  lemma IsStoppable(s: Sys, run: nat)
    requires SysInv(s) && run in s.settling
    ensures Stoppable(s.db, run)
  {}

  lemma CancellingStops(db: Db, run: nat)
    requires Inv(db) && run < |db.runs| && db.runs[run].status == Cancelling
    ensures Stoppable(db, run)
  {}

  lemma FewerSettling(s: Sys, run: nat)
    requires SysInv(s)
    ensures SysInv(s.(settling := s.settling - {run}))
  {}

  /** Steps that touch no table. */
  lemma ThreadKeeps(s: Sys, step: Step)
    requires SysInv(s) && Enabled(s, step) && s.db.current < |s.db.runs|
    requires step.BeginSend? || step.EndSend? || step.BeginSettle?
    ensures SysInv(Apply(s, step)) && Apply(s, step).db == s.db
  {
    hide InvBut, Bound, CasesOk, Unaccepted, Functional;
    match step
    case BeginSend(q) => {}
    case EndSend => SettlingSender(s, None);
    case BeginSettle(run) => CancellingStops(s.db, run);
    case _ => {}
  }

  /** The steps that may add a message or change an intent. */
  predicate SendStep(step: Step) {
    step.DirectSubmit? || step.RoutedSubmit? || step.FreezeIntent? || step.RetargetIntent? || step.RejectIntent?
    || step.CompleteIntent? || step.CommitCase?
  }

  lemma StepKeeps(s: Sys, step: Step)
    requires SysInv(s) && Enabled(s, step) && s.db.current < |s.db.runs|
    ensures SysInv(Apply(s, step)) && Evolves(s.db, Apply(s, step).db)
  {
    hide SysInv, Inv, Evolves, Enabled;
    EvolvesReflexive(s.db);
    match step
    case BeginSend(_) => ThreadKeeps(s, step);
    case EndSend => ThreadKeeps(s, step);
    case BeginSettle(_) => ThreadKeeps(s, step);
    case DirectSubmit(q) => DirectKeeps(s, q);
    case RoutedSubmit(q, key) => SubmitKeeps(s, q, Some(key));
    case FreezeIntent(q, run, caseId, op, key, archive) => FreezeKeeps(s, q, run, caseId, op, key, archive);
    case RetargetIntent(key, newKey) => RetargetEnabled(s, key, newKey);
    case RejectIntent(key) => FinishKeeps(s, key, true);
    case CompleteIntent(key) => FinishKeeps(s, key, false);
    case CommitCase(cv, record) => CommitKeeps(s, cv, record);
    case FinishSettle(run) => FinishSettleKeeps(s, run);
    case AwaitCase(run, key) => ExpectKeeps(s, run, key);
    case Restarted(epoch) => RestartedKeeps(s, epoch);
    case AskStop(_, _) => ControlKeeps(s, step);
    case AskIdleStop(_, _) => ControlKeeps(s, step);
    case DeleteConversation => ControlKeeps(s, step);
    case Fail(_, _) => ControlKeeps(s, step);
    case Emit(_, _, _) => ControlKeeps(s, step);
    case BeginDispatch(_, _, _, _, _) => LedgerStepKeeps(s, step);
    case EndDispatch(_, _) => LedgerStepKeeps(s, step);
    case Adopt(_, _, _) => LedgerStepKeeps(s, step);
    case _ => WorkerKeeps(s, step);
  }

  lemma DirectKeeps(s: Sys, q: Request)
    requires SysInv(s) && Enabled(s, DirectSubmit(q)) && s.db.current < |s.db.runs|
    ensures var s2 := Apply(s, DirectSubmit(q)); SysInv(s2) && Evolves(s.db, s2.db)
  {
    hide SysInv, Evolves, Submit;
    SubmitKeeps(s, q, None);
  }

  lemma RetargetEnabled(s: Sys, key: CommandKey, newKey: CommandKey)
    requires SysInv(s) && Enabled(s, RetargetIntent(key, newKey)) && s.db.current < |s.db.runs|
    ensures var s2 := Apply(s, RetargetIntent(key, newKey)); SysInv(s2) && Evolves(s.db, s2.db)
  {
    hide SysInv, Evolves, Retarget;
    RetargetKeeps(s, key, newKey);
  }

  /** No other step adds a message or changes an intent. */
  lemma OtherStepsQuiet(s: Sys, step: Step)
    requires SysInv(s) && Enabled(s, step) && s.db.current < |s.db.runs| && !SendStep(step)
    ensures var b := Apply(s, step).db; b.restarts == s.db.restarts && |b.messages| == |s.db.messages|
  {
    hide SysInv, Inv, Evolves, Enabled;
    match step
    case BeginSend(_) => ThreadKeeps(s, step);
    case EndSend => ThreadKeeps(s, step);
    case BeginSettle(_) => ThreadKeeps(s, step);
    case FinishSettle(run) => FinishSettleKeeps(s, run);
    case AwaitCase(run, key) => {}
    case Restarted(epoch) =>
      FinishedTrusted(s);
      RecoverFromChanges(s.db.(epoch := epoch), 0, Finished(s.cases), s.records);
    case AskStop(_, _) => ControlKeeps(s, step);
    case AskIdleStop(_, _) => ControlKeeps(s, step);
    case DeleteConversation => ControlKeeps(s, step);
    case Fail(_, _) => ControlKeeps(s, step);
    case Emit(_, _, _) => ControlKeeps(s, step);
    case BeginDispatch(_, _, _, _, _) => LedgerStepKeeps(s, step);
    case EndDispatch(_, _) => LedgerStepKeeps(s, step);
    case Adopt(_, _, _) => LedgerStepKeeps(s, step);
    case _ => WorkerKeeps(s, step);
  }
}
