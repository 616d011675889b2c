/**
 When a message is used: it becomes APPLIED only because a worker says so or because the core accepted the command that
 carries it; whatever ends a run gives the others up as UNUSED.
 */
module ConversationUse {
  import opened Conversation
  import opened ConversationInvariant
  import opened ConversationSteps
  import opened ConversationControl
  import opened ConversationRuns
  import opened ConversationSafety
  import opened ConversationTheorems
  import opened ConversationMeaning

  /** The messages of `run` that are not final become UNUSED, all others stay as they are. */
  ghost predicate GivenUp(a: seq<Message>, b: seq<Message>, run: nat) {
    && |a| == |b|
    && forall i :: 0 <= i < |a| ==>
         b[i] == if a[i].run == run && a[i].status != Applied && a[i].status != Unused
                 then a[i].(status := Unused) else a[i]
  }

  /** Messages from `k` on are given up. */
  lemma {:induction false} MarkUnusedGives(t: Tx, k: nat)
    requires k <= |t.db.messages|
    ensures var u := MarkUnusedFrom(t, k);
            && |u.db.messages| == |t.db.messages|
            && (forall i :: 0 <= i < k ==> u.db.messages[i] == t.db.messages[i])
            && (forall i :: k <= i < |t.db.messages| ==>
                  u.db.messages[i]
                  == if t.db.messages[i].run == t.run && !Final(t.db.messages[i].status)
                     then t.db.messages[i].(status := Unused) else t.db.messages[i])
    decreases |t.db.messages| - k
  {
    hide HasEvent;
    if k < |t.db.messages| { MarkUnusedGives(GiveUp(t, k), k + 1); }
  }

  lemma UnusedGives(t: Tx)
    ensures GivenUp(t.db.messages, MarkUnused(t).db.messages, t.run)
  {
    hide MarkUnusedFrom;
    MarkUnusedGives(t, 0);
  }

  lemma CloseGives(t: Tx, status: RunStatus)
    ensures GivenUp(t.db.messages, Close(t, status).db.messages, t.run)
  {
    hide MarkUnusedFrom, Append, GivenUp;
    UnusedGives(t.(body := t.body.(status := status, pending := false, questions := [])));
  }

  // ----- no message is applied without a reason -----

  /** No message becomes APPLIED between the two, and new ones are not. */
  ghost predicate NoneApplied(a: seq<Message>, b: seq<Message>) {
    && |a| <= |b| && (forall i :: 0 <= i < |a| && b[i].status == Applied ==> a[i].status == Applied)
    && forall i :: |a| <= i < |b| ==> b[i].status != Applied
  }

  lemma GivenUpApplies(a: seq<Message>, b: seq<Message>, run: nat)
    requires GivenUp(a, b, run)
    ensures NoneApplied(a, b)
  {}

  lemma NoneTrans(a: seq<Message>, b: seq<Message>, c: seq<Message>)
    requires NoneApplied(a, b) && NoneApplied(b, c)
    ensures NoneApplied(a, c)
  {}

  lemma SubmitUses(db: Db, q: Request, routed: Option<CommandKey>)
    requires db.current < |db.runs|
    ensures var r := Submit(db, q, routed); r.Ok? ==> NoneApplied(db.messages, r.value.messages)
  {
    hide HasEvent, RunMessages, RestartOf, MessageOf, Open, TargetChanged;
  }

  lemma StopUses(db: Db, request: RequestId, run: nat)
    ensures var r := RequestStop(db, request, run); r.Ok? ==> NoneApplied(db.messages, r.value.messages)
  {
    hide HasEvent, MarkUnusedFrom, Append, GivenUp;
    if run < |db.runs| {
      var t := Load(db, run);
      var status := if t.body.status == Cancelled then StopCancelled
                    else if Closed(t.body.status) || t.body.report then StopAlreadyFinished else StopCancelling;
      var t1 := t.(db := db.(stops := db.stops + [Stop(request, run, status)]),
                   body := t.body.(stop := true, status := Cancelling, pending := false, questions := []));
      UnusedGives(t1);
      GivenUpApplies(db.messages, MarkUnused(t1).db.messages, run);
    }
  }

  lemma {:induction false} DeleteUses(db: Db, k: nat)
    ensures NoneApplied(db.messages, DeleteFrom(db, k).messages)
    decreases |db.runs| - k
  {
    hide MarkUnusedFrom, GivenUp;
    if k < |db.runs| {
      var t := Load(db, k);
      var t1 := t.(body := t.body.(stop := true, status := Cancelling, pending := false, questions := []));
      UnusedGives(t1);
      GivenUpApplies(db.messages, MarkUnused(t1).db.messages, k);
      var b := DeleteRun(db, k);
      DeleteUses(b, k + 1);
      NoneTrans(db.messages, b.messages, DeleteFrom(b, k + 1).messages);
    }
  }

  lemma ClosingUses(db: Db, run: nat, status: RunStatus)
    requires run < |db.runs|
    ensures NoneApplied(db.messages, Save(Close(Load(db, run), status)).messages)
  {
    hide Close, GivenUp;
    CloseGives(Load(db, run), status);
    GivenUpApplies(db.messages, Close(Load(db, run), status).db.messages, run);
  }

  lemma FinishStopUses(db: Db, run: nat)
    requires run < |db.runs|
    ensures NoneApplied(db.messages, FinishStop(db, run).value.messages)
  {
    hide Close;
    ClosingUses(db, run, Cancelled);
  }

  /** A message of the run that the core's receipts cover: handed to an accepted command, or in an accepted batch. */
  ghost predicate Covered(db: Db, m: Message, records: set<Record>, c: CaseId) {
    exists k :: 0 <= k < |db.dispatches| && Carries(db, db.dispatches[k], m, records, c)
  }

  predicate Carries(db: Db, d: Dispatch, m: Message, records: set<Record>, c: CaseId) {
    && d.run == m.run && Record(d.op, d.key, c) in records
    && ((m.id in db.adoptions && db.adoptions[m.id] == d.id)
        || (d.op == SubmitSupplement && d.batch.Some? && m.id in d.batch.value))
  }

  lemma {:induction false} BatchUses(t: Tx, ids: seq<MessageId>)
    ensures var r := ApplyBatch(t, ids);
            r.Ok? ==>
              forall i :: 0 <= i < |t.db.messages| && r.value.db.messages[i].status == Applied ==>
                t.db.messages[i].status == Applied || (t.db.messages[i].id in ids && t.db.messages[i].run == t.run)
    ensures var r := ApplyBatch(t, ids);
            r.Ok? ==> r.value.db.adoptions == t.db.adoptions && forall i :: 0 <= i < |t.db.messages| ==>
              r.value.db.messages[i] == t.db.messages[i].(status := r.value.db.messages[i].status)
    decreases ids
  {
    hide HasEvent;
    if ids != [] {
      var k := MessageAt(t.db.messages, t.run, ids[0]);
      if k < |t.db.messages| {
        BatchUses(if Final(t.db.messages[k].status) then t else Finalize(t, k, Applied), ids[1..]);
      }
    }
  }

  lemma {:induction false} BatchesUse(t: Tx, records: set<Record>, c: CaseId, k: nat)
    requires k <= |t.db.dispatches|
    ensures var r := ApplyBatchesFrom(t, records, c, k);
            r.Ok? ==> r.value.db.adoptions == t.db.adoptions && forall i :: 0 <= i < |t.db.messages| ==>
              && r.value.db.messages[i] == t.db.messages[i].(status := r.value.db.messages[i].status)
              && (r.value.db.messages[i].status == Applied ==>
                    t.db.messages[i].status == Applied || Covered(t.db, t.db.messages[i], records, c))
    decreases |t.db.dispatches| - k
  {
    hide ApplyBatch, Covered;
    if k < |t.db.dispatches| {
      var d := t.db.dispatches[k];
      if d.run != t.run || d.batch.None? || d.op != SubmitSupplement || Record(d.op, d.key, c) !in records {
        BatchesUse(t, records, c, k + 1);
      } else {
        BatchUses(t, d.batch.value);
        var b := ApplyBatch(t, d.batch.value);
        if b.Ok? {
          BatchesUse(b.value, records, c, k + 1);
          forall i | 0 <= i < |t.db.messages|
            ensures t.db.messages[i].id in d.batch.value && t.db.messages[i].run == t.run ==>
              Covered(t.db, t.db.messages[i], records, c)
            ensures Covered(b.value.db, b.value.db.messages[i], records, c) ==>
              Covered(t.db, t.db.messages[i], records, c)
          {
            if t.db.messages[i].id in d.batch.value && t.db.messages[i].run == t.run {
              IsCovered(t.db, t.db.messages[i], records, c, k);
            }
            CoveredMore(t.db, b.value.db, t.db.messages[i], b.value.db.messages[i], records, c);
          }
        }
      }
    }
  }

  lemma IsCovered(db: Db, m: Message, records: set<Record>, c: CaseId, k: nat)
    requires k < |db.dispatches| && Carries(db, db.dispatches[k], m, records, c)
    ensures Covered(db, m, records, c)
  {}

  /** The ledger keeps its entries, and adoptions are only ever released. */
  ghost predicate Released(a: Db, b: Db) {
    && |b.dispatches| == |a.dispatches|
    && (forall k :: 0 <= k < |a.dispatches| ==>
          b.dispatches[k] == a.dispatches[k].(status := b.dispatches[k].status))
    && forall id :: id in b.adoptions ==> id in a.adoptions && a.adoptions[id] == b.adoptions[id]
  }

  lemma CoveredMore(a: Db, b: Db, m: Message, n: Message, records: set<Record>, c: CaseId)
    requires n.id == m.id && n.run == m.run && Released(a, b)
    ensures Covered(b, n, records, c) ==> Covered(a, m, records, c)
  {
    if Covered(b, n, records, c) {
      var k :| 0 <= k < |b.dispatches| && Carries(b, b.dispatches[k], n, records, c);
      assert Carries(a, a.dispatches[k], m, records, c);
    }
  }

  /** Between the two, a message becomes APPLIED only if the receipts of Case `c` cover it. */
  ghost predicate AppliedFor(a: Db, b: Db, records: set<Record>, c: CaseId) {
    && |a.messages| <= |b.messages| && Released(a, b)
    && (forall i :: 0 <= i < |a.messages| ==> b.messages[i] == a.messages[i].(status := b.messages[i].status))
    && forall i :: 0 <= i < |a.messages| && b.messages[i].status == Applied && a.messages[i].status != Applied ==>
         Covered(a, a.messages[i], records, c)
  }

  lemma AppliedForTrans(a: Db, b: Db, d: Db, records: set<Record>, c: CaseId)
    requires AppliedFor(a, b, records, c) && AppliedFor(b, d, records, c)
    ensures AppliedFor(a, d, records, c)
  {
    hide Covered;
    forall i | 0 <= i < |a.messages|
      ensures d.messages[i] == a.messages[i].(status := d.messages[i].status)
      ensures d.messages[i].status == Applied && a.messages[i].status != Applied ==>
        Covered(a, a.messages[i], records, c)
    {
      assert b.messages[i] == a.messages[i].(status := b.messages[i].status);
      assert d.messages[i] == b.messages[i].(status := d.messages[i].status);
      CoveredMore(a, b, a.messages[i], b.messages[i], records, c);
    }
    forall k | 0 <= k < |a.dispatches| ensures d.dispatches[k] == a.dispatches[k].(status := d.dispatches[k].status) {
      assert b.dispatches[k] == a.dispatches[k].(status := b.dispatches[k].status);
    }
  }

  lemma QuietFor(a: Db, b: Db, records: set<Record>, c: CaseId)
    requires NoneApplied(a.messages, b.messages) && Released(a, b)
    requires forall i :: 0 <= i < |a.messages| ==> b.messages[i] == a.messages[i].(status := b.messages[i].status)
    ensures AppliedFor(a, b, records, c)
  {}

  lemma AdoptionsUse(t: Tx, records: set<Record>, c: CaseId)
    requires DistinctIds(t.db.messages)
    ensures var r := AcceptAdoptions(t, records, c); r.Ok? ==> AppliedFor(t.db, r.value.db, records, c)
  {
    hide ApplyBatchesFrom, AdoptFrom, Covered;
    BatchesUse(t, records, c, 0);
    var b := ApplyBatchesFrom(t, records, c, 0);
    if b.Ok? {
      var t1 := b.value;
      assert AppliedFor(t.db, t1.db, records, c);
      AdoptUses(t1, records, c);
      AppliedForTrans(t.db, t1.db, AdoptFrom(t1, records, c, 0).db, records, c);
    }
  }

  lemma AdoptionsRelease(t: Tx, records: set<Record>, c: CaseId)
    requires DistinctIds(t.db.messages)
    ensures var r := AcceptAdoptions(t, records, c); r.Ok? ==> Released(t.db, r.value.db)
  {
    AdoptionsUse(t, records, c);
    hide AcceptAdoptions, Covered;
  }

  lemma {:induction false} AdoptUses(t: Tx, records: set<Record>, c: CaseId)
    requires DistinctIds(t.db.messages)
    ensures AppliedFor(t.db, AdoptFrom(t, records, c, 0).db, records, c)
  {
    hide AdoptFrom, Covered;
    var u := AdoptFrom(t, records, c, 0);
    AdoptReleases(t, records, c, 0);
    forall i | 0 <= i < |t.db.messages|
      ensures u.db.messages[i] == t.db.messages[i].(status := u.db.messages[i].status)
      ensures u.db.messages[i].status == Applied && t.db.messages[i].status != Applied ==>
        Covered(t.db, t.db.messages[i], records, c)
    {
      AdoptionApplies(t, records, c, i);
      if Adoptable(t, records, c, i) {
        var m := t.db.messages[i];
        IsCovered(t.db, m, records, c, DispatchWithId(t.db.dispatches, t.db.adoptions[m.id]));
      }
    }
  }

  lemma {:induction false} AdoptReleases(t: Tx, records: set<Record>, c: CaseId, k: nat)
    requires k <= |t.db.messages|
    ensures Released(t.db, AdoptFrom(t, records, c, k).db)
    decreases |t.db.messages| - k
  {
    hide HasEvent, DispatchWithId;
    if k < |t.db.messages| { AdoptReleases(AdoptOne(t, records, c, k), records, c, k + 1); }
  }

  lemma ResultUses(t: Tx, cv: CaseView)
    ensures NoneApplied(t.db.messages, ProjectResult(t, cv).db.messages)
  {
    hide HasEvent, Append, MarkUnusedFrom, Close, GivenUp, NoneApplied;
    var t1 := t.(body := t.body.(report := true, stop := false, pending := false, questions := []),
                 db := t.db.(stops := SettleStops(t.db.stops, t.run, StopAlreadyFinished)));
    UnusedGives(Append(t1, ResultAvailable));
    GivenUpApplies(t.db.messages, MarkUnused(Append(t1, ResultAvailable)).db.messages, t.run);
    NothingApplied(t.db.messages);
    var p := if cv.hasReport then PublishReport(t) else t;
    var t2 := Append(p, ArchiveUpdated(cv.archive));
    CloseGives(t2, Completed);
    GivenUpApplies(t2.db.messages, Close(t2, Completed).db.messages, t.run);
    NoneTrans(t.db.messages, t2.db.messages, Close(t2, Completed).db.messages);
  }

  lemma NothingApplied(a: seq<Message>)
    ensures NoneApplied(a, a)
  {}

  lemma WaitingUses(t: Tx, cv: CaseView)
    ensures ProjectWaiting(t, cv).db.messages == t.db.messages
  {
    hide HasEvent, Append;
  }

  lemma ProjectedUses(t: Tx, cv: CaseView)
    ensures NoneApplied(t.db.messages, Projected(t, cv).db.messages)
  {
    hide HasEvent, Append, Close, ProjectResult, ProjectWaiting, GivenUp, NoneApplied;
    var t1 := Append(t.(body := t.body.(caseId := Some(cv.id), caseStatus := Some(cv.status),
                                        selectedSkill := cv.selectedSkill)), CaseUpdated(cv.revision));
    NothingApplied(t.db.messages);
    ResultUses(t1, cv);
    WaitingUses(t1, cv);
    CloseGives(t1, Cancelled);
    CloseGives(t1, Interrupted);
    CloseGives(t1, Failed);
    GivenUpApplies(t.db.messages, Close(t1, Cancelled).db.messages, t.run);
    GivenUpApplies(t.db.messages, Close(t1, Interrupted).db.messages, t.run);
    GivenUpApplies(t.db.messages, Close(t1, Failed).db.messages, t.run);
  }

  // ----- commits and recovery -----

  /** A message becomes APPLIED only if the receipts of Case `c` cover it. */
  ghost predicate UsesFor(a: Db, b: Db, records: set<Record>, c: CaseId) {
    && |a.messages| <= |b.messages|
    && forall i :: 0 <= i < |a.messages| && b.messages[i].status == Applied && a.messages[i].status != Applied ==>
         Covered(a, a.messages[i], records, c)
  }

  lemma {:induction false} RestartsUse(t: Tx, records: set<Record>, c: CaseId, k: nat)
    requires k <= |t.db.restarts|
    ensures var r := AcceptRestartsFrom(t, records, c, k);
            r.Ok? ==>
              && |t.db.messages| <= |r.value.db.messages| && t.db.messages == r.value.db.messages[..|t.db.messages|]
              && r.value.db.dispatches == t.db.dispatches && r.value.db.adoptions == t.db.adoptions
    decreases |t.db.restarts| - k
  {
    hide HasEvent;
    if k < |t.db.restarts| {
      var t1 := if Accepts(t.db.restarts[k], t.run, records, c) then AcceptRestart(t, k) else t;
      RestartsUse(t1, records, c, k + 1);
    }
  }

  lemma StillDistinct(t: Tx)
    requires TxOk(t) && InvBut(View(t), t.run)
    ensures DistinctIds(t.db.messages)
  {
    assert MessagesOk(View(t));
  }

  lemma ProjectUses(db: Db, cv: CaseView, records: set<Record>, k: nat)
    requires Inv(db) && k == RunFor(db, cv.id, records) && k < |db.runs| && Project(db, cv, records).Ok?
    ensures UsesFor(db, Project(db, cv, records).value, records, cv.id)
  {
    hide InvBut, AcceptRestartsFrom, AcceptAdoptions, Projected, RunFor, Covered, NoneApplied;
    BoundOk(db, k, cv.id);
    var t := Load(db, k).(body := Load(db, k).body.(caseId := Some(cv.id)));
    RestartsUse(t, records, cv.id, 0);
    AcceptRestartsOk(t, records, cv.id, 0);
    var t1 := AcceptRestartsFrom(t, records, cv.id, 0).value;
    StillDistinct(t1);
    AdoptionsUse(t1, records, cv.id);
    var t2 := AcceptAdoptions(t1, records, cv.id).value;
    ProjectedUses(t2, cv);
    NothingApplied(t2.db.messages);
    var b := Project(db, cv, records).value;
    assert NoneApplied(t2.db.messages, b.messages);
    Combined(db, t1.db, t2.db, b, records, cv.id);
  }

  lemma Combined(a: Db, t1: Db, t2: Db, b: Db, records: set<Record>, c: CaseId)
    requires |a.messages| <= |t1.messages| && t1.messages[..|a.messages|] == a.messages
    requires t1.dispatches == a.dispatches && t1.adoptions == a.adoptions
    requires AppliedFor(t1, t2, records, c) && NoneApplied(t2.messages, b.messages)
    ensures UsesFor(a, b, records, c)
  {
    forall i | 0 <= i < |a.messages| && b.messages[i].status == Applied && a.messages[i].status != Applied
      ensures Covered(a, a.messages[i], records, c)
    {
      assert t1.messages[i] == a.messages[i];
      assert Covered(t1, t1.messages[i], records, c);
      CoveredMore(a, t1, a.messages[i], t1.messages[i], records, c);
    }
  }

  ghost predicate CoveredByOne(db: Db, m: Message, finished: map<CaseId, CaseView>, records: set<Record>) {
    exists c :: c in finished && Covered(db, m, records, c)
  }

  /** What recovery uses: what the receipts cover for one of the finished Cases. */
  ghost predicate UsesForOne(a: Db, b: Db, finished: map<CaseId, CaseView>, records: set<Record>) {
    && |a.messages| <= |b.messages| && Released(a, b)
    && (forall i :: 0 <= i < |a.messages| ==> b.messages[i] == a.messages[i].(status := b.messages[i].status))
    && forall i :: 0 <= i < |a.messages| && b.messages[i].status == Applied && a.messages[i].status != Applied ==>
         CoveredByOne(a, a.messages[i], finished, records)
  }

  lemma {:induction false} Interrupts(ds: seq<Dispatch>, run: nat, epoch: Epoch)
    ensures var r := InterruptDispatches(ds, run, epoch);
            |r| == |ds| && forall k :: 0 <= k < |ds| ==> r[k] == ds[k].(status := r[k].status)
  {
    if ds != [] {
      Interrupts(ds[1..], run, epoch);
      var r := InterruptDispatches(ds, run, epoch);
      assert forall k :: 0 < k < |ds| ==> r[k] == InterruptDispatches(ds[1..], run, epoch)[k - 1];
    }
  }

  lemma RecoverRunUses(db: Db, k: nat, finished: map<CaseId, CaseView>, records: set<Record>)
    requires Inv(db) && k < |db.runs| && forall c :: c in finished ==> finished[c].id == c
    requires var c := db.runs[k].caseId; c.Some? && c.value in finished ==> Trusted(finished[c.value], db.runs[k])
    ensures var r := RecoverRun(db, k, finished, records); r.Ok? ==> UsesForOne(db, r.value, finished, records)
  {
    RecoverRunStep(db, k, finished, records);
    Interrupts(db.dispatches, k, db.epoch);
    var r := RecoverRun(db, k, finished, records);
    var t := Load(db, k);
    if r.Ok? {
      SameIdentity(db, r.value);
      RecoverRunMessagesUse(db, k, finished, records);
      RecoverReleases(db, k, finished, records);
    }
  }

  lemma SameIdentity(a: Db, b: Db)
    requires Evolves(a, b)
    ensures |a.messages| <= |b.messages|
    ensures forall i :: 0 <= i < |a.messages| ==> b.messages[i] == a.messages[i].(status := b.messages[i].status)
  {}

  lemma ReleasedTrans(a: Db, b: Db, c: Db)
    requires Released(a, b) && Released(b, c)
    ensures Released(a, c)
  {
    forall k | 0 <= k < |a.dispatches| ensures c.dispatches[k] == a.dispatches[k].(status := c.dispatches[k].status) {
      assert b.dispatches[k] == a.dispatches[k].(status := b.dispatches[k].status);
    }
  }

  lemma StampReleases(db: Db, k: nat)
    requires k < |db.runs|
    ensures Released(db, StampEpoch(db, k))
  {
    Interrupts(db.dispatches, k, db.epoch);
    hide InterruptDispatches;
  }

  lemma SaveReleases(a: Db, t: Tx)
    requires Released(a, t.db)
    ensures Released(a, Save(t))
  {}

  lemma RecoverReleases(db: Db, k: nat, finished: map<CaseId, CaseView>, records: set<Record>)
    requires Inv(db) && k < |db.runs| && RecoverRun(db, k, finished, records).Ok?
    ensures Released(db, RecoverRun(db, k, finished, records).value)
  {
    AllDistinct(db);
    hide Inv, AcceptAdoptions, Projected, Close, RunMessages, Released, StampEpoch, AppliedFor, Save;
    var t := Load(db, k);
    ReleasedSelf(db);
    StampReleases(db, k);
    if t.body.caseId.Some? && t.body.caseId.value in finished {
      var c := t.body.caseId.value;
      var o := AcceptAdoptions(t, records, c);
      AdoptionsShell(t, records, c);
      if o.Ok? && !Closed(t.body.status) {
        AdoptionsRelease(t, records, c);
        ProjectedReleases(o.value, finished[c]);
        ReleasedTrans(db, o.value.db, Projected(o.value, finished[c]).db);
        StampedReleases(db, Projected(o.value, finished[c]), k);
      }
    } else {
      CloseReleases(t, Interrupted);
      StampedReleases(db, Close(t, Interrupted), k);
    }
  }

  lemma StampedReleases(a: Db, u: Tx, k: nat)
    requires Released(a, u.db) && k < |u.db.runs|
    ensures k < |Save(u).runs| && Released(a, StampEpoch(Save(u), k))
  {
    hide Released, StampEpoch;
    SaveReleases(a, u);
    SavedRun(u, k);
    StampReleases(Save(u), k);
    ReleasedTrans(a, Save(u), StampEpoch(Save(u), k));
  }

  lemma ReleasedSelf(db: Db)
    ensures Released(db, db)
  {}

  lemma SavedRun(t: Tx, k: nat)
    requires k < |t.db.runs|
    ensures k < |Save(t).runs|
  {}

  lemma AllDistinct(db: Db)
    requires Inv(db)
    ensures DistinctIds(db.messages)
  {}

  lemma {:induction false} MarkUnusedReleases(t: Tx, k: nat)
    requires k <= |t.db.messages|
    ensures Released(t.db, MarkUnusedFrom(t, k).db)
    decreases |t.db.messages| - k
  {
    hide HasEvent;
    if k < |t.db.messages| { MarkUnusedReleases(GiveUp(t, k), k + 1); }
  }

  lemma AppendReleases(t: Tx, key: EventKey)
    ensures Append(t, key).db.adoptions == t.db.adoptions && Append(t, key).db.dispatches == t.db.dispatches
  {
    hide HasEvent;
  }

  lemma CloseReleases(t: Tx, status: RunStatus)
    ensures Released(t.db, Close(t, status).db)
  {
    hide MarkUnusedFrom, HasEvent;
    MarkUnusedReleases(t.(body := t.body.(status := status, pending := false, questions := [])), 0);
  }

  lemma ProjectedReleases(t: Tx, cv: CaseView)
    ensures Released(t.db, Projected(t, cv).db)
  {
    hide Append, Close, ProjectResult, ProjectWaiting, Released;
    var t0 := t.(body := t.body.(caseId := Some(cv.id), caseStatus := Some(cv.status),
                                 selectedSkill := cv.selectedSkill));
    var t1 := Append(t0, CaseUpdated(cv.revision));
    AppendReleases(t0, CaseUpdated(cv.revision));
    SameReleased(t.db, t1.db);
    CloseReleases(t1, Cancelled);
    CloseReleases(t1, Interrupted);
    CloseReleases(t1, Failed);
    ResultReleases(t1, cv);
    WaitingReleases(t1, cv);
    ReleasedSelf(t1.db);
    ReleasedTrans(t.db, t1.db, Projected(t, cv).db);
  }

  lemma SameReleased(a: Db, b: Db)
    requires b.adoptions == a.adoptions && b.dispatches == a.dispatches
    ensures Released(a, b)
  {}

  lemma WaitingReleases(t: Tx, cv: CaseView)
    ensures Released(t.db, ProjectWaiting(t, cv).db)
  {
    hide HasEvent;
  }

  lemma ResultReleases(t: Tx, cv: CaseView)
    ensures Released(t.db, ProjectResult(t, cv).db)
  {
    hide HasEvent, MarkUnusedFrom, Close, Released;
    var t1 := t.(body := t.body.(report := true, stop := false, pending := false, questions := []),
                 db := t.db.(stops := SettleStops(t.db.stops, t.run, StopAlreadyFinished)));
    MarkUnusedReleases(Append(t1, ResultAvailable), 0);
    SameReleased(t.db, Append(t1, ResultAvailable).db);
    ReleasedTrans(t.db, Append(t1, ResultAvailable).db, MarkUnused(Append(t1, ResultAvailable)).db);
    ReleasedSelf(t.db);
    var p := if cv.hasReport then PublishReport(t) else t;
    var t2 := Append(p, ArchiveUpdated(cv.archive));
    SameReleased(p.db, t2.db);
    ReleasedTrans(t.db, p.db, t2.db);
    CloseReleases(t2, Completed);
    ReleasedTrans(t.db, t2.db, Close(t2, Completed).db);
    OnlyBody(t.db, t2);
  }

  lemma OnlyBody(a: Db, t: Tx)
    requires Released(a, t.db)
    ensures Released(a, t.(body := t.body.(status := Running)).db)
  {}

  lemma FinishedUses(db: Db, k: nat, cv: CaseView, records: set<Record>)
    requires DistinctIds(db.messages) && k < |db.runs| && AcceptAdoptions(Load(db, k), records, cv.id).Ok?
    ensures var b := ProjectCase(AcceptAdoptions(Load(db, k), records, cv.id).value, cv);
            && |b.messages| == |db.messages|
            && forall i ::
                 0 <= i < |db.messages| && b.messages[i].status == Applied && db.messages[i].status != Applied ==>
                 Covered(db, db.messages[i], records, cv.id)
  {
    hide AcceptAdoptions, Projected, Covered;
    var t := Load(db, k);
    AdoptionsShell(t, records, cv.id);
    AdoptionsUse(t, records, cv.id);
    ProjectedUses(AcceptAdoptions(t, records, cv.id).value, cv);
  }

  lemma RecoverRunMessagesUse(db: Db, k: nat, finished: map<CaseId, CaseView>, records: set<Record>)
    requires Inv(db) && k < |db.runs| && RecoverRun(db, k, finished, records).Ok?
    requires forall c :: c in finished ==> finished[c].id == c
    ensures var b := RecoverRun(db, k, finished, records).value;
            && |b.messages| == |db.messages|
            && forall i ::
                 0 <= i < |db.messages| && b.messages[i].status == Applied && db.messages[i].status != Applied ==>
                 CoveredByOne(db, db.messages[i], finished, records)
  {
    AllDistinct(db);
    hide Inv, AcceptAdoptions, ProjectCase, Close, RunMessages, Covered, CoveredByOne, DistinctIds, InterruptDispatches;
    var t := Load(db, k);
    var b := RecoverRun(db, k, finished, records).value;
    if t.body.caseId.Some? && t.body.caseId.value in finished && !Closed(t.body.status) && t.body.epoch != db.epoch {
      var c := t.body.caseId.value;
      var db1 := ProjectCase(AcceptAdoptions(t, records, c).value, finished[c]);
      FinishedUses(db, k, finished[c], records);
      assert b.messages == db1.messages;
      forall i | 0 <= i < |db.messages| && b.messages[i].status == Applied && db.messages[i].status != Applied
        ensures CoveredByOne(db, db.messages[i], finished, records)
      {
        IsCoveredByOne(db, db.messages[i], finished, records, c);
      }
    } else {
      ClosingUses(db, k, Interrupted);
      assert b.messages == db.messages || b.messages == Save(Close(t, Interrupted)).messages;
    }
  }

  lemma IsCoveredByOne(db: Db, m: Message, finished: map<CaseId, CaseView>, records: set<Record>, c: CaseId)
    requires c in finished && Covered(db, m, records, c)
    ensures CoveredByOne(db, m, finished, records)
  {}

  lemma {:induction false} RecoverUses(db: Db, k: nat, finished: map<CaseId, CaseView>, records: set<Record>)
    requires Inv(db) && forall c :: c in finished ==> finished[c].id == c
    requires forall i :: k <= i < |db.runs| && db.runs[i].caseId.Some? && db.runs[i].caseId.value in finished ==>
      Trusted(finished[db.runs[i].caseId.value], db.runs[i])
    ensures var r := RecoverFrom(db, k, finished, records); r.Ok? ==> UsesForOne(db, r.value, finished, records)
    decreases |db.runs| - k
  {
    hide InvBut, Evolves, RecoverRun, Trusted, UsesForOne;
    UsesNothing(db, finished, records);
    if k < |db.runs| {
      var r := RecoverRun(db, k, finished, records);
      RecoverRunStep(db, k, finished, records);
      RecoverRunUses(db, k, finished, records);
      if r.Ok? {
        RecoverUses(r.value, k + 1, finished, records);
        var u := RecoverFrom(r.value, k + 1, finished, records);
        if u.Ok? { UsesTrans(db, r.value, u.value, finished, records); }
      }
    }
  }

  lemma UsesNothing(a: Db, finished: map<CaseId, CaseView>, records: set<Record>)
    ensures UsesForOne(a, a, finished, records)
  {}

  lemma UsesTrans(a: Db, b: Db, d: Db, finished: map<CaseId, CaseView>, records: set<Record>)
    requires UsesForOne(a, b, finished, records) && UsesForOne(b, d, finished, records)
    ensures UsesForOne(a, d, finished, records)
  {
    hide Covered;
    forall i | 0 <= i < |a.messages|
      ensures d.messages[i] == a.messages[i].(status := d.messages[i].status)
      ensures d.messages[i].status == Applied && a.messages[i].status != Applied ==>
        CoveredByOne(a, a.messages[i], finished, records)
    {
      assert b.messages[i] == a.messages[i].(status := b.messages[i].status);
      assert d.messages[i] == b.messages[i].(status := d.messages[i].status);
      if d.messages[i].status == Applied && b.messages[i].status != Applied {
        var c :| c in finished && Covered(b, b.messages[i], records, c);
        CoveredMore(a, b, a.messages[i], b.messages[i], records, c);
        assert CoveredByOne(a, a.messages[i], finished, records);
      }
    }
    forall k | 0 <= k < |a.dispatches| ensures d.dispatches[k] == a.dispatches[k].(status := d.dispatches[k].status) {
      assert b.dispatches[k] == a.dispatches[k].(status := b.dispatches[k].status);
    }
  }

  // ----- every step, every run -----

  /** Why a message may be used in this step. */
  ghost predicate MayUse(s: Sys, step: Step, m: Message) {
    match step
    case MarkMessage(run, id, status) => status == Applied && m.run == run && m.id == id
    case EndAdopt(run, id, accepted) => accepted && m.run == run && m.id == id && m.id in s.db.adoptions
    case CommitCase(cv, record) => Covered(s.db, m, RecordsWith(s, record), cv.id)
    case Restarted(_) => exists c :: c in Finished(s.cases) && Covered(s.db, m, s.records, c)
    case _ => false
  }

  ghost predicate Uses(s: Sys, step: Step, s2: Sys) {
    forall i :: 0 <= i < |s.db.messages| && i < |s2.db.messages| ==>
      (s2.db.messages[i].status == Applied && s.db.messages[i].status != Applied ==> MayUse(s, step, s.db.messages[i]))
  }

  lemma QuietUse(s: Sys, step: Step, s2: Sys)
    requires NoneApplied(s.db.messages, s2.db.messages)
    ensures Uses(s, step, s2)
  {}

  lemma WorkerUses(s: Sys, step: Step)
    requires s.db.current < |s.db.runs| && (step.MarkMessage? || step.EndAdopt?)
    ensures Uses(s, step, Apply(s, step))
  {
    hide HasEvent, Append;
  }

  lemma TablesStay(s: Sys, step: Step)
    requires s.db.current < |s.db.runs|
    requires || step.BeginSend? || step.EndSend? || step.FreezeIntent? || step.RetargetIntent? || step.RejectIntent?
             || step.CompleteIntent? || step.BeginSettle? || step.BeginDispatch? || step.EndDispatch? || step.Adopt?
             || step.AwaitCase?
    ensures Apply(s, step).db.messages == s.db.messages
  {
    hide HasEvent, MessageAt, DispatchWithId, RestartOf, RestartWithKey, Recorded, Ended, RunMessages, LiveRestart,
      HasRequest, Open, TargetChanged;
  }

  lemma BodiesOnly(s: Sys, step: Step)
    requires s.db.current < |s.db.runs|
    requires step.SettleIntake? || step.DraftIntake? || step.Emit? || step.AskIdleStop?
    ensures Apply(s, step).db.messages == s.db.messages
  {
    hide HasEvent, Append, IdleStoppable, Open, FinishIntake;
    if step.SettleIntake? { BatchKeepsMessages(s.db, step.run, step.ids, step.questions); }
  }

  lemma BatchKeepsMessages(db: Db, run: nat, ids: set<MessageId>, questions: Option<seq<Question>>)
    ensures var r := FinishIntake(db, run, ids, questions); r.Ok? ==> r.value.messages == db.messages
  {
    hide HasEvent, Append, Uncovered, KnownMessages;
  }

  lemma StepUses(s: Sys, step: Step)
    requires SysInv(s) && Enabled(s, step) && s.db.current < |s.db.runs|
    ensures Uses(s, step, Apply(s, step))
  {
    hide SysInv, Enabled, Apply, Uses, NoneApplied;
    NothingApplied(s.db.messages);
    match step
    case MarkMessage(_, _, _) => WorkerUses(s, step);
    case EndAdopt(_, _, _) => WorkerUses(s, step);
    case CommitCase(cv, record) => CommitUses(s, cv, record);
    case Restarted(epoch) => RestartUses(s, epoch);
    case DirectSubmit(_) => EndingUses(s, step);
    case RoutedSubmit(_, _) => EndingUses(s, step);
    case AskStop(_, _) => EndingUses(s, step);
    case FinishSettle(_) => EndingUses(s, step);
    case DeleteConversation => EndingUses(s, step);
    case Fail(_, _) => EndingUses(s, step);
    case SettleIntake(_, _, _) => BodiesOnly(s, step); QuietUse(s, step, Apply(s, step));
    case DraftIntake(_, _, _, _) => BodiesOnly(s, step); QuietUse(s, step, Apply(s, step));
    case Emit(_, _, _) => BodiesOnly(s, step); QuietUse(s, step, Apply(s, step));
    case AskIdleStop(_, _) => BodiesOnly(s, step); QuietUse(s, step, Apply(s, step));
    case _ =>
      TablesStay(s, step);
      QuietUse(s, step, Apply(s, step));
  }

  lemma EndingUses(s: Sys, step: Step)
    requires s.db.current < |s.db.runs|
    requires step.DirectSubmit? || step.RoutedSubmit? || step.AskStop? || step.FinishSettle? || step.DeleteConversation?
             || step.Fail?
    ensures Uses(s, step, Apply(s, step))
  {
    hide Submit, RequestStop, DeleteFrom, Close, Uses, NoneApplied;
    NothingApplied(s.db.messages);
    match step
    case DirectSubmit(q) => SubmitUses(s.db, q, None); QuietUse(s, step, Apply(s, step));
    case RoutedSubmit(q, key) => SubmitUses(s.db, q, Some(key)); QuietUse(s, step, Apply(s, step));
    case AskStop(request, run) => StopUses(s.db, request, run); QuietUse(s, step, Apply(s, step));
    case FinishSettle(run) =>
      if run < |s.db.runs| { FinishStopUses(s.db, run); }
      QuietUse(s, step, Apply(s, step));
    case DeleteConversation => DeleteUses(s.db.(deleted := true), 0); QuietUse(s, step, Apply(s, step));
    case Fail(run, interrupted) =>
      if run < |s.db.runs| { ClosingUses(s.db, run, if interrupted then Interrupted else Failed); }
      QuietUse(s, step, Apply(s, step));
  }

  lemma CommitUses(s: Sys, cv: CaseView, record: Option<Record>)
    requires SysInv(s) && s.db.current < |s.db.runs|
    ensures Uses(s, CommitCase(cv, record), Apply(s, CommitCase(cv, record)))
  {
    hide SysInv, Project, RunFor, Covered, Inv;
    Base(s);
    var records := RecordsWith(s, record);
    var k := RunFor(s.db, cv.id, records);
    if k == |s.db.runs| { NoRun(s.db, cv, records); }
    else if Project(s.db, cv, records).Ok? { ProjectUses(s.db, cv, records, k); }
  }

  lemma RestartUses(s: Sys, epoch: Epoch)
    requires SysInv(s) && Enabled(s, Restarted(epoch)) && s.db.current < |s.db.runs|
    ensures Uses(s, Restarted(epoch), Apply(s, Restarted(epoch)))
  {
    hide SysInv, Enabled, RecoverFrom, InvBut, Covered, Evolves;
    Base(s);
    FinishedTrusted(s);
    var a := s.db.(epoch := epoch);
    EpochStep(s.db, epoch);
    if !s.db.deleted {
      RecoverUses(a, 0, Finished(s.cases), s.records);
      SameCover(s.db, a, s.records);
    }
  }

  lemma SameCover(a: Db, b: Db, records: set<Record>)
    requires b == a.(epoch := b.epoch)
    ensures forall m, c :: Covered(b, m, records, c) ==> Covered(a, m, records, c)
  {
    forall m, c | Covered(b, m, records, c) ensures Covered(a, m, records, c) { CoveredMore(a, b, m, m, records, c); }
  }

  /**
   Over every run: a message becomes APPLIED only because a worker marks it or ends its adoption as accepted, or because
   the core accepted the command it was handed to or whose batch names it.
   */
  lemma AppliedOnlyBy(tr: seq<Sys>, steps: seq<Step>, epoch: Epoch, n: nat, i: nat)
    requires IsRun(tr, steps, epoch) && n < |steps| && i < |tr[n].db.messages|
    ensures i < |tr[n + 1].db.messages|
    ensures tr[n + 1].db.messages[i].status == Applied && tr[n].db.messages[i].status != Applied ==>
      MayUse(tr[n], steps[n], tr[n].db.messages[i])
  {
    hide SysInv, Enabled, Apply, MayUse;
    Always(tr, steps, epoch, n);
    Onward(tr, steps, epoch, n, n + 1);
    assert Next(tr[n], steps[n], tr[n + 1]);
    StepUses(tr[n], steps[n]);
  }

  // ----- deletion -----

  /** A run that deletion stops: no report, and it is open or its Case is not known to have ended. */
  predicate MustStop(b: Run) {
    && !b.report
    && ((b.status != Completed && b.status != Failed && b.status != Interrupted && b.status != Cancelled)
        || (b.caseId.Some?
            && (b.caseStatus == None || b.caseStatus == Some(CaseNew) || b.caseStatus == Some(CaseRunning)
                || b.caseStatus == Some(CaseReviewing) || b.caseStatus == Some(CaseWaitingInput)
                || b.caseStatus == Some(CaseWaitingAttachment))))
  }

  function Stopped(b: Run): Run {
    if MustStop(b) then b.(stop := true, status := Cancelling, pending := false, questions := []) else b
  }

  /** Runs from `k` on are stopped as deletion does it, and their messages given up. */
  ghost predicate DeletedFrom(a: Db, b: Db, k: nat) {
    && |b.runs| == |a.runs| && |b.messages| == |a.messages| && b.deleted == a.deleted
    && (forall i :: 0 <= i < |a.runs| ==> b.runs[i] == if i >= k then Stopped(a.runs[i]) else a.runs[i])
    && (forall i :: 0 <= i < |a.messages| ==>
          var m := a.messages[i];
          var gone := k <= m.run < |a.runs| && MustStop(a.runs[m.run]) && m.status != Applied && m.status != Unused;
          b.messages[i] == if gone then m.(status := Unused) else m)
  }

  lemma DeleteRunIs(db: Db, k: nat)
    requires k < |db.runs|
    ensures var b := DeleteRun(db, k);
            && |b.runs| == |db.runs| && b.deleted == db.deleted && b.runs == db.runs[k := Stopped(db.runs[k])]
            && (if MustStop(db.runs[k]) then GivenUp(db.messages, b.messages, k) else b.messages == db.messages)
  {
    hide MarkUnusedFrom, GivenUp;
    var t := Load(db, k);
    UnusedGives(t.(body := t.body.(stop := true, status := Cancelling, pending := false, questions := [])));
    assert db.runs[k := db.runs[k]] == db.runs;
  }

  lemma {:induction false} DeleteFromMeaning(db: Db, k: nat)
    ensures DeletedFrom(db, DeleteFrom(db, k), k)
    decreases |db.runs| - k
  {
    hide MustStop, DeleteRun;
    if k < |db.runs| {
      DeleteRunIs(db, k);
      var b := DeleteRun(db, k);
      DeleteFromMeaning(b, k + 1);
    }
  }

  /** What deletion does: it marks the conversation, stops every run that must stop and gives its messages up. */
  lemma DeletionMeaning(db: Db)
    requires !db.deleted
    ensures Delete(db).deleted && DeletedFrom(db.(deleted := true), Delete(db), 0)
  {
    hide DeleteFrom;
    DeleteFromMeaning(db.(deleted := true), 0);
  }
}
