/**
 What single transactions are for: adoption applies what the core accepted, questions hidden behind unread input come
 back, deletion and recovery leave nothing running.
 */
module ConversationMeaning {
  import opened Conversation
  import opened ConversationInvariant
  import opened ConversationSteps
  import opened ConversationControl
  import opened ConversationSafety

  // ----- adoption -----

  /** The core has accepted the command the message was handed to. */
  predicate Adoptable(t: Tx, records: set<Record>, c: CaseId, i: nat)
    requires i < |t.db.messages|
  {
    var m := t.db.messages[i];
    m.run == t.run && m.id in t.db.adoptions
    && var d := DispatchWithId(t.db.dispatches, t.db.adoptions[m.id]);
       d < |t.db.dispatches| && t.db.dispatches[d].run == t.run
       && Record(t.db.dispatches[d].op, t.db.dispatches[d].key, c) in records
  }

  predicate DistinctIds(messages: seq<Message>) {
    forall i, j :: 0 <= i < j < |messages| ==> messages[i].id != messages[j].id
  }

  lemma AdoptOneMeaning(t: Tx, records: set<Record>, c: CaseId, k: nat)
    requires k < |t.db.messages| && DistinctIds(t.db.messages)
    ensures var u := AdoptOne(t, records, c, k);
            && SameShell(t, u) && DistinctIds(u.db.messages)
            && (forall i :: 0 <= i < |t.db.messages| && i != k ==>
                  u.db.messages[i] == t.db.messages[i]
                  && (Adoptable(u, records, c, i) <==> Adoptable(t, records, c, i)))
            && u.db.messages[k] == (if Adoptable(t, records, c, k) && !Final(t.db.messages[k].status)
                                    then t.db.messages[k].(status := Applied) else t.db.messages[k])
            && !Adoptable(u, records, c, k)
  {
    hide HasEvent, DispatchWithId;
  }

  lemma {:induction false} AdoptFromMeaning(t: Tx, records: set<Record>, c: CaseId, k: nat)
    requires k <= |t.db.messages| && DistinctIds(t.db.messages)
    ensures var u := AdoptFrom(t, records, c, k);
            forall i :: k <= i < |t.db.messages| ==>
              && u.db.messages[i] == (if Adoptable(t, records, c, i) && !Final(t.db.messages[i].status)
                                      then t.db.messages[i].(status := Applied) else t.db.messages[i])
              && !Adoptable(u, records, c, i)
    ensures var u := AdoptFrom(t, records, c, k);
            forall i :: 0 <= i < k ==>
              u.db.messages[i] == t.db.messages[i] && (Adoptable(u, records, c, i) <==> Adoptable(t, records, c, i))
    decreases |t.db.messages| - k
  {
    hide AdoptOne, Adoptable;
    if k < |t.db.messages| {
      AdoptOneMeaning(t, records, c, k);
      AdoptFromMeaning(AdoptOne(t, records, c, k), records, c, k + 1);
    }
  }

  /** After the pass every message handed to an accepted command is final, APPLIED unless it was given up before, and
      no longer waiting for adoption; every other message is as it was. */
  lemma {:induction false} AdoptionApplies(t: Tx, records: set<Record>, c: CaseId, i: nat)
    requires i < |t.db.messages| && DistinctIds(t.db.messages)
    ensures var u := AdoptFrom(t, records, c, 0);
            && !Adoptable(u, records, c, i)
            && u.db.messages[i] == (if Adoptable(t, records, c, i) && !Final(t.db.messages[i].status)
                                    then t.db.messages[i].(status := Applied) else t.db.messages[i])
  {
    AdoptFromMeaning(t, records, c, 0);
  }

  lemma {:induction false} BatchKeepsFinal(t: Tx, ids: seq<MessageId>, i: nat)
    requires i < |t.db.messages|
    ensures var r := ApplyBatch(t, ids);
            r.Ok? ==> r.value.db.messages[i] == t.db.messages[i].(status := r.value.db.messages[i].status)
                      && (Final(t.db.messages[i].status) ==> r.value.db.messages[i] == t.db.messages[i])
    decreases ids
  {
    hide HasEvent;
    if ids != [] {
      var k := MessageAt(t.db.messages, t.run, ids[0]);
      if k < |t.db.messages| {
        BatchKeepsFinal(if Final(t.db.messages[k].status) then t else Finalize(t, k, Applied), ids[1..], i);
      }
    }
  }

  /** A batch the core accepted leaves every message it names final. */
  lemma {:induction false} BatchApplies(t: Tx, ids: seq<MessageId>, n: nat)
    requires n < |ids| && DistinctIds(t.db.messages)
    ensures var r := ApplyBatch(t, ids);
            r.Ok? ==> exists i :: 0 <= i < |t.db.messages| && t.db.messages[i].id == ids[n]
                                  && Final(r.value.db.messages[i].status)
    decreases ids
  {
    hide HasEvent;
    var r := ApplyBatch(t, ids);
    if r.Ok? {
      var k := MessageAt(t.db.messages, t.run, ids[0]);
      var t1 := if Final(t.db.messages[k].status) then t else Finalize(t, k, Applied);
      if n == 0 {
        BatchKeepsFinal(t1, ids[1..], k);
      } else {
        BatchApplies(t1, ids[1..], n - 1);
        var i :| 0 <= i < |t1.db.messages| && t1.db.messages[i].id == ids[1..][n - 1]
                 && Final(r.value.db.messages[i].status);
        assert t.db.messages[i].id == ids[n];
      }
    }
  }

  // ----- questions -----

  /** The run shows these questions and takes an answer. */
  predicate Asks(b: Run, questions: seq<Question>) {
    b.status == WaitingInput && !b.pending && b.questions == questions
  }

  /** The run reads input first and shows no question. */
  predicate Reads(b: Run) { b.status == Intake && b.pending && b.questions == [] }

  predicate Holds(b: Run, cv: CaseView) {
    !Settled(b) && b.caseStatus == Some(cv.status) && b.authoritative == cv.questions && b.asOf == Some(cv.revision)
  }

  /** The same run, open or settled as before, and no run row touched. */
  predicate OnItsRun(t: Tx, u: Tx) {
    && u.run == t.run && u.db.runs == t.db.runs && u.db.deleted == t.db.deleted && u.db.current == t.db.current
    && u.body.status == t.body.status && u.body.stop == t.body.stop && u.body.report == t.body.report
  }

  /** The passes before the projection stay on their run. */
  lemma {:induction false} PassesKeepRun(t: Tx, records: set<Record>, c: CaseId)
    ensures var r := AcceptRestartsFrom(t, records, c, 0);
            r.Ok? ==> OnItsRun(t, r.value)
                      && var u := AcceptAdoptions(r.value, records, c); u.Ok? ==> OnItsRun(t, u.value)
  {
    hide AcceptAdoptions;
    RestartsKeepRun(t, records, c, 0);
    var r := AcceptRestartsFrom(t, records, c, 0);
    if r.Ok? { AdoptionsShell(r.value, records, c); }
  }

  lemma {:induction false} RestartsKeepRun(t: Tx, records: set<Record>, c: CaseId, k: nat)
    requires k <= |t.db.restarts|
    ensures var r := AcceptRestartsFrom(t, records, c, k); r.Ok? ==> OnItsRun(t, r.value)
    decreases |t.db.restarts| - k
  {
    hide HasEvent;
    if k < |t.db.restarts| {
      var t1 := if Accepts(t.db.restarts[k], t.run, records, c) then AcceptRestart(t, k) else t;
      RestartsKeepRun(t1, records, c, k + 1);
    }
  }

  /** A waiting Case that is projected on an open run asks its questions, or keeps them behind unread input. */
  lemma WaitingCommit(db: Db, cv: CaseView, records: set<Record>, k: nat)
    requires k == RunFor(db, cv.id, records) && k < |db.runs| && Open(Load(db, k)) && Waiting(cv.status)
    requires Project(db, cv, records).Ok?
    ensures var a := Project(db, cv, records).value;
            && |a.runs| == |db.runs| && a.current == db.current && a.deleted == db.deleted && Holds(a.runs[k], cv)
            && (Reads(a.runs[k]) || Asks(a.runs[k], cv.questions))
  {
    hide AcceptRestartsFrom, AcceptAdoptions, RunFor;
    var t := Load(db, k).(body := Load(db, k).body.(caseId := Some(cv.id)));
    PassesKeepRun(t, records, cv.id);
    var t1 := AcceptRestartsFrom(t, records, cv.id, 0).value;
    var t2 := AcceptAdoptions(t1, records, cv.id).value;
    hide HasEvent;
    assert Project(db, cv, records) == Ok(Save(Projected(t2, cv)));
  }

  lemma Appended(t: Tx, key: EventKey)
    ensures HasEvent(Append(t, key).db.events, t.run, key)
  {
    var u := Append(t, key);
    if !HasEvent(t.db.events, t.run, key) { assert u.db.events[|t.db.events|].key == key; }
  }

  lemma MessageHides(a: Db, q: Request, cv: CaseView)
    requires a.current < |a.runs| && Holds(a.runs[a.current], cv) && Waiting(cv.status)
    requires MessageOf(a.messages, q.id) == |a.messages| && Submit(a, q, None).Ok?
    ensures var b := Submit(a, q, None).value;
            && b.current == a.current && |b.runs| == |a.runs| && b.deleted == a.deleted
            && Reads(b.runs[b.current]) && Holds(b.runs[b.current], cv)
  {
    hide HasEvent, MessageOf, RestartOf, RunMessages;
  }

  /**
   A waiting Case is projected on the current run, a message follows, and a batch of intake ends. In between the
   run shows no question; after the batch it asks exactly those of the Case, with their event in the log, iff no
   message is left unread, and otherwise goes on reading.
   */
  lemma QuestionsComeBack(db: Db, cv: CaseView, records: set<Record>, q: Request, ids: set<MessageId>)
    requires db.current == RunFor(db, cv.id, records) && db.current < |db.runs| && Open(Load(db, db.current))
    requires Waiting(cv.status) && Project(db, cv, records).Ok?
    requires var a := Project(db, cv, records).value;
             a.current < |a.runs| && MessageOf(a.messages, q.id) == |a.messages| && Submit(a, q, None).Ok?
    requires FinishIntake(Submit(Project(db, cv, records).value, q, None).value, db.current, ids, None).Ok?
    ensures var k := db.current;
            var b := Submit(Project(db, cv, records).value, q, None).value;
            var c := FinishIntake(b, k, ids, None).value;
            && b.current == c.current == k && Reads(b.runs[k])
            && (Asks(c.runs[k], cv.questions) <==> !Uncovered(b.messages, k, b.runs[k].covered + ids))
            && (Reads(c.runs[k]) <==> Uncovered(b.messages, k, b.runs[k].covered + ids))
            && (Asks(c.runs[k], cv.questions) && cv.questions != [] ==>
                  HasEvent(c.events, k, QuestionsAsked(Some(cv.revision), b.runs[k].covered + ids, cv.questions)))
  {
    WaitingCommit(db, cv, records, db.current);
    MessageHides(Project(db, cv, records).value, q, cv);
    hide Project, Submit, HasEvent, RunFor, Uncovered, KnownMessages, Append;
    var b := Submit(Project(db, cv, records).value, q, None).value;
    var t, covered := Load(b, db.current), b.runs[db.current].covered + ids;
    Appended(t.(body := t.body.(covered := covered, pending := false, status := WaitingInput,
                                questions := cv.questions)),
             QuestionsAsked(Some(cv.revision), covered, cv.questions));
  }

  // ----- deletion -----

  lemma DeleteRunStops(db: Db, k: nat)
    requires Inv(db) && db.deleted && k < |db.runs|
    ensures var b := DeleteRun(db, k);
            && Settled(b.runs[k]) && |b.runs| == |db.runs| && b.deleted
            && (forall i :: 0 <= i < |db.runs| && i != k ==> b.runs[i] == db.runs[i])
  {
    hide MarkUnused, InvBut;
    MarkUnusedShell(db, k);
  }

  lemma MarkUnusedShell(db: Db, k: nat)
    requires k < |db.runs|
    ensures var t := Load(db, k);
            var u := MarkUnused(t.(body := t.body.(stop := true, status := Cancelling, pending := false,
                                                   questions := [])));
            SameShell(t.(body := t.body.(stop := true, status := Cancelling, pending := false, questions := [])), u)
  {}

  lemma {:induction false} DeleteFromStops(db: Db, k: nat)
    requires Inv(db) && db.deleted && forall i :: 0 <= i < |db.runs| && i < k ==> Settled(db.runs[i])
    ensures forall i :: 0 <= i < |DeleteFrom(db, k).runs| ==> Settled(DeleteFrom(db, k).runs[i])
    decreases |db.runs| - k
  {
    hide InvBut, Evolves, DeleteRun;
    if k < |db.runs| {
      DeleteRunStep(db, k);
      DeleteRunStops(db, k);
      DeleteFromStops(DeleteRun(db, k), k + 1);
    }
  }

  /** After deletion every run is stopping or over, and has no unfinished message. */
  lemma DeletionStopsEverything(db: Db)
    requires Inv(db) && !db.deleted
    ensures forall k :: 0 <= k < |Delete(db).runs| ==> Settled(Delete(db).runs[k]) && AllFinal(Delete(db).messages, k)
  {
    DeleteStep(db);
    assert Inv(db.(deleted := true));
    DeleteFromStops(db.(deleted := true), 0);
    hide DeleteFrom, Evolves;
    assert forall k :: 0 <= k < |Delete(db).runs| ==> Settled(Delete(db).runs[k]);
  }

  // ----- recovery -----

  /** What a run is after recovery under `epoch`. */
  predicate Recovers(a: Run, b: Run, heard: bool, epoch: Epoch, finished: map<CaseId, CaseView>) {
    && (Closed(a.status) ==> b == a)
    && (!Closed(a.status) ==> b.epoch == epoch)
    && (!Closed(a.status) && a.epoch != epoch && !a.stop && heard && !(a.caseId.Some? && a.caseId.value in finished) ==>
          b.status == Interrupted)
    && (!Closed(a.status) && a.epoch != epoch && a.caseId.Some? && a.caseId.value in finished ==>
          b.caseStatus == Some(finished[a.caseId.value].status))
  }

  lemma {:induction false} RecoverRunMeaning(db: Db, k: nat, finished: map<CaseId, CaseView>, records: set<Record>)
    requires k < |db.runs| && forall c :: c in finished ==> finished[c].id == c
    ensures var r := RecoverRun(db, k, finished, records);
            r.Ok? ==> Recovers(db.runs[k], r.value.runs[k], RunMessages(db.messages, k) > 0, db.epoch, finished)
                      && r.value.epoch == db.epoch
  {
    hide AcceptAdoptions, Projected, Close, StampEpoch, RunMessages;
    var t := Load(db, k);
    var r := RecoverRun(db, k, finished, records);
    if !Closed(t.body.status) && t.body.epoch != db.epoch && r.Ok? {
      if t.body.caseId.Some? && t.body.caseId.value in finished {
        var cv := finished[t.body.caseId.value];
        AdoptionsShell(t, records, cv.id);
        var t1 := AcceptAdoptions(t, records, cv.id).value;
        RowsTrans(t, t1, Projected(t1, cv));
        SaveRow(db, k, Projected(t1, cv));
        Stamped(Save(Projected(t1, cv)), k);
      } else if !t.body.stop && RunMessages(db.messages, k) > 0 {
        SaveRow(db, k, Close(t, Interrupted));
        Stamped(Save(Close(t, Interrupted)), k);
      } else {
        Stamped(db, k);
      }
    }
  }

  lemma Stamped(db: Db, k: nat)
    requires k < |db.runs|
    ensures var b := StampEpoch(db, k); b.runs == db.runs[k := db.runs[k].(epoch := db.epoch)] && b.epoch == db.epoch
  {}

  lemma {:induction false} SameCount(a: seq<Message>, b: seq<Message>, run: nat)
    requires |a| == |b| && forall i :: 0 <= i < |a| ==> b[i].run == a[i].run
    ensures RunMessages(a, run) == RunMessages(b, run)
  {
    if a != [] { SameCount(a[1..], b[1..], run); }
  }

  lemma {:induction false} RecoverRunMessages(db: Db, k: nat, finished: map<CaseId, CaseView>, records: set<Record>,
                                              run: nat)
    requires Inv(db) && k < |db.runs| && forall c :: c in finished ==> finished[c].id == c
    requires var c := db.runs[k].caseId; c.Some? && c.value in finished ==> Trusted(finished[c.value], db.runs[k])
    ensures var r := RecoverRun(db, k, finished, records);
            r.Ok? ==> RunMessages(r.value.messages, run) == RunMessages(db.messages, run)
  {
    hide RecoverRun, InvBut;
    RecoverRunStep(db, k, finished, records);
    RecoverRunChanges(db, k, finished, records);
    var r := RecoverRun(db, k, finished, records);
    if r.Ok? { SameCount(db.messages, r.value.messages, run); }
  }

  lemma {:induction false} RecoverFromMeaning(db: Db, k: nat, finished: map<CaseId, CaseView>, records: set<Record>,
                                              i: nat)
    requires Inv(db) && i < |db.runs| && forall c :: c in finished ==> finished[c].id == c
    requires forall j :: k <= j < |db.runs| && db.runs[j].caseId.Some? && db.runs[j].caseId.value in finished ==>
      Trusted(finished[db.runs[j].caseId.value], db.runs[j])
    ensures var r := RecoverFrom(db, k, finished, records);
            r.Ok? ==>
              && |r.value.runs| == |db.runs|
              && (i < k ==> r.value.runs[i] == db.runs[i])
              && (i >= k ==> Recovers(db.runs[i], r.value.runs[i], RunMessages(db.messages, i) > 0, db.epoch, finished))
    decreases |db.runs| - k
  {
    hide InvBut, Evolves, RecoverRun, Recovers, Trusted, RunMessages;
    if k < |db.runs| && RecoverRun(db, k, finished, records).Ok? {
      RecoverRunStep(db, k, finished, records);
      RecoverRunMeaning(db, k, finished, records);
      RecoverRunMessages(db, k, finished, records, i);
      RecoverFromMeaning(RecoverRun(db, k, finished, records).value, k + 1, finished, records, i);
    }
  }

  /** After recovery no run is left working under an old epoch: each has adopted its finished Case, was interrupted if
      it had input, or carries the new epoch. */
  lemma {:induction false} RecoveryLeavesNothingRunning(db: Db, epoch: Epoch, finished: map<CaseId, CaseView>,
                                                        records: set<Record>, i: nat)
    requires Inv(db) && !db.deleted && i < |db.runs| && TrustedAll(finished, db)
    requires forall c :: c in finished ==> finished[c].id == c
    ensures var r := Recover(db, epoch, finished, records);
            r.Ok? ==> i < |r.value.runs|
                      && Recovers(db.runs[i], r.value.runs[i], RunMessages(db.messages, i) > 0, epoch, finished)
  {
    hide InvBut, Evolves, RecoverFrom, Recovers, Trusted;
    EpochStep(db, epoch);
    RecoverFromMeaning(db.(epoch := epoch), 0, finished, records, i);
  }
}
