/**
 What every committed state of a conversation satisfies, and how one committed state may follow another.

 The pieces of a transaction are judged on `View`, the tables as they would be if the transaction saved
 its body now.
 */
module ConversationInvariant {
  import opened Conversation

  // ----- the invariant -----

  /** A run that takes no more input: closed, reported, or asked to stop. */
  predicate Settled(b: Run) { Closed(b.status) || b.report || b.stop }

  /** Events are numbered 1, 2, ... without a gap, and no run has two events under one key. */
  ghost predicate LogOk(events: seq<Event>, last: nat) {
    && |events| == last
    && (forall i :: 0 <= i < |events| ==> events[i].sequence == i + 1)
    && (forall i, j :: 0 <= i < j < |events| ==> !(events[i].run == events[j].run && events[i].key == events[j].key))
  }

  ghost predicate RunOk(b: Run) {
    && (b.pending ==> b.questions == [])
    && (b.status == WaitingInput ==> b.caseStatus.None? || Waiting(b.caseStatus.value))
    && (b.caseId.None? ==> b.caseStatus.None?)
    && (Settled(b) ==> !b.pending)
    && (b.stop <==> b.status == Cancelling)
    && (b.stop ==> !b.report)
    && (b.report ==> b.status == Running || b.status == Completed || b.status == Interrupted)
    && (b.report ==> b.caseStatus.Some? && IsResult(b.caseStatus.value))
  }

  /** A run that publicly waits for input has no unread input. */
  ghost predicate Shown(b: Run) { b.status == WaitingInput ==> !b.pending }

  ghost predicate AllFinal(messages: seq<Message>, run: nat) {
    forall i :: 0 <= i < |messages| && messages[i].run == run ==> Final(messages[i].status)
  }

  /** No accepted input is lost: an unread message of the run keeps the work latch set. */
  ghost predicate CoverOk(messages: seq<Message>, run: nat, b: Run) {
    forall i :: 0 <= i < |messages| && messages[i].run == run && messages[i].status != Unused
      ==> messages[i].id in b.covered || b.pending
  }

  ghost predicate RowsOk(db: Db) {
    && |db.runs| > 0 && db.current == |db.runs| - 1 && db.head == db.runs[db.current]
    && (forall i :: 0 <= i < |db.events| ==> db.events[i].run < |db.runs|)
    && (forall i :: 0 <= i < |db.messages| ==> db.messages[i].run < |db.runs|)
    && (forall i :: 0 <= i < |db.stops| ==> db.stops[i].run < |db.runs|)
    && (forall i :: 0 <= i < |db.restarts| ==> db.restarts[i].run < |db.runs|)
  }

  predicate HasId(messages: seq<Message>, id: MessageId) {
    exists i :: 0 <= i < |messages| && messages[i].id == id
  }

  /** The receipt of a message names the event that announced it. */
  predicate ReceiptAt(events: seq<Event>, m: Message) {
    0 < m.receipt <= |events| && events[m.receipt - 1].run == m.run
    && events[m.receipt - 1].key == MessageAccepted(m.id)
  }

  ghost predicate Announced(events: seq<Event>, messages: seq<Message>) {
    && (forall i :: 0 <= i < |messages| ==> ReceiptAt(events, messages[i]))
    && (forall e :: 0 <= e < |events| && events[e].key.MessageAccepted? ==> HasId(messages, events[e].key.id))
  }

  ghost predicate MessagesOk(db: Db) {
    && (forall i, j :: 0 <= i < j < |db.messages| ==>
          db.messages[i].id != db.messages[j].id && db.messages[i].request != db.messages[j].request)
    && (forall i :: 0 <= i < |db.messages| ==> db.messages[i].id < db.nextId)
    && Announced(db.events, db.messages)
  }

  /** What a stop receipt says of its run, in a conversation that is not deleted. */
  predicate ReceiptOk(s: StopStatus, b: Run) {
    if b.stop then s == StopCancelling
    else if b.status == Cancelled then s == StopCancelled
    else (Closed(b.status) || b.report) && s == StopAlreadyFinished
  }

  predicate Taken(s: RestartStatus) { s == RestartCommitted || s == RestartCompleted }

  ghost predicate RestartsOk(db: Db) {
    && (forall i, j :: 0 <= i < j < |db.restarts| ==>
          && db.restarts[i].request != db.restarts[j].request
          && db.restarts[i].key != db.restarts[j].key
          && db.restarts[i].message != db.restarts[j].message
          && !(db.restarts[i].run == db.restarts[j].run && Live(db.restarts[i].status) && Live(db.restarts[j].status)))
    && (forall i :: 0 <= i < |db.restarts| ==> db.restarts[i].message < db.nextId)
    && (forall i :: 0 <= i < |db.restarts| && db.restarts[i].status == RestartIsPending ==>
          && !HasRequest(db.messages, db.restarts[i].request)
          && !HasId(db.messages, db.restarts[i].message))
    && (forall i :: 0 <= i < |db.restarts| && Taken(db.restarts[i].status) ==>
          HasRequest(db.messages, db.restarts[i].request))
  }

  ghost predicate ReportsOk(db: Db) {
    forall k :: 0 <= k < |db.runs| ==> (db.runs[k].report <==> HasEvent(db.events, k, ResultAvailable))
  }

  ghost predicate RunsOk(db: Db, x: nat) {
    && (forall k :: 0 <= k < |db.runs| ==> RunOk(db.runs[k]))
    && (forall k :: 0 <= k < |db.runs| && k != x ==> Shown(db.runs[k]))
    && (forall k :: 0 <= k < |db.runs| && Settled(db.runs[k]) ==> AllFinal(db.messages, k))
    && (forall k :: 0 <= k < |db.runs| && !Settled(db.runs[k]) ==> CoverOk(db.messages, k, db.runs[k]))
    && (!db.deleted ==> forall k :: 0 <= k < |db.runs| && k < db.current ==>
        Closed(db.runs[k].status) || db.runs[k].report)
  }

  ghost predicate StopsOk(db: Db) {
    !db.deleted ==> forall i :: 0 <= i < |db.stops| && db.stops[i].run < |db.runs| ==>
      ReceiptOk(db.stops[i].status, db.runs[db.stops[i].run])
  }

  /** The invariant, with `Shown` not asked of run `x`. */
  ghost predicate InvBut(db: Db, x: nat) {
    && RowsOk(db) && LogOk(db.events, db.headLast) && MessagesOk(db) && RestartsOk(db)
    && ReportsOk(db) && RunsOk(db, x) && StopsOk(db)
  }

  ghost predicate Inv(db: Db) { InvBut(db, |db.runs|) }

  // ----- how states follow each other -----

  /** A run once asked to stop is still stopping, or was cancelled, or had its report in time. */
  predicate StopAnswered(b: Run) { b.stop || b.report || b.status == Cancelled }

  ghost predicate Evolves(a: Db, b: Db) {
    && a.events <= b.events
    && a.current <= b.current && |a.runs| <= |b.runs|
    && (a.deleted ==> b.deleted)
    && (forall k :: 0 <= k < |a.runs| && Closed(a.runs[k].status) && !b.deleted ==>
        b.runs[k].status == a.runs[k].status)
    && (forall k :: 0 <= k < |a.runs| && a.runs[k].report ==> b.runs[k].report)
    && (forall k :: 0 <= k < |a.runs| && a.runs[k].stop && !b.deleted ==> StopAnswered(b.runs[k]))
    && |a.messages| <= |b.messages|
    && (forall i :: 0 <= i < |a.messages| ==> b.messages[i] == a.messages[i].(status := b.messages[i].status))
    && (forall i :: 0 <= i < |a.messages| && Final(a.messages[i].status) ==>
        b.messages[i].status == a.messages[i].status)
    && |a.stops| <= |b.stops|
    && (forall i :: 0 <= i < |a.stops| ==> b.stops[i] == a.stops[i].(status := b.stops[i].status))
    && |a.restarts| <= |b.restarts|
    && (forall i :: 0 <= i < |a.restarts| ==> RestartStep(a.restarts[i], b.restarts[i]))
  }

  /** A restart keeps its identity, and one that was taken out of PENDING never returns to it. */
  predicate RestartStep(a: Restart, b: Restart) {
    && b.request == a.request && b.run == a.run && b.message == a.message && b.digest == a.digest
    && b.caseId == a.caseId
    && (a.status != RestartIsPending ==> b.status != RestartIsPending)
    && (!Live(a.status) ==> b == a)
    && (a.status == RestartCommitted ==> b.key == a.key && b.op == a.op)
  }

  lemma EvolvesReflexive(a: Db)
    ensures Evolves(a, a)
  {}

  lemma EvolvesTransitive(a: Db, b: Db, c: Db)
    requires Evolves(a, b) && Evolves(b, c)
    ensures Evolves(a, c)
  {
    forall i | 0 <= i < |a.restarts| ensures RestartStep(a.restarts[i], c.restarts[i]) {
      assert RestartStep(a.restarts[i], b.restarts[i]) && RestartStep(b.restarts[i], c.restarts[i]);
    }
    forall i | 0 <= i < |a.messages|
      ensures c.messages[i] == a.messages[i].(status := c.messages[i].status)
    {
      assert b.messages[i] == a.messages[i].(status := b.messages[i].status);
    }
    forall i | 0 <= i < |a.stops|
      ensures c.stops[i] == a.stops[i].(status := c.stops[i].status)
    {
      assert b.stops[i] == a.stops[i].(status := b.stops[i].status);
    }
  }

  // ----- a transaction seen as if it were saved now -----

  ghost function View(t: Tx): Db
    requires t.run < |t.db.runs|
  {
    t.db.(runs := t.db.runs[t.run := t.body], head := if t.db.current == t.run then t.body else t.db.head,
          headLast := t.last)
  }

  ghost predicate TxOk(t: Tx) {
    t.run < |t.db.runs| && t.db.headLast <= t.last
  }

  lemma SaveIsView(t: Tx)
    requires TxOk(t)
    ensures Save(t) == View(t)
  {}

  lemma LoadIsView(db: Db, k: nat)
    requires RowsOk(db) && k < |db.runs|
    ensures View(Load(db, k)) == db && TxOk(Load(db, k))
  {
    assert db.runs[k := db.runs[k]] == db.runs;
  }

  // ----- the log -----

  lemma AppendOk(t: Tx, key: EventKey)
    requires TxOk(t) && LogOk(t.db.events, t.last)
    ensures var u := Append(t, key);
            && TxOk(u) && LogOk(u.db.events, u.last) && HasEvent(u.db.events, t.run, key)
            && (u == t || (!HasEvent(t.db.events, t.run, key)
                           && u.db.events == t.db.events + [Event(t.last + 1, t.run, key)]))
  {
    var u := Append(t, key);
    if u != t {
      assert u.db.events[|t.db.events|] == Event(t.last + 1, t.run, key);
    }
  }

  /** Events that other parts of the invariant say nothing about. */
  predicate Plain(key: EventKey) { !key.MessageAccepted? && !key.ResultAvailable? }

  ghost predicate Growth(t: Tx, u: Tx, withResult: bool) {
    && LogOk(u.db.events, u.last) && t.last <= u.last && t.db.events <= u.db.events
    && forall j :: |t.db.events| <= j < |u.db.events| ==>
         u.db.events[j].run == t.run
         && (Plain(u.db.events[j].key) || (withResult && u.db.events[j].key == ResultAvailable))
  }

  predicate MessageStep(m: Message, n: Message, run: nat) {
    n == m.(status := n.status) && (m.run != run || Final(m.status) ==> n == m)
  }

  predicate StopStep(a: Stop, b: Stop, run: nat) {
    b == a.(status := b.status) && (a.run != run ==> b == a)
  }

  /** `u` continues `t` by plain events, statuses of the run's unfinished messages, receipts and its body. */
  ghost predicate Moves(t: Tx, u: Tx, withResult: bool) {
    && TxOk(t) && SameRows(t, u) && Growth(t, u, withResult)
    && (forall i :: 0 <= i < |t.db.stops| ==> StopStep(t.db.stops[i], u.db.stops[i], t.run))
    && forall i :: 0 <= i < |t.db.messages| ==> MessageStep(t.db.messages[i], u.db.messages[i], t.run)
  }

  lemma MovesTrans(t: Tx, u: Tx, v: Tx, a: bool, b: bool)
    requires Moves(t, u, a) && Moves(u, v, b)
    ensures Moves(t, v, a || b)
  {
    forall i | 0 <= i < |t.db.messages| ensures MessageStep(t.db.messages[i], v.db.messages[i], t.run) {
      assert MessageStep(t.db.messages[i], u.db.messages[i], t.run);
      assert MessageStep(u.db.messages[i], v.db.messages[i], t.run);
    }
    forall i | 0 <= i < |t.db.stops| ensures StopStep(t.db.stops[i], v.db.stops[i], t.run) {
      assert StopStep(t.db.stops[i], u.db.stops[i], t.run);
      assert StopStep(u.db.stops[i], v.db.stops[i], t.run);
    }
    forall j | |t.db.events| <= j < |v.db.events|
      ensures v.db.events[j].run == t.run
           && (Plain(v.db.events[j].key) || ((a || b) && v.db.events[j].key == ResultAvailable))
    {
      if j < |u.db.events| { assert v.db.events[j] == u.db.events[j]; }
    }
  }

  lemma MovesBody(t: Tx, body: Run)
    requires TxOk(t) && LogOk(t.db.events, t.last)
    ensures Moves(t, t.(body := body), false)
  {}

  lemma AppendMoves(t: Tx, key: EventKey)
    requires TxOk(t) && LogOk(t.db.events, t.last) && (Plain(key) || key == ResultAvailable)
    ensures Moves(t, Append(t, key), key == ResultAvailable) && HasEvent(Append(t, key).db.events, t.run, key)
    ensures Append(t, key).body == t.body && Append(t, key).db.messages == t.db.messages
         && Append(t, key).db.stops == t.db.stops
  {
    AppendOk(t, key);
  }

  lemma FinalizeMoves(t: Tx, k: nat, status: MessageStatus)
    requires TxOk(t) && LogOk(t.db.events, t.last)
    requires k < |t.db.messages| && t.db.messages[k].run == t.run && !Final(t.db.messages[k].status)
    ensures var u := Finalize(t, k, status);
            && Moves(t, u, false) && u.body == t.body && u.db.stops == t.db.stops
            && u.db.messages == t.db.messages[k := t.db.messages[k].(status := status)]
  {
    var m := t.db.messages[k];
    var t1 := t.(db := t.db.(messages := t.db.messages[k := m.(status := status)]));
    AppendMoves(t1, MessageUpdated(m.id, status));
    assert Moves(t, t1, false);
    MovesTrans(t, t1, Append(t1, MessageUpdated(m.id, status)), false, false);
  }

  lemma GiveUpMoves(t: Tx, k: nat)
    requires TxOk(t) && LogOk(t.db.events, t.last) && k < |t.db.messages|
    ensures var u := GiveUp(t, k);
            && Moves(t, u, false) && u.body == t.body && u.db.stops == t.db.stops
            && (forall i :: 0 <= i < |t.db.messages| && i != k ==> u.db.messages[i] == t.db.messages[i])
            && (u.db.messages[k].run == t.run ==> Final(u.db.messages[k].status))
  {
    var m := t.db.messages[k];
    if m.run == t.run && !Final(m.status) { FinalizeMoves(t, k, Unused); }
  }

  lemma {:induction false} MarkUnusedFromMoves(t: Tx, k: nat)
    requires TxOk(t) && LogOk(t.db.events, t.last) && k <= |t.db.messages|
    ensures var u := MarkUnusedFrom(t, k);
            && Moves(t, u, false) && u.body == t.body && u.db.stops == t.db.stops
            && (forall i :: 0 <= i < k ==> u.db.messages[i] == t.db.messages[i])
            && (forall i :: k <= i < |u.db.messages| && u.db.messages[i].run == t.run ==>
                Final(u.db.messages[i].status))
    decreases |t.db.messages| - k
  {
    if k < |t.db.messages| {
      GiveUpMoves(t, k);
      var t1 := GiveUp(t, k);
      MarkUnusedFromMoves(t1, k + 1);
      MovesTrans(t, t1, MarkUnusedFrom(t1, k + 1), false, false);
    }
  }

  lemma MarkUnusedMoves(t: Tx)
    requires TxOk(t) && LogOk(t.db.events, t.last)
    ensures var u := MarkUnused(t);
            && Moves(t, u, false) && u.body == t.body && u.db.stops == t.db.stops
            && AllFinal(u.db.messages, t.run)
  {
    MarkUnusedFromMoves(t, 0);
  }

  lemma CloseMoves(t: Tx, status: RunStatus)
    requires TxOk(t) && LogOk(t.db.events, t.last)
    ensures var u := Close(t, status);
            && Moves(t, u, false) && u.db.stops == t.db.stops && AllFinal(u.db.messages, t.run)
            && u.body == t.body.(status := status, pending := false, questions := [])
  {
    var t0 := t.(body := t.body.(status := status, pending := false, questions := []));
    MarkUnusedMoves(t0);
    var t1 := MarkUnused(t0);
    MovesTrans(t, t0, t1, false, false);
    var t2 := if status == Interrupted then Append(t1, RunInterrupted)
              else if status == Failed then Append(t1, RunFailed) else t1;
    if status == Interrupted { AppendMoves(t1, RunInterrupted); MovesTrans(t, t1, t2, false, false); }
    else if status == Failed { AppendMoves(t1, RunFailed); MovesTrans(t, t1, t2, false, false); }
    AppendMoves(t2, RunCompleted);
    MovesTrans(t, t2, Append(t2, RunCompleted), false, false);
  }

  // ----- saving -----

  /** What the new body of a saved transaction has to answer for. */
  ghost predicate GoodBody(t: Tx, u: Tx, withResult: bool) {
    && RunOk(u.body) && Shown(u.body)
    && (Settled(u.body) ==> AllFinal(u.db.messages, u.run))
    && (!Settled(u.body) ==> CoverOk(u.db.messages, u.run, u.body))
    && (u.body.report <==> t.body.report || withResult)
    && (withResult ==> HasEvent(u.db.events, u.run, ResultAvailable))
    && (Closed(t.body.status) && !u.db.deleted ==> u.body.status == t.body.status)
    && (t.body.stop && !u.db.deleted ==> StopAnswered(u.body))
    && (forall i :: 0 <= i < |u.db.stops| && u.db.stops[i].run == u.run && !u.db.deleted ==>
          ReceiptOk(u.db.stops[i].status, u.body))
  }

  lemma SameRequests(a: seq<Message>, b: seq<Message>, q: RequestId, id: MessageId)
    requires |a| <= |b|
    requires forall i :: 0 <= i < |a| ==> b[i].request == a[i].request && b[i].id == a[i].id
    ensures HasRequest(a, q) ==> HasRequest(b, q)
    ensures HasId(a, id) ==> HasId(b, id)
    ensures |a| == |b| && HasRequest(b, q) ==> HasRequest(a, q)
    ensures |a| == |b| && HasId(b, id) ==> HasId(a, id)
  {
    if HasRequest(a, q) {
      var i :| 0 <= i < |a| && a[i].request == q;
      assert b[i].request == q;
    }
    if HasId(a, id) {
      var i :| 0 <= i < |a| && a[i].id == id;
      assert b[i].id == id;
    }
    if |a| == |b| && HasRequest(b, q) {
      var i :| 0 <= i < |b| && b[i].request == q;
      assert a[i].request == q;
    }
    if |a| == |b| && HasId(b, id) {
      var i :| 0 <= i < |b| && b[i].id == id;
      assert a[i].id == id;
    }
  }

  lemma MovesIdentities(t: Tx, u: Tx, withResult: bool)
    requires Moves(t, u, withResult)
    ensures forall i :: 0 <= i < |t.db.messages| ==>
      && u.db.messages[i].id == t.db.messages[i].id && u.db.messages[i].request == t.db.messages[i].request
      && u.db.messages[i].receipt == t.db.messages[i].receipt && u.db.messages[i].run == t.db.messages[i].run
  {
    forall i | 0 <= i < |t.db.messages|
      ensures u.db.messages[i].id == t.db.messages[i].id && u.db.messages[i].request == t.db.messages[i].request
           && u.db.messages[i].receipt == t.db.messages[i].receipt && u.db.messages[i].run == t.db.messages[i].run
    {
      assert MessageStep(t.db.messages[i], u.db.messages[i], t.run);
    }
  }

  lemma MovesAnnounced(t: Tx, u: Tx, withResult: bool)
    requires Moves(t, u, withResult) && Announced(t.db.events, t.db.messages)
    ensures Announced(u.db.events, u.db.messages)
  {
    MovesIdentities(t, u, withResult);
    forall i | 0 <= i < |u.db.messages| ensures ReceiptAt(u.db.events, u.db.messages[i]) {
      assert ReceiptAt(t.db.events, t.db.messages[i]);
    }
    forall e | 0 <= e < |u.db.events| && u.db.events[e].key.MessageAccepted?
      ensures HasId(u.db.messages, u.db.events[e].key.id)
    {
      assert u.db.events[e] == t.db.events[e];
      SameRequests(t.db.messages, u.db.messages, 0, t.db.events[e].key.id);
    }
  }

  lemma SavedMessages(t: Tx, u: Tx, withResult: bool)
    requires TxOk(t) && RowsOk(View(t)) && MessagesOk(View(t)) && Moves(t, u, withResult)
    ensures MessagesOk(View(u)) && RowsOk(View(u))
  {
    MovesIdentities(t, u, withResult);
    MovesAnnounced(t, u, withResult);
    forall e | 0 <= e < |u.db.events| ensures u.db.events[e].run < |u.db.runs| {
      if e < |t.db.events| { assert u.db.events[e] == t.db.events[e]; }
    }
    forall i | 0 <= i < |u.db.stops| ensures u.db.stops[i].run < |u.db.runs| {
      assert StopStep(t.db.stops[i], u.db.stops[i], t.run) && View(t).stops[i].run < |View(t).runs|;
    }
  }

  lemma SavedRestarts(t: Tx, u: Tx, withResult: bool)
    requires TxOk(t) && RestartsOk(View(t)) && Moves(t, u, withResult)
    ensures RestartsOk(View(u))
  {
    var a, b := View(t), View(u);
    MovesIdentities(t, u, withResult);
    forall i | 0 <= i < |b.restarts|
      ensures HasRequest(b.messages, b.restarts[i].request) <==> HasRequest(a.messages, a.restarts[i].request)
      ensures HasId(b.messages, b.restarts[i].message) <==> HasId(a.messages, a.restarts[i].message)
    {
      SameRequests(a.messages, b.messages, a.restarts[i].request, a.restarts[i].message);
    }
  }

  lemma SavedReports(t: Tx, u: Tx, withResult: bool)
    requires TxOk(t) && InvBut(View(t), t.run) && Moves(t, u, withResult) && GoodBody(t, u, withResult)
    ensures ReportsOk(View(u))
  {
    var a, b := View(t), View(u);
    forall k | 0 <= k < |b.runs|
      ensures b.runs[k].report <==> HasEvent(b.events, k, ResultAvailable)
    {
      if HasEvent(a.events, k, ResultAvailable) {
        var i :| 0 <= i < |a.events| && a.events[i].run == k && a.events[i].key == ResultAvailable;
        assert b.events[i] == a.events[i];
      } else if HasEvent(b.events, k, ResultAvailable) {
        var i :| 0 <= i < |b.events| && b.events[i].run == k && b.events[i].key == ResultAvailable;
        assert b.events[..|a.events|] == a.events;
        assert i >= |a.events|;
      }
    }
  }

  lemma SavedRuns(t: Tx, u: Tx, withResult: bool)
    requires TxOk(t) && InvBut(View(t), t.run) && Moves(t, u, withResult) && GoodBody(t, u, withResult)
    ensures RunsOk(View(u), |u.db.runs|) && StopsOk(View(u))
  {
    var a, b := View(t), View(u);
    forall k | 0 <= k < |b.runs| && k != t.run && Settled(b.runs[k])
      ensures AllFinal(b.messages, k)
    {
      assert a.runs[k] == b.runs[k] && AllFinal(a.messages, k);
      forall i | 0 <= i < |b.messages| && b.messages[i].run == k ensures Final(b.messages[i].status) {
        assert MessageStep(t.db.messages[i], u.db.messages[i], t.run);
      }
    }
    forall k | 0 <= k < |b.runs| && k != t.run && !Settled(b.runs[k])
      ensures CoverOk(b.messages, k, b.runs[k])
    {
      assert a.runs[k] == b.runs[k] && CoverOk(a.messages, k, a.runs[k]);
      forall i | 0 <= i < |b.messages| && b.messages[i].run == k && b.messages[i].status != Unused
        ensures b.messages[i].id in b.runs[k].covered || b.runs[k].pending
      {
        assert MessageStep(t.db.messages[i], u.db.messages[i], t.run);
      }
    }
    assert forall k :: 0 <= k < |b.runs| && k != t.run ==> b.runs[k] == a.runs[k];
    assert a.runs[t.run] == t.body && b.runs[t.run] == u.body;
    if !b.deleted {
      assert t.run < a.current ==> Closed(u.body.status) || u.body.report;
      forall i | 0 <= i < |b.stops| && b.stops[i].run < |b.runs|
        ensures ReceiptOk(b.stops[i].status, b.runs[b.stops[i].run])
      {
        assert StopStep(t.db.stops[i], u.db.stops[i], t.run);
      }
    }
  }

  /** The main step: a transaction that moves and ends with a good body keeps the invariant and evolves. */
  lemma Saved(t: Tx, u: Tx, withResult: bool)
    requires TxOk(t) && InvBut(View(t), t.run) && Moves(t, u, withResult) && GoodBody(t, u, withResult)
    ensures TxOk(u) && Save(u) == View(u) && Inv(View(u)) && Evolves(View(t), View(u))
  {
    SaveIsView(u);
    SavedMessages(t, u, withResult);
    SavedRestarts(t, u, withResult);
    SavedReports(t, u, withResult);
    SavedRuns(t, u, withResult);
    var a, b := View(t), View(u);
    forall i | 0 <= i < |a.messages|
      ensures b.messages[i] == a.messages[i].(status := b.messages[i].status)
           && (Final(a.messages[i].status) ==> b.messages[i].status == a.messages[i].status)
    {
      assert MessageStep(t.db.messages[i], u.db.messages[i], t.run);
    }
    forall i | 0 <= i < |a.stops| ensures b.stops[i] == a.stops[i].(status := b.stops[i].status) {
      assert StopStep(t.db.stops[i], u.db.stops[i], t.run);
    }
  }
}
