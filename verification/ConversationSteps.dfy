/**
 Every transaction of a conversation keeps the invariant and only moves the conversation forward.
 */
module ConversationSteps {
  import opened Conversation
  import opened ConversationInvariant

  // ----- accepting a message -----

  lemma InvIsInvBut(db: Db, x: nat)
    requires Inv(db)
    ensures InvBut(db, x)
  {}

  /** The restart rows may have one change: the intent behind this very request has been taken. */
  ghost predicate TakesAtMost(before: seq<Restart>, after: seq<Restart>, k: nat, request: RequestId) {
    || after == before
    || (k < |before| && before[k].status == RestartIsPending && before[k].request == request
        && (after == before[k := before[k].(status := RestartCommitted)]
            || after == before[k := before[k].(status := RestartCompleted)]))
  }

  /** `u` is `t` with one message of its run added, announced, and the work latch set. */
  ghost predicate Inserts(t: Tx, u: Tx, id: MessageId, q: RequestId, digest: Fingerprint, k: nat) {
    && u.run == t.run && u.last == t.last + 1
    && u.db == t.db.(events := t.db.events + [Event(t.last + 1, t.run, MessageAccepted(id))],
                     messages := t.db.messages + [Message(id, q, digest, t.run, Queued, t.last + 1)],
                     restarts := u.db.restarts, nextId := u.db.nextId)
    && t.db.nextId <= u.db.nextId && id < u.db.nextId
    && TakesAtMost(t.db.restarts, u.db.restarts, k, q)
    && !HasId(t.db.messages, id) && !HasRequest(t.db.messages, q)
    && (forall i :: 0 <= i < |t.db.restarts| && u.db.restarts[i].status == RestartIsPending ==>
          u.db.restarts[i].request != q && u.db.restarts[i].message != id)
    && Open(t) && RunOk(u.body) && u.body.pending && !Settled(u.body) && u.body.report == t.body.report
  }

  /** An id no message has is announced by no event. */
  lemma Unannounced(events: seq<Event>, messages: seq<Message>, run: nat, id: MessageId)
    requires Announced(events, messages) && !HasId(messages, id)
    ensures forall i :: 0 <= i < |events| ==> events[i].key != MessageAccepted(id)
    ensures !HasEvent(events, run, MessageAccepted(id))
  {}

  lemma InsertedLog(t: Tx, u: Tx, id: MessageId, q: RequestId, digest: Fingerprint, k: nat)
    requires TxOk(t) && InvBut(View(t), t.run) && Inserts(t, u, id, q, digest, k)
    ensures LogOk(u.db.events, u.last) && ReportsOk(View(u))
  {
    var e := Event(t.last + 1, t.run, MessageAccepted(id));
    Unannounced(t.db.events, t.db.messages, t.run, id);
    forall i | 0 <= i < |u.db.events| ensures u.db.events[i] == if i < |t.db.events| then t.db.events[i] else e {}
    forall r | 0 <= r < |u.db.runs|
      ensures HasEvent(u.db.events, r, ResultAvailable) <==> HasEvent(t.db.events, r, ResultAvailable)
    {
      if HasEvent(t.db.events, r, ResultAvailable) {
        var i :| 0 <= i < |t.db.events| && t.db.events[i].run == r && t.db.events[i].key == ResultAvailable;
        assert u.db.events[i] == t.db.events[i];
      }
    }
    forall r | 0 <= r < |u.db.runs|
      ensures View(u).runs[r].report <==> HasEvent(u.db.events, r, ResultAvailable)
    {
      assert View(t).runs[r].report <==> HasEvent(t.db.events, r, ResultAvailable);
    }
  }

  lemma InsertedMessages(t: Tx, u: Tx, id: MessageId, q: RequestId, digest: Fingerprint, k: nat)
    requires TxOk(t) && InvBut(View(t), t.run) && Inserts(t, u, id, q, digest, k)
    ensures MessagesOk(View(u))
  {
    var ms, ns := t.db.messages, u.db.messages;
    assert forall i :: 0 <= i < |ms| ==> ns[i] == ms[i];
    forall i | 0 <= i < |ns| ensures ReceiptAt(u.db.events, ns[i]) {
      if i < |ms| { assert ReceiptAt(t.db.events, ms[i]); }
    }
    forall e | 0 <= e < |u.db.events| && u.db.events[e].key.MessageAccepted?
      ensures HasId(ns, u.db.events[e].key.id)
    {
      if e < |t.db.events| {
        assert HasId(ms, t.db.events[e].key.id);
        SameRequests(ms, ns, q, t.db.events[e].key.id);
      } else {
        assert ns[|ms|].id == id;
      }
    }
    forall i | 0 <= i < |ms| ensures ms[i].id != id && ms[i].request != q {
      if ms[i].id == id { assert HasId(ms, id); }
      if ms[i].request == q { assert HasRequest(ms, q); }
    }
  }

  lemma InsertedPending(ms: seq<Message>, m: Message, rs: seq<Restart>, ss: seq<Restart>, k: nat)
    requires TakesAtMost(rs, ss, k, m.request)
    requires forall i :: 0 <= i < |rs| && rs[i].status == RestartIsPending ==>
      !HasRequest(ms, rs[i].request) && !HasId(ms, rs[i].message)
    requires forall i :: 0 <= i < |rs| && ss[i].status == RestartIsPending ==>
      ss[i].request != m.request && ss[i].message != m.id
    ensures forall i :: 0 <= i < |ss| && ss[i].status == RestartIsPending ==>
      !HasRequest(ms + [m], ss[i].request) && !HasId(ms + [m], ss[i].message)
  {}

  lemma InsertedRestarts(t: Tx, u: Tx, id: MessageId, q: RequestId, digest: Fingerprint, k: nat)
    requires TxOk(t) && RestartsOk(View(t)) && Inserts(t, u, id, q, digest, k)
    ensures RestartsOk(View(u))
    ensures forall i :: 0 <= i < |t.db.restarts| ==> RestartStep(t.db.restarts[i], u.db.restarts[i])
  {
    var ms, ns, rs, ss := t.db.messages, u.db.messages, t.db.restarts, u.db.restarts;
    var m := Message(id, q, digest, t.run, Queued, t.last + 1);
    assert View(t).restarts == rs && View(t).messages == ms && ns == ms + [m] && ns[|ms|] == m;
    InsertedPending(ms, m, rs, ss, k);
    InsertedTaken(ms, ns, rs, ss, k, q);
    hide HasRequest, HasId, RunOk, Open, LogOk;
  }

  lemma InsertedTaken(ms: seq<Message>, ns: seq<Message>, rs: seq<Restart>, ss: seq<Restart>, k: nat, q: RequestId)
    requires TakesAtMost(rs, ss, k, q) && HasRequest(ns, q) && ms <= ns
    requires forall i :: 0 <= i < |rs| && Taken(rs[i].status) ==> HasRequest(ms, rs[i].request)
    ensures forall i :: 0 <= i < |ss| && Taken(ss[i].status) ==> HasRequest(ns, ss[i].request)
  {}

  lemma InsertedRuns(t: Tx, u: Tx, id: MessageId, q: RequestId, digest: Fingerprint, k: nat)
    requires TxOk(t) && InvBut(View(t), t.run) && Inserts(t, u, id, q, digest, k)
    ensures RowsOk(View(u)) && RunsOk(View(u), t.run) && StopsOk(View(u))
  {
    var a, b := View(t), View(u);
    var ms, ns := t.db.messages, u.db.messages;
    assert forall i :: 0 <= i < |ms| ==> ns[i] == ms[i];
    assert a.runs[t.run] == t.body && b.runs[t.run] == u.body;
    assert forall r :: 0 <= r < |b.runs| && r != t.run ==> b.runs[r] == a.runs[r];
    forall r | 0 <= r < |b.runs| && Settled(b.runs[r]) ensures AllFinal(ns, r) {
      assert AllFinal(ms, r);
    }
    forall r | 0 <= r < |b.runs| && !Settled(b.runs[r]) ensures CoverOk(ns, r, b.runs[r]) {}
  }

  lemma Inserted(t: Tx, u: Tx, id: MessageId, q: RequestId, digest: Fingerprint, k: nat)
    requires TxOk(t) && InvBut(View(t), t.run) && Inserts(t, u, id, q, digest, k)
    ensures TxOk(u) && InvBut(View(u), t.run) && Evolves(View(t), View(u))
    ensures Shown(u.body) ==> Inv(View(u))
  {
    InsertedLog(t, u, id, q, digest, k);
    InsertedMessages(t, u, id, q, digest, k);
    InsertedRestarts(t, u, id, q, digest, k);
    InsertedRuns(t, u, id, q, digest, k);
  }

  /** A run that no event belongs to yet gets its first one. */
  lemma NewRunLog(a: Db, n: nat)
    requires RowsOk(a) && LogOk(a.events, a.headLast) && Announced(a.events, a.messages) && ReportsOk(a)
             && n == |a.runs|
    ensures var events := a.events + [Event(a.headLast + 1, n, RunStarted)];
            && !HasEvent(a.events, n, RunStarted) && LogOk(events, a.headLast + 1) && Announced(events, a.messages)
            && (forall k :: 0 <= k < n ==> (a.runs[k].report <==> HasEvent(events, k, ResultAvailable)))
            && !HasEvent(events, n, ResultAvailable)
  {
    var events := a.events + [Event(a.headLast + 1, n, RunStarted)];
    assert forall i :: 0 <= i < |a.events| ==> events[i] == a.events[i] && a.events[i].run < n;
    forall i | 0 <= i < |a.messages| ensures ReceiptAt(events, a.messages[i]) {
      assert ReceiptAt(a.events, a.messages[i]);
    }
    forall k | 0 <= k < n ensures a.runs[k].report <==> HasEvent(events, k, ResultAvailable) {
      if HasEvent(a.events, k, ResultAvailable) {
        var i :| 0 <= i < |a.events| && a.events[i].run == k && a.events[i].key == ResultAvailable;
        assert events[i] == a.events[i];
      }
    }
  }

  lemma NewRunOk(db: Db)
    requires Inv(db) && !db.deleted && (Closed(db.runs[db.current].status) || db.runs[db.current].report)
    ensures var u := NewRun(Load(db, db.current));
            && TxOk(u) && Inv(View(u)) && Evolves(db, View(u))
            && u.run == |db.runs| && u.body == FreshRun(db.epoch) && Open(u) && u.run == u.db.current
            && u.db.messages == db.messages && u.db.restarts == db.restarts && u.db.nextId == db.nextId
            && u.db.events == db.events + [Event(db.headLast + 1, |db.runs|, RunStarted)]
  {
    var u := NewRun(Load(db, db.current));
    var n := |db.runs|;
    NewRunLog(db, n);
    var b := View(u);
    assert b.runs == db.runs + [FreshRun(db.epoch)];
    assert RowsOk(b) && MessagesOk(b) && ReportsOk(b);
    NewRunRuns(db, b);
  }

  lemma NewRunRuns(a: Db, b: Db)
    requires Inv(a) && !a.deleted && (Closed(a.runs[a.current].status) || a.runs[a.current].report)
    requires b.runs == a.runs + [FreshRun(a.epoch)] && b.messages == a.messages && b.stops == a.stops
    requires b.current == |a.runs| && !b.deleted && b.restarts == a.restarts && b.nextId == a.nextId
    requires a.events <= b.events
    ensures RunsOk(b, |b.runs|) && StopsOk(b) && Evolves(a, b) && RestartsOk(b)
  {
    NewRunEvolves(a, b);
    hide RestartsOk, MessagesOk, ReportsOk, LogOk, Evolves;
    assert forall k :: 0 <= k < |a.runs| ==> b.runs[k] == a.runs[k];
    forall k | 0 <= k < |b.runs| && !Settled(b.runs[k]) ensures CoverOk(b.messages, k, b.runs[k]) {}
  }

  lemma NewRunEvolves(a: Db, b: Db)
    requires RowsOk(a) && RestartsOk(a) && b.runs == a.runs + [FreshRun(a.epoch)] && b.messages == a.messages
    requires b.stops == a.stops && b.current == |a.runs| && b.restarts == a.restarts && b.nextId == a.nextId
    requires a.events <= b.events && !a.deleted
    ensures Evolves(a, b) && RestartsOk(b)
  {
    assert forall k :: 0 <= k < |a.runs| ==> b.runs[k] == a.runs[k];
  }

  lemma SubmitAccepted(db: Db, q: Request, routed: Option<CommandKey>, t: Tx)
    requires Inv(db) && SubmitTarget(db, q, routed) == Ok(Some(t))
    ensures TxOk(t) && Inv(View(t)) && Evolves(db, View(t)) && Open(t) && t.run == t.db.current
    ensures t.db.messages == db.messages && t.db.restarts == db.restarts && t.db.nextId == db.nextId
    ensures !HasRequest(db.messages, q.id) && !TargetChanged(Load(db, db.current), q.digest.target)
    ensures var r := RestartOf(db.restarts, q.id);
            if r < |db.restarts| then
              routed == Some(db.restarts[r].key) && db.restarts[r].status == RestartIsPending
              && t == Load(db, db.current)
            else routed.None?
    ensures Settled(db.runs[db.current]) ==> t.run == |db.runs|
    ensures !Settled(db.runs[db.current]) ==> t == Load(db, db.current)
  {
    LoadIsView(db, db.current);
    EvolvesReflexive(db);
    var t0 := Load(db, db.current);
    if Closed(t0.body.status) || t0.body.report { NewRunOk(db); }
    assert MessageOf(db.messages, q.id) == |db.messages|;
  }

  /** The transaction a submission saves, with the routed intent already marked. */
  ghost function Submitted(t: Tx, q: Request, routed: Option<CommandKey>): Tx {
    var t1 := AcceptMessage(t, q);
    if routed.Some? then t1.(db := t1.db.(restarts := CompleteRouted(t1.db.restarts, routed.value))) else t1
  }

  lemma AcceptIs(t: Tx, q: Request)
    requires TxOk(t) && Inv(View(t)) && Open(t)
    ensures var u := AcceptMessage(t, q); var id := t.db.nextId;
            && u.run == t.run && u.last == t.last + 1
            && u.db == t.db.(events := t.db.events + [Event(t.last + 1, t.run, MessageAccepted(id))],
                             messages := t.db.messages + [Message(id, q.id, q.digest, t.run, Queued, t.last + 1)],
                             nextId := id + 1)
            && RunOk(u.body) && Shown(u.body) && u.body.pending && !Settled(u.body) && u.body.report == t.body.report
            && !HasId(t.db.messages, id)
  {
    var id := t.db.nextId;
    assert forall i :: 0 <= i < |t.db.messages| ==> View(t).messages[i].id < id;
    assert !HasId(t.db.messages, id);
    Unannounced(t.db.events, t.db.messages, t.run, id);
    assert RunOk(View(t).runs[t.run]) && Shown(View(t).runs[t.run]);
  }

  lemma RoutedTakes(t: Tx, q: Request, routed: Option<CommandKey>)
    requires TxOk(t) && RestartsOk(View(t))
    requires var r := RestartOf(t.db.restarts, q.id);
             if r < |t.db.restarts| then
               routed == Some(t.db.restarts[r].key) && t.db.restarts[r].status == RestartIsPending
             else routed.None?
    ensures var rs := t.db.restarts; var r := RestartOf(rs, q.id);
            var ss := if routed.Some? then CompleteRouted(rs, routed.value) else rs;
            && TakesAtMost(rs, ss, r, q.id)
            && forall i :: 0 <= i < |rs| && ss[i].status == RestartIsPending ==>
                 ss[i].request != q.id && ss[i].message != t.db.nextId
  {}

  lemma SubmitInserts(t: Tx, q: Request, routed: Option<CommandKey>)
    requires TxOk(t) && Inv(View(t)) && Open(t) && !HasRequest(t.db.messages, q.id)
    requires var r := RestartOf(t.db.restarts, q.id);
             if r < |t.db.restarts| then
               routed == Some(t.db.restarts[r].key) && t.db.restarts[r].status == RestartIsPending
             else routed.None?
    ensures Inserts(t, Submitted(t, q, routed), t.db.nextId, q.id, q.digest, RestartOf(t.db.restarts, q.id))
    ensures Shown(Submitted(t, q, routed).body)
  {
    AcceptIs(t, q);
    RoutedTakes(t, q, routed);
  }

  lemma KnownRequest(db: Db, q: Request, routed: Option<CommandKey>)
    requires Inv(db)
    ensures db.current < |db.runs|
    ensures SubmitTarget(db, q, routed) == Ok(None) ==> HasRequest(db.messages, q.id)
  {}

  lemma SubmitStep(db: Db, q: Request, routed: Option<CommandKey>)
    requires Inv(db)
    ensures var r := Submit(db, q, routed);
            r.Ok? ==> Inv(r.value) && Evolves(db, r.value) && HasRequest(r.value.messages, q.id)
  {
    KnownRequest(db, q, routed);
    hide InvBut, Evolves, SubmitTarget, AcceptMessage, Inserts;
    EvolvesReflexive(db);
    var target := SubmitTarget(db, q, routed);
    if target.Ok? && target.value.Some? {
      var t := target.value.value;
      SubmitAccepted(db, q, routed, t);
      SubmitInserts(t, q, routed);
      var u := Submitted(t, q, routed);
      InvIsInvBut(View(t), t.run);
      Inserted(t, u, t.db.nextId, q.id, q.digest, RestartOf(db.restarts, q.id));
      AcceptIs(t, q);
      SaveIsView(AcceptMessage(t, q));
      assert Submit(db, q, routed).value == View(u);
      EvolvesTransitive(db, View(t), View(u));
      assert View(u).messages[|t.db.messages|].request == q.id;
    }
  }

  // ----- restart intents -----

  lemma FreezeRowOk(db: Db, row: Restart)
    requires RestartsOk(db) && !HasRequest(db.messages, row.request) && !HasId(db.messages, row.message)
    requires row.message == db.nextId && row.status == RestartIsPending && !LiveRestart(db.restarts, row.run)
    requires forall i :: 0 <= i < |db.restarts| ==>
      db.restarts[i].request != row.request && db.restarts[i].key != row.key
    ensures RestartsOk(db.(restarts := db.restarts + [row], nextId := db.nextId + 1))
  {}

  lemma FreezeRow(db: Db, row: Restart)
    requires Inv(db) && !HasRequest(db.messages, row.request) && row.run < |db.runs|
    requires row.message == db.nextId && row.status == RestartIsPending && !LiveRestart(db.restarts, row.run)
    requires forall i :: 0 <= i < |db.restarts| ==>
      db.restarts[i].request != row.request && db.restarts[i].key != row.key
    ensures var b := db.(restarts := db.restarts + [row], nextId := db.nextId + 1); Inv(b) && Evolves(db, b)
  {
    var b := db.(restarts := db.restarts + [row], nextId := db.nextId + 1);
    assert forall i :: 0 <= i < |db.restarts| ==> b.restarts[i] == db.restarts[i];
    assert !HasId(db.messages, db.nextId);
    FreezeRowOk(db, row);
    hide RestartsOk;
    assert MessagesOk(b) && RowsOk(b);
  }

  lemma {:induction false} FreezeStep(db: Db, q: Request, run: nat, caseId: CaseId, op: Operation, key: CommandKey,
                                      archive: Option<nat>)
    requires Inv(db) && !HasRequest(db.messages, q.id)
    requires RestartWithKey(db.restarts, key) == |db.restarts| || RestartOf(db.restarts, q.id) < |db.restarts|
    ensures var r := Freeze(db, q, run, caseId, op, key, archive); r.Ok? ==> Inv(r.value) && Evolves(db, r.value)
  {
    EvolvesReflexive(db);
    assert db.current < |db.runs|;
    hide InvBut, Evolves, RunMessages;
    var r := Freeze(db, q, run, caseId, op, key, archive);
    if r.Ok? && RestartOf(db.restarts, q.id) == |db.restarts| {
      FreezeRow(db, Restart(q.id, run, q.digest, caseId, key, op, RestartIsPending, db.nextId, archive));
    }
  }

  /** One row changes, to a row with the same identity and a status it may move to. */
  lemma RestartRowStep(db: Db, r: nat, row: Restart)
    requires Inv(db) && r < |db.restarts| && RestartStep(db.restarts[r], row)
    requires forall i :: 0 <= i < |db.restarts| && i != r ==> db.restarts[i].key != row.key
    requires Live(row.status) ==> Live(db.restarts[r].status)
    requires Taken(row.status) ==> HasRequest(db.messages, row.request)
    ensures var b := db.(restarts := db.restarts[r := row]); Inv(b) && Evolves(db, b)
  {
    var b := db.(restarts := db.restarts[r := row]);
    assert RestartsOk(b);
  }

  lemma {:induction false} RetargetStep(db: Db, key: CommandKey, newKey: CommandKey)
    requires Inv(db) && RestartWithKey(db.restarts, newKey) == |db.restarts|
    ensures var r := Retarget(db, key, newKey); r.Ok? ==> Inv(r.value) && Evolves(db, r.value)
  {
    hide InvBut, Evolves;
    var r := RestartWithKey(db.restarts, key);
    if Retarget(db, key, newKey).Ok? {
      RestartRowStep(db, r, db.restarts[r].(op := RestartGeneric, key := newKey));
    }
  }

  lemma {:induction false} FinishRestartStep(db: Db, key: CommandKey, rejected: bool)
    requires Inv(db)
    requires var r := RestartWithKey(db.restarts, key);
             !rejected && r < |db.restarts| ==> db.restarts[r].status != RestartIsPending
    ensures Inv(FinishRestart(db, key, rejected)) && Evolves(db, FinishRestart(db, key, rejected))
  {
    EvolvesReflexive(db);
    var r := RestartWithKey(db.restarts, key);
    if r < |db.restarts| && Live(db.restarts[r].status) {
      RestartRowStep(db, r, db.restarts[r].(status := if rejected then RestartRejected else RestartCompleted));
    }
  }

  // ----- projecting a Case commit -----

  /** What the core guarantees of the Case it projects: a result carries a report, and a result stays one. */
  ghost predicate Trusted(cv: CaseView, b: Run) {
    (IsResult(cv.status) ==> cv.hasReport) && (b.report ==> IsResult(cv.status))
  }

  lemma AcceptRestartOk(t: Tx, k: nat)
    requires TxOk(t) && InvBut(View(t), t.run) && Open(t)
    requires k < |t.db.restarts| && t.db.restarts[k].run == t.run && t.db.restarts[k].status == RestartIsPending
    ensures var u := AcceptRestart(t, k);
            && TxOk(u) && InvBut(View(u), t.run) && Evolves(View(t), View(u))
            && u.run == t.run
            && u.body == t.body.(pending := true, questions := [], archive := t.db.restarts[k].archive)
            && u.db.runs == t.db.runs && u.db.deleted == t.db.deleted
            && u.db.restarts == t.db.restarts[k := t.db.restarts[k].(status := RestartCommitted)]
            && u.db.messages == t.db.messages
                 + [Message(t.db.restarts[k].message, t.db.restarts[k].request, t.db.restarts[k].digest, t.run, Queued,
                            u.last)]
  {
    var rs := t.db.restarts[k];
    var u := AcceptRestart(t, k);
    assert View(t).restarts == t.db.restarts && View(t).messages == t.db.messages;
    Unannounced(t.db.events, t.db.messages, t.run, rs.message);
    assert RunOk(View(t).runs[t.run]);
    assert Inserts(t, u, rs.message, rs.request, rs.digest, k);
    Inserted(t, u, rs.message, rs.request, rs.digest, k);
  }

  /** The rows a pass over the restarts has taken, and those it has left alone. */
  ghost predicate RestartsPassed(t: Tx, u: Tx, records: set<Record>, caseId: CaseId, k: nat) {
    && |u.db.restarts| == |t.db.restarts|
    && forall i :: 0 <= i < |t.db.restarts| ==>
         u.db.restarts[i] == if k <= i && Accepts(t.db.restarts[i], t.run, records, caseId)
                             then t.db.restarts[i].(status := RestartCommitted) else t.db.restarts[i]
  }

  predicate PendingFor(restarts: seq<Restart>, q: RequestId) {
    exists i :: 0 <= i < |restarts| && restarts[i].request == q && restarts[i].status == RestartIsPending
  }

  /** Whatever message a pass over the restarts adds, it adds for a pending one. */
  ghost predicate FromIntents(a: Db, b: Db) {
    forall q :: HasRequest(b.messages, q) ==> HasRequest(a.messages, q) || PendingFor(a.restarts, q)
  }

  /** Every message `b` has beyond those of `a` belongs to the run. */
  ghost predicate AddedTo(a: Db, b: Db, run: nat) {
    |a.messages| <= |b.messages| && forall i :: |a.messages| <= i < |b.messages| ==> b.messages[i].run == run
  }

  lemma {:induction false} AcceptRestartsOk(t: Tx, records: set<Record>, caseId: CaseId, k: nat)
    requires TxOk(t) && InvBut(View(t), t.run) && k <= |t.db.restarts|
    requires AcceptRestartsFrom(t, records, caseId, k).Ok?
    ensures var u := AcceptRestartsFrom(t, records, caseId, k).value;
            && TxOk(u) && InvBut(View(u), t.run) && Evolves(View(t), View(u))
            && u.run == t.run && u.body.caseId == t.body.caseId && u.body.report == t.body.report
            && u.body.stop == t.body.stop && u.body.status == t.body.status && u.body.caseStatus == t.body.caseStatus
            && u.db.runs == t.db.runs && u.db.deleted == t.db.deleted
            && RestartsPassed(t, u, records, caseId, k) && FromIntents(t.db, u.db)
            && (u == t || Open(t)) && u.body.createKey == t.body.createKey && AddedTo(t.db, u.db, t.run)
    decreases |t.db.restarts| - k
  {
    hide InvBut, Evolves;
    EvolvesReflexive(View(t));
    if k < |t.db.restarts| {
      if Accepts(t.db.restarts[k], t.run, records, caseId) {
        AcceptRestartOk(t, k);
        var t1 := AcceptRestart(t, k);
        AcceptRestartsOk(t1, records, caseId, k + 1);
        var u := AcceptRestartsFrom(t, records, caseId, k).value;
        FromIntentsChain(t.db, t1.db, u.db, k);
        AddedChain(t1, u);
        EvolvesTransitive(View(t), View(t1), View(AcceptRestartsFrom(t, records, caseId, k).value));
      } else {
        AcceptRestartsOk(t, records, caseId, k + 1);
      }
    }
  }

  lemma AddedChain(t: Tx, u: Tx)
    requires TxOk(t) && TxOk(u) && AddedTo(t.db, u.db, t.run) && Evolves(View(t), View(u))
    requires |t.db.messages| > 0 && t.db.messages[|t.db.messages| - 1].run == t.run
    ensures AddedTo(t.db.(messages := t.db.messages[..|t.db.messages| - 1]), u.db, t.run)
  {}

  lemma FromIntentsChain(a: Db, b: Db, c: Db, k: nat)
    requires k < |a.restarts| && b.restarts == a.restarts[k := a.restarts[k].(status := RestartCommitted)]
    requires a.restarts[k].status == RestartIsPending && |b.messages| == |a.messages| + 1 && a.messages <= b.messages
    requires b.messages[|a.messages|].request == a.restarts[k].request
    requires FromIntents(b, c)
    ensures FromIntents(a, c)
  {}

  /** Finishing a message as APPLIED keeps the invariant mid-transaction. */
  lemma FinalizeKeeps(t: Tx, k: nat)
    requires TxOk(t) && InvBut(View(t), t.run)
    requires k < |t.db.messages| && t.db.messages[k].run == t.run && !Final(t.db.messages[k].status)
    ensures var u := Finalize(t, k, Applied);
            && TxOk(u) && InvBut(View(u), t.run) && Evolves(View(t), View(u)) && SameShell(t, u) && !Settled(t.body)
  {
    var u := Finalize(t, k, Applied);
    FinalizeMoves(t, k, Applied);
    assert View(t).runs[t.run] == t.body && View(t).messages == t.db.messages;
    assert !Settled(t.body);
    assert CoverOk(t.db.messages, t.run, t.body);
    KeepsBody(t, u);
  }

  /** Status changes alone keep the invariant, whatever is published about the run itself. */
  lemma KeepsBody(t: Tx, u: Tx)
    requires TxOk(t) && InvBut(View(t), t.run) && Moves(t, u, false) && u.body == t.body
    requires u.db.stops == t.db.stops
    requires !Settled(t.body) ==> CoverOk(u.db.messages, t.run, u.body)
    ensures TxOk(u) && InvBut(View(u), t.run) && Evolves(View(t), View(u))
  {
    var a, b := View(t), View(u);
    SavedMessages(t, u, false);
    SavedRestarts(t, u, false);
    assert a.runs == b.runs;
    MovesMessages(t, u);
    KeepsReports(t, u);
    forall k | 0 <= k < |b.runs| && Settled(b.runs[k]) ensures AllFinal(b.messages, k) {
      assert AllFinal(a.messages, k);
    }
    forall k | 0 <= k < |b.runs| && !Settled(b.runs[k]) ensures CoverOk(b.messages, k, b.runs[k]) {
      if k != t.run { assert CoverOk(a.messages, k, a.runs[k]); }
    }
  }

  lemma MovesMessages(t: Tx, u: Tx)
    requires Moves(t, u, false)
    ensures forall i :: 0 <= i < |t.db.messages| ==>
      && u.db.messages[i] == t.db.messages[i].(status := u.db.messages[i].status)
      && (t.db.messages[i].run != t.run || Final(t.db.messages[i].status) ==> u.db.messages[i] == t.db.messages[i])
  {}

  lemma KeepsReports(t: Tx, u: Tx)
    requires TxOk(t) && ReportsOk(View(t)) && Moves(t, u, false) && u.body.report == t.body.report
    ensures ReportsOk(View(u))
  {
    var a, b := View(t), View(u);
    forall k | 0 <= k < |b.runs|
      ensures b.runs[k].report <==> HasEvent(b.events, k, ResultAvailable)
    {
      if HasEvent(a.events, k, ResultAvailable) {
        var i :| 0 <= i < |a.events| && a.events[i].run == k && a.events[i].key == ResultAvailable;
        assert b.events[i] == a.events[i];
      }
      assert forall i :: 0 <= i < |a.events| ==> b.events[i] == a.events[i];
    }
  }

  lemma {:induction false} ApplyBatchOk(t: Tx, ids: seq<MessageId>)
    requires TxOk(t) && InvBut(View(t), t.run) && ApplyBatch(t, ids).Ok?
    ensures var u := ApplyBatch(t, ids).value;
            && TxOk(u) && InvBut(View(u), t.run) && Evolves(View(t), View(u)) && (u == t || !Settled(t.body))
    decreases ids
  {
    hide InvBut, Evolves;
    EvolvesReflexive(View(t));
    if ids != [] {
      var k := MessageAt(t.db.messages, t.run, ids[0]);
      var t1 := if Final(t.db.messages[k].status) then t else Finalize(t, k, Applied);
      if t1 != t { FinalizeKeeps(t, k); }
      ApplyBatchOk(t1, ids[1..]);
      EvolvesTransitive(View(t), View(t1), View(ApplyBatch(t, ids).value));
    }
  }

  lemma {:induction false} ApplyBatchesOk(t: Tx, records: set<Record>, caseId: CaseId, k: nat)
    requires TxOk(t) && InvBut(View(t), t.run) && k <= |t.db.dispatches|
    requires ApplyBatchesFrom(t, records, caseId, k).Ok?
    ensures var u := ApplyBatchesFrom(t, records, caseId, k).value;
            && TxOk(u) && InvBut(View(u), t.run) && Evolves(View(t), View(u)) && (u == t || !Settled(t.body))
    decreases |t.db.dispatches| - k
  {
    hide InvBut, Evolves;
    EvolvesReflexive(View(t));
    if k < |t.db.dispatches| {
      var d := t.db.dispatches[k];
      if d.run != t.run || d.batch.None? || d.op != SubmitSupplement || Record(d.op, d.key, caseId) !in records {
        ApplyBatchesOk(t, records, caseId, k + 1);
      } else {
        ApplyBatchOk(t, d.batch.value);
        var t1 := ApplyBatch(t, d.batch.value).value;
        ApplyBatchesOk(t1, records, caseId, k + 1);
        EvolvesTransitive(View(t), View(t1), View(ApplyBatchesFrom(t, records, caseId, k).value));
      }
    }
  }

  lemma DropAdoptions(t: Tx, ids: set<MessageId>)
    requires TxOk(t) && InvBut(View(t), t.run)
    ensures var u := t.(db := t.db.(adoptions := t.db.adoptions - ids));
            TxOk(u) && InvBut(View(u), t.run) && Evolves(View(t), View(u))
  {
    hide RunOk, Settled, HasRequest, HasId, HasEvent, ReceiptOk, ReceiptAt;
  }

  lemma AdoptOneOk(t: Tx, records: set<Record>, caseId: CaseId, k: nat)
    requires TxOk(t) && InvBut(View(t), t.run) && k < |t.db.messages|
    ensures var u := AdoptOne(t, records, caseId, k);
            && TxOk(u) && InvBut(View(u), t.run) && Evolves(View(t), View(u))
            && ((u.db.events == t.db.events && u.last == t.last && u.db.messages == t.db.messages) || !Settled(t.body))
  {
    hide InvBut, Evolves;
    EvolvesReflexive(View(t));
    var m := t.db.messages[k];
    var u := AdoptOne(t, records, caseId, k);
    if u != t {
      var t1 := if Final(m.status) then t else Finalize(t, k, Applied);
      if t1 != t { FinalizeKeeps(t, k); }
      DropAdoptions(t1, {m.id});
      EvolvesTransitive(View(t), View(t1), View(u));
    }
  }

  lemma {:induction false} AdoptFromOk(t: Tx, records: set<Record>, caseId: CaseId, k: nat)
    requires TxOk(t) && InvBut(View(t), t.run) && k <= |t.db.messages|
    ensures var u := AdoptFrom(t, records, caseId, k);
            && TxOk(u) && InvBut(View(u), t.run) && Evolves(View(t), View(u))
            && ((u.db.events == t.db.events && u.last == t.last && u.db.messages == t.db.messages) || !Settled(t.body))
    decreases |t.db.messages| - k
  {
    hide InvBut, Evolves;
    EvolvesReflexive(View(t));
    if k < |t.db.messages| {
      AdoptOneOk(t, records, caseId, k);
      var t1 := AdoptOne(t, records, caseId, k);
      AdoptFromOk(t1, records, caseId, k + 1);
      EvolvesTransitive(View(t), View(t1), View(AdoptFrom(t, records, caseId, k)));
    }
  }

  /** Adopting what the core accepted; in a settled run it appends nothing. */
  lemma AcceptAdoptionsOk(t: Tx, records: set<Record>, caseId: CaseId)
    requires TxOk(t) && InvBut(View(t), t.run) && AcceptAdoptions(t, records, caseId).Ok?
    ensures var u := AcceptAdoptions(t, records, caseId).value;
            && TxOk(u) && InvBut(View(u), t.run) && Evolves(View(t), View(u)) && SameShell(t, u)
            && ((u.db.events == t.db.events && u.last == t.last && u.db.messages == t.db.messages) || !Settled(t.body))
  {
    hide InvBut, Evolves;
    ApplyBatchesOk(t, records, caseId, 0);
    var t1 := ApplyBatchesFrom(t, records, caseId, 0).value;
    AdoptFromOk(t1, records, caseId, 0);
    EvolvesTransitive(View(t), View(t1), View(AdoptFrom(t1, records, caseId, 0)));
  }

  // ----- the projection itself -----

  lemma PublishMoves(t: Tx, questions: seq<Question>)
    requires TxOk(t) && LogOk(t.db.events, t.last)
    ensures var u := Publish(t, questions);
            && Moves(t, u, false) && u.body == t.body.(questions := questions)
            && u.db.messages == t.db.messages && u.db.stops == t.db.stops
  {}

  lemma ReportMoves(t: Tx)
    requires TxOk(t) && LogOk(t.db.events, t.last)
    ensures var u := PublishReport(t);
            && Moves(t, u, true) && HasEvent(u.db.events, t.run, ResultAvailable) && AllFinal(u.db.messages, t.run)
            && u.body == t.body.(report := true, stop := false, pending := false, questions := [])
            && u.db.stops == SettleStops(t.db.stops, t.run, StopAlreadyFinished)
  {
    var t1 := t.(body := t.body.(report := true, stop := false, pending := false, questions := []),
                 db := t.db.(stops := SettleStops(t.db.stops, t.run, StopAlreadyFinished)));
    assert Moves(t, t1, false);
    AppendMoves(t1, ResultAvailable);
    var t2 := Append(t1, ResultAvailable);
    MovesTrans(t, t1, t2, false, true);
    MarkUnusedMoves(t2);
    MovesTrans(t, t2, MarkUnused(t2), true, false);
    KeepsEvent(t2, MarkUnused(t2), ResultAvailable);
  }

  lemma KeepsEvent(t: Tx, u: Tx, key: EventKey)
    requires t.db.events <= u.db.events && HasEvent(t.db.events, t.run, key)
    ensures HasEvent(u.db.events, t.run, key)
  {}

  lemma ResultMoves(t: Tx, cv: CaseView)
    requires TxOk(t) && LogOk(t.db.events, t.last) && cv.hasReport
    ensures var u := ProjectResult(t, cv);
            && Moves(t, u, true) && HasEvent(u.db.events, t.run, ResultAvailable) && AllFinal(u.db.messages, t.run)
            && u.body == t.body.(report := true, stop := false, pending := false, questions := [],
                                 status := if cv.archive == ArchivePending then Running else Completed)
            && u.db.stops == SettleStops(t.db.stops, t.run, StopAlreadyFinished)
  {
    ReportMoves(t);
    var t1 := PublishReport(t);
    AppendMoves(t1, ArchiveUpdated(cv.archive));
    var t2 := Append(t1, ArchiveUpdated(cv.archive));
    MovesTrans(t, t1, t2, true, false);
    KeepsEvent(t1, t2, ResultAvailable);
    if cv.archive != ArchivePending {
      CloseMoves(t2, Completed);
      MovesTrans(t, t2, Close(t2, Completed), true, false);
      KeepsEvent(t2, Close(t2, Completed), ResultAvailable);
    } else {
      var t3 := t2.(body := t2.body.(status := Running));
      MovesBody(t2, t3.body);
      MovesTrans(t, t2, t3, true, false);
    }
  }

  /** An unsettled run of a live conversation has no stop receipt. */
  lemma NoReceipts(t: Tx)
    requires TxOk(t) && InvBut(View(t), t.run) && !t.db.deleted && !Settled(t.body)
    ensures forall i :: 0 <= i < |t.db.stops| ==> t.db.stops[i].run != t.run
  {}

  /** The first thing a projection does: take over the Case and announce its revision. */
  ghost function Announce(t: Tx, cv: CaseView): Tx {
    Append(t.(body := t.body.(caseId := Some(cv.id), caseStatus := Some(cv.status), selectedSkill := cv.selectedSkill)),
           CaseUpdated(cv.revision))
  }

  lemma AnnounceMoves(t: Tx, cv: CaseView)
    requires TxOk(t) && LogOk(t.db.events, t.last)
    ensures var t1 := Announce(t, cv);
            && Moves(t, t1, false) && t1.db.stops == t.db.stops && t1.db.messages == t.db.messages
            && t1.body == t.body.(caseId := Some(cv.id), caseStatus := Some(cv.status),
                                  selectedSkill := cv.selectedSkill)
  {}

  lemma ResultGood(t: Tx, cv: CaseView)
    requires TxOk(t) && InvBut(View(t), t.run) && !Closed(t.body.status) && IsResult(cv.status) && cv.hasReport
    ensures Moves(t, Projected(t, cv), true) && GoodBody(t, Projected(t, cv), true)
  {
    hide InvBut, Moves, GoodBody;
    BodyOk(t);
    AnnounceMoves(t, cv);
    var t1 := Announce(t, cv);
    MovesLog(t, t1);
    ResultMoves(t1, cv);
    MovesTrans(t, t1, Projected(t, cv), false, true);
    ReportedBodyGood(t, Projected(t, cv));
  }

  /** A run that publishes its report answers every stop of it as too late. */
  lemma ReportedBodyGood(t: Tx, u: Tx)
    requires RunOk(u.body) && Shown(u.body) && u.body.report && !u.body.stop && u.body.status != Cancelled
    requires !Closed(t.body.status) && u.run == t.run
    requires AllFinal(u.db.messages, u.run) && HasEvent(u.db.events, u.run, ResultAvailable)
    requires u.db.stops == SettleStops(t.db.stops, t.run, StopAlreadyFinished)
    ensures GoodBody(t, u, true)
  {}

  lemma StoppingGood(t: Tx, cv: CaseView)
    requires TxOk(t) && InvBut(View(t), t.run) && !Closed(t.body.status) && !IsResult(cv.status) && t.body.stop
    ensures Moves(t, Projected(t, cv), false) && GoodBody(t, Projected(t, cv), false)
  {
    AnnounceMoves(t, cv);
    var t1 := Announce(t, cv);
    var u := Projected(t, cv);
    MovesBody(t1, u.body);
    MovesTrans(t, t1, u, false, false);
    var a := View(t);
    assert a.runs[t.run] == t.body && RunOk(t.body) && AllFinal(t.db.messages, t.run);
    forall i | 0 <= i < |u.db.stops| && u.db.stops[i].run == u.run && !u.db.deleted
      ensures ReceiptOk(u.db.stops[i].status, u.body)
    {
      assert ReceiptOk(a.stops[i].status, a.runs[a.stops[i].run]);
    }
  }

  lemma BodyOk(t: Tx)
    requires TxOk(t) && InvBut(View(t), t.run)
    ensures RunOk(t.body) && LogOk(t.db.events, t.last)
  {
    assert RunOk(View(t).runs[t.run]);
  }

  lemma OpenGood(t: Tx, cv: CaseView)
    requires TxOk(t) && InvBut(View(t), t.run) && !Settled(t.body) && !IsResult(cv.status)
    ensures Moves(t, Projected(t, cv), false) && GoodBody(t, Projected(t, cv), false)
  {
    hide InvBut, Moves, GoodBody;
    BodyOk(t);
    AnnounceMoves(t, cv);
    var t1 := Announce(t, cv);
    if cv.status == CaseCancelled { CloseOpen(t, t1, Cancelled); }
    else if cv.status == CaseInterrupted { CloseOpen(t, t1, Interrupted); }
    else if cv.status == CaseFailed { CloseOpen(t, t1, Failed); }
    else { ProjectedOpen(t, t1, cv); }
  }

  lemma ProjectedGood(t: Tx, cv: CaseView)
    requires TxOk(t) && InvBut(View(t), t.run) && !Closed(t.body.status) && Trusted(cv, t.body)
    ensures Moves(t, Projected(t, cv), IsResult(cv.status)) && GoodBody(t, Projected(t, cv), IsResult(cv.status))
  {
    hide InvBut, Moves, GoodBody;
    if IsResult(cv.status) { ResultGood(t, cv); }
    else if t.body.stop { StoppingGood(t, cv); }
    else { OpenGood(t, cv); }
  }

  /** A run that stays open answers for its body alone. */
  lemma OpenBodyGood(t: Tx, u: Tx)
    requires TxOk(t) && InvBut(View(t), t.run) && !Settled(t.body)
    requires u.run == t.run && u.db.stops == t.db.stops && u.db.deleted == t.db.deleted
    requires RunOk(u.body) && Shown(u.body) && !Settled(u.body) && CoverOk(u.db.messages, u.run, u.body)
    ensures GoodBody(t, u, false)
  {}

  /** A run that is closed or asked to stop while open answers for its messages. */
  lemma EndedBodyGood(t: Tx, u: Tx)
    requires TxOk(t) && InvBut(View(t), t.run) && !Settled(t.body)
    requires u.run == t.run && u.db.stops == t.db.stops && u.db.deleted == t.db.deleted
    requires RunOk(u.body) && Shown(u.body) && Settled(u.body) && !u.body.report && AllFinal(u.db.messages, u.run)
    ensures GoodBody(t, u, false)
  {}

  /** The terminal branches without a result. */
  lemma CloseOpen(t: Tx, t1: Tx, status: RunStatus)
    requires TxOk(t) && InvBut(View(t), t.run) && !Settled(t.body) && RunOk(t.body)
    requires Moves(t, t1, false) && t1.db.stops == t.db.stops
    requires t1.body.caseId.Some? && t1.body == t.body.(caseId := t1.body.caseId, caseStatus := t1.body.caseStatus,
                                                        selectedSkill := t1.body.selectedSkill)
    requires Closed(status) && status != Completed
    ensures Moves(t, Close(t1, status), false) && GoodBody(t, Close(t1, status), false)
  {
    hide InvBut, GoodBody;
    CloseMoves(t1, status);
    MovesTrans(t, t1, Close(t1, status), false, false);
    EndedBodyGood(t, Close(t1, status));
  }

  /** The branches that leave the run open. */
  lemma ProjectedOpen(t: Tx, t1: Tx, cv: CaseView)
    requires TxOk(t) && InvBut(View(t), t.run) && !Settled(t.body) && RunOk(t.body)
    requires Moves(t, t1, false) && t1.db.stops == t.db.stops && t1.db.messages == t.db.messages
    requires t1.body == t.body.(caseId := Some(cv.id), caseStatus := Some(cv.status), selectedSkill := cv.selectedSkill)
    requires CaseUnfinished(cv.status)
    ensures var u := if Waiting(cv.status) then ProjectWaiting(t1, cv)
                     else t1.(body := t1.body.(status := Running, questions := []));
            Moves(t, u, false) && GoodBody(t, u, false)
  {
    OpenCover(t);
    hide InvBut, Moves, GoodBody;
    if Waiting(cv.status) {
      var t2 := t1.(body := t1.body.(authoritative := cv.questions, asOf := Some(cv.revision)));
      if t2.body.pending {
        var u := t2.(body := t2.body.(status := Intake, questions := []));
        MovesOn(t, t1, u.body);
        OpenBodyGood(t, u);
      } else {
        var t3 := t2.(body := t2.body.(status := WaitingInput));
        MovesOn(t, t1, t3.body);
        MovesLog(t, t3);
        PublishMoves(t3, cv.questions);
        MovesTrans(t, t3, Publish(t3, cv.questions), false, false);
        OpenBodyGood(t, Publish(t3, cv.questions));
      }
    } else {
      var u := t1.(body := t1.body.(status := Running, questions := []));
      MovesOn(t, t1, u.body);
      OpenBodyGood(t, u);
    }
  }

  lemma OpenCover(t: Tx)
    requires TxOk(t) && InvBut(View(t), t.run) && !Settled(t.body)
    ensures CoverOk(t.db.messages, t.run, t.body) && LogOk(t.db.events, t.last)
  {
    assert CoverOk(View(t).messages, t.run, View(t).runs[t.run]);
  }

  lemma MovesLog(t: Tx, u: Tx)
    requires Moves(t, u, false)
    ensures TxOk(u) && LogOk(u.db.events, u.last)
  {}

  lemma MovesOn(t: Tx, t1: Tx, body: Run)
    requires Moves(t, t1, false)
    ensures Moves(t, t1.(body := body), false)
  {}

  lemma ProjectCaseOk(t: Tx, cv: CaseView)
    requires TxOk(t) && InvBut(View(t), t.run) && !Closed(t.body.status) && Trusted(cv, t.body)
    ensures Inv(ProjectCase(t, cv)) && Evolves(View(t), ProjectCase(t, cv))
    ensures ProjectCase(t, cv).runs[t.run].caseStatus == Some(cv.status)
  {
    hide InvBut, Evolves, Moves, GoodBody;
    ProjectedGood(t, cv);
    Saved(t, Projected(t, cv), IsResult(cv.status));
  }

  /** Binding the Case to the run it is projected on. */
  lemma BindOk(t: Tx, c: CaseId)
    requires TxOk(t) && Inv(View(t))
    ensures var u := t.(body := t.body.(caseId := Some(c))); TxOk(u) && Inv(View(u)) && Evolves(View(t), View(u))
  {
    var u := t.(body := t.body.(caseId := Some(c)));
    assert View(t).runs[t.run] == t.body;
    assert RunOk(t.body) && Shown(t.body);
    MovesBody(t, u.body);
    var a := View(t);
    forall i | 0 <= i < |u.db.stops| && u.db.stops[i].run == u.run && !u.db.deleted
      ensures ReceiptOk(u.db.stops[i].status, u.body)
    {
      assert ReceiptOk(a.stops[i].status, a.runs[a.stops[i].run]);
    }
    assert Settled(t.body) ==> AllFinal(a.messages, t.run);
    assert !Settled(t.body) ==> CoverOk(a.messages, t.run, t.body);
    InvIsInvBut(View(t), t.run);
    Saved(t, u, false);
  }

  /** A Case commit projected on its run. */
  lemma ProjectStep(db: Db, cv: CaseView, records: set<Record>)
    requires Inv(db)
    requires var k := RunFor(db, cv.id, records); k < |db.runs| ==> Closed(db.runs[k].status) || Trusted(cv, db.runs[k])
    ensures var r := Project(db, cv, records); r.Ok? ==> Inv(r.value) && Evolves(db, r.value)
  {
    EvolvesReflexive(db);
    var k := RunFor(db, cv.id, records);
    var r := Project(db, cv, records);
    if k < |db.runs| && r.Ok? {
      ProjectRunOk(db, cv, records, k);
    }
  }

  lemma BoundOk(db: Db, k: nat, c: CaseId)
    requires Inv(db) && k < |db.runs|
    ensures var t := Load(db, k).(body := Load(db, k).body.(caseId := Some(c)));
            TxOk(t) && InvBut(View(t), k) && Evolves(db, View(t))
  {
    LoadIsView(db, k);
    BindOk(Load(db, k), c);
  }

  lemma ProjectRunOk(db: Db, cv: CaseView, records: set<Record>, k: nat)
    requires Inv(db) && k == RunFor(db, cv.id, records) && k < |db.runs|
    requires Closed(db.runs[k].status) || Trusted(cv, db.runs[k])
    requires Project(db, cv, records).Ok?
    ensures Inv(Project(db, cv, records).value) && Evolves(db, Project(db, cv, records).value)
  {
    hide InvBut, Evolves, AcceptRestartsFrom, AcceptAdoptions, ProjectCase;
    BoundOk(db, k, cv.id);
    var t := Load(db, k).(body := Load(db, k).body.(caseId := Some(cv.id)));
    AcceptRestartsOk(t, records, cv.id, 0);
    var t1 := AcceptRestartsFrom(t, records, cv.id, 0).value;
    AcceptAdoptionsOk(t1, records, cv.id);
    var t2 := AcceptAdoptions(t1, records, cv.id).value;
    EvolvesTransitive(db, View(t), View(t1));
    EvolvesTransitive(db, View(t1), View(t2));
    if Closed(t2.body.status) {
      ClosedKeepsView(db, t, t2);
      ClosedProjects(t2, cv);
    } else {
      ProjectCaseOk(t2, cv);
      EvolvesTransitive(db, View(t2), ProjectCase(t2, cv));
    }
  }

  /**
   A projection that finds its run closed returns without saving, and nothing is dropped by it: the passes before it
   have appended no event, accepted no intent and finished no message, whatever the core has accepted meanwhile.
   */
  lemma ClosedRunIsLeftAlone(db: Db, cv: CaseView, records: set<Record>)
    requires Inv(db)
    ensures var k := RunFor(db, cv.id, records); var r := Project(db, cv, records);
            k < |db.runs| && Closed(db.runs[k].status) && r.Ok? ==>
              r.value == db.(adoptions := r.value.adoptions)
  {
    hide InvBut, Evolves, AcceptRestartsFrom, AcceptAdoptions, RunFor;
    var k := RunFor(db, cv.id, records);
    if k < |db.runs| && Closed(db.runs[k].status) && Project(db, cv, records).Ok? {
      BoundOk(db, k, cv.id);
      var t := Load(db, k).(body := Load(db, k).body.(caseId := Some(cv.id)));
      AcceptRestartsOk(t, records, cv.id, 0);
      AcceptAdoptionsOk(t, records, cv.id);
    }
  }

  lemma ClosedProjects(t: Tx, cv: CaseView)
    requires Closed(t.body.status)
    ensures ProjectCase(t, cv) == t.db
  {}

  lemma ClosedKeepsView(db: Db, t: Tx, u: Tx)
    requires Inv(db) && t.run < |db.runs| && t == Load(db, t.run).(body := t.body)
    requires u.run == t.run && u.db == t.db.(adoptions := u.db.adoptions)
    ensures Inv(u.db) && Evolves(db, u.db)
  {}
}
