/**
 One logical input of the browser client, sent again with the same parameters over a network that loses answers, and
 the server that answers it: reads and transactions of one send, each at its own time in the history, while the
 control thread dispatches the same intents without the message lock.
 */
module ClientSend {
  import opened Conversation
  import opened ConversationInvariant
  import opened ConversationSteps
  import opened ConversationControl
  import opened ConversationRuns
  import opened ConversationSafety
  import opened ConversationTheorems
  import opened ConversationCases
  import opened ConversationReceipts
  import opened ClientInput

  // ----- the server -----

  /** Where a send was answered that its run has changed. */
  datatype Branch =
    | RunEnded
    | CaseEnded
    | FreezeRefused
    | SubmitRefused
    | IntentRejected
    | RunStopped(readAt: nat)
    | RetargetRefused
    | RouteRefused
    | CommandRefused(key: CommandKey)

  /** The answer to one send; `when` is the state it leaves behind. */
  datatype Reply = Accepted | Changed(when: nat, branch: Branch) | OtherReply

  /** What the core says to a command: carried out, refused for the state of the Case, or not reachable. */
  datatype CoreReply = Executed | Refused | Broken

  /**
   One round of dispatching an intent: the run is read, the command executed, and what follows is done at `actAt`.
   `generic`, `skill` and `route` are what the Case looks like after a refusal.
   */
  datatype Round = Round(readAt: nat, ranAt: nat, core: CoreReply, generic: bool, skill: bool, route: bool, actAt: nat,
                         newKey: CommandKey)

  /** What a thread holds of an intent. */
  datatype Held = Held(run: nat, key: CommandKey, op: Operation, status: RestartStatus)

  datatype Freezing = Freezing(op: Operation, key: CommandKey, archive: Option<nat>)

  /** A send: its reads, its transaction, and the rounds it spends on an intent. */
  datatype Send = Send(lookAt: nat, statusAt: nat, logs: bool, caseAt: nat, freezing: Option<Freezing>, actAt: nat,
                       rounds: seq<Round>)

  predicate RunOver(db: Db, run: nat) {
    db.deleted || (run < |db.runs| && (db.runs[run].stop || Closed(db.runs[run].status)))
  }

  ghost predicate InTime(tr: seq<Sys>, from: nat, r: Round) {
    && from <= r.readAt <= r.ranAt <= r.actAt && r.actAt + 1 < |tr|
    && tr[r.actAt].db.current < |tr[r.actAt].db.runs|
  }

  /** The answer of a thread that dispatches the intent it holds, from the state `at` on. */
  ghost function DispatchReply(tr: seq<Sys>, q: Request, h: Held, at: nat, rounds: seq<Round>, again: bool):
    (y: Reply)
    ensures y.Changed? ==> y.branch.IntentRejected? || y.branch.RunStopped? || y.branch.RetargetRefused?
                           || y.branch.RouteRefused? || y.branch.CommandRefused?
    decreases |rounds|
  {
    if h.status == RestartRejected then Changed(at, IntentRejected)
    else if rounds == [] || !InTime(tr, at, rounds[0]) then OtherReply
    else
      var r := rounds[0];
      var db := tr[r.actAt].db;
      if RunOver(tr[r.readAt].db, h.run) then Changed(r.actAt + 1, RunStopped(r.readAt))
      else if r.core == Broken then OtherReply
      else if r.core == Executed then if HasRequest(db.messages, q.id) then Accepted else OtherReply
      else if h.op == MarkLogsExpected && r.generic then
        var o := Retarget(db, h.key, r.newKey);
        if o.Ok? then
          DispatchReply(tr, q, h.(key := r.newKey, op := RestartGeneric, status := RestartIsPending), r.actAt + 1,
                        rounds[1..], again)
        else if o.code == RunChanged then Changed(r.actAt, RetargetRefused) else OtherReply
      else if h.op == MarkLogsExpected && r.skill then
        var o := Submit(db, q, Some(h.key));
        if o.Ok? then Accepted
        else if o.code == RunChanged then Changed(r.actAt, RouteRefused)
        else if o.code == RouteChanged && !again then DispatchReply(tr, q, h, r.actAt, rounds[1..], true)
        else OtherReply
      else if h.op == MarkLogsExpected && r.route then OtherReply
      else Changed(r.actAt + 1, CommandRefused(h.key))
  }

  ghost predicate Timed(tr: seq<Sys>, x: Send) {
    && x.lookAt <= x.statusAt <= x.caseAt <= x.actAt && x.actAt + 1 < |tr|
    && (forall n :: 0 <= n < |tr| ==> tr[n].db.current < |tr[n].db.runs|)
  }

  predicate Unknown(db: Db, q: RequestId) {
    MessageOf(db.messages, q) == |db.messages| && RestartOf(db.restarts, q) == |db.restarts|
  }

  /** The answer of a send that finds nothing of its request. */
  ghost function FreshReply(tr: seq<Sys>, q: Request, k: nat, x: Send): Reply
    requires Timed(tr, x)
  {
    var view := tr[x.statusAt].db;
    var c := view.runs[view.current].caseId;
    if view.deleted then OtherReply
    else if TargetChanged(Load(view, view.current), Some(k)) then Changed(x.statusAt, RunEnded)
    else if x.logs && c.Some? && !Working(tr[x.caseAt].cases, c.value) then Changed(x.caseAt, CaseEnded)
    else if x.logs && c.Some? && x.freezing.Some? then
      var f := x.freezing.value;
      var o := Freeze(tr[x.actAt].db, q, view.current, c.value, f.op, f.key, f.archive);
      if o.Ok? then
        DispatchReply(tr, q, Held(view.current, f.key, f.op, RestartIsPending), x.actAt + 1, x.rounds, false)
      else if o.code == RunChanged then Changed(x.actAt, FreezeRefused) else OtherReply
    else
      var o := Submit(tr[x.actAt].db, q, None);
      if o.Ok? then Accepted else if o.code == RunChanged then Changed(x.actAt, SubmitRefused) else OtherReply
  }

  /** The core knows the Case and has not ended it. */
  predicate Working(cases: map<CaseId, CaseView>, c: CaseId) { c in cases && CaseUnfinished(cases[c].status) }

  /** The answer of one send of the request, which aims at run `k`. */
  ghost function SendReply(tr: seq<Sys>, q: Request, k: nat, x: Send): Reply {
    if !Timed(tr, x) then OtherReply else
    var db := tr[x.lookAt].db;
    var m, r := MessageOf(db.messages, q.id), RestartOf(db.restarts, q.id);
    if db.deleted || (m < |db.messages| && db.messages[m].digest != q.digest)
       || (r < |db.restarts| && db.restarts[r].digest != q.digest) then OtherReply
    else if m < |db.messages| then Accepted
    else if r < |db.restarts| then DispatchReply(tr, q, HeldOf(db.restarts[r]), x.lookAt, x.rounds, false)
    else FreshReply(tr, q, k, x)
  }

  function HeldOf(row: Restart): Held { Held(row.run, row.key, row.op, row.status) }

  // ----- its transactions are steps of the history -----

  /** The rounds are carried out, and the core refuses only a command it has no receipt of. */
  ghost predicate DispatchSteps(tr: seq<Sys>, steps: seq<Step>, q: Request, h: Held, at: nat, rounds: seq<Round>)
    decreases |rounds|
  {
    h.status == RestartRejected || rounds == [] || !InTime(tr, at, rounds[0])
    || (var r := rounds[0];
        && |steps| + 1 == |tr|
        && (r.core == Refused ==> forall c :: Record(h.op, h.key, c) !in tr[r.ranAt].records)
        && (if RunOver(tr[r.readAt].db, h.run) then steps[r.actAt] == RejectIntent(h.key)
            else if r.core != Refused then true
            else if h.op == MarkLogsExpected && r.generic then
              && steps[r.actAt] == RetargetIntent(h.key, r.newKey)
              && DispatchSteps(tr, steps, q, h.(key := r.newKey, op := RestartGeneric, status := RestartIsPending),
                               r.actAt + 1, rounds[1..])
            else if h.op == MarkLogsExpected && r.skill then
              && steps[r.actAt] == RoutedSubmit(q, h.key)
              && DispatchSteps(tr, steps, q, h, r.actAt, rounds[1..])
            else if h.op == MarkLogsExpected && r.route then true
            else steps[r.actAt] == RejectIntent(h.key)))
  }

  /** The send freezes an intent for a Case instead of submitting directly. */
  ghost predicate Freezes(tr: seq<Sys>, x: Send)
    requires Timed(tr, x)
  {
    var view := tr[x.statusAt].db;
    x.logs && view.runs[view.current].caseId.Some? && x.freezing.Some?
  }

  /** A send that finds nothing of the request holds the message lock until its own transaction. */
  ghost predicate Carried(tr: seq<Sys>, steps: seq<Step>, q: Request, k: nat, x: Send) {
    Timed(tr, x) && |steps| + 1 == |tr| ==>
      var db := tr[x.lookAt].db;
      var r := RestartOf(db.restarts, q.id);
      && (Unknown(db, q.id) ==>
            x.lookAt < x.statusAt && forall n :: x.lookAt < n <= x.actAt ==> tr[n].sender == Some(q.id))
      && (SendReply(tr, q, k, x) == Changed(x.actAt, SubmitRefused) ==> steps[x.actAt] == DirectSubmit(q))
      && (Unknown(db, q.id) && SendReply(tr, q, k, x).Accepted? && !Freezes(tr, x) ==>
          steps[x.actAt] == DirectSubmit(q))
      && (r < |db.restarts| ==>
            DispatchSteps(tr, steps, q, HeldOf(db.restarts[r]), x.lookAt, x.rounds))
      && (Unknown(db, q.id) && x.freezing.Some? ==>
            var view := tr[x.statusAt].db;
            var f := x.freezing.value;
            view.runs[view.current].caseId.Some? ==>
              && steps[x.actAt] == FreezeIntent(q, view.current, view.runs[view.current].caseId.value, f.op, f.key,
                                                f.archive)
              && DispatchSteps(tr, steps, q, Held(view.current, f.key, f.op, RestartIsPending), x.actAt + 1, x.rounds))
  }

  // ----- which answers are final -----

  ghost predicate HasKey(db: Db, q: RequestId, key: CommandKey) {
    exists i :: 0 <= i < |db.restarts| && db.restarts[i].request == q && db.restarts[i].key == key
  }

  /**
   When an answer is given for a request that is dead: always, except where a thread acts on an intent it has read
   before.  There it depends on what the intent and the receipt are when it acts.
   */
  ghost predicate Lost(tr: seq<Sys>, q: Request, k: nat, when: nat, b: Branch)
    requires when < |tr|
  {
    match b
    case RunStopped(readAt) => readAt < |tr| && !HasRequest(tr[readAt].db.messages, q.id)
    case RetargetRefused =>
      !HasRequest(tr[when].db.messages, q.id) && (Shut(tr[when].db, k) || GivenUp(tr[when].db, q))
    case CommandRefused(key) =>
      when > 0
      && var db := tr[when - 1].db;
         !HasRequest(db.messages, q.id) && (Shut(db, k) || GivenUp(db, q) || HasKey(db, q.id, key))
    case _ => true
  }

  /** A history in which everyone who uses the identifier of the request sends this very request, aimed at run `k`. */
  ghost predicate About(tr: seq<Sys>, steps: seq<Step>, epoch: Epoch, q: Request, k: nat) {
    IsRun(tr, steps, epoch) && q.digest.target == Some(k) && forall n :: 0 <= n < |steps| ==> Uses(steps[n], q)
  }

  ghost predicate HasRow(db: Db, q: RequestId) { RestartOf(db.restarts, q) < |db.restarts| }

  lemma RowStays(a: Db, b: Db, q: RequestId)
    requires Evolves(a, b) && HasRow(a, q)
    ensures HasRow(b, q)
  {
    RowsKeepRuns(a, b);
    hide Evolves;
    assert b.restarts[RestartOf(a.restarts, q)].request == q;
  }

  /** What holds at any time of such a history. */
  lemma Facts(tr: seq<Sys>, steps: seq<Step>, epoch: Epoch, q: Request, k: nat, from: nat, n: nat)
    requires About(tr, steps, epoch, q, k) && from <= n < |tr| && k < |tr[from].db.runs|
    ensures SysInv(tr[n]) && Inv(tr[n].db) && RowsIn(tr[n].db, q, k) && k < |tr[n].db.runs|
    ensures HasRow(tr[from].db, q.id) ==> HasRow(tr[n].db, q.id)
    ensures HasRequest(tr[from].db.messages, q.id) ==> HasRequest(tr[n].db.messages, q.id)
    ensures Shut(tr[from].db, k) ==> Shut(tr[n].db, k)
    ensures GivenUp(tr[from].db, q) ==> GivenUp(tr[n].db, q)
  {
    hide SysInv, Evolves, RowsIn, Shut, GivenUp, HasRow, HasRequest, IsRun;
    var a, b := tr[from].db, tr[n].db;
    Always(tr, steps, epoch, n);
    Base(tr[n]);
    RowsAlways(tr, steps, epoch, q, k, n);
    Onward(tr, steps, epoch, from, n);
    MoreRuns(a, b);
    if HasRow(a, q.id) { RowStays(a, b, q.id); }
    if HasRequest(a.messages, q.id) { MessagesStay(a, b, q.id); }
    if Shut(a, k) { StaysShut(a, b, k); }
    if GivenUp(a, q) { GivenUpStays(a, b, q); }
  }

  /** The run was over when the thread read it: the answer is final iff the request was no message then. */
  lemma StoppedIff(tr: seq<Sys>, steps: seq<Step>, epoch: Epoch, q: Request, k: nat, from: nat, readAt: nat, when: nat)
    requires About(tr, steps, epoch, q, k) && from <= readAt <= when < |tr| && k < |tr[from].db.runs|
    requires RunOver(tr[readAt].db, k)
    ensures Dead(tr[when].db, q, k) <==> !HasRequest(tr[readAt].db.messages, q.id)
  {
    Facts(tr, steps, epoch, q, k, from, readAt);
    Facts(tr, steps, epoch, q, k, readAt, when);
    hide SysInv, Inv, HasRequest, RowsIn, GivenUp, IsRun;
    if !HasRequest(tr[readAt].db.messages, q.id) { DeadForever(tr, steps, epoch, q, k, readAt, when); }
  }

  /** A routed submission that finds its run changed is refused for a request that is no message and cannot be one. */
  lemma RouteDead(db: Db, q: Request, key: CommandKey, k: nat)
    requires Inv(db) && db.current < |db.runs| && k < |db.runs| && q.digest.target == Some(k) && RowsIn(db, q, k)
    requires HasRow(db, q.id) && Submit(db, q, Some(key)) == Err(RunChanged)
    ensures Dead(db, q, k)
  {
    assert MessageOf(db.messages, q.id) == |db.messages|;
    var t := Load(db, db.current);
    if TargetChanged(t, Some(k)) { ChangedShuts(db, k); }
    hide InvBut, NewRun;
  }

  /** Giving the intent up works exactly while it is there under the key the thread holds. */
  lemma RefusedIff(db: Db, q: Request, key: CommandKey, k: nat)
    requires Inv(db) && k < |db.runs| && q.digest.target == Some(k) && RowsIn(db, q, k)
    ensures Dead(FinishRestart(db, key, true), q, k) <==>
      !HasRequest(db.messages, q.id) && (Shut(db, k) || GivenUp(db, q) || HasKey(db, q.id, key))
  {
    var b := FinishRestart(db, key, true);
    assert b.messages == db.messages && b.runs == db.runs && b.deleted == db.deleted;
    FinishedRows(db, q, key);
    hide InvBut, FinishRestart;
    if !HasRequest(db.messages, q.id) { NotTaken(db, q); }
  }

  lemma NotTaken(db: Db, q: Request)
    requires Inv(db) && !HasRequest(db.messages, q.id)
    ensures forall i :: 0 <= i < |db.restarts| && db.restarts[i].request == q.id ==>
      db.restarts[i].status == RestartIsPending || db.restarts[i].status == RestartRejected
  {
    forall i | 0 <= i < |db.restarts| && db.restarts[i].request == q.id
      ensures db.restarts[i].status == RestartIsPending || db.restarts[i].status == RestartRejected
    {
      PendingRow(db, i);
    }
  }

  lemma FinishedRows(db: Db, q: Request, key: CommandKey)
    requires Inv(db)
    ensures var b := FinishRestart(db, key, true);
            && (forall k :: RowsIn(db, q, k) ==> RowsIn(b, q, k))
            && (GivenUp(b, q)
                <==> GivenUp(db, q) || exists i :: 0 <= i < |db.restarts| && db.restarts[i].request == q.id
                                                   && db.restarts[i].key == key && Live(db.restarts[i].status))
  {
    var b := FinishRestart(db, key, true);
    var r := RestartWithKey(db.restarts, key);
    if i :| 0 <= i < |db.restarts| && db.restarts[i].request == q.id && db.restarts[i].key == key
            && Live(db.restarts[i].status) {
      DistinctKeys(db, i, r);
      assert b.restarts[i].status == RestartRejected;
    }
    if GivenUp(db, q) {
      var i :| 0 <= i < |db.restarts| && db.restarts[i].request == q.id && db.restarts[i].status == RestartRejected;
      assert b.restarts[i].request == q.id && b.restarts[i].status == RestartRejected;
    }
  }

  /** Every answer of a dispatch that the run has changed, with the exact condition for its being final. */
  lemma {:induction false} DispatchDead(tr: seq<Sys>, steps: seq<Step>, epoch: Epoch, q: Request, k: nat, h: Held,
                                        at: nat, rounds: seq<Round>, again: bool)
    requires About(tr, steps, epoch, q, k) && at < |tr| && k < |tr[at].db.runs| && h.run == k && HasRow(tr[at].db, q.id)
    requires h.status == RestartRejected ==> Dead(tr[at].db, q, k)
    requires DispatchSteps(tr, steps, q, h, at, rounds)
    ensures var y := DispatchReply(tr, q, h, at, rounds, again);
            y.Changed? ==> at <= y.when < |tr| && (Dead(tr[y.when].db, q, k) <==> Lost(tr, q, k, y.when, y.branch))
    decreases |rounds|, 1
  {
    hide Dead, HasRow, About, Retarget, Submit, RunOver, Lost, RowsIn, HasRequest, GivenUp, Shut, SysInv, Inv;
    if h.status == RestartRejected {
      LostAlways(tr, q, k, at, IntentRejected);
    } else if rounds != [] && InTime(tr, at, rounds[0]) {
      var r := rounds[0];
      if RunOver(tr[r.readAt].db, k) {
        StoppedIff(tr, steps, epoch, q, k, at, r.readAt, r.actAt + 1);
        LostStopped(tr, q, k, r.actAt + 1, r.readAt);
      } else if r.core == Refused && h.op == MarkLogsExpected && r.generic {
        RetargetedDead(tr, steps, epoch, q, k, h, at, rounds, again);
      } else if r.core == Refused && h.op == MarkLogsExpected && r.skill {
        RoutedDead(tr, steps, epoch, q, k, h, at, rounds, again);
      } else if r.core == Refused && !(h.op == MarkLogsExpected && r.route) {
        LostRefused(tr, steps, epoch, q, k, at, r.actAt, h.key);
      }
    }
  }

  /** The round that turns the intent into a restart. */
  lemma {:induction false} RetargetedDead(tr: seq<Sys>, steps: seq<Step>, epoch: Epoch, q: Request, k: nat, h: Held,
                                          at: nat, rounds: seq<Round>, again: bool)
    requires About(tr, steps, epoch, q, k) && at < |tr| && k < |tr[at].db.runs| && h.run == k && HasRow(tr[at].db, q.id)
    requires h.status != RestartRejected && rounds != [] && InTime(tr, at, rounds[0])
    requires DispatchSteps(tr, steps, q, h, at, rounds)
    requires var r := rounds[0];
             !RunOver(tr[r.readAt].db, k) && r.core == Refused && h.op == MarkLogsExpected && r.generic
    ensures var y := DispatchReply(tr, q, h, at, rounds, again);
            y.Changed? ==> at <= y.when < |tr| && (Dead(tr[y.when].db, q, k) <==> Lost(tr, q, k, y.when, y.branch))
    decreases |rounds|, 0
  {
    hide Dead, HasRow, About, Retarget, Submit, RunOver, Lost, RowsIn, HasRequest, GivenUp, Shut, SysInv, Inv;
    var r := rounds[0];
    if Retarget(tr[r.actAt].db, h.key, r.newKey).Ok? {
      Facts(tr, steps, epoch, q, k, at, r.actAt + 1);
      DispatchDead(tr, steps, epoch, q, k, h.(key := r.newKey, op := RestartGeneric, status := RestartIsPending),
                   r.actAt + 1, rounds[1..], again);
    } else {
      LostRetarget(tr, steps, epoch, q, k, at, r.actAt);
    }
  }

  /** The round that submits the request as the ordinary message it always was. */
  lemma {:induction false} RoutedDead(tr: seq<Sys>, steps: seq<Step>, epoch: Epoch, q: Request, k: nat, h: Held,
                                      at: nat, rounds: seq<Round>, again: bool)
    requires About(tr, steps, epoch, q, k) && at < |tr| && k < |tr[at].db.runs| && h.run == k && HasRow(tr[at].db, q.id)
    requires h.status != RestartRejected && rounds != [] && InTime(tr, at, rounds[0])
    requires DispatchSteps(tr, steps, q, h, at, rounds)
    requires var r := rounds[0];
             !RunOver(tr[r.readAt].db, k) && r.core == Refused && h.op == MarkLogsExpected && !r.generic && r.skill
    ensures var y := DispatchReply(tr, q, h, at, rounds, again);
            y.Changed? ==> at <= y.when < |tr| && (Dead(tr[y.when].db, q, k) <==> Lost(tr, q, k, y.when, y.branch))
    decreases |rounds|, 0
  {
    hide Dead, HasRow, About, Retarget, Submit, RunOver, Lost, RowsIn, HasRequest, GivenUp, Shut, SysInv, Inv;
    var r := rounds[0];
    Facts(tr, steps, epoch, q, k, at, r.actAt);
    var db := tr[r.actAt].db;
    var o := Submit(db, q, Some(h.key));
    if o.Err? && o.code == RunChanged {
      AimsAt(tr, steps, epoch, q, k);
      RouteDead(db, q, h.key, k);
      LostAlways(tr, q, k, r.actAt, RouteRefused);
    } else if o.Err? && o.code == RouteChanged && !again {
      DispatchDead(tr, steps, epoch, q, k, h, r.actAt, rounds[1..], true);
    }
  }

  lemma AimsAt(tr: seq<Sys>, steps: seq<Step>, epoch: Epoch, q: Request, k: nat)
    requires About(tr, steps, epoch, q, k)
    ensures q.digest.target == Some(k)
  {}

  lemma LostStopped(tr: seq<Sys>, q: Request, k: nat, when: nat, readAt: nat)
    requires when < |tr| && readAt < |tr|
    ensures Lost(tr, q, k, when, RunStopped(readAt)) <==> !HasRequest(tr[readAt].db.messages, q.id)
  {}

  lemma LostAlways(tr: seq<Sys>, q: Request, k: nat, when: nat, b: Branch)
    requires when < |tr| && !b.RunStopped? && !b.RetargetRefused? && !b.CommandRefused?
    ensures Lost(tr, q, k, when, b)
  {}

  lemma LostRetarget(tr: seq<Sys>, steps: seq<Step>, epoch: Epoch, q: Request, k: nat, at: nat, when: nat)
    requires About(tr, steps, epoch, q, k) && at <= when < |tr| && k < |tr[at].db.runs|
    ensures Dead(tr[when].db, q, k) <==> Lost(tr, q, k, when, RetargetRefused)
  {
    Facts(tr, steps, epoch, q, k, at, when);
    hide SysInv, IsRun, RowsIn, HasRequest, Shut, GivenUp;
  }

  lemma LostRefused(tr: seq<Sys>, steps: seq<Step>, epoch: Epoch, q: Request, k: nat, at: nat, actAt: nat,
                    key: CommandKey)
    requires About(tr, steps, epoch, q, k) && at <= actAt && actAt + 1 < |tr| && k < |tr[at].db.runs|
    requires steps[actAt] == RejectIntent(key)
    ensures Dead(tr[actAt + 1].db, q, k) <==> Lost(tr, q, k, actAt + 1, CommandRefused(key))
  {
    Facts(tr, steps, epoch, q, k, at, actAt);
    assert Next(tr[actAt], steps[actAt], tr[actAt + 1]);
    assert tr[actAt + 1].db == FinishRestart(tr[actAt].db, key, true);
    hide SysInv, Inv, IsRun, RowsIn, HasRequest, Shut, GivenUp, FinishRestart, Dead;
    RefusedIff(tr[actAt].db, q, key, k);
  }

  // ----- a send that finds nothing of the request -----

  /** Under the message lock nothing of the request appears. */
  lemma LockedOut(tr: seq<Sys>, steps: seq<Step>, epoch: Epoch, q: Request, n: nat)
    requires IsRun(tr, steps, epoch) && n < |tr| && tr[n].sender == Some(q.id)
    ensures !HasRequest(tr[n].db.messages, q.id) && RestartOf(tr[n].db.restarts, q.id) == |tr[n].db.restarts|
  {
    Always(tr, steps, epoch, n);
    hide IsRun, Inv, Bound, Unaccepted, Functional, CasesOk, SettlingOk;
  }

  lemma LockedDead(tr: seq<Sys>, steps: seq<Step>, epoch: Epoch, q: Request, k: nat, from: nat, n: nat)
    requires About(tr, steps, epoch, q, k) && from <= n < |tr| && k < |tr[from].db.runs| && tr[n].sender == Some(q.id)
    ensures Shut(tr[n].db, k) ==> Dead(tr[n].db, q, k)
  {
    Facts(tr, steps, epoch, q, k, from, n);
    LockedOut(tr, steps, epoch, q, n);
    hide SysInv, IsRun, Shut, HasRequest, RowsIn;
  }

  lemma ChangedDead(tr: seq<Sys>, steps: seq<Step>, epoch: Epoch, q: Request, k: nat, from: nat, n: nat)
    requires About(tr, steps, epoch, q, k) && from <= n < |tr| && k < |tr[from].db.runs| && tr[n].sender == Some(q.id)
    requires tr[n].db.current < |tr[n].db.runs| && TargetChanged(Load(tr[n].db, tr[n].db.current), Some(k))
    ensures Dead(tr[n].db, q, k)
  {
    Facts(tr, steps, epoch, q, k, from, n);
    hide SysInv, Inv, About, Dead, Shut, HasRequest, RowsIn;
    ChangedShuts(tr[n].db, k);
    LockedDead(tr, steps, epoch, q, k, from, n);
  }

  /** A Case that the core has ended, or does not know, was the Case of a run that takes nothing more. */
  lemma EndedDead(tr: seq<Sys>, steps: seq<Step>, epoch: Epoch, q: Request, k: nat, m: nat, n: nat, c: CaseId)
    requires About(tr, steps, epoch, q, k) && m <= n < |tr| && k < |tr[m].db.runs| && tr[n].sender == Some(q.id)
    requires tr[m].db.runs[k].caseId == Some(c)
    requires c !in tr[n].cases || !CaseUnfinished(tr[n].cases[c].status)
    ensures Dead(tr[n].db, q, k)
  {
    RunsKeepTheirCase(tr, steps, epoch, m, n);
    OpenRunsHaveLiveCases(tr, steps, epoch, n);
    hide IsRun, Dead, Shut;
    LockedDead(tr, steps, epoch, q, k, m, n);
  }

  lemma SubmitDead(tr: seq<Sys>, steps: seq<Step>, epoch: Epoch, q: Request, k: nat, from: nat, n: nat)
    requires About(tr, steps, epoch, q, k) && from <= n < |tr| && k < |tr[from].db.runs| && tr[n].sender == Some(q.id)
    requires tr[n].db.current < |tr[n].db.runs| && Submit(tr[n].db, q, None) == Err(RunChanged)
    ensures Dead(tr[n].db, q, k)
  {
    LockedOut(tr, steps, epoch, q, n);
    AimsAt(tr, steps, epoch, q, k);
    OnlyTarget(tr[n].db, q);
    hide About, Dead, Submit;
    ChangedDead(tr, steps, epoch, q, k, from, n);
  }

  lemma OnlyTarget(db: Db, q: Request)
    requires db.current < |db.runs| && !HasRequest(db.messages, q.id) && RestartOf(db.restarts, q.id) == |db.restarts|
    requires Submit(db, q, None) == Err(RunChanged)
    ensures TargetChanged(Load(db, db.current), q.digest.target)
  {
    hide NewRun;
    assert MessageOf(db.messages, q.id) == |db.messages|;
  }

  lemma FreezeDead(tr: seq<Sys>, steps: seq<Step>, epoch: Epoch, q: Request, k: nat, m: nat, n: nat, c: CaseId,
                   f: Freezing)
    requires About(tr, steps, epoch, q, k) && m <= n < |tr| && k < |tr[m].db.runs| && tr[n].sender == Some(q.id)
    requires tr[m].db.runs[k].caseId == Some(c) && tr[n].db.current < |tr[n].db.runs|
    requires Freeze(tr[n].db, q, k, c, f.op, f.key, f.archive) == Err(RunChanged)
    ensures Dead(tr[n].db, q, k)
  {
    RunsKeepTheirCase(tr, steps, epoch, m, n);
    AimsAt(tr, steps, epoch, q, k);
    hide IsRun, Dead;
    assert TargetChanged(Load(tr[n].db, tr[n].db.current), Some(k));
    ChangedDead(tr, steps, epoch, q, k, m, n);
  }

  /** A send that finds nothing and answers before it dispatches an intent: its answers are final. */
  lemma FreshDead(tr: seq<Sys>, steps: seq<Step>, epoch: Epoch, q: Request, k: nat, x: Send)
    requires About(tr, steps, epoch, q, k) && Timed(tr, x) && k < |tr[x.lookAt].db.runs| && x.lookAt < x.statusAt
    requires forall n :: x.lookAt < n <= x.actAt ==> tr[n].sender == Some(q.id)
    requires var y := FreshReply(tr, q, k, x);
             y.Changed?
             && (y.branch.RunEnded? || y.branch.CaseEnded? || y.branch.FreezeRefused? || y.branch.SubmitRefused?)
    ensures var y := FreshReply(tr, q, k, x); x.lookAt < y.when < |tr| && Dead(tr[y.when].db, q, k)
  {
    hide Dead, About, Submit, Freeze, DispatchReply;
    RunThere(tr, steps, epoch, q, k, x.lookAt, x.statusAt);
    var y := FreshReply(tr, q, k, x);
    if y.branch.RunEnded? {
      ChangedDead(tr, steps, epoch, q, k, x.lookAt, x.statusAt);
    } else if y.branch.SubmitRefused? {
      SubmitDead(tr, steps, epoch, q, k, x.lookAt, x.actAt);
    } else {
      var c := tr[x.statusAt].db.runs[k].caseId.value;
      if y.branch.CaseEnded? { EndedDead(tr, steps, epoch, q, k, x.statusAt, x.caseAt, c); }
      else { FreezeDead(tr, steps, epoch, q, k, x.statusAt, x.actAt, c, x.freezing.value); }
    }
  }

  lemma SameLength(tr: seq<Sys>, steps: seq<Step>, epoch: Epoch, q: Request, k: nat)
    requires About(tr, steps, epoch, q, k)
    ensures |tr| == |steps| + 1
  {}

  lemma RunThere(tr: seq<Sys>, steps: seq<Step>, epoch: Epoch, q: Request, k: nat, from: nat, n: nat)
    requires About(tr, steps, epoch, q, k) && from <= n < |tr| && k < |tr[from].db.runs|
    ensures k < |tr[n].db.runs|
  {
    hide About;
    Facts(tr, steps, epoch, q, k, from, n);
  }

  /** After a freeze that went through, the intent is there. */
  lemma FrozenRow(tr: seq<Sys>, steps: seq<Step>, epoch: Epoch, q: Request, k: nat, n: nat, c: CaseId, f: Freezing)
    requires About(tr, steps, epoch, q, k) && n + 1 < |tr| && tr[n].db.current < |tr[n].db.runs|
    requires steps[n] == FreezeIntent(q, k, c, f.op, f.key, f.archive)
    requires Freeze(tr[n].db, q, k, c, f.op, f.key, f.archive).Ok?
    ensures HasRow(tr[n + 1].db, q.id)
  {
    assert Next(tr[n], steps[n], tr[n + 1]);
    var b := Freeze(tr[n].db, q, k, c, f.op, f.key, f.archive).value;
    assert tr[n + 1].db == b;
    hide IsRun, TargetChanged, LiveRestart, RunMessages, Open;
    if RestartOf(tr[n].db.restarts, q.id) == |tr[n].db.restarts| {
      assert b.restarts[|tr[n].db.restarts|].request == q.id;
    }
  }

  lemma FrozenDead(tr: seq<Sys>, steps: seq<Step>, epoch: Epoch, q: Request, k: nat, x: Send)
    requires About(tr, steps, epoch, q, k) && Timed(tr, x) && k < |tr[x.lookAt].db.runs| && Carried(tr, steps, q, k, x)
    requires Unknown(tr[x.lookAt].db, q.id)
    requires var y := FreshReply(tr, q, k, x);
             y.Changed?
             && !(y.branch.RunEnded? || y.branch.CaseEnded? || y.branch.FreezeRefused? || y.branch.SubmitRefused?)
    ensures var y := FreshReply(tr, q, k, x);
            x.lookAt < y.when < |tr| && (Dead(tr[y.when].db, q, k) <==> Lost(tr, q, k, y.when, y.branch))
  {
    hide Dead, About, Submit, Freeze, DispatchReply, DispatchSteps, Lost, HasRow, Unknown, SendReply, Working;
    SameLength(tr, steps, epoch, q, k);
    RunThere(tr, steps, epoch, q, k, x.lookAt, x.statusAt);
    RunThere(tr, steps, epoch, q, k, x.lookAt, x.actAt + 1);
    var f := x.freezing.value;
    var c := tr[x.statusAt].db.runs[k].caseId.value;
    FrozenRow(tr, steps, epoch, q, k, x.actAt, c, f);
    DispatchDead(tr, steps, epoch, q, k, Held(k, f.key, f.op, RestartIsPending), x.actAt + 1, x.rounds, false);
  }

  lemma {:induction false} HeldDead(tr: seq<Sys>, steps: seq<Step>, epoch: Epoch, q: Request, k: nat, x: Send)
    requires About(tr, steps, epoch, q, k) && Timed(tr, x) && k < |tr[x.lookAt].db.runs| && Carried(tr, steps, q, k, x)
    requires HasRow(tr[x.lookAt].db, q.id) && !HasRequest(tr[x.lookAt].db.messages, q.id)
    ensures var db := tr[x.lookAt].db;
            var y := DispatchReply(tr, q, HeldOf(db.restarts[RestartOf(db.restarts, q.id)]), x.lookAt, x.rounds, false);
            y.Changed? ==> y.when < |tr| && (Dead(tr[y.when].db, q, k) <==> Lost(tr, q, k, y.when, y.branch))
  {
    hide About, DispatchReply, DispatchSteps, Lost, Unknown, SendReply, Inv, SysInv, IsRun;
    SameLength(tr, steps, epoch, q, k);
    AimsAt(tr, steps, epoch, q, k);
    Facts(tr, steps, epoch, q, k, x.lookAt, x.lookAt);
    var db := tr[x.lookAt].db;
    var row := db.restarts[RestartOf(db.restarts, q.id)];
    assert row.status == RestartRejected ==> Dead(db, q, k);
    hide Dead;
    DispatchDead(tr, steps, epoch, q, k, HeldOf(row), x.lookAt, x.rounds, false);
  }

  /**
   Every answer of a send that its run has changed, and exactly when it is given for a request that is dead.
   */
  lemma ChangedIsFinalIff(tr: seq<Sys>, steps: seq<Step>, epoch: Epoch, q: Request, k: nat, x: Send)
    requires About(tr, steps, epoch, q, k) && Timed(tr, x) && k < |tr[x.lookAt].db.runs| && Carried(tr, steps, q, k, x)
    ensures var y := SendReply(tr, q, k, x);
            y.Changed? ==> y.when < |tr| && (Dead(tr[y.when].db, q, k) <==> Lost(tr, q, k, y.when, y.branch))
  {
    var y := SendReply(tr, q, k, x);
    SameLength(tr, steps, epoch, q, k);
    if y.Changed? {
      var db := tr[x.lookAt].db;
      if RestartOf(db.restarts, q.id) < |db.restarts| {
        HeldDead(tr, steps, epoch, q, k, x);
      } else {
        assert Unknown(db, q.id);
        hide FreshReply, Dead, About;
        if y.branch.RunEnded? || y.branch.CaseEnded? || y.branch.FreezeRefused? || y.branch.SubmitRefused? {
          FreshDead(tr, steps, epoch, q, k, x);
          LostAlways(tr, q, k, y.when, y.branch);
        } else {
          FrozenDead(tr, steps, epoch, q, k, x);
        }
      }
    }
  }

  // ----- an accepted send is a message -----

  ghost predicate HasOwnRow(db: Db, q: Request) {
    exists j :: 0 <= j < |db.restarts| && db.restarts[j].request == q.id && db.restarts[j].digest == q.digest
  }

  lemma OwnRowStays(a: Db, b: Db, q: Request)
    requires Evolves(a, b) && HasOwnRow(a, q)
    ensures HasOwnRow(b, q)
  {
    var j :| 0 <= j < |a.restarts| && a.restarts[j].request == q.id && a.restarts[j].digest == q.digest;
    assert RestartStep(a.restarts[j], b.restarts[j]);
  }

  ghost predicate BecameMessage(tr: seq<Sys>, q: Request) {
    exists n :: 0 <= n < |tr| && Holds(tr[n].db, q.id, q.digest)
  }

  lemma OwnMessage(db: Db, q: Request)
    requires OneContent(db) && HasOwnRow(db, q) && HasRequest(db.messages, q.id)
    ensures Holds(db, q.id, q.digest)
  {
    var i :| 0 <= i < |db.messages| && db.messages[i].request == q.id;
    var j :| 0 <= j < |db.restarts| && db.restarts[j].request == q.id && db.restarts[j].digest == q.digest;
    assert db.messages[i].digest == db.restarts[j].digest;
  }

  lemma SubmitHolds(db: Db, q: Request, routed: Option<CommandKey>)
    requires Inv(db)
    ensures db.current < |db.runs|
    ensures var r := Submit(db, q, routed); r.Ok? ==> Holds(r.value, q.id, q.digest)
  {
    IsRows(db);
    Current(db);
    var r := Submit(db, q, routed);
    if r.Ok? && r.value != db {
      Submitting(db, q, routed);
      assert r.value.messages[|db.messages|].request == q.id;
    } else if r.Ok? {
      Unchanged(db, q, routed);
    }
  }

  lemma Unchanged(db: Db, q: Request, routed: Option<CommandKey>)
    requires Inv(db) && db.current < |db.runs| && Submit(db, q, routed) == Ok(db)
    ensures Holds(db, q.id, q.digest)
  {
    hide Inv, RestartOf, RunMessages;
    var k := MessageOf(db.messages, q.id);
    if SubmitTarget(db, q, routed).value.Some? {
      var t := SubmitTarget(db, q, routed).value.value;
      AcceptedRow(t, q);
      SubmitAccepted(db, q, routed, t);
    }
  }

  lemma {:induction false} DispatchAccepted(tr: seq<Sys>, steps: seq<Step>, epoch: Epoch, q: Request, h: Held, at: nat,
                                            rounds: seq<Round>, again: bool)
    requires IsRun(tr, steps, epoch) && at < |tr| && HasOwnRow(tr[at].db, q)
    requires DispatchSteps(tr, steps, q, h, at, rounds) && DispatchReply(tr, q, h, at, rounds, again).Accepted?
    ensures BecameMessage(tr, q)
    decreases |rounds|
  {
    hide IsRun, Retarget, Submit, RunOver, Evolves, HasOwnRow, Holds, HasRequest;
    var r := rounds[0];
    var db := tr[r.actAt].db;
    Onward(tr, steps, epoch, at, r.actAt);
    OwnRowStays(tr[at].db, db, q);
    if r.core == Executed {
      OneContentAlways(tr, steps, epoch, r.actAt);
      OwnMessage(db, q);
    } else if h.op == MarkLogsExpected && r.generic {
      Onward(tr, steps, epoch, r.actAt, r.actAt + 1);
      OwnRowStays(db, tr[r.actAt + 1].db, q);
      DispatchAccepted(tr, steps, epoch, q, h.(key := r.newKey, op := RestartGeneric, status := RestartIsPending),
                       r.actAt + 1, rounds[1..], again);
    } else if Submit(db, q, Some(h.key)).Ok? {
      SubmittedAt(tr, steps, epoch, q, Some(h.key), r.actAt);
    } else {
      DispatchAccepted(tr, steps, epoch, q, h, r.actAt, rounds[1..], true);
    }
  }

  lemma SubmittedAt(tr: seq<Sys>, steps: seq<Step>, epoch: Epoch, q: Request, routed: Option<CommandKey>, n: nat)
    requires IsRun(tr, steps, epoch) && n < |steps| && tr[n].db.current < |tr[n].db.runs|
    requires steps[n] == if routed.None? then DirectSubmit(q) else RoutedSubmit(q, routed.value)
    requires Submit(tr[n].db, q, routed).Ok?
    ensures BecameMessage(tr, q)
  {
    hide SysInv, Submit, Enabled, Holds;
    Always(tr, steps, epoch, n);
    Base(tr[n]);
    SubmitHolds(tr[n].db, q, routed);
    assert Next(tr[n], steps[n], tr[n + 1]);
    assert Holds(tr[n + 1].db, q.id, q.digest);
  }

  lemma FrozenAt(tr: seq<Sys>, steps: seq<Step>, epoch: Epoch, q: Request, run: nat, c: CaseId, f: Freezing, n: nat)
    requires IsRun(tr, steps, epoch) && n < |steps| && tr[n].db.current < |tr[n].db.runs|
    requires steps[n] == FreezeIntent(q, run, c, f.op, f.key, f.archive)
    requires Freeze(tr[n].db, q, run, c, f.op, f.key, f.archive).Ok?
    ensures HasOwnRow(tr[n + 1].db, q)
  {
    hide SysInv, Freeze, Enabled;
    assert Next(tr[n], steps[n], tr[n + 1]);
    FreezeHolds(tr[n].db, q, run, c, f);
  }

  lemma FreezeHolds(db: Db, q: Request, run: nat, c: CaseId, f: Freezing)
    requires db.current < |db.runs|
    ensures var r := Freeze(db, q, run, c, f.op, f.key, f.archive); r.Ok? ==> HasOwnRow(r.value, q)
  {
    hide RunMessages, LiveRestart, Open, TargetChanged;
    var r := Freeze(db, q, run, c, f.op, f.key, f.archive);
    if r.Ok? && RestartOf(db.restarts, q.id) == |db.restarts| {
      assert r.value.restarts[|db.restarts|].request == q.id;
    }
  }

  /** A send that is answered as accepted has become a message, with its own content. */
  lemma AcceptedIsMessage(tr: seq<Sys>, steps: seq<Step>, epoch: Epoch, q: Request, k: nat, x: Send)
    requires IsRun(tr, steps, epoch) && Timed(tr, x) && Carried(tr, steps, q, k, x) && SendReply(tr, q, k, x).Accepted?
    ensures BecameMessage(tr, q)
  {
    RunLength(tr, steps, epoch);
    hide DispatchReply, DispatchSteps, FreshReply, IsRun, Freezes;
    var db := tr[x.lookAt].db;
    var r := RestartOf(db.restarts, q.id);
    if MessageOf(db.messages, q.id) < |db.messages| {
      assert Holds(db, q.id, q.digest);
    } else if r < |db.restarts| {
      assert HasOwnRow(db, q);
      DispatchAccepted(tr, steps, epoch, q, HeldOf(db.restarts[r]), x.lookAt, x.rounds, false);
    } else {
      FreshAccepted(tr, steps, epoch, q, k, x);
    }
  }

  lemma RunLength(tr: seq<Sys>, steps: seq<Step>, epoch: Epoch)
    requires IsRun(tr, steps, epoch)
    ensures |steps| + 1 == |tr|
  {}

  lemma FreshAccepted(tr: seq<Sys>, steps: seq<Step>, epoch: Epoch, q: Request, k: nat, x: Send)
    requires IsRun(tr, steps, epoch) && Timed(tr, x) && Carried(tr, steps, q, k, x) && SendReply(tr, q, k, x).Accepted?
    requires Unknown(tr[x.lookAt].db, q.id) && FreshReply(tr, q, k, x).Accepted?
    ensures BecameMessage(tr, q)
  {
    RunLength(tr, steps, epoch);
    hide DispatchReply, DispatchSteps, Submit, Freeze, Working, SendReply, IsRun, Unknown;
    if Freezes(tr, x) {
      var view, f := tr[x.statusAt].db, x.freezing.value;
      FrozenAt(tr, steps, epoch, q, view.current, view.runs[view.current].caseId.value, f, x.actAt);
      DispatchAccepted(tr, steps, epoch, q, Held(view.current, f.key, f.op, RestartIsPending), x.actAt + 1, x.rounds,
                       false);
    } else {
      SubmittedAt(tr, steps, epoch, q, None, x.actAt);
    }
  }

  /** A send of a request that was accepted before gets its receipt; other content under its identifier never does. */
  lemma ResendIsAccepted(tr: seq<Sys>, steps: seq<Step>, epoch: Epoch, q: Request, k: nat, x: Send, m: nat,
                         digest: Fingerprint)
    requires IsRun(tr, steps, epoch) && Timed(tr, x) && m <= x.lookAt && Holds(tr[m].db, q.id, digest)
    requires !tr[x.lookAt].db.deleted
    ensures SendReply(tr, q, k, x).Accepted? <==> q.digest == digest
    ensures !SendReply(tr, q, k, x).Changed?
  {
    hide IsRun, SysInv, Evolves, DispatchReply, FreshReply, Inv;
    var db := tr[x.lookAt].db;
    Onward(tr, steps, epoch, m, x.lookAt);
    HoldsStays(tr[m].db, db, q.id, digest);
    Always(tr, steps, epoch, x.lookAt);
    Base(tr[x.lookAt]);
    UniqueRequests(db);
    OneContentAlways(tr, steps, epoch, x.lookAt);
    var i :| 0 <= i < |db.messages| && db.messages[i].request == q.id && db.messages[i].digest == digest;
    assert HasRequest(db.messages, q.id) && MessageOf(db.messages, q.id) == i;
  }

  // ----- the client -----

  datatype Call = SendMessage | AskFollowup

  /** The calls of one attempt, by the frozen report state, the answer, and the report state looked up after it. */
  function Calls(reportReady: bool, reply: Reply, ready: bool): (r: seq<Call>)
    ensures SendMessage in r <==> !reportReady
    ensures AskFollowup in r <==> reportReady || (reply.Changed? && ready)
  {
    if reportReady then [AskFollowup]
    else if reply.Changed? && ready then [SendMessage, AskFollowup]
    else [SendMessage]
  }

  predicate Ready(db: Db, k: nat) { k < |db.runs| && db.runs[k].report }

  /** Once the report is ready it is decided: what is not a message by then never becomes one. */
  lemma ReadyDecides(tr: seq<Sys>, steps: seq<Step>, epoch: Epoch, q: Request, k: nat, i: nat, n: nat)
    requires About(tr, steps, epoch, q, k) && i < |tr| && n < |tr| && Ready(tr[i].db, k)
    ensures HasRequest(tr[n].db.messages, q.id) ==> HasRequest(tr[i].db.messages, q.id)
  {
    Facts(tr, steps, epoch, q, k, i, i);
    hide IsRun, SysInv, Inv, RowsIn, HasRequest;
    if n <= i {
      Onward(tr, steps, epoch, n, i);
      if HasRequest(tr[n].db.messages, q.id) { MessagesStay(tr[n].db, tr[i].db, q.id); }
    } else if !HasRequest(tr[i].db.messages, q.id) {
      assert Dead(tr[i].db, q, k);
      DeadForever(tr, steps, epoch, q, k, i, n);
    }
  }

  /**
   Message or follow-up.  A try that asks the follow-up was answered that its run has changed and found the report
   ready at `j`.  The input is a message at some time exactly if it is one at `j`; and it is none at any time when the
   answer was final, which `Lost` decides for each branch of the server.
   */
  lemma NeverBoth(tr: seq<Sys>, steps: seq<Step>, epoch: Epoch, q: Request, k: nat, x: Send, j: nat)
    requires About(tr, steps, epoch, q, k) && Timed(tr, x) && k < |tr[x.lookAt].db.runs| && Carried(tr, steps, q, k, x)
    requires var y := SendReply(tr, q, k, x);
             y.Changed? && y.when <= j < |tr| && AskFollowup in Calls(false, y, Ready(tr[j].db, k))
    ensures (exists n :: 0 <= n < |tr| && HasRequest(tr[n].db.messages, q.id)) <==> HasRequest(tr[j].db.messages, q.id)
    ensures var y := SendReply(tr, q, k, x);
            Lost(tr, q, k, y.when, y.branch) ==> forall n :: 0 <= n < |tr| ==> !HasRequest(tr[n].db.messages, q.id)
  {
    hide About, HasRequest, SendReply, Timed, Carried, Lost;
    var y := SendReply(tr, q, k, x);
    ChangedIsFinalIff(tr, steps, epoch, q, k, x);
    forall n | 0 <= n < |tr| ensures HasRequest(tr[n].db.messages, q.id) ==> HasRequest(tr[j].db.messages, q.id) {
      ReadyDecides(tr, steps, epoch, q, k, j, n);
    }
    if Lost(tr, q, k, y.when, y.branch) { DeadAt(tr, steps, epoch, q, k, y.when, j); }
  }

  lemma DeadAt(tr: seq<Sys>, steps: seq<Step>, epoch: Epoch, q: Request, k: nat, i: nat, j: nat)
    requires About(tr, steps, epoch, q, k) && i <= j < |tr| && Dead(tr[i].db, q, k)
    ensures !HasRequest(tr[j].db.messages, q.id)
  {
    hide IsRun;
    DeadForever(tr, steps, epoch, q, k, i, j);
  }

  /** Where the run was over when the thread read it, both happen exactly when the answer was not final. */
  lemma StoppedBothIff(tr: seq<Sys>, steps: seq<Step>, epoch: Epoch, q: Request, k: nat, x: Send, j: nat)
    requires About(tr, steps, epoch, q, k) && Timed(tr, x) && k < |tr[x.lookAt].db.runs| && Carried(tr, steps, q, k, x)
    requires var y := SendReply(tr, q, k, x);
             y.Changed? && y.branch.RunStopped? && y.when <= j < |tr| && Ready(tr[j].db, k)
    ensures var y := SendReply(tr, q, k, x);
            HasRequest(tr[j].db.messages, q.id) <==> !Lost(tr, q, k, y.when, y.branch)
  {
    hide About, HasRequest, SendReply, Timed, Carried, Dead;
    var y := SendReply(tr, q, k, x);
    ChangedIsFinalIff(tr, steps, epoch, q, k, x);
    var readAt := y.branch.readAt;
    if Lost(tr, q, k, y.when, y.branch) {
      DeadAt(tr, steps, epoch, q, k, y.when, j);
    } else {
      StoppedLater(tr, q, k, x);
      MessageLater(tr, steps, epoch, q, k, readAt, j);
    }
  }

  lemma StoppedLater(tr: seq<Sys>, q: Request, k: nat, x: Send)
    ensures var y := SendReply(tr, q, k, x); y.Changed? && y.branch.RunStopped? ==> y.branch.readAt < y.when < |tr|
  {
    hide DispatchReply;
    var y := SendReply(tr, q, k, x);
    if y.Changed? && y.branch.RunStopped? {
      var db := tr[x.lookAt].db;
      var r := RestartOf(db.restarts, q.id);
      if r < |db.restarts| { StopRound(tr, q, HeldOf(db.restarts[r]), x.lookAt, x.rounds, false); }
      else {
        var view := tr[x.statusAt].db;
        var f := x.freezing.value;
        StopRound(tr, q, Held(view.current, f.key, f.op, RestartIsPending), x.actAt + 1, x.rounds, false);
      }
    }
  }

  lemma {:induction false} StopRound(tr: seq<Sys>, q: Request, h: Held, at: nat, rounds: seq<Round>, again: bool)
    ensures var y := DispatchReply(tr, q, h, at, rounds, again);
            y.Changed? && y.branch.RunStopped? ==> y.branch.readAt < y.when < |tr|
    decreases |rounds|
  {
    hide Retarget, Submit, RunOver, HasRequest;
    if h.status != RestartRejected && rounds != [] && InTime(tr, at, rounds[0]) {
      var r := rounds[0];
      StopRound(tr, q, h.(key := r.newKey, op := RestartGeneric, status := RestartIsPending), r.actAt + 1, rounds[1..],
                again);
      StopRound(tr, q, h, r.actAt, rounds[1..], true);
    }
  }

  lemma MessageLater(tr: seq<Sys>, steps: seq<Step>, epoch: Epoch, q: Request, k: nat, i: nat, j: nat)
    requires About(tr, steps, epoch, q, k) && i <= j < |tr| && HasRequest(tr[i].db.messages, q.id)
    ensures HasRequest(tr[j].db.messages, q.id)
  {
    hide IsRun;
    Onward(tr, steps, epoch, i, j);
    MessagesStay(tr[i].db, tr[j].db, q.id);
  }

  // ----- an input frozen with a ready report -----

  predicate Mentions(step: Step, q: RequestId) {
    match step
    case DirectSubmit(p) => p.id == q
    case RoutedSubmit(p, _) => p.id == q
    case FreezeIntent(p, _, _, _, _, _) => p.id == q
    case _ => false
  }

  /** An input that is only ever asked as a follow-up is no message at any time. */
  lemma {:induction false} NeverSent(tr: seq<Sys>, steps: seq<Step>, epoch: Epoch, q: RequestId, n: nat)
    requires IsRun(tr, steps, epoch) && n < |tr| && forall m :: 0 <= m < |steps| ==> !Mentions(steps[m], q)
    ensures !HasRequest(tr[n].db.messages, q) && !HasRow(tr[n].db, q)
  {
    hide SysInv, Enabled, Apply, HasRequest, HasRow;
    if n == 0 {
      NothingYet(epoch, q);
    } else {
      NeverSent(tr, steps, epoch, q, n - 1);
      Always(tr, steps, epoch, n - 1);
      assert Next(tr[n - 1], steps[n - 1], tr[n - 1 + 1]);
      StaysUnsent(tr[n - 1], steps[n - 1], q);
    }
  }

  lemma NothingYet(epoch: Epoch, q: RequestId)
    ensures !HasRequest(Start(epoch).db.messages, q) && !HasRow(Start(epoch).db, q)
  {}

  lemma StaysUnsent(s: Sys, step: Step, q: RequestId)
    requires SysInv(s) && Enabled(s, step) && s.db.current < |s.db.runs| && !Mentions(step, q)
    requires !HasRequest(s.db.messages, q) && !HasRow(s.db, q)
    ensures !HasRequest(Apply(s, step).db.messages, q) && !HasRow(Apply(s, step).db, q)
  {
    hide SysInv, Inv, Evolves, HasRequest, HasRow, Project, Submit, SubmitEffect, Freeze, Retarget, FinishRestart,
      Enabled;
    Base(s);
    var b := Apply(s, step).db;
    if !SendStep(step) {
      OtherStepsQuiet(s, step);
      StepKeeps(s, step);
      RowsKeepRuns(s.db, b);
      SameRequest(s.db, b, q);
      SameRow(s.db, b, q);
    } else {
      match step
      case DirectSubmit(p) => UnsentSubmit(s.db, p, None, q);
      case RoutedSubmit(p, key) => UnsentSubmit(s.db, p, Some(key), q);
      case CommitCase(cv, record) => UnsentCommit(s, cv, record, q);
      case _ => UnsentIntent(s, step, q);
    }
  }

  lemma SameRow(a: Db, b: Db, q: RequestId)
    requires a.restarts == b.restarts
    ensures HasRow(a, q) <==> HasRow(b, q)
  {}

  lemma UnsentIntent(s: Sys, step: Step, q: RequestId)
    requires SysInv(s) && Enabled(s, step) && s.db.current < |s.db.runs| && !Mentions(step, q)
    requires SendStep(step) && !step.DirectSubmit? && !step.RoutedSubmit? && !step.CommitCase?
    requires !HasRequest(s.db.messages, q) && !HasRow(s.db, q)
    ensures !HasRequest(Apply(s, step).db.messages, q) && !HasRow(Apply(s, step).db, q)
  {
    hide SysInv, Inv, HasRequest, Submit, Project;
  }

  lemma UnsentSubmit(db: Db, p: Request, routed: Option<CommandKey>, q: RequestId)
    requires Inv(db) && db.current < |db.runs| && p.id != q && !HasRequest(db.messages, q) && !HasRow(db, q)
    ensures var r := Submit(db, p, routed); r.Ok? ==> !HasRequest(r.value.messages, q) && !HasRow(r.value, q)
  {
    hide Inv, Submit;
    SubmitChanges(db, p, routed);
  }

  lemma UnsentCommit(s: Sys, cv: CaseView, record: Option<Record>, q: RequestId)
    requires SysInv(s) && Enabled(s, CommitCase(cv, record)) && s.db.current < |s.db.runs|
    requires !HasRequest(s.db.messages, q) && !HasRow(s.db, q)
    ensures var b := Apply(s, CommitCase(cv, record)).db; !HasRequest(b.messages, q) && !HasRow(b, q)
  {
    hide SysInv, Enabled, Evolves, RunFor, Apply, RecordsWith, HasRequest;
    CommitEffect(s, cv, record);
  }
}
