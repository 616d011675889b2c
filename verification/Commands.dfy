/**
 Commands applied exactly once: an optimistic loop of three attempts over a repository that compares and swaps,
 in any interleaving with other commands, their resubmissions, and commits that are no commands at all.
 */
module Commands {
  datatype Option<+T> = None | Some(value: T)

  type CaseId = nat
  type Body = nat

  /** `digest` is the hash of the business request; a command without a Case creates one. */
  datatype Command = Command(op: nat, key: nat, digest: nat, target: Option<CaseId>)

  datatype Receipt = Receipt(op: nat, caseId: CaseId, revision: nat, job: nat)

  datatype Record = Record(digest: nat, receipt: Receipt)

  datatype Case = Case(generation: nat, revision: nat, body: Body)

  datatype Name = Name(op: nat, key: nat)

  /** The repository: Cases under a generation each, and the receipts of all commands. */
  datatype Store = Store(cases: map<CaseId, Case>, records: map<Name, Record>)

  /** Identifiers an execution draws once. */
  datatype Ids = Ids(caseId: CaseId, job: nat)

  datatype Disposition = New | Replay(receipt: Receipt) | Conflict

  function NameOf(c: Command): Name { Name(c.op, c.key) }

  /** Looks one command up in a snapshot. */
  function Decide(records: map<Name, Record>, c: Command): (d: Disposition)
    ensures d.New? <==> NameOf(c) !in records
    ensures d.Replay? <==> NameOf(c) in records && records[NameOf(c)].digest == c.digest
    ensures d.Replay? ==> d.receipt == records[NameOf(c)].receipt
  {
    if NameOf(c) !in records then New
    else if records[NameOf(c)].digest == c.digest then Replay(records[NameOf(c)].receipt)
    else Conflict
  }

  /** What the planning makes of a Case and a command: a new body, or a refusal. */
  type Planner = (Option<Body>, Command, Ids) -> Option<Body>

  /** A commit prepared on a snapshot. */
  datatype Draft = Draft(caseId: CaseId, generation: nat, updated: Case, record: Record)

  function CaseOf(c: Command, ids: Ids): CaseId { if c.target.Some? then c.target.value else ids.caseId }

  function GenerationOf(s: Store, id: CaseId): nat { if id in s.cases then s.cases[id].generation else 0 }

  /** The draft of a command on the Case it finds. */
  function Prepare(s: Store, c: Command, ids: Ids, plan: Planner): Option<Draft> {
    var id := CaseOf(c, ids);
    if c.target.Some? && id !in s.cases then None
    else if c.target.None? && id in s.cases then None
    else
      var before := if id in s.cases then Some(s.cases[id].body) else None;
      var after := plan(before, c, ids);
      if after.None? then None
      else
        var revision := if id in s.cases then s.cases[id].revision + 1 else 1;
        var generation := GenerationOf(s, id);
        Some(Draft(id, generation, Case(generation + 1, revision, after.value),
                   Record(c.digest, Receipt(c.op, id, revision, ids.job))))
  }

  /** Compare and swap: refused when the Case has moved on or the command is already on record. */
  function Swap(s: Store, c: Command, d: Draft): Option<Store> {
    if GenerationOf(s, d.caseId) != d.generation || NameOf(c) in s.records then None
    else Some(Store(s.cases[d.caseId := d.updated], s.records[NameOf(c) := d.record]))
  }

  // ----- executions side by side -----

  datatype Result = Success(receipt: Receipt) | IdempotencyConflict | RevisionConflict | Failed

  datatype Phase = Reading | Ready(draft: Draft) | Finished(result: Result)

  datatype Execution = Execution(command: Command, ids: Option<Ids>, attempt: nat, phase: Phase)

  /** `applied` are the commands whose mutation reached the repository, in order. */
  datatype Sys = Sys(store: Store, runs: map<nat, Execution>, nextId: nat, applied: seq<Name>)

  datatype Step =
    | Begin(w: nat, command: Command)
    | Read(w: nat)
    | Commit(w: nat)
    | LoseStorage(w: nat)
    | OtherCommit(caseId: CaseId, body: Body)

  const ATTEMPTS := 3

  function Move(s: Sys, w: nat, phase: Phase): Sys
    requires w in s.runs
  {
    s.(runs := s.runs[w := s.runs[w].(phase := phase)])
  }

  /** One attempt reads: a replay ends the execution, otherwise the identifiers are drawn once and a draft is made. */
  function ReadStep(s: Sys, w: nat, plan: Planner): Sys
    requires w in s.runs
  {
    var x := s.runs[w];
    match Decide(s.store.records, x.command)
    case Replay(receipt) => Move(s, w, Finished(Success(receipt)))
    case Conflict => Move(s, w, Finished(IdempotencyConflict))
    case New =>
      var ids := if x.ids.Some? then x.ids.value else Ids(s.nextId, s.nextId + 1);
      var s1 := s.(nextId := if x.ids.Some? then s.nextId else s.nextId + 2, runs := s.runs[w := x.(ids := Some(ids))]);
      var draft := Prepare(s.store, x.command, ids, plan);
      Move(s1, w, if draft.None? then Finished(Failed) else Ready(draft.value))
  }

  function CommitStep(s: Sys, w: nat): Sys
    requires w in s.runs && s.runs[w].phase.Ready?
  {
    var x := s.runs[w];
    var store := Swap(s.store, x.command, x.phase.draft);
    if store.Some? then
      Move(s.(store := store.value, applied := s.applied + [NameOf(x.command)]), w,
           Finished(Success(x.phase.draft.record.receipt)))
    else if x.attempt < ATTEMPTS - 1 then s.(runs := s.runs[w := x.(attempt := x.attempt + 1, phase := Reading)])
    else Move(s, w, Finished(RevisionConflict))
  }

  function Apply(s: Sys, step: Step, plan: Planner): Sys {
    match step
    case Begin(w, command) => if w in s.runs then s else s.(runs := s.runs[w := Execution(command, None, 0, Reading)])
    case Read(w) => if w in s.runs && s.runs[w].phase.Reading? then ReadStep(s, w, plan) else s
    case Commit(w) => if w in s.runs && s.runs[w].phase.Ready? then CommitStep(s, w) else s
    case LoseStorage(w) => if w in s.runs && s.runs[w].phase.Ready? then Move(s, w, Finished(Failed)) else s
    case OtherCommit(id, body) =>
      if id !in s.store.cases then s
      else
        var k := s.store.cases[id];
        s.(store := s.store.(cases := s.store.cases[id := Case(k.generation + 1, k.revision + 1, body)]))
  }

  // ----- the invariant -----

  ghost predicate ExecutionOk(s: Sys, x: Execution) {
    && x.attempt < ATTEMPTS
    && (x.phase.Ready? ==> x.ids.Some? && x.phase.draft.record.digest == x.command.digest)
    && (x.phase.Finished? && x.phase.result.Success? ==>
          NameOf(x.command) in s.store.records
          && s.store.records[NameOf(x.command)] == Record(x.command.digest, x.phase.result.receipt))
  }

  function BodyIn(s: Store, id: CaseId): Option<Body> { if id in s.cases then Some(s.cases[id].body) else None }

  function RevisionIn(s: Store, id: CaseId): nat { if id in s.cases then s.cases[id].revision else 0 }

  /** The draft of `c` stands on the Case as `s` has it. */
  predicate StandsOn(s: Store, c: Command, ids: Ids, d: Draft, plan: Planner) {
    && (c.target.Some? <==> d.caseId in s.cases)
    && plan(BodyIn(s, d.caseId), c, ids) == Some(d.updated.body)
    && d.updated.revision == RevisionIn(s, d.caseId) + 1
  }

  /** A draft is of the Case of its command, not of its future, and as long as that has not moved on it stands on it. */
  ghost predicate DraftOk(s: Store, x: Execution, plan: Planner) {
    x.phase.Ready? && x.ids.Some? ==>
      var d := x.phase.draft;
      && d.caseId == CaseOf(x.command, x.ids.value) && d.generation <= GenerationOf(s, d.caseId)
      && d.updated.generation == d.generation + 1
      && d.record.receipt == Receipt(x.command.op, d.caseId, d.updated.revision, x.ids.value.job)
      && (d.generation == GenerationOf(s, d.caseId) ==> StandsOn(s, x.command, x.ids.value, d, plan))
  }

  /** Nothing that exists has the generation of what does not. */
  ghost predicate Current(s: Sys, plan: Planner) {
    && (forall id :: id in s.store.cases ==> s.store.cases[id].generation > 0)
    && (forall w :: w in s.runs ==> DraftOk(s.store, s.runs[w], plan))
  }

  ghost predicate Inv(s: Sys) {
    && (forall w :: w in s.runs ==> ExecutionOk(s, s.runs[w]))
    && (forall i :: 0 <= i < |s.applied| ==> s.applied[i] in s.store.records)
    && (forall n :: n in s.store.records ==> n in s.applied)
    && (forall i, j :: 0 <= i < j < |s.applied| ==> s.applied[i] != s.applied[j])
  }

  /** Receipts are never withdrawn or replaced, and an execution keeps its command and its identifiers. */
  ghost predicate Grows(s: Sys, t: Sys) {
    && (forall n :: n in s.store.records ==> n in t.store.records && t.store.records[n] == s.store.records[n])
    && (forall w :: w in s.runs ==>
          && w in t.runs && t.runs[w].command == s.runs[w].command
          && (s.runs[w].ids.Some? ==> t.runs[w].ids == s.runs[w].ids)
          && (s.runs[w].phase.Finished? ==> t.runs[w] == s.runs[w]))
    && s.applied <= t.applied
  }

  lemma RunKeeps(s: Sys, t: Sys, w: nat)
    requires Inv(s) && w in s.runs && t == s.(runs := t.runs, nextId := t.nextId)
    requires w in t.runs && t.runs == s.runs[w := t.runs[w]] && ExecutionOk(s, t.runs[w])
    ensures Inv(t)
  {}

  lemma ReadKeeps(s: Sys, w: nat, plan: Planner)
    requires Inv(s) && w in s.runs && s.runs[w].phase.Reading?
    ensures Inv(ReadStep(s, w, plan)) && Grows(s, ReadStep(s, w, plan))
  {
    var t := ReadStep(s, w, plan);
    assert ExecutionOk(s, s.runs[w]);
    assert t.runs == s.runs[w := t.runs[w]];
    RunKeeps(s, t, w);
  }

  lemma CommitKeeps(s: Sys, w: nat)
    requires Inv(s) && w in s.runs && s.runs[w].phase.Ready?
    ensures Inv(CommitStep(s, w)) && Grows(s, CommitStep(s, w))
  {
    var t := CommitStep(s, w);
    var x := s.runs[w];
    assert ExecutionOk(s, x);
    if Swap(s.store, x.command, x.phase.draft).None? {
      RunKeeps(s, t, w);
    } else {
      forall v | v in t.runs ensures ExecutionOk(t, t.runs[v]) {
        if v != w { assert ExecutionOk(s, s.runs[v]); }
      }
      assert NameOf(x.command) !in s.applied;
      assert t.applied[|s.applied|] == NameOf(x.command);
    }
  }

  lemma StepKeeps(s: Sys, step: Step, plan: Planner)
    requires Inv(s)
    ensures Inv(Apply(s, step, plan)) && Grows(s, Apply(s, step, plan))
  {
    var t := Apply(s, step, plan);
    match step
    case Begin(w, command) =>
      forall v | v in t.runs ensures ExecutionOk(t, t.runs[v]) { if v in s.runs { assert ExecutionOk(s, s.runs[v]); } }
    case Read(w) => if w in s.runs && s.runs[w].phase.Reading? { ReadKeeps(s, w, plan); }
    case Commit(w) => if w in s.runs && s.runs[w].phase.Ready? { CommitKeeps(s, w); }
    case LoseStorage(w) =>
      if w in s.runs && s.runs[w].phase.Ready? {
        assert ExecutionOk(s, s.runs[w]);
        RunKeeps(s, t, w);
      }
    case OtherCommit(id, body) =>
      forall v | v in t.runs ensures ExecutionOk(t, t.runs[v]) { assert ExecutionOk(s, s.runs[v]); }
  }

  // ----- over every run -----

  function Start(): Sys { Sys(Store(map[], map[]), map[], 0, []) }

  ghost predicate IsRun(tr: seq<Sys>, steps: seq<Step>, plan: Planner) {
    && |tr| == |steps| + 1 && tr[0] == Start()
    && forall i :: 0 <= i < |steps| ==> tr[i + 1] == Apply(tr[i], steps[i], plan)
  }

  lemma {:induction false} Always(tr: seq<Sys>, steps: seq<Step>, plan: Planner, n: nat)
    requires IsRun(tr, steps, plan) && n < |tr|
    ensures Inv(tr[n])
  {
    hide Apply;
    if n > 0 {
      Always(tr, steps, plan, n - 1);
      assert tr[n - 1 + 1] == Apply(tr[n - 1], steps[n - 1], plan);
      StepKeeps(tr[n - 1], steps[n - 1], plan);
    }
  }

  lemma GrowsTrans(a: Sys, b: Sys, c: Sys)
    requires Grows(a, b) && Grows(b, c)
    ensures Grows(a, c)
  {}

  lemma {:induction false} Onward(tr: seq<Sys>, steps: seq<Step>, plan: Planner, m: nat, n: nat)
    requires IsRun(tr, steps, plan) && m <= n < |tr|
    ensures Grows(tr[m], tr[n])
    decreases n
  {
    hide Apply;
    if m < n {
      Onward(tr, steps, plan, m, n - 1);
      Always(tr, steps, plan, n - 1);
      assert tr[n - 1 + 1] == Apply(tr[n - 1], steps[n - 1], plan);
      StepKeeps(tr[n - 1], steps[n - 1], plan);
      hide Grows;
      GrowsTrans(tr[m], tr[n - 1], tr[n]);
    }
  }

  /** A command mutates the state at most once, however often it is submitted, and once if any submission succeeds. */
  lemma AppliedExactlyOnce(tr: seq<Sys>, steps: seq<Step>, plan: Planner, n: nat)
    requires IsRun(tr, steps, plan) && n < |tr|
    ensures forall i, j :: 0 <= i < j < |tr[n].applied| ==> tr[n].applied[i] != tr[n].applied[j]
    ensures forall w :: w in tr[n].runs && tr[n].runs[w].phase.Finished? && tr[n].runs[w].phase.result.Success? ==>
      NameOf(tr[n].runs[w].command) in tr[n].applied
  {
    Always(tr, steps, plan, n);
    forall w | w in tr[n].runs && tr[n].runs[w].phase.Finished? && tr[n].runs[w].phase.result.Success?
      ensures NameOf(tr[n].runs[w].command) in tr[n].applied
    {
      assert ExecutionOk(tr[n], tr[n].runs[w]);
    }
  }

  /** The identifiers of an execution are the same in all its attempts. */
  lemma IdsAreFixed(tr: seq<Sys>, steps: seq<Step>, plan: Planner, m: nat, n: nat, w: nat)
    requires IsRun(tr, steps, plan) && m <= n < |tr| && w in tr[m].runs && tr[m].runs[w].ids.Some?
    ensures w in tr[n].runs && tr[n].runs[w].ids == tr[m].runs[w].ids && tr[n].runs[w].command == tr[m].runs[w].command
  {
    Onward(tr, steps, plan, m, n);
  }

  /** Any two successes under one name are of the same request and return the same receipt. */
  lemma OneReceipt(tr: seq<Sys>, steps: seq<Step>, plan: Planner, m: nat, n: nat, v: nat, w: nat)
    requires IsRun(tr, steps, plan) && m <= n < |tr| && v in tr[m].runs && w in tr[n].runs
    requires NameOf(tr[m].runs[v].command) == NameOf(tr[n].runs[w].command)
    requires tr[m].runs[v].phase.Finished? && tr[m].runs[v].phase.result.Success?
    requires tr[n].runs[w].phase.Finished? && tr[n].runs[w].phase.result.Success?
    ensures tr[m].runs[v].phase.result == tr[n].runs[w].phase.result
    ensures tr[m].runs[v].command.digest == tr[n].runs[w].command.digest
  {
    Always(tr, steps, plan, m);
    Always(tr, steps, plan, n);
    Onward(tr, steps, plan, m, n);
    assert ExecutionOk(tr[m], tr[m].runs[v]) && ExecutionOk(tr[n], tr[n].runs[w]);
  }

  predicate StepOf(step: Step, w: nat) {
    step == Read(w) || step == Commit(w) || step == LoseStorage(w)
  }

  /** A step of an execution that changes the store puts its command on record. */
  lemma MutatesOnce(s: Sys, step: Step, plan: Planner, w: nat)
    requires Inv(s) && w in s.runs && StepOf(step, w)
    ensures var t := Apply(s, step, plan);
            t.store != s.store ==>
              NameOf(s.runs[w].command) in t.store.records
              && t.store.records[NameOf(s.runs[w].command)].digest == s.runs[w].command.digest
  {
    assert ExecutionOk(s, s.runs[w]);
  }

  /**
   A name on record with another body: the execution under it succeeds at no time, none of its own steps, before or
   after, changes the store, and when it ends it ends in a conflict or a failure.
   */
  lemma OtherBodyChangesNothing(tr: seq<Sys>, steps: seq<Step>, plan: Planner, m: nat, n: nat, w: nat)
    requires IsRun(tr, steps, plan) && m < |tr| && n < |tr| && w in tr[n].runs
    requires var c := tr[n].runs[w].command;
             NameOf(c) in tr[m].store.records && tr[m].store.records[NameOf(c)].digest != c.digest
    ensures tr[n].runs[w].phase.Finished? ==> !tr[n].runs[w].phase.result.Success?
    ensures n < |steps| && StepOf(steps[n], w) ==> tr[n + 1].store == tr[n].store
  {
    hide Apply, Inv, Grows;
    var c := tr[n].runs[w].command;
    Always(tr, steps, plan, n);
    if tr[n].runs[w].phase.Finished? && tr[n].runs[w].phase.result.Success? {
      OwnRecord(tr[n], w);
      SameRecord(tr, steps, plan, m, n, NameOf(c));
    }
    if n < |steps| && StepOf(steps[n], w) && tr[n + 1].store != tr[n].store {
      assert tr[n + 1] == Apply(tr[n], steps[n], plan);
      MutatesOnce(tr[n], steps[n], plan, w);
      SameRecord(tr, steps, plan, m, n + 1, NameOf(c));
    }
  }

  lemma OwnRecord(s: Sys, w: nat)
    requires Inv(s) && w in s.runs && s.runs[w].phase.Finished? && s.runs[w].phase.result.Success?
    ensures NameOf(s.runs[w].command) in s.store.records
    ensures s.store.records[NameOf(s.runs[w].command)].digest == s.runs[w].command.digest
  {
    assert ExecutionOk(s, s.runs[w]);
  }

  /** A name has one record in all states of a run. */
  lemma SameRecord(tr: seq<Sys>, steps: seq<Step>, plan: Planner, m: nat, n: nat, name: Name)
    requires IsRun(tr, steps, plan) && m < |tr| && n < |tr|
    requires name in tr[m].store.records && name in tr[n].store.records
    ensures tr[m].store.records[name] == tr[n].store.records[name]
  {
    if m <= n { Onward(tr, steps, plan, m, n); } else { Onward(tr, steps, plan, n, m); }
  }

  /** Every execution ends within three attempts: after a refused third commit there is no fourth. */
  lemma NeverAFourthAttempt(tr: seq<Sys>, steps: seq<Step>, plan: Planner, n: nat, w: nat)
    requires IsRun(tr, steps, plan) && n < |tr| && w in tr[n].runs
    ensures tr[n].runs[w].attempt < ATTEMPTS
    ensures tr[n].runs[w].phase.Ready? && tr[n].runs[w].attempt == ATTEMPTS - 1 ==>
      Apply(tr[n], Commit(w), plan).runs[w].phase.Finished?
  {
    Always(tr, steps, plan, n);
    assert ExecutionOk(tr[n], tr[n].runs[w]);
  }

  // ----- what becomes of a Case -----

  lemma CurrentKeeps(s: Sys, step: Step, plan: Planner)
    requires Inv(s) && Current(s, plan)
    ensures Current(Apply(s, step, plan), plan)
  {
    var t := Apply(s, step, plan);
    forall v | v in t.runs ensures DraftOk(t.store, t.runs[v], plan) {
      if v in s.runs { assert DraftOk(s.store, s.runs[v], plan) && ExecutionOk(s, s.runs[v]); }
    }
    forall id | id in t.store.cases ensures t.store.cases[id].generation > 0 {
      if step.Commit? && step.w in s.runs {
        assert DraftOk(s.store, s.runs[step.w], plan) && ExecutionOk(s, s.runs[step.w]);
      }
    }
  }

  lemma {:induction false} AlwaysCurrent(tr: seq<Sys>, steps: seq<Step>, plan: Planner, n: nat)
    requires IsRun(tr, steps, plan) && n < |tr|
    ensures Current(tr[n], plan)
  {
    hide Apply, Inv;
    if n > 0 {
      AlwaysCurrent(tr, steps, plan, n - 1);
      Always(tr, steps, plan, n - 1);
      assert tr[n - 1 + 1] == Apply(tr[n - 1], steps[n - 1], plan);
      hide Current;
      CurrentKeeps(tr[n - 1], steps[n - 1], plan);
    }
  }

  /** Execution `w` commits its command between the two states. */
  predicate Commits(s: Sys, t: Sys, step: Step, w: nat) {
    && step == Commit(w) && w in s.runs && w in t.runs && s.runs[w].phase.Ready? && s.runs[w].ids.Some?
    && t.runs[w].phase.Finished? && t.runs[w].phase.result.Success?
  }

  /**
   A success of this very step: the command was not on record, the Case goes from what it was in the state just
   before to what the planning makes of that, its revision rises by one, and the receipt says so.
   */
  lemma CommitStandsOn(s: Sys, step: Step, plan: Planner, w: nat)
    requires Inv(s) && Current(s, plan) && Commits(s, Apply(s, step, plan), step, w)
    ensures var t := Apply(s, step, plan);
            var c, ids := s.runs[w].command, s.runs[w].ids.value;
            var id := CaseOf(c, ids);
            && NameOf(c) !in s.store.records && (c.target.Some? <==> id in s.store.cases)
            && id in t.store.cases && plan(BodyIn(s.store, id), c, ids) == Some(t.store.cases[id].body)
            && t.store.cases == s.store.cases[id := t.store.cases[id]]
            && RevisionIn(t.store, id) == RevisionIn(s.store, id) + 1
            && t.runs[w].phase.result.receipt == Receipt(c.op, id, RevisionIn(t.store, id), ids.job)
            && t.store.records == s.store.records[NameOf(c) := Record(c.digest, t.runs[w].phase.result.receipt)]
  {
    assert ExecutionOk(s, s.runs[w]) && DraftOk(s.store, s.runs[w], plan);
  }

  /** No other step changes a Case, but for the commits that are no commands. */
  lemma OnlyCommitsChange(s: Sys, step: Step, plan: Planner)
    requires Inv(s)
    requires !(exists w :: Commits(s, Apply(s, step, plan), step, w))
    ensures var t := Apply(s, step, plan);
            t.store.cases == if step.OtherCommit? && step.caseId in s.store.cases
                             then s.store.cases[step.caseId := Case(GenerationOf(s.store, step.caseId) + 1,
                                                                    RevisionIn(s.store, step.caseId) + 1, step.body)]
                             else s.store.cases
  {
    var t := Apply(s, step, plan);
    if step.Commit? && step.w in s.runs {
      assert ExecutionOk(s, s.runs[step.w]);
      assert !Commits(s, t, step, step.w);
    }
  }

  /** The command can be planned on the store: its Case is there, or not yet if it creates one. */
  predicate Plannable(s: Store, c: Command, ids: Ids, plan: Planner) {
    var id := CaseOf(c, ids);
    (c.target.Some? <==> id in s.cases) && plan(BodyIn(s, id), c, ids).Some?
  }

  /** Left alone between its read and its commit, an execution succeeds iff it is a replay or can be planned. */
  lemma UndisturbedSucceeds(s: Sys, plan: Planner, w: nat)
    requires Inv(s) && w in s.runs && s.runs[w].phase.Reading?
    ensures var t := Apply(Apply(s, Read(w), plan), Commit(w), plan); var c := s.runs[w].command;
            && w in t.runs && t.runs[w].phase.Finished?
            && (NameOf(c) in s.store.records ==>
                  (t.runs[w].phase.result.Success? <==> s.store.records[NameOf(c)].digest == c.digest))
            && (NameOf(c) !in s.store.records ==>
                  t.runs[w].ids.Some?
                  && (t.runs[w].phase.result.Success? <==> Plannable(s.store, c, t.runs[w].ids.value, plan)))
  {}

  /** An execution gives up over a revision conflict only in its third attempt. */
  ghost predicate Stubborn(s: Sys) {
    forall w :: w in s.runs && s.runs[w].phase == Finished(RevisionConflict) ==> s.runs[w].attempt == ATTEMPTS - 1
  }

  lemma {:induction false} ThreeAttempts(tr: seq<Sys>, steps: seq<Step>, plan: Planner, n: nat)
    requires IsRun(tr, steps, plan) && n < |tr|
    ensures Stubborn(tr[n])
  {
    if n > 0 {
      ThreeAttempts(tr, steps, plan, n - 1);
      Always(tr, steps, plan, n - 1);
      assert tr[n - 1 + 1] == Apply(tr[n - 1], steps[n - 1], plan);
      StubbornKeeps(tr[n - 1], steps[n - 1], plan);
    }
  }

  lemma StubbornKeeps(s: Sys, step: Step, plan: Planner)
    requires Inv(s) && Stubborn(s)
    ensures Stubborn(Apply(s, step, plan))
  {
    if (step.Read? || step.Commit? || step.LoseStorage?) && step.w in s.runs { assert ExecutionOk(s, s.runs[step.w]); }
  }

  datatype Content = Content(body: Option<Body>, revision: nat)

  /** A Case by its history alone: every successful commit is planned on what all those before it have left. */
  ghost function Folded(tr: seq<Sys>, steps: seq<Step>, plan: Planner, id: CaseId, n: nat): Content
    requires n <= |steps| && |steps| + 1 == |tr|
  {
    if n == 0 then Content(None, 0)
    else
      var before := Folded(tr, steps, plan, id, n - 1);
      match steps[n - 1]
      case Commit(w) =>
        if Commits(tr[n - 1], tr[n], steps[n - 1], w)
           && CaseOf(tr[n - 1].runs[w].command, tr[n - 1].runs[w].ids.value) == id
        then Content(plan(before.body, tr[n - 1].runs[w].command, tr[n - 1].runs[w].ids.value), before.revision + 1)
        else before
      case OtherCommit(other, body) =>
        if other == id && before.body.Some? then Content(Some(body), before.revision + 1) else before
      case _ => before
  }

  /**
   In every state of every run each Case is the fold of all commands applied to it and of all other commits, in the
   order of their commits: nothing applied is ever overwritten by a commit prepared on an older Case.
   */
  lemma {:induction false} NoLostUpdate(tr: seq<Sys>, steps: seq<Step>, plan: Planner, id: CaseId, n: nat)
    requires IsRun(tr, steps, plan) && n < |tr|
    ensures Content(BodyIn(tr[n].store, id), RevisionIn(tr[n].store, id)) == Folded(tr, steps, plan, id, n)
  {
    hide Apply, Inv, Current;
    if n > 0 {
      NoLostUpdate(tr, steps, plan, id, n - 1);
      Always(tr, steps, plan, n - 1);
      AlwaysCurrent(tr, steps, plan, n - 1);
      var s, step := tr[n - 1], steps[n - 1];
      assert tr[n - 1 + 1] == Apply(s, step, plan);
      if w :| Commits(s, Apply(s, step, plan), step, w) {
        CommitStandsOn(s, step, plan, w);
      } else {
        OnlyCommitsChange(s, step, plan);
      }
    }
  }

  /** A revision stands for one content: it never falls, and while it stays the body stays. */
  lemma {:induction false} RevisionsRise(tr: seq<Sys>, steps: seq<Step>, plan: Planner, id: CaseId, m: nat, n: nat)
    requires IsRun(tr, steps, plan) && m <= n < |tr|
    ensures RevisionIn(tr[m].store, id) <= RevisionIn(tr[n].store, id)
    ensures RevisionIn(tr[m].store, id) == RevisionIn(tr[n].store, id) ==>
      BodyIn(tr[m].store, id) == BodyIn(tr[n].store, id)
    decreases n
  {
    if m < n {
      RevisionsRise(tr, steps, plan, id, m, n - 1);
      NoLostUpdate(tr, steps, plan, id, n - 1);
      NoLostUpdate(tr, steps, plan, id, n);
      hide Apply;
    }
  }

  // ----- the loop of one execution -----

  /** What other executions did to the store between a read and the commit after it. */
  ghost predicate Meddled(a: Store, b: Store) {
    && (forall n :: n in a.records ==> n in b.records && b.records[n] == a.records[n])
    && (forall id :: id in a.cases ==>
          && id in b.cases && a.cases[id].generation <= b.cases[id].generation
          && (a.cases[id].generation == b.cases[id].generation ==> a.cases[id] == b.cases[id]))
    && (forall id :: id in b.cases && id !in a.cases ==> b.cases[id].generation > 0)
  }

  lemma MeddledTrans(a: Store, b: Store, c: Store)
    requires Meddled(a, b) && Meddled(b, c)
    ensures Meddled(a, c)
  {}

  lemma StepMeddles(s: Sys, step: Step, plan: Planner)
    requires Inv(s) && Current(s, plan)
    ensures Meddled(s.store, Apply(s, step, plan).store)
  {
    if step.Commit? && step.w in s.runs {
      assert ExecutionOk(s, s.runs[step.w]) && DraftOk(s.store, s.runs[step.w], plan);
    }
  }

  /** Between any two states of a run the stores are related as `Execute` supposes of the others. */
  lemma {:induction false} RunsMeddle(tr: seq<Sys>, steps: seq<Step>, plan: Planner, m: nat, n: nat)
    requires IsRun(tr, steps, plan) && m <= n < |tr|
    ensures Meddled(tr[m].store, tr[n].store)
    decreases n
  {
    hide Apply, Inv, Current, Meddled;
    if m < n {
      RunsMeddle(tr, steps, plan, m, n - 1);
      Always(tr, steps, plan, n - 1);
      AlwaysCurrent(tr, steps, plan, n - 1);
      assert tr[n - 1 + 1] == Apply(tr[n - 1], steps[n - 1], plan);
      StepMeddles(tr[n - 1], steps[n - 1], plan);
      MeddledTrans(tr[m].store, tr[n - 1].store, tr[n].store);
    } else {
      MeddledSelf(tr[m].store);
    }
  }

  lemma MeddledSelf(a: Store)
    ensures Meddled(a, a)
  {}

  /** `b` is `a` with the command applied to the Case as `a` has it, and the receipt on record. */
  ghost predicate AppliedOn(a: Store, b: Store, c: Command, ids: Ids, plan: Planner, receipt: Receipt) {
    var id := CaseOf(c, ids);
    && id in b.cases && b.cases == a.cases[id := b.cases[id]]
    && plan(BodyIn(a, id), c, ids) == Some(b.cases[id].body) && RevisionIn(b, id) == RevisionIn(a, id) + 1
    && GenerationOf(b, id) == GenerationOf(a, id) + 1
    && receipt == Receipt(c.op, id, RevisionIn(b, id), ids.job)
    && NameOf(c) !in a.records && b.records == a.records[NameOf(c) := Record(c.digest, receipt)]
  }

  lemma SwapApplies(read: Store, met: Store, c: Command, ids: Ids, plan: Planner)
    requires Meddled(read, met) && Prepare(read, c, ids, plan).Some?
    ensures var d := Prepare(read, c, ids, plan).value; var b := Swap(met, c, d);
            b.Some? ==> AppliedOn(met, b.value, c, ids, plan, d.record.receipt)
  {}

  lemma Undisturbed(s: Store, c: Command, ids: Ids, plan: Planner)
    requires NameOf(c) !in s.records && Plannable(s, c, ids, plan)
    ensures var d := Prepare(s, c, ids, plan); d.Some? && Swap(s, c, d.value).Some?
  {}

  lemma MeddledRecords(a: Store, b: Store)
    requires Meddled(a, b)
    ensures forall n :: n in a.records ==> n in b.records && b.records[n] == a.records[n]
  {}

  class Repository {
    var store: Store

    constructor ()
      ensures store == Store(map[], map[])
    {
      store := Store(map[], map[]);
    }

    method CompareAndSwap(c: Command, d: Draft) returns (ok: bool)
      modifies this
      ensures ok <==> Swap(old(store), c, d).Some?
      ensures store == if ok then Swap(old(store), c, d).value else old(store)
    {
      if GenerationOf(store, d.caseId) != d.generation || NameOf(c) in store.records { return false; }
      store := Store(store.cases[d.caseId := d.updated], store.records[NameOf(c) := d.record]);
      return true;
    }

    /**
     The three attempts.  `others` is what the repository looks like when the next commit of this execution
     arrives, chosen freely among the stores other executions can have made of it.
     */
    method Execute(c: Command, plan: Planner, drawn: Ids, others: seq<Store>) returns (r: Result, swaps: nat)
      requires |others| == ATTEMPTS
      requires Meddled(store, others[0]) && Meddled(others[0], others[1]) && Meddled(others[1], others[2])
      modifies this
      ensures swaps <= 1
      ensures r.Success? ==>
        NameOf(c) in store.records && store.records[NameOf(c)] == Record(c.digest, r.receipt)
      ensures swaps == 1 ==>
        && r.Success? && NameOf(c) !in old(store).records
        && exists a :: 0 <= a < ATTEMPTS && AppliedOn(others[a], store, c, drawn, plan, r.receipt)
      ensures NameOf(c) !in old(store).records && others[0] == old(store) && Plannable(old(store), c, drawn, plan) ==>
        swaps == 1
      ensures swaps == 0 ==> store == old(store) || exists a :: 0 <= a < ATTEMPTS && store == others[a]
      ensures forall n :: n in old(store).records ==> n in store.records && store.records[n] == old(store).records[n]
      ensures NameOf(c) in old(store).records ==>
        swaps == 0 && store == old(store)
        && r == if old(store).records[NameOf(c)].digest == c.digest then Success(old(store).records[NameOf(c)].receipt)
                else IdempotencyConflict
    {
      hide Meddled, Swap, Prepare, Plannable;
      ghost var alone := NameOf(c) !in store.records && others[0] == store && Plannable(store, c, drawn, plan);
      if alone { Undisturbed(store, c, drawn, plan); }
      swaps := 0;
      var ids: Option<Ids> := None;
      for attempt := 0 to ATTEMPTS
        invariant attempt < ATTEMPTS ==> Meddled(store, others[attempt])
        invariant swaps == 0 && (attempt == 0 ==> store == old(store))
        invariant attempt > 0 ==> !alone
        invariant attempt > 0 ==> store == others[attempt - 1] && NameOf(c) !in old(store).records
        invariant ids.Some? ==> ids.value == drawn
        invariant forall n :: n in old(store).records ==>
          n in store.records && store.records[n] == old(store).records[n]
        invariant attempt < ATTEMPTS
      {
        var decision := Decide(store.records, c);
        if decision.Conflict? { return IdempotencyConflict, 0; }
        if decision.Replay? { return Success(decision.receipt), 0; }
        if ids.None? { ids := Some(drawn); }
        var draft := Prepare(store, c, ids.value, plan);
        if draft.None? { return Failed, 0; }
        ghost var read := store;
        store := others[attempt];
        SwapApplies(read, store, c, drawn, plan);
        MeddledRecords(read, store);
        var ok := CompareAndSwap(c, draft.value);
        if ok { return Success(draft.value.record.receipt), 1; }
        if attempt == ATTEMPTS - 1 { return RevisionConflict, 0; }
      }
      // the loop has no way out but a return
      assert false;
    }
  }
}
