/**
 Applying an accepted delta to the state of a diagnosis, with one shared revision step.
 */
module Diagnosis {
  import opened Supersedes

  datatype Option<+T> = None | Some(value: T)

  datatype Outcome<+T> = Ok(value: T) | Err

  datatype ItemStatus = ItemActive | ItemResolved | ItemRejected | ItemSuperseded

  datatype Provenance = FromUser(input: Option<nat>) | FromAgent

  datatype Item = Item(id: Id, statement: nat, status: ItemStatus, provenance: Provenance, refs: seq<Id>,
                       created: nat, supersedes: seq<Id>)

  /** Evidence named by its own identifier or by the proposal that brought it. */
  datatype Binding = Existing(id: Id) | Proposed(key: nat) | Blank

  datatype Draft = Draft(id: Id, statement: nat, provenance: Provenance, bindings: seq<Binding>, supersedes: seq<Id>)

  datatype Change = Change(id: Id, statement: Option<nat>, bindings: seq<Binding>)

  datatype RequirementKind = InputKind | AttachmentKind

  datatype RequirementStatus = IsOpen | IsFulfilled

  datatype Requirement = Requirement(id: Id, name: nat, kind: RequirementKind, status: RequirementStatus,
                                     sources: seq<Id>)

  datatype Fulfillment = Fulfillment(id: Id, sources: seq<Id>)

  datatype CandidateStatus = CandidateProposed | CandidateReviewing | CandidateRejected | CandidateAccepted

  datatype Candidate = Candidate(id: Id, revision: nat, content: nat, status: CandidateStatus, criteria: seq<nat>,
                                 refs: seq<Id>)

  datatype CandidateTarget = CandidateTarget(id: Id, revision: nat, content: nat)

  datatype Mutation =
    | Install(key: Option<nat>, status: CandidateStatus)
    | SetStatus(target: Option<CandidateTarget>, expected: CandidateStatus, status: CandidateStatus)

  datatype Spec = Spec(revision: nat, criteria: seq<nat>, content: nat)

  datatype State = State(revision: nat, spec: Spec, userFacts: seq<Item>, confirmed: seq<Item>, active: seq<Item>,
                         rejected: seq<Item>, questions: seq<Item>, requirements: seq<Requirement>, evidence: seq<Id>,
                         candidate: Option<Candidate>)

  /** `spec` is the specification after the patch, where the delta has one. */
  datatype Delta = Delta(spec: Option<Spec>, userFacts: seq<Item>, facts: seq<Draft>, updates: seq<Change>,
                         rejections: seq<Change>, hypotheses: seq<Draft>, resolutions: seq<Change>,
                         questions: seq<Draft>, fulfillments: seq<Fulfillment>, requirements: seq<Requirement>,
                         evidence: seq<Binding>)

  /** What the plan around a delta supplies. */
  datatype Plan = Plan(evidence: map<nat, Id>, candidates: map<nat, Candidate>, mutation: Option<Mutation>,
                       expected: Option<nat>)

  // ----- small sequences -----

  predicate Distinct(s: seq<Id>) { forall i, j :: 0 <= i < j < |s| ==> s[i] != s[j] }

  function ItemIds(items: seq<Item>): (r: seq<Id>)
    ensures |r| == |items| && forall i :: 0 <= i < |r| ==> r[i] == items[i].id
  {
    seq(|items|, i requires 0 <= i < |items| => items[i].id)
  }

  function DraftIds(drafts: seq<Draft>): (r: seq<Id>)
    ensures |r| == |drafts| && forall i :: 0 <= i < |r| ==> r[i] == drafts[i].id
  {
    seq(|drafts|, i requires 0 <= i < |drafts| => drafts[i].id)
  }

  function ChangeIds(changes: seq<Change>): (r: seq<Id>)
    ensures |r| == |changes| && forall i :: 0 <= i < |r| ==> r[i] == changes[i].id
  {
    seq(|changes|, i requires 0 <= i < |changes| => changes[i].id)
  }

  function InsertItem(items: seq<Item>, item: Item): (r: seq<Item>)
    ensures multiset(r) == multiset(items) + multiset{item}
  {
    if items == [] || item.id < items[0].id then [item] + items
    else
      assert items == [items[0]] + items[1..];
      [items[0]] + InsertItem(items[1..], item)
  }

  /** New items enter in the order of their identifiers, after those already there. */
  function SortItems(items: seq<Item>): (r: seq<Item>)
    ensures multiset(r) == multiset(items)
  {
    if items == [] then []
    else
      assert items == items[..|items| - 1] + [items[|items| - 1]];
      InsertItem(SortItems(items[..|items| - 1]), items[|items| - 1])
  }

  function AppendItems(existing: seq<Item>, more: seq<Item>): seq<Item> { existing + SortItems(more) }

  /** Inserts a value that is not there yet. */
  function InsertId(s: seq<Id>, x: Id): (r: seq<Id>)
    ensures forall v :: v in r <==> v in s || v == x
    ensures Distinct(s) && x !in s ==> Distinct(r)
  {
    if s == [] || x < s[0] then [x] + s
    else
      var rest := InsertId(s[1..], x);
      assert s == [s[0]] + s[1..];
      assert forall i :: 0 <= i < |rest| ==> rest[i] in rest;
      [s[0]] + rest
  }

  function SortIds(s: seq<Id>): (r: seq<Id>)
    ensures forall v :: v in r <==> v in s
  {
    if s == [] then []
    else
      assert s == s[..|s| - 1] + [s[|s| - 1]];
      InsertId(SortIds(s[..|s| - 1]), s[|s| - 1])
  }

  /** The incoming references that are new, each once and in order, after the existing ones. */
  function NewRefs(existing: seq<Id>, incoming: seq<Id>): (r: seq<Id>)
    ensures forall v :: v in r <==> v in incoming && v !in existing
    ensures Distinct(r)
  {
    if incoming == [] then []
    else
      var n := |incoming| - 1;
      assert incoming == incoming[..n] + [incoming[n]];
      var rest := NewRefs(existing, incoming[..n]);
      if incoming[n] in existing || incoming[n] in rest then rest else InsertId(rest, incoming[n])
  }

  function MergeRefs(existing: seq<Id>, incoming: seq<Id>): (r: seq<Id>)
    ensures existing <= r && (forall v :: v in r <==> v in existing || v in incoming)
    ensures Distinct(existing) ==> Distinct(r)
  {
    var more := NewRefs(existing, incoming);
    assert forall i :: 0 <= i < |more| ==> more[i] in more;
    existing + more
  }

  // ----- the steps -----

  function ResolveOne(binding: Binding, known: seq<Id>, plan: Plan): Outcome<Id> {
    match binding
    case Existing(id) => if id in known then Ok(id) else Err
    case Proposed(key) => if key in plan.evidence then Ok(plan.evidence[key]) else Err
    case Blank => Err
  }

  /** Every binding must resolve; each reference is kept at its first place. */
  function Resolve(bindings: seq<Binding>, known: seq<Id>, plan: Plan): (r: Outcome<seq<Id>>)
    ensures r.Ok? ==> Distinct(r.value)
  {
    if bindings == [] then Ok([])
    else
      var n := |bindings| - 1;
      var before := Resolve(bindings[..n], known, plan);
      var last := ResolveOne(bindings[n], known, plan);
      if before.Err? || last.Err? then Err
      else if last.value in before.value then before
      else Ok(before.value + [last.value])
  }

  function FromDraft(draft: Draft, created: nat, known: seq<Id>, plan: Plan): (r: Outcome<Item>)
    ensures r.Ok? ==> r.value.id == draft.id && r.value.created == created && r.value.status == ItemActive
                      && forall t :: t in r.value.supersedes <==> t in draft.supersedes
  {
    match Resolve(draft.bindings, known, plan)
    case Err => Err
    case Ok(refs) =>
      Ok(Item(draft.id, draft.statement, ItemActive, draft.provenance, refs, created, SortIds(draft.supersedes)))
  }

  function FromDrafts(drafts: seq<Draft>, created: nat, known: seq<Id>, plan: Plan): (r: Outcome<seq<Item>>)
    ensures r.Ok? ==> |r.value| == |drafts|
    ensures r.Ok? ==> forall i :: 0 <= i < |drafts| ==>
      && r.value[i].id == drafts[i].id && r.value[i].created == created && r.value[i].status == ItemActive
      && forall t :: t in r.value[i].supersedes <==> t in drafts[i].supersedes
  {
    if drafts == [] then Ok([])
    else
      var n := |drafts| - 1;
      var before := FromDrafts(drafts[..n], created, known, plan);
      var last := FromDraft(drafts[n], created, known, plan);
      if before.Err? || last.Err? then Err else Ok(before.value + [last.value])
  }

  function IndexOf(items: seq<Item>, id: Id): (k: nat)
    ensures k <= |items| && (k < |items| ==> items[k].id == id)
    ensures k == |items| ==> forall i :: 0 <= i < |items| ==> items[i].id != id
  {
    if items == [] then 0
    else if items[|items| - 1].id == id then |items| - 1
    else
      var k := IndexOf(items[..|items| - 1], id);
      if k == |items| - 1 then |items| else k
  }

  function Changed(item: Item, change: Change, status: ItemStatus, known: seq<Id>, plan: Plan): (r: Outcome<Item>)
    ensures r.Ok? ==> item.refs <= r.value.refs
                      && r.value == item.(statement := r.value.statement, status := status, refs := r.value.refs)
  {
    match Resolve(change.bindings, known, plan)
    case Err => Err
    case Ok(refs) =>
      Ok(item.(statement := if change.statement.Some? then change.statement.value else item.statement,
               status := status, refs := MergeRefs(item.refs, refs)))
  }

  /** One hypothesis is rewritten in place. */
  function Update(active: seq<Item>, change: Change, known: seq<Id>, plan: Plan): (r: Outcome<seq<Item>>)
    ensures r.Ok? ==> ItemIds(r.value) == ItemIds(active)
    ensures r.Ok? ==> forall i :: 0 <= i < |active| ==>
      r.value[i].supersedes == active[i].supersedes && r.value[i].created == active[i].created
  {
    var k := IndexOf(active, change.id);
    if k == |active| then Err
    else
      match Changed(active[k], change, ItemActive, known, plan)
      case Err => Err
      case Ok(item) => Ok(active[k := item])
  }

  function UpdateAll(active: seq<Item>, changes: seq<Change>, known: seq<Id>, plan: Plan): (r: Outcome<seq<Item>>)
    ensures r.Ok? ==> ItemIds(r.value) == ItemIds(active)
    ensures r.Ok? ==> forall i :: 0 <= i < |active| ==>
      r.value[i].supersedes == active[i].supersedes && r.value[i].created == active[i].created
  {
    if changes == [] then Ok(active)
    else
      match UpdateAll(active, changes[..|changes| - 1], known, plan)
      case Err => Err
      case Ok(before) => Update(before, changes[|changes| - 1], known, plan)
  }

  function Rejected(active: seq<Item>, changes: seq<Change>, known: seq<Id>, plan: Plan): (r: Outcome<seq<Item>>)
    ensures r.Ok? ==> ItemIds(r.value) == ChangeIds(changes)
    ensures r.Ok? ==> forall i :: 0 <= i < |changes| ==>
      && r.value[i].status == ItemRejected
      && exists k :: 0 <= k < |active| && active[k].id == changes[i].id
                     && r.value[i].supersedes == active[k].supersedes && r.value[i].created == active[k].created
  {
    if changes == [] then Ok([])
    else
      var n := |changes| - 1;
      var before := Rejected(active, changes[..n], known, plan);
      var k := IndexOf(active, changes[n].id);
      if before.Err? || k == |active| then Err
      else
        match Changed(active[k], changes[n], ItemRejected, known, plan)
        case Err => Err
        case Ok(item) => Ok(before.value + [item])
  }

  function Without(items: seq<Item>, ids: seq<Id>): (r: seq<Item>)
    ensures forall item :: item in r <==> item in items && item.id !in ids
  {
    if items == [] then []
    else
      var n := |items| - 1;
      assert items == items[..n] + [items[n]];
      Without(items[..n], ids) + (if items[n].id in ids then [] else [items[n]])
  }

  function RequirementAt(rs: seq<Requirement>, id: Id): (k: nat)
    ensures k <= |rs| && (k < |rs| ==> rs[k].id == id)
  {
    if rs == [] then 0
    else if rs[|rs| - 1].id == id then |rs| - 1
    else
      var k := RequirementAt(rs[..|rs| - 1], id);
      if k == |rs| - 1 then |rs| else k
  }

  /** A requirement moves from OPEN to FULFILLED, or not at all. */
  predicate RequirementStep(a: Requirement, b: Requirement) {
    b == a || (a.status == IsOpen && b == a.(status := IsFulfilled, sources := b.sources))
  }

  function Fulfill(rs: seq<Requirement>, f: Fulfillment): (r: Outcome<seq<Requirement>>)
    ensures r.Ok? ==> |r.value| == |rs| && forall i :: 0 <= i < |rs| ==> RequirementStep(rs[i], r.value[i])
  {
    var k := RequirementAt(rs, f.id);
    if k == |rs| || rs[k].status != IsOpen then Err
    else Ok(rs[k := rs[k].(status := IsFulfilled, sources := f.sources)])
  }

  function FulfillAll(rs: seq<Requirement>, fs: seq<Fulfillment>): (r: Outcome<seq<Requirement>>)
    ensures r.Ok? ==> |r.value| == |rs| && forall i :: 0 <= i < |rs| ==> RequirementStep(rs[i], r.value[i])
  {
    if fs == [] then Ok(rs)
    else
      match FulfillAll(rs, fs[..|fs| - 1])
      case Err => Err
      case Ok(before) => Fulfill(before, fs[|fs| - 1])
  }

  function FulfillmentIds(fs: seq<Fulfillment>): (r: seq<Id>)
    ensures |r| == |fs| && forall i :: 0 <= i < |r| ==> r[i] == fs[i].id
  {
    seq(|fs|, i requires 0 <= i < |fs| => fs[i].id)
  }

  function ApplyMutation(current: Option<Candidate>, plan: Plan): Outcome<Option<Candidate>> {
    match plan.mutation
    case None => Ok(current)
    case Some(Install(key, status)) =>
      if key.None? || key.value !in plan.candidates then Err
      else
        var c := plan.candidates[key.value];
        if c.status != CandidateProposed then Err
        else if (current.None? || current.value.id != c.id) && c.revision != 1 then Err
        else if current.Some? && current.value.id == c.id && c.revision != current.value.revision + 1 then Err
        else Ok(Some(c.(status := status)))
    case Some(SetStatus(target, expected, status)) =>
      if current.None? || target.None?
         || CandidateTarget(current.value.id, current.value.revision, current.value.content) != target.value
         || current.value.status != expected then Err
      else Ok(Some(current.value.(status := status)))
  }

  // ----- the whole delta -----

  function AllItems(s: State): seq<Item> { s.userFacts + s.confirmed + s.active + s.rejected + s.questions }

  function Drafts(delta: Delta): seq<Draft> { delta.facts + delta.hypotheses + delta.questions }

  function NewIds(delta: Delta): seq<Id> { ItemIds(delta.userFacts) + DraftIds(Drafts(delta)) }

  function ChangedIds(delta: Delta): seq<Id> {
    ChangeIds(delta.updates) + ChangeIds(delta.rejections) + ChangeIds(delta.resolutions)
  }

  predicate AdmissibleIds(current: State, delta: Delta) {
    && Distinct(NewIds(delta)) && (forall id :: id in NewIds(delta) ==> id !in ItemIds(AllItems(current)))
    && Distinct(ChangedIds(delta)) && forall id :: id in ChangedIds(delta) ==> id !in NewIds(delta)
  }

  function ItemNodes(items: seq<Item>): (r: seq<Node>)
    ensures |r| == |items| && forall i :: 0 <= i < |r| ==> r[i] == Node(items[i].id, items[i].supersedes)
  {
    seq(|items|, i requires 0 <= i < |items| => Node(items[i].id, items[i].supersedes))
  }

  function DraftNodes(drafts: seq<Draft>): (r: seq<Node>)
    ensures |r| == |drafts| && forall i :: 0 <= i < |r| ==> r[i] == Node(drafts[i].id, drafts[i].supersedes)
  {
    seq(|drafts|, i requires 0 <= i < |drafts| => Node(drafts[i].id, drafts[i].supersedes))
  }

  function Hypotheses(current: State, delta: Delta, plan: Plan): Outcome<(seq<Item>, seq<Item>)> {
    match UpdateAll(current.active, delta.updates, current.evidence, plan)
    case Err => Err
    case Ok(updated) =>
      var out := Rejected(updated, delta.rejections, current.evidence, plan);
      var more := FromDrafts(delta.hypotheses, current.revision + 1, current.evidence, plan);
      if out.Err? || more.Err? then Err
      else Ok((AppendItems(Without(updated, ChangeIds(delta.rejections)), more.value),
               AppendItems(current.rejected, out.value)))
  }

  predicate ResolvesAll(changes: seq<Change>, known: seq<Id>, plan: Plan) {
    forall i :: 0 <= i < |changes| ==> Resolve(changes[i].bindings, known, plan).Ok?
  }

  function Questions(current: State, delta: Delta, plan: Plan): Outcome<seq<Item>> {
    var more := FromDrafts(delta.questions, current.revision + 1, current.evidence, plan);
    if !(forall id :: id in ChangeIds(delta.resolutions) ==> id in ItemIds(current.questions)) then Err
    else if !ResolvesAll(delta.resolutions, current.evidence, plan) || more.Err? then Err
    else Ok(AppendItems(Without(current.questions, ChangeIds(delta.resolutions)), more.value))
  }

  function RequirementIds(rs: seq<Requirement>): (r: seq<Id>)
    ensures |r| == |rs| && forall i :: 0 <= i < |r| ==> r[i] == rs[i].id
  {
    seq(|rs|, i requires 0 <= i < |rs| => rs[i].id)
  }

  function Requirements(current: State, delta: Delta): Outcome<seq<Requirement>> {
    var known := RequirementIds(current.requirements);
    if !Distinct(FulfillmentIds(delta.fulfillments)) then Err
    else
      match FulfillAll(current.requirements, delta.fulfillments)
      case Err => Err
      case Ok(rs) =>
        if exists id :: id in RequirementIds(delta.requirements) && id in known then Err
        else Ok(rs + delta.requirements)
  }

  /** The state with the delta in it, under the old revision. */
  function Assembled(current: State, delta: Delta, plan: Plan): Outcome<State> {
    var facts := FromDrafts(delta.facts, current.revision + 1, current.evidence, plan);
    var hypotheses := Hypotheses(current, delta, plan);
    var questions := Questions(current, delta, plan);
    var requirements := Requirements(current, delta);
    var added := Resolve(delta.evidence, current.evidence, plan);
    var candidate := ApplyMutation(current.candidate, plan);
    if exists i :: 0 <= i < |delta.userFacts| && delta.userFacts[i].created != current.revision + 1 then Err
    else if facts.Err? || hypotheses.Err? || questions.Err? || requirements.Err? || added.Err?
            || candidate.Err? then Err
    else if exists i :: 0 <= i < |facts.value| && facts.value[i].refs == [] then Err
    else
      Ok(State(current.revision, if delta.spec.Some? then delta.spec.value else current.spec,
               AppendItems(current.userFacts, delta.userFacts), AppendItems(current.confirmed, facts.value),
               hypotheses.value.0, hypotheses.value.1, questions.value, requirements.value,
               MergeRefs(current.evidence, added.value), candidate.value))
  }

  // ----- what a state must satisfy -----

  function OpenOnes(rs: seq<Requirement>): seq<Requirement> {
    if rs == [] then []
    else OpenOnes(rs[..|rs| - 1]) + (if rs[|rs| - 1].status == IsOpen then [rs[|rs| - 1]] else [])
  }

  predicate OpenOk(rs: seq<Requirement>, userFacts: seq<Item>) {
    && (forall i, j :: 0 <= i < j < |rs| ==> rs[i].name != rs[j].name)
    && (forall i, j :: 0 <= i < |rs| && 0 <= j < |userFacts| && rs[i].kind == InputKind ==>
          userFacts[j].provenance != FromUser(Some(rs[i].name)))
    && (forall i, j :: 0 <= i < j < |rs| ==> !(rs[i].kind == AttachmentKind && rs[j].kind == AttachmentKind))
  }

  predicate UserFactsOk(items: seq<Item>) {
    && (forall i :: 0 <= i < |items| ==> items[i].provenance.FromUser? && items[i].provenance.input.Some?)
    && (forall i, j :: 0 <= i < j < |items| ==> items[i].provenance != items[j].provenance)
  }

  predicate FromAgents(items: seq<Item>) { forall i :: 0 <= i < |items| ==> items[i].provenance.FromAgent? }

  predicate AllHave(items: seq<Item>, status: ItemStatus) { forall i :: 0 <= i < |items| ==> items[i].status == status }

  predicate Acceptable(s: State) {
    && Distinct(ItemIds(AllItems(s)))
    && UserFactsOk(s.userFacts) && FromAgents(s.confirmed + s.active + s.rejected + s.questions)
    && (forall i :: 0 <= i < |s.confirmed| ==> s.confirmed[i].refs != [])
    && AllHave(s.active, ItemActive) && AllHave(s.rejected, ItemRejected) && AllHave(s.questions, ItemActive)
    && OpenOk(OpenOnes(s.requirements), s.userFacts)
    && Distinct(RequirementIds(s.requirements)) && Distinct(s.evidence)
    && (forall i, ref :: 0 <= i < |AllItems(s)| && ref in AllItems(s)[i].refs ==> ref in s.evidence)
    && (s.candidate.Some? ==>
          && s.candidate.value.criteria == s.spec.criteria
          && forall ref :: ref in s.candidate.value.refs ==> ref in s.evidence)
  }

  /** One delta applied: checks, assembly, validation, and one revision step for everything that changed. */
  ghost function Applied(current: State, delta: Delta, plan: Plan): Outcome<State> {
    var nodes, drafts := ItemNodes(AllItems(current)), DraftNodes(Drafts(delta));
    if !AdmissibleIds(current, delta) || !TargetsKnown(nodes, drafts) || Cyclic(GraphOf(nodes + drafts)) then Err
    else
      match Assembled(current, delta, plan)
      case Err => Err
      case Ok(p) =>
        var r := if p != current then p.(revision := current.revision + 1) else p;
        if !Acceptable(p) || (plan.expected.Some? && r.revision != plan.expected.value) then Err else Ok(r)
  }
}
