/**
 The application of a delta as it is carried out: lists rewritten in place by loops, with the depth-first check
 first and one revision step last.
 */
module DiagnosisDelta {
  import opened Supersedes
  import opened Diagnosis
  import opened DiagnosisMeaning

  method UpdateHypotheses(active: seq<Item>, changes: seq<Change>, known: seq<Id>, plan: Plan)
    returns (r: Outcome<seq<Item>>)
    ensures r == UpdateAll(active, changes, known, plan)
  {
    var items := active;
    var i := 0;
    while i < |changes|
      invariant i <= |changes| && UpdateAll(active, changes[..i], known, plan) == Ok(items)
    {
      assert changes[..i + 1][..i] == changes[..i];
      var k := IndexOf(items, changes[i].id);
      if k == |items| { UpdateFails(active, changes, known, plan, i); return Err; }
      var item := Changed(items[k], changes[i], ItemActive, known, plan);
      if item.Err? { UpdateFails(active, changes, known, plan, i); return Err; }
      items := items[k := item.value];
      i := i + 1;
    }
    assert changes[..i] == changes;
    return Ok(items);
  }

  /** One failing change fails the whole list. */
  lemma {:induction false} UpdateFails(active: seq<Item>, changes: seq<Change>, known: seq<Id>, plan: Plan, i: nat)
    requires i < |changes| && UpdateAll(active, changes[..i + 1], known, plan).Err?
    ensures UpdateAll(active, changes, known, plan).Err?
    decreases |changes|
  {
    if i + 1 == |changes| {
      assert changes[..i + 1] == changes;
    } else {
      var before := changes[..|changes| - 1];
      assert before[..i + 1] == changes[..i + 1];
      UpdateFails(active, before, known, plan, i);
    }
  }

  lemma {:induction false} FulfillFails(rs: seq<Requirement>, fs: seq<Fulfillment>, i: nat)
    requires i < |fs| && FulfillAll(rs, fs[..i + 1]).Err?
    ensures FulfillAll(rs, fs).Err?
    decreases |fs|
  {
    if i + 1 == |fs| {
      assert fs[..i + 1] == fs;
    } else {
      var before := fs[..|fs| - 1];
      assert before[..i + 1] == fs[..i + 1];
      FulfillFails(rs, before, i);
    }
  }

  method FulfillRequirements(rs: seq<Requirement>, fs: seq<Fulfillment>) returns (r: Outcome<seq<Requirement>>)
    ensures r == FulfillAll(rs, fs)
  {
    var result := rs;
    var i := 0;
    while i < |fs|
      invariant i <= |fs| && FulfillAll(rs, fs[..i]) == Ok(result)
    {
      assert fs[..i + 1][..i] == fs[..i];
      var k := RequirementAt(result, fs[i].id);
      if k == |result| || result[k].status != IsOpen {
        FulfillFails(rs, fs, i);
        return Err;
      }
      result := result[k := result[k].(status := IsFulfilled, sources := fs[i].sources)];
      i := i + 1;
    }
    assert fs[..i] == fs;
    return Ok(result);
  }

  method ApplyDiagnosisStateDelta(current: State, delta: Delta, plan: Plan) returns (r: Outcome<State>)
    ensures r == Applied(current, delta, plan)
    ensures Acceptable(current) && r.Ok? ==> StateIs(current, delta, plan, r.value)
  {
    hide UpdateAll, Rejected, FromDrafts, Without, AppendItems, FulfillAll, Resolve, MergeRefs, ApplyMutation,
      Acceptable, GraphOf, Cyclic, AdmissibleIds, StateIs, WellFormed;
    if Acceptable(current) { DeltaMeaning(current, delta, plan); }
    var nodes, drafts := ItemNodes(AllItems(current)), DraftNodes(Drafts(delta));
    if !AdmissibleIds(current, delta) { return Err; }
    var verdict := ValidateSupersedes(nodes, drafts);
    if !verdict.Accepted? { return Err; }
    var p := Assemble(current, delta, plan);
    if p.Err? || !Acceptable(p.value) { return Err; }
    var revision := if p.value != current then current.revision + 1 else current.revision;
    if plan.expected.Some? && revision != plan.expected.value { return Err; }
    KeepsRevision(current, delta, plan);
    return Ok(p.value.(revision := revision));
  }

  lemma KeepsRevision(current: State, delta: Delta, plan: Plan)
    ensures var r := Assembled(current, delta, plan); r.Ok? ==> r.value.revision == current.revision
  {}

  method Assemble(current: State, delta: Delta, plan: Plan) returns (r: Outcome<State>)
    ensures r == Assembled(current, delta, plan)
  {
    hide UpdateAll, Rejected, FromDrafts, Without, AppendItems, FulfillAll, Resolve, MergeRefs, ApplyMutation;
    var known, created := current.evidence, current.revision + 1;
    if exists i :: 0 <= i < |delta.userFacts| && delta.userFacts[i].created != created { return Err; }
    var facts := FromDrafts(delta.facts, created, known, plan);
    if facts.Err? || exists i :: 0 <= i < |facts.value| && facts.value[i].refs == [] { return Err; }
    var updated := UpdateHypotheses(current.active, delta.updates, known, plan);
    if updated.Err? { return Err; }
    var out := Rejected(updated.value, delta.rejections, known, plan);
    var hypotheses := FromDrafts(delta.hypotheses, created, known, plan);
    if out.Err? || hypotheses.Err? { return Err; }
    var active := AppendItems(Without(updated.value, ChangeIds(delta.rejections)), hypotheses.value);
    var rejected := AppendItems(current.rejected, out.value);
    var questions := Questions(current, delta, plan);
    if questions.Err? { return Err; }
    if !Distinct(FulfillmentIds(delta.fulfillments)) { return Err; }
    var requirements := FulfillRequirements(current.requirements, delta.fulfillments);
    if requirements.Err? { return Err; }
    if exists id :: id in RequirementIds(delta.requirements) && id in RequirementIds(current.requirements) {
      return Err;
    }
    var added := Resolve(delta.evidence, known, plan);
    var candidate := ApplyMutation(current.candidate, plan);
    if added.Err? || candidate.Err? { return Err; }
    return Ok(State(current.revision, if delta.spec.Some? then delta.spec.value else current.spec,
                    AppendItems(current.userFacts, delta.userFacts), AppendItems(current.confirmed, facts.value),
                    active, rejected, questions.value, requirements.value + delta.requirements,
                    MergeRefs(known, added.value), candidate.value));
  }
}
