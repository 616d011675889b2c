/**
 What every accepted delta does to a diagnosis.
 */
module DiagnosisLaws {
  import opened Supersedes
  import opened Diagnosis

  // ----- identifiers as multisets -----

  function Bag(items: seq<Item>): multiset<Id> { multiset(ItemIds(items)) }

  lemma BagOfSum(a: seq<Item>, b: seq<Item>)
    ensures Bag(a + b) == Bag(a) + Bag(b)
  {
    assert ItemIds(a + b) == ItemIds(a) + ItemIds(b);
  }

  lemma BagOfOne(item: Item)
    ensures Bag([item]) == multiset{item.id}
  {
    assert ItemIds([item]) == [item.id];
  }

  lemma {:induction false} BagOfInsert(items: seq<Item>, item: Item)
    ensures Bag(InsertItem(items, item)) == Bag(items) + multiset{item.id}
  {
    hide Bag;
    BagOfOne(item);
    if items == [] || item.id < items[0].id {
      BagOfSum([item], items);
    } else {
      var first, rest := [items[0]], items[1..];
      BagOfInsert(rest, item);
      BagOfSum(first, InsertItem(rest, item));
      BagOfSum(first, rest);
      assert items == first + rest;
    }
  }

  lemma {:induction false} BagOfSort(items: seq<Item>)
    ensures Bag(SortItems(items)) == Bag(items)
  {
    if items != [] {
      hide Bag, InsertItem;
      var n := |items| - 1;
      BagOfSort(items[..n]);
      BagOfInsert(SortItems(items[..n]), items[n]);
      BagOfLast(items);
    }
  }

  lemma BagOfLast(items: seq<Item>)
    requires items != []
    ensures var n := |items| - 1; Bag(items) == Bag(items[..n]) + multiset{items[n].id}
  {
    var n := |items| - 1;
    BagOfSum(items[..n], [items[n]]);
    assert items == items[..n] + [items[n]];
  }

  lemma BagOfAppend(a: seq<Item>, b: seq<Item>)
    ensures Bag(AppendItems(a, b)) == Bag(a) + Bag(b)
  {
    BagOfSort(b);
    BagOfSum(a, SortItems(b));
  }

  lemma {:induction false} BagOfWithout(items: seq<Item>, ids: seq<Id>, x: Id)
    ensures Bag(Without(items, ids))[x] == if x in ids then 0 else Bag(items)[x]
  {
    if items != [] {
      var n := |items| - 1;
      BagOfWithout(items[..n], ids, x);
      BagOfLast(items);
      hide Bag;
      var kept := Without(items[..n], ids);
      if items[n].id in ids { assert Without(items, ids) == kept; }
      else {
        BagOfLast(Without(items, ids));
        assert Without(items, ids)[..|kept|] == kept;
      }
    }
  }

  lemma {:induction false} DistinctBag(s: seq<Id>, x: Id)
    requires Distinct(s)
    ensures multiset(s)[x] == if x in s then 1 else 0
  {
    if s != [] {
      var n := |s| - 1;
      assert s == s[..n] + [s[n]];
      DistinctBag(s[..n], x);
    }
  }

  lemma SmallBagIsDistinct(s: seq<Id>)
    requires forall x :: multiset(s)[x] <= 1
    ensures Distinct(s)
  {
    forall i, j | 0 <= i < j < |s| ensures s[i] != s[j] {
      var a, b := s[..i], s[i + 1..];
      assert s == a + [s[i]] + b;
      assert s[j] == b[j - i - 1];
      assert multiset(s) == multiset(a) + multiset{s[i]} + multiset(b);
      assert s[j] in multiset(b);
      assert multiset(s)[s[j]] >= multiset(b)[s[j]] + multiset{s[i]}[s[j]];
    }
  }

  lemma {:induction false} BagOfDrafts(drafts: seq<Draft>, created: nat, known: seq<Id>, plan: Plan)
    ensures var r := FromDrafts(drafts, created, known, plan); r.Ok? ==> Bag(r.value) == multiset(DraftIds(drafts))
  {
    var r := FromDrafts(drafts, created, known, plan);
    if r.Ok? { assert ItemIds(r.value) == DraftIds(drafts); }
  }

  // ----- hypotheses are conserved -----

  /** Rejecting moves hypotheses; only the added ones are new. */
  lemma HypothesesConserved(current: State, delta: Delta, plan: Plan)
    requires AdmissibleIds(current, delta) && Distinct(ItemIds(current.active))
    ensures var r := Hypotheses(current, delta, plan);
            r.Ok? ==> Bag(r.value.0) + Bag(r.value.1)
                      == Bag(current.active) + Bag(current.rejected) + multiset(DraftIds(delta.hypotheses))
  {
    hide UpdateAll, Rejected, FromDrafts, Without, AppendItems, Bag, ChangeIds, DraftIds;
    var r := Hypotheses(current, delta, plan);
    if r.Ok? {
      var known := current.evidence;
      var updated := UpdateAll(current.active, delta.updates, known, plan).value;
      var out := Rejected(updated, delta.rejections, known, plan).value;
      BagOfAppend(Without(updated, ChangeIds(delta.rejections)),
                  FromDrafts(delta.hypotheses, current.revision + 1, known, plan).value);
      BagOfAppend(current.rejected, out);
      BagOfDrafts(delta.hypotheses, current.revision + 1, known, plan);
      RejectionsDistinct(delta);
      RejectionMoves(updated, delta.rejections, known, plan);
      SameBag(updated, current.active);
    }
  }

  lemma SameBag(a: seq<Item>, b: seq<Item>)
    requires ItemIds(a) == ItemIds(b)
    ensures Bag(a) == Bag(b)
  {}

  /** What the updates make of one hypothesis: the change that names it, and nothing else, whatever their order. */
  lemma {:induction false} UpdatesAreLocal(active: seq<Item>, changes: seq<Change>, known: seq<Id>, plan: Plan, i: nat)
    requires i < |active| && Distinct(ItemIds(active)) && Distinct(ChangeIds(changes))
    ensures var r := UpdateAll(active, changes, known, plan);
            r.Ok? ==>
              && |r.value| == |active|
              && (active[i].id !in ChangeIds(changes) ==> r.value[i] == active[i])
              && (forall n :: 0 <= n < |changes| && changes[n].id == active[i].id ==>
                    Changed(active[i], changes[n], ItemActive, known, plan) == Ok(r.value[i]))
  {
    if changes != [] {
      var n := |changes| - 1;
      var before, last := changes[..n], changes[n];
      assert ChangeIds(changes) == ChangeIds(before) + [last.id];
      UpdatesAreLocal(active, before, known, plan, i);
      var b := UpdateAll(active, before, known, plan);
      if b.Ok? {
        UpdateIsLocal(active, b.value, last, known, plan, i);
        LastIsNew(changes);
        hide Distinct, Changed, Update;
      }
    }
  }

  lemma {:induction false} UpdateIsLocal(active: seq<Item>, before: seq<Item>, change: Change, known: seq<Id>,
                                         plan: Plan, i: nat)
    requires i < |active| && Distinct(ItemIds(active)) && ItemIds(before) == ItemIds(active)
    ensures |before| == |active|
    ensures var r := Update(before, change, known, plan);
            r.Ok? ==>
              && |r.value| == |active|
              && (active[i].id != change.id ==> r.value[i] == before[i])
              && (active[i].id == change.id ==>
                    Changed(before[i], change, ItemActive, known, plan) == Ok(r.value[i]))
  {
    OnlyOne(active, before, change.id, i);
    assert |ItemIds(before)| == |ItemIds(active)|;
    hide Distinct, Changed, IndexOf;
  }

  lemma {:induction false} OnlyOne(active: seq<Item>, updated: seq<Item>, id: Id, i: nat)
    requires i < |active| && Distinct(ItemIds(active)) && ItemIds(updated) == ItemIds(active)
    ensures IndexOf(updated, id) == i <==> active[i].id == id
  {
    var k := IndexOf(updated, id);
    assert ItemIds(updated)[i] == active[i].id;
    if k < |updated| { assert ItemIds(updated)[k] == id; }
  }

  lemma LastIsNew(changes: seq<Change>)
    requires changes != [] && Distinct(ChangeIds(changes))
    ensures Distinct(ChangeIds(changes[..|changes| - 1]))
    ensures forall n :: 0 <= n < |changes| - 1 ==> changes[n].id != changes[|changes| - 1].id
    ensures changes[|changes| - 1].id !in ChangeIds(changes[..|changes| - 1])
  {
    var ids := ChangeIds(changes);
    assert forall n :: 0 <= n < |changes| ==> ids[n] == changes[n].id;
  }

  lemma RejectionsDistinct(delta: Delta)
    requires Distinct(ChangedIds(delta))
    ensures Distinct(ChangeIds(delta.rejections))
  {
    var ids, n := ChangeIds(delta.rejections), |delta.updates|;
    assert forall i :: 0 <= i < |ids| ==> ids[i] == ChangedIds(delta)[n + i];
  }

  lemma {:induction false} RejectionMoves(active: seq<Item>, changes: seq<Change>, known: seq<Id>, plan: Plan)
    requires Distinct(ItemIds(active)) && Distinct(ChangeIds(changes))
    ensures var out := Rejected(active, changes, known, plan);
            out.Ok? ==> Bag(Without(active, ChangeIds(changes))) + Bag(out.value) == Bag(active)
  {
    var ids := ChangeIds(changes);
    var out := Rejected(active, changes, known, plan);
    if out.Ok? {
      hide Without;
      forall x | x in ids ensures x in ItemIds(active) {
        var i :| 0 <= i < |ids| && ids[i] == x;
        var k :| 0 <= k < |active| && active[k].id == changes[i].id;
        assert ItemIds(active)[k] == x;
      }
      hide Rejected, Distinct, ChangeIds;
      forall x ensures (Bag(Without(active, ids)) + Bag(out.value))[x] == Bag(active)[x] {
        BagOfWithout(active, ids, x);
        DistinctBag(ids, x);
        DistinctBag(ItemIds(active), x);
      }
    }
  }

  // ----- identifiers stay distinct -----

  lemma BagOfAll(s: State)
    ensures Bag(AllItems(s)) == Bag(s.userFacts) + Bag(s.confirmed) + Bag(s.active) + Bag(s.rejected) + Bag(s.questions)
  {
    hide Bag;
    BagOfSum(s.userFacts, s.confirmed);
    BagOfSum(s.userFacts + s.confirmed, s.active);
    BagOfSum(s.userFacts + s.confirmed + s.active, s.rejected);
    BagOfSum(s.userFacts + s.confirmed + s.active + s.rejected, s.questions);
  }

  lemma BagOfNew(delta: Delta)
    ensures multiset(NewIds(delta)) == Bag(delta.userFacts) + multiset(DraftIds(delta.facts))
                                       + multiset(DraftIds(delta.hypotheses)) + multiset(DraftIds(delta.questions))
  {
    var a, b, c := DraftIds(delta.facts), DraftIds(delta.hypotheses), DraftIds(delta.questions);
    assert DraftIds(Drafts(delta)) == a + b + c;
  }

  lemma ActiveDistinct(s: State)
    requires Distinct(ItemIds(AllItems(s)))
    ensures Distinct(ItemIds(s.active))
  {
    var all, items, n := ItemIds(AllItems(s)), AllItems(s), |s.userFacts| + |s.confirmed|;
    forall i, j | 0 <= i < j < |s.active| ensures s.active[i].id != s.active[j].id {
      assert items[n + i] == s.active[i] && items[n + j] == s.active[j];
      assert all[n + i] != all[n + j];
    }
  }

  /** The state without the questions that the delta resolves. */
  function Kept(current: State, delta: Delta): State {
    current.(questions := Without(current.questions, ChangeIds(delta.resolutions)))
  }

  lemma QuestionsBag(current: State, delta: Delta, plan: Plan)
    ensures var r := Questions(current, delta, plan);
            r.Ok? ==> Bag(r.value) == Bag(Kept(current, delta).questions) + multiset(DraftIds(delta.questions))
  {
    hide Resolve, FromDrafts, Without, AppendItems, Bag;
    var r := Questions(current, delta, plan);
    if r.Ok? {
      var kept := Without(current.questions, ChangeIds(delta.resolutions));
      var more := FromDrafts(delta.questions, current.revision + 1, current.evidence, plan).value;
      BagOfAppend(kept, more);
      BagOfDrafts(delta.questions, current.revision + 1, current.evidence, plan);
    }
  }

  /** The identifiers of the new state: the kept ones and the new ones, each as often as there. */
  lemma AssembledBag(current: State, delta: Delta, plan: Plan)
    requires AdmissibleIds(current, delta) && Distinct(ItemIds(AllItems(current)))
    ensures var r := Assembled(current, delta, plan);
            r.Ok? ==> Bag(AllItems(r.value)) == Bag(AllItems(Kept(current, delta))) + multiset(NewIds(delta))
  {
    hide Hypotheses, Questions, Requirements, FromDrafts, ApplyMutation, Resolve, AppendItems, Bag, AllItems, NewIds,
      MergeRefs, AdmissibleIds, Distinct, Without;
    var r := Assembled(current, delta, plan);
    if r.Ok? {
      var k, v := Kept(current, delta), r.value;
      ActiveDistinct(current);
      HypothesesConserved(current, delta, plan);
      QuestionsBag(current, delta, plan);
      BagOfAppend(current.userFacts, delta.userFacts);
      BagOfAppend(current.confirmed, FromDrafts(delta.facts, current.revision + 1, current.evidence, plan).value);
      BagOfDrafts(delta.facts, current.revision + 1, current.evidence, plan);
      BagOfAll(k);
      BagOfAll(v);
      BagOfNew(delta);
      AddUp(Bag(k.userFacts), Bag(k.confirmed), Bag(k.active), Bag(k.rejected), Bag(k.questions),
            Bag(delta.userFacts), multiset(DraftIds(delta.facts)), multiset(DraftIds(delta.hypotheses)),
            multiset(DraftIds(delta.questions)), Bag(v.active), Bag(v.rejected), Bag(v.questions));
    }
  }

  lemma AddUp(u: multiset<Id>, c: multiset<Id>, a: multiset<Id>, r: multiset<Id>, q: multiset<Id>,
              du: multiset<Id>, dc: multiset<Id>, da: multiset<Id>, dq: multiset<Id>,
              a2: multiset<Id>, r2: multiset<Id>, q2: multiset<Id>)
    requires a2 + r2 == a + r + da && q2 == q + dq
    ensures (u + du) + (c + dc) + a2 + r2 + q2 == (u + c + a + r + q) + (du + dc + da + dq)
  {
    assert (u + du) + (c + dc) + a2 + r2 + q2 == (u + du) + (c + dc) + (a2 + r2) + q2;
  }

  function PlannedIds(current: State, delta: Delta): seq<Id> {
    ItemIds(AllItems(Kept(current, delta))) + NewIds(delta)
  }

  lemma KeptBag(current: State, delta: Delta, x: Id)
    ensures Bag(AllItems(Kept(current, delta)))[x] <= Bag(AllItems(current))[x]
  {
    var k := Kept(current, delta);
    BagOfAll(current);
    BagOfAll(k);
    BagOfWithout(current.questions, ChangeIds(delta.resolutions), x);
    hide Bag, AllItems;
  }

  lemma PlannedDistinct(current: State, delta: Delta)
    requires AdmissibleIds(current, delta) && Distinct(ItemIds(AllItems(current)))
    ensures Distinct(PlannedIds(current, delta))
  {
    hide AllItems, NewIds, Kept;
    var ids := PlannedIds(current, delta);
    forall x ensures multiset(ids)[x] <= 1 {
      DistinctBag(ItemIds(AllItems(current)), x);
      DistinctBag(NewIds(delta), x);
      KeptBag(current, delta, x);
      assert multiset(ids) == Bag(AllItems(Kept(current, delta))) + multiset(NewIds(delta));
    }
    SmallBagIsDistinct(ids);
  }

  lemma AssembledIds(current: State, delta: Delta, plan: Plan)
    requires AdmissibleIds(current, delta) && Distinct(ItemIds(AllItems(current)))
    ensures var r := Assembled(current, delta, plan);
            r.Ok? ==> multiset(ItemIds(AllItems(r.value))) == multiset(PlannedIds(current, delta))
  {
    AssembledBag(current, delta, plan);
    hide Assembled, AllItems, NewIds, Kept, AdmissibleIds, Distinct;
  }

  /** Before any validation of the result: identifiers stay distinct across all five lists. */
  lemma IdsStayDistinct(current: State, delta: Delta, plan: Plan)
    requires AdmissibleIds(current, delta) && Distinct(ItemIds(AllItems(current)))
    ensures var r := Assembled(current, delta, plan); r.Ok? ==> Distinct(ItemIds(AllItems(r.value)))
  {
    AssembledIds(current, delta, plan);
    PlannedDistinct(current, delta);
    hide Assembled, AllItems, AdmissibleIds, PlannedIds;
    var r := Assembled(current, delta, plan);
    if r.Ok? {
      var ids := ItemIds(AllItems(r.value));
      forall x ensures multiset(ids)[x] <= 1 { DistinctBag(PlannedIds(current, delta), x); }
      SmallBagIsDistinct(ids);
    }
  }

  // ----- requirements, evidence, revision -----

  /** Old requirements keep their place and at most move from OPEN to FULFILLED; new ones follow. */
  lemma RequirementsOnlyFulfilled(current: State, delta: Delta, plan: Plan)
    ensures var r := Assembled(current, delta, plan);
            r.Ok? ==>
              && |r.value.requirements| == |current.requirements| + |delta.requirements|
              && (forall i :: 0 <= i < |current.requirements| ==>
                    RequirementStep(current.requirements[i], r.value.requirements[i]))
              && r.value.requirements[|current.requirements|..] == delta.requirements
  {}

  /** Evidence only grows, without repeats, by what the delta binds. */
  lemma {:induction false} EvidenceExtends(current: State, delta: Delta, plan: Plan)
    requires Distinct(current.evidence)
    ensures var r := Assembled(current, delta, plan);
            r.Ok? ==>
              && current.evidence <= r.value.evidence && Distinct(r.value.evidence)
              && Resolve(delta.evidence, current.evidence, plan).Ok?
              && forall ref :: ref in r.value.evidence <==>
                   ref in current.evidence || ref in Resolve(delta.evidence, current.evidence, plan).value
  {}

  predicate SameContent(a: State, b: State) { b == a.(revision := b.revision) }

  /** The revision moves by one exactly when something changed. */
  lemma RevisionStep(current: State, delta: Delta, plan: Plan)
    ensures var r := Applied(current, delta, plan);
            r.Ok? ==>
              && (r.value.revision == current.revision + 1 <==> !SameContent(current, r.value))
              && (r.value.revision == current.revision <==> SameContent(current, r.value))
              && Acceptable(r.value)
  {
    KeptRevision(current, delta, plan);
    var r := Applied(current, delta, plan);
    hide Assembled, GraphOf, Cyclic, AdmissibleIds, TargetsKnown;
    if r.Ok? {
      var p := Assembled(current, delta, plan).value;
      AcceptableForAny(p, r.value.revision);
    }
  }

  lemma KeptRevision(current: State, delta: Delta, plan: Plan)
    ensures var r := Assembled(current, delta, plan); r.Ok? ==> r.value.revision == current.revision
  {}

  lemma AcceptableForAny(s: State, revision: nat)
    requires Acceptable(s)
    ensures Acceptable(s.(revision := revision))
  {}

  // ----- where the items of the result come from -----

  predicate SameIdentity(y: Item, x: Item) { y.id == x.id && y.supersedes == x.supersedes && y.created == x.created }

  predicate FromOld(x: Item, items: seq<Item>) { exists y :: y in items && SameIdentity(y, x) }

  ghost predicate SameTargets(d: Draft, x: Item) {
    d.id == x.id && forall t :: t in x.supersedes <==> t in d.supersedes
  }

  ghost predicate FromNew(x: Item, drafts: seq<Draft>, created: nat) {
    x.created == created && exists d :: d in drafts && SameTargets(d, x)
  }

  lemma InAppended(a: seq<Item>, b: seq<Item>, x: Item)
    ensures x in AppendItems(a, b) <==> x in a || x in b
  {
    assert x in SortItems(b) <==> x in multiset(SortItems(b));
    assert x in b <==> x in multiset(b);
  }

  lemma IsOld(x: Item, items: seq<Item>)
    requires x in items
    ensures FromOld(x, items)
  {}

  lemma {:induction false} DraftedIsNew(drafts: seq<Draft>, created: nat, known: seq<Id>, plan: Plan, x: Item)
    ensures var r := FromDrafts(drafts, created, known, plan); r.Ok? && x in r.value ==> FromNew(x, drafts, created)
  {
    var r := FromDrafts(drafts, created, known, plan);
    if r.Ok? && x in r.value {
      var i :| 0 <= i < |r.value| && r.value[i] == x;
      assert drafts[i] in drafts && SameTargets(drafts[i], x);
    }
  }

  lemma HypothesisOrigin(current: State, delta: Delta, plan: Plan, x: Item)
    ensures var r := Hypotheses(current, delta, plan);
            r.Ok? && (x in r.value.0 || x in r.value.1) ==>
              || FromOld(x, current.active) || FromOld(x, current.rejected)
              || FromNew(x, delta.hypotheses, current.revision + 1)
  {
    hide UpdateAll, Rejected, FromDrafts, Without, AppendItems, FromOld, FromNew;
    var r := Hypotheses(current, delta, plan);
    if r.Ok? && (x in r.value.0 || x in r.value.1) {
      var known := current.evidence;
      var updated := UpdateAll(current.active, delta.updates, known, plan).value;
      var out := Rejected(updated, delta.rejections, known, plan).value;
      var more := FromDrafts(delta.hypotheses, current.revision + 1, known, plan).value;
      InAppended(Without(updated, ChangeIds(delta.rejections)), more, x);
      InAppended(current.rejected, out, x);
      DraftedIsNew(delta.hypotheses, current.revision + 1, known, plan, x);
      if x in updated { UpdatedIsOld(current.active, updated, x); }
      else if x in out { RejectedIsOld(current.active, updated, delta.rejections, known, plan, x); }
      else if x in current.rejected { IsOld(x, current.rejected); }
    }
  }

  lemma UpdatedIsOld(active: seq<Item>, updated: seq<Item>, x: Item)
    requires x in updated && ItemIds(updated) == ItemIds(active)
    requires forall i :: 0 <= i < |active| ==>
      updated[i].supersedes == active[i].supersedes && updated[i].created == active[i].created
    ensures FromOld(x, active)
  {
    var i :| 0 <= i < |updated| && updated[i] == x;
    assert ItemIds(updated)[i] == ItemIds(active)[i];
    assert active[i] in active && SameIdentity(active[i], x);
  }

  lemma {:induction false} RejectedIsOld(active: seq<Item>, updated: seq<Item>, changes: seq<Change>, known: seq<Id>,
                                         plan: Plan, x: Item)
    requires ItemIds(updated) == ItemIds(active)
    requires forall i :: 0 <= i < |active| ==>
      updated[i].supersedes == active[i].supersedes && updated[i].created == active[i].created
    requires var out := Rejected(updated, changes, known, plan); out.Ok? && x in out.value
    ensures FromOld(x, active)
  {
    hide Rejected;
    var out := Rejected(updated, changes, known, plan).value;
    var i :| 0 <= i < |out| && out[i] == x;
    assert ItemIds(out)[i] == ChangeIds(changes)[i];
    var k :| 0 <= k < |updated| && updated[k].id == changes[i].id
             && out[i].supersedes == updated[k].supersedes && out[i].created == updated[k].created;
    assert ItemIds(updated)[k] == ItemIds(active)[k];
    assert active[k] in active && SameIdentity(active[k], x);
  }

  lemma QuestionOrigin(current: State, delta: Delta, plan: Plan, x: Item)
    ensures var r := Questions(current, delta, plan);
            r.Ok? && x in r.value ==>
              FromOld(x, Kept(current, delta).questions) || FromNew(x, delta.questions, current.revision + 1)
  {
    hide FromDrafts, AppendItems, Without, Resolve, FromOld, FromNew;
    var r := Questions(current, delta, plan);
    if r.Ok? && x in r.value {
      var more := FromDrafts(delta.questions, current.revision + 1, current.evidence, plan).value;
      var kept := Kept(current, delta).questions;
      InAppended(kept, more, x);
      DraftedIsNew(delta.questions, current.revision + 1, current.evidence, plan, x);
      if x in kept { IsOld(x, kept); }
    }
  }

  lemma OldInAll(x: Item, items: seq<Item>, all: seq<Item>)
    requires forall y :: y in items ==> y in all
    ensures FromOld(x, items) ==> FromOld(x, all)
  {}

  lemma NewInAll(x: Item, drafts: seq<Draft>, all: seq<Draft>, created: nat)
    requires forall d :: d in drafts ==> d in all
    ensures FromNew(x, drafts, created) ==> FromNew(x, all, created)
  {}

  /** Every item of the result is a kept one with its identity, an added user fact, or one of the drafts. */
  lemma Origin(current: State, delta: Delta, plan: Plan, x: Item)
    ensures var r := Assembled(current, delta, plan);
            r.Ok? && x in AllItems(r.value) ==>
              || FromOld(x, AllItems(Kept(current, delta))) || x in delta.userFacts
              || FromNew(x, Drafts(delta), current.revision + 1)
  {
    hide Hypotheses, Questions, Requirements, FromDrafts, ApplyMutation, Resolve, AppendItems, MergeRefs, FromOld,
      FromNew, Without;
    var r := Assembled(current, delta, plan);
    if r.Ok? && x in AllItems(r.value) {
      var created := current.revision + 1;
      var facts := FromDrafts(delta.facts, created, current.evidence, plan).value;
      InAppended(current.userFacts, delta.userFacts, x);
      InAppended(current.confirmed, facts, x);
      DraftedIsNew(delta.facts, created, current.evidence, plan, x);
      HypothesisOrigin(current, delta, plan, x);
      QuestionOrigin(current, delta, plan, x);
      OriginIn(Kept(current, delta), delta, x, created);
    }
  }

  lemma OriginIn(s: State, delta: Delta, x: Item, created: nat)
    ensures x in s.userFacts || x in s.confirmed || FromOld(x, s.active) || FromOld(x, s.rejected)
            || FromOld(x, s.questions)
            ==> FromOld(x, AllItems(s))
    ensures FromNew(x, delta.facts, created) || FromNew(x, delta.hypotheses, created)
            || FromNew(x, delta.questions, created)
            ==> FromNew(x, Drafts(delta), created)
  {
    hide FromOld, FromNew;
    if x in s.userFacts || x in s.confirmed { IsOld(x, AllItems(s)); }
    OldInAll(x, s.active, AllItems(s));
    OldInAll(x, s.rejected, AllItems(s));
    OldInAll(x, s.questions, AllItems(s));
    NewInAll(x, delta.facts, Drafts(delta), created);
    NewInAll(x, delta.hypotheses, Drafts(delta), created);
    NewInAll(x, delta.questions, Drafts(delta), created);
  }

  /** New items carry the revision of the state they arrive in. */
  lemma NewItemsCarryRevision(current: State, delta: Delta, plan: Plan, x: Item)
    ensures var r := Applied(current, delta, plan);
            r.Ok? && x in AllItems(r.value) && x.id in NewIds(delta) ==>
              x.created == r.value.revision == current.revision + 1
  {
    hide Assembled, FromOld, FromNew, GraphOf, Cyclic, Acceptable, NewIds, AdmissibleIds;
    var r := Applied(current, delta, plan);
    if r.Ok? && x in AllItems(r.value) && x.id in NewIds(delta) {
      var p := Assembled(current, delta, plan).value;
      assert AllItems(p) == AllItems(r.value);
      Origin(current, delta, plan, x);
      KeptIsOld(current, delta, x);
      NotOld(current, delta, x);
      CreatedThen(current, delta, plan, x);
      if p == current { IsOld(x, AllItems(current)); }
    }
  }

  lemma KeptIsOld(current: State, delta: Delta, x: Item)
    ensures FromOld(x, AllItems(Kept(current, delta))) ==> FromOld(x, AllItems(current))
  {
    OldInAll(x, AllItems(Kept(current, delta)), AllItems(current));
  }

  lemma NotOld(current: State, delta: Delta, x: Item)
    requires AdmissibleIds(current, delta) && x.id in NewIds(delta)
    ensures !FromOld(x, AllItems(current))
  {}

  lemma CreatedThen(current: State, delta: Delta, plan: Plan, x: Item)
    requires Assembled(current, delta, plan).Ok?
    requires x in delta.userFacts || FromNew(x, Drafts(delta), current.revision + 1)
    ensures x.created == current.revision + 1
  {}

  // ----- when the result has a circle -----

  function StateGraph(s: State): Graph { GraphOf(ItemNodes(AllItems(s))) }

  predicate DistinctNodes(nodes: seq<Node>) { forall i, j :: 0 <= i < j < |nodes| ==> nodes[i].id != nodes[j].id }

  lemma {:induction false} GraphAt(nodes: seq<Node>, i: nat)
    requires DistinctNodes(nodes) && i < |nodes|
    ensures nodes[i].id in GraphOf(nodes) && GraphOf(nodes)[nodes[i].id] == nodes[i].supersedes
  {
    hide GraphOf;
    var a := nodes[i].id;
    assert a in Ids(nodes);
    assert IsNode(nodes, a, GraphOf(nodes)[a]);
  }

  /** What will stand in the result, computable before the call: kept items, added user facts and drafts. */
  function PlannedNodes(current: State, delta: Delta): seq<Node> {
    ItemNodes(AllItems(Kept(current, delta)) + delta.userFacts) + DraftNodes(Drafts(delta))
  }

  lemma PlannedNodesDistinct(current: State, delta: Delta)
    requires AdmissibleIds(current, delta) && Distinct(ItemIds(AllItems(current)))
    ensures var nodes, ids := PlannedNodes(current, delta), PlannedIds(current, delta);
            |nodes| == |ids| && (forall i :: 0 <= i < |nodes| ==> nodes[i].id == ids[i]) && DistinctNodes(nodes)
  {
    PlannedDistinct(current, delta);
    hide AllItems, Drafts, Kept, AdmissibleIds;
  }

  /** An item that stands among `items` or `drafts` has its targets in their graph. */
  lemma ListedTargets(items: seq<Item>, drafts: seq<Draft>, created: nat, x: Item)
    requires DistinctNodes(ItemNodes(items) + DraftNodes(drafts))
    requires FromOld(x, items) || FromNew(x, drafts, created)
    ensures var g := GraphOf(ItemNodes(items) + DraftNodes(drafts));
            x.id in g && forall t :: t in x.supersedes <==> t in g[x.id]
  {
    hide GraphOf, DistinctNodes;
    var nodes := ItemNodes(items) + DraftNodes(drafts);
    if FromOld(x, items) {
      var y :| y in items && SameIdentity(y, x);
      var i :| 0 <= i < |items| && items[i] == y;
      assert nodes[i] == Node(y.id, y.supersedes);
      GraphAt(nodes, i);
    } else {
      var d :| d in drafts && SameTargets(d, x);
      var i :| 0 <= i < |drafts| && drafts[i] == d;
      assert nodes[|items| + i] == Node(d.id, d.supersedes);
      GraphAt(nodes, |items| + i);
    }
  }

  /** An item of the result stands under its identifier in the planned graph, with the same targets. */
  lemma PlannedTargets(current: State, delta: Delta, plan: Plan, x: Item)
    requires AdmissibleIds(current, delta) && Distinct(ItemIds(AllItems(current)))
    requires var r := Assembled(current, delta, plan); r.Ok? && x in AllItems(r.value)
    ensures var g := GraphOf(PlannedNodes(current, delta));
            x.id in g && forall t :: t in x.supersedes <==> t in g[x.id]
  {
    PlannedNodesDistinct(current, delta);
    Origin(current, delta, plan, x);
    hide AdmissibleIds, Distinct, GraphOf, AllItems, Drafts, Kept, DistinctNodes, Assembled, FromOld, FromNew;
    var kept := AllItems(Kept(current, delta));
    if x in delta.userFacts { IsOld(x, delta.userFacts); }
    OldInAll(x, kept, kept + delta.userFacts);
    OldInAll(x, delta.userFacts, kept + delta.userFacts);
    ListedTargets(kept + delta.userFacts, Drafts(delta), current.revision + 1, x);
  }

  ghost predicate SameEdges(h: Graph, g: Graph) {
    h.Keys == g.Keys && forall a, t :: a in h ==> (t in h[a] <==> t in g[a])
  }

  lemma SameEdgesSameCircles(h: Graph, g: Graph)
    requires SameEdges(h, g)
    ensures Cyclic(h) <==> Cyclic(g)
  {
    hide Cyclic;
    if !Cyclic(g) { WithinStaysAcyclic(h, g); }
    if !Cyclic(h) { WithinStaysAcyclic(g, h); }
  }

  lemma SameKeys(nodes: seq<Node>, items: seq<Item>, ids: seq<Id>)
    requires multiset(ItemIds(items)) == multiset(ids)
    requires |ids| == |nodes| && forall i :: 0 <= i < |nodes| ==> nodes[i].id == ids[i]
    ensures Ids(ItemNodes(items)) == Ids(nodes)
  {
    assert Ids(nodes) == set x | x in ids;
    assert Ids(ItemNodes(items)) == set x | x in ItemIds(items);
    forall x ensures x in ids <==> x in ItemIds(items) {
      assert x in ids <==> x in multiset(ids);
    }
  }

  /** The graph of the result is the planned graph, edge for edge. */
  lemma ResultIsPlanned(current: State, delta: Delta, plan: Plan)
    requires AdmissibleIds(current, delta) && Distinct(ItemIds(AllItems(current)))
    ensures var r := Assembled(current, delta, plan);
            r.Ok? ==> SameEdges(StateGraph(r.value), GraphOf(PlannedNodes(current, delta)))
  {
    hide AdmissibleIds, Distinct, GraphOf, AllItems, Drafts, Assembled, FromOld, FromNew, Kept, PlannedNodes,
      PlannedIds;
    var r := Assembled(current, delta, plan);
    if r.Ok? {
      var items, nodes := AllItems(r.value), PlannedNodes(current, delta);
      var h, g := StateGraph(r.value), GraphOf(nodes);
      PlannedNodesDistinct(current, delta);
      AssembledIds(current, delta, plan);
      SameKeys(nodes, items, PlannedIds(current, delta));
      forall a, t | a in h ensures t in h[a] <==> t in g[a] {
        assert IsNode(ItemNodes(items), a, h[a]);
        var i :| 0 <= i < |items| && items[i].id == a && items[i].supersedes == h[a];
        PlannedTargets(current, delta, plan, items[i]);
      }
    }
  }

  /** An accepted delta leaves a circle exactly when the planned graph, known before the call, has one. */
  lemma CircleIff(current: State, delta: Delta, plan: Plan)
    requires Distinct(ItemIds(AllItems(current)))
    ensures var r := Applied(current, delta, plan);
            r.Ok? ==> (Cyclic(StateGraph(r.value)) <==> Cyclic(GraphOf(PlannedNodes(current, delta))))
  {
    hide Acceptable, Assembled, GraphOf, Cyclic, AdmissibleIds, Distinct, PlannedNodes;
    var r := Applied(current, delta, plan);
    if r.Ok? {
      var p := Assembled(current, delta, plan).value;
      assert AllItems(p) == AllItems(r.value);
      ResultIsPlanned(current, delta, plan);
      SameEdgesSameCircles(StateGraph(p), GraphOf(PlannedNodes(current, delta)));
    }
  }

  lemma CheckedNodesDistinct(current: State, delta: Delta)
    requires AdmissibleIds(current, delta) && Distinct(ItemIds(AllItems(current)))
    ensures DistinctNodes(ItemNodes(AllItems(current)) + DraftNodes(Drafts(delta)))
  {
    var items, drafts := AllItems(current), Drafts(delta);
    var nodes, n, u := ItemNodes(items) + DraftNodes(drafts), |items|, |delta.userFacts|;
    hide AllItems, Drafts, ItemNodes, DraftNodes;
    forall i, j | 0 <= i < j < |nodes| ensures nodes[i].id != nodes[j].id {
      if j < n {
        assert ItemIds(items)[i] != ItemIds(items)[j];
      } else {
        assert NewIds(delta)[u + (j - n)] == drafts[j - n].id;
        if i < n {
          assert NewIds(delta)[u + (j - n)] in NewIds(delta);
          assert ItemIds(items)[i] in ItemIds(items);
        } else {
          assert NewIds(delta)[u + (i - n)] == drafts[i - n].id;
        }
      }
    }
  }

  predicate SupersedeNothing(items: seq<Item>) { forall x :: x in items ==> x.supersedes == [] }

  /** The graph of the result lies within the graph that was searched. */
  lemma ResultWithinChecked(current: State, delta: Delta, plan: Plan)
    requires AdmissibleIds(current, delta) && Distinct(ItemIds(AllItems(current))) && SupersedeNothing(delta.userFacts)
    ensures var r := Assembled(current, delta, plan);
            r.Ok? ==> Within(StateGraph(r.value), GraphOf(ItemNodes(AllItems(current)) + DraftNodes(Drafts(delta))))
  {
    hide AdmissibleIds, Distinct, GraphOf, AllItems, Drafts, Assembled, FromOld, FromNew;
    var r := Assembled(current, delta, plan);
    if r.Ok? {
      var items := AllItems(r.value);
      var h, g := StateGraph(r.value), GraphOf(ItemNodes(AllItems(current)) + DraftNodes(Drafts(delta)));
      CheckedNodesDistinct(current, delta);
      forall a | a in h ensures h[a] == [] || (a in g && forall t :: t in h[a] ==> t in g[a]) {
        var nodes := ItemNodes(items);
        assert IsNode(nodes, a, h[a]);
        var i :| 0 <= i < |nodes| && nodes[i].id == a && nodes[i].supersedes == h[a];
        var x := items[i];
        Origin(current, delta, plan, x);
        KeptIsOld(current, delta, x);
        if x !in delta.userFacts {
          ListedTargets(AllItems(current), Drafts(delta), current.revision + 1, x);
        }
      }
    }
  }

  /** An accepted delta whose user facts supersede nothing leaves no circle. */
  lemma StepAcyclic(current: State, delta: Delta, plan: Plan)
    requires Distinct(ItemIds(AllItems(current))) && SupersedeNothing(delta.userFacts)
    ensures var r := Applied(current, delta, plan); r.Ok? ==> !Cyclic(StateGraph(r.value)) && Acceptable(r.value)
  {
    RevisionStep(current, delta, plan);
    hide Acceptable, Assembled, GraphOf, Cyclic, AdmissibleIds, Distinct;
    var r := Applied(current, delta, plan);
    if r.Ok? {
      var p := Assembled(current, delta, plan).value;
      assert AllItems(p) == AllItems(r.value);
      ResultWithinChecked(current, delta, plan);
      WithinStaysAcyclic(StateGraph(p), GraphOf(ItemNodes(AllItems(current)) + DraftNodes(Drafts(delta))));
    }
  }

  /** A history of accepted deltas. */
  ghost predicate History(states: seq<State>, deltas: seq<Delta>, plans: seq<Plan>) {
    && |states| == |deltas| + 1 && |plans| == |deltas|
    && forall i :: 0 <= i < |deltas| ==> Applied(states[i], deltas[i], plans[i]) == Ok(states[i + 1])
  }

  lemma {:induction false} HistoryAcceptable(states: seq<State>, deltas: seq<Delta>, plans: seq<Plan>, n: nat)
    requires History(states, deltas, plans) && n < |states| && Acceptable(states[0])
    ensures Acceptable(states[n])
  {
    if n > 0 {
      RevisionStep(states[n - 1], deltas[n - 1], plans[n - 1]);
      hide Acceptable, Applied;
      assert Applied(states[n - 1], deltas[n - 1], plans[n - 1]) == Ok(states[n - 1 + 1]);
    }
  }

  lemma CircleAt(states: seq<State>, deltas: seq<Delta>, plans: seq<Plan>, i: nat)
    requires History(states, deltas, plans) && Acceptable(states[0]) && i < |deltas|
    ensures Cyclic(StateGraph(states[i + 1])) <==> Cyclic(GraphOf(PlannedNodes(states[i], deltas[i])))
  {
    HistoryAcceptable(states, deltas, plans, i);
    AcceptableDistinct(states[i]);
    hide Acceptable, Applied, StateGraph, Distinct, Cyclic, GraphOf, PlannedNodes;
    CircleIff(states[i], deltas[i], plans[i]);
  }

  /** Over every history: no state has a circle iff the first has none and no planned graph ever had one. */
  lemma NeverCyclicIff(states: seq<State>, deltas: seq<Delta>, plans: seq<Plan>)
    requires History(states, deltas, plans) && Acceptable(states[0])
    ensures (forall i :: 0 <= i < |states| ==> !Cyclic(StateGraph(states[i])))
            <==> && !Cyclic(StateGraph(states[0]))
                 && forall i :: 0 <= i < |deltas| ==> !Cyclic(GraphOf(PlannedNodes(states[i], deltas[i])))
  {
    hide Acceptable, Applied, StateGraph, Cyclic, GraphOf, PlannedNodes;
    if forall i :: 0 <= i < |states| ==> !Cyclic(StateGraph(states[i])) {
      forall i | 0 <= i < |deltas| ensures !Cyclic(GraphOf(PlannedNodes(states[i], deltas[i]))) {
        CircleAt(states, deltas, plans, i);
      }
    } else {
      var i :| 0 <= i < |states| && Cyclic(StateGraph(states[i]));
      if i > 0 {
        CircleAt(states, deltas, plans, i - 1);
        assert Cyclic(GraphOf(PlannedNodes(states[i - 1], deltas[i - 1])));
      }
    }
  }

  /** In particular, over every history whose user facts supersede nothing, no circle ever appears. */
  lemma {:induction false} NeverCyclic(states: seq<State>, deltas: seq<Delta>, plans: seq<Plan>, n: nat)
    requires History(states, deltas, plans) && n < |states|
    requires Acceptable(states[0]) && !Cyclic(StateGraph(states[0]))
    requires forall i :: 0 <= i < |deltas| ==> SupersedeNothing(deltas[i].userFacts)
    ensures !Cyclic(StateGraph(states[n])) && Acceptable(states[n])
  {
    hide Acceptable, Applied, StateGraph, Distinct;
    if n > 0 {
      NeverCyclic(states, deltas, plans, n - 1);
      assert Applied(states[n - 1], deltas[n - 1], plans[n - 1]) == Ok(states[n - 1 + 1]);
      AcceptableDistinct(states[n - 1]);
      StepAcyclic(states[n - 1], deltas[n - 1], plans[n - 1]);
    }
  }

  lemma AcceptableDistinct(s: State)
    requires Acceptable(s)
    ensures Distinct(ItemIds(AllItems(s)))
  {}

  // ----- user facts that close a circle -----

  function EmptyState(): State { State(1, Spec(1, [], 0), [], [], [], [], [], [], [], None) }

  function MutualFacts(): Delta {
    Delta(None, [Item(1, 0, ItemActive, FromUser(Some(1)), [], 2, [2]),
                 Item(2, 0, ItemActive, FromUser(Some(2)), [], 2, [1])],
          [], [], [], [], [], [], [], [], [])
  }

  function NoPlan(): Plan { Plan(map[], map[], None, None) }

  /** The check does not look at added user facts, so two that supersede each other are accepted. */
  lemma UserFactsCanCloseACircle()
    ensures Acceptable(EmptyState()) && !Cyclic(StateGraph(EmptyState()))
    ensures var r := Applied(EmptyState(), MutualFacts(), NoPlan()); r.Ok? && Cyclic(StateGraph(r.value))
  {
    hide Applied, StateGraph, Acceptable, Cyclic;
    EmptyIsFine();
    MutualAccepted();
    MutualCircle(MutualResult());
  }

  function MutualResult(): State { EmptyState().(userFacts := MutualFacts().userFacts, revision := 2) }

  /** A state with nothing but user facts. */
  lemma FactsAlone(s: State)
    requires s == State(s.revision, s.spec, s.userFacts, [], [], [], [], [], [], None)
    requires Distinct(ItemIds(s.userFacts)) && UserFactsOk(s.userFacts)
    requires forall i :: 0 <= i < |s.userFacts| ==> s.userFacts[i].refs == []
    ensures Acceptable(s)
  {
    hide Distinct, UserFactsOk, ItemIds;
    assert AllItems(s) == s.userFacts;
    assert OpenOnes(s.requirements) == [];
    assert RequirementIds([]) == [];
    NothingRepeats();
  }

  lemma NothingRepeats()
    ensures Distinct([])
  {}

  lemma EmptyIsFine()
    ensures Acceptable(EmptyState()) && !Cyclic(StateGraph(EmptyState())) && !Cyclic(GraphOf([]))
  {
    hide Acceptable, Cyclic, Ranked;
    assert AllItems(EmptyState()) == [] && ItemNodes([]) == [];
    FactsAlone(EmptyState());
    RankedNothing();
  }

  lemma RankedNothing()
    ensures !Cyclic(GraphOf([]))
  {
    hide Cyclic;
    RankedIsAcyclic(GraphOf([]), map[]);
  }

  lemma MutualSorted()
    ensures AppendItems([], MutualFacts().userFacts) == MutualFacts().userFacts
  {
    hide SortItems;
    var facts := MutualFacts().userFacts;
    SortTwo(facts[0], facts[1]);
  }

  lemma SortTwo(a: Item, b: Item)
    requires a.id < b.id
    ensures SortItems([a, b]) == [a, b]
  {
    assert [a, b][..1] == [a] && [a][..0] == [] && [a][1..] == [];
    assert SortItems([a]) == InsertItem(SortItems([]), a);
    assert InsertItem([a], b) == [a] + InsertItem([], b);
  }

  lemma MutualAssembled()
    ensures var r := Assembled(EmptyState(), MutualFacts(), NoPlan());
            r == Ok(EmptyState().(userFacts := AppendItems([], MutualFacts().userFacts)))
  {
    hide Hypotheses, Questions, Requirements, SortItems, MergeRefs;
    MutualParts();
    assert AppendItems([], []) == [] && MergeRefs([], []) == [] by { EmptyLists(); }
  }

  lemma EmptyLists()
    ensures AppendItems([], []) == [] && MergeRefs([], []) == []
  {}

  lemma MutualParts()
    ensures Hypotheses(EmptyState(), MutualFacts(), NoPlan()) == Ok(([], []))
    ensures Questions(EmptyState(), MutualFacts(), NoPlan()) == Ok([])
    ensures Requirements(EmptyState(), MutualFacts()) == Ok([])
  {
    assert SortItems([]) == [] && Without([], []) == [];
    assert ChangeIds([]) == [] && RequirementIds([]) == [] && FulfillmentIds([]) == [];
    hide SortItems, Without, ChangeIds, RequirementIds, FulfillmentIds;
  }

  lemma MutualAcceptable()
    ensures Acceptable(MutualResult().(revision := 1))
  {
    hide Acceptable;
    FactsAlone(MutualResult().(revision := 1));
  }

  lemma MutualAccepted()
    ensures Applied(EmptyState(), MutualFacts(), NoPlan()) == Ok(MutualResult())
  {
    var s, d := EmptyState(), MutualFacts();
    MutualAdmissible();
    EmptyIsFine();
    MutualAssembled();
    MutualSorted();
    MutualAcceptable();
    hide AdmissibleIds, Acceptable, Assembled, Cyclic, AppendItems, AllItems, Drafts;
    assert ItemNodes([]) + DraftNodes([]) == [];
  }

  lemma MutualAdmissible()
    ensures AdmissibleIds(EmptyState(), MutualFacts()) && AllItems(EmptyState()) == [] && Drafts(MutualFacts()) == []
  {
    assert NewIds(MutualFacts()) == [1, 2];
    assert ChangedIds(MutualFacts()) == [];
  }

  lemma MutualCircle(r: State)
    requires r == MutualResult()
    ensures Cyclic(StateGraph(r))
  {
    assert AllItems(r) == r.userFacts;
    var nodes := ItemNodes(r.userFacts);
    GraphAt(nodes, 0);
    GraphAt(nodes, 1);
    var g := GraphOf(nodes);
    assert Edge(g, 1, 2) && Edge(g, 2, 1);
    assert Path(g, [1, 2, 1]);
  }
}
