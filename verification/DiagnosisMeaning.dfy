/**
 What an accepted delta means, item by item, and when it is accepted: which evidence a binding names, what becomes
 of every hypothesis, question, requirement and of the candidate, and what every new item carries.
 */
module DiagnosisMeaning {
  import opened Supersedes
  import opened Diagnosis
  import opened DiagnosisLaws

  // ----- evidence -----

  /** The binding names this evidence: evidence the state knows, or what came of the proposal. */
  predicate Names(b: Binding, ref: Id, known: seq<Id>, proposed: map<nat, Id>) {
    (b == Existing(ref) && ref in known) || (b.Proposed? && b.key in proposed && proposed[b.key] == ref)
  }

  predicate Named(bs: seq<Binding>, ref: Id, known: seq<Id>, proposed: map<nat, Id>) {
    exists i :: 0 <= i < |bs| && Names(bs[i], ref, known, proposed)
  }

  predicate NamesSome(b: Binding, known: seq<Id>, proposed: map<nat, Id>) {
    (b.Existing? && b.id in known) || (b.Proposed? && b.key in proposed)
  }

  predicate AllName(bs: seq<Binding>, known: seq<Id>, proposed: map<nat, Id>) {
    forall i :: 0 <= i < |bs| ==> NamesSome(bs[i], known, proposed)
  }

  /** Bindings resolve iff each names evidence, and to exactly the evidence they name, each once. */
  lemma {:induction false} ResolveMeaning(bs: seq<Binding>, known: seq<Id>, plan: Plan)
    ensures var r := Resolve(bs, known, plan);
            && (r.Ok? <==> AllName(bs, known, plan.evidence))
            && (r.Ok? ==> Distinct(r.value) && forall ref :: ref in r.value <==> Named(bs, ref, known, plan.evidence))
  {
    if bs != [] {
      var n := |bs| - 1;
      ResolveMeaning(bs[..n], known, plan);
      assert forall i :: 0 <= i < n ==> bs[..n][i] == bs[i];
      forall ref
        ensures Named(bs, ref, known, plan.evidence)
                <==> Named(bs[..n], ref, known, plan.evidence) || Names(bs[n], ref, known, plan.evidence)
      {
        if Named(bs[..n], ref, known, plan.evidence) {
          var i :| 0 <= i < n && Names(bs[..n][i], ref, known, plan.evidence);
          assert Names(bs[i], ref, known, plan.evidence);
        }
        if i :| 0 <= i < |bs| && Names(bs[i], ref, known, plan.evidence) {
          if i < n { assert Names(bs[..n][i], ref, known, plan.evidence); }
        }
      }
      assert AllName(bs, known, plan.evidence)
             <==> AllName(bs[..n], known, plan.evidence) && NamesSome(bs[n], known, plan.evidence);
    }
  }

  // ----- items -----

  /** `x` is what the change makes of `was`. */
  ghost predicate ChangedBy(x: Item, was: Item, c: Change, status: ItemStatus, known: seq<Id>, proposed: map<nat, Id>) {
    && x.id == was.id && x.provenance == was.provenance && x.created == was.created && x.supersedes == was.supersedes
    && x.status == status && x.statement == (if c.statement.Some? then c.statement.value else was.statement)
    && was.refs <= x.refs && (Distinct(was.refs) ==> Distinct(x.refs))
    && forall ref :: ref in x.refs <==> ref in was.refs || Named(c.bindings, ref, known, proposed)
  }

  /** `x` is the item of the draft. */
  ghost predicate DrawnFrom(x: Item, d: Draft, created: nat, known: seq<Id>, proposed: map<nat, Id>) {
    && x.id == d.id && x.statement == d.statement && x.provenance == d.provenance && x.status == ItemActive
    && x.created == created && (forall t :: t in x.supersedes <==> t in d.supersedes)
    && Distinct(x.refs) && forall ref :: ref in x.refs <==> Named(d.bindings, ref, known, proposed)
  }

  lemma ChangedMeaning(item: Item, c: Change, status: ItemStatus, known: seq<Id>, plan: Plan)
    ensures var r := Changed(item, c, status, known, plan);
            && (r.Ok? <==> AllName(c.bindings, known, plan.evidence))
            && (r.Ok? ==> ChangedBy(r.value, item, c, status, known, plan.evidence))
  {
    ResolveMeaning(c.bindings, known, plan);
    hide Resolve, Named, AllName, Distinct;
  }

  predicate DraftsName(drafts: seq<Draft>, known: seq<Id>, proposed: map<nat, Id>) {
    forall i :: 0 <= i < |drafts| ==> AllName(drafts[i].bindings, known, proposed)
  }

  lemma {:induction false} DraftsMeaning(drafts: seq<Draft>, created: nat, known: seq<Id>, plan: Plan)
    ensures var r := FromDrafts(drafts, created, known, plan);
            && (r.Ok? <==> DraftsName(drafts, known, plan.evidence))
            && (r.Ok? ==> forall i :: 0 <= i < |drafts| ==>
                  DrawnFrom(r.value[i], drafts[i], created, known, plan.evidence)
                  && (r.value[i].refs == [] <==> drafts[i].bindings == []))
  {
    if drafts != [] {
      var n := |drafts| - 1;
      DraftsMeaning(drafts[..n], created, known, plan);
      DraftMeaning(drafts[n], created, known, plan);
      hide FromDraft, DrawnFrom, AllName;
      assert DraftsName(drafts, known, plan.evidence)
             <==> DraftsName(drafts[..n], known, plan.evidence) && AllName(drafts[n].bindings, known, plan.evidence);
    }
  }

  lemma DraftMeaning(d: Draft, created: nat, known: seq<Id>, plan: Plan)
    ensures var r := FromDraft(d, created, known, plan);
            && (r.Ok? <==> AllName(d.bindings, known, plan.evidence))
            && (r.Ok? ==> DrawnFrom(r.value, d, created, known, plan.evidence)
                          && (r.value.refs == [] <==> d.bindings == []))
  {
    ResolveMeaning(d.bindings, known, plan);
    if d.bindings != [] && AllName(d.bindings, known, plan.evidence) {
      var b := d.bindings[0];
      var ref := if b.Existing? then b.id else plan.evidence[b.key];
      assert Names(b, ref, known, plan.evidence);
      assert Named(d.bindings, ref, known, plan.evidence);
    }
    hide Resolve, AllName;
  }

  // ----- hypotheses -----

  predicate ChangesName(changes: seq<Change>, items: seq<Item>, known: seq<Id>, proposed: map<nat, Id>) {
    forall n :: 0 <= n < |changes| ==> changes[n].id in ItemIds(items) && AllName(changes[n].bindings, known, proposed)
  }

  lemma ChangesNameStep(changes: seq<Change>, items: seq<Item>, known: seq<Id>, proposed: map<nat, Id>)
    requires changes != []
    ensures var n := |changes| - 1;
            ChangesName(changes, items, known, proposed)
            <==> ChangesName(changes[..n], items, known, proposed) && changes[n].id in ItemIds(items)
                 && AllName(changes[n].bindings, known, proposed)
  {
    hide AllName, ItemIds;
  }

  lemma UpdateIff(items: seq<Item>, change: Change, known: seq<Id>, plan: Plan)
    ensures Update(items, change, known, plan).Ok?
            <==> change.id in ItemIds(items) && AllName(change.bindings, known, plan.evidence)
  {
    hide Changed, AllName, IndexOf;
    Found(items, change.id);
    var k := IndexOf(items, change.id);
    if k < |items| { ChangedMeaning(items[k], change, ItemActive, known, plan); }
  }

  lemma {:induction false} UpdateAllIff(active: seq<Item>, changes: seq<Change>, known: seq<Id>, plan: Plan)
    ensures UpdateAll(active, changes, known, plan).Ok? <==> ChangesName(changes, active, known, plan.evidence)
  {
    hide Update, AllName, ItemIds;
    if changes != [] {
      hide ChangesName;
      var n := |changes| - 1;
      UpdateAllIff(active, changes[..n], known, plan);
      ChangesNameStep(changes, active, known, plan.evidence);
      var b := UpdateAll(active, changes[..n], known, plan);
      if b.Ok? { UpdateIff(b.value, changes[n], known, plan); }
    }
  }

  lemma {:induction false} Found(items: seq<Item>, id: Id)
    ensures IndexOf(items, id) < |items| <==> id in ItemIds(items)
  {
    var k := IndexOf(items, id);
    if k < |items| { assert ItemIds(items)[k] == id; }
  }

  /** A rejection moves the active item it names, changed. */
  ghost predicate RejectedBy(x: Item, active: seq<Item>, c: Change, known: seq<Id>, proposed: map<nat, Id>) {
    exists k :: 0 <= k < |active| && active[k].id == c.id && ChangedBy(x, active[k], c, ItemRejected, known, proposed)
  }

  lemma {:induction false} RejectedOne(active: seq<Item>, c: Change, known: seq<Id>, plan: Plan)
    ensures var k := IndexOf(active, c.id);
            && (c.id in ItemIds(active) && AllName(c.bindings, known, plan.evidence)
                <==> k < |active| && Changed(active[k], c, ItemRejected, known, plan).Ok?)
            && (k < |active| && Changed(active[k], c, ItemRejected, known, plan).Ok? ==>
                  RejectedBy(Changed(active[k], c, ItemRejected, known, plan).value, active, c, known, plan.evidence))
  {
    hide Changed, AllName, IndexOf, ChangedBy;
    Found(active, c.id);
    var k := IndexOf(active, c.id);
    if k < |active| { ChangedMeaning(active[k], c, ItemRejected, known, plan); }
  }

  lemma {:induction false} RejectedMeaning(active: seq<Item>, changes: seq<Change>, known: seq<Id>, plan: Plan)
    ensures var r := Rejected(active, changes, known, plan);
            && (r.Ok? <==> ChangesName(changes, active, known, plan.evidence))
            && (r.Ok? ==> |r.value| == |changes| && forall n :: 0 <= n < |changes| ==>
                  RejectedBy(r.value[n], active, changes[n], known, plan.evidence))
  {
    hide Changed, AllName, ItemIds, IndexOf, RejectedBy;
    if changes != [] {
      hide ChangesName, ChangeIds;
      var n := |changes| - 1;
      RejectedMeaning(active, changes[..n], known, plan);
      ChangesNameStep(changes, active, known, plan.evidence);
      RejectedOne(active, changes[n], known, plan);
      RejectedLength(active, changes, known, plan);
    }
  }

  lemma {:induction false} RejectedLength(active: seq<Item>, changes: seq<Change>, known: seq<Id>, plan: Plan)
    ensures var r := Rejected(active, changes, known, plan); r.Ok? ==> |r.value| == |changes|
  {
    var r := Rejected(active, changes, known, plan);
    hide Rejected;
    if r.Ok? { assert |ItemIds(r.value)| == |ChangeIds(changes)|; }
  }

  /** `x` is hypothesis `h` after the updates: changed by the one that names it, or as it was. */
  ghost predicate UpdatedBy(x: Item, h: Item, changes: seq<Change>, known: seq<Id>, proposed: map<nat, Id>) {
    if h.id in ChangeIds(changes)
    then exists n :: 0 <= n < |changes| && changes[n].id == h.id
                     && ChangedBy(x, h, changes[n], ItemActive, known, proposed)
    else x == h
  }

  lemma {:induction false} UpdatedMeaning(active: seq<Item>, changes: seq<Change>, known: seq<Id>, plan: Plan, i: nat)
    requires i < |active| && Distinct(ItemIds(active)) && Distinct(ChangeIds(changes))
    ensures var r := UpdateAll(active, changes, known, plan);
            r.Ok? ==> |r.value| == |active| && UpdatedBy(r.value[i], active[i], changes, known, plan.evidence)
  {
    UpdatesAreLocal(active, changes, known, plan, i);
    hide UpdateAll, Changed, Distinct, ChangedBy;
    var r := UpdateAll(active, changes, known, plan);
    if r.Ok? && active[i].id in ChangeIds(changes) {
      var n :| 0 <= n < |changes| && ChangeIds(changes)[n] == active[i].id;
      ChangedMeaning(active[i], changes[n], ItemActive, known, plan);
      assert changes[n].id == active[i].id;
    }
  }

  ghost predicate KeptIn(items: seq<Item>, h: Item, changes: seq<Change>, known: seq<Id>, proposed: map<nat, Id>) {
    exists x :: x in items && UpdatedBy(x, h, changes, known, proposed)
  }

  ghost predicate MovedTo(items: seq<Item>, from: seq<Item>, c: Change, known: seq<Id>, proposed: map<nat, Id>) {
    exists x, h :: x in items && h in from && h.id == c.id && ChangedBy(x, h, c, ItemRejected, known, proposed)
  }

  ghost predicate DrawnIn(items: seq<Item>, d: Draft, created: nat, known: seq<Id>, proposed: map<nat, Id>) {
    exists x :: x in items && DrawnFrom(x, d, created, known, proposed)
  }

  /** What an accepted delta makes of the hypotheses; each clause names one list and one kind of entry. */
  ghost predicate HypothesesAre(current: State, delta: Delta, proposed: map<nat, Id>, active: seq<Item>,
                                rejected: seq<Item>) {
    var known, created := current.evidence, current.revision + 1;
    && (forall i :: 0 <= i < |current.active| && current.active[i].id !in ChangeIds(delta.rejections) ==>
          KeptIn(active, current.active[i], delta.updates, known, proposed))
    && (forall n :: 0 <= n < |delta.rejections| ==>
          MovedTo(rejected, current.active, delta.rejections[n], known, proposed))
    && (forall n :: 0 <= n < |delta.hypotheses| ==>
          DrawnIn(active, delta.hypotheses[n], created, known, proposed))
    && current.rejected <= rejected
    && |active| + |rejected| == |current.active| + |current.rejected| + |delta.hypotheses|
  }

  lemma {:induction false} KeptHypothesis(updated: seq<Item>, h: Item, ids: seq<Id>, more: seq<Item>, x: Item)
    requires x in updated && x.id == h.id && h.id !in ids
    ensures x in AppendItems(Without(updated, ids), more)
  {
    InAppended(Without(updated, ids), more, x);
  }

  lemma HypothesesMeaning(current: State, delta: Delta, plan: Plan)
    requires AdmissibleIds(current, delta) && Distinct(ItemIds(AllItems(current)))
    ensures var r := Hypotheses(current, delta, plan);
            && (r.Ok?
                <==> ChangesName(delta.updates + delta.rejections, current.active, current.evidence, plan.evidence)
                           && DraftsName(delta.hypotheses, current.evidence, plan.evidence))
            && (r.Ok? ==> HypothesesAre(current, delta, plan.evidence, r.value.0, r.value.1))
  {
    hide HypothesesAre, ChangesName, DraftsName, UpdateAll, Rejected, FromDrafts, DrawnFrom, RejectedBy, AppendItems,
      Without, AdmissibleIds, Distinct, AllItems;
    var known, created := current.evidence, current.revision + 1;
    UpdateAllIff(current.active, delta.updates, known, plan);
    SplitChanges(delta.updates, delta.rejections, current.active, known, plan.evidence);
    DraftsMeaning(delta.hypotheses, created, known, plan);
    var u := UpdateAll(current.active, delta.updates, known, plan);
    if u.Ok? {
      RejectedMeaning(u.value, delta.rejections, known, plan);
      SameIdsSameNames(delta.rejections, u.value, current.active, known, plan.evidence);
    }
    if Hypotheses(current, delta, plan).Ok? { HypothesesShape(current, delta, plan); }
  }

  lemma HypothesesShape(current: State, delta: Delta, plan: Plan)
    requires AdmissibleIds(current, delta) && Distinct(ItemIds(AllItems(current)))
    requires Hypotheses(current, delta, plan).Ok?
    ensures var r := Hypotheses(current, delta, plan).value; HypothesesAre(current, delta, plan.evidence, r.0, r.1)
  {
    hide AdmissibleIds, Distinct, Hypotheses, DrawnFrom, ChangedBy, UpdatedBy, Bag, AllItems;
    var r := Hypotheses(current, delta, plan).value;
    ActiveDistinct(current);
    HypothesesConserved(current, delta, plan);
    SizesAdd(r.0, r.1, current.active, current.rejected, DraftIds(delta.hypotheses));
    forall i | 0 <= i < |current.active| && current.active[i].id !in ChangeIds(delta.rejections)
      ensures KeptIn(r.0, current.active[i], delta.updates, current.evidence, plan.evidence)
    {
      var x := KeptItem(current, delta, plan, i);
    }
    forall n | 0 <= n < |delta.rejections|
      ensures MovedTo(r.1, current.active, delta.rejections[n], current.evidence, plan.evidence)
    {
      var x, h := RejectedItem(current, delta, plan, n);
    }
    forall n | 0 <= n < |delta.hypotheses|
      ensures DrawnIn(r.0, delta.hypotheses[n], current.revision + 1, current.evidence, plan.evidence)
    {
      var x := NewHypothesis(current, delta, plan, n);
    }
    assert |DraftIds(delta.hypotheses)| == |delta.hypotheses|;
    RejectedExtends(current, delta, plan);
  }

  lemma {:induction false} HypothesesParts(current: State, delta: Delta, plan: Plan)
    requires Hypotheses(current, delta, plan).Ok?
    ensures var updated := UpdateAll(current.active, delta.updates, current.evidence, plan);
            var more := FromDrafts(delta.hypotheses, current.revision + 1, current.evidence, plan);
            && updated.Ok? && more.Ok?
            && Hypotheses(current, delta, plan).value.0
               == AppendItems(Without(updated.value, ChangeIds(delta.rejections)), more.value)
  {
    hide UpdateAll, Rejected, FromDrafts, Without, AppendItems, ChangeIds;
  }

  lemma KeptItem(current: State, delta: Delta, plan: Plan, i: nat) returns (x: Item)
    requires AdmissibleIds(current, delta) && Distinct(ItemIds(current.active)) && Hypotheses(current, delta, plan).Ok?
    requires i < |current.active| && current.active[i].id !in ChangeIds(delta.rejections)
    ensures x in Hypotheses(current, delta, plan).value.0
    ensures UpdatedBy(x, current.active[i], delta.updates, current.evidence, plan.evidence)
  {
    UpdatesDistinct(delta);
    HypothesesParts(current, delta, plan);
    hide AdmissibleIds, Distinct, Hypotheses, UpdateAll, FromDrafts, Without, AppendItems, UpdatedBy, ChangeIds,
      AllItems;
    var updated := UpdateAll(current.active, delta.updates, current.evidence, plan).value;
    UpdatedMeaning(current.active, delta.updates, current.evidence, plan, i);
    assert ItemIds(updated)[i] == ItemIds(current.active)[i];
    x := updated[i];
    KeptHypothesis(updated, current.active[i], ChangeIds(delta.rejections),
                   FromDrafts(delta.hypotheses, current.revision + 1, current.evidence, plan).value, x);
  }

  lemma NewHypothesis(current: State, delta: Delta, plan: Plan, n: nat) returns (x: Item)
    requires Hypotheses(current, delta, plan).Ok? && n < |delta.hypotheses|
    ensures x in Hypotheses(current, delta, plan).value.0
    ensures DrawnFrom(x, delta.hypotheses[n], current.revision + 1, current.evidence, plan.evidence)
  {
    hide UpdateAll, Rejected, FromDrafts, Without, AppendItems, DrawnFrom, ChangeIds;
    DraftsMeaning(delta.hypotheses, current.revision + 1, current.evidence, plan);
    var more := FromDrafts(delta.hypotheses, current.revision + 1, current.evidence, plan).value;
    var updated := UpdateAll(current.active, delta.updates, current.evidence, plan).value;
    x := more[n];
    InAppended(Without(updated, ChangeIds(delta.rejections)), more, x);
  }

  lemma RejectedExtends(current: State, delta: Delta, plan: Plan)
    requires Hypotheses(current, delta, plan).Ok?
    ensures current.rejected <= Hypotheses(current, delta, plan).value.1
  {
    hide UpdateAll, Rejected, FromDrafts, Without, ChangeIds;
  }

  lemma SizesAdd(a: seq<Item>, b: seq<Item>, c: seq<Item>, d: seq<Item>, ids: seq<Id>)
    requires Bag(a) + Bag(b) == Bag(c) + Bag(d) + multiset(ids)
    ensures |a| + |b| == |c| + |d| + |ids|
  {
    assert |Bag(a) + Bag(b)| == |a| + |b|;
    assert |Bag(c) + Bag(d) + multiset(ids)| == |c| + |d| + |ids|;
  }

  lemma UpdatesDistinct(delta: Delta)
    requires Distinct(ChangedIds(delta))
    ensures Distinct(ChangeIds(delta.updates))
    ensures forall m, n :: 0 <= m < |delta.updates| && 0 <= n < |delta.rejections| ==>
      delta.updates[m].id != delta.rejections[n].id
  {
    var ids, u := ChangedIds(delta), |delta.updates|;
    assert forall m :: 0 <= m < u ==> ids[m] == delta.updates[m].id && ids[m] == ChangeIds(delta.updates)[m];
    assert forall n :: 0 <= n < |delta.rejections| ==> ids[u + n] == delta.rejections[n].id;
  }

  /** A rejected hypothesis is not updated too, so its change applies to it as it was. */
  lemma RejectedItem(current: State, delta: Delta, plan: Plan, n: nat) returns (x: Item, h: Item)
    requires AdmissibleIds(current, delta) && Distinct(ItemIds(current.active)) && n < |delta.rejections|
    requires Hypotheses(current, delta, plan).Ok?
    ensures x in Hypotheses(current, delta, plan).value.1 && h in current.active && h.id == delta.rejections[n].id
    ensures ChangedBy(x, h, delta.rejections[n], ItemRejected, current.evidence, plan.evidence)
  {
    UpdatesDistinct(delta);
    hide AdmissibleIds, Distinct, UpdateAll, Rejected, FromDrafts, ChangedBy, Without, AppendItems;
    var updated := UpdateAll(current.active, delta.updates, current.evidence, plan).value;
    var out := Rejected(updated, delta.rejections, current.evidence, plan).value;
    RejectedMeaning(updated, delta.rejections, current.evidence, plan);
    x := out[n];
    assert RejectedBy(x, updated, delta.rejections[n], current.evidence, plan.evidence);
    var k :| 0 <= k < |updated| && updated[k].id == delta.rejections[n].id
             && ChangedBy(x, updated[k], delta.rejections[n], ItemRejected, current.evidence, plan.evidence);
    assert ItemIds(updated)[k] == ItemIds(current.active)[k];
    UpdatedMeaning(current.active, delta.updates, current.evidence, plan, k);
    NotUpdated(delta, n);
    h := current.active[k];
    assert updated[k] == h;
    InAppended(current.rejected, out, x);
  }

  lemma NotUpdated(delta: Delta, n: nat)
    requires n < |delta.rejections|
    requires forall m :: 0 <= m < |delta.updates| ==> delta.updates[m].id != delta.rejections[n].id
    ensures delta.rejections[n].id !in ChangeIds(delta.updates)
  {}

  lemma SplitChanges(a: seq<Change>, b: seq<Change>, items: seq<Item>, known: seq<Id>, proposed: map<nat, Id>)
    ensures ChangesName(a + b, items, known, proposed)
            <==> ChangesName(a, items, known, proposed) && ChangesName(b, items, known, proposed)
  {
    hide AllName, ItemIds;
    if ChangesName(a + b, items, known, proposed) {
      forall n | 0 <= n < |a| ensures a[n].id in ItemIds(items) && AllName(a[n].bindings, known, proposed) {
        assert (a + b)[n] == a[n];
      }
      forall n | 0 <= n < |b| ensures b[n].id in ItemIds(items) && AllName(b[n].bindings, known, proposed) {
        assert (a + b)[|a| + n] == b[n];
      }
    }
  }

  lemma SameIdsSameNames(changes: seq<Change>, a: seq<Item>, b: seq<Item>, known: seq<Id>, proposed: map<nat, Id>)
    requires ItemIds(a) == ItemIds(b)
    ensures ChangesName(changes, a, known, proposed) <==> ChangesName(changes, b, known, proposed)
  {}

  // ----- the order of new items -----

  predicate ById(items: seq<Item>) { forall i, j :: 0 <= i <= j < |items| ==> items[i].id <= items[j].id }

  lemma {:induction false} InsertKeepsOrder(items: seq<Item>, item: Item)
    requires ById(items)
    ensures ById(InsertItem(items, item))
  {
    if items != [] && item.id >= items[0].id {
      var rest := InsertItem(items[1..], item);
      InsertKeepsOrder(items[1..], item);
      forall i | 0 <= i < |rest| ensures items[0].id <= rest[i].id {
        assert rest[i] in multiset(rest);
        assert rest[i] in items[1..] || rest[i] == item;
      }
    }
  }

  lemma {:induction false} SortOrders(items: seq<Item>)
    ensures ById(SortItems(items)) && |SortItems(items)| == |items|
  {
    if items != [] {
      SortOrders(items[..|items| - 1]);
      InsertKeepsOrder(SortItems(items[..|items| - 1]), items[|items| - 1]);
    }
    assert |multiset(SortItems(items))| == |multiset(items)|;
  }

  /** `now` is `before` and then the items of the drafts, in the order of their identifiers. */
  ghost predicate Grown(before: seq<Item>, now: seq<Item>, drafts: seq<Draft>, created: nat, known: seq<Id>,
                        proposed: map<nat, Id>) {
    && before <= now && |now| == |before| + |drafts| && ById(now[|before|..])
    && forall n :: 0 <= n < |drafts| ==> DrawnIn(now, drafts[n], created, known, proposed)
  }

  lemma {:induction false} AppendGrows(before: seq<Item>, drafts: seq<Draft>, created: nat, known: seq<Id>, plan: Plan)
    ensures var more := FromDrafts(drafts, created, known, plan);
            more.Ok? ==> Grown(before, AppendItems(before, more.value), drafts, created, known, plan.evidence)
  {
    hide FromDrafts, SortItems, DrawnFrom;
    var more := FromDrafts(drafts, created, known, plan);
    if more.Ok? {
      DraftsMeaning(drafts, created, known, plan);
      SortOrders(more.value);
      var now := AppendItems(before, more.value);
      assert now[|before|..] == SortItems(more.value);
      forall n | 0 <= n < |drafts| ensures DrawnIn(now, drafts[n], created, known, plan.evidence) {
        InAppended(before, more.value, more.value[n]);
      }
    }
  }

  // ----- requirements -----

  predicate OpenOnesFulfilled(rs: seq<Requirement>, fs: seq<Fulfillment>) {
    forall n :: 0 <= n < |fs| ==> HasOpen(rs, fs[n].id)
  }

  predicate HasOpen(rs: seq<Requirement>, id: Id) {
    exists i :: 0 <= i < |rs| && rs[i].id == id && rs[i].status == IsOpen
  }

  /** `b` is requirement `a` afterwards: fulfilled from the sources of the fulfillment that names it, or as it was. */
  ghost predicate FulfilledBy(a: Requirement, b: Requirement, fs: seq<Fulfillment>) {
    if a.id in FulfillmentIds(fs)
    then exists n :: 0 <= n < |fs| && fs[n].id == a.id && b == a.(status := IsFulfilled, sources := fs[n].sources)
    else b == a
  }

  lemma {:induction false} AtIsUnique(rs: seq<Requirement>, id: Id, i: nat)
    requires Distinct(RequirementIds(rs)) && i < |rs|
    ensures RequirementAt(rs, id) == i <==> rs[i].id == id
  {
    var ids := RequirementIds(rs);
    var k := RequirementAt(rs, id);
    assert ids[i] == rs[i].id;
    if k < |rs| { assert ids[k] == id; } else { NotThere(rs, id, i); }
  }

  lemma {:induction false} NotThere(rs: seq<Requirement>, id: Id, i: nat)
    requires RequirementAt(rs, id) == |rs| && i < |rs|
    ensures rs[i].id != id
  {
    if i < |rs| - 1 { NotThere(rs[..|rs| - 1], id, i); }
  }

  lemma FulfillMeaning(rs: seq<Requirement>, f: Fulfillment)
    requires Distinct(RequirementIds(rs))
    ensures var r := Fulfill(rs, f);
            && (r.Ok? <==> HasOpen(rs, f.id))
            && (r.Ok? ==> |r.value| == |rs| && forall i :: 0 <= i < |rs| ==>
                  r.value[i] == if rs[i].id == f.id then rs[i].(status := IsFulfilled, sources := f.sources) else rs[i])
  {
    hide RequirementAt, Distinct, RequirementIds;
    forall i | 0 <= i < |rs| ensures RequirementAt(rs, f.id) == i <==> rs[i].id == f.id { AtIsUnique(rs, f.id, i); }
  }

  lemma {:induction false} FulfillAllMeaning(rs: seq<Requirement>, fs: seq<Fulfillment>)
    requires Distinct(RequirementIds(rs)) && Distinct(FulfillmentIds(fs))
    ensures var r := FulfillAll(rs, fs);
            && (r.Ok? <==> OpenOnesFulfilled(rs, fs))
            && (r.Ok? ==> |r.value| == |rs| && forall i :: 0 <= i < |rs| ==> FulfilledBy(rs[i], r.value[i], fs))
  {
    hide FulfillAll, Fulfill, Distinct, FulfillmentIds, RequirementIds, HasOpen, FulfilledBy;
    FulfillNothing(rs);
    if fs != [] {
      hide OpenOnesFulfilled;
      var n := |fs| - 1;
      var before, last := fs[..n], fs[n];
      LastFulfillment(fs);
      FulfillAllMeaning(rs, before);
      FulfillAllStep(rs, fs);
      OpenOnesStep(rs, fs);
      var b := FulfillAll(rs, before);
      if b.Ok? {
        SameRequirementIds(rs, b.value, before);
        FulfillMeaning(b.value, last);
        StillOpen(rs, b.value, before, last.id);
        FulfillStep(rs, b.value, fs);
      }
    }
  }

  lemma {:induction false} FulfillNothing(rs: seq<Requirement>)
    ensures FulfillAll(rs, []) == Ok(rs) && forall i :: 0 <= i < |rs| ==> FulfilledBy(rs[i], rs[i], [])
  {}

  lemma OpenOnesStep(rs: seq<Requirement>, fs: seq<Fulfillment>)
    requires fs != []
    ensures var n := |fs| - 1;
            OpenOnesFulfilled(rs, fs) <==> OpenOnesFulfilled(rs, fs[..n]) && HasOpen(rs, fs[n].id)
  {
    hide HasOpen;
  }

  lemma {:induction false} FulfillAllStep(rs: seq<Requirement>, fs: seq<Fulfillment>)
    requires fs != []
    ensures var b := FulfillAll(rs, fs[..|fs| - 1]);
            FulfillAll(rs, fs) == if b.Err? then Err else Fulfill(b.value, fs[|fs| - 1])
  {}

  lemma LastFulfillment(fs: seq<Fulfillment>)
    requires fs != [] && Distinct(FulfillmentIds(fs))
    ensures var n := |fs| - 1;
            && Distinct(FulfillmentIds(fs[..n])) && fs[n].id !in FulfillmentIds(fs[..n])
            && FulfillmentIds(fs) == FulfillmentIds(fs[..n]) + [fs[n].id]
  {
    var n, ids := |fs| - 1, FulfillmentIds(fs);
    assert ids == FulfillmentIds(fs[..n]) + [fs[n].id];
    assert forall i :: 0 <= i < n ==> ids[i] == FulfillmentIds(fs[..n])[i];
  }

  lemma SameRequirementIds(a: seq<Requirement>, b: seq<Requirement>, fs: seq<Fulfillment>)
    requires |a| == |b| && forall i :: 0 <= i < |a| ==> FulfilledBy(a[i], b[i], fs)
    ensures RequirementIds(b) == RequirementIds(a)
  {
    hide FulfillmentIds;
    assert forall i :: 0 <= i < |a| ==> b[i].id == a[i].id;
  }

  lemma StillOpen(a: seq<Requirement>, b: seq<Requirement>, fs: seq<Fulfillment>, id: Id)
    requires |a| == |b| && (forall i :: 0 <= i < |a| ==> FulfilledBy(a[i], b[i], fs)) && id !in FulfillmentIds(fs)
    ensures HasOpen(b, id) <==> HasOpen(a, id)
  {
    hide FulfillmentIds;
    if HasOpen(a, id) {
      var i :| 0 <= i < |a| && a[i].id == id && a[i].status == IsOpen;
      assert b[i] == a[i];
    }
    if HasOpen(b, id) {
      var i :| 0 <= i < |b| && b[i].id == id && b[i].status == IsOpen;
      assert FulfilledBy(a[i], b[i], fs);
      assert b[i] == a[i];
    }
  }

  lemma FulfillStep(a: seq<Requirement>, b: seq<Requirement>, fs: seq<Fulfillment>)
    requires fs != [] && |a| == |b|
    requires var n := |fs| - 1;
             && fs[n].id !in FulfillmentIds(fs[..n]) && FulfillmentIds(fs) == FulfillmentIds(fs[..n]) + [fs[n].id]
             && forall i :: 0 <= i < |a| ==> FulfilledBy(a[i], b[i], fs[..n])
    ensures forall i :: 0 <= i < |a| ==>
      FulfilledBy(a[i], if b[i].id == fs[|fs| - 1].id
                        then b[i].(status := IsFulfilled, sources := fs[|fs| - 1].sources) else b[i], fs)
  {
    hide FulfillmentIds;
    var n := |fs| - 1;
    forall i | 0 <= i < |a|
      ensures FulfilledBy(a[i], if b[i].id == fs[n].id
                                then b[i].(status := IsFulfilled, sources := fs[n].sources) else b[i], fs)
    {
      assert FulfilledBy(a[i], b[i], fs[..n]);
      if a[i].id in FulfillmentIds(fs[..n]) {
        var m :| 0 <= m < n && fs[..n][m].id == a[i].id
                 && b[i] == a[i].(status := IsFulfilled, sources := fs[..n][m].sources);
        assert fs[m] == fs[..n][m];
        assert fs[..n][m].id != fs[n].id;
      }
    }
  }

  // ----- questions, the candidate, the whole delta -----

  ghost predicate QuestionsAre(current: State, delta: Delta, proposed: map<nat, Id>, now: seq<Item>) {
    var known, created := current.evidence, current.revision + 1;
    && (forall x :: x in current.questions && x.id !in ChangeIds(delta.resolutions) ==> x in now)
    && (forall x :: x in now ==>
          || (x in current.questions && x.id !in ChangeIds(delta.resolutions))
          || exists n :: 0 <= n < |delta.questions| && DrawnFrom(x, delta.questions[n], created, known, proposed))
    && (forall n :: 0 <= n < |delta.questions| ==> DrawnIn(now, delta.questions[n], created, known, proposed))
  }

  lemma QuestionsMeaning(current: State, delta: Delta, plan: Plan)
    ensures var r := Questions(current, delta, plan);
            && (r.Ok? <==> ChangesName(delta.resolutions, current.questions, current.evidence, plan.evidence)
                           && DraftsName(delta.questions, current.evidence, plan.evidence))
            && (r.Ok? ==> QuestionsAre(current, delta, plan.evidence, r.value))
  {
    hide FromDrafts, Without, AppendItems, DrawnFrom, DraftsName, AllName;
    var created := current.revision + 1;
    DraftsMeaning(delta.questions, created, current.evidence, plan);
    ResolutionsName(current, delta, plan);
    var r := Questions(current, delta, plan);
    if r.Ok? {
      var kept := Without(current.questions, ChangeIds(delta.resolutions));
      var more := FromDrafts(delta.questions, created, current.evidence, plan).value;
      forall x ensures x in r.value <==> x in kept || x in more { InAppended(kept, more, x); }
      forall n | 0 <= n < |delta.questions| ensures more[n] in r.value { assert more[n] in more; }
    }
  }

  lemma ResolutionsName(current: State, delta: Delta, plan: Plan)
    ensures (forall id :: id in ChangeIds(delta.resolutions) ==> id in ItemIds(current.questions))
            && ResolvesAll(delta.resolutions, current.evidence, plan)
            <==> ChangesName(delta.resolutions, current.questions, current.evidence, plan.evidence)
  {
    hide Resolve, AllName;
    var changes := delta.resolutions;
    forall n | 0 <= n < |changes|
      ensures Resolve(changes[n].bindings, current.evidence, plan).Ok?
              <==> AllName(changes[n].bindings, current.evidence, plan.evidence)
    {
      ResolveMeaning(changes[n].bindings, current.evidence, plan);
    }
    if ChangesName(changes, current.questions, current.evidence, plan.evidence) {
      forall id | id in ChangeIds(changes) ensures id in ItemIds(current.questions) {
        var n :| 0 <= n < |changes| && ChangeIds(changes)[n] == id;
        assert changes[n].id == id;
      }
    } else if forall id :: id in ChangeIds(changes) ==> id in ItemIds(current.questions) {
      forall n | 0 <= n < |changes| ensures changes[n].id in ItemIds(current.questions) {
        assert ChangeIds(changes)[n] == changes[n].id;
      }
    }
  }

  /** A candidate is installed as its next revision or as a first one, and moved only from where it is said to be. */
  predicate MutationFits(before: Option<Candidate>, plan: Plan) {
    match plan.mutation
    case None => true
    case Some(Install(key, _)) =>
      && key.Some? && key.value in plan.candidates && plan.candidates[key.value].status == CandidateProposed
      && plan.candidates[key.value].revision
         == (if before.Some? && before.value.id == plan.candidates[key.value].id then before.value.revision + 1 else 1)
    case Some(SetStatus(target, expected, _)) =>
      && before.Some? && before.value.status == expected
      && target == Some(CandidateTarget(before.value.id, before.value.revision, before.value.content))
  }

  /** Nothing of a candidate changes but its status. */
  predicate CandidateIs(before: Option<Candidate>, after: Option<Candidate>, plan: Plan) {
    match plan.mutation
    case None => after == before
    case Some(Install(key, status)) =>
      && key.Some? && key.value in plan.candidates && after.Some? && after.value.status == status
      && after.value.(status := CandidateProposed) == plan.candidates[key.value].(status := CandidateProposed)
    case Some(SetStatus(_, _, status)) =>
      && before.Some? && after.Some? && after.value.status == status
      && after.value.(status := before.value.status) == before.value
  }

  lemma CandidateMeaning(before: Option<Candidate>, plan: Plan)
    ensures var r := ApplyMutation(before, plan);
            (r.Ok? <==> MutationFits(before, plan)) && (r.Ok? ==> CandidateIs(before, r.value, plan))
  {}

  /** Everything the steps of the application ask of a delta. */
  predicate WellFormed(current: State, delta: Delta, plan: Plan) {
    var known, proposed := current.evidence, plan.evidence;
    && (forall i :: 0 <= i < |delta.userFacts| ==> delta.userFacts[i].created == current.revision + 1)
    && DraftsName(delta.facts, known, proposed) && DraftsName(delta.hypotheses, known, proposed)
    && DraftsName(delta.questions, known, proposed) && AllName(delta.evidence, known, proposed)
    && (forall i :: 0 <= i < |delta.facts| ==> delta.facts[i].bindings != [])
    && ChangesName(delta.updates + delta.rejections, current.active, known, proposed)
    && ChangesName(delta.resolutions, current.questions, known, proposed)
    && Distinct(FulfillmentIds(delta.fulfillments)) && OpenOnesFulfilled(current.requirements, delta.fulfillments)
    && (forall i, j :: 0 <= i < |delta.requirements| && 0 <= j < |current.requirements| ==>
          delta.requirements[i].id != current.requirements[j].id)
    && MutationFits(current.candidate, plan)
  }

  /** What a delta makes of a state, list by list. */
  ghost predicate StateIs(current: State, delta: Delta, plan: Plan, now: State) {
    var known, proposed, created := current.evidence, plan.evidence, current.revision + 1;
    && now.spec == (if delta.spec.Some? then delta.spec.value else current.spec)
    && current.userFacts <= now.userFacts && ById(now.userFacts[|current.userFacts|..])
    && multiset(now.userFacts[|current.userFacts|..]) == multiset(delta.userFacts)
    && Grown(current.confirmed, now.confirmed, delta.facts, created, known, proposed)
    && HypothesesAre(current, delta, proposed, now.active, now.rejected)
    && QuestionsAre(current, delta, proposed, now.questions)
    && RequirementsAre(current, delta, now.requirements)
    && current.evidence <= now.evidence
    && (forall ref :: ref in now.evidence <==> ref in known || Named(delta.evidence, ref, known, proposed))
    && CandidateIs(current.candidate, now.candidate, plan)
  }

  ghost predicate RequirementsAre(current: State, delta: Delta, now: seq<Requirement>) {
    var n := |current.requirements|;
    && |now| == n + |delta.requirements| && now[n..] == delta.requirements
    && forall i :: 0 <= i < n ==> FulfilledBy(current.requirements[i], now[i], delta.fulfillments)
  }

  lemma RequirementsMeaning(current: State, delta: Delta)
    requires Distinct(RequirementIds(current.requirements))
    ensures var r := Requirements(current, delta);
            && (r.Ok? <==>
                  && Distinct(FulfillmentIds(delta.fulfillments))
                  && OpenOnesFulfilled(current.requirements, delta.fulfillments)
                  && forall i, j :: 0 <= i < |delta.requirements| && 0 <= j < |current.requirements| ==>
                       delta.requirements[i].id != current.requirements[j].id)
            && (r.Ok? ==> RequirementsAre(current, delta, r.value))
  {
    hide FulfillAll, OpenOnesFulfilled, Distinct, FulfilledBy;
    var known, more := RequirementIds(current.requirements), RequirementIds(delta.requirements);
    if Distinct(FulfillmentIds(delta.fulfillments)) { FulfillAllMeaning(current.requirements, delta.fulfillments); }
    if !(exists id :: id in more && id in known) {
      forall i, j | 0 <= i < |delta.requirements| && 0 <= j < |current.requirements|
        ensures delta.requirements[i].id != current.requirements[j].id
      {
        assert more[i] in more && known[j] in known;
      }
    } else {
      var id :| id in more && id in known;
      var i :| 0 <= i < |more| && more[i] == id;
      var j :| 0 <= j < |known| && known[j] == id;
      assert delta.requirements[i].id == current.requirements[j].id;
    }
  }

  lemma {:induction false} EvidenceMeaning(current: State, delta: Delta, plan: Plan)
    ensures var added := Resolve(delta.evidence, current.evidence, plan);
            && (added.Ok? <==> AllName(delta.evidence, current.evidence, plan.evidence))
            && (added.Ok? ==>
                  var now := MergeRefs(current.evidence, added.value);
                  current.evidence <= now && forall ref :: ref in now <==>
                    ref in current.evidence || Named(delta.evidence, ref, current.evidence, plan.evidence))
  {
    ResolveMeaning(delta.evidence, current.evidence, plan);
    hide Resolve, MergeRefs, AllName, Named;
  }

  lemma FactsMeaning(current: State, delta: Delta)
    ensures var now := AppendItems(current.userFacts, delta.userFacts); var n := |current.userFacts|;
            current.userFacts <= now && ById(now[n..]) && multiset(now[n..]) == multiset(delta.userFacts)
  {
    hide SortItems;
    SortOrders(delta.userFacts);
    assert AppendItems(current.userFacts, delta.userFacts)[|current.userFacts|..] == SortItems(delta.userFacts);
  }

  lemma {:induction false} FactsCite(delta: Delta, created: nat, known: seq<Id>, plan: Plan)
    ensures var facts := FromDrafts(delta.facts, created, known, plan);
            && (facts.Ok? <==> DraftsName(delta.facts, known, plan.evidence))
            && (facts.Ok? ==> ((exists i :: 0 <= i < |facts.value| && facts.value[i].refs == [])
                               <==> exists i :: 0 <= i < |delta.facts| && delta.facts[i].bindings == []))
  {
    hide FromDrafts, DrawnFrom, DraftsName;
    DraftsMeaning(delta.facts, created, known, plan);
  }

  /** A delta goes through the steps iff it is well formed, and then the state is what it says, list by list. */
  lemma AssembledMeaning(current: State, delta: Delta, plan: Plan)
    requires AdmissibleIds(current, delta)
    requires Distinct(ItemIds(AllItems(current))) && Distinct(RequirementIds(current.requirements))
    ensures var r := Assembled(current, delta, plan);
            (r.Ok? <==> WellFormed(current, delta, plan)) && (r.Ok? ==> StateIs(current, delta, plan, r.value))
  {
    hide FromDrafts, Hypotheses, Questions, Requirements, Resolve, ApplyMutation, AppendItems, MergeRefs, AdmissibleIds,
      Distinct, AllItems, DraftsName, AllName, ChangesName, OpenOnesFulfilled, MutationFits, CandidateIs, Grown,
      HypothesesAre, QuestionsAre, RequirementsAre, ById, Named;
    var known, created := current.evidence, current.revision + 1;
    FactsCite(delta, created, known, plan);
    AppendGrows(current.confirmed, delta.facts, created, known, plan);
    FactsMeaning(current, delta);
    HypothesesMeaning(current, delta, plan);
    QuestionsMeaning(current, delta, plan);
    RequirementsMeaning(current, delta);
    EvidenceMeaning(current, delta, plan);
    CandidateMeaning(current.candidate, plan);
  }

  /** The same of the whole application, from an acceptable state: what the result holds, and when there is one. */
  lemma DeltaMeaning(current: State, delta: Delta, plan: Plan)
    requires Acceptable(current)
    ensures var r := Applied(current, delta, plan); r.Ok? ==> StateIs(current, delta, plan, r.value)
    ensures var r, p := Applied(current, delta, plan), Assembled(current, delta, plan);
            r.Ok? <==>
              && AdmissibleIds(current, delta) && WellFormed(current, delta, plan)
              && TargetsKnown(ItemNodes(AllItems(current)), DraftNodes(Drafts(delta)))
              && !Cyclic(GraphOf(ItemNodes(AllItems(current)) + DraftNodes(Drafts(delta))))
              && p.Ok? && Acceptable(p.value)
              && (plan.expected.Some? ==>
                    plan.expected.value == if p.value == current then current.revision else current.revision + 1)
  {
    hide Acceptable, Assembled, WellFormed, StateIs, AdmissibleIds, TargetsKnown, Cyclic, GraphOf, AllItems, Drafts,
      Distinct;
    AcceptableDistinct(current);
    DistinctRequirements(current);
    if AdmissibleIds(current, delta) { AssembledMeaning(current, delta, plan); }
    var p := Assembled(current, delta, plan);
    if p.Ok? {
      KeptRevision(current, delta, plan);
      StateIsAny(current, delta, plan, p.value, current.revision + 1);
    }
  }

  lemma DistinctRequirements(s: State)
    requires Acceptable(s)
    ensures Distinct(RequirementIds(s.requirements))
  {}

  lemma StateIsAny(current: State, delta: Delta, plan: Plan, now: State, revision: nat)
    ensures StateIs(current, delta, plan, now) ==> StateIs(current, delta, plan, now.(revision := revision))
  {
    hide HypothesesAre, QuestionsAre, RequirementsAre, Grown, ById, Named, CandidateIs;
  }
}
