/**
 Where the time of a Case went: a sweep over overlapping spans with priorities, and its pointwise meaning.
 Times are whole milliseconds; an instant `t` stands for the interval from `t` to `t + 1`.
 */
module Timing {
  datatype Option<+T> = None | Some(value: T)

  datatype Category = UserWait | Stage | LogparseOperation | LogparsePhase | Queue | Runtime | Delivery
                    | Unclassified | Concurrent

  /** What a span contributes to an instant it covers. */
  datatype Mark = Mark(name: string, category: Category, priority: int)

  datatype Span = Span(mark: Mark, start: int, end: int, line: nat, job: Option<string>)

  /** The key of a cause: the common label of the winners, or all their labels, or nothing at all. */
  datatype Key = NoCause | One(name: string, category: Category) | Several(labels: set<string>)

  function KeyCategory(key: Key): Category {
    match key
    case NoCause => Unclassified
    case One(_, category) => category
    case Several(_) => Concurrent
  }

  function Max(a: int, b: int): int { if a < b then b else a }
  function Min(a: int, b: int): int { if a < b then a else b }

  // ----- the pointwise meaning -----

  function MarksAt(spans: seq<Span>, t: int): seq<Mark> {
    if spans == [] then []
    else (if spans[0].start <= t < spans[0].end then [spans[0].mark] else []) + MarksAt(spans[1..], t)
  }

  function TopPriority(marks: seq<Mark>): (p: int)
    requires marks != []
    ensures forall i :: 0 <= i < |marks| ==> marks[i].priority <= p
    ensures exists i :: 0 <= i < |marks| && marks[i].priority == p
  {
    if |marks| == 1 then marks[0].priority
    else
      var rest := marks[1..];
      var p := TopPriority(rest);
      assert forall i :: 0 < i < |marks| ==> marks[i] == rest[i - 1];
      assert exists i :: 0 <= i < |marks| && marks[i].priority == Max(marks[0].priority, p) by {
        var j :| 0 <= j < |rest| && rest[j].priority == p;
        assert marks[j + 1].priority == p && marks[0].priority == marks[0].priority;
      }
      Max(marks[0].priority, p)
  }

  function Winners(marks: seq<Mark>, p: int): (r: seq<Mark>)
    ensures forall m :: m in r <==> m in marks && m.priority == p
  {
    if marks == [] then []
    else (if marks[0].priority == p then [marks[0]] else []) + Winners(marks[1..], p)
  }

  lemma {:induction false} WinnersExist(marks: seq<Mark>)
    requires marks != []
    ensures Winners(marks, TopPriority(marks)) != []
  {
    var i :| 0 <= i < |marks| && marks[i].priority == TopPriority(marks);
    assert marks[i] in Winners(marks, TopPriority(marks));
  }

  function Labels(marks: seq<Mark>): set<string> { set m | m in marks :: m.name }

  function KeyOf(marks: seq<Mark>): Key {
    if marks == [] then NoCause
    else
      var winners := Winners(marks, TopPriority(marks));
      WinnersExist(marks);
      if |Labels(winners)| == 1 then One(winners[0].name, winners[0].category)
      else Several(Labels(winners))
  }

  /** The cause of an instant: that of the spans with the highest priority among those covering it. */
  function KeyAt(spans: seq<Span>, t: int): Key { KeyOf(MarksAt(spans, t)) }

  /** The number of instants in [a, b) whose cause is `key`. */
  function Measure(spans: seq<Span>, key: Key, a: int, b: int): (n: nat)
    ensures a <= b ==> n <= b - a
    decreases b - a
  {
    if b <= a then 0 else Measure(spans, key, a, b - 1) + (if KeyAt(spans, b - 1) == key then 1 else 0)
  }

  function CategoryMeasure(spans: seq<Span>, category: Category, a: int, b: int): (n: nat)
    ensures a <= b ==> n <= b - a
    decreases b - a
  {
    if b <= a then 0
    else CategoryMeasure(spans, category, a, b - 1) + (if KeyCategory(KeyAt(spans, b - 1)) == category then 1 else 0)
  }

  // ----- clipping and boundaries -----

  function Clip(span: Span, start: int, end: int): Option<Span> {
    var s, e := Max(start, span.start), Min(end, span.end);
    if e <= s then None else Some(span.(start := s, end := e))
  }

  function ClipAll(spans: seq<Span>, start: int, end: int): (r: seq<Span>)
    ensures forall i :: 0 <= i < |r| ==> start <= r[i].start < r[i].end <= end
  {
    if spans == [] then []
    else
      var c := Clip(spans[0], start, end);
      (if c.Some? then [c.value] else []) + ClipAll(spans[1..], start, end)
  }

  /** Clipping changes nothing inside the window. */
  lemma {:induction false} ClippedMarks(spans: seq<Span>, start: int, end: int, t: int)
    requires start <= t < end
    ensures MarksAt(ClipAll(spans, start, end), t) == MarksAt(spans, t)
  {
    if spans != [] {
      ClippedMarks(spans[1..], start, end, t);
      var c := Clip(spans[0], start, end);
      if c.Some? {
        assert ClipAll(spans, start, end)[0] == c.value;
        assert ClipAll(spans, start, end)[1..] == ClipAll(spans[1..], start, end);
      } else {
        assert ClipAll(spans, start, end) == ClipAll(spans[1..], start, end);
      }
    }
  }

  predicate Increasing(s: seq<int>) { forall i, j :: 0 <= i < j < |s| ==> s[i] < s[j] }

  /** Inserts into a sorted list of distinct values. */
  function Insert(s: seq<int>, x: int): (r: seq<int>)
    requires Increasing(s)
    ensures Increasing(r)
    ensures forall v :: v in r <==> v in s || v == x
  {
    if s == [] then [x]
    else if x < s[0] then [x] + s
    else if x == s[0] then s
    else
      var rest := Insert(s[1..], x);
      assert s == [s[0]] + s[1..];
      assert forall v :: v in rest ==> s[0] < v;
      assert forall i :: 0 <= i < |rest| ==> rest[i] in rest;
      [s[0]] + rest
  }

  /** The sorted distinct ends of the window and of all clipped spans. */
  function Boundaries(spans: seq<Span>, start: int, end: int): (r: seq<int>)
    ensures Increasing(r)
    ensures forall v :: v in r <==>
      v == start || v == end || exists i :: 0 <= i < |spans| && (v == spans[i].start || v == spans[i].end)
  {
    if spans == [] then Insert([start], end)
    else
      var rest := Boundaries(spans[1..], start, end);
      assert forall i :: 0 < i < |spans| ==> spans[i] == spans[1..][i - 1];
      assert forall i :: 0 <= i < |spans| - 1 ==> spans[1..][i] == spans[i + 1];
      Insert(Insert(rest, spans[0].start), spans[0].end)
  }

  lemma {:induction false} BoundariesSpan(spans: seq<Span>, start: int, end: int)
    ensures var b := Boundaries(ClipAll(spans, start, end), start, end);
            && b != [] && b[0] == Min(start, end) && b[|b| - 1] == Max(start, end)
            && (start > end ==> ClipAll(spans, start, end) == [])
  {
    hide Boundaries, ClipAll;
    var clipped := ClipAll(spans, start, end);
    var b := Boundaries(clipped, start, end);
    if start > end { ClipNothing(spans, start, end); }
    assert start in b && end in b;
    assert b[0] in b && b[|b| - 1] in b;
    assert forall v :: v in b ==> Min(start, end) <= v <= Max(start, end);
  }

  lemma {:induction false} ClipNothing(spans: seq<Span>, start: int, end: int)
    requires start >= end
    ensures ClipAll(spans, start, end) == []
  {
    if spans != [] { ClipNothing(spans[1..], start, end); }
  }

  // ----- one slice of the sweep -----

  function MarksIn(spans: seq<Span>, lo: int, hi: int): seq<Mark> {
    if spans == [] then []
    else (if spans[0].start < hi && spans[0].end > lo then [spans[0].mark] else []) + MarksIn(spans[1..], lo, hi)
  }

  predicate NoEndInside(spans: seq<Span>, lo: int, hi: int) {
    forall i :: 0 <= i < |spans| ==> !(lo < spans[i].start < hi) && !(lo < spans[i].end < hi)
  }

  lemma {:induction false} SliceMarks(spans: seq<Span>, lo: int, hi: int, t: int)
    requires lo <= t < hi && NoEndInside(spans, lo, hi)
    ensures MarksIn(spans, lo, hi) == MarksAt(spans, t)
  {
    if spans != [] {
      assert forall i :: 0 <= i < |spans| - 1 ==> spans[1..][i] == spans[i + 1];
      SliceMarks(spans[1..], lo, hi, t);
    }
  }

  lemma {:induction false} BetweenBoundaries(spans: seq<Span>, start: int, end: int, i: nat)
    requires i + 1 < |Boundaries(spans, start, end)|
    ensures var b := Boundaries(spans, start, end); NoEndInside(spans, b[i], b[i + 1])
  {
    hide Boundaries;
    var b := Boundaries(spans, start, end);
    forall k | 0 <= k < |spans|
      ensures !(b[i] < spans[k].start < b[i + 1]) && !(b[i] < spans[k].end < b[i + 1])
    {
      InOrder(b, i, spans[k].start);
      InOrder(b, i, spans[k].end);
    }
  }

  lemma InOrder(b: seq<int>, i: nat, v: int)
    requires Increasing(b) && i + 1 < |b| && v in b
    ensures !(b[i] < v < b[i + 1])
  {
    var j :| 0 <= j < |b| && b[j] == v;
  }

  /** Where the cause does not change, its measure is the length. */
  lemma {:induction false} ConstantMeasure(spans: seq<Span>, a: int, b: int, c: int, k: Key, key: Key,
                                           category: Category)
    requires a <= b <= c && forall t {:trigger KeyAt(spans, t)} :: b <= t < c ==> KeyAt(spans, t) == k
    ensures Measure(spans, key, a, c) == Measure(spans, key, a, b) + (if key == k then c - b else 0)
    ensures CategoryMeasure(spans, category, a, c)
            == CategoryMeasure(spans, category, a, b) + (if category == KeyCategory(k) then c - b else 0)
    decreases c - b
  {
    hide KeyAt;
    if b < c {
      ConstantMeasure(spans, a, b, c - 1, k, key, category);
      assert KeyAt(spans, c - 1) == k;
    }
  }

  // ----- the causes, in order of first appearance -----

  datatype Cause = Cause(key: Key, duration: int)

  function Add(causes: seq<Cause>, key: Key, d: int): seq<Cause> {
    if causes == [] then [Cause(key, d)]
    else if causes[0].key == key then [Cause(key, causes[0].duration + d)] + causes[1..]
    else [causes[0]] + Add(causes[1..], key, d)
  }

  function DurationOf(causes: seq<Cause>, key: Key): int {
    if causes == [] then 0
    else (if causes[0].key == key then causes[0].duration else 0) + DurationOf(causes[1..], key)
  }

  function CategoryTotal(causes: seq<Cause>, category: Category): int {
    if causes == [] then 0
    else
      (if KeyCategory(causes[0].key) == category then causes[0].duration else 0) + CategoryTotal(causes[1..], category)
  }

  function Total(causes: seq<Cause>): int {
    if causes == [] then 0 else causes[0].duration + Total(causes[1..])
  }

  predicate AllPositive(causes: seq<Cause>) { forall i :: 0 <= i < |causes| ==> causes[i].duration > 0 }

  predicate DistinctKeys(causes: seq<Cause>) { forall i, j :: 0 <= i < j < |causes| ==> causes[i].key != causes[j].key }

  lemma {:induction false} AddAdds(causes: seq<Cause>, key: Key, d: int, other: Key, category: Category)
    ensures var r := Add(causes, key, d);
            && DurationOf(r, other) == DurationOf(causes, other) + (if other == key then d else 0)
            && CategoryTotal(r, category) == CategoryTotal(causes, category)
            + (if category == KeyCategory(key) then d else 0)
            && Total(r) == Total(causes) + d
  {
    if causes != [] && causes[0].key != key {
      AddAdds(causes[1..], key, d, other, category);
      assert Add(causes, key, d)[1..] == Add(causes[1..], key, d);
    } else if causes != [] {
      assert Add(causes, key, d)[1..] == causes[1..];
    }
  }

  lemma {:induction false} AddKeeps(causes: seq<Cause>, key: Key, d: int)
    requires AllPositive(causes) && DistinctKeys(causes) && d > 0
    ensures AllPositive(Add(causes, key, d)) && DistinctKeys(Add(causes, key, d))
    ensures forall i :: 0 <= i < |Add(causes, key, d)| ==>
      Add(causes, key, d)[i].key == key || exists j :: 0 <= j < |causes| && causes[j].key == Add(causes, key, d)[i].key
  {
    if causes != [] {
      var rest := causes[1..];
      assert forall i :: 0 <= i < |rest| ==> rest[i] == causes[i + 1];
      if causes[0].key != key {
        AddKeeps(rest, key, d);
        var r := Add(rest, key, d);
        assert forall i :: 0 <= i < |r| ==> r[i].key != causes[0].key;
      }
    }
  }

  /** The sweep with its totals. */
  method AllocatedCauses(spans: seq<Span>, caseStart: int, caseEnd: int)
    returns (causes: seq<Cause>, system: int, userWait: int, unclassified: int)
    ensures AllPositive(causes) && DistinctKeys(causes)
    ensures Total(causes) == Max(caseStart, caseEnd) - Min(caseStart, caseEnd)
    ensures caseStart <= caseEnd ==> forall key :: DurationOf(causes, key) == Measure(spans, key, caseStart, caseEnd)
    ensures caseStart <= caseEnd ==>
      && userWait == CategoryMeasure(spans, UserWait, caseStart, caseEnd)
      && unclassified == CategoryMeasure(spans, Unclassified, caseStart, caseEnd)
    ensures system >= 0 && userWait >= 0 && unclassified >= 0
    ensures system + userWait + unclassified == Max(0, caseEnd - caseStart) <==> caseStart <= caseEnd
  {
    var clipped := ClipAll(spans, caseStart, caseEnd);
    var bounds := Boundaries(clipped, caseStart, caseEnd);
    BoundariesSpan(spans, caseStart, caseEnd);
    causes := [];
    var i := 0;
    while i + 1 < |bounds|
      invariant i < |bounds| && AllPositive(causes) && DistinctKeys(causes)
      invariant Total(causes) == bounds[i] - bounds[0]
      invariant forall key :: DurationOf(causes, key) == Measure(clipped, key, bounds[0], bounds[i])
      invariant forall category ::
        CategoryTotal(causes, category) == CategoryMeasure(clipped, category, bounds[0], bounds[i])
    {
      var marks := MarksIn(clipped, bounds[i], bounds[i + 1]);
      var key := KeyOf(marks);
      Sliced(clipped, caseStart, caseEnd, i, causes);
      AddKeeps(causes, key, bounds[i + 1] - bounds[i]);
      causes := Add(causes, key, bounds[i + 1] - bounds[i]);
      i := i + 1;
    }
    var elapsed := Max(0, caseEnd - caseStart);
    userWait := CategoryTotal(causes, UserWait);
    unclassified := CategoryTotal(causes, Unclassified);
    system := Max(0, elapsed - userWait - unclassified);
    if caseStart <= caseEnd {
      ClippedMeasures(spans, caseStart, caseEnd);
      TwoCategories(spans, caseStart, caseEnd);
    } else {
      NothingMeasured(caseEnd, caseStart);
    }
  }

  lemma Sliced(spans: seq<Span>, start: int, end: int, i: nat, causes: seq<Cause>)
    requires i + 1 < |Boundaries(spans, start, end)|
    requires var b := Boundaries(spans, start, end);
             && (forall key :: DurationOf(causes, key) == Measure(spans, key, b[0], b[i]))
             && (forall category :: CategoryTotal(causes, category) == CategoryMeasure(spans, category, b[0], b[i]))
    ensures var b := Boundaries(spans, start, end);
            var r := Add(causes, KeyOf(MarksIn(spans, b[i], b[i + 1])), b[i + 1] - b[i]);
            && (forall key :: DurationOf(r, key) == Measure(spans, key, b[0], b[i + 1]))
            && (forall category :: CategoryTotal(r, category) == CategoryMeasure(spans, category, b[0], b[i + 1]))
            && Total(r) == Total(causes) + b[i + 1] - b[i]
  {
    hide Boundaries, MarksIn, KeyOf, KeyAt, Add;
    var b := Boundaries(spans, start, end);
    BetweenBoundaries(spans, start, end, i);
    var d := b[i + 1] - b[i];
    var k := KeyOf(MarksIn(spans, b[i], b[i + 1]));
    var r := Add(causes, k, d);
    forall t {:trigger KeyAt(spans, t)} | b[i] <= t < b[i + 1] ensures KeyAt(spans, t) == k {
      SliceKey(spans, b[i], b[i + 1], t);
    }
    assert b[0] <= b[i];
    AddAdds(causes, k, d, k, UserWait);
    forall key ensures DurationOf(r, key) == Measure(spans, key, b[0], b[i + 1]) {
      AddAdds(causes, k, d, key, UserWait);
      ConstantMeasure(spans, b[0], b[i], b[i + 1], k, key, UserWait);
    }
    forall category ensures CategoryTotal(r, category) == CategoryMeasure(spans, category, b[0], b[i + 1]) {
      AddAdds(causes, k, d, k, category);
      ConstantMeasure(spans, b[0], b[i], b[i + 1], k, k, category);
    }
  }

  lemma {:induction false} SliceKey(spans: seq<Span>, lo: int, hi: int, t: int)
    requires lo <= t < hi && NoEndInside(spans, lo, hi)
    ensures KeyAt(spans, t) == KeyOf(MarksIn(spans, lo, hi))
  {
    SliceMarks(spans, lo, hi, t);
  }

  lemma {:induction false} SameMeasure(spans: seq<Span>, other: seq<Span>, key: Key, category: Category, a: int, b: int)
    requires forall t :: a <= t < b ==> KeyAt(spans, t) == KeyAt(other, t)
    ensures Measure(spans, key, a, b) == Measure(other, key, a, b)
    ensures CategoryMeasure(spans, category, a, b) == CategoryMeasure(other, category, a, b)
    decreases b - a
  {
    if a < b {
      hide KeyAt;
      SameMeasure(spans, other, key, category, a, b - 1);
      assert KeyAt(spans, b - 1) == KeyAt(other, b - 1);
    }
  }

  lemma {:induction false} ClippedMeasures(spans: seq<Span>, a: int, b: int)
    requires a <= b
    ensures forall key :: Measure(ClipAll(spans, a, b), key, a, b) == Measure(spans, key, a, b)
    ensures forall category ::
      CategoryMeasure(ClipAll(spans, a, b), category, a, b) == CategoryMeasure(spans, category, a, b)
  {
    var clipped := ClipAll(spans, a, b);
    forall t | a <= t < b ensures KeyAt(clipped, t) == KeyAt(spans, t) { ClippedMarks(spans, a, b, t); }
    forall key ensures Measure(clipped, key, a, b) == Measure(spans, key, a, b) {
      SameMeasure(clipped, spans, key, UserWait, a, b);
    }
    forall category ensures CategoryMeasure(clipped, category, a, b) == CategoryMeasure(spans, category, a, b) {
      SameMeasure(clipped, spans, NoCause, category, a, b);
    }
  }

  lemma {:induction false} TwoCategories(spans: seq<Span>, a: int, b: int)
    requires a <= b
    ensures CategoryMeasure(spans, UserWait, a, b) + CategoryMeasure(spans, Unclassified, a, b) <= b - a
    decreases b - a
  {
    hide KeyAt;
    if a < b { TwoCategories(spans, a, b - 1); }
  }

  /** Without any span all time is unclassified. */
  lemma {:induction false} NothingMeasured(a: int, b: int)
    requires a <= b
    ensures CategoryMeasure([], Unclassified, a, b) == b - a && CategoryMeasure([], UserWait, a, b) == 0
    decreases b - a
  {
    if a < b { NothingMeasured(a, b - 1); }
  }

  // ----- what wins an instant -----

  predicate Covers(span: Span, t: int) { span.start <= t < span.end }

  lemma {:induction false} MarksAreCovering(spans: seq<Span>, t: int, m: Mark)
    ensures m in MarksAt(spans, t) <==> exists i :: 0 <= i < |spans| && Covers(spans[i], t) && spans[i].mark == m
  {
    if spans != [] {
      var rest := spans[1..];
      assert forall i :: 0 <= i < |rest| ==> rest[i] == spans[i + 1];
      MarksAreCovering(rest, t, m);
      if i :| 0 <= i < |spans| && Covers(spans[i], t) && spans[i].mark == m {
        if i > 0 { assert rest[i - 1] == spans[i]; }
      }
    }
  }

  function KeyLabels(key: Key): set<string> {
    match key
    case NoCause => {}
    case One(name, _) => {name}
    case Several(labels) => labels
  }

  /** `p` is the highest priority at `t`, and `key` names exactly the labels that have it. */
  ghost predicate TopAt(spans: seq<Span>, t: int, p: int, key: Key) {
    && (forall i :: 0 <= i < |spans| && Covers(spans[i], t) ==> spans[i].mark.priority <= p)
    && KeyLabels(key) == LabelsAt(spans, t, p) && KeyLabels(key) != {} && (key.One? <==> |KeyLabels(key)| == 1)
    && (key.One? ==> exists i :: 0 <= i < |spans| && Covers(spans[i], t)
                                 && spans[i].mark == Mark(key.name, key.category, p))
  }

  /** An instant has no cause iff no span covers it; else its cause names the labels of the highest priority. */
  lemma HighestPriorityWins(spans: seq<Span>, t: int)
    ensures KeyAt(spans, t).NoCause? <==> forall i :: 0 <= i < |spans| ==> !Covers(spans[i], t)
    ensures !KeyAt(spans, t).NoCause? ==> exists p :: TopAt(spans, t, p, KeyAt(spans, t))
  {
    var marks := MarksAt(spans, t);
    if marks == [] {
      forall i | 0 <= i < |spans| ensures !Covers(spans[i], t) { MarksAreCovering(spans, t, spans[i].mark); }
    } else {
      MarksAreCovering(spans, t, marks[0]);
      var p := TopPriority(marks);
      forall i | 0 <= i < |spans| && Covers(spans[i], t) ensures spans[i].mark.priority <= p {
        MarksAreCovering(spans, t, spans[i].mark);
      }
      var winners := Winners(marks, p);
      WinnerLabels(spans, t, p);
      WinnersExist(marks);
      assert winners[0].name in Labels(winners);
      MarksAreCovering(spans, t, winners[0]);
      if |Labels(winners)| == 1 {
        Singleton(Labels(winners), winners[0].name);
      }
      assert TopAt(spans, t, p, KeyAt(spans, t));
    }
  }

  function LabelsAt(spans: seq<Span>, t: int, p: int): set<string> {
    set i | 0 <= i < |spans| && Covers(spans[i], t) && spans[i].mark.priority == p :: spans[i].mark.name
  }

  lemma {:induction false} WinnerLabels(spans: seq<Span>, t: int, p: int)
    ensures Labels(Winners(MarksAt(spans, t), p)) == LabelsAt(spans, t, p)
  {
    var winners := Winners(MarksAt(spans, t), p);
    forall name ensures name in Labels(winners) <==> name in LabelsAt(spans, t, p) {
      if name in Labels(winners) {
        var m :| m in winners && m.name == name;
        MarksAreCovering(spans, t, m);
      }
      if name in LabelsAt(spans, t, p) {
        var i :| 0 <= i < |spans| && Covers(spans[i], t) && spans[i].mark.priority == p && spans[i].mark.name == name;
        MarksAreCovering(spans, t, spans[i].mark);
      }
    }
  }

  lemma Singleton(s: set<string>, x: string)
    requires |s| == 1 && x in s
    ensures s == {x}
  {
    assert |s - {x}| == 0;
  }

  // ----- nested stages -----

  /** `a` holds `b` and more, on the same Job. */
  predicate Encloses(a: Span, b: Span) {
    a.job == b.job && a.start <= b.start && a.end >= b.end && (a.start < b.start || a.end > b.end)
  }

  function Depth(spans: seq<Span>, span: Span): nat {
    if spans == [] then 0 else (if Encloses(spans[0], span) then 1 else 0) + Depth(spans[1..], span)
  }

  lemma {:induction false} DepthOfLast(spans: seq<Span>, span: Span)
    requires spans != []
    ensures var n := |spans| - 1; Depth(spans, span) == Depth(spans[..n], span) + Depth([spans[n]], span)
  {
    var n := |spans| - 1;
    if n > 0 {
      DepthOfLast(spans[1..], span);
      assert spans[1..][..n - 1] == spans[..n][1..];
    }
  }

  /** The spans of the same Job that hold this one and more. */
  ghost function Around(spans: seq<Span>, span: Span): set<int> {
    set i | 0 <= i < |spans| && spans[i].job == span.job && spans[i].start <= span.start <= span.end <= spans[i].end
            && (spans[i].start != span.start || spans[i].end != span.end)
  }

  /** The depth of a stage is their number. */
  lemma {:induction false} DepthIsCount(spans: seq<Span>, span: Span)
    requires span.start <= span.end
    ensures Depth(spans, span) == |Around(spans, span)|
  {
    if spans != [] {
      var n := |spans| - 1;
      DepthIsCount(spans[..n], span);
      DepthOfLast(spans, span);
      assert Around(spans, span) == Around(spans[..n], span) + (if Encloses(spans[n], span) then {n} else {});
    }
  }

  /** Every stage is raised above those that enclose it. */
  function Raised(spans: seq<Span>): (r: seq<Span>)
    ensures |r| == |spans|
  {
    seq(|spans|, i requires 0 <= i < |spans| =>
      spans[i].(mark := spans[i].mark.(priority := spans[i].mark.priority + Depth(spans, spans[i]))))
  }

  lemma {:induction false} DepthGrows(spans: seq<Span>, outer: Span, inner: Span)
    requires Encloses(outer, inner)
    ensures Depth(spans, inner) >= Depth(spans, outer) + (if outer in spans then 1 else 0)
  {
    if spans != [] { DepthGrows(spans[1..], outer, inner); }
  }

  /** A stage strictly inside another one of its Job always wins against it. */
  lemma NestedStageWins(spans: seq<Span>, i: nat, j: nat)
    requires i < |spans| && j < |spans| && Encloses(spans[i], spans[j])
    requires spans[i].mark.priority == spans[j].mark.priority
    ensures Raised(spans)[i].mark.priority < Raised(spans)[j].mark.priority
  {
    DepthGrows(spans, spans[i], spans[j]);
  }
}
