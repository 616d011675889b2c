/**
 The time a Case waited for its user: how the wait spans are read off the journey, and that the sweep gives
 them all of their time.
 */
module WaitTime {
  import opened Timing

  datatype Status = WaitingInput | WaitingAttachment | Interrupted | OtherStatus(name: string)

  predicate IsWait(s: Status) { !s.OtherStatus? }

  /** The events a wait depends on; a status event may lack a readable status. */
  datatype Kind = EndsWait | StatusChanged(to: Option<Status>) | OtherEvent

  datatype Line = Line(time: int, number: nat, kind: Kind)

  predicate Ordered(lines: seq<Line>) { forall i, j :: 0 <= i <= j < |lines| ==> lines[i].time <= lines[j].time }

  const WAIT_PRIORITY := 100

  /** Stage labels join the type of the Job and the stage with a slash; the labels of waits have none. */
  predicate Slashed(name: string) { '/' in name }

  function WaitLabel(status: Status): (r: string)
    ensures IsWait(status) ==> !Slashed(r)
  {
    match status
    case WaitingInput => "等待材料（WAITING_INPUT）"
    case WaitingAttachment => "等待材料（WAITING_ATTACHMENT）"
    case Interrupted => "等待材料（INTERRUPTED）"
    case OtherStatus(name) => "等待材料（" + name + "）"
  }

  datatype Active = Active(status: Status, started: Line)

  datatype Waits = Waits(spans: seq<Span>, active: Option<Active>)

  function WaitSpan(active: Active, end: int): Span {
    Span(Mark(WaitLabel(active.status), UserWait, WAIT_PRIORITY), active.started.time, end, active.started.number, None)
  }

  function Finish(w: Waits, end: int): Waits {
    if w.active.Some? then Waits(w.spans + [WaitSpan(w.active.value, end)], None) else w
  }

  /** What one line makes of the waits read so far. */
  function Feed(w: Waits, line: Line): Waits {
    match line.kind
    case EndsWait => Finish(w, line.time)
    case OtherEvent => w
    case StatusChanged(to) =>
      var w1 := if w.active.Some? && to != Some(w.active.value.status) then Finish(w, line.time) else w;
      if to.Some? && IsWait(to.value) then w1.(active := Some(Active(to.value, line))) else w1
  }

  function FeedAll(lines: seq<Line>): Waits {
    if lines == [] then Waits([], None) else Feed(FeedAll(lines[..|lines| - 1]), lines[|lines| - 1])
  }

  function WaitSpans(lines: seq<Line>, asOf: int): seq<Span> { Finish(FeedAll(lines), asOf).spans }

  method CollectWaitSpans(lines: seq<Line>, asOf: int) returns (spans: seq<Span>)
    ensures spans == WaitSpans(lines, asOf)
    ensures forall x :: x in spans <==> IsPair(lines, x) || IsOpenWait(lines, asOf, x)
    ensures lines != [] && Ordered(lines) && asOf == lines[|lines| - 1].time ==>
      forall t :: Covered(spans, t) <==> t < asOf && WaitsAt(lines, t)
  {
    spans := [];
    var active: Option<Active> := None;
    var i := 0;
    while i < |lines|
      invariant i <= |lines| && Waits(spans, active) == FeedAll(lines[..i])
    {
      var line := lines[i];
      assert lines[..i + 1][..i] == lines[..i];
      if active.Some? && line.kind.EndsWait? {
        spans := spans + [WaitSpan(active.value, line.time)];
        active := None;
      }
      if line.kind.StatusChanged? {
        var to := line.kind.to;
        if active.Some? && to != Some(active.value.status) {
          spans := spans + [WaitSpan(active.value, line.time)];
          active := None;
        }
        if to.Some? && IsWait(to.value) { active := Some(Active(to.value, line)); }
      }
      i := i + 1;
    }
    assert lines[..i] == lines;
    if active.Some? { spans := spans + [WaitSpan(active.value, asOf)]; }
    forall x ensures x in spans <==> IsPair(lines, x) || IsOpenWait(lines, asOf, x) { SpansAreWaits(lines, asOf, x); }
    if lines != [] && Ordered(lines) && asOf == lines[|lines| - 1].time {
      forall t ensures Covered(spans, t) <==> t < asOf && WaitsAt(lines, t) { SpansCoverWaiting(lines, t); }
    }
  }

  // ----- the waits follow one another -----

  /** Wait spans one after the other inside [lo, hi]. */
  predicate Chained(spans: seq<Span>, lo: int, hi: int) {
    && lo <= hi
    && (forall i :: 0 <= i < |spans| ==>
          && lo <= spans[i].start <= spans[i].end <= hi
          && spans[i].mark.category == UserWait && spans[i].mark.priority == WAIT_PRIORITY
          && !Slashed(spans[i].mark.name))
    && (forall i, j :: 0 <= i < j < |spans| ==> spans[i].end <= spans[j].start)
  }

  predicate WaitsOk(w: Waits, lo: int, hi: int) {
    && Chained(w.spans, lo, hi)
    && (w.active.Some? ==>
          && IsWait(w.active.value.status) && lo <= w.active.value.started.time <= hi
          && forall i :: 0 <= i < |w.spans| ==> w.spans[i].end <= w.active.value.started.time)
  }

  lemma FinishOk(w: Waits, lo: int, hi: int, end: int)
    requires WaitsOk(w, lo, hi) && hi <= end
    ensures WaitsOk(Finish(w, end), lo, end)
  {}

  lemma FeedOk(w: Waits, lo: int, hi: int, line: Line)
    requires WaitsOk(w, lo, hi) && hi <= line.time
    ensures WaitsOk(Feed(w, line), lo, line.time)
  {
    FinishOk(w, lo, hi, line.time);
    hide Slashed;
  }

  lemma NoWaitsOk(lo: int)
    ensures WaitsOk(Waits([], None), lo, lo)
  {}

  lemma {:induction false} FeedAllOk(lines: seq<Line>)
    requires lines != [] && Ordered(lines)
    ensures WaitsOk(FeedAll(lines), lines[0].time, lines[|lines| - 1].time)
  {
    var n := |lines| - 1;
    var before := lines[..n];
    hide Feed, WaitsOk;
    if n == 0 {
      assert FeedAll(before) == Waits([], None);
      NoWaitsOk(lines[0].time);
      FeedOk(Waits([], None), lines[0].time, lines[0].time, lines[0]);
    } else {
      FeedAllOk(before);
      assert before[n - 1] == lines[n - 1];
      FeedOk(FeedAll(before), lines[0].time, lines[n - 1].time, lines[n]);
    }
  }

  /** With times that never go back, the wait spans are disjoint and inside the journey. */
  lemma WaitsAreDisjoint(lines: seq<Line>, asOf: int)
    requires lines != [] && Ordered(lines) && asOf == lines[|lines| - 1].time
    ensures Chained(WaitSpans(lines, asOf), lines[0].time, asOf)
  {
    FeedAllOk(lines);
    FinishOk(FeedAll(lines), lines[0].time, asOf, asOf);
  }

  // ----- when a Case waits, read off the lines alone -----

  /** The line sets a status in which the Case waits for its user. */
  predicate Sets(line: Line, s: Status) {
    line.kind == StatusChanged(Some(s)) && (s == WaitingInput || s == WaitingAttachment || s == Interrupted)
  }

  /** The line ends a wait in status `s`: an ending event, or a status event with another status or none. */
  predicate Ends(line: Line, s: Status) {
    line.kind == EndsWait || (line.kind.StatusChanged? && line.kind.to != Some(s))
  }

  /** Line `i` sets the wait that line `k` ends, with nothing to the wait in between. */
  ghost predicate Pair(lines: seq<Line>, i: int, k: int, s: Status) {
    && 0 <= i < k < |lines| && Sets(lines[i], s) && Ends(lines[k], s)
    && forall j :: i < j < k ==> lines[j].kind == OtherEvent
  }

  /** Line `i` sets a wait that nothing has ended or set anew. */
  ghost predicate Last(lines: seq<Line>, i: int, s: Status) {
    0 <= i < |lines| && Sets(lines[i], s) && forall j :: i < j < |lines| ==> lines[j].kind == OtherEvent
  }

  /**
   At `t` the Case waits in the status that line `i` has set: up to `t` no event ended the wait or set a status, and
   the same status is not set anew before the wait has ended.
   */
  ghost predicate WaitsSince(lines: seq<Line>, i: int, s: Status, t: int) {
    && 0 <= i < |lines| && Sets(lines[i], s) && lines[i].time <= t
    && (forall j :: i < j < |lines| && lines[j].time <= t ==> !Ends(lines[j], s))
    && (forall j :: i < j < |lines| && Sets(lines[j], s) ==> exists m :: i < m < j && Ends(lines[m], s))
  }

  ghost predicate WaitsAt(lines: seq<Line>, t: int) { exists i, s :: WaitsSince(lines, i, s, t) }

  lemma {:induction false} ActiveIsLast(lines: seq<Line>)
    ensures var a := FeedAll(lines).active;
            && (a.Some? ==> exists i :: Last(lines, i, a.value.status) && lines[i] == a.value.started)
            && (forall i, s :: Last(lines, i, s) ==> a == Some(Active(s, lines[i])))
  {
    if lines != [] {
      var n := |lines| - 1;
      var before, line := lines[..n], lines[n];
      ActiveIsLast(before);
      var a := FeedAll(lines).active;
      forall i, s | Last(lines, i, s) ensures a == Some(Active(s, lines[i])) {
        if i < n { assert Last(before, i, s); }
      }
      if a.Some? {
        if line.kind.StatusChanged? {
          assert Last(lines, n, a.value.status);
        } else {
          var i :| Last(before, i, a.value.status) && before[i] == a.value.started;
          assert Last(lines, i, a.value.status);
        }
      }
    }
  }

  /** The span that a pair stands for. */
  function PairSpan(lines: seq<Line>, i: int, k: int, s: Status): Span
    requires 0 <= i < |lines| && 0 <= k < |lines|
  {
    WaitSpan(Active(s, lines[i]), lines[k].time)
  }

  ghost predicate IsPair(lines: seq<Line>, x: Span) {
    exists i, k, s :: Pair(lines, i, k, s) && x == PairSpan(lines, i, k, s)
  }

  /** What one more line adds: the pair it closes, if the wait before it is still on. */
  lemma PairsGrow(lines: seq<Line>, x: Span)
    requires lines != []
    ensures var n := |lines| - 1; var before := lines[..n];
            IsPair(lines, x) <==>
              || IsPair(before, x)
              || exists i, s :: Last(before, i, s) && Ends(lines[n], s) && x == PairSpan(lines, i, n, s)
  {
    var n := |lines| - 1;
    var before := lines[..n];
    if IsPair(lines, x) {
      var i, k, s :| Pair(lines, i, k, s) && x == PairSpan(lines, i, k, s);
      if k < n { assert Pair(before, i, k, s) && x == PairSpan(before, i, k, s); } else { assert Last(before, i, s); }
    }
    if IsPair(before, x) {
      var i, k, s :| Pair(before, i, k, s) && x == PairSpan(before, i, k, s);
      assert Pair(lines, i, k, s) && x == PairSpan(lines, i, k, s);
    }
    if i, s :| Last(before, i, s) && Ends(lines[n], s) && x == PairSpan(lines, i, n, s) {
      assert Pair(lines, i, n, s);
    }
  }

  /** The finished spans are those of the pairs. */
  lemma {:induction false} SpansArePairs(lines: seq<Line>, x: Span)
    ensures x in FeedAll(lines).spans <==> IsPair(lines, x)
  {
    if lines != [] {
      var n := |lines| - 1;
      var before := lines[..n];
      SpansArePairs(before, x);
      ActiveIsLast(before);
      PairsGrow(lines, x);
      hide IsPair, Last;
      var w, w2 := FeedAll(before), FeedAll(lines);
      if w.active.Some? {
        var s := w.active.value.status;
        var i :| Last(before, i, s) && before[i] == w.active.value.started;
        assert w2.spans == if Ends(lines[n], s) then w.spans + [PairSpan(lines, i, n, s)] else w.spans;
      }
    }
  }

  /** The span of the wait that is still on at the end. */
  ghost predicate IsOpenWait(lines: seq<Line>, asOf: int, x: Span) {
    exists i, s :: Last(lines, i, s) && x == WaitSpan(Active(s, lines[i]), asOf)
  }

  /** Finished or still on, every wait has its span, and nothing else has one. */
  lemma SpansAreWaits(lines: seq<Line>, asOf: int, x: Span)
    ensures x in WaitSpans(lines, asOf) <==> IsPair(lines, x) || IsOpenWait(lines, asOf, x)
  {
    ActiveIsLast(lines);
    SpansArePairs(lines, x);
    hide FeedAll, IsPair, Last;
  }

  /** The first line after `i` that is more than another event, if there is one. */
  lemma {:induction false} NextOne(lines: seq<Line>, i: nat, to: nat) returns (k: nat)
    requires i < to <= |lines|
    ensures i < k <= to && (forall j :: i < j < k ==> lines[j].kind == OtherEvent)
    ensures k < to ==> lines[k].kind != OtherEvent
  {
    k := i + 1;
    while k < to && lines[k].kind == OtherEvent
      invariant i < k <= to && forall j :: i < j < k ==> lines[j].kind == OtherEvent
    {
      k := k + 1;
    }
  }

  lemma PairWaits(lines: seq<Line>, i: int, k: int, s: Status, t: int)
    requires Ordered(lines) && Pair(lines, i, k, s) && lines[i].time <= t < lines[k].time
    ensures WaitsSince(lines, i, s, t)
  {}

  lemma LastWaits(lines: seq<Line>, i: int, s: Status, t: int)
    requires Last(lines, i, s) && lines[i].time <= t
    ensures WaitsSince(lines, i, s, t)
  {}

  lemma WaitsInOne(lines: seq<Line>, i: int, s: Status, t: int)
    requires WaitsSince(lines, i, s, t)
    ensures Last(lines, i, s) || exists k :: Pair(lines, i, k, s) && t < lines[k].time
  {
    var k := NextOne(lines, i, |lines|);
    if k < |lines| { assert Pair(lines, i, k, s); }
  }

  lemma CoveredWaits(lines: seq<Line>, t: int)
    requires lines != [] && Ordered(lines) && Covered(WaitSpans(lines, lines[|lines| - 1].time), t)
    ensures t < lines[|lines| - 1].time && WaitsAt(lines, t)
  {
    var asOf := lines[|lines| - 1].time;
    var spans, w := WaitSpans(lines, asOf), FeedAll(lines);
    ActiveIsLast(lines);
    hide FeedAll, WaitsSince, Ordered, Pair, Last;
    var n :| 0 <= n < |spans| && Covers(spans[n], t);
    if n < |w.spans| {
      SpansArePairs(lines, w.spans[n]);
      var i, k, s :| Pair(lines, i, k, s) && w.spans[n] == PairSpan(lines, i, k, s);
      PairWaits(lines, i, k, s, t);
      EndOfAll(lines, k);
    } else {
      var s := w.active.value.status;
      var i :| Last(lines, i, s) && lines[i] == w.active.value.started;
      LastWaits(lines, i, s, t);
    }
  }

  lemma WaitingIsCovered(lines: seq<Line>, t: int)
    requires lines != [] && t < lines[|lines| - 1].time && WaitsAt(lines, t)
    ensures Covered(WaitSpans(lines, lines[|lines| - 1].time), t)
  {
    var asOf := lines[|lines| - 1].time;
    var spans, w := WaitSpans(lines, asOf), FeedAll(lines);
    ActiveIsLast(lines);
    hide FeedAll, WaitsSince, Pair, Last;
    var i, s :| WaitsSince(lines, i, s, t);
    WaitsInOne(lines, i, s, t);
    SetBefore(lines, i, s, t);
    if Last(lines, i, s) {
      IsCovered(spans, |w.spans|, t);
    } else {
      var k :| Pair(lines, i, k, s) && t < lines[k].time;
      var x := PairSpan(lines, i, k, s);
      assert IsPair(lines, x);
      SpansArePairs(lines, x);
      var n :| 0 <= n < |w.spans| && w.spans[n] == x;
      assert spans[n] == x;
      IsCovered(spans, n, t);
    }
  }

  /** The wait spans cover exactly the instants at which the Case waits. */
  lemma SpansCoverWaiting(lines: seq<Line>, t: int)
    requires lines != [] && Ordered(lines)
    ensures var asOf := lines[|lines| - 1].time; Covered(WaitSpans(lines, asOf), t) <==> t < asOf && WaitsAt(lines, t)
  {
    hide Covered, WaitSpans, WaitsAt, Ordered;
    var asOf := lines[|lines| - 1].time;
    if Covered(WaitSpans(lines, asOf), t) { CoveredWaits(lines, t); }
    if t < asOf && WaitsAt(lines, t) { WaitingIsCovered(lines, t); }
  }

  lemma EndOfAll(lines: seq<Line>, k: int)
    requires Ordered(lines) && 0 <= k < |lines|
    ensures lines[k].time <= lines[|lines| - 1].time
  {}

  lemma SetBefore(lines: seq<Line>, i: int, s: Status, t: int)
    requires WaitsSince(lines, i, s, t)
    ensures 0 <= i < |lines| && lines[i].time <= t
  {}

  // ----- and get all of their time -----

  function Lengths(spans: seq<Span>): int {
    if spans == [] then 0 else Lengths(spans[..|spans| - 1]) + spans[|spans| - 1].end - spans[|spans| - 1].start
  }

  predicate Covered(spans: seq<Span>, t: int) { exists i :: 0 <= i < |spans| && Covers(spans[i], t) }

  function CoverCount(spans: seq<Span>, a: int, b: int): nat
    decreases b - a
  {
    if b <= a then 0 else CoverCount(spans, a, b - 1) + (if Covered(spans, b - 1) then 1 else 0)
  }

  /** Counting on from `b`, where another cover agrees up to `b` and everything or nothing is covered after it. */
  lemma {:induction false} CountOn(spans: seq<Span>, a: int, b: int, c: int, all: bool)
    requires a <= b <= c && forall t :: b <= t < c ==> Covered(spans, t) == all
    ensures CoverCount(spans, a, c) == CoverCount(spans, a, b) + (if all then c - b else 0)
    decreases c - b
  {
    if b < c { CountOn(spans, a, b, c - 1, all); }
  }

  lemma {:induction false} SameCount(spans: seq<Span>, other: seq<Span>, a: int, b: int)
    requires forall t :: a <= t < b ==> Covered(spans, t) == Covered(other, t)
    ensures CoverCount(spans, a, b) == CoverCount(other, a, b)
    decreases b - a
  {
    if a < b { SameCount(spans, other, a, b - 1); }
  }

  lemma {:induction false} NothingCovered(lo: int, hi: int)
    requires lo <= hi
    ensures CoverCount([], lo, hi) == 0
  {
    CountOn([], lo, lo, hi, false);
  }

  lemma BeforeLast(spans: seq<Span>, lo: int, hi: int, t: int)
    requires Chained(spans, lo, hi) && spans != [] && t < spans[|spans| - 1].start
    ensures Covered(spans, t) == Covered(spans[..|spans| - 1], t)
  {
    var n := |spans| - 1;
    if Covered(spans, t) {
      var i :| 0 <= i < |spans| && Covers(spans[i], t);
      assert spans[..n][i] == spans[i];
    }
    if Covered(spans[..n], t) {
      var i :| 0 <= i < n && Covers(spans[..n][i], t);
      assert Covers(spans[i], t);
    }
  }

  lemma IsCovered(spans: seq<Span>, i: nat, t: int)
    requires i < |spans| && Covers(spans[i], t)
    ensures Covered(spans, t)
  {}

  lemma AfterLast(spans: seq<Span>, lo: int, hi: int, t: int)
    requires Chained(spans, lo, hi) && spans != [] && t >= spans[|spans| - 1].end
    ensures !Covered(spans, t)
  {}

  lemma {:induction false} ChainedCount(spans: seq<Span>, lo: int, hi: int)
    requires Chained(spans, lo, hi)
    ensures CoverCount(spans, lo, hi) == Lengths(spans)
  {
    hide Covered, CoverCount;
    if spans == [] {
      NothingCovered(lo, hi);
    } else {
      var n := |spans| - 1;
      var before, last := spans[..n], spans[n];
      ChainedCount(before, lo, last.start);
      forall t | lo <= t < last.start ensures Covered(spans, t) == Covered(before, t) { BeforeLast(spans, lo, hi, t); }
      SameCount(spans, before, lo, last.start);
      forall t | last.start <= t < last.end ensures Covered(spans, t) { IsCovered(spans, n, t); }
      CountOn(spans, lo, last.start, last.end, true);
      forall t | last.end <= t < hi ensures !Covered(spans, t) { AfterLast(spans, lo, hi, t); }
      CountOn(spans, lo, last.end, hi, false);
    }
  }

  /** No waits, and where a label could tie with a wait it is another one. */
  predicate Others(spans: seq<Span>) {
    forall i :: 0 <= i < |spans| ==>
      spans[i].mark.category != UserWait && (spans[i].mark.priority >= WAIT_PRIORITY ==> Slashed(spans[i].mark.name))
  }

  /** Something at least as high as a wait is going on. */
  predicate Taken(others: seq<Span>, t: int) {
    exists i :: 0 <= i < |others| && Covers(others[i], t) && others[i].mark.priority >= WAIT_PRIORITY
  }

  lemma OneWaitAt(waits: seq<Span>, lo: int, hi: int, i: nat, j: nat, t: int)
    requires Chained(waits, lo, hi) && i < |waits| && j < |waits| && Covers(waits[i], t) && Covers(waits[j], t)
    ensures i == j
  {}

  lemma WaitWins(waits: seq<Span>, others: seq<Span>, lo: int, hi: int, i: nat, t: int)
    requires Chained(waits, lo, hi) && Others(others) && i < |waits| && Covers(waits[i], t) && !Taken(others, t)
    ensures KeyCategory(KeyAt(waits + others, t)) == UserWait
  {
    var spans := waits + others;
    var key := KeyAt(spans, t);
    HighestPriorityWins(spans, t);
    assert Covers(spans[i], t);
    var p :| TopAt(spans, t, p, key);
    hide KeyAt;
    var name := waits[i].mark.name;
    forall j | 0 <= j < |spans| && Covers(spans[j], t) && spans[j].mark.priority == p ensures j == i {
      if j < |waits| { OneWaitAt(waits, lo, hi, i, j, t); }
    }
    forall l ensures l in LabelsAt(spans, t, p) <==> l == name {
      var l0 :| l0 in LabelsAt(spans, t, p);
    }
    assert LabelsAt(spans, t, p) == {name};
    var k :| 0 <= k < |spans| && Covers(spans[k], t) && spans[k].mark == Mark(key.name, key.category, p);
  }

  lemma OnlyWaitsCount(waits: seq<Span>, others: seq<Span>, lo: int, hi: int, t: int)
    requires Chained(waits, lo, hi) && Others(others) && (!Covered(waits, t) || Taken(others, t))
    ensures KeyCategory(KeyAt(waits + others, t)) != UserWait
  {
    var spans := waits + others;
    var key := KeyAt(spans, t);
    HighestPriorityWins(spans, t);
    hide KeyAt;
    if key.One? {
      var p :| TopAt(spans, t, p, key);
      var k :| 0 <= k < |spans| && Covers(spans[k], t) && spans[k].mark == Mark(key.name, key.category, p);
      assert spans[k] == if k < |waits| then waits[k] else others[k - |waits|];
      if Taken(others, t) {
        var j :| 0 <= j < |others| && Covers(others[j], t) && others[j].mark.priority >= WAIT_PRIORITY;
        assert spans[|waits| + j] == others[j];
        assert p > WAIT_PRIORITY || others[j].mark.name in LabelsAt(spans, t, p);
      }
    }
  }

  /** Waiting time never exceeds the covered instants, and meets them iff nothing takes one. */
  lemma {:induction false} WaitMeasure(waits: seq<Span>, others: seq<Span>, lo: int, hi: int, b: int)
    requires Chained(waits, lo, hi) && Others(others)
    ensures CategoryMeasure(waits + others, UserWait, lo, b) <= CoverCount(waits, lo, b)
    ensures CategoryMeasure(waits + others, UserWait, lo, b) == CoverCount(waits, lo, b)
            <==> forall t :: lo <= t < b && Covered(waits, t) ==> !Taken(others, t)
    decreases b - lo
  {
    hide KeyAt, Covered, Taken, Chained, Others;
    if lo < b {
      WaitMeasure(waits, others, lo, hi, b - 1);
      WinsIff(waits, others, lo, hi, b - 1);
    }
  }

  /** An instant counts as waiting iff a wait covers it and nothing as high goes on. */
  lemma WinsIff(waits: seq<Span>, others: seq<Span>, lo: int, hi: int, t: int)
    requires Chained(waits, lo, hi) && Others(others)
    ensures KeyCategory(KeyAt(waits + others, t)) == UserWait <==> Covered(waits, t) && !Taken(others, t)
  {
    hide KeyAt, Taken, Chained, Others;
    if Covered(waits, t) && !Taken(others, t) {
      var i :| 0 <= i < |waits| && Covers(waits[i], t);
      WaitWins(waits, others, lo, hi, i, t);
    } else {
      OnlyWaitsCount(waits, others, lo, hi, t);
    }
  }

  const STAGE_PRIORITY := 40

  predicate Stages(stages: seq<Span>) {
    forall i :: 0 <= i < |stages| ==>
      && stages[i].mark.priority == STAGE_PRIORITY && stages[i].mark.category == Stage
      && Slashed(stages[i].mark.name)
  }

  predicate BelowWaits(spans: seq<Span>) {
    forall i :: 0 <= i < |spans| ==> spans[i].mark.priority < WAIT_PRIORITY && spans[i].mark.category != UserWait
  }

  /** A stage under 60 or more others goes on at `t`. */
  predicate DeepAt(stages: seq<Span>, t: int) {
    exists i :: 0 <= i < |stages| && Covers(stages[i], t) && Depth(stages, stages[i]) >= 60
  }

  lemma {:induction false} OnlyDeepStagesTake(stages: seq<Span>, rest: seq<Span>, t: int)
    requires Stages(stages) && BelowWaits(rest)
    ensures Others(Raised(stages) + rest)
    ensures Taken(Raised(stages) + rest, t) <==> DeepAt(stages, t)
  {
    hide Depth, Slashed;
    var raised := Raised(stages);
    var all := raised + rest;
    assert forall i :: 0 <= i < |all| ==> all[i] == if i < |raised| then raised[i] else rest[i - |raised|];
    assert forall i :: 0 <= i < |raised| ==> raised[i].mark.priority == STAGE_PRIORITY + Depth(stages, stages[i]);
    if Taken(all, t) {
      var i :| 0 <= i < |all| && Covers(all[i], t) && all[i].mark.priority >= WAIT_PRIORITY;
      assert i < |raised| && Covers(stages[i], t);
    }
    if DeepAt(stages, t) {
      var i :| 0 <= i < |stages| && Covers(stages[i], t) && Depth(stages, stages[i]) >= 60;
      assert Covers(all[i], t);
    }
  }

  function WaitTime(lines: seq<Line>, stages: seq<Span>, rest: seq<Span>): int
    requires lines != []
  {
    var asOf := lines[|lines| - 1].time;
    CategoryMeasure(WaitSpans(lines, asOf) + (Raised(stages) + rest), UserWait, lines[0].time, asOf)
  }

  lemma OutsideTheJourney(waits: seq<Span>, lo: int, hi: int, t: int)
    requires Chained(waits, lo, hi) && Covered(waits, t)
    ensures lo <= t < hi
  {}

  /** The instants of [a, b) at which the Case waits and no stage 60 levels deep goes on. */
  ghost function Waited(lines: seq<Line>, stages: seq<Span>, a: int, b: int): nat
    decreases b - a
  {
    if b <= a then 0
    else Waited(lines, stages, a, b - 1) + (if WaitsAt(lines, b - 1) && !DeepAt(stages, b - 1) then 1 else 0)
  }

  lemma {:induction false} MeasureIsWaited(lines: seq<Line>, stages: seq<Span>, rest: seq<Span>, b: int)
    requires lines != [] && Ordered(lines) && Stages(stages) && BelowWaits(rest) && b <= lines[|lines| - 1].time
    ensures var waits := WaitSpans(lines, lines[|lines| - 1].time);
            CategoryMeasure(waits + (Raised(stages) + rest), UserWait, lines[0].time, b)
            == Waited(lines, stages, lines[0].time, b)
    decreases b - lines[0].time
  {
    hide KeyAt, Covered, Taken, DeepAt, Others, Stages, BelowWaits, Raised, WaitSpans, Ordered, WaitsAt, Chained;
    var asOf := lines[|lines| - 1].time;
    var waits, others := WaitSpans(lines, asOf), Raised(stages) + rest;
    if lines[0].time < b {
      MeasureIsWaited(lines, stages, rest, b - 1);
      WaitsAreDisjoint(lines, asOf);
      OnlyDeepStagesTake(stages, rest, b - 1);
      WinsIff(waits, others, lines[0].time, asOf, b - 1);
      SpansCoverWaiting(lines, b - 1);
    }
  }

  lemma {:induction false} LengthsAreWaited(lines: seq<Line>, b: int)
    requires lines != [] && Ordered(lines) && b <= lines[|lines| - 1].time
    ensures CoverCount(WaitSpans(lines, lines[|lines| - 1].time), lines[0].time, b)
            == Waited(lines, [], lines[0].time, b)
    decreases b - lines[0].time
  {
    hide Covered, WaitSpans, Ordered, WaitsAt;
    if lines[0].time < b {
      LengthsAreWaited(lines, b - 1);
      SpansCoverWaiting(lines, b - 1);
    }
  }

  /**
   On a journey whose times never go back, the reported waiting time is the number of instants at which the Case
   waits and no stage 60 levels deep goes on, whatever else was going on.  The wait spans together last as long as
   the Case waits, so the report meets them exactly when no such stage goes on while the Case waits.
   */
  lemma {:induction false} WaitTimeIff(lines: seq<Line>, stages: seq<Span>, rest: seq<Span>)
    requires lines != [] && Ordered(lines) && Stages(stages) && BelowWaits(rest)
    ensures var first, asOf := lines[0].time, lines[|lines| - 1].time; var waits := WaitSpans(lines, asOf);
            && WaitTime(lines, stages, rest) == Waited(lines, stages, first, asOf)
            && Lengths(waits) == Waited(lines, [], first, asOf) && WaitTime(lines, stages, rest) <= Lengths(waits)
            && (WaitTime(lines, stages, rest) == Lengths(waits)
                <==> forall t :: t < asOf && WaitsAt(lines, t) ==> !DeepAt(stages, t))
  {
    hide Covered, DeepAt, Taken, Others, Stages, BelowWaits, Raised, WaitSpans, Ordered, WaitsAt;
    var asOf := lines[|lines| - 1].time;
    var waits, others := WaitSpans(lines, asOf), Raised(stages) + rest;
    WaitsAreDisjoint(lines, asOf);
    forall t ensures Others(others) && (Taken(others, t) <==> DeepAt(stages, t)) {
      OnlyDeepStagesTake(stages, rest, t);
    }
    OnlyDeepStagesTake(stages, rest, 0);
    WaitMeasure(waits, others, lines[0].time, asOf, asOf);
    ChainedCount(waits, lines[0].time, asOf);
    MeasureIsWaited(lines, stages, rest, asOf);
    LengthsAreWaited(lines, asOf);
    forall t ensures Covered(waits, t) <==> t < asOf && WaitsAt(lines, t) { SpansCoverWaiting(lines, t); }
    forall t | Covered(waits, t) ensures lines[0].time <= t < asOf { OutsideTheJourney(waits, lines[0].time, asOf, t); }
  }

  // ----- a journey that loses waiting time -----

  /** A stage of one Job that starts at `i` and ends as long before the last line. */
  function Nested(i: nat): Span { Span(Mark("LOCATE / TOOL", Stage, STAGE_PRIORITY), i, 122 - i, i, Some("job")) }

  function Nest(n: nat): seq<Span> { seq(n, i requires 0 <= i < n => Nested(i)) }

  lemma {:induction false} DepthCounts(spans: seq<Span>, n: nat, x: Span)
    requires n <= |spans| && forall i :: 0 <= i < |spans| ==> (Encloses(spans[i], x) <==> i < n)
    ensures Depth(spans, x) == n
  {
    if spans != [] {
      var rest, m := spans[1..], if n > 0 then n - 1 else 0;
      assert forall i :: 0 <= i < |rest| ==> rest[i] == spans[i + 1];
      DepthCounts(rest, m, x);
    }
  }

  function OneWait(): seq<Line> {
    [Line(0, 1, StatusChanged(Some(WaitingInput))), Line(122, 2, OtherEvent)]
  }

  lemma OneWaitSpans()
    ensures WaitSpans(OneWait(), 122) == [WaitSpan(Active(WaitingInput, OneWait()[0]), 122)]
  {
    var lines := OneWait();
    assert lines[..1] == [lines[0]] && lines[..1][..0] == [];
    assert FeedAll(lines[..1]) == Feed(FeedAll([]), lines[0]);
    assert FeedAll(lines) == Feed(FeedAll(lines[..1]), lines[1]);
  }

  lemma NestIsDeep()
    ensures Stages(Nest(61)) && Depth(Nest(61), Nest(61)[60]) == 60 && DeepAt(Nest(61), 60)
  {
    var stages := Nest(61);
    assert Slashed(stages[0].mark.name) by { assert "LOCATE / TOOL"[7] == '/'; }
    hide Depth, Slashed;
    DepthCounts(stages, 60, stages[60]);
    assert Covers(stages[60], 60);
  }

  /** A Case waits throughout; the innermost of 61 nested stages takes time from the wait. */
  lemma SixtyLevelsTakeWaitTime()
    ensures Ordered(OneWait()) && Stages(Nest(61)) && Depth(Nest(61), Nest(61)[60]) == 60
    ensures WaitTime(OneWait(), Nest(61), []) < Lengths(WaitSpans(OneWait(), 122))
  {
    NestIsDeep();
    OneWaitSpans();
    hide FeedAll, WaitSpans, Nest, Depth, WaitTime, Lengths, Stages, DeepAt, WaitsAt, Waited;
    IsCovered(WaitSpans(OneWait(), 122), 0, 60);
    SpansCoverWaiting(OneWait(), 60);
    WaitTimeIff(OneWait(), Nest(61), []);
  }
}
