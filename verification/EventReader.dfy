/**
 The incremental reader of the follow-up event stream: however the text is cut into chunks, it delivers what a
 reading of the whole text delivers.
 */
module EventReader {
  datatype Option<+T> = None | Some(value: T)

  datatype Event = Event(sequence: nat, content: nat)

  /** Parsing and validation of one event; `None` is what it raises for. */
  type Decoder = string -> Option<Event>

  const LIMIT: nat := 0x10_0000

  datatype Error = Fine | TooLarge | Invalid

  // ----- the whole text at once -----

  /** The place of the first line end, or the length. */
  function LineEnd(text: string): (i: nat)
    ensures i <= |text| && (i < |text| ==> text[i] == '\n') && forall j :: 0 <= j < i ==> text[j] != '\n'
  {
    if text == "" || text[0] == '\n' then 0 else 1 + LineEnd(text[1..])
  }

  function Strip(line: string): (r: string)
    ensures |line| - 1 <= |r| <= |line|
  {
    if line != "" && line[|line| - 1] == '\r' then line[..|line| - 1] else line
  }

  /** The complete lines of a text, without their ends. */
  function Lines(text: string): seq<string>
    decreases |text|
  {
    var i := LineEnd(text);
    if i == |text| then [] else [Strip(text[..i])] + Lines(text[i + 1..])
  }

  predicate IsData(line: string) { "data:" <= line }

  function DataOf(line: string): string
    requires IsData(line)
  {
    var v := line[5..];
    if v != "" && v[0] == ' ' then v[1..] else v
  }

  /** An empty line ends a frame; a frame is the data lines before it, `data` being those already seen. */
  function Frames(lines: seq<string>, data: seq<string>): seq<seq<string>> {
    if lines == [] then []
    else if lines[0] == "" then (if data == [] then [] else [data]) + Frames(lines[1..], [])
    else Frames(lines[1..], if IsData(lines[0]) then data + [DataOf(lines[0])] else data)
  }

  function Join(data: seq<string>): string {
    if data == [] then "" else if |data| == 1 then data[0] else data[0] + "\n" + Join(data[1..])
  }

  datatype Outcome = Outcome(events: seq<Event>, error: Error)

  /** Events in order, those at or below the cursor left out, up to the first frame that does not decode. */
  function Deliver(frames: seq<seq<string>>, after: nat, decode: Decoder): Outcome {
    if frames == [] then Outcome([], Fine)
    else
      var e := decode(Join(frames[0]));
      if e.None? then Outcome([], Invalid)
      else if e.value.sequence > after then
        var rest := Deliver(frames[1..], e.value.sequence, decode);
        rest.(events := [e.value] + rest.events)
      else Deliver(frames[1..], after, decode)
  }

  /** What a batch reading of the text delivers. */
  function Batch(text: string, after: nat, decode: Decoder): Outcome { Deliver(Frames(Lines(text), []), after, decode) }

  // ----- the reader -----

  datatype Reader = Reader(buffer: string, data: seq<string>, frame: nat, after: nat, delivered: seq<Event>,
                           error: Error)

  /** One complete line. */
  function TakeLine(r: Reader, raw: string, decode: Decoder): (t: Reader)
    ensures t.buffer == r.buffer
  {
    var line := Strip(raw);
    var r1 := r.(frame := r.frame + |line|);
    if r1.frame > LIMIT then r1.(error := TooLarge)
    else if line == "" then
      if r.data == [] then r1.(frame := 0)
      else
        var e := decode(Join(r.data));
        if e.None? then r1.(error := Invalid)
        else
          var r2 := r1.(data := [], frame := 0);
          if e.value.sequence > r.after
          then r2.(delivered := r.delivered + [e.value], after := e.value.sequence) else r2
    else if IsData(line) then r1.(data := r.data + [DataOf(line)])
    else r1
  }

  function Drain(r: Reader, decode: Decoder): Reader
    decreases |r.buffer|
  {
    var i := LineEnd(r.buffer);
    if r.error != Fine || i == |r.buffer| then r
    else Drain(TakeLine(r.(buffer := r.buffer[i + 1..]), r.buffer[..i], decode), decode)
  }

  function Feed(r: Reader, chunk: string, decode: Decoder): Reader {
    if r.error != Fine then r
    else
      var r1 := Drain(r.(buffer := r.buffer + chunk), decode);
      if r1.error == Fine && |r1.buffer| + r1.frame > LIMIT then r1.(error := TooLarge) else r1
  }

  function ReadAll(r: Reader, chunks: seq<string>, decode: Decoder): Reader
    decreases |chunks|
  {
    if chunks == [] then r else ReadAll(Feed(r, chunks[0], decode), chunks[1..], decode)
  }

  function Fresh(after: nat): Reader { Reader("", [], 0, after, [], Fine) }

  method ReadLine(r: Reader, raw: string, decode: Decoder) returns (t: Reader)
    ensures t == TakeLine(r, raw, decode)
  {
    var data, delivered, error := r.data, r.delivered, r.error;
    var frame: nat, after: nat := r.frame, r.after;
    var line := Strip(raw);
    frame := frame + |line|;
    if frame > LIMIT { error := TooLarge; }
    else if line == "" {
      if data == [] { frame := 0; }
      else {
        var e := decode(Join(data));
        if e.None? { error := Invalid; }
        else {
          if e.value.sequence > after { delivered, after := delivered + [e.value], e.value.sequence; }
          data, frame := [], 0;
        }
      }
    }
    else if IsData(line) { data := data + [DataOf(line)]; }
    t := Reader(r.buffer, data, frame, after, delivered, error);
  }

  /** The inner loop: takes the complete lines out of the buffer. */
  method DrainBuffer(r: Reader, decode: Decoder) returns (t: Reader)
    ensures t == Drain(r, decode)
  {
    hide TakeLine;
    t := r;
    var i := LineEnd(t.buffer);
    while t.error == Fine && i < |t.buffer|
      invariant i == LineEnd(t.buffer) && Drain(t, decode) == Drain(r, decode)
      decreases |t.buffer|
    {
      var raw := t.buffer[..i];
      t := ReadLine(t.(buffer := t.buffer[i + 1..]), raw, decode);
      i := LineEnd(t.buffer);
    }
  }

  method Events(chunks: seq<string>, after: nat, decode: Decoder) returns (r: Reader)
    ensures r == ReadAll(Fresh(after), chunks, decode)
  {
    hide Drain;
    r := Fresh(after);
    var n := 0;
    while n < |chunks| && r.error == Fine
      invariant n <= |chunks| && ReadAll(r, chunks[n..], decode) == ReadAll(Fresh(after), chunks, decode)
    {
      assert chunks[n..][1..] == chunks[n + 1..];
      r := DrainBuffer(r.(buffer := r.buffer + chunks[n]), decode);
      if r.error == Fine && |r.buffer| + r.frame > LIMIT { r := r.(error := TooLarge); }
      n := n + 1;
    }
    Stuck(r, chunks[n..], decode);
  }

  /** A reader that has failed reads no further. */
  lemma {:induction false} Stuck(r: Reader, chunks: seq<string>, decode: Decoder)
    ensures r.error != Fine ==> ReadAll(r, chunks, decode) == r
  {
    if chunks != [] { Stuck(r, chunks[1..], decode); }
  }

  // ----- cutting does not matter -----

  /**
   Nothing a reader ever holds of a frame is over the limit, with the carriage return that may end a line counted, up to
   the first frame that does not decode.  `frame` and `data` are what it holds already.
   */
  predicate Small(frame: nat, data: seq<string>, text: string, decode: Decoder)
    decreases |text|
  {
    var i := LineEnd(text);
    && frame + i <= LIMIT
    && (i < |text| ==>
          var line, rest := Strip(text[..i]), text[i + 1..];
          if line == "" then (data != [] && decode(Join(data)).None?) || Small(0, [], rest, decode)
          else Small(frame + |line|, if IsData(line) then data + [DataOf(line)] else data, rest, decode))
  }

  /** What is still to come, on top of what was delivered. */
  function Onward(r: Reader, text: string, decode: Decoder): Outcome {
    if r.error != Fine then Outcome(r.delivered, r.error)
    else
      var rest := Deliver(Frames(Lines(text), r.data), r.after, decode);
      rest.(events := r.delivered + rest.events)
  }

  lemma {:induction false} FirstLine(a: string, b: string)
    ensures LineEnd(a) < |a| ==> LineEnd(a + b) == LineEnd(a)
    ensures LineEnd(a) == |a| ==> LineEnd(a + b) == |a| + LineEnd(b)
  {
    var t := a + b;
    assert forall j :: 0 <= j < |a| ==> t[j] == a[j];
    assert forall j :: 0 <= j < |b| ==> t[|a| + j] == b[j];
  }

  lemma {:induction false} TakeLineOnward(r: Reader, raw: string, rest: string, decode: Decoder)
    requires r.error == Fine && r.frame + |raw| <= LIMIT
    ensures var t := TakeLine(r, raw, decode); var line := Strip(raw);
            && t.error != TooLarge && t.buffer == r.buffer
            && (t.error == Fine ==> t.frame == if line == "" then 0 else r.frame + |line|)
            && Onward(t, rest, decode)
               == (var d := Deliver(Frames([line] + Lines(rest), r.data), r.after, decode);
                   d.(events := r.delivered + d.events))
  {
    var line := Strip(raw);
    assert ([line] + Lines(rest))[1..] == Lines(rest);
    if line == "" && r.data != [] {
      var fs := Frames([line] + Lines(rest), r.data);
      assert fs[0] == r.data && fs[1..] == Frames(Lines(rest), []);
      var e := decode(Join(r.data));
      if e.Some? && e.value.sequence > r.after {
        var d := Deliver(Frames(Lines(rest), []), e.value.sequence, decode);
        assert r.delivered + [e.value] + d.events == r.delivered + ([e.value] + d.events);
      }
    } else if line == "" {
      assert Frames([line] + Lines(rest), r.data) == Frames(Lines(rest), []);
    }
  }

  lemma DrainStep(r: Reader, decode: Decoder)
    ensures var i := LineEnd(r.buffer);
            Drain(r, decode) == if r.error != Fine || i == |r.buffer| then r
                                else Drain(TakeLine(r.(buffer := r.buffer[i + 1..]), r.buffer[..i], decode), decode)
  {
    hide TakeLine, LineEnd;
  }

  lemma {:induction false} SmallStep(r: Reader, text: string, decode: Decoder)
    requires r.error == Fine
    ensures var i := LineEnd(text);
            Small(r.frame, r.data, text, decode) <==>
              && r.frame + i <= LIMIT
              && (i < |text| ==>
                    var t := TakeLine(r, text[..i], decode);
                    t.error == Invalid || Small(t.frame, t.data, text[i + 1..], decode))
  {
    hide LineEnd, Join, TakeLine, Strip, IsData, DataOf, Small;
    SmallIs(r.frame, r.data, text, decode);
    var i := LineEnd(text);
    if r.frame + i <= LIMIT && i < |text| { TakenLine(r, text[..i], decode); }
  }

  lemma {:induction false} SmallIs(frame: nat, data: seq<string>, text: string, decode: Decoder)
    ensures var i := LineEnd(text);
            Small(frame, data, text, decode) <==>
              && frame + i <= LIMIT
              && (i < |text| ==>
                    var line, rest := Strip(text[..i]), text[i + 1..];
                    if line == "" then (data != [] && decode(Join(data)).None?) || Small(0, [], rest, decode)
                    else Small(frame + |line|, if IsData(line) then data + [DataOf(line)] else data, rest, decode))
  {
    hide LineEnd, Join, Strip, IsData, DataOf;
  }

  /** What a line that fits leaves of a reader. */
  lemma TakenLine(r: Reader, raw: string, decode: Decoder)
    requires r.error == Fine && r.frame + |raw| <= LIMIT
    ensures var t := TakeLine(r, raw, decode); var line := Strip(raw);
            if line == "" then
              if r.data != [] && decode(Join(r.data)).None? then t.error == Invalid
              else t.error == Fine && t.frame == 0 && t.data == []
            else
              && t.error == Fine && t.frame == r.frame + |line|
              && t.data == if IsData(line) then r.data + [DataOf(line)] else r.data
  {
    hide Join;
  }

  lemma {:induction false} DrainOnward(r: Reader, rest: string, decode: Decoder)
    requires r.error == Fine && Small(r.frame, r.data, r.buffer + rest, decode)
    ensures var t := Drain(r, decode);
            && t.error != TooLarge && Onward(t, t.buffer + rest, decode) == Onward(r, r.buffer + rest, decode)
            && (t.error == Fine ==> Small(t.frame, t.data, t.buffer + rest, decode) && LineEnd(t.buffer) == |t.buffer|)
    decreases |r.buffer|
  {
    hide Frames, Deliver, TakeLine, Lines, LineEnd, Strip, Drain, Small;
    DrainStep(r, decode);
    SmallStep(r, r.buffer + rest, decode);
    var i := LineEnd(r.buffer);
    FirstLine(r.buffer, rest);
    if i < |r.buffer| {
      var raw, left := r.buffer[..i], r.buffer[i + 1..];
      LineOff(r.buffer, rest);
      var t := TakeLine(r.(buffer := left), raw, decode);
      TakeLineOnward(r.(buffer := left), raw, left + rest, decode);
      TakesAnyBuffer(r, left, raw, decode);
      if t.error == Fine { DrainOnward(t, rest, decode); } else { DrainStep(t, decode); }
    }
  }

  /** The first line of the text is the first line of the buffer, if that has one. */
  lemma LineOff(a: string, b: string)
    requires LineEnd(a) < |a|
    ensures var i := LineEnd(a);
            && LineEnd(a + b) == i && (a + b)[..i] == a[..i] && (a + b)[i + 1..] == a[i + 1..] + b
            && Lines(a + b) == [Strip(a[..i])] + Lines(a[i + 1..] + b)
  {
    FirstLine(a, b);
    var i := LineEnd(a);
    assert (a + b)[..i] == a[..i] && (a + b)[i + 1..] == a[i + 1..] + b;
  }

  lemma {:induction false} FeedOnward(r: Reader, chunk: string, rest: string, decode: Decoder)
    requires r.error == Fine && Small(r.frame, r.data, r.buffer + (chunk + rest), decode)
    ensures var t := Feed(r, chunk, decode);
            && t.error != TooLarge && Onward(t, t.buffer + rest, decode) == Onward(r, r.buffer + (chunk + rest), decode)
            && (t.error == Fine ==> Small(t.frame, t.data, t.buffer + rest, decode))
  {
    assert r.buffer + chunk + rest == r.buffer + (chunk + rest);
    var r0 := r.(buffer := r.buffer + chunk);
    DrainOnward(r0, rest, decode);
    var t := Drain(r0, decode);
    FirstLine(t.buffer, rest);
    if t.error == Fine { assert t.frame + LineEnd(t.buffer + rest) <= LIMIT; }
  }

  function Concat(chunks: seq<string>): string { if chunks == [] then "" else chunks[0] + Concat(chunks[1..]) }

  lemma {:induction false} ReadOnward(r: Reader, chunks: seq<string>, decode: Decoder)
    requires r.error == Fine && Small(r.frame, r.data, r.buffer + Concat(chunks), decode)
             && LineEnd(r.buffer) == |r.buffer|
    ensures var t := ReadAll(r, chunks, decode);
            Outcome(t.delivered, t.error) == Onward(r, r.buffer + Concat(chunks), decode)
    decreases |chunks|
  {
    if chunks == [] {
      assert r.buffer + "" == r.buffer;
      assert Lines(r.buffer) == [];
      assert r.delivered + [] == r.delivered;
    } else {
      var rest := Concat(chunks[1..]);
      FeedOnward(r, chunks[0], rest, decode);
      FeedDrained(r, chunks[0], decode);
      var t := Feed(r, chunks[0], decode);
      if t.error == Fine { ReadOnward(t, chunks[1..], decode); }
      else { Stuck(t, chunks[1..], decode); }
    }
  }

  lemma {:induction false} Drained(r: Reader, decode: Decoder)
    ensures var t := Drain(r, decode); t.error == Fine ==> LineEnd(t.buffer) == |t.buffer|
    decreases |r.buffer|
  {
    hide TakeLine, LineEnd, Drain;
    DrainStep(r, decode);
    var i := LineEnd(r.buffer);
    if r.error == Fine && i < |r.buffer| {
      Drained(TakeLine(r.(buffer := r.buffer[i + 1..]), r.buffer[..i], decode), decode);
    }
  }

  lemma FeedDrained(r: Reader, chunk: string, decode: Decoder)
    requires r.error == Fine
    ensures var t := Feed(r, chunk, decode); t.error == Fine ==> LineEnd(t.buffer) == |t.buffer|
  {
    Drained(r.(buffer := r.buffer + chunk), decode);
  }

  /** For every way to cut a small text, the reader delivers what a batch reading of the whole delivers. */
  lemma {:induction false} SmallTextsAgree(chunks: seq<string>, after: nat, decode: Decoder)
    requires Small(0, [], Concat(chunks), decode)
    ensures var t := ReadAll(Fresh(after), chunks, decode);
            Outcome(t.delivered, t.error) == Batch(Concat(chunks), after, decode)
  {
    hide Lines, Frames, Deliver, ReadAll, Small;
    var r := Fresh(after);
    assert "" + Concat(chunks) == Concat(chunks);
    ReadOnward(r, chunks, decode);
    var d := Batch(Concat(chunks), after, decode);
    assert [] + d.events == d.events;
  }

  /** One chunk of a text that is not small, over the limit already. */
  lemma {:induction false} FailingChunk(r: Reader, text: string, decode: Decoder) returns (k: nat)
    requires r.error == Fine && r.buffer == "" && !Small(r.frame, r.data, text, decode)
    ensures k <= |text| && Feed(r, text[..k], decode).error == TooLarge
    decreases |text|
  {
    hide TakeLine, LineEnd, Strip, Drain, Small;
    SmallStep(r, text, decode);
    var i := LineEnd(text);
    if r.frame + i > LIMIT {
      k := i;
      WholeLine(r, text[..k], decode);
    } else {
      var raw, rest := text[..i], text[i + 1..];
      var t := TakeLine(r, raw, decode);
      TakeLineOnward(r, raw, rest, decode);
      var m := FailingChunk(t, rest, decode);
      k := i + 1 + m;
      FeedsLine(r, raw, rest[..m], decode);
      assert text[..k] == raw + "\n" + rest[..m];
    }
  }

  /** A chunk without a line end only fills the buffer. */
  lemma WholeLine(r: Reader, chunk: string, decode: Decoder)
    requires r.error == Fine && r.buffer == "" && (forall j :: 0 <= j < |chunk| ==> chunk[j] != '\n')
    requires r.frame + |chunk| > LIMIT
    ensures Feed(r, chunk, decode).error == TooLarge
  {
    hide LineEnd, Drain;
    assert "" + chunk == chunk;
    DrainStep(r.(buffer := chunk), decode);
  }

  /** Feeding a line and more is taking that line and feeding what follows. */
  lemma FeedsLine(r: Reader, raw: string, left: string, decode: Decoder)
    requires r.error == Fine && r.buffer == "" && forall j :: 0 <= j < |raw| ==> raw[j] != '\n'
    ensures var t := TakeLine(r, raw, decode); var f := Feed(r, raw + "\n" + left, decode);
            (t.error != Fine ==> f.error != Fine) && (t.error == Fine ==> f == Feed(t, left, decode))
  {
    hide TakeLine, LineEnd, Drain;
    var chunk := raw + "\n" + left;
    LineEndIs(raw, left);
    assert "" + chunk == chunk;
    var t := TakeLine(r, raw, decode);
    TakesAnyBuffer(r, left, raw, decode);
    assert t.buffer + left == left;
    DrainStep(r.(buffer := chunk), decode);
    DrainStep(t.(buffer := left), decode);
  }

  lemma LineEndIs(raw: string, left: string)
    requires forall j :: 0 <= j < |raw| ==> raw[j] != '\n'
    ensures var chunk := raw + "\n" + left;
            LineEnd(chunk) == |raw| && chunk[..|raw|] == raw && chunk[|raw| + 1..] == left
  {
    hide LineEnd;
    var chunk := raw + "\n" + left;
    assert forall j :: 0 <= j < |raw| ==> chunk[j] == raw[j];
    assert chunk[|raw|] == '\n';
  }

  lemma TakesAnyBuffer(r: Reader, buffer: string, raw: string, decode: Decoder)
    ensures TakeLine(r.(buffer := buffer), raw, decode) == TakeLine(r, raw, decode).(buffer := buffer)
  {}

  lemma {:induction false} BatchIsNeverTooLarge(frames: seq<seq<string>>, after: nat, decode: Decoder)
    ensures Deliver(frames, after, decode).error != TooLarge
  {
    if frames != [] {
      var e := decode(Join(frames[0]));
      if e.Some? {
        BatchIsNeverTooLarge(frames[1..], if e.value.sequence > after then e.value.sequence else after, decode);
      }
    }
  }

  /** A text that is not small is refused under some cut, although a batch reading never refuses for size. */
  lemma {:induction false} LargeTextsDiffer(text: string, after: nat, decode: Decoder) returns (chunks: seq<string>)
    requires !Small(0, [], text, decode)
    ensures Concat(chunks) == text && ReadAll(Fresh(after), chunks, decode).error == TooLarge
    ensures Batch(text, after, decode).error != TooLarge
  {
    hide Feed, Small;
    var k := FailingChunk(Fresh(after), text, decode);
    chunks := [text[..k], text[k..]];
    assert chunks[1..] == [text[k..]] && [text[k..]][1..] == [];
    assert Concat([text[k..]]) == text[k..] + "" == text[k..];
    assert Concat(chunks) == text[..k] + Concat(chunks[1..]) == text;
    Stuck(Feed(Fresh(after), chunks[0], decode), chunks[1..], decode);
    BatchIsNeverTooLarge(Frames(Lines(text), []), after, decode);
  }

  /** All ways to cut a text agree with a batch reading exactly when the text is small. */
  lemma {:induction false} CutsDoNotMatterIff(text: string, after: nat, decode: Decoder)
    ensures (forall chunks :: Concat(chunks) == text ==>
               (var t := ReadAll(Fresh(after), chunks, decode); Outcome(t.delivered, t.error))
               == Batch(text, after, decode))
            <==> Small(0, [], text, decode)
  {
    hide Small, Batch, ReadAll, Concat;
    if Small(0, [], text, decode) {
      forall chunks | Concat(chunks) == text
        ensures (var t := ReadAll(Fresh(after), chunks, decode); Outcome(t.delivered, t.error))
                == Batch(text, after, decode)
      {
        SmallTextsAgree(chunks, after, decode);
      }
    } else {
      var chunks := LargeTextsDiffer(text, after, decode);
    }
  }

  // ----- one text, two cuts -----

  function Filler(n: nat): string { seq(n, _ => 'x') }

  /** A data line that fills the frame to the limit, ended by a carriage return. */
  function FullLine(): string { "data:" + Filler(LIMIT - 5) + "\r" }

  /** Read as one chunk it is delivered; cut between the carriage return and the line feed it is refused. */
  lemma OneTextTwoCuts(after: nat, decode: Decoder, e: Event)
    requires decode(Filler(LIMIT - 5)) == Some(e) && e.sequence > after
    ensures var whole := ReadAll(Fresh(after), [FullLine() + "\n\n"], decode);
            whole.delivered == [e] && whole.error == Fine
    ensures ReadAll(Fresh(after), [FullLine(), "\n\n"], decode).error == TooLarge
  {
    hide Feed, TakeLine, LineEnd, Drain;
    var raw := FullLine();
    var r := Fresh(after);
    LongLine(r, decode);
    WholeLine(r, raw, decode);
    Stuck(Feed(r, raw, decode), ["\n\n"], decode);
    assert [raw, "\n\n"][1..] == ["\n\n"];
    FeedsLine(r, raw, "\n", decode);
    assert raw + "\n" + "\n" == raw + "\n\n";
    var t := TakeLine(r, raw, decode);
    EmptyLine(t, decode, e);
    FeedsLine(t, "", "", decode);
    assert "" + "\n" + "" == "\n";
    FeedsNothing(TakeLine(t, "", decode), decode);
    assert [raw + "\n\n"][1..] == [];
  }

  lemma LongLine(r: Reader, decode: Decoder)
    requires r.error == Fine && r.frame == 0 && r.data == []
    ensures var t := TakeLine(r, FullLine(), decode);
            t == r.(frame := LIMIT, data := [Filler(LIMIT - 5)])
    ensures |FullLine()| == LIMIT + 1 && forall j :: 0 <= j < |FullLine()| ==> FullLine()[j] != '\n'
  {
    var line := "data:" + Filler(LIMIT - 5);
    assert FullLine()[..LIMIT] == line && FullLine()[LIMIT] == '\r';
    assert Strip(FullLine()) == line && line[5..] == Filler(LIMIT - 5) && line[..5] == "data:";
    assert line[5] == 'x';
  }

  lemma EmptyLine(r: Reader, decode: Decoder, e: Event)
    requires r.error == Fine && |r.data| == 1 && r.frame <= LIMIT && decode(r.data[0]) == Some(e)
             && e.sequence > r.after
    ensures TakeLine(r, "", decode)
         == r.(frame := 0, data := [], delivered := r.delivered + [e], after := e.sequence)
  {}

  lemma FeedsNothing(r: Reader, decode: Decoder)
    requires r.error == Fine && r.buffer == "" && r.frame <= LIMIT
    ensures Feed(r, "", decode) == r
  {
    assert "" + "" == "";
  }

  // ----- the order of delivery -----

  /** Delivered events rise strictly above the cursor the reading started at. */
  predicate Rising(events: seq<Event>, after: nat) {
    && (forall i :: 0 <= i < |events| ==> events[i].sequence > after)
    && (forall i, j :: 0 <= i < j < |events| ==> events[i].sequence < events[j].sequence)
  }

  ghost predicate Cursor(r: Reader, after: nat) {
    Rising(r.delivered, after) && r.after >= after
    && forall i :: 0 <= i < |r.delivered| ==> r.delivered[i].sequence <= r.after
  }

  lemma LineRises(r: Reader, raw: string, after: nat, decode: Decoder)
    requires Cursor(r, after)
    ensures Cursor(TakeLine(r, raw, decode), after)
  {}

  lemma {:induction false} DrainRises(r: Reader, after: nat, decode: Decoder)
    requires Cursor(r, after)
    ensures Cursor(Drain(r, decode), after)
    decreases |r.buffer|
  {
    hide TakeLine, LineEnd, Drain, Rising;
    DrainStep(r, decode);
    var i := LineEnd(r.buffer);
    if r.error == Fine && i < |r.buffer| {
      LineRises(r.(buffer := r.buffer[i + 1..]), r.buffer[..i], after, decode);
      DrainRises(TakeLine(r.(buffer := r.buffer[i + 1..]), r.buffer[..i], decode), after, decode);
    }
  }

  /** And so it is for every text, small or not. */
  lemma {:induction false} AlwaysRising(r: Reader, chunks: seq<string>, after: nat, decode: Decoder)
    requires Cursor(r, after)
    ensures Cursor(ReadAll(r, chunks, decode), after)
    decreases |chunks|
  {
    if chunks != [] {
      DrainRises(r.(buffer := r.buffer + chunks[0]), after, decode);
      AlwaysRising(Feed(r, chunks[0], decode), chunks[1..], after, decode);
    }
  }
}
