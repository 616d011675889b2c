/**
 What the event stream is for: events written in any of its styles are read back, and those that are new to the reader
 are delivered.
 */
module EventStream {
  import opened EventReader

  // ----- what was written is read -----

  /** A line of an event as a server may write it: with or without the space, and with either line end. */
  datatype Style = Style(space: bool, cr: bool)

  predicate Writable(line: string, style: Style) {
    '\n' !in line && (line == "" || line[|line| - 1] != '\r') && (!style.space ==> line == "" || line[0] != ' ')
  }

  function Written(line: string, style: Style): string {
    "data:" + (if style.space then " " else "") + line + (if style.cr then "\r" else "")
  }

  function EndLine(style: Style): string { if style.cr then "\r\n" else "\n" }

  /** The text of one event: its data lines, and an empty one. */
  function WrittenEvent(data: seq<string>, style: Style): string {
    if data == [] then EndLine(style) else Written(data[0], style) + "\n" + WrittenEvent(data[1..], style)
  }

  function WrittenAll(events: seq<seq<string>>, style: Style): string {
    if events == [] then "" else WrittenEvent(events[0], style) + WrittenAll(events[1..], style)
  }

  lemma {:induction false} EndOfLine(line: string, rest: string)
    requires '\n' !in line
    ensures LineEnd(line + "\n" + rest) == |line|
  {
    var text := line + "\n" + rest;
    var i := LineEnd(text);
    assert text[|line|] == '\n';
    assert forall j :: 0 <= j < |line| ==> text[j] == line[j];
  }

  lemma {:induction false} FirstWritten(line: string, rest: string)
    requires '\n' !in line
    ensures Lines(line + "\n" + rest) == [Strip(line)] + Lines(rest)
  {
    EndOfLine(line, rest);
    var text := line + "\n" + rest;
    assert text[..|line|] == line && text[|line| + 1..] == rest;
  }

  lemma WrittenIsRead(line: string, style: Style)
    requires Writable(line, style)
    ensures '\n' !in Written(line, style) && IsData(Strip(Written(line, style)))
    ensures Strip(Written(line, style)) != "" && DataOf(Strip(Written(line, style))) == line
  {
    var head := "data:" + (if style.space then " " else "");
    var bare := head + line;
    assert Strip(Written(line, style)) == bare by {
      var w := Written(line, style);
      if style.cr { assert w == bare + "\r" && w[..|w| - 1] == bare; } else { assert w == bare; }
      if !style.cr && line != "" { assert bare[|bare| - 1] == line[|line| - 1]; }
    }
    assert bare[..5] == "data:";
    assert bare[5..] == (if style.space then " " else "") + line;
  }

  lemma {:induction false} FramesGoOn(line: string, lines: seq<string>, seen: seq<string>)
    ensures Frames([""] + lines, seen) == (if seen == [] then [] else [seen]) + Frames(lines, [])
    ensures line != "" && IsData(line) ==> Frames([line] + lines, seen) == Frames(lines, seen + [DataOf(line)])
  {
    hide DataOf, IsData;
    assert ([line] + lines)[1..] == lines && ([""] + lines)[1..] == lines;
  }

  lemma {:induction false} BlankIsRead(style: Style, seen: seq<string>, rest: string)
    requires seen != []
    ensures Frames(Lines(EndLine(style) + rest), seen) == [seen] + Frames(Lines(rest), [])
  {
    hide Frames, Lines, Strip;
    var cr := if style.cr then "\r" else "";
    BlankLine(style);
    FirstWritten(cr, rest);
    assert EndLine(style) + rest == cr + "\n" + rest;
    FramesGoOn("", Lines(rest), seen);
  }

  lemma {:induction false} LineIsRead(line: string, style: Style, seen: seq<string>, rest: string)
    requires Writable(line, style)
    ensures Frames(Lines(Written(line, style) + "\n" + rest), seen) == Frames(Lines(rest), seen + [line])
  {
    hide Frames, Lines, Strip, DataOf, IsData, Written, Writable;
    WrittenIsRead(line, style);
    FirstWritten(Written(line, style), rest);
    FramesGoOn(Strip(Written(line, style)), Lines(rest), seen);
  }

  lemma {:induction false} EventIsRead(data: seq<string>, style: Style, seen: seq<string>, rest: string)
    requires forall i :: 0 <= i < |data| ==> Writable(data[i], style)
    requires seen + data != []
    ensures Frames(Lines(WrittenEvent(data, style) + rest), seen) == [seen + data] + Frames(Lines(rest), [])
    decreases |data|
  {
    hide Frames, Lines, Written, Writable, EndLine;
    if data == [] {
      BlankIsRead(style, seen, rest);
      assert seen + data == seen;
    } else {
      var tail := WrittenEvent(data[1..], style) + rest;
      LineIsRead(data[0], style, seen, tail);
      assert WrittenEvent(data, style) + rest == Written(data[0], style) + "\n" + tail;
      EventIsRead(data[1..], style, seen + [data[0]], rest);
      assert seen + [data[0]] + data[1..] == seen + data;
    }
  }

  lemma BlankLine(style: Style)
    ensures EndLine(style) == (if style.cr then "\r" else "") + "\n" && Strip(if style.cr then "\r" else "") == ""
    ensures '\n' !in (if style.cr then "\r" else "")
  {}

  /** Whatever a server writes as events, in any of these styles, a batch reading takes apart into those events. */
  lemma {:induction false} RoundTrip(events: seq<seq<string>>, style: Style)
    requires forall i :: 0 <= i < |events| ==> events[i] != []
    requires forall i, j :: 0 <= i < |events| && 0 <= j < |events[i]| ==> Writable(events[i][j], style)
    ensures Frames(Lines(WrittenAll(events, style)), []) == events
  {
    hide Frames, Lines, WrittenEvent, Writable;
    if events == [] {
      Nothing();
    } else {
      RoundTrip(events[1..], style);
      EventIsRead(events[0], style, [], WrittenAll(events[1..], style));
      assert [] + events[0] == events[0];
    }
  }

  lemma Nothing()
    ensures Frames(Lines(""), []) == []
  {}

  /** The lines of a frame are joined as they were written, one below the other. */
  lemma {:induction false} JoinedLines(data: seq<string>)
    requires data != [] && forall i :: 0 <= i < |data| ==> '\n' !in data[i] && Strip(data[i]) == data[i]
    ensures Lines(Join(data) + "\n") == data
  {
    hide Strip;
    if |data| == 1 {
      FirstWritten(data[0], "");
      assert data[0] + "\n" + "" == data[0] + "\n";
      assert data == [data[0]];
    } else {
      JoinedLines(data[1..]);
      FirstWritten(data[0], Join(data[1..]) + "\n");
      assert Join(data) + "\n" == data[0] + "\n" + (Join(data[1..]) + "\n");
      assert data == [data[0]] + data[1..];
    }
  }

  // ----- which events are delivered -----

  /** Frame `i` decodes, and so do all before it. */
  predicate Decodes(frames: seq<seq<string>>, decode: Decoder, i: nat) {
    forall j :: 0 <= j <= i && j < |frames| ==> decode(Join(frames[j])).Some?
  }

  /** The event of frame `i` is above the cursor and above every event before it. */
  predicate Ahead(frames: seq<seq<string>>, after: nat, decode: Decoder, i: nat) {
    && i < |frames| && Decodes(frames, decode, i)
    && decode(Join(frames[i])).value.sequence > after
    && forall j :: 0 <= j < i ==> decode(Join(frames[j])).value.sequence < decode(Join(frames[i])).value.sequence
  }

  lemma AheadShift(frames: seq<seq<string>>, after: nat, decode: Decoder, i: nat)
    requires frames != [] && decode(Join(frames[0])).Some? && 0 < i
    ensures var s := decode(Join(frames[0])).value.sequence;
            Ahead(frames, after, decode, i) <==> Ahead(frames[1..], if s > after then s else after, decode, i - 1)
  {
    hide Join;
    var rest := frames[1..];
    var s := decode(Join(frames[0])).value.sequence;
    assert forall j :: 0 <= j < |rest| ==> rest[j] == frames[j + 1];
    if i < |frames| {
      DecodesShift(frames, decode, i);
      if Ahead(rest, if s > after then s else after, decode, i - 1) {
        forall j | 0 <= j < i ensures decode(Join(frames[j])).value.sequence < decode(Join(frames[i])).value.sequence {
          if j > 0 { assert rest[j - 1] == frames[j]; }
        }
      }
    }
  }

  lemma DecodesShift(frames: seq<seq<string>>, decode: Decoder, i: nat)
    requires frames != [] && decode(Join(frames[0])).Some? && 0 < i
    ensures Decodes(frames, decode, i) <==> Decodes(frames[1..], decode, i - 1)
  {
    hide Join;
    var rest := frames[1..];
    if Decodes(rest, decode, i - 1) {
      forall j | 0 <= j <= i && j < |frames| ensures decode(Join(frames[j])).Some? {
        if j > 0 { assert rest[j - 1] == frames[j]; }
      }
    }
  }

  /**
   What a batch reading delivers: the events, before the first frame that does not decode, that are above the cursor and
   above all before them.  It ends well iff every frame decodes.
   */
  lemma {:induction false} DeliveredMeaning(frames: seq<seq<string>>, after: nat, decode: Decoder, x: Event)
    ensures var d := Deliver(frames, after, decode);
            && d.error == (if Decodes(frames, decode, |frames|) then Fine else Invalid)
            && (x in d.events
                <==> exists i: nat :: Ahead(frames, after, decode, i) && decode(Join(frames[i])) == Some(x))
  {
    hide Join;
    if frames != [] {
      var e := decode(Join(frames[0]));
      if e.Some? {
        var next := if e.value.sequence > after then e.value.sequence else after;
        DeliveredMeaning(frames[1..], next, decode, x);
        DecodesShift(frames, decode, |frames|);
        var d := Deliver(frames[1..], next, decode);
        if x in d.events {
          var i: nat :| Ahead(frames[1..], next, decode, i) && decode(Join(frames[1..][i])) == Some(x);
          AheadShift(frames, after, decode, i + 1);
          assert Ahead(frames, after, decode, i + 1) && decode(Join(frames[i + 1])) == Some(x);
        }
        if e.value.sequence > after { assert Ahead(frames, after, decode, 0); }
        if i: nat :| Ahead(frames, after, decode, i) && decode(Join(frames[i])) == Some(x) {
          if i > 0 {
            AheadShift(frames, after, decode, i);
            assert Ahead(frames[1..], next, decode, i - 1) && decode(Join(frames[1..][i - 1])) == Some(x);
          }
        }
      } else {
        assert !Decodes(frames, decode, |frames|);
      }
    }
  }
}
