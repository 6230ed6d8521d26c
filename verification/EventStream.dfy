/** The event stream of internal/httpapi/server.go and its reader in internal/httpapi/web/app.js, on decoded
    text. */
module EventStream {

  /** The name of an event and its payload as text. */
  datatype Event = Event(name: string, payload: string)

  /** The white space and line terminators that the script's trimming removes. */
  predicate IsBlank(c: char) {
    var n := c as int;
    || 0x09 <= n <= 0x0D || n == 0x20 || n == 0xA0 || n == 0x1680 || 0x2000 <= n <= 0x200A
    || n == 0x2028 || n == 0x2029 || n == 0x202F || n == 0x205F || n == 0x3000 || n == 0xFEFF
  }

  function TrimStart(s: string): string {
    if s != "" && IsBlank(s[0]) then TrimStart(s[1..]) else s
  }

  function TrimEnd(s: string): string {
    if s != "" && IsBlank(s[|s| - 1]) then TrimEnd(s[..|s| - 1]) else s
  }

  function Trim(s: string): string { TrimEnd(TrimStart(s)) }

  /** The text cut at every blank line, leftmost first. */
  function Frames(s: string): (frames: seq<string>)
    ensures |frames| >= 1
  {
    if |s| < 2 then [s]
    else if s[0] == '\n' && s[1] == '\n' then [""] + Frames(s[2..])
    else
      var rest := Frames(s[1..]);
      [[s[0]] + rest[0]] + rest[1..]
  }

  function Lines(s: string): (lines: seq<string>)
    ensures |lines| >= 1
  {
    if s == "" then [""]
    else if s[0] == '\n' then [""] + Lines(s[1..])
    else
      var rest := Lines(s[1..]);
      [[s[0]] + rest[0]] + rest[1..]
  }

  function Join(parts: seq<string>): string {
    if parts == [] then "" else if |parts| == 1 then parts[0] else parts[0] + "\n" + Join(parts[1..])
  }

  const EVENT := "event:"
  const DATA := "data:"

  /** The fields of a frame, the last name winning and the data lines collected. */
  datatype Fields = Fields(name: string, data: seq<string>)

  function Field(line: string, f: Fields): Fields {
    var named := if EVENT <= line then f.(name := Trim(line[6..])) else f;
    if DATA <= line then named.(data := named.data + [TrimStart(line[5..])]) else named
  }

  function FieldsOf(lines: seq<string>, f: Fields): Fields {
    if lines == [] then f else FieldsOf(lines[1..], Field(lines[0], f))
  }

  /** A frame without data is skipped. */
  function Delivered(frame: string): seq<Event> {
    var f := FieldsOf(Lines(frame), Fields("message", []));
    if f.data == [] then [] else [Event(f.name, Join(f.data))]
  }

  function AllDelivered(frames: seq<string>): seq<Event> {
    if frames == [] then [] else Delivered(frames[0]) + AllDelivered(frames[1..])
  }

  function Flatten(chunks: seq<string>): string {
    if chunks == [] then "" else chunks[0] + Flatten(chunks[1..])
  }

  /** The events of a whole text: its complete frames. What follows the last blank line is dropped. */
  function Events(text: string): seq<Event> {
    var frames := Frames(text);
    AllDelivered(frames[..|frames| - 1])
  }

  // ---------------------------------------------------------------- chunks do not matter

  lemma {:induction false} OneFrame(s: string)
    requires |Frames(s)| == 1
    ensures Frames(s) == [s]
  {
    if |s| >= 2 {
      assert s == [s[0]] + s[1..];
      OneFrame(s[1..]);
    }
  }

  lemma FramesOfLonger(s: string)
    requires |s| >= 2 && !(s[0] == '\n' && s[1] == '\n')
    ensures Frames(s) == [[s[0]] + Frames(s[1..])[0]] + Frames(s[1..])[1..]
  {
  }

  lemma Longer(c: char, rest: seq<string>, more: seq<string>)
    requires |rest| > 1
    ensures var x, y := rest[..|rest| - 1] + more, [[c] + rest[0]] + rest[1..];
      [[c] + x[0]] + x[1..] == y[..|y| - 1] + more
  {
  }

  lemma FramesOfGap(s: string)
    requires |s| >= 2 && s[0] == '\n' && s[1] == '\n'
    ensures Frames(s) == [""] + Frames(s[2..])
  {
  }

  lemma FramesOfShort(s: string)
    requires |s| < 2
    ensures Frames(s) == [s]
  {
  }

  lemma AfterGap(rest: seq<string>, more: seq<string>)
    requires |rest| >= 1
    ensures var y := [""] + rest;
      y[..|y| - 1] + more == [""] + (rest[..|rest| - 1] + more) && y[|y| - 1] == rest[|rest| - 1]
  {
  }

  /** Text that arrives later only continues the last frame. */
  lemma {:induction false} FramesAppend(a: string, b: string)
    ensures var frames := Frames(a);
      Frames(a + b) == frames[..|frames| - 1] + Frames(frames[|frames| - 1] + b)
  {
    hide Frames;
    if |a| < 2 {
      FramesOfShort(a);
      assert [a][..0] + Frames(a + b) == Frames(a + b);
    } else if a[0] == '\n' && a[1] == '\n' {
      FramesOfGap(a);
      FramesOfGap(a + b);
      assert (a + b)[2..] == a[2..] + b;
      FramesAppend(a[2..], b);
      var rest := Frames(a[2..]);
      AfterGap(rest, Frames(rest[|rest| - 1] + b));
    } else {
      FramesOfLonger(a);
      FramesOfLonger(a + b);
      assert (a + b)[1..] == a[1..] + b;
      FramesAppend(a[1..], b);
      var rest := Frames(a[1..]);
      if |rest| > 1 {
        Longer(a[0], rest, Frames(rest[|rest| - 1] + b));
      } else {
        OneFrame(a);
        assert [a][..0] + Frames(a + b) == Frames(a + b);
      }
    }
  }

  lemma {:induction false} DeliveredAppend(a: seq<string>, b: seq<string>)
    ensures AllDelivered(a + b) == AllDelivered(a) + AllDelivered(b)
  {
    hide Delivered;
    if a == [] {
      assert a + b == b;
    } else {
      assert (a + b)[1..] == a[1..] + b;
      DeliveredAppend(a[1..], b);
    }
  }

  /** One read: the events completed by it, and what stays buffered. */
  lemma ReadSplits(buffer: string, chunk: string, rest: string)
    ensures var frames := Frames(buffer + chunk);
      Events(buffer + (chunk + rest)) == AllDelivered(frames[..|frames| - 1]) + Events(frames[|frames| - 1] + rest)
  {
    hide Frames, AllDelivered;
    var frames := Frames(buffer + chunk);
    var more := Frames(frames[|frames| - 1] + rest);
    assert buffer + (chunk + rest) == (buffer + chunk) + rest;
    FramesAppend(buffer + chunk, rest);
    assert (frames[..|frames| - 1] + more)[..|frames| - 1 + |more| - 1] == frames[..|frames| - 1] + more[..|more| - 1];
    DeliveredAppend(frames[..|frames| - 1], more[..|more| - 1]);
  }

  /** What stays buffered holds no complete frame. */
  lemma {:induction false} LastFrameIsWhole(s: string)
    ensures var frames := Frames(s); Frames(frames[|frames| - 1]) == [frames[|frames| - 1]]
  {
    var frames := Frames(s);
    if |frames| == 1 {
      OneFrame(s);
    } else if s[0] == '\n' && s[1] == '\n' {
      LastFrameIsWhole(s[2..]);
    } else {
      LastFrameIsWhole(s[1..]);
      assert frames[|frames| - 1] == Frames(s[1..])[|frames| - 1];
    }
  }

  method ReadFrame(frame: string) returns (events: seq<Event>)
    ensures events == Delivered(frame)
  {
    var f := Fields("message", []);
    var lines := Lines(frame);
    for i := 0 to |lines|
      invariant FieldsOf(lines, Fields("message", [])) == FieldsOf(lines[i..], f)
    {
      var line := lines[i];
      ghost var before := f;
      if EVENT <= line { f := f.(name := Trim(line[6..])); }
      if DATA <= line { f := f.(data := f.data + [TrimStart(line[5..])]); }
      assert f == Field(line, before) && lines[i..][1..] == lines[i + 1..];
    }
    if f.data == [] { return []; }
    events := [Event(f.name, Join(f.data))];
  }

  lemma NextFrame(frames: seq<string>, j: nat)
    requires j < |frames|
    ensures AllDelivered(frames[j..]) == Delivered(frames[j]) + AllDelivered(frames[j + 1..])
  {
    hide Delivered;
    assert frames[j..][1..] == frames[j + 1..];
  }

  lemma NextChunk(chunks: seq<string>, i: nat)
    requires i < |chunks|
    ensures Flatten(chunks[i..]) == chunks[i] + Flatten(chunks[i + 1..])
  {
    assert chunks[i..][1..] == chunks[i + 1..];
  }

  lemma NothingBuffered(buffer: string)
    requires Frames(buffer) == [buffer]
    ensures Events(buffer) == []
  {
  }

  lemma NoText()
    ensures Frames("") == [""]
  {
  }

  lemma NoFrames(frames: seq<string>)
    requires frames == []
    ensures AllDelivered(frames) == []
  {
  }

  lemma EndOfStream(chunks: seq<string>, buffer: string)
    requires chunks == []
    ensures buffer + Flatten(chunks) == buffer
  {
  }

  /** The reader, over the chunks of decoded text that arrive. However the text is cut, it delivers the events
      of the whole text, in order. */
  method ConsumeSse(chunks: seq<string>) returns (events: seq<Event>)
    ensures events == Events(Flatten(chunks))
  {
    hide Events, Frames, AllDelivered, Flatten;
    events := [];
    var buffer := "";
    assert chunks[0..] == chunks && Flatten(chunks) == buffer + Flatten(chunks[0..]);
    NoText();
    for i := 0 to |chunks|
      invariant Events(Flatten(chunks)) == events + Events(buffer + Flatten(chunks[i..]))
      invariant Frames(buffer) == [buffer]
    {
      NextChunk(chunks, i);
      ReadSplits(buffer, chunks[i], Flatten(chunks[i + 1..]));
      LastFrameIsWhole(buffer + chunks[i]);
      var frames := Frames(buffer + chunks[i]);
      buffer := frames[|frames| - 1];
      frames := frames[..|frames| - 1];
      ghost var before := events;
      assert frames[0..] == frames;
      for j := 0 to |frames|
        invariant events + AllDelivered(frames[j..]) == before + AllDelivered(frames)
      {
        NextFrame(frames, j);
        var some := ReadFrame(frames[j]);
        events := events + some;
      }
      NoFrames(frames[|frames|..]);
      assert events + AllDelivered(frames[|frames|..]) == events;
      ghost var later := Events(buffer + Flatten(chunks[i + 1..]));
      assert before + (AllDelivered(frames) + later) == events + later;
    }
    NothingBuffered(buffer);
    EndOfStream(chunks[|chunks|..], buffer);
  }

  // ---------------------------------------------------------------- what the server prints

  function Printed(e: Event): string {
    "event: " + e.name + "\ndata: " + e.payload + "\n\n"
  }

  function PrintedAll(events: seq<Event>): string {
    if events == [] then "" else Printed(events[0]) + PrintedAll(events[1..])
  }

  lemma {:induction false} PrintedLast(events: seq<Event>, e: Event)
    ensures PrintedAll(events + [e]) == PrintedAll(events) + Printed(e)
  {
    hide Printed;
    if events == [] {
      assert events + [e] == [e] && [e][1..] == [];
    } else {
      assert (events + [e])[1..] == events[1..] + [e];
      PrintedLast(events[1..], e);
    }
  }

  predicate OneLine(s: string) { '\n' !in s }

  /** A name and a payload on one line, the name without blanks around it, the payload without blanks before
      it; the names and the JSON payloads of the server are such. */
  predicate Clean(e: Event) {
    OneLine(e.name) && Trim(e.name) == e.name && OneLine(e.payload) && TrimStart(e.payload) == e.payload
  }

  /** Text without a blank line, and not about to start one. */
  predicate NoGap(s: string) {
    && (forall i | 0 <= i < |s| - 1 :: !(s[i] == '\n' && s[i + 1] == '\n'))
    && (s != "" ==> s[|s| - 1] != '\n')
  }

  lemma {:induction false} FrameEnds(frame: string, rest: string)
    requires NoGap(frame)
    ensures Frames(frame + ("\n\n" + rest)) == [frame] + Frames(rest)
  {
    var all := frame + ("\n\n" + rest);
    if frame == "" {
      assert all == "\n\n" + rest && all[2..] == rest;
    } else {
      assert all[1..] == frame[1..] + ("\n\n" + rest);
      assert forall i | 0 <= i < |frame[1..]| :: frame[1..][i] == frame[i + 1];
      FrameEnds(frame[1..], rest);
      assert [frame[0]] + frame[1..] == frame;
    }
  }

  lemma {:induction false} LineEnds(line: string, rest: string)
    requires OneLine(line)
    ensures Lines(line + ("\n" + rest)) == [line] + Lines(rest)
  {
    var all := line + ("\n" + rest);
    if line == "" {
      assert all == "\n" + rest && all[1..] == rest;
    } else {
      assert all[1..] == line[1..] + ("\n" + rest);
      LineEnds(line[1..], rest);
      assert [line[0]] + line[1..] == line;
    }
  }

  lemma {:induction false} LastLine(line: string)
    requires OneLine(line)
    ensures Lines(line) == [line]
  {
    if line != "" {
      LastLine(line[1..]);
      assert [line[0]] + line[1..] == line;
    }
  }

  lemma {:induction false} BlankFirst(s: string)
    ensures TrimStart(" " + s) == TrimStart(s)
  {
    assert (" " + s)[1..] == s;
  }

  lemma NameField(name: string, f: Fields)
    requires Trim(name) == name
    ensures Field("event: " + name, f) == f.(name := name)
  {
    var line := "event: " + name;
    assert line[..6] == EVENT && line[6..] == " " + name;
    assert line[0] == 'e';
    BlankFirst(name);
  }

  lemma DataField(payload: string, f: Fields)
    requires TrimStart(payload) == payload
    ensures Field("data: " + payload, f) == f.(data := f.data + [payload])
  {
    var line := "data: " + payload;
    assert line[..5] == DATA && line[5..] == " " + payload;
    assert line[0] == 'd';
    BlankFirst(payload);
  }

  function FrameOf(e: Event): string { ("event: " + e.name) + ("\n" + ("data: " + e.payload)) }

  lemma FrameHasNoGap(e: Event)
    requires Clean(e)
    ensures NoGap(FrameOf(e))
  {
    var a, b, frame := "event: " + e.name, "data: " + e.payload, FrameOf(e);
    assert |frame| == |a| + 1 + |b| && OneLine(a) && OneLine(b);
    forall i | 0 <= i < |frame| - 1 ensures !(frame[i] == '\n' && frame[i + 1] == '\n') {
      if i < |a| {
        assert frame[i] == a[i];
      } else {
        assert frame[i + 1] == b[i - |a|];
      }
    }
    assert frame[|frame| - 1] == b[|b| - 1];
  }

  lemma CleanIsDelivered(e: Event)
    requires Clean(e)
    ensures Delivered(FrameOf(e)) == [e]
  {
    hide Trim, TrimStart, Field;
    LineEnds("event: " + e.name, "data: " + e.payload);
    LastLine("data: " + e.payload);
    var start := Fields("message", []);
    NameField(e.name, start);
    DataField(e.payload, start.(name := e.name));
    var lines := Lines(FrameOf(e));
    var a, b := "event: " + e.name, "data: " + e.payload;
    assert lines == [a, b];
    assert lines[1..] == [b] && lines[1..][1..] == [];
    var named := Field(a, start);
    assert FieldsOf(lines, start) == FieldsOf([b], named);
    assert FieldsOf([b], named) == FieldsOf([b][1..], Field(b, named));
    assert Field(b, named).data == [e.payload];
  }

  lemma {:induction false} PrintedIsRead(events: seq<Event>)
    requires forall i | 0 <= i < |events| :: Clean(events[i])
    ensures Events(PrintedAll(events)) == events
  {
    hide Clean, Frames, Delivered, NoGap;
    if events == [] {
      NothingPrinted();
    } else {
      var e, rest := events[0], PrintedAll(events[1..]);
      PrintedIsRead(events[1..]);
      FrameHasNoGap(e);
      CleanIsDelivered(e);
      PrintedFrame(e, rest);
      FrameEnds(FrameOf(e), rest);
      var frames := Frames(rest);
      assert ([FrameOf(e)] + frames)[..|frames|] == [FrameOf(e)] + frames[..|frames| - 1];
      DeliveredAppend([FrameOf(e)], frames[..|frames| - 1]);
      assert AllDelivered([FrameOf(e)]) == [e] + AllDelivered([]);
    }
  }

  lemma NothingPrinted()
    ensures Events("") == []
  {
  }

  lemma PrintedFrame(e: Event, rest: string)
    ensures Printed(e) + rest == FrameOf(e) + ("\n\n" + rest)
  {
  }

  /** Whatever one-line events the server prints, and however the network cuts the text, the reader delivers
      exactly those events, in order. */
  lemma StreamRoundTrip(events: seq<Event>, chunks: seq<string>)
    requires forall i | 0 <= i < |events| :: Clean(events[i])
    requires Flatten(chunks) == PrintedAll(events)
    ensures Events(Flatten(chunks)) == events
  {
    PrintedIsRead(events);
  }

  predicate Blanks(s: string) { OneLine(s) && forall i | 0 <= i < |s| :: IsBlank(s[i]) }

  lemma {:induction false} StartTrimmed(before: string, text: string)
    requires Blanks(before) && (text == "" || !IsBlank(text[0]))
    ensures TrimStart(before + text) == text
  {
    if before == "" {
      assert before + text == text;
    } else {
      assert (before + text)[1..] == before[1..] + text;
      StartTrimmed(before[1..], text);
    }
  }

  lemma {:induction false} EndTrimmed(text: string, after: string)
    requires Blanks(after) && text != "" && !IsBlank(text[|text| - 1])
    ensures TrimEnd(text + after) == text
  {
    if after == "" {
      assert text + after == text;
    } else {
      var n := |after| - 1;
      assert (text + after)[..|text + after| - 1] == text + after[..n];
      EndTrimmed(text, after[..n]);
    }
  }

  lemma TwoLines(a: string, b: string)
    requires OneLine(a) && OneLine(b) && b != ""
    ensures NoGap(a + ("\n" + b))
  {
    var frame := a + ("\n" + b);
    forall i | 0 <= i < |frame| - 1 ensures !(frame[i] == '\n' && frame[i + 1] == '\n') {
      if i < |a| {
        assert frame[i] == a[i];
      } else {
        assert frame[i + 1] == b[i - |a|];
      }
    }
    assert frame[|frame| - 1] == b[|b| - 1];
  }

  lemma FrameOfTwo(a: string, b: string)
    requires OneLine(a) && OneLine(b) && b != ""
    ensures Events((a + ("\n" + b)) + "\n\n") == Delivered(a + ("\n" + b)) && Lines(a + ("\n" + b)) == [a, b]
  {
    hide Lines, Delivered, Frames, NoGap;
    var frame := a + ("\n" + b);
    TwoLines(a, b);
    assert frame + "\n\n" == frame + ("\n\n" + "");
    FrameEnds(frame, "");
    NoText();
    assert ([frame] + [""])[..1] == [frame] && [frame][1..] == [];
    assert AllDelivered([frame]) == Delivered(frame) + AllDelivered([]);
    LineEnds(a, b);
    LastLine(b);
  }

  /** Of a name the reader drops the blanks on either side, and of a payload those before it, and no more. */
  lemma FieldsAreTrimmed(before: string, name: string, after: string, gap: string, payload: string)
    requires Blanks(before) && Blanks(after) && Blanks(gap) && OneLine(name) && OneLine(payload)
    requires name != "" && !IsBlank(name[0]) && !IsBlank(name[|name| - 1])
    requires payload == "" || !IsBlank(payload[0])
    ensures Events(("event:" + (before + (name + after)) + ("\n" + ("data:" + (gap + payload)))) + "\n\n") ==
      [Event(name, payload)]
  {
    hide Lines, Events, TrimStart, TrimEnd, IsBlank;
    var a, b := "event:" + (before + (name + after)), "data:" + (gap + payload);
    FrameOfTwo(a, b);
    StartTrimmed(before, name + after);
    EndTrimmed(name, after);
    StartTrimmed(gap, payload);
    assert a[..6] == EVENT && a[6..] == before + (name + after) && a[0] == 'e';
    assert b[..5] == DATA && b[5..] == gap + payload && b[0] == 'd';
    var start := Fields("message", []);
    assert Field(a, start) == start.(name := name);
    assert Field(b, start.(name := name)) == Fields(name, [payload]);
    assert [a, b][1..] == [b] && [b][1..] == [];
    assert FieldsOf([b], Field(a, start)) == FieldsOf([], Field(b, Field(a, start)));
  }

  /** The open response of one request: what was written is the print of the events emitted so far. */
  class Response {
    var written: string
    ghost var emitted: seq<Event>

    ghost predicate Valid()
      reads this
    {
      written == PrintedAll(emitted)
    }

    constructor ()
      ensures Valid() && written == "" && emitted == []
    {
      written, emitted := "", [];
    }

    method Emit(e: Event)
      requires Valid()
      modifies this
      ensures Valid() && emitted == old(emitted) + [e]
      ensures written == old(written) + Printed(e)
    {
      PrintedLast(emitted, e);
      written := written + ("event: " + e.name + "\ndata: " + e.payload + "\n\n");
      emitted := emitted + [e];
    }

    /** However the network cuts the response, reading it gives exactly the events emitted, in order. */
    lemma IsReadBack(chunks: seq<string>)
      requires Valid() && forall i | 0 <= i < |emitted| :: Clean(emitted[i])
      requires Flatten(chunks) == written
      ensures Events(Flatten(chunks)) == emitted
    {
      StreamRoundTrip(emitted, chunks);
    }
  }

  // ---------------------------------------------------------------- the standard's reading

  /** The lines of a text in the standard's sense: carriage returns end lines too, alone or before a line feed. */
  function StandardLines(s: string): (lines: seq<string>)
    ensures |lines| >= 1
  {
    if s == "" then [""]
    else if |s| >= 2 && s[0] == '\r' && s[1] == '\n' then [""] + StandardLines(s[2..])
    else if s[0] == '\r' || s[0] == '\n' then [""] + StandardLines(s[1..])
    else
      var rest := StandardLines(s[1..]);
      [[s[0]] + rest[0]] + rest[1..]
  }

  /** The type and the data lines of an event under construction. */
  datatype Block = Block(kind: string, data: seq<string>)

  const EMPTY := Block("", [])

  function ColonAt(line: string): (i: nat)
    ensures i <= |line| && (i < |line| ==> line[i] == ':')
  {
    if line == "" || line[0] == ':' then 0 else 1 + ColonAt(line[1..])
  }

  /** One space after the colon does not belong to the value. */
  function WithoutSpace(value: string): string {
    if value != "" && value[0] == ' ' then value[1..] else value
  }

  /** Section 9.2.6 of the HTML Living Standard, for one line that is not blank: a comment, or a field with a
      name and a value; other fields than event and data do not matter here. */
  function StandardLine(line: string, b: Block): Block {
    var i := ColonAt(line);
    var field, value := line[..i], if i < |line| then WithoutSpace(line[i + 1..]) else "";
    if field == "event" then b.(kind := value)
    else if field == "data" then b.(data := b.data + [value])
    else b
  }

  function Effective(kind: string): string { if kind == "" then "message" else kind }

  function Dispatched(b: Block): seq<Event> {
    if b.data == [] then [] else [Event(Effective(b.kind), Join(b.data))]
  }

  /** A blank line dispatches; what is pending at the end is discarded. */
  function StandardEvents(lines: seq<string>, b: Block): seq<Event> {
    if lines == [] then []
    else if lines[0] == "" then Dispatched(b) + StandardEvents(lines[1..], EMPTY)
    else StandardEvents(lines[1..], StandardLine(lines[0], b))
  }

  /** The events of a text, read line by line; what follows the last line end is no line. */
  function StandardReading(text: string): seq<Event> {
    var lines := StandardLines(text);
    StandardEvents(lines[..|lines| - 1], EMPTY)
  }

  lemma {:induction false} OneKindOfLineEnd(s: string)
    requires '\r' !in s
    ensures StandardLines(s) == Lines(s)
  {
    if s != "" {
      assert s == [s[0]] + s[1..];
      OneKindOfLineEnd(s[1..]);
    }
  }

  // ---------------------------------------------------------------- lines

  lemma {:induction false} ColonAfter(name: string, rest: string)
    requires ':' !in name
    ensures ColonAt(name + (":" + rest)) == |name|
  {
    var line := name + (":" + rest);
    if name == "" {
      assert line == ":" + rest;
    } else {
      assert line[1..] == name[1..] + (":" + rest);
      ColonAfter(name[1..], rest);
    }
  }

  lemma {:induction false} NoColon(name: string)
    requires ':' !in name
    ensures ColonAt(name) == |name|
  {
    if name != "" { NoColon(name[1..]); }
  }

  /** Which lines the standard takes for an event or data field: those with the prefix the reader looks for,
      and the bare names, which the reader passes over. */
  lemma StandardLineIs(line: string, b: Block)
    ensures StandardLine(line, b) ==
      if EVENT <= line then b.(kind := WithoutSpace(line[6..]))
      else if DATA <= line then b.(data := b.data + [WithoutSpace(line[5..])])
      else if line == "event" then b.(kind := "")
      else if line == "data" then b.(data := b.data + [""])
      else b
  {
    hide ColonAt, WithoutSpace;
    if EVENT <= line {
      assert line == "event" + (":" + line[6..]);
      ColonAfter("event", line[6..]);
    } else if DATA <= line {
      assert line == "data" + (":" + line[5..]);
      ColonAfter("data", line[5..]);
    } else if line == "event" || line == "data" {
      NoColon(line);
    } else {
      var i := ColonAt(line);
      assert i < |line| ==> line[..i] + ":" <= line;
      assert i == |line| ==> line[..i] == line;
    }
  }

  function Front(lines: seq<string>): seq<string>
    requires lines != []
  {
    lines[..|lines| - 1]
  }

  function ReaderName(lines: seq<string>): string {
    if lines == [] then "message"
    else
      var last := lines[|lines| - 1];
      if EVENT <= last then Trim(last[6..]) else ReaderName(Front(lines))
  }

  function ReaderData(lines: seq<string>): seq<string> {
    if lines == [] then []
    else
      var last := lines[|lines| - 1];
      ReaderData(Front(lines)) + (if DATA <= last then [TrimStart(last[5..])] else [])
  }

  function StandardKind(lines: seq<string>): string {
    if lines == [] then ""
    else
      var last := lines[|lines| - 1];
      if EVENT <= last then WithoutSpace(last[6..])
      else if last == "event" then ""
      else StandardKind(Front(lines))
  }

  function StandardData(lines: seq<string>): seq<string> {
    if lines == [] then []
    else
      var last, before := lines[|lines| - 1], StandardData(Front(lines));
      if DATA <= last then before + [WithoutSpace(last[5..])]
      else if last == "data" then before + [""]
      else before
  }

  function StandardFields(lines: seq<string>, b: Block): Block {
    if lines == [] then b else StandardFields(lines[1..], StandardLine(lines[0], b))
  }

  lemma {:induction false} FieldsLast(lines: seq<string>, f: Fields)
    requires lines != []
    ensures FieldsOf(lines, f) == Field(lines[|lines| - 1], FieldsOf(Front(lines), f))
  {
    hide Field;
    if |lines| > 1 {
      FieldsLast(lines[1..], Field(lines[0], f));
      assert Front(lines[1..]) == Front(lines)[1..];
    }
  }

  lemma {:induction false} StandardFieldsLast(lines: seq<string>, b: Block)
    requires lines != []
    ensures StandardFields(lines, b) == StandardLine(lines[|lines| - 1], StandardFields(Front(lines), b))
  {
    hide StandardLine;
    if |lines| > 1 {
      StandardFieldsLast(lines[1..], StandardLine(lines[0], b));
      assert Front(lines[1..]) == Front(lines)[1..];
    }
  }

  lemma {:induction false} ReaderFields(lines: seq<string>)
    ensures FieldsOf(lines, Fields("message", [])) == Fields(ReaderName(lines), ReaderData(lines))
  {
    hide Trim, TrimStart;
    if lines != [] {
      FieldsLast(lines, Fields("message", []));
      ReaderFields(Front(lines));
      var last := lines[|lines| - 1];
      assert (EVENT <= last ==> last[0] == 'e') && (DATA <= last ==> last[0] == 'd');
    }
  }

  lemma {:induction false} StandardFieldsAre(lines: seq<string>)
    ensures StandardFields(lines, EMPTY) == Block(StandardKind(lines), StandardData(lines))
  {
    hide StandardLine, WithoutSpace;
    if lines != [] {
      StandardFieldsLast(lines, EMPTY);
      StandardFieldsAre(Front(lines));
      var last := lines[|lines| - 1];
      StandardLineIs(last, StandardFields(Front(lines), EMPTY));
      assert EVENT <= last || last == "event" ==> last[0] == 'e';
      assert DATA <= last || last == "data" ==> last[0] == 'd';
    }
  }

  // ---------------------------------------------------------------- when the two readings of a frame agree

  /** A data line on which trimming comes to the same as dropping one space. */
  predicate PlainData(line: string) { DATA <= line ==> TrimStart(line[5..]) == WithoutSpace(line[5..]) }

  /** The last line that names the event names it alike for both: a non-empty name without further blanks,
      or a bare field, which stands for the default, where the reader has the default as well. */
  predicate SameName(lines: seq<string>) {
    lines == [] ||
    var last := lines[|lines| - 1];
    if EVENT <= last then Trim(last[6..]) == WithoutSpace(last[6..]) != ""
    else if last == "event" then ReaderName(Front(lines)) == "message"
    else SameName(Front(lines))
  }

  predicate AllPlainData(lines: seq<string>) {
    forall i | 0 <= i < |lines| :: PlainData(lines[i])
  }

  predicate HasData(lines: seq<string>) {
    exists i | 0 <= i < |lines| :: DATA <= lines[i]
  }

  /** No bare data field; and if there is data, plain data lines and the same name. */
  predicate FramePlain(lines: seq<string>) {
    && "data" !in lines
    && (HasData(lines) ==> AllPlainData(lines) && SameName(lines))
  }

  lemma {:induction false} SameNameIs(lines: seq<string>)
    ensures SameName(lines) <==> ReaderName(lines) == Effective(StandardKind(lines))
  {
    if lines != [] {
      SameNameIs(Front(lines));
      var last := lines[|lines| - 1];
      if EVENT <= last && WithoutSpace(last[6..]) == "" {
        assert last[6..] == "" || last[6..] == " ";
        TrimBlank();
      }
    }
  }

  lemma TrimBlank()
    ensures Trim("") == "" && Trim(" ") == ""
  {
    assert " "[1..] == "";
  }

  lemma {:induction false} DataAlike(lines: seq<string>)
    ensures |ReaderData(lines)| <= |StandardData(lines)|
    ensures ReaderData(lines) == StandardData(lines) <==> "data" !in lines && AllPlainData(lines)
    ensures ReaderData(lines) != [] <==> HasData(lines)
    ensures StandardData(lines) != [] <==> HasData(lines) || "data" in lines
  {
    hide TrimStart, WithoutSpace, AllPlainData, HasData;
    if lines == [] {
      NoLines();
    } else {
      var front, last := Front(lines), lines[|lines| - 1];
      DataAlike(front);
      LastLineOf(lines);
      assert last == "data" ==> !(DATA <= last);
      if DATA <= last {
        AppendsAgree(ReaderData(front), TrimStart(last[5..]), StandardData(front), WithoutSpace(last[5..]));
      }
    }
  }

  lemma AppendsAgree(a: seq<string>, x: string, b: seq<string>, y: string)
    ensures a + [x] == b + [y] <==> a == b && x == y
  {
    if a + [x] == b + [y] {
      assert (a + [x])[|a|] == x && (b + [y])[|b|] == y;
      assert (a + [x])[..|a|] == a && (b + [y])[..|b|] == b;
    }
  }

  lemma NoLines()
    ensures AllPlainData([]) && !HasData([])
  {
  }

  lemma LastLineOf(lines: seq<string>)
    requires lines != []
    ensures var front, last := Front(lines), lines[|lines| - 1];
      && (HasData(lines) <==> HasData(front) || DATA <= last)
      && ("data" in lines <==> "data" in front || "data" == last)
      && (AllPlainData(lines) <==> AllPlainData(front) && PlainData(last))
  {
    hide PlainData;
    var front, last := Front(lines), lines[|lines| - 1];
    assert lines == front + [last];
    assert forall i | 0 <= i < |front| :: lines[i] == front[i];
  }

  lemma {:induction false} LinesOfJoin(parts: seq<string>)
    requires parts != [] && forall i | 0 <= i < |parts| :: OneLine(parts[i])
    ensures Lines(Join(parts)) == parts
  {
    hide Lines;
    if |parts| == 1 {
      LastLine(parts[0]);
    } else {
      LinesOfJoin(parts[1..]);
      LineEnds(parts[0], Join(parts[1..]));
      assert Join(parts) == parts[0] + ("\n" + Join(parts[1..]));
    }
  }

  lemma JoinIsInjective(a: seq<string>, b: seq<string>)
    requires a != [] && b != []
    requires (forall i | 0 <= i < |a| :: OneLine(a[i])) && forall i | 0 <= i < |b| :: OneLine(b[i])
    ensures Join(a) == Join(b) <==> a == b
  {
    hide Join, Lines;
    LinesOfJoin(a);
    LinesOfJoin(b);
  }

  lemma {:induction false} LinesAreLines(s: string)
    ensures forall i | 0 <= i < |Lines(s)| :: OneLine(Lines(s)[i])
  {
    if s != "" { LinesAreLines(s[1..]); }
  }

  lemma {:induction false} TrimStartOneLine(s: string)
    requires OneLine(s)
    ensures OneLine(TrimStart(s)) && OneLine(WithoutSpace(s))
  {
    if s != "" && IsBlank(s[0]) { TrimStartOneLine(s[1..]); }
  }

  lemma {:induction false} DataIsOneLine(lines: seq<string>)
    requires forall i | 0 <= i < |lines| :: OneLine(lines[i])
    ensures forall i | 0 <= i < |ReaderData(lines)| :: OneLine(ReaderData(lines)[i])
    ensures forall i | 0 <= i < |StandardData(lines)| :: OneLine(StandardData(lines)[i])
  {
    hide TrimStart, WithoutSpace;
    if lines != [] {
      DataIsOneLine(Front(lines));
      var last := lines[|lines| - 1];
      if DATA <= last { TrimStartOneLine(last[5..]); }
    }
  }

  /** What the standard dispatches at the end of a frame. */
  function StandardDelivered(frame: string): seq<Event> { Dispatched(StandardFields(Lines(frame), EMPTY)) }

  /** The two readings of a frame agree exactly when it is plain; a frame the reader delivers, the standard
      dispatches as well. */
  lemma FrameAgreesExactly(frame: string)
    ensures Delivered(frame) == StandardDelivered(frame) <==> FramePlain(Lines(frame))
    ensures |Delivered(frame)| <= |StandardDelivered(frame)|
  {
    hide Lines, ReaderName, ReaderData, StandardKind, StandardData, SameName, HasData, Join, AllPlainData;
    var lines := Lines(frame);
    ReaderFields(lines);
    StandardFieldsAre(lines);
    SameNameIs(lines);
    DataAlike(lines);
    LinesAreLines(frame);
    DataIsOneLine(lines);
    if ReaderData(lines) != [] { JoinIsInjective(ReaderData(lines), StandardData(lines)); }
  }

  // ---------------------------------------------------------------- the standard, frame by frame

  lemma LinesOf(s: string)
    requires s != ""
    ensures s[0] == '\n' ==> Lines(s) == [""] + Lines(s[1..])
    ensures s[0] != '\n' ==> Lines(s) == [[s[0]] + Lines(s[1..])[0]] + Lines(s[1..])[1..]
  {
  }

  lemma JoinHead(c: char, x: seq<string>, y: seq<string>)
    requires x != []
    ensures [[c] + (x + y)[0]] + (x + y)[1..] == ([[c] + x[0]] + x[1..]) + y
  {
  }

  lemma {:induction false} LinesConcat(a: string, b: string)
    ensures Lines(a + ("\n" + b)) == Lines(a) + Lines(b)
  {
    hide Lines;
    var all := a + ("\n" + b);
    LinesOf(all);
    EmptyLines();
    if a == "" {
      assert all == "\n" + b && all[1..] == b;
    } else {
      LinesOf(a);
      assert all[1..] == a[1..] + ("\n" + b);
      LinesConcat(a[1..], b);
      if a[0] == '\n' {
        assert [""] + (Lines(a[1..]) + Lines(b)) == Lines(a) + Lines(b);
      } else {
        JoinHead(a[0], Lines(a[1..]), Lines(b));
      }
    }
  }

  /** A text without a blank line inside. */
  predicate Gapless(s: string) {
    forall i | 0 <= i < |s| - 1 :: !(s[i] == '\n' && s[i + 1] == '\n')
  }

  /** Only the first and the last of these lines may be empty; the first is exactly when the text starts so,
      and the last only when it ends so. */
  predicate LinesOfGapless(s: string, lines: seq<string>) {
    && lines != []
    && (forall i | 0 < i < |lines| - 1 :: lines[i] != "")
    && (lines[0] == "" <==> s == "" || s[0] == '\n')
    && (|lines| > 1 && s != "" && s[|s| - 1] != '\n' ==> lines[|lines| - 1] != "")
  }

  lemma GaplessAfterBreak(s: string, rest: seq<string>)
    requires Gapless(s) && s != "" && s[0] == '\n' && LinesOfGapless(s[1..], rest) && (|s| == 1 ==> |rest| == 1)
    ensures LinesOfGapless(s, [""] + rest)
  {
    var lines := [""] + rest;
    assert |s| > 1 ==> s[0 + 1] != '\n';
    forall i | 0 < i < |lines| - 1 ensures lines[i] != "" { assert lines[i] == rest[i - 1]; }
  }

  lemma GaplessAfterOther(s: string, rest: seq<string>)
    requires s != "" && s[0] != '\n' && LinesOfGapless(s[1..], rest) && (|s| == 1 ==> |rest| == 1)
    ensures LinesOfGapless(s, [[s[0]] + rest[0]] + rest[1..])
  {
    var lines := [[s[0]] + rest[0]] + rest[1..];
    forall i | 0 < i < |lines| ensures lines[i] == rest[i] {
    }
  }

  lemma {:induction false} GaplessLines(s: string)
    requires Gapless(s)
    ensures LinesOfGapless(s, Lines(s))
  {
    hide Lines, LinesOfGapless;
    if s == "" {
      EmptyLines();
    } else {
      LinesOf(s);
      GaplessTail(s);
      GaplessLines(s[1..]);
      EmptyLines();
      if s[0] == '\n' {
        GaplessAfterBreak(s, Lines(s[1..]));
      } else {
        GaplessAfterOther(s, Lines(s[1..]));
      }
    }
  }

  lemma GaplessTail(s: string)
    requires Gapless(s) && s != ""
    ensures Gapless(s[1..])
  {
    assert forall i | 0 <= i < |s[1..]| :: s[1..][i] == s[i + 1];
  }

  /** A text with a complete frame, taken apart at the end of the first one. */
  lemma {:induction false} FirstFrame(text: string) returns (frame: string, rest: string)
    requires |Frames(text)| > 1
    ensures text == frame + ("\n\n" + rest) && Frames(text) == [frame] + Frames(rest) && NoGap(frame)
    decreases |text|
  {
    if text[0] == '\n' && text[1] == '\n' {
      frame, rest := "", text[2..];
    } else {
      var first, more := FirstFrame(text[1..]);
      frame, rest := [text[0]] + first, more;
      assert text == [text[0]] + text[1..];
      assert frame + ("\n\n" + rest) == [text[0]] + (first + ("\n\n" + rest));
      GapAtFront(text[0], first, rest, text);
    }
  }

  lemma GapAtFront(c: char, first: string, rest: string, text: string)
    requires NoGap(first) && text == [c] + (first + ("\n\n" + rest)) && !(text[0] == '\n' && text[1] == '\n')
    ensures NoGap([c] + first)
  {
    var frame := [c] + first;
    assert text[1] == (if first == "" then '\n' else first[0]);
    forall i | 0 <= i < |frame| - 1 ensures !(frame[i] == '\n' && frame[i + 1] == '\n') {
      assert frame[i + 1] == first[i];
      if i > 0 { assert frame[i] == first[i - 1]; }
    }
  }

  lemma {:induction false} OneFrameGapless(text: string)
    requires |Frames(text)| == 1
    ensures Gapless(text)
  {
    if |text| >= 2 {
      OneFrameGapless(text[1..]);
      assert forall i | 0 <= i < |text[1..]| :: text[1..][i] == text[i + 1];
    }
  }

  lemma EmptyLines()
    ensures Lines("") == [""] && LinesOfGapless("", [""])
  {
  }

  lemma LinesOfFirst(frame: string, rest: string)
    ensures Lines(frame + ("\n\n" + rest)) == Lines(frame) + ([""] + Lines(rest))
  {
    assert frame + ("\n\n" + rest) == frame + ("\n" + ("" + ("\n" + rest)));
    LinesConcat(frame, "" + ("\n" + rest));
    LinesConcat("", rest);
    EmptyLines();
  }

  predicate NoneBlank(lines: seq<string>) {
    forall i | 0 <= i < |lines| :: lines[i] != ""
  }

  lemma {:induction false} PendingLines(lines: seq<string>, b: Block, rest: seq<string>)
    requires NoneBlank(lines)
    ensures StandardEvents(lines + ([""] + rest), b) ==
      Dispatched(StandardFields(lines, b)) + StandardEvents(rest, EMPTY)
    ensures StandardEvents(lines, b) == []
  {
    hide StandardLine, Dispatched;
    var all := lines + ([""] + rest);
    if lines == [] {
      assert all == [""] + rest && all[1..] == rest;
    } else {
      assert all[1..] == lines[1..] + ([""] + rest);
      PendingLines(lines[1..], StandardLine(lines[0], b), rest);
    }
  }

  /** A blank line at the start of a frame dispatches nothing. */
  lemma BlankStart(lines: seq<string>, rest: seq<string>)
    requires lines != [] && lines[0] == ""
    ensures StandardEvents(lines + rest, EMPTY) == StandardEvents(lines[1..] + rest, EMPTY)
    ensures StandardFields(lines, EMPTY) == StandardFields(lines[1..], EMPTY)
  {
    assert (lines + rest)[1..] == lines[1..] + rest;
    StandardLineIs("", EMPTY);
  }

  lemma FrameIsDispatched(frame: string, rest: seq<string>)
    requires NoGap(frame)
    ensures StandardEvents(Lines(frame) + ([""] + rest), EMPTY) ==
      StandardDelivered(frame) + StandardEvents(rest, EMPTY)
  {
    hide Lines, StandardEvents, StandardFields, Dispatched;
    GaplessLines(frame);
    var lines := Lines(frame);
    EmptyLines();
    if lines[0] == "" {
      BlankStart(lines, [""] + rest);
      assert NoneBlank(lines[1..]);
      PendingLines(lines[1..], EMPTY, rest);
    } else {
      PendingLines(lines, EMPTY, rest);
    }
  }

  lemma NothingDispatched(text: string)
    requires Gapless(text)
    ensures var lines := Lines(text); StandardEvents(lines[..|lines| - 1], EMPTY) == []
  {
    hide Lines, StandardEvents, StandardFields;
    GaplessLines(text);
    var lines := Lines(text);
    var whole := lines[..|lines| - 1];
    if whole != [] && whole[0] == "" {
      BlankStart(whole, []);
      assert whole + [] == whole && whole[1..] + [] == whole[1..];
      PendingLines(whole[1..], EMPTY, []);
    } else {
      PendingLines(whole, EMPTY, []);
    }
  }

  function AllDispatched(frames: seq<string>): seq<Event> {
    if frames == [] then [] else StandardDelivered(frames[0]) + AllDispatched(frames[1..])
  }

  /** With line feeds alone, the standard dispatches frame by frame. */
  lemma {:induction false} StandardByFrames(text: string)
    ensures var lines, frames := Lines(text), Frames(text);
      StandardEvents(lines[..|lines| - 1], EMPTY) == AllDispatched(frames[..|frames| - 1])
    decreases |text|
  {
    hide Lines, Frames, StandardDelivered, StandardEvents;
    if |Frames(text)| == 1 {
      OneFrameGapless(text);
      NothingDispatched(text);
    } else {
      var frame, rest := FirstFrame(text);
      LinesOfFirst(frame, rest);
      StandardByFrames(rest);
      var a, b, frames := Lines(frame), Lines(rest), Frames(rest);
      assert (a + ([""] + b))[..|a| + 1 + |b| - 1] == a + ([""] + b[..|b| - 1]);
      FrameIsDispatched(frame, b[..|b| - 1]);
      assert ([frame] + frames)[..|frames|] == [frame] + frames[..|frames| - 1];
    }
  }

  lemma {:induction false} ListsAgreeExactly(frames: seq<string>)
    ensures |AllDelivered(frames)| <= |AllDispatched(frames)|
    ensures AllDelivered(frames) == AllDispatched(frames) <==>
      forall i | 0 <= i < |frames| :: Delivered(frames[i]) == StandardDelivered(frames[i])
  {
    hide Delivered, StandardDelivered;
    if frames != [] {
      var d, s, rest := Delivered(frames[0]), StandardDelivered(frames[0]), frames[1..];
      FrameAgreesExactly(frames[0]);
      ListsAgreeExactly(rest);
      SameLengthParts(d, AllDelivered(rest), s, AllDispatched(rest));
      assert frames == [frames[0]] + rest;
    }
  }

  lemma SameLengthParts<T>(a: seq<T>, b: seq<T>, c: seq<T>, d: seq<T>)
    requires |a| <= |c| && |b| <= |d|
    ensures a + b == c + d <==> a == c && b == d
  {
    if a + b == c + d {
      assert (a + b)[..|a|] == a && (c + d)[..|c|] == c;
      assert (a + b)[|a|..] == b && (c + d)[|c|..] == d;
    }
  }

  /** On a text with line feeds alone, the reader delivers the events of the standard's reading exactly when
      every complete frame is plain. */
  lemma AgreesWithStandard(text: string)
    requires '\r' !in text
    ensures Events(text) == StandardReading(text) <==>
      forall i | 0 <= i < |Frames(text)| - 1 :: FramePlain(Lines(Frames(text)[i]))
  {
    hide Lines, StandardLines, Frames, Delivered, StandardDelivered, FramePlain, AllDelivered, AllDispatched;
    hide StandardEvents;
    OneKindOfLineEnd(text);
    StandardByFrames(text);
    var complete := Frames(text)[..|Frames(text)| - 1];
    ListsAgreeExactly(complete);
    forall i | 0 <= i < |complete|
      ensures Delivered(complete[i]) == StandardDelivered(complete[i]) <==> FramePlain(Lines(complete[i]))
    {
      FrameAgreesExactly(complete[i]);
    }
    assert forall i | 0 <= i < |complete| :: complete[i] == Frames(text)[i];
  }

  /** A frame of one line, alone. */
  lemma CompleteFrame(frame: string)
    requires frame != "" && OneLine(frame) && '\r' !in frame
    ensures Events(frame + "\n\n") == Delivered(frame)
    ensures StandardReading(frame + "\n\n") == StandardDelivered(frame)
  {
    hide Lines, StandardLines, Delivered, StandardDelivered, Frames, StandardEvents;
    var text := frame + "\n\n";
    assert text == frame + ("\n\n" + "");
    FrameEnds(frame, "");
    NoText();
    OneKindOfLineEnd(text);
    StandardByFrames(text);
    var complete := [frame];
    assert ([frame] + [""])[..1] == complete && complete[1..] == [];
    assert AllDelivered(complete) == Delivered(frame) + AllDelivered([]);
    assert AllDispatched(complete) == StandardDelivered(frame) + AllDispatched([]);
  }

  lemma OneLineFields(line: string)
    requires OneLine(line)
    ensures FieldsOf(Lines(line), Fields("message", [])) == Field(line, Fields("message", []))
    ensures StandardFields(Lines(line), EMPTY) == StandardLine(line, EMPTY)
  {
    hide Lines, Field, StandardLine;
    LastLine(line);
    assert [line][1..] == [];
  }

  /** A frame of one data line: the reader trims its value, the standard drops one space. */
  lemma DataFrame(value: string)
    requires OneLine(value) && '\r' !in value
    ensures Events("data:" + value + "\n\n") == [Event("message", TrimStart(value))]
    ensures StandardReading("data:" + value + "\n\n") == [Event("message", WithoutSpace(value))]
  {
    hide Lines, Events, StandardReading, TrimStart, WithoutSpace, FieldsOf, StandardFields, StandardLine;
    var line := "data:" + value;
    assert line[..5] == DATA && line[5..] == value && line[0] == 'd';
    CompleteFrame(line);
    OneLineFields(line);
    StandardLineIs(line, EMPTY);
  }

  /** The two readings differ where a value starts with two spaces. */
  lemma SecondSpaceIsTrimmed()
    ensures Events("data:  x\n\n") == [Event("message", "x")]
    ensures StandardReading("data:  x\n\n") == [Event("message", " x")]
  {
    hide Events, StandardReading;
    DataFrame("  x");
    assert "data:" + "  x" + "\n\n" == "data:  x\n\n";
    assert "  x"[1..] == " x" && " x"[1..] == "x";
  }

  lemma {:induction false} LineEndsInReturn(line: string, rest: string)
    requires OneLine(line) && '\r' !in line
    ensures StandardLines(line + ("\r\n" + rest)) == [line] + StandardLines(rest)
  {
    var all := line + ("\r\n" + rest);
    if line == "" {
      assert all == "\r\n" + rest && all[2..] == rest;
    } else {
      assert all[1..] == line[1..] + ("\r\n" + rest);
      LineEndsInReturn(line[1..], rest);
      assert [line[0]] + line[1..] == line;
    }
  }

  lemma {:induction false} GaplessFrames(s: string)
    requires Gapless(s)
    ensures Frames(s) == [s]
  {
    if |s| >= 2 {
      GaplessTail(s);
      assert s[0 + 1] == s[1];
      GaplessFrames(s[1..]);
      assert s == [s[0]] + s[1..];
    }
  }

  /** Carriage returns end lines in the standard's reading and not in the reader's, which finds no frame. */
  lemma CarriageReturnsAreMissed(line: string)
    requires OneLine(line) && '\r' !in line && line != ""
    ensures var text := line + "\r\n\r\n";
      Events(text) == [] && StandardReading(text) == Dispatched(StandardLine(line, EMPTY))
  {
    hide StandardLines, StandardLine, Dispatched, Frames, StandardEvents;
    var text := line + "\r\n\r\n";
    ReturnedLines(line);
    assert StandardEvents([], EMPTY) == [] by { PendingLines([], EMPTY, []); }
    assert [line, "", ""][..2] == [line] + ([""] + []) && [line][1..] == [];
    PendingLines([line], EMPTY, []);
    assert Gapless(text) by {
      forall i | 0 <= i < |text| - 1 ensures !(text[i] == '\n' && text[i + 1] == '\n') {
        if i < |line| { assert text[i] == line[i]; }
      }
    }
    GaplessFrames(text);
    assert [text][..0] == [];
  }

  lemma ReturnedLines(line: string)
    requires OneLine(line) && '\r' !in line
    ensures StandardLines(line + "\r\n\r\n") == [line, "", ""]
  {
    assert line + "\r\n\r\n" == line + ("\r\n" + ("" + ("\r\n" + "")));
    LineEndsInReturn(line, "" + ("\r\n" + ""));
    LineEndsInReturn("", "");
  }

  // ---------------------------------------------------------------- texts with carriage returns

  /** The standard's lines of a text that a line feed ends; a last carriage return belongs to that line end. */
  function EndedLines(s: string): (lines: seq<string>)
    ensures |lines| >= 1
  {
    if s == "" || s == "\r" then [""]
    else if s[0] == '\r' && s[1] == '\n' then [""] + EndedLines(s[2..])
    else if s[0] == '\r' || s[0] == '\n' then [""] + EndedLines(s[1..])
    else
      var rest := EndedLines(s[1..]);
      [[s[0]] + rest[0]] + rest[1..]
  }

  /** The standard's lines of the reader's lines. */
  function Pieces(lines: seq<string>): seq<string> {
    if lines == [] then [] else EndedLines(lines[0]) + Pieces(lines[1..])
  }

  /** One line end or one character, in front. */
  lemma StandardLinesOf(s: string)
    ensures s == "" ==> StandardLines(s) == [""]
    ensures |s| >= 2 && s[0] == '\r' && s[1] == '\n' ==> StandardLines(s) == [""] + StandardLines(s[2..])
    ensures |s| >= 1 && (s[0] == '\n' || (s[0] == '\r' && !(|s| >= 2 && s[1] == '\n'))) ==>
      StandardLines(s) == [""] + StandardLines(s[1..])
    ensures |s| >= 1 && s[0] != '\r' && s[0] != '\n' ==>
      StandardLines(s) == [[s[0]] + StandardLines(s[1..])[0]] + StandardLines(s[1..])[1..]
  {
  }

  lemma EndedLinesOf(s: string)
    ensures s == "" || s == "\r" ==> EndedLines(s) == [""]
    ensures |s| >= 2 && s[0] == '\r' && s[1] == '\n' ==> EndedLines(s) == [""] + EndedLines(s[2..])
    ensures |s| >= 1 && s != "\r" && (s[0] == '\n' || (s[0] == '\r' && s[1] != '\n')) ==>
      EndedLines(s) == [""] + EndedLines(s[1..])
    ensures |s| >= 1 && s[0] != '\r' && s[0] != '\n' ==>
      EndedLines(s) == [[s[0]] + EndedLines(s[1..])[0]] + EndedLines(s[1..])[1..]
  {
  }

  /** How many characters at the front of a text that goes on after a line feed are dealt with at once. */
  lemma FrontOf(a: string, b: string, n: nat)
    requires n <= |a|
    ensures (a + ("\n" + b))[n..] == a[n..] + ("\n" + b)
  {
  }

  lemma {:induction false} StandardConcat(a: string, b: string)
    ensures StandardLines(a + ("\n" + b)) == EndedLines(a) + StandardLines(b)
    decreases |a|
  {
    hide StandardLines, EndedLines;
    var all := a + ("\n" + b);
    StandardLinesOf(all);
    EndedLinesOf(a);
    if a == "" {
      assert all == "\n" + b && all[1..] == b;
    } else if a == "\r" {
      assert all[0] == '\r' && all[1] == '\n' && all[2..] == b;
    } else if a[0] == '\r' && a[1] == '\n' {
      FrontOf(a, b, 2);
      StandardConcat(a[2..], b);
    } else {
      FrontOf(a, b, 1);
      StandardConcat(a[1..], b);
      JoinHead(a[0], EndedLines(a[1..]), StandardLines(b));
    }
  }

  lemma {:induction false} EndedConcat(a: string, b: string)
    ensures EndedLines(a + ("\n" + b)) == EndedLines(a) + EndedLines(b)
    decreases |a|
  {
    hide EndedLines;
    var all := a + ("\n" + b);
    EndedLinesOf(all);
    EndedLinesOf(a);
    if a == "" {
      assert all == "\n" + b && all[1..] == b;
    } else if a == "\r" {
      assert all[0] == '\r' && all[1] == '\n' && all[2..] == b;
    } else if a[0] == '\r' && a[1] == '\n' {
      FrontOf(a, b, 2);
      EndedConcat(a[2..], b);
    } else {
      FrontOf(a, b, 1);
      EndedConcat(a[1..], b);
      JoinHead(a[0], EndedLines(a[1..]), EndedLines(b));
    }
  }

  lemma {:induction false} SplitLine(s: string) returns (a: string, b: string)
    requires !OneLine(s)
    ensures s == a + ("\n" + b) && OneLine(a)
  {
    if s[0] == '\n' {
      a, b := "", s[1..];
      assert s == "\n" + b;
    } else {
      assert s == [s[0]] + s[1..];
      var x, y := SplitLine(s[1..]);
      a, b := [s[0]] + x, y;
    }
  }

  lemma {:induction false} EndedByLines(s: string)
    ensures EndedLines(s) == Pieces(Lines(s))
    decreases |s|
  {
    hide EndedLines, Lines;
    if OneLine(s) {
      LastLine(s);
      assert [s][1..] == [] && EndedLines(s) + [] == EndedLines(s);
    } else {
      var a, b := SplitLine(s);
      EndedConcat(a, b);
      LineEnds(a, b);
      EndedByLines(b);
      assert ([a] + Lines(b))[1..] == Lines(b);
    }
  }

  /** What the standard takes for a data field. */
  predicate IsData(line: string) { DATA <= line || line == "data" }

  /** Of the standard's lines within a line of the reader, none is a data field but the first, which then has the same
      value for both. */
  predicate LineFair(line: string) {
    var pieces := EndedLines(line);
    && (IsData(pieces[0]) ==>
         DATA <= line && DATA <= pieces[0] && TrimStart(line[5..]) == WithoutSpace(pieces[0][5..]))
    && forall i | 0 < i < |pieces| :: !IsData(pieces[i])
  }

  lemma {:induction false} FirstPiece(line: string)
    requires OneLine(line)
    ensures EndedLines(line)[0] <= line
    ensures forall name: string | name <= line && '\r' !in name :: name <= EndedLines(line)[0]
    decreases |line|
  {
    if line != "" && line[0] != '\r' {
      FirstPiece(line[1..]);
      assert line == [line[0]] + line[1..];
      forall name: string | name <= line && '\r' !in name ensures name <= EndedLines(line)[0] {
        if name != "" {
          assert name == [line[0]] + name[1..];
          assert name[1..] <= line[1..];
        }
      }
    } else {
      assert forall name: string | name <= line && name != "" :: name[0] == line[0] && name[0] in name;
    }
  }

  lemma {:induction false} ReaderDataAppend(a: seq<string>, b: seq<string>)
    ensures ReaderData(a + b) == ReaderData(a) + ReaderData(b)
    decreases |b|
  {
    hide TrimStart;
    if b == [] {
      assert a + b == a;
    } else {
      assert Front(a + b) == a + Front(b);
      ReaderDataAppend(a, Front(b));
    }
  }

  lemma {:induction false} StandardDataAppend(a: seq<string>, b: seq<string>)
    ensures StandardData(a + b) == StandardData(a) + StandardData(b)
    decreases |b|
  {
    hide WithoutSpace;
    if b == [] {
      assert a + b == a;
    } else {
      assert Front(a + b) == a + Front(b);
      StandardDataAppend(a, Front(b));
    }
  }

  lemma OneData(line: string)
    ensures ReaderData([line]) == if DATA <= line then [TrimStart(line[5..])] else []
    ensures StandardData([line]) ==
      if DATA <= line then [WithoutSpace(line[5..])] else if line == "data" then [""] else []
  {
    assert Front([line]) == [];
    assert ReaderData([]) == [] && StandardData([]) == [];
  }

  lemma NoData(lines: seq<string>)
    ensures StandardData(lines) == [] <==> forall i | 0 <= i < |lines| :: !IsData(lines[i])
  {
    DataAlike(lines);
  }

  lemma LineDataAlike(line: string)
    requires OneLine(line)
    ensures |ReaderData([line])| <= |StandardData(EndedLines(line))|
    ensures ReaderData([line]) == StandardData(EndedLines(line)) <==> LineFair(line)
  {
    hide EndedLines, ReaderData, StandardData, TrimStart, WithoutSpace;
    var pieces := EndedLines(line);
    var first, rest := [pieces[0]], pieces[1..];
    assert pieces == first + rest;
    StandardDataAppend(first, rest);
    FirstPiece(line);
    assert DATA <= line <==> DATA <= pieces[0] by {
      assert '\r' !in DATA;
      if DATA <= pieces[0] { assert pieces[0] == line[..|pieces[0]|] && DATA == pieces[0][..5]; }
    }
    OneData(line);
    OneData(pieces[0]);
    NoData(rest);
    assert (forall i | 0 <= i < |rest| :: !IsData(rest[i])) <==> forall i | 0 < i < |pieces| :: !IsData(pieces[i]) by {
      assert forall i | 0 < i < |pieces| :: pieces[i] == rest[i - 1];
    }
    SameLengthParts(ReaderData([line]), [], StandardData(first), StandardData(rest));
    assert ReaderData([line]) + [] == ReaderData([line]);
  }

  lemma {:induction false} DataAlikeByPieces(lines: seq<string>)
    requires forall i | 0 <= i < |lines| :: OneLine(lines[i])
    ensures |ReaderData(lines)| <= |StandardData(Pieces(lines))|
    ensures ReaderData(lines) == StandardData(Pieces(lines)) <==> forall i | 0 <= i < |lines| :: LineFair(lines[i])
  {
    hide EndedLines, LineFair, TrimStart, WithoutSpace;
    if lines != [] {
      var first, rest := [lines[0]], lines[1..];
      assert lines == first + rest;
      DataAlikeByPieces(rest);
      LineDataAlike(lines[0]);
      ReaderDataAppend(first, rest);
      StandardDataAppend(EndedLines(lines[0]), Pieces(rest));
      SameLengthParts(ReaderData(first), ReaderData(rest), StandardData(EndedLines(lines[0])),
        StandardData(Pieces(rest)));
      assert forall i | 0 < i < |lines| :: lines[i] == rest[i - 1];
    }
  }

  // ---------------------------------------------------------------- blocks between blank lines

  /** The runs of lines between blank ones. */
  function Blocks(lines: seq<string>): (blocks: seq<seq<string>>)
    ensures |blocks| >= 1
  {
    if lines == [] then [[]]
    else
      var rest := Blocks(lines[1..]);
      if lines[0] == "" then [[]] + rest else [[lines[0]] + rest[0]] + rest[1..]
  }

  function BlockEvents(blocks: seq<seq<string>>): seq<Event> {
    if blocks == [] then [] else Dispatched(StandardFields(blocks[0], EMPTY)) + BlockEvents(blocks[1..])
  }

  function BlockData(blocks: seq<seq<string>>): seq<string> {
    if blocks == [] then [] else StandardData(blocks[0]) + BlockData(blocks[1..])
  }

  /** The event names of the blocks that hold data. */
  function DataNames(blocks: seq<seq<string>>): seq<string> {
    if blocks == [] then []
    else
      (if StandardData(blocks[0]) == [] then [] else [Effective(StandardKind(blocks[0]))]) + DataNames(blocks[1..])
  }

  lemma {:induction false} EventsByBlocks(lines: seq<string>, b: Block)
    ensures var blocks := Blocks(lines);
      StandardEvents(lines + [""], b) == Dispatched(StandardFields(blocks[0], b)) + BlockEvents(blocks[1..])
    ensures var blocks := Blocks(lines);
      StandardEvents(lines, b) ==
        if |blocks| == 1 then []
        else Dispatched(StandardFields(blocks[0], b)) + BlockEvents(blocks[1..|blocks| - 1])
  {
    hide StandardLine, Dispatched;
    var blocks := Blocks(lines);
    if lines == [] {
      assert lines + [""] == [""] && [""][1..] == [] && blocks[1..] == [];
    } else {
      var rest := Blocks(lines[1..]);
      assert (lines + [""])[1..] == lines[1..] + [""];
      if lines[0] == "" {
        EventsByBlocks(lines[1..], EMPTY);
        assert blocks[1..] == rest && blocks[1..|blocks| - 1] == rest[..|rest| - 1];
        assert |rest| > 1 ==> rest[..|rest| - 1][1..] == rest[1..|rest| - 1];
      } else {
        EventsByBlocks(lines[1..], StandardLine(lines[0], b));
        assert blocks[0][1..] == rest[0] && blocks[1..] == rest[1..];
        assert |blocks| > 1 ==> blocks[1..|blocks| - 1] == rest[1..|rest| - 1];
      }
    }
  }

  lemma BlocksOf(line: string, lines: seq<string>)
    ensures var rest := Blocks(lines);
      Blocks([line] + lines) == if line == "" then [[]] + rest else [[line] + rest[0]] + rest[1..]
  {
    assert ([line] + lines)[1..] == lines;
  }

  lemma BlockDataOf(first: seq<string>, rest: seq<seq<string>>)
    ensures BlockData([first] + rest) == StandardData(first) + BlockData(rest)
  {
    hide StandardData;
    assert ([first] + rest)[1..] == rest;
  }

  lemma NoBlock()
    ensures Blocks([]) == [[]] && BlockData([[]]) == [] && StandardData([]) == []
  {
  }

  lemma {:induction false} DataByBlocks(lines: seq<string>)
    ensures StandardData(lines) == BlockData(Blocks(lines))
  {
    hide StandardData, Blocks, BlockData;
    NoBlock();
    if lines != [] {
      var line, rest := lines[0], Blocks(lines[1..]);
      DataByBlocks(lines[1..]);
      assert lines == [line] + lines[1..];
      StandardDataAppend([line], lines[1..]);
      BlocksOf(line, lines[1..]);
      if line == "" {
        OneData(line);
        BlockDataOf([], rest);
      } else {
        StandardDataAppend([line], rest[0]);
        assert rest == [rest[0]] + rest[1..];
        BlockDataOf(rest[0], rest[1..]);
        BlockDataOf([line] + rest[0], rest[1..]);
      }
    }
  }

  /** Each block with data is one event under its name; a single one has all the data. */
  lemma {:induction false} BlockEventsAre(blocks: seq<seq<string>>)
    ensures |BlockEvents(blocks)| == |DataNames(blocks)|
    ensures forall i | 0 <= i < |DataNames(blocks)| :: BlockEvents(blocks)[i].name == DataNames(blocks)[i]
    ensures BlockEvents(blocks) == [] <==> BlockData(blocks) == []
    ensures |BlockEvents(blocks)| == 1 ==> BlockEvents(blocks)[0].payload == Join(BlockData(blocks))
  {
    hide StandardFields, StandardData, StandardKind, Join, Effective;
    if blocks != [] {
      StandardFieldsAre(blocks[0]);
      BlockEventsAre(blocks[1..]);
      if StandardData(blocks[0]) == [] {
        assert BlockData(blocks) == BlockData(blocks[1..]);
      } else if BlockEvents(blocks[1..]) == [] {
        assert BlockData(blocks) == StandardData(blocks[0]);
      }
    }
  }

  // ---------------------------------------------------------------- agreement on every text

  /** What the standard dispatches for a complete frame of the reader. */
  function StandardOfFrame(frame: string): seq<Event> { StandardEvents(EndedLines(frame) + [""], EMPTY) }

  /** Fair lines; and the standard finds one event with data, under the reader's name, or none if the reader finds no
      data. */
  predicate FrameFair(frame: string) {
    var lines := Lines(frame);
    && (forall i | 0 <= i < |lines| :: LineFair(lines[i]))
    && DataNames(Blocks(EndedLines(frame))) == if HasData(lines) then [ReaderName(lines)] else []
  }

  lemma {:induction false} EndedAreLines(s: string)
    ensures forall i | 0 <= i < |EndedLines(s)| :: OneLine(EndedLines(s)[i])
    decreases |s|
  {
    if s == "" || s == "\r" {
    } else if s[0] == '\r' && s[1] == '\n' {
      EndedAreLines(s[2..]);
    } else {
      EndedAreLines(s[1..]);
    }
  }

  lemma FrameIsFair(frame: string)
    ensures |Delivered(frame)| <= |StandardOfFrame(frame)|
    ensures Delivered(frame) == StandardOfFrame(frame) <==> FrameFair(frame)
  {
    hide Lines, EndedLines, Blocks, ReaderName, ReaderData, StandardData, HasData, LineFair, Join, BlockEvents;
    hide BlockData;
    hide DataNames, StandardFields, Dispatched;
    var lines, ended := Lines(frame), EndedLines(frame);
    var blocks := Blocks(ended);
    ReaderFields(lines);
    LinesAreLines(frame);
    EndedAreLines(frame);
    EndedByLines(frame);
    DataAlikeByPieces(lines);
    DataByBlocks(ended);
    WholeBlocks(ended);
    BlockEventsAre(blocks);
    DataIsOneLine(lines);
    DataIsOneLine(ended);
    DataAlike(lines);
    if ReaderData(lines) != [] { JoinIsInjective(ReaderData(lines), StandardData(ended)); }
  }

  lemma WholeBlocks(lines: seq<string>)
    ensures StandardEvents(lines + [""], EMPTY) == BlockEvents(Blocks(lines))
  {
    hide Blocks, StandardEvents, StandardFields, Dispatched;
    EventsByBlocks(lines, EMPTY);
  }

  function AllOfFrames(frames: seq<string>): seq<Event> {
    if frames == [] then [] else StandardOfFrame(frames[0]) + AllOfFrames(frames[1..])
  }

  lemma {:induction false} FramesAgree(frames: seq<string>)
    ensures |AllDelivered(frames)| <= |AllOfFrames(frames)|
    ensures AllDelivered(frames) == AllOfFrames(frames) <==> forall i | 0 <= i < |frames| :: FrameFair(frames[i])
  {
    hide Delivered, StandardOfFrame, FrameFair;
    if frames != [] {
      var rest := frames[1..];
      FrameIsFair(frames[0]);
      FramesAgree(rest);
      SameLengthParts(Delivered(frames[0]), AllDelivered(rest), StandardOfFrame(frames[0]), AllOfFrames(rest));
      assert forall i | 0 < i < |frames| :: frames[i] == rest[i - 1];
    }
  }

  lemma {:induction false} BlankResets(lines: seq<string>, b: Block, rest: seq<string>)
    ensures StandardEvents(lines + ([""] + rest), b) == StandardEvents(lines + [""], b) + StandardEvents(rest, EMPTY)
  {
    hide StandardLine, Dispatched;
    var all, whole := lines + ([""] + rest), lines + [""];
    if lines == [] {
      assert all == [""] + rest && all[1..] == rest && whole == [""] && whole[1..] == [];
    } else {
      assert all[1..] == lines[1..] + ([""] + rest) && whole[1..] == lines[1..] + [""];
      BlankResets(lines[1..], if lines[0] == "" then EMPTY else StandardLine(lines[0], b), rest);
    }
  }

  /** The standard dispatches for each complete frame of the reader by itself, and for what is left. */
  lemma {:induction false} StandardByAnyFrames(text: string)
    ensures var frames := Frames(text);
      StandardReading(text) == AllOfFrames(frames[..|frames| - 1]) + StandardReading(frames[|frames| - 1])
    decreases |text|
  {
    hide Frames, StandardLines, StandardEvents, EndedLines;
    if |Frames(text)| == 1 {
      OneFrame(text);
      assert [text][..0] == [];
    } else {
      var frame, rest := FirstFrame(text);
      var frames := Frames(rest);
      StandardByAnyFrames(rest);
      assert text == frame + ("\n" + ("" + ("\n" + rest)));
      StandardConcat(frame, "" + ("\n" + rest));
      StandardConcat("", rest);
      var a, b := EndedLines(frame), StandardLines(rest);
      EndedNothing();
      assert (a + ([""] + b))[..|a| + 1 + |b| - 1] == a + ([""] + b[..|b| - 1]);
      BlankResets(a, EMPTY, b[..|b| - 1]);
      assert ([frame] + frames)[..|frames|] == [frame] + frames[..|frames| - 1];
      FirstOfFrames(frame, frames[..|frames| - 1]);
    }
  }

  lemma EndedNothing()
    ensures EndedLines("") == [""]
  {
  }

  lemma FirstOfFrames(frame: string, rest: seq<string>)
    ensures AllOfFrames([frame] + rest) == StandardOfFrame(frame) + AllOfFrames(rest)
  {
    hide StandardOfFrame;
    assert ([frame] + rest)[1..] == rest;
  }

  /** In a text without a complete frame the standard may still find blank lines; it dispatches nothing exactly when no
      block before the last of them holds data. */
  predicate Silent(s: string) {
    var blocks := Blocks(Front(StandardLines(s)));
    DataNames(blocks[..|blocks| - 1]) == []
  }

  lemma SilentIs(s: string)
    ensures StandardReading(s) == [] <==> Silent(s)
  {
    hide StandardLines, StandardEvents, Blocks, BlockEvents, DataNames, BlockData, StandardFields, Dispatched;
    var lines := Front(StandardLines(s));
    var blocks := Blocks(lines);
    EventsByBlocks(lines, EMPTY);
    BlockEventsAre(blocks[..|blocks| - 1]);
    FirstBlock(blocks);
  }

  lemma FirstBlock(blocks: seq<seq<string>>)
    requires |blocks| >= 1
    ensures BlockEvents(blocks[..|blocks| - 1]) ==
      if |blocks| == 1 then [] else Dispatched(StandardFields(blocks[0], EMPTY)) + BlockEvents(blocks[1..|blocks| - 1])
  {
    hide StandardFields, Dispatched;
    if |blocks| > 1 { assert blocks[..|blocks| - 1][1..] == blocks[1..|blocks| - 1]; }
  }

  /** On every text, whatever ends its lines, the reader delivers the events of the standard's reading if and only if
      every complete frame is fair and what is left over is silent. */
  lemma AgreesExactly(text: string)
    ensures var frames := Frames(text);
      Events(text) == StandardReading(text) <==>
        (forall i | 0 <= i < |frames| - 1 :: FrameFair(frames[i])) && Silent(frames[|frames| - 1])
  {
    hide Frames, AllDelivered, AllOfFrames, StandardReading, FrameFair, Silent;
    var frames := Frames(text);
    var complete, last := frames[..|frames| - 1], frames[|frames| - 1];
    StandardByAnyFrames(text);
    FramesAgree(complete);
    SilentIs(last);
    SameLengthParts(AllDelivered(complete), [], AllOfFrames(complete), StandardReading(last));
    assert AllDelivered(complete) + [] == AllDelivered(complete);
    assert forall i | 0 <= i < |complete| :: complete[i] == frames[i];
  }
}
