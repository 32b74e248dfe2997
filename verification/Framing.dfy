/** Cutting a chunked stream into frames: SSE events separated by a blank line
    (core/openai_responses/anthropic_sse.py) and CLI output lines (cli/managed/session.py).
    The SSE grammar is the blank-line subset of sections 9.2.5 and 9.2.6 of the HTML standard. */
module Framing {
  import opened Text

  const BLANK_LINE := "\n\n"
  const DONE_MARK := "[DONE]"

  // ---------------------------------------------------------------- cutting at a separator

  /** The complete frames of `s` and the unfinished rest behind the last separator. */
  datatype Cut<T> = Cut(frames: seq<seq<T>>, rest: seq<T>)

  function CutAll<T(==)>(s: seq<T>, sep: seq<T>): Cut<T>
    requires sep != []
    decreases |s|
  {
    var p := Find(s, sep);
    if p == -1 then Cut([], s)
    else Behind(s[..p], CutAll(s[p + |sep|..], sep))
  }

  function Behind<T>(frame: seq<T>, tail: Cut<T>): Cut<T> {
    Cut([frame] + tail.frames, tail.rest)
  }

  /** No separator is overlooked: none in the rest, none in a frame before its own end. */
  lemma {:induction false} CutAllMinimal<T>(s: seq<T>, sep: seq<T>)
    requires sep != []
    ensures Find(CutAll(s, sep).rest, sep) == -1
    ensures forall f :: f in CutAll(s, sep).frames ==> Find(f + sep, sep) == |f|
    decreases |s|
  {
    var p := Find(s, sep);
    if p != -1 {
      var tail := CutAll(s[p + |sep|..], sep);
      CutAllMinimal(s[p + |sep|..], sep);
      FirstFrame(s, sep, p);
      assert CutAll(s, sep) == Behind(s[..p], tail);
      forall f | f in CutAll(s, sep).frames
        ensures Find(f + sep, sep) == |f|
      {
        assert f == s[..p] || f in tail.frames;
      }
    }
  }

  lemma FirstFrame<T>(s: seq<T>, sep: seq<T>, p: nat)
    requires sep != [] && p == Find(s, sep)
    ensures Find(s[..p] + sep, sep) == p
  {
    FindIsFirst(s, sep);
    var head := s[..p] + sep;
    assert head == s[..p + |sep|];
    assert OccursAt(head, sep, p);
    forall j: nat | j < p
      ensures !OccursAt(head, sep, j)
    {
      assert s == head + s[p + |sep|..];
      OccursInPrefix(head, s[p + |sep|..], sep, j);
    }
    FindIs(head, sep, p);
  }

  lemma FindIs<T>(s: seq<T>, sep: seq<T>, p: nat)
    requires OccursAt(s, sep, p)
    requires forall j: nat :: j < p ==> !OccursAt(s, sep, j)
    ensures Find(s, sep) == p
  {
    FindIsFirst(s, sep);
  }

  /** Putting separators back behind the frames restores the text. */
  function Uncut<T>(frames: seq<seq<T>>, sep: seq<T>, rest: seq<T>): seq<T> {
    if frames == [] then rest else frames[0] + sep + Uncut(frames[1..], sep, rest)
  }

  lemma {:induction false} CutThenUncut<T>(s: seq<T>, sep: seq<T>)
    requires sep != []
    ensures Uncut(CutAll(s, sep).frames, sep, CutAll(s, sep).rest) == s
    decreases |s|
  {
    var p := Find(s, sep);
    if p != -1 {
      CutThenUncut(s[p + |sep|..], sep);
      SplitAtFirst(s, sep);
    }
  }

  /** A first occurrence stays the first one when text arrives behind it. */
  lemma FindInPrefix<T>(b: seq<T>, f: seq<T>, sep: seq<T>)
    requires Find(b, sep) != -1
    ensures Find(b + f, sep) == Find(b, sep)
  {
    var p := Find(b, sep);
    FindIsFirst(b, sep);
    OccursInPrefix(b, f, sep, p);
    forall j: nat | j < p
      ensures !OccursAt(b + f, sep, j)
    {
      OccursInPrefix(b, f, sep, j);
    }
    FindIs(b + f, sep, p);
  }

  lemma CutFirst<T>(b: seq<T>, f: seq<T>, sep: seq<T>, frame: seq<T>, rest: seq<T>)
    requires sep != [] && Find(b, sep) == |frame|
    requires b == frame + sep + rest
    ensures CutAll(b + f, sep) == Behind(frame, CutAll(rest + f, sep))
  {
    FindInPrefix(b, f, sep);
    ConcatAssoc(frame + sep, rest, f);
    CutOne(frame, sep, rest + f);
  }

  lemma CutOne<T>(frame: seq<T>, sep: seq<T>, tail: seq<T>)
    requires sep != [] && Find(frame + sep + tail, sep) == |frame|
    ensures CutAll(frame + sep + tail, sep) == Behind(frame, CutAll(tail, sep))
  {
    var s := frame + sep + tail;
    assert s[..|frame|] == frame && s[|frame| + |sep|..] == tail;
  }

  /** A text falls apart at its first separator. */
  lemma SplitAtFirst<T>(s: seq<T>, sep: seq<T>)
    requires Find(s, sep) != -1
    ensures var p := Find(s, sep);
            s == s[..p] + sep + s[p + |sep|..]
  {
    FindIsFirst(s, sep);
  }

  /** The frames found so far, followed by what the buffer still holds. */
  function Glue<T>(frames: seq<seq<T>>, c: Cut<T>): Cut<T> {
    Cut(frames + c.frames, c.rest)
  }

  /** Moving the first frame of the buffer to the frames found so far. */
  lemma GlueOne<T>(frames: seq<seq<T>>, buffer: seq<T>, sep: seq<T>)
    requires sep != [] && Find(buffer, sep) != -1
    ensures var p := Find(buffer, sep);
            Glue(frames, CutAll(buffer, sep)) == Glue(frames + [buffer[..p]], CutAll(buffer[p + |sep|..], sep))
  {
    var p := Find(buffer, sep);
    var frame, tail := buffer[..p], buffer[p + |sep|..];
    SplitAtFirst(buffer, sep);
    CutOne(frame, sep, tail);
    GlueBehind(frames, frame, CutAll(tail, sep));
  }

  lemma GlueBehind<T>(frames: seq<seq<T>>, frame: seq<T>, tail: Cut<T>)
    ensures Glue(frames, Behind(frame, tail)) == Glue(frames + [frame], tail)
  {
    assert frames + ([frame] + tail.frames) == frames + [frame] + tail.frames;
  }

  lemma GlueNone<T>(frames: seq<seq<T>>, buffer: seq<T>, sep: seq<T>)
    requires sep != [] && Find(buffer, sep) == -1
    ensures Glue(frames, CutAll(buffer, sep)) == Cut(frames, buffer)
  {
    assert frames + [] == frames;
  }

  /** Frames that are written out with their separators are cut back out unchanged. */
  lemma {:induction false} UncutThenCut<T>(frames: seq<seq<T>>, sep: seq<T>, rest: seq<T>)
    requires sep != [] && Find(rest, sep) == -1
    requires forall f :: f in frames ==> Find(f + sep, sep) == |f|
    ensures CutAll(Uncut(frames, sep, rest), sep) == Cut(frames, rest)
  {
    if frames != [] {
      var f, tail := frames[0], Uncut(frames[1..], sep, rest);
      UncutThenCut(frames[1..], sep, rest);
      var b := f + sep;
      assert f in frames;
      assert b == f + sep + [] && [] + tail == tail;
      CutFirst(b, tail, sep, f, []);
      assert [f] + frames[1..] == frames;
    }
  }

  // ---------------------------------------------------------------- SSE events

  datatype SseEvent<D> = SseEvent(name: string, data: D)

  /** JSON decoding of a payload, with the two fallbacks the parser wraps around it. */
  datatype Json<!D> = Json(empty: D, decode: string -> Option<D>, raw: string -> D) {
    function Payload(text: string): D {
      if text == "" then empty else decode(text).GetOr(raw(text))
    }
  }

  predicate IsLineBreak(c: char) {
    || '\n' <= c <= '\r'
    || '\U{1c}' <= c <= '\U{1e}'
    || c == '\U{85}' || c == '\U{2028}' || c == '\U{2029}'
  }

  function FirstBreak(s: string): (p: nat)
    ensures p <= |s|
    ensures forall j :: 0 <= j < p ==> !IsLineBreak(s[j])
    ensures p < |s| ==> IsLineBreak(s[p])
  {
    if s == "" || IsLineBreak(s[0]) then 0 else 1 + FirstBreak(s[1..])
  }

  function SplitLines(s: string): seq<string>
    decreases |s|
  {
    if s == "" then []
    else
      var p := FirstBreak(s);
      if p == |s| then [s]
      else
        var width := if s[p] == '\r' && p + 1 < |s| && s[p + 1] == '\n' then 2 else 1;
        [s[..p]] + SplitLines(s[p + width..])
  }

  function StripLeft(s: string): string {
    if s != "" && IsSpace(s[0]) then StripLeft(s[1..]) else s
  }

  function StripRight(s: string): string {
    if s != "" && IsSpace(s[|s| - 1]) then StripRight(s[..|s| - 1]) else s
  }

  function Strip(s: string): string {
    StripRight(StripLeft(s))
  }

  function StripReturns(s: string): string {
    if s != "" && s[|s| - 1] == '\r' then StripReturns(s[..|s| - 1]) else s
  }

  /** What the lines of one raw event say: its name and its data lines. */
  datatype Fields = Fields(name: string, data: seq<string>)

  function ReadLine(f: Fields, line: string): Fields {
    var stripped := StripReturns(line);
    if StartsWith(stripped, "event:") then f.(name := Strip(stripped[6..]))
    else if StartsWith(stripped, "data:") then f.(data := f.data + [Strip(stripped[5..])])
    else f
  }

  function ReadLines(f: Fields, lines: seq<string>): Fields
    decreases |lines|
  {
    if lines == [] then f else ReadLines(ReadLine(f, lines[0]), lines[1..])
  }

  function ParseSseEvent<D>(json: Json<D>, raw: string): Option<SseEvent<D>> {
    var f := ReadLines(Fields("", []), SplitLines(raw));
    var text := Join("\n", f.data);
    if f.name == "" && f.data == [] then None
    else if text == DONE_MARK then None
    else Some(SseEvent(f.name, json.Payload(text)))
  }

  function ParseOne<D>(json: Json<D>, frame: string): seq<SseEvent<D>> {
    match ParseSseEvent(json, frame)
    case None => []
    case Some(e) => [e]
  }

  function ParseAll<D>(json: Json<D>, frames: seq<string>): seq<SseEvent<D>> {
    FlatMap(frame => ParseOne(json, frame), frames)
  }

  lemma ParseOneMore<D>(json: Json<D>, frames: seq<string>, raw: string)
    ensures ParseAll(json, frames + [raw]) == ParseAll(json, frames) + ParseOne(json, raw)
  {
    FlatMapSnoc(frame => ParseOne(json, frame), frames, raw);
  }

  /** One frame more yields its event, if it has one. */
  lemma ParseNext<D>(json: Json<D>, frames: seq<string>, raw: string)
    ensures var event := ParseSseEvent(json, raw);
            ParseAll(json, frames + [raw]) == ParseAll(json, frames) + if event.Some? then [event.value] else []
  {
    ParseOneMore(json, frames, raw);
  }

  function Unless(skip: bool, s: string): seq<string> {
    if skip then [] else [s]
  }

  /** The events of a whole text: one for each frame, and one for a last unfinished frame
      unless it is blank. */
  function EventsOf<D>(json: Json<D>, text: string): seq<SseEvent<D>> {
    var c := CutAll(text, BLANK_LINE);
    ParseAll(json, c.frames + Unless(IsBlank(c.rest), c.rest))
  }

  /** The framing loop. Only the concatenation of the chunks matters. */
  method IterSseEvents<D>(json: Json<D>, chunks: seq<string>) returns (events: seq<SseEvent<D>>)
    ensures events == EventsOf(json, Flatten(chunks))
  {
    var buffer := "";
    events := [];
    ghost var frames: seq<string> := [];
    assert chunks[..0] == [];
    for i := 0 to |chunks|
      invariant events == ParseAll(json, frames)
      invariant CutAll(Flatten(chunks[..i]), BLANK_LINE) == Cut(frames, buffer)
    {
      ghost var whole := Flatten(chunks[..i]) + chunks[i];
      CutExtend(Flatten(chunks[..i]), chunks[i], BLANK_LINE);
      buffer := buffer + chunks[i];
      while Contains(buffer, BLANK_LINE)
        invariant events == ParseAll(json, frames)
        invariant CutAll(whole, BLANK_LINE) == Glue(frames, CutAll(buffer, BLANK_LINE))
        decreases |buffer|
      {
        GlueOne(frames, buffer, BLANK_LINE);
        var p := Find(buffer, BLANK_LINE);
        var raw := buffer[..p];
        buffer := buffer[p + |BLANK_LINE|..];
        var event := ParseSseEvent(json, raw);
        if event.Some? {
          events := events + [event.value];
        }
        ParseNext(json, frames, raw);
        frames := frames + [raw];
      }
      GlueNone(frames, buffer, BLANK_LINE);
      assert chunks[..i + 1] == chunks[..i] + [chunks[i]];
      FlattenSnoc(chunks[..i], chunks[i]);
    }
    assert chunks[..|chunks|] == chunks;
    if !IsBlank(buffer) {
      var event := ParseSseEvent(json, buffer);
      if event.Some? {
        events := events + [event.value];
      }
      ParseNext(json, frames, buffer);
    } else {
      assert frames + [] == frames;
    }
  }

  /** Cutting a text that grew: cut the old rest together with the new part. */
  lemma {:induction false} CutExtend<T>(s: seq<T>, more: seq<T>, sep: seq<T>)
    requires sep != []
    ensures var a := CutAll(s, sep);
            CutAll(s + more, sep) == Glue(a.frames, CutAll(a.rest + more, sep))
    decreases |s|
  {
    var p := Find(s, sep);
    if p == -1 {
      assert [] + CutAll(s + more, sep).frames == CutAll(s + more, sep).frames;
    } else {
      var frame, tail := s[..p], s[p + |sep|..];
      SplitAtFirst(s, sep);
      CutOne(frame, sep, tail);
      CutFirst(s, more, sep, frame, tail);
      CutExtend(tail, more, sep);
      BehindGlue(frame, CutAll(tail, sep).frames, CutAll(CutAll(tail, sep).rest + more, sep));
    }
  }

  lemma BehindGlue<T>(frame: seq<T>, frames: seq<seq<T>>, c: Cut<T>)
    ensures Behind(frame, Glue(frames, c)) == Glue([frame] + frames, c)
  {
    ConcatAssoc([frame], frames, c.frames);
  }

  // ---------------------------------------------------------------- writing events

  /** An event as the proxy writes it: a name line, one data line per line of data, and a
      blank line. */
  function FormatBody(name: string, data: string): string {
    Join("\n", BodyLines(name, data))
  }

  function DataLines(lines: seq<string>): seq<string> {
    if lines == [] then [] else ["data: " + lines[0]] + DataLines(lines[1..])
  }

  function FormatAll(events: seq<(string, string)>): string {
    if events == [] then ""
    else FormatBody(events[0].0, events[0].1) + BLANK_LINE + FormatAll(events[1..])
  }

  predicate NoBreaks(s: string) {
    forall i :: 0 <= i < |s| ==> !IsLineBreak(s[i])
  }

  predicate Lines(lines: seq<string>) {
    forall l :: l in lines ==> l != "" && NoBreaks(l)
  }

  /** The lines of a written event. */
  function BodyLines(name: string, data: string): seq<string> {
    (if name == "" then [] else ["event: " + name]) + DataLines(SplitLines(data))
  }

  lemma {:induction false} SplitLinesNoBreaks(s: string)
    ensures forall l :: l in SplitLines(s) ==> NoBreaks(l)
    decreases |s|
  {
    if s != "" {
      var p := FirstBreak(s);
      if p < |s| {
        var width := if s[p] == '\r' && p + 1 < |s| && s[p + 1] == '\n' then 2 else 1;
        SplitLinesNoBreaks(s[p + width..]);
      }
    }
  }

  lemma {:induction false} DataLinesAreLines(lines: seq<string>)
    requires forall l :: l in lines ==> NoBreaks(l)
    ensures Lines(DataLines(lines))
  {
    if lines != [] {
      assert lines[0] in lines && forall l :: l in lines[1..] ==> l in lines;
      DataLinesAreLines(lines[1..]);
      var first := "data: " + lines[0];
      assert NoBreaks(first);
    }
  }

  lemma BodyIsLines(name: string, data: string)
    requires NoBreaks(name)
    ensures Lines(BodyLines(name, data))
  {
    SplitLinesNoBreaks(data);
    DataLinesAreLines(SplitLines(data));
    var first := "event: " + name;
    assert NoBreaks(first);
  }

  lemma FirstBreakIs(s: string, rest: string)
    requires NoBreaks(s)
    ensures FirstBreak(s + "\n" + rest) == |s|
  {
    var t := s + "\n" + rest;
    assert t[|s|] == '\n';
    assert forall i :: 0 <= i < |s| ==> t[i] == s[i];
  }

  lemma SplitsOne(first: string, rest: string)
    requires NoBreaks(first)
    ensures SplitLines(first + "\n" + rest) == [first] + SplitLines(rest)
  {
    FirstBreakIs(first, rest);
    var t := first + "\n" + rest;
    assert t[..|first|] == first && t[|first|] == '\n' && t[|first| + 1..] == rest;
  }

  /** Lines that were joined are split again. */
  lemma {:induction false} JoinThenSplit(lines: seq<string>)
    requires Lines(lines)
    ensures SplitLines(Join("\n", lines)) == lines
  {
    if lines != [] {
      assert lines[0] in lines && forall l :: l in lines[1..] ==> l in lines;
      JoinThenSplit(lines[1..]);
      var first := lines[0];
      if |lines| > 1 {
        SplitsOne(first, Join("\n", lines[1..]));
      } else {
        assert FirstBreak(first) == |first|;
      }
    }
  }

  /** A line feed stands alone between other characters. */
  predicate SingleFeeds(t: string) {
    && (t != "" ==> t[0] != '\n')
    && forall j :: 0 <= j < |t| && t[j] == '\n' ==> j + 1 < |t| && t[j + 1] != '\n'
  }

  lemma {:induction false} JoinedLinesHaveSingleFeeds(lines: seq<string>)
    requires Lines(lines)
    ensures SingleFeeds(Join("\n", lines)) && (lines != [] ==> Join("\n", lines) != "")
  {
    if lines != [] {
      assert lines[0] in lines && forall l :: l in lines[1..] ==> l in lines;
      JoinedLinesHaveSingleFeeds(lines[1..]);
      var first, rest := lines[0], Join("\n", lines[1..]);
      if |lines| > 1 {
        var t := first + "\n" + rest;
        assert forall j :: 0 <= j < |first| ==> t[j] == first[j] != '\n';
        forall j | 0 <= j < |t| && t[j] == '\n'
          ensures j + 1 < |t| && t[j + 1] != '\n'
        {
          if j > |first| {
            assert t[j] == rest[j - |first| - 1];
          } else {
            assert t[|first| + 1] == rest[0];
          }
        }
      }
    }
  }

  lemma StripBehindSpace(s: string)
    ensures Strip(" " + s) == Strip(s)
  {
    assert (" " + s)[1..] == s;
  }

  lemma ReadEventLine(name: string, f: Fields)
    requires NoBreaks(name)
    ensures ReadLine(f, "event: " + name) == f.(name := Strip(name))
  {
    var line := "event: " + name;
    assert name != "" ==> line[|line| - 1] == name[|name| - 1];
    assert line[..6] == "event:";
    assert line[6..] == " " + name;
    StripBehindSpace(name);
  }

  lemma ReadDataLine(data: string, f: Fields)
    requires NoBreaks(data)
    ensures ReadLine(f, "data: " + data) == f.(data := f.data + [Strip(data)])
  {
    var line := "data: " + data;
    assert data != "" ==> line[|line| - 1] == data[|data| - 1];
    assert line[..5] == "data:";
    assert line[0] == 'd';
    assert !StartsWith(line, "event:") by {
      if |line| >= 6 {
        assert line[..6][0] != "event:"[0];
      }
    }
    assert line[5..] == " " + data;
    StripBehindSpace(data);
  }

  function StripAll(lines: seq<string>): seq<string> {
    if lines == [] then [] else [Strip(lines[0])] + StripAll(lines[1..])
  }

  lemma {:induction false} ReadDataLines(lines: seq<string>, f: Fields)
    requires forall l :: l in lines ==> NoBreaks(l)
    ensures ReadLines(f, DataLines(lines)) == f.(data := f.data + StripAll(lines))
    decreases |lines|
  {
    if lines == [] {
      assert f.data + [] == f.data;
    } else {
      assert lines[0] in lines && forall l :: l in lines[1..] ==> l in lines;
      var f1 := f.(data := f.data + [Strip(lines[0])]);
      ReadDataLine(lines[0], f);
      ReadDataLines(lines[1..], f1);
      assert DataLines(lines)[1..] == DataLines(lines[1..]);
      ConcatAssoc(f.data, [Strip(lines[0])], StripAll(lines[1..]));
    }
  }

  lemma ReadBody(name: string, data: string)
    requires NoBreaks(name)
    ensures ReadLines(Fields("", []), BodyLines(name, data)) == Fields(Strip(name), StripAll(SplitLines(data)))
  {
    var f, lines := Fields("", []), SplitLines(data);
    SplitLinesNoBreaks(data);
    assert [] + StripAll(lines) == StripAll(lines);
    if name == "" {
      ReadDataLines(lines, f);
      assert [] + DataLines(lines) == DataLines(lines);
    } else {
      ReadEventLine(name, f);
      ReadDataLines(lines, f.(name := Strip(name)));
      assert BodyLines(name, data)[1..] == DataLines(lines);
    }
  }

  /** What a reader gets of a written event: the name without the space around it, and the lines
      of the data, each without the space around it, joined with line feeds. Nothing comes of an
      event without a name and data, and of the end marker. */
  function Received<D>(json: Json<D>, name: string, data: string): Option<SseEvent<D>> {
    var lines := StripAll(SplitLines(data));
    if Strip(name) == "" && lines == [] then None
    else if Join("\n", lines) == DONE_MARK then None
    else Some(SseEvent(Strip(name), json.Payload(Join("\n", lines))))
  }

  /** A written event is read back, whatever its data is: of no line, of one or of several. */
  lemma FormatThenParse<D>(json: Json<D>, name: string, data: string)
    requires NoBreaks(name)
    ensures ParseSseEvent(json, FormatBody(name, data)) == Received(json, name, data)
  {
    BodyIsLines(name, data);
    JoinThenSplit(BodyLines(name, data));
    ReadBody(name, data);
  }

  /** A name or a payload that fits on one line and has no space at either end. */
  predicate OneLine(s: string) {
    s != "" && NoBreaks(s) && !IsSpace(s[0]) && !IsSpace(s[|s| - 1])
  }

  /** In particular a plain name and payload come back as they are. */
  lemma PlainEventComesBack<D>(json: Json<D>, name: string, data: string)
    requires OneLine(name) && OneLine(data) && data != DONE_MARK
    ensures ParseSseEvent(json, FormatBody(name, data)) == Some(SseEvent(name, json.Payload(data)))
  {
    FormatThenParse(json, name, data);
    assert FirstBreak(data) == |data|;
    assert StripAll([data]) == [Strip(data)] + StripAll([]);
    assert Strip(data) == data && Strip(name) == name;
  }

  lemma FormatIsOneFrame(name: string, data: string)
    requires NoBreaks(name)
    ensures Find(FormatBody(name, data) + BLANK_LINE, BLANK_LINE) == |FormatBody(name, data)|
  {
    BodyIsLines(name, data);
    var body := FormatBody(name, data);
    var t := body + BLANK_LINE;
    JoinedLinesHaveSingleFeeds(BodyLines(name, data));
    assert OccursAt(t, BLANK_LINE, |body|);
    forall j: nat | j < |body|
      ensures !OccursAt(t, BLANK_LINE, j)
    {
      assert t[j] == body[j];
      if body[j] == '\n' {
        assert t[j + 1] == body[j + 1];
      }
      NotBlankLine(t, j);
    }
    FindIs(t, BLANK_LINE, |body|);
  }

  lemma NotBlankLine(t: string, j: nat)
    requires j + 1 < |t| && (t[j] != '\n' || t[j + 1] != '\n')
    ensures !OccursAt(t, BLANK_LINE, j)
  {
    if j + |BLANK_LINE| <= |t| {
      var two := t[j..j + |BLANK_LINE|];
      assert two[0] == t[j] && two[1] == t[j + 1];
    }
  }

  function Bodies(events: seq<(string, string)>): (r: seq<string>)
    ensures |r| == |events|
  {
    if events == [] then [] else [FormatBody(events[0].0, events[0].1)] + Bodies(events[1..])
  }

  lemma {:induction false} FormatAllCuts(events: seq<(string, string)>)
    requires forall e :: e in events ==> NoBreaks(e.0)
    ensures FormatAll(events) == Uncut(Bodies(events), BLANK_LINE, [])
    ensures forall f :: f in Bodies(events) ==> Find(f + BLANK_LINE, BLANK_LINE) == |f|
  {
    if events != [] {
      assert events[0] in events && forall e :: e in events[1..] ==> e in events;
      FormatAllCuts(events[1..]);
      FormatIsOneFrame(events[0].0, events[0].1);
    }
  }

  /** What a reader gets of several written events. */
  function Delivered<D>(json: Json<D>, events: seq<(string, string)>): seq<SseEvent<D>> {
    if events == [] then []
    else
      (match Received(json, events[0].0, events[0].1)
       case None => []
       case Some(e) => [e])
      + Delivered(json, events[1..])
  }

  lemma {:induction false} ParseBodies<D>(json: Json<D>, events: seq<(string, string)>)
    requires forall e :: e in events ==> NoBreaks(e.0)
    ensures ParseAll(json, Bodies(events)) == Delivered(json, events)
  {
    if events != [] {
      assert events[0] in events && forall e :: e in events[1..] ==> e in events;
      FormatThenParse(json, events[0].0, events[0].1);
      ParseBodies(json, events[1..]);
      assert Bodies(events)[1..] == Bodies(events[1..]);
    }
  }

  /** End to end: events written one after another, cut into chunks anywhere and read by the
      framing loop arrive in the same order, each as it would by itself. */
  lemma WrittenEventsArrive<D>(json: Json<D>, events: seq<(string, string)>, chunks: seq<string>)
    requires forall e :: e in events ==> NoBreaks(e.0)
    requires Flatten(chunks) == FormatAll(events)
    ensures EventsOf(json, Flatten(chunks)) == Delivered(json, events)
  {
    FormatAllCuts(events);
    assert Find("", BLANK_LINE) == -1;
    UncutThenCut(Bodies(events), BLANK_LINE, "");
    ParseBodies(json, events);
    assert Bodies(events) + [] == Bodies(events);
  }

  // ---------------------------------------------------------------- CLI output lines

  type Byte = b: int | 0 <= b < 256

  const NEWLINE: Byte := 10

  function LineOf(decode: seq<Byte> -> string, frame: seq<Byte>): seq<string> {
    var line := Strip(decode(frame));
    Unless(line == "", line)
  }

  /** The lines of a whole output: decoded and stripped, blank ones left out. */
  function LinesOf(decode: seq<Byte> -> string, frames: seq<seq<Byte>>): seq<string> {
    FlatMap(frame => LineOf(decode, frame), frames)
  }

  lemma LinesOfOneMore(decode: seq<Byte> -> string, frames: seq<seq<Byte>>, line: seq<Byte>)
    ensures LinesOf(decode, frames + [line]) == LinesOf(decode, frames) + LineOf(decode, line)
  {
    FlatMapSnoc(frame => LineOf(decode, frame), frames, line);
  }

  /** The lines that a reader of the whole output `bytes` yields. */
  function OutputLines(decode: seq<Byte> -> string, bytes: seq<Byte>): seq<string> {
    var c := CutAll(bytes, [NEWLINE]);
    LinesOf(decode, c.frames + if c.rest == [] then [] else [c.rest])
  }

  /** The reading loop over the standard output of a session. Only the concatenation of the
      chunks that were read matters; no line is cut by a chunk boundary. */
  method ReadStdout(decode: seq<Byte> -> string, chunks: seq<seq<Byte>>) returns (lines: seq<string>)
    ensures lines == OutputLines(decode, Flatten(chunks))
  {
    var buffer: seq<Byte> := [];
    lines := [];
    ghost var frames: seq<seq<Byte>> := [];
    assert chunks[..0] == [];
    for i := 0 to |chunks|
      invariant lines == LinesOf(decode, frames)
      invariant CutAll(Flatten(chunks[..i]), [NEWLINE]) == Cut(frames, buffer)
    {
      ghost var whole := Flatten(chunks[..i]) + chunks[i];
      CutExtend(Flatten(chunks[..i]), chunks[i], [NEWLINE]);
      buffer := buffer + chunks[i];
      while true
        invariant lines == LinesOf(decode, frames)
        invariant CutAll(whole, [NEWLINE]) == Glue(frames, CutAll(buffer, [NEWLINE]))
        decreases |buffer|
      {
        var newlinePos := Find(buffer, [NEWLINE]);
        if newlinePos == -1 {
          break;
        }
        GlueOne(frames, buffer, [NEWLINE]);
        var line := buffer[..newlinePos];
        buffer := buffer[newlinePos + 1..];
        var lineStr := Strip(decode(line));
        if lineStr != "" {
          lines := lines + [lineStr];
        }
        LinesOfOneMore(decode, frames, line);
        frames := frames + [line];
      }
      GlueNone(frames, buffer, [NEWLINE]);
      assert chunks[..i + 1] == chunks[..i] + [chunks[i]];
      FlattenSnoc(chunks[..i], chunks[i]);
    }
    assert chunks[..|chunks|] == chunks;
    if buffer != [] {
      var lineStr := Strip(decode(buffer));
      if lineStr != "" {
        lines := lines + [lineStr];
      }
      LinesOfOneMore(decode, frames, buffer);
    } else {
      assert frames + [] == frames;
    }
  }
}
