/** What arrives of written events and of written lines, told without the readers that cut and
    parse them: payloads, end marks, an unfinished last event, and the lines of a process
    (core/openai_responses/anthropic_sse.py, cli/managed/session.py). */
module Arrival {
  import opened Text
  import opened Framing

  // ---------------------------------------------------------------- stripping

  lemma {:induction false} StripLeftCuts(s: string) returns (front: string)
    ensures IsBlank(front) && s == front + StripLeft(s)
    ensures StripLeft(s) != "" ==> !IsSpace(StripLeft(s)[0])
  {
    front := "";
    if s != "" && IsSpace(s[0]) {
      front := StripLeftCuts(s[1..]);
      front := s[..1] + front;
    }
  }

  lemma {:induction false} StripRightCuts(s: string) returns (back: string)
    ensures IsBlank(back) && s == StripRight(s) + back
    ensures StripRight(s) != "" ==> !IsSpace(StripRight(s)[|StripRight(s)| - 1])
  {
    back := "";
    if s != "" && IsSpace(s[|s| - 1]) {
      var init, last := s[..|s| - 1], s[|s| - 1..];
      back := StripRightCuts(init);
      ConcatAssoc(StripRight(init), back, last);
      back := back + last;
    }
  }

  /** Only space is cut, and none is left at either end. */
  lemma StripCutsSpace(s: string) returns (front: string, back: string)
    ensures s == front + Strip(s) + back && IsBlank(front) && IsBlank(back)
    ensures Strip(s) != "" ==> !IsSpace(Strip(s)[0]) && !IsSpace(Strip(s)[|Strip(s)| - 1])
  {
    front := StripLeftCuts(s);
    back := StripRightCuts(StripLeft(s));
    ConcatAssoc(front, Strip(s), back);
    if Strip(s) != "" {
      assert Strip(s)[0] == StripLeft(s)[0];
    }
  }

  /** Nothing is left exactly of a blank text. */
  lemma StripsToNothing(s: string)
    ensures Strip(s) == "" <==> IsBlank(s)
  {
    var front, back := StripCutsSpace(s);
    if Strip(s) == "" {
      assert s == front + back;
    } else {
      assert s[|front|] == Strip(s)[0];
    }
  }

  lemma NothingToStrip(s: string)
    requires OneLine(s)
    ensures Strip(s) == s
  {
  }

  // ---------------------------------------------------------------- payloads

  predicate OneLiners(lines: seq<string>) {
    forall l :: l in lines ==> OneLine(l)
  }

  lemma {:induction false} NothingToStripAll(lines: seq<string>)
    requires OneLiners(lines)
    ensures StripAll(lines) == lines
  {
    if lines != [] {
      assert lines[0] in lines && forall l :: l in lines[1..] ==> l in lines;
      NothingToStrip(lines[0]);
      NothingToStripAll(lines[1..]);
    }
  }

  /** Only the mark written alone looks like the mark. */
  lemma OnlyTheMark(lines: seq<string>)
    requires OneLiners(lines)
    ensures Join("\n", lines) == DONE_MARK <==> lines == [DONE_MARK]
  {
    if lines == [] {
    } else if |lines| == 1 {
      assert lines == [lines[0]];
    } else {
      var joined := lines[0] + "\n" + Join("\n", lines[1..]);
      assert joined[|lines[0]|] == '\n';
      assert forall i :: 0 <= i < |DONE_MARK| ==> DONE_MARK[i] != '\n';
    }
  }

  /** What becomes of data that was written: nothing of it stands for the empty value, data that
      decodes for what it decodes to, and other data for itself. */
  ghost predicate Stands<D>(json: Json<D>, text: string, d: D) {
    && (text == "" ==> d == json.empty)
    && (text != "" && json.decode(text).Some? ==> d == json.decode(text).value)
    && (text != "" && json.decode(text).None? ==> d == json.raw(text))
  }

  /** An event written with any number of data lines: it is dropped exactly when it has neither
      name nor data or its data is the end mark, and else delivers its name and its data. */
  lemma WrittenDataIsDelivered<D>(json: Json<D>, name: string, lines: seq<string>)
    requires name == "" || OneLine(name)
    requires OneLiners(lines)
    ensures var e := ParseSseEvent(json, FormatBody(name, Join("\n", lines)));
            && (e == None <==> (name == "" && lines == []) || lines == [DONE_MARK])
            && (e.Some? ==> e.value.name == name && Stands(json, Join("\n", lines), e.value.data))
  {
    FormatThenParse(json, name, Join("\n", lines));
    assert forall l :: l in lines ==> OneLine(l);
    JoinThenSplit(lines);
    NothingToStripAll(lines);
    OnlyTheMark(lines);
    assert Strip(name) == name;
  }

  // ---------------------------------------------------------------- an unfinished last event

  lemma NoBlankLineInBody(name: string, data: string)
    requires NoBreaks(name)
    ensures Find(FormatBody(name, data), BLANK_LINE) == -1
  {
    BodyIsLines(name, data);
    JoinedLinesHaveSingleFeeds(BodyLines(name, data));
    var body := FormatBody(name, data);
    FindIsFirst(body, BLANK_LINE);
    forall j: nat
      ensures !OccursAt(body, BLANK_LINE, j)
    {
      if j + 1 < |body| {
        NotBlankLine(body, j);
      }
    }
  }

  lemma BodyIsBlank(name: string, data: string)
    requires NoBreaks(name)
    ensures IsBlank(FormatBody(name, data)) ==> BodyLines(name, data) == []
  {
    var lines := BodyLines(name, data);
    if lines != [] {
      assert FormatBody(name, data)[0] == lines[0][0];
      assert lines[0][0] == 'e' || lines[0][0] == 'd';
    }
  }

  lemma {:induction false} FormatAllThen(events: seq<(string, string)>, last: string)
    ensures FormatAll(events) + last == Uncut(Bodies(events), BLANK_LINE, last)
  {
    if events != [] {
      var body := FormatBody(events[0].0, events[0].1);
      FormatAllThen(events[1..], last);
      assert Bodies(events)[1..] == Bodies(events[1..]);
      ConcatAssoc(body + BLANK_LINE, FormatAll(events[1..]), last);
    }
  }

  /** Events that arrive in any chunks, the last of them cut off before its blank line: it is
      delivered behind the others as if it were complete. */
  lemma LastEventArrives<D>(json: Json<D>, events: seq<(string, string)>, name: string, data: string, chunks: seq<string>)
    requires NoBreaks(name) && forall e :: e in events ==> NoBreaks(e.0)
    requires Flatten(chunks) == FormatAll(events) + FormatBody(name, data)
    ensures EventsOf(json, Flatten(chunks)) == Delivered(json, events) + Delivered(json, [(name, data)])
  {
    var body := FormatBody(name, data);
    CutBeforeLast(events, name, data);
    ParseBodies(json, events);
    ParseLast(json, Bodies(events), name, data);
  }

  lemma CutBeforeLast(events: seq<(string, string)>, name: string, data: string)
    requires NoBreaks(name) && forall e :: e in events ==> NoBreaks(e.0)
    ensures CutAll(FormatAll(events) + FormatBody(name, data), BLANK_LINE) == Cut(Bodies(events), FormatBody(name, data))
  {
    FormatAllCuts(events);
    NoBlankLineInBody(name, data);
    FormatAllThen(events, FormatBody(name, data));
    UncutThenCut(Bodies(events), BLANK_LINE, FormatBody(name, data));
  }

  lemma ParseLast<D>(json: Json<D>, frames: seq<string>, name: string, data: string)
    requires NoBreaks(name)
    ensures var body := FormatBody(name, data);
            ParseAll(json, frames + Unless(IsBlank(body), body)) == ParseAll(json, frames) + Delivered(json, [(name, data)])
  {
    var body := FormatBody(name, data);
    DeliveredOne(json, name, data);
    if IsBlank(body) {
      BodyIsBlank(name, data);
      NothingIsDelivered(json, name, data);
      assert frames + [] == frames;
    } else {
      FormatThenParse(json, name, data);
      ParseOneMore(json, frames, body);
    }
  }

  lemma DeliveredOne<D>(json: Json<D>, name: string, data: string)
    ensures Delivered(json, [(name, data)])
            == if Received(json, name, data).Some? then [Received(json, name, data).value] else []
  {
    var one := [(name, data)];
    assert Delivered(json, one[1..]) == [];
  }

  lemma NothingIsDelivered<D>(json: Json<D>, name: string, data: string)
    requires BodyLines(name, data) == []
    ensures IsBlank(FormatBody(name, data)) && Received(json, name, data) == None
  {
    var lines := SplitLines(data);
    assert name == "" && DataLines(lines) == [];
    assert lines == [];
  }

  // ---------------------------------------------------------------- lines of a process

  /** The written lines that are not blank, each without the space around it. */
  function Shown(decode: seq<Byte> -> string, lines: seq<seq<Byte>>): seq<string> {
    if lines == [] then []
    else (if IsBlank(decode(lines[0])) then [] else [Strip(decode(lines[0]))]) + Shown(decode, lines[1..])
  }

  lemma {:induction false} LinesAreShown(decode: seq<Byte> -> string, lines: seq<seq<Byte>>)
    ensures LinesOf(decode, lines) == Shown(decode, lines)
  {
    if lines != [] {
      StripsToNothing(decode(lines[0]));
      LinesAreShown(decode, lines[1..]);
    }
  }

  lemma NewlineEndsLine(line: seq<Byte>)
    requires NEWLINE !in line
    ensures Find(line, [NEWLINE]) == -1
    ensures Find(line + [NEWLINE], [NEWLINE]) == |line|
  {
    FindIsFirst(line, [NEWLINE]);
    var t := line + [NEWLINE];
    assert OccursAt(t, [NEWLINE], |line|);
    forall j: nat | j < |line|
      ensures !OccursAt(line, [NEWLINE], j) && !OccursAt(t, [NEWLINE], j)
    {
      assert line[j] in line;
      assert line[j..j + 1][0] != NEWLINE && t[j..j + 1][0] != NEWLINE;
    }
    FindIs(t, [NEWLINE], |line|);
  }

  /** Lines that a process writes, each ended by a line feed and the last perhaps not, arrive in
      order however the bytes are cut into chunks; blank ones are left out. */
  lemma WrittenLinesArrive(decode: seq<Byte> -> string, lines: seq<seq<Byte>>, last: seq<Byte>, chunks: seq<seq<Byte>>)
    requires NEWLINE !in last && forall l :: l in lines ==> NEWLINE !in l
    requires Flatten(chunks) == Uncut(lines, [NEWLINE], last)
    ensures OutputLines(decode, Flatten(chunks)) == Shown(decode, lines) + if last == [] then [] else Shown(decode, [last])
  {
    NewlineEndsLine(last);
    forall l | l in lines
      ensures Find(l + [NEWLINE], [NEWLINE]) == |l|
    {
      NewlineEndsLine(l);
    }
    UncutThenCut(lines, [NEWLINE], last);
    LinesAreShown(decode, lines);
    if last == [] {
      assert lines + [] == lines;
    } else {
      LinesOfOneMore(decode, lines, last);
      StripsToNothing(decode(last));
      assert [last][1..] == [];
      assert LineOf(decode, last) + [] == LineOf(decode, last);
    }
  }
}
