/** The streaming parser for `<think>...</think>` tags (core/anthropic/thinking.py). */
module ThinkTags {
  import opened Text

  const OPEN_TAG := "<think>"
  const CLOSE_TAG := "</think>"

  datatype ContentType = TEXT | THINKING
  datatype ContentChunk = ContentChunk(kind: ContentType, content: string)

  /** A character together with the kind of content it belongs to. */
  type Tagged = (ContentType, char)

  function Mode(inThink: bool): ContentType {
    if inThink then THINKING else TEXT
  }

  function Tag(kind: ContentType, s: string): (r: seq<Tagged>)
    ensures |r| == |s|
    ensures forall i :: 0 <= i < |s| ==> r[i] == (kind, s[i])
  {
    seq(|s|, i requires 0 <= i < |s| => (kind, s[i]))
  }

  function TagChunk(c: Option<ContentChunk>): seq<Tagged> {
    match c
    case None => []
    case Some(ch) => Tag(ch.kind, ch.content)
  }

  function TagOf(c: ContentChunk): seq<Tagged> {
    Tag(c.kind, c.content)
  }

  function TagAll(chunks: seq<ContentChunk>): seq<Tagged> {
    FlatMap(TagOf, chunks)
  }

  /** The reference: one pass over a whole string, one character at a time. An opening tag is
      only recognised outside a thinking section; a closing tag is removed everywhere. */
  function Parse(s: string, inThink: bool): seq<Tagged>
    decreases |s|
  {
    if s == "" then []
    else if StartsWith(s, CLOSE_TAG) then Parse(s[|CLOSE_TAG|..], false)
    else if !inThink && StartsWith(s, OPEN_TAG) then Parse(s[|OPEN_TAG|..], true)
    else [(Mode(inThink), s[0])] + Parse(s[1..], inThink)
  }

  /** A tag that matters in the given mode stands in `s` at `j`. */
  predicate TagAt(s: string, inThink: bool, j: int) {
    OccursAt(s, CLOSE_TAG, j) || (!inThink && OccursAt(s, OPEN_TAG, j))
  }

  /** What the parser may hold back between two calls: a proper prefix, possibly empty, of a
      tag that matters in the current mode. */
  predicate Held(buffer: string, inThink: bool) {
    || (|buffer| < |CLOSE_TAG| && StartsWith(CLOSE_TAG, buffer))
    || (!inThink && |buffer| < |OPEN_TAG| && StartsWith(OPEN_TAG, buffer))
  }

  lemma ParseOne(s: string, inThink: bool)
    requires s != "" && !TagAt(s, inThink, 0)
    ensures Parse(s, inThink) == [(Mode(inThink), s[0])] + Parse(s[1..], inThink)
  {
    StartsAtZero(s, CLOSE_TAG);
    StartsAtZero(s, OPEN_TAG);
  }

  lemma TagConcat(kind: ContentType, a: string, b: string)
    ensures Tag(kind, a + b) == Tag(kind, a) + Tag(kind, b)
  {
  }

  /** Up to the first tag, the reference copies characters. */
  lemma {:induction false} ParseCopies(s: string, inThink: bool, k: nat)
    requires k <= |s|
    requires forall j :: 0 <= j < k ==> !TagAt(s, inThink, j)
    ensures Parse(s, inThink) == Tag(Mode(inThink), s[..k]) + Parse(s[k..], inThink)
    decreases k
  {
    if k == 0 {
      assert s[0..] == s;
    } else {
      ParseCopies(s, inThink, k - 1);
      OccursInSuffix(s, CLOSE_TAG, k - 1, 0);
      OccursInSuffix(s, OPEN_TAG, k - 1, 0);
      assert !TagAt(s, inThink, k - 1);
      ParseOne(s[k - 1..], inThink);
      assert s[k - 1..][1..] == s[k..];
      assert s[..k] == s[..k - 1] + [s[k - 1]];
      TagConcat(Mode(inThink), s[..k - 1], [s[k - 1]]);
      assert Tag(Mode(inThink), [s[k - 1]]) == [(Mode(inThink), s[k - 1])];
    }
  }

  /** A tag has its only '<' in front, so a tag cannot begin before a '<' and reach over it. */
  lemma NoTagOverBracket(s: string, tag: string, j: nat, r: nat)
    requires tag == OPEN_TAG || tag == CLOSE_TAG
    requires j < r < |s| && s[r] == '<'
    requires OccursAt(s, tag, j)
    ensures j + |tag| <= r
  {
    OccursIndex(s, tag, j);
    assert forall i :: 0 < i < |tag| ==> s[j + i] == tag[i] != '<';
    assert s[j + (r - j)] == '<';
  }

  /** If `b` has no tag before position `r` and a '<' at `r`, no continuation creates one. */
  lemma NoTagBeforeBracket(b: string, f: string, inThink: bool, r: nat)
    requires r < |b| && b[r] == '<'
    requires forall j :: 0 <= j < r ==> !TagAt(b, inThink, j)
    ensures forall j :: 0 <= j < r ==> !TagAt(b + f, inThink, j)
  {
    forall j | 0 <= j < r
      ensures !TagAt(b + f, inThink, j)
    {
      assert !TagAt(b, inThink, j);
      NoTagInExtension(b, f, CLOSE_TAG, j, r);
      NoTagInExtension(b, f, OPEN_TAG, j, r);
    }
  }

  lemma NoTagInExtension(b: string, f: string, tag: string, j: nat, r: nat)
    requires tag == OPEN_TAG || tag == CLOSE_TAG
    requires j < r < |b| && b[r] == '<'
    ensures OccursAt(b + f, tag, j) ==> OccursAt(b, tag, j)
  {
    if OccursAt(b + f, tag, j) {
      NoTagOverBracket(b + f, tag, j, r);
      OccursInPrefix(b, f, tag, j);
    }
  }

  lemma TagStartsWithBracket(s: string, inThink: bool, j: nat)
    requires TagAt(s, inThink, j)
    ensures j < |s| && s[j] == '<'
  {
    if OccursAt(s, CLOSE_TAG, j) {
      OccursIndex(s, CLOSE_TAG, j);
      assert s[j + 0] == '<';
    } else {
      OccursIndex(s, OPEN_TAG, j);
      assert s[j + 0] == '<';
    }
  }

  /** One parsing step: what is emitted, what stays in the buffer, and the mode after it. */
  datatype StepResult = StepResult(chunk: Option<ContentChunk>, buffer: string, inThink: bool)

  /** A step is sound when, whatever text still follows, the reference sees the same characters
      in what was emitted followed by what is left. */
  ghost predicate SoundStep(buffer: string, inThink: bool, r: StepResult) {
    forall f: string ::
      Parse(buffer + f, inThink) == TagChunk(r.chunk) + Parse(r.buffer + f, r.inThink)
  }

  function EmitText(kind: ContentType, s: string): (c: Option<ContentChunk>)
    ensures TagChunk(c) == Tag(kind, s)
    ensures c.None? <==> s == ""
  {
    if s == "" then None else Some(ContentChunk(kind, s))
  }

  /** The reference skips a tag that matters in its mode. */
  lemma ParseTag(tag: string, rest: string, inThink: bool)
    requires tag == CLOSE_TAG || (tag == OPEN_TAG && !inThink)
    ensures Parse(tag + rest, inThink) == Parse(rest, tag == OPEN_TAG)
  {
    var t := tag + rest;
    assert t[..|tag|] == tag && t[|tag|..] == rest;
    if tag == OPEN_TAG {
      OpenIsNotClose(t);
    }
  }

  lemma OpenIsNotClose(t: string)
    requires |t| > 1 && t[1] == 't'
    ensures !StartsWith(t, CLOSE_TAG)
  {
    if |t| >= |CLOSE_TAG| {
      assert t[..|CLOSE_TAG|][1] == 't' != CLOSE_TAG[1];
    }
  }

  /** Cutting at a tag that stands at `p` with none before it. */
  lemma CutAtTag(b: string, inThink: bool, p: nat, tag: string, r: StepResult)
    requires tag == CLOSE_TAG || (tag == OPEN_TAG && !inThink)
    requires OccursAt(b, tag, p)
    requires forall j :: 0 <= j < p ==> !TagAt(b, inThink, j)
    requires r == StepResult(EmitText(Mode(inThink), b[..p]), b[p + |tag|..], tag == OPEN_TAG)
    ensures SoundStep(b, inThink, r)
  {
    TagStartsWithBracket(b, tag == CLOSE_TAG && inThink, p);
    forall f: string
      ensures Parse(b + f, inThink) == TagChunk(r.chunk) + Parse(r.buffer + f, r.inThink)
    {
      NoTagBeforeBracket(b, f, inThink, p);
      ParseUpToTag(b, f, inThink, p, tag);
    }
  }

  lemma ParseUpToTag(b: string, f: string, inThink: bool, p: nat, tag: string)
    requires tag == CLOSE_TAG || (tag == OPEN_TAG && !inThink)
    requires OccursAt(b, tag, p)
    requires forall j :: 0 <= j < p ==> !TagAt(b + f, inThink, j)
    ensures Parse(b + f, inThink)
            == Tag(Mode(inThink), b[..p]) + Parse(b[p + |tag|..] + f, tag == OPEN_TAG)
  {
    var rest := b[p + |tag|..] + f;
    SplitAround(b, f, tag, p);
    ParseCopies(b + f, inThink, p);
    ParseTag(tag, rest, inThink);
  }

  lemma SplitAround(b: string, f: string, tag: string, p: nat)
    requires OccursAt(b, tag, p)
    ensures (b + f)[..p] == b[..p] && (b + f)[p..] == tag + (b[p + |tag|..] + f)
  {
    assert b[p..] == tag + b[p + |tag|..];
    assert (b + f)[p..] == b[p..] + f;
  }

  /** With no tag in the buffer, everything in front of a last '<' may go, and the last '<'
      may go as well unless a tag could start there. */
  lemma CutBeforePartialTag(b: string, inThink: bool, k: nat, r: StepResult)
    requires k <= |b|
    requires forall j :: !TagAt(b, inThink, j)
    requires var last := FindLast(b, '<');
             last == k || (k == |b| && (last == -1 || !Held(b[last..], inThink)))
    requires r == StepResult(EmitText(Mode(inThink), b[..k]), b[k..], inThink)
    ensures SoundStep(b, inThink, r)
  {
    forall f: string
      ensures Parse(b + f, inThink) == TagChunk(r.chunk) + Parse(r.buffer + f, r.inThink)
    {
      ParseUpToCut(b, f, inThink, k);
    }
  }

  lemma ParseUpToCut(b: string, f: string, inThink: bool, k: nat)
    requires k <= |b|
    requires forall j :: !TagAt(b, inThink, j)
    requires var last := FindLast(b, '<');
             last == k || (k == |b| && (last == -1 || !Held(b[last..], inThink)))
    ensures Parse(b + f, inThink) == Tag(Mode(inThink), b[..k]) + Parse(b[k..] + f, inThink)
  {
    var s := b + f;
    forall j | 0 <= j < k
      ensures !TagAt(s, inThink, j)
    {
      NoTagBeforeCut(b, f, inThink, k, j);
    }
    ParseCopies(s, inThink, k);
    assert s[..k] == b[..k];
    assert s[k..] == b[k..] + f;
  }

  lemma NoTagBeforeCut(b: string, f: string, inThink: bool, k: nat, j: nat)
    requires j < k <= |b|
    requires forall i :: !TagAt(b, inThink, i)
    requires var last := FindLast(b, '<');
             last == k || (k == |b| && (last == -1 || !Held(b[last..], inThink)))
    ensures !TagAt(b + f, inThink, j)
  {
    var last := FindLast(b, '<');
    assert !TagAt(b, inThink, j);
    if b[j] != '<' {
      if TagAt(b + f, inThink, j) {
        TagStartsWithBracket(b + f, inThink, j);
        assert false;
      }
    } else if j < last {
      NoTagInExtension(b, f, CLOSE_TAG, j, last);
      NoTagInExtension(b, f, OPEN_TAG, j, last);
    } else {
      assert j == last;
      HeldBeginsTag(b, f, CLOSE_TAG, j);
      if !inThink {
        HeldBeginsTag(b, f, OPEN_TAG, j);
      }
    }
  }

  lemma HeldBeginsTag(b: string, f: string, tag: string, j: nat)
    requires j < |b|
    requires !OccursAt(b, tag, j)
    ensures OccursAt(b + f, tag, j) ==> |b[j..]| < |tag| && StartsWith(tag, b[j..])
  {
    if j + |tag| <= |b| {
      OccursInPrefix(b, f, tag, j);
    } else if OccursAt(b + f, tag, j) {
      var n := |b| - j;
      assert tag[..n] == (b + f)[j..j + |tag|][..n] == b[j..];
    }
  }

  /** A held buffer contains no tag, so the reference reads it as plain content. */
  lemma HeldIsPlain(b: string, inThink: bool)
    requires Held(b, inThink)
    ensures Parse(b, inThink) == Tag(Mode(inThink), b)
  {
    forall j | 0 <= j < |b|
      ensures !TagAt(b, inThink, j)
    {
      HeldHasNoTag(b, inThink, j);
    }
    ParseCopies(b, inThink, |b|);
    assert b[..|b|] == b;
  }

  lemma HeldHasNoTag(b: string, inThink: bool, j: nat)
    requires j < |b|
    requires Held(b, inThink)
    ensures !TagAt(b, inThink, j)
  {
    if |b| == |OPEN_TAG| && j == 0 {
      assert b == CLOSE_TAG[..|b|];
      assert b[1] == '/' && OPEN_TAG[1] == 't';
      assert b[0..|OPEN_TAG|] == b;
    }
  }

  class ThinkTagParser {
    var buffer: string
    var inThinkTag: bool

    constructor ()
      ensures buffer == "" && !inThinkTag
    {
      buffer := "";
      inThinkTag := false;
    }

    method ParseOutsideThink() returns (chunk: Option<ContentChunk>)
      requires buffer != "" && !inThinkTag
      modifies this
      ensures SoundStep(old(buffer), false, StepResult(chunk, buffer, inThinkTag))
      ensures chunk.Some? ==> chunk.value.content != ""
      ensures |buffer| <= |old(buffer)|
      ensures chunk.Some? ==> |buffer| < |old(buffer)|
      ensures buffer == old(buffer) ==> chunk.None? && !inThinkTag && Held(buffer, false)
      ensures |buffer| == |old(buffer)| ==> buffer == old(buffer)
    {
      var b := buffer;
      FindIsFirst(b, OPEN_TAG);
      FindIsFirst(b, CLOSE_TAG);
      var thinkStart := Find(b, OPEN_TAG);
      var orphanClose := Find(b, CLOSE_TAG);
      if orphanClose != -1 && (thinkStart == -1 || orphanClose < thinkStart) {
        var preOrphan := b[..orphanClose];
        buffer := b[orphanClose + |CLOSE_TAG|..];
        chunk := EmitText(TEXT, preOrphan);
        CutAtTag(b, false, orphanClose, CLOSE_TAG, StepResult(chunk, buffer, inThinkTag));
        return;
      }
      if thinkStart == -1 {
        var lastBracket := FindLast(b, '<');
        if lastBracket != -1 {
          var potentialTag := b[lastBracket..];
          if (|potentialTag| < |OPEN_TAG| && StartsWith(OPEN_TAG, potentialTag))
             || (|potentialTag| < |CLOSE_TAG| && StartsWith(CLOSE_TAG, potentialTag)) {
            var emit := b[..lastBracket];
            buffer := b[lastBracket..];
            chunk := EmitText(TEXT, emit);
            CutBeforePartialTag(b, false, lastBracket, StepResult(chunk, buffer, inThinkTag));
            return;
          }
        }
        buffer := "";
        chunk := EmitText(TEXT, b);
        assert b[..|b|] == b && b[|b|..] == "";
        CutBeforePartialTag(b, false, |b|, StepResult(chunk, buffer, inThinkTag));
        return;
      }
      var preThink := b[..thinkStart];
      buffer := b[thinkStart + |OPEN_TAG|..];
      inThinkTag := true;
      chunk := EmitText(TEXT, preThink);
      CutAtTag(b, false, thinkStart, OPEN_TAG, StepResult(chunk, buffer, inThinkTag));
    }

    method ParseInsideThink() returns (chunk: Option<ContentChunk>)
      requires buffer != "" && inThinkTag
      modifies this
      ensures SoundStep(old(buffer), true, StepResult(chunk, buffer, inThinkTag))
      ensures chunk.Some? ==> chunk.value.content != ""
      ensures |buffer| <= |old(buffer)|
      ensures chunk.Some? ==> |buffer| < |old(buffer)|
      ensures |buffer| == |old(buffer)| ==> buffer == old(buffer)
      ensures buffer == old(buffer) ==> chunk.None? && inThinkTag && Held(buffer, true)
    {
      var b := buffer;
      FindIsFirst(b, CLOSE_TAG);
      var thinkEnd := Find(b, CLOSE_TAG);
      if thinkEnd == -1 {
        var lastBracket := FindLast(b, '<');
        if lastBracket != -1 && |b| - lastBracket < |CLOSE_TAG| {
          var potentialTag := b[lastBracket..];
          if StartsWith(CLOSE_TAG, potentialTag) {
            var emit := b[..lastBracket];
            buffer := b[lastBracket..];
            chunk := EmitText(THINKING, emit);
            CutBeforePartialTag(b, true, lastBracket, StepResult(chunk, buffer, inThinkTag));
            return;
          }
        }
        buffer := "";
        chunk := EmitText(THINKING, b);
        assert b[..|b|] == b && b[|b|..] == "";
        CutBeforePartialTag(b, true, |b|, StepResult(chunk, buffer, inThinkTag));
        return;
      }
      buffer := b[thinkEnd + |CLOSE_TAG|..];
      inThinkTag := false;
      chunk := EmitText(THINKING, b[..thinkEnd]);
      CutAtTag(b, true, thinkEnd, CLOSE_TAG, StepResult(chunk, buffer, inThinkTag));
    }

    /** Whatever text follows later, the reference reads the old buffer and the new content as
        the emitted chunks followed by the buffer that is left. */
    method Feed(content: string) returns (chunks: seq<ContentChunk>)
      modifies this
      ensures Held(buffer, inThinkTag)
      ensures forall c :: c in chunks ==> c.content != ""
      ensures forall f: string ::
                Parse(old(buffer) + content + f, old(inThinkTag))
                == TagAll(chunks) + Parse(buffer + f, inThinkTag)
    {
      buffer := buffer + content;
      ghost var whole, mode := buffer, inThinkTag;
      chunks := [];
      while buffer != ""
        invariant forall c :: c in chunks ==> c.content != ""
        invariant forall f: string ::
                    Parse(whole + f, mode) == TagAll(chunks) + Parse(buffer + f, inThinkTag)
        decreases |buffer|
      {
        ghost var before, wasIn, sofar := buffer, inThinkTag, chunks;
        var prevLen := |buffer|;
        var chunk: Option<ContentChunk>;
        if !inThinkTag {
          chunk := ParseOutsideThink();
        } else {
          chunk := ParseInsideThink();
        }
        if chunk.Some? {
          chunks := chunks + [chunk.value];
        }
        forall f: string
          ensures Parse(whole + f, mode) == TagAll(chunks) + Parse(buffer + f, inThinkTag)
        {
          ExtendRun(whole, mode, before, wasIn, sofar, StepResult(chunk, buffer, inThinkTag), f);
        }
        if chunk.None? && |buffer| == prevLen {
          break;
        }
      }
    }

    method Flush() returns (chunk: Option<ContentChunk>)
      requires Held(buffer, inThinkTag)
      modifies this
      ensures buffer == "" && inThinkTag == old(inThinkTag)
      ensures TagChunk(chunk) == Parse(old(buffer), old(inThinkTag))
      ensures chunk.Some? ==> chunk.value.content != ""
    {
      HeldIsPlain(buffer, inThinkTag);
      if buffer != "" {
        var chunkType := if inThinkTag then THINKING else TEXT;
        var content := buffer;
        buffer := "";
        return Some(ContentChunk(chunkType, content));
      }
      return None;
    }
  }

  lemma ExtendRun(whole: string, mode: bool, before: string, wasIn: bool, sofar: seq<ContentChunk>,
                  r: StepResult, f: string)
    requires Parse(whole + f, mode) == TagAll(sofar) + Parse(before + f, wasIn)
    requires SoundStep(before, wasIn, r)
    ensures var chunks := if r.chunk.Some? then sofar + [r.chunk.value] else sofar;
            Parse(whole + f, mode) == TagAll(chunks) + Parse(r.buffer + f, r.inThink)
  {
    var rest := Parse(r.buffer + f, r.inThink);
    assert Parse(before + f, wasIn) == TagChunk(r.chunk) + rest;
    ConcatAssoc(TagAll(sofar), TagChunk(r.chunk), rest);
    if r.chunk.Some? {
      FlatMapSnoc(TagOf, sofar, r.chunk.value);
    } else {
      assert TagAll(sofar) + [] == TagAll(sofar);
    }
  }

  /** `chunks` together with the held buffer stand for `text`, whatever follows. */
  ghost predicate StandsFor(text: string, chunks: seq<ContentChunk>, buffer: string, inThink: bool) {
    forall f: string :: Parse(text + f, false) == TagAll(chunks) + Parse(buffer + f, inThink)
  }

  lemma StandsForMore(text: string, sofar: seq<ContentChunk>, held: string, mode: bool, piece: string,
                      more: seq<ContentChunk>, buffer: string, inThink: bool)
    requires StandsFor(text, sofar, held, mode)
    requires forall f: string ::
               Parse(held + piece + f, mode) == TagAll(more) + Parse(buffer + f, inThink)
    ensures StandsFor(text + piece, sofar + more, buffer, inThink)
  {
    FlatMapAppend(TagOf, sofar, more);
    forall f: string
      ensures Parse(text + piece + f, false) == TagAll(sofar + more) + Parse(buffer + f, inThink)
    {
      assert text + piece + f == text + (piece + f);
      assert held + (piece + f) == held + piece + f;
      assert Parse(text + (piece + f), false) == TagAll(sofar) + Parse(held + (piece + f), mode);
    }
  }

  lemma StandsForAll(text: string, chunks: seq<ContentChunk>, held: string, mode: bool,
                     last: Option<ContentChunk>)
    requires StandsFor(text, chunks, held, mode)
    requires TagChunk(last) == Parse(held, mode)
    ensures TagAll(if last.Some? then chunks + [last.value] else chunks) == Parse(text, false)
  {
    assert text + "" == text && held + "" == held;
    assert Parse(text + "", false) == TagAll(chunks) + Parse(held + "", mode);
    if last.Some? {
      FlatMapSnoc(TagOf, chunks, last.value);
    }
  }

  /** A whole stream: feed every piece, then flush. For every way of cutting a text into
      pieces the chunks carry exactly the characters the reference finds in the whole text. */
  method ParseStream(pieces: seq<string>) returns (chunks: seq<ContentChunk>)
    ensures TagAll(chunks) == Parse(Flatten(pieces), false)
    ensures forall c :: c in chunks ==> c.content != ""
  {
    var parser := new ThinkTagParser();
    chunks := [];
    assert pieces[..0] == [];
    for i := 0 to |pieces|
      invariant Held(parser.buffer, parser.inThinkTag)
      invariant forall c :: c in chunks ==> c.content != ""
      invariant StandsFor(Flatten(pieces[..i]), chunks, parser.buffer, parser.inThinkTag)
    {
      ghost var held, mode := parser.buffer, parser.inThinkTag;
      var more := parser.Feed(pieces[i]);
      StandsForMore(Flatten(pieces[..i]), chunks, held, mode, pieces[i],
                    more, parser.buffer, parser.inThinkTag);
      assert pieces[..i + 1] == pieces[..i] + [pieces[i]];
      FlattenSnoc(pieces[..i], pieces[i]);
      chunks := chunks + more;
    }
    assert pieces[..|pieces|] == pieces;
    ghost var held, mode := parser.buffer, parser.inThinkTag;
    var last := parser.Flush();
    StandsForAll(Flatten(pieces), chunks, held, mode, last);
    if last.Some? {
      chunks := chunks + [last.value];
    }
  }

  /** Sections of alternating kind without brackets, written out with their tags. */
  function Render(sections: seq<ContentChunk>): string {
    if sections == [] then ""
    else
      var s := sections[0];
      (if s.kind == THINKING then OPEN_TAG + s.content + CLOSE_TAG else s.content) + Render(sections[1..])
  }

  predicate NoBracket(s: string) {
    forall i :: 0 <= i < |s| ==> s[i] != '<'
  }

  lemma CopyBracketFree(s: string, rest: string, inThink: bool)
    requires NoBracket(s)
    ensures Parse(s + rest, inThink) == Tag(Mode(inThink), s) + Parse(rest, inThink)
  {
    var t := s + rest;
    forall j | 0 <= j < |s|
      ensures !TagAt(t, inThink, j)
    {
      if TagAt(t, inThink, j) {
        TagStartsWithBracket(t, inThink, j);
      }
    }
    ParseCopies(t, inThink, |s|);
    assert t[..|s|] == s && t[|s|..] == rest;
  }

  /** Writing sections out with their tags and parsing them again restores every character
      with its kind. */
  lemma {:induction false} RenderThenParse(sections: seq<ContentChunk>)
    requires forall s :: s in sections ==> NoBracket(s.content)
    ensures Parse(Render(sections), false) == TagAll(sections)
  {
    if sections != [] {
      var s, rest := sections[0], Render(sections[1..]);
      RenderThenParse(sections[1..]);
      if s.kind == THINKING {
        assert Render(sections) == OPEN_TAG + (s.content + (CLOSE_TAG + rest));
        ParseTag(OPEN_TAG, s.content + (CLOSE_TAG + rest), false);
        CopyBracketFree(s.content, CLOSE_TAG + rest, true);
        ParseTag(CLOSE_TAG, rest, true);
      } else {
        CopyBracketFree(s.content, rest, false);
      }
    }
  }
}
