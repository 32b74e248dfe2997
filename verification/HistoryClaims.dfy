/** What the conversion of a history guarantees as a whole: when exactly it keeps every text
    once, which messages follow a turn with tool calls, and where a text stands in its message. */
module HistoryClaims {
  import opened Text
  import opened History

  // ---------------------------------------------------------------- exactly once

  function PromptOf(t: Turn): seq<Part> {
    if t.Said? || t.Quoted? then t.parts else []
  }

  function LateOf(t: Turn): seq<Part> {
    if t.Deferred? then t.parts else []
  }

  function SpokenOf(t: Turn): seq<Part> {
    PromptOf(t) + LateOf(t)
  }

  /** All parts of assistant text in a converted history. */
  function SpokenOut(turns: seq<Turn>): seq<Part> {
    FlatMap(SpokenOf, turns)
  }

  function PromptIn(mode: ReplayMode, e: Entry): seq<Part> {
    match e
    case AssistantBlocks(blocks, _) => Parts(mode, Before(blocks))
    case AssistantString(text, reasoning) => QuotedParts(mode, text, Clean(reasoning))
    case _ => []
  }

  function LateIn(mode: ReplayMode, e: Entry): seq<Part> {
    if e.AssistantBlocks? then Parts(mode, Behind(e.blocks)) else []
  }

  /** The parts of assistant text in one message, wherever its tool calls stand. */
  function SpokenBy(mode: ReplayMode, e: Entry): seq<Part> {
    match e
    case AssistantBlocks(blocks, _) => Parts(mode, blocks)
    case AssistantString(text, reasoning) => QuotedParts(mode, text, Clean(reasoning))
    case _ => []
  }

  function SpokenIn(mode: ReplayMode, history: seq<Entry>): seq<Part> {
    FlatMap((e: Entry) => SpokenBy(mode, e), history)
  }

  lemma {:induction false} OtherParts(mode: ReplayMode, blocks: seq<Block>)
    ensures Parts(mode, FlatMap(UnlessToolUse, blocks)) == Parts(mode, blocks)
  {
    if blocks != [] {
      OtherParts(mode, blocks[1..]);
      var f := (b: Block) => PartsOf(mode, b);
      FlatMapAppend(f, UnlessToolUse(blocks[0]), FlatMap(UnlessToolUse, blocks[1..]));
      FlatMapOne(f, blocks[0]);
    }
  }

  lemma {:induction false} BeforeAndBehind(mode: ReplayMode, blocks: seq<Block>)
    ensures Parts(mode, blocks) == Parts(mode, Before(blocks)) + Parts(mode, Behind(blocks))
  {
    if blocks != [] {
      var f := (b: Block) => PartsOf(mode, b);
      if blocks[0].ToolUseB? {
        OtherParts(mode, blocks[1..]);
        assert PartsOf(mode, blocks[0]) == [];
        assert [] + Parts(mode, blocks[1..]) == Parts(mode, blocks[1..]);
      } else {
        BeforeAndBehind(mode, blocks[1..]);
        FlatMapAppend(f, [blocks[0]], Before(blocks[1..]));
        FlatMapOne(f, blocks[0]);
        ConcatAssoc(f(blocks[0]), Parts(mode, Before(blocks[1..])), Parts(mode, Behind(blocks[1..])));
      }
    }
  }

  lemma EntrySplits(mode: ReplayMode, e: Entry)
    ensures SpokenBy(mode, e) == PromptIn(mode, e) + LateIn(mode, e)
  {
    if e.AssistantBlocks? {
      BeforeAndBehind(mode, e.blocks);
    } else {
      assert PromptIn(mode, e) + [] == PromptIn(mode, e);
    }
  }

  /** Splitting what is said per element into two kinds splits the whole, up to order. */
  lemma {:induction false} SplitInTwo<S, T>(f: S -> seq<T>, g: S -> seq<T>, h: S -> seq<T>, xs: seq<S>)
    requires forall x :: h(x) == f(x) + g(x)
    ensures multiset(FlatMap(h, xs)) == multiset(FlatMap(f, xs)) + multiset(FlatMap(g, xs))
  {
    if xs != [] {
      SplitInTwo(f, g, h, xs[1..]);
    }
  }

  function PartOfAtom(a: Atom): seq<Part> {
    if a.Spoken? then [a.part] else []
  }

  lemma {:induction false} PartsBack(parts: seq<Part>)
    ensures FlatMap(PartOfAtom, FlatMap(SpokenAtom, parts)) == parts
  {
    if parts != [] {
      PartsBack(parts[1..]);
      var rest := FlatMap(SpokenAtom, parts[1..]);
      assert ([Spoken(parts[0])] + rest)[1..] == rest;
    }
  }

  lemma {:induction false} NoPartsInCalls(calls: seq<ToolCall>)
    ensures FlatMap(PartOfAtom, FlatMap(CalledAtom, calls)) == []
  {
    if calls != [] {
      NoPartsInCalls(calls[1..]);
      var rest := FlatMap(CalledAtom, calls[1..]);
      assert ([Called(calls[0])] + rest)[1..] == rest;
    }
  }

  lemma {:induction false} NoPartsInQuestions(texts: seq<string>)
    ensures FlatMap(PartOfAtom, FlatMap(QuestionAtom, texts)) == []
  {
    if texts != [] {
      NoPartsInQuestions(texts[1..]);
      var rest := FlatMap(QuestionAtom, texts[1..]);
      assert ([Question(texts[0])] + rest)[1..] == rest;
    }
  }

  lemma {:induction false} NoPartsFromUser(blocks: seq<Block>)
    ensures FlatMap(PartOfAtom, FlatMap(UserAtom, blocks)) == []
  {
    if blocks != [] {
      NoPartsFromUser(blocks[1..]);
      FlatMapAppend(PartOfAtom, UserAtom(blocks[0]), FlatMap(UserAtom, blocks[1..]));
      if UserAtom(blocks[0]) != [] {
        FlatMapOne(PartOfAtom, UserAtom(blocks[0])[0]);
      }
    }
  }

  lemma TurnPrompt(t: Turn)
    ensures FlatMap(PartOfAtom, AtomsOut(t)) == PromptOf(t)
  {
    match t
    case Said(parts, calls, _) =>
      FlatMapAppend(PartOfAtom, FlatMap(SpokenAtom, parts), FlatMap(CalledAtom, calls));
      PartsBack(parts);
      NoPartsInCalls(calls);
      assert parts + [] == parts;
    case Deferred(_, _) =>
    case Quoted(parts, _) => PartsBack(parts);
    case Asked(texts) => NoPartsInQuestions(texts);
    case Replayed(id, content) => FlatMapOne(PartOfAtom, Answered(id, content));
  }

  lemma EntryPrompt(mode: ReplayMode, e: Entry)
    ensures FlatMap(PartOfAtom, AtomsIn(mode, e)) == PromptIn(mode, e)
  {
    match e
    case AssistantBlocks(blocks, _) =>
      var parts, calls := Parts(mode, Before(blocks)), Calls(blocks);
      FlatMapAppend(PartOfAtom, FlatMap(SpokenAtom, parts), FlatMap(CalledAtom, calls));
      PartsBack(parts);
      NoPartsInCalls(calls);
      assert parts + [] == parts;
    case AssistantString(text, reasoning) => PartsBack(QuotedParts(mode, text, Clean(reasoning)));
    case UserBlocks(blocks) => NoPartsFromUser(blocks);
    case UserString(text) => FlatMapOne(PartOfAtom, Question(text));
  }

  lemma {:induction false} PromptsOut(turns: seq<Turn>)
    ensures FlatMap(PartOfAtom, AllAtomsOut(turns)) == FlatMap(PromptOf, turns)
  {
    if turns != [] {
      PromptsOut(turns[1..]);
      TurnPrompt(turns[0]);
      FlatMapAppend(PartOfAtom, AtomsOut(turns[0]), AllAtomsOut(turns[1..]));
    }
  }

  lemma {:induction false} PromptsIn(mode: ReplayMode, history: seq<Entry>)
    ensures FlatMap(PartOfAtom, AllAtomsIn(mode, history)) == FlatMap((e: Entry) => PromptIn(mode, e), history)
  {
    if history != [] {
      PromptsIn(mode, history[1..]);
      EntryPrompt(mode, history[0]);
      FlatMapAppend(PartOfAtom, AtomsIn(mode, history[0]), AllAtomsIn(mode, history[1..]));
    }
  }

  /** What is not deferred comes out as it came in. */
  lemma PromptsAgree(mode: ReplayMode, history: seq<Entry>)
    ensures FlatMap(PromptOf, Turns(mode, None, history)) == FlatMap((e: Entry) => PromptIn(mode, e), history)
  {
    OrderIsKept(mode, None, history);
    PromptsOut(Turns(mode, None, history));
    PromptsIn(mode, history);
  }

  lemma {:induction false} LateParts(turns: seq<Turn>)
    ensures FlatMap(LateOf, turns) == FlatMap(LateOf, AllDeferred(turns))
  {
    if turns != [] {
      LateParts(turns[1..]);
      FlatMapAppend(LateOf, DeferredOf(turns[0]), AllDeferred(turns[1..]));
      if turns[0].Deferred? {
        FlatMapOne(LateOf, turns[0]);
      }
    }
  }

  /** A group with text whose results are followed, in their message, by another result. */
  predicate Repeats(mode: ReplayMode, e: Entry, rest: seq<Entry>) {
    var p := NewPending(e);
    p.Some? && Parts(mode, p.value.blocks) != [] && Copies(p.value.remaining, rest) != 1
  }

  predicate NoneRepeats(mode: ReplayMode, history: seq<Entry>) {
    history == [] || (!Repeats(mode, history[0], history[1..]) && NoneRepeats(mode, history[1..]))
  }

  lemma {:induction false} CopiesAtLeastOne(remaining: set<string>, rest: seq<Entry>)
    ensures Copies(remaining, rest) >= 1
    decreases |rest|
  {
    if rest != [] {
      if rest[0].AssistantString? {
        CopiesAtLeastOne(remaining, rest[1..]);
      } else if rest[0].UserBlocks? {
        CopiesAtLeastOne(Remaining(remaining, rest[0].blocks), rest[1..]);
      }
    }
  }

  lemma {:induction false} LateTimes(n: nat, g: Turn)
    requires g.Deferred?
    ensures n == 1 || g.parts == [] ==> n >= 1 ==> FlatMap(LateOf, Times(n, g)) == g.parts
    ensures |FlatMap(LateOf, Times(n, g))| == n * |g.parts|
  {
    if n > 0 {
      LateTimes(n - 1, g);
      assert Times(n, g)[1..] == Times(n - 1, g);
      assert n * |g.parts| == |g.parts| + (n - 1) * |g.parts|;
      assert g.parts + [] == g.parts;
    }
  }

  lemma LateOfGroup(mode: ReplayMode, e: Entry, rest: seq<Entry>)
    ensures var now := FlatMap(LateOf, CopiesOf(mode, NewPending(e), rest));
            && (!Repeats(mode, e, rest) ==> now == LateIn(mode, e))
            && |now| >= |LateIn(mode, e)|
            && (Repeats(mode, e, rest) ==> |now| > |LateIn(mode, e)|)
  {
    var p := NewPending(e);
    if p.Some? {
      var n, g := Copies(p.value.remaining, rest), Group(mode, p.value);
      CopiesAtLeastOne(p.value.remaining, rest);
      LateTimes(n, g);
      assert n * |g.parts| >= |g.parts|;
      if n >= 2 && |g.parts| > 0 {
        assert n * |g.parts| >= 2 * |g.parts|;
      }
    }
  }

  lemma {:induction false} LateGroups(mode: ReplayMode, history: seq<Entry>)
    ensures var out := FlatMap(LateOf, Groups(mode, history));
            var once := FlatMap((e: Entry) => LateIn(mode, e), history);
            && |out| >= |once|
            && (NoneRepeats(mode, history) ==> out == once)
            && (!NoneRepeats(mode, history) ==> |out| > |once|)
    decreases |history|
  {
    if history != [] {
      LateGroups(mode, history[1..]);
      LateOfGroup(mode, history[0], history[1..]);
      FlatMapAppend(LateOf, CopiesOf(mode, NewPending(history[0]), history[1..]), Groups(mode, history[1..]));
    }
  }

  lemma PartsOutAndIn(mode: ReplayMode, history: seq<Entry>)
    ensures var turns, prompt := Turns(mode, None, history), FlatMap((e: Entry) => PromptIn(mode, e), history);
            && multiset(SpokenOut(turns)) == multiset(prompt) + multiset(FlatMap(LateOf, turns))
            && multiset(SpokenIn(mode, history))
               == multiset(prompt) + multiset(FlatMap((e: Entry) => LateIn(mode, e), history))
  {
    SplitInTwo(PromptOf, LateOf, SpokenOf, Turns(mode, None, history));
    forall e
      ensures SpokenBy(mode, e) == PromptIn(mode, e) + LateIn(mode, e)
    {
      EntrySplits(mode, e);
    }
    SplitInTwo((e: Entry) => PromptIn(mode, e), (e: Entry) => LateIn(mode, e),
               (e: Entry) => SpokenBy(mode, e), history);
    PromptsAgree(mode, history);
  }

  lemma LateOut(mode: ReplayMode, history: seq<Entry>)
    ensures FlatMap(LateOf, Turns(mode, None, history)) == FlatMap(LateOf, Groups(mode, history))
  {
    GroupsAppear(mode, None, history);
    LateParts(Turns(mode, None, history));
    assert [] + Groups(mode, history) == Groups(mode, history);
  }

  lemma SizesDiffer<T>(base: multiset<T>, a: seq<T>, b: seq<T>)
    requires |a| > |b|
    ensures base + multiset(a) != base + multiset(b)
  {
    assert |base + multiset(a)| > |base + multiset(b)|;
  }

  /** Every part of assistant text comes out exactly as often as it came in. */
  ghost predicate KeepsText(mode: ReplayMode, history: seq<Entry>) {
    multiset(SpokenOut(Turns(mode, None, history))) == multiset(SpokenIn(mode, history))
  }

  /** Text is kept if and only if no group with text has a further result behind the last awaited
      one in the same message. */
  lemma TextIsKeptExactly(mode: ReplayMode, history: seq<Entry>)
    ensures KeepsText(mode, history) <==> NoneRepeats(mode, history)
  {
    PartsOutAndIn(mode, history);
    LateOut(mode, history);
    LateGroups(mode, history);
    if !NoneRepeats(mode, history) {
      SizesDiffer(multiset(FlatMap((e: Entry) => PromptIn(mode, e), history)),
                  FlatMap(LateOf, Groups(mode, history)), FlatMap((e: Entry) => LateIn(mode, e), history));
    }
  }

  /** The case that fails: one awaited result, and a second result in the same message. */
  lemma ExtraResultRepeatsText()
    ensures var call := ToolCall(Some("a"), "f", "{}", None);
            var history := [AssistantBlocks([ToolUseB(call), TextB("so")], None),
                            UserBlocks([ToolResultB(Some("a"), "1"), ToolResultB(Some("b"), "2")])];
            !KeepsText(Disabled, history)
  {
    var call := ToolCall(Some("a"), "f", "{}", None);
    var blocks := [ToolUseB(call), TextB("so")];
    var results := [ToolResultB(Some("a"), "1"), ToolResultB(Some("b"), "2")];
    var e, rest := AssistantBlocks(blocks, None), [UserBlocks(results)];
    assert blocks[1..] == [TextB("so")];
    FlatMapTwo(CallOf, blocks[0], blocks[1]);
    FlatMapOne(UnlessToolUse, TextB("so"));
    FlatMapOne((b: Block) => PartsOf(Disabled, b), TextB("so"));
    assert !IsBlank("a") by {
      assert !IsSpace("a"[0]);
    }
    assert Calls(blocks) == [call] && [call][1..] == [];
    assert Awaited([call]) == {"a"};
    assert results[1..] == [ToolResultB(Some("b"), "2")] && results[1..][1..] == [];
    assert Answer({"a"}, Some("a")) == {} && Answer({}, Some("b")) == {};
    assert Remaining({"a"}, results) == {};
    assert ResultCount(results[1..]) == 1;
    assert Extras({"a"}, results) == 1;
    assert Copies({"a"}, rest) == 2;
    var history := [e] + rest;
    assert history[1..] == rest;
    assert Repeats(Disabled, e, rest);
    assert history == [e, UserBlocks(results)];
    TextIsKeptExactly(Disabled, history);
  }

  // ---------------------------------------------------------------- what follows tool calls

  function Keys(results: seq<Block>): set<string> {
    if results == [] then {}
    else (if results[0].ToolResultB? then {results[0].id.GetOr("")} else {}) + Keys(results[1..])
  }

  predicate AllResults(results: seq<Block>) {
    forall b :: b in results ==> b.ToolResultB?
  }

  predicate NoResults(blocks: seq<Block>) {
    forall b :: b in blocks ==> !b.ToolResultB?
  }

  function ReplayedOf(b: Block): seq<Turn> {
    if b.ToolResultB? then [Replayed(b.id, b.content)] else []
  }

  function TextOf(b: Block): seq<string> {
    if b.TextB? then [b.text] else []
  }

  lemma {:induction false} KeysAtMost(results: seq<Block>)
    ensures |Keys(results)| <= |results|
  {
    if results != [] {
      KeysAtMost(results[1..]);
    }
  }

  lemma {:induction false} ReplayNoResults(group: seq<Turn>, remaining: set<string>, texts: seq<string>, blocks: seq<Block>)
    requires NoResults(blocks)
    ensures Replay(group, remaining, texts, blocks) == FlushTexts(texts + FlatMap(TextOf, blocks))
    ensures Remaining(remaining, blocks) == remaining
    decreases |blocks|
  {
    if blocks == [] {
      assert texts + [] == texts;
    } else {
      assert blocks[0] in blocks;
      var texts' := texts + TextOf(blocks[0]);
      ReplayNoResults(group, remaining, texts', blocks[1..]);
      ConcatAssoc(texts, TextOf(blocks[0]), FlatMap(TextOf, blocks[1..]));
      if !blocks[0].TextB? {
        assert texts' == texts;
      }
    }
  }

  lemma OneAnswer(remaining: set<string>, results: seq<Block>)
    requires results != [] && AllResults(results) && Keys(results) == remaining && |results| == |remaining|
    ensures Keys(results[1..]) == Answer(remaining, results[0].id)
    ensures |results[1..]| == |Answer(remaining, results[0].id)|
  {
    assert results[0] in results;
    var key := results[0].id.GetOr("");
    KeysAtMost(results[1..]);
    var tail := Keys(results[1..]);
    assert key in tail ==> {key} + tail == tail;
  }

  /** What a result in front brings. */
  lemma ReplayResult(group: seq<Turn>, remaining: set<string>, b: Block, rest: seq<Block>)
    requires b.ToolResultB?
    ensures var left := Answer(remaining, b.id);
            && Replay(group, remaining, [], [b] + rest)
               == ReplayedOf(b) + ((if left == {} then group else []) + Replay(group, left, [], rest))
            && Remaining(remaining, [b] + rest) == Remaining(left, rest)
  {
    assert ([b] + rest)[1..] == rest;
    var left := Answer(remaining, b.id);
    ConcatAssoc([Replayed(b.id, b.content)], if left == {} then group else [], Replay(group, left, [], rest));
  }

  lemma {:induction false} ReplayResults(group: seq<Turn>, remaining: set<string>, results: seq<Block>, tail: seq<Block>)
    requires AllResults(results) && NoResults(tail)
    requires Keys(results) == remaining && |results| == |remaining| && results != []
    ensures Replay(group, remaining, [], results + tail)
            == FlatMap(ReplayedOf, results) + (group + FlushTexts(FlatMap(TextOf, tail)))
    ensures Remaining(remaining, results + tail) == {}
    decreases |results|
  {
    var b, more := results[0], results[1..];
    var left := Answer(remaining, b.id);
    var end := group + FlushTexts(FlatMap(TextOf, tail));
    assert b in results && results + tail == [b] + (more + tail);
    OneAnswer(remaining, results);
    ReplayResult(group, remaining, b, more + tail);
    if more == [] {
      assert left == {} && more + tail == tail;
      ReplayNoResults(group, left, [], tail);
      assert [] + FlatMap(TextOf, tail) == FlatMap(TextOf, tail);
      FlatMapOne(ReplayedOf, b);
      assert results == [b];
    } else {
      assert left != {};
      ReplayResults(group, left, more, tail);
      assert [] + Replay(group, left, [], more + tail) == Replay(group, left, [], more + tail);
      ConcatAssoc(ReplayedOf(b), FlatMap(ReplayedOf, more), end);
    }
  }

  lemma {:induction false} ReplayPlain(remaining: set<string>, results: seq<Block>, tail: seq<Block>)
    requires AllResults(results) && NoResults(tail)
    ensures Replay([], remaining, [], results + tail)
            == FlatMap(ReplayedOf, results) + FlushTexts(FlatMap(TextOf, tail))
    decreases |results|
  {
    var blocks := results + tail;
    if results == [] {
      assert blocks == tail;
      ReplayNoResults([], remaining, [], tail);
      assert [] + FlatMap(TextOf, tail) == FlatMap(TextOf, tail);
    } else {
      assert results[0] in results;
      assert blocks[0] == results[0] && blocks[1..] == results[1..] + tail;
      ReplayPlain(Answer(remaining, results[0].id), results[1..], tail);
      ConcatAssoc([Replayed(results[0].id, results[0].content)], FlatMap(ReplayedOf, results[1..]),
                  FlushTexts(FlatMap(TextOf, tail)));
    }
  }

  /** The answer to an assistant's tool calls: one result to each awaited id, then no more. */
  predicate AnswersAll(calls: seq<ToolCall>, results: seq<Block>, tail: seq<Block>) {
    && AllResults(results) && NoResults(tail)
    && Keys(results) == Awaited(calls) && |results| == |Awaited(calls)|
  }

  /** A turn with tool calls, its results, what was deferred and the user's text follow each
      other at once, wherever they stand in the history and in whatever order the results come. */
  lemma ResultsFollowTheirCalls(mode: ReplayMode, p: Option<Pending>, e: Entry, results: seq<Block>, tail: seq<Block>, rest: seq<Entry>)
    requires e.AssistantBlocks? && AnswersAll(Calls(e.blocks), results, tail)
    ensures var pre := Before(e.blocks);
            var said := Said(Parts(mode, pre), Calls(e.blocks), Reasoning(mode, Clean(e.reasoning), pre));
            Turns(mode, p, [e, UserBlocks(results + tail)] + rest)
            == Flushed(mode, p) + [said]
               + (FlatMap(ReplayedOf, results) + (Flushed(mode, NewPending(e)) + FlushTexts(FlatMap(TextOf, tail))))
               + Turns(mode, None, rest)
  {
    var user := UserBlocks(results + tail);
    var history := [e, user] + rest;
    assert history[1..] == [user] + rest && history[1..][1..] == rest;
    var q := NewPending(e);
    AnswerStep(mode, q, results, tail);
    var first, second := Step(mode, p, e).0, Step(mode, q, user).0;
    ConcatAssoc(first, second, Turns(mode, None, rest));
  }

  lemma AnswerStep(mode: ReplayMode, q: Option<Pending>, results: seq<Block>, tail: seq<Block>)
    requires AllResults(results) && NoResults(tail)
    requires q.Some? ==> Keys(results) == q.value.remaining && |results| == |q.value.remaining|
    ensures var (turns, q') := Step(mode, q, UserBlocks(results + tail));
            && turns == FlatMap(ReplayedOf, results) + (Flushed(mode, q) + FlushTexts(FlatMap(TextOf, tail)))
            && q' == None
  {
    if q.Some? && q.value.remaining != {} {
      ReplayResults(Flushed(mode, q), q.value.remaining, results, tail);
    } else {
      ReplayPlain({}, results, tail);
      var text := FlushTexts(FlatMap(TextOf, tail));
      assert [] + text == text;
      if q.Some? {
        assert results == [];
        assert [] + (Flushed(mode, q) + text) == Flushed(mode, q) + text;
      }
    }
  }

  // ---------------------------------------------------------------- the text of a message

  /** The content of an assistant message is exactly its parts joined, unless there is none to
      stand without calls, or a lone space stands in front of calls. */
  lemma ContentIsItsParts(t: Turn)
    requires t.Said? || t.Deferred? || t.Quoted?
    ensures Render(t).content == Content(t.parts)
            <==> !(t.Deferred? && Content(t.parts) == "")
                 && !(t.Said? && t.calls == [] && Content(t.parts) == "")
                 && !(t.Said? && t.calls != [] && Content(t.parts) == " ")
  {
  }

  lemma ContentCons(parts: seq<Part>)
    requires |parts| >= 2
    ensures Content(parts) == PartText(parts[0]) + "\n\n" + Content(parts[1..])
  {
    var rest := PartTexts(parts[1..]);
    assert rest == [PartText(parts[1])] + PartTexts(parts[1..][1..]);
    assert PartTexts(parts) == [PartText(parts[0])] + rest && PartTexts(parts)[1..] == rest;
  }

  /** Each part stands in the content. */
  lemma {:induction false} PartStandsInContent(parts: seq<Part>, k: nat) returns (at: nat)
    requires k < |parts|
    ensures OccursAt(Content(parts), PartText(parts[k]), at)
    decreases |parts|
  {
    if |parts| == 1 {
      assert PartTexts(parts) == [PartText(parts[0])];
      at := 0;
    } else {
      ContentCons(parts);
      var before := PartText(parts[0]) + "\n\n";
      if k == 0 {
        at := 0;
      } else {
        var j := PartStandsInContent(parts[1..], k - 1);
        at := |before| + j;
        assert Content(parts)[|before|..] == Content(parts[1..]);
        OccursInSuffix(Content(parts), PartText(parts[k]), |before|, j);
      }
    }
  }
}
