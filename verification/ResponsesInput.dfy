/** Conversion of a list of OpenAI Responses input items into Anthropic messages
    (core/openai_responses/input.py, core/openai_responses/reasoning.py): reasoning waits for the
    message it belongs to, and a call with broken arguments is left out together with its output. */
module ResponsesInput {
  import opened Text
  import opened ToolNames

  /** The normal form of function arguments, none where they are not a JSON object, and the
      number of a name's digest. */
  datatype Env = Env(parse: string -> Option<string>, digest: string -> nat)

  datatype ContentPart = TextPart(text: string) | RefusalPart(refusal: string) | OtherPart

  datatype Content = StringContent(text: string) | PartsContent(parts: seq<ContentPart>) | OtherContent

  datatype Item =
    | StringItem(text: string)
    | MessageItem(role: string, content: Content)
    | FunctionCall(name: string, namespace: Option<string>, id: string, arguments: string)
    | CustomCall(name: string, namespace: Option<string>, id: string, input: string)
    | FunctionOutput(id: string, output: string)
    | CustomOutput(id: string, output: string)
    | ReasoningItem(thoughts: seq<string>, summary: seq<string>)
    | TextItem(text: string)
    | OtherItem

  datatype Body = StringBody(text: string) | BlocksBody(texts: seq<string>)

  /** `Aside` is the empty assistant message that carries reasoning with no message to go to. */
  datatype Message =
    | User(body: Body)
    | Assistant(body: Body, reasoning: Option<string>)
    | ToolUse(id: string, name: string, input: string, reasoning: Option<string>)
    | ToolResult(id: string, output: string)
    | Aside(text: string)

  datatype Error = EmptyField | UnknownRole | UnknownContent | UnknownItem | NoMessage

  datatype Result<+T> = Ok(value: T) | Err(error: Error)

  // ---------------------------------------------------------------- one item

  function PartText(part: ContentPart): string
    requires !part.OtherPart?
  {
    if part.TextPart? then part.text else part.refusal
  }

  function PartTexts(parts: seq<ContentPart>): Option<seq<string>> {
    if parts == [] then Some([])
    else if parts[0].OtherPart? || PartTexts(parts[1..]).None? then None
    else Some([PartText(parts[0])] + PartTexts(parts[1..]).value)
  }

  function BodyOf(content: Content): Option<Body> {
    match content
    case StringContent(text) => Some(StringBody(text))
    case PartsContent(parts) =>
      if PartTexts(parts).Some? then Some(BlocksBody(PartTexts(parts).value)) else None
    case OtherContent => None
  }

  function BodyText(body: Body): string {
    match body
    case StringBody(text) => text
    case BlocksBody(texts) => Join("\n", texts)
  }

  function NonEmpty(texts: seq<string>): seq<string> {
    FlatMap((text: string) => if text == "" then [] else [text], texts)
  }

  /** The texts of a reasoning item: its content, or else its summary. */
  function ReasoningTexts(item: Item): seq<string> {
    if !item.ReasoningItem? then []
    else if NonEmpty(item.thoughts) != [] then NonEmpty(item.thoughts)
    else NonEmpty(item.summary)
  }

  function ReasoningText(item: Item): Option<string> {
    if ReasoningTexts(item) == [] then None else Some(Join("\n", ReasoningTexts(item)))
  }

  function Combine(existing: Option<string>, addition: Option<string>): Option<string> {
    if addition.GetOr("") == "" then existing
    else if existing.GetOr("") == "" then addition
    else Some(existing.value + "\n" + addition.value)
  }

  /** What an item asks for, apart from what is pending: messages of its own, text for the
      system prompt, or nothing. `Takes` says whether its message takes the pending reasoning. */
  datatype Effect =
    | Says(message: Message, takes: bool)
    | Instructs(text: string)
    | Thinks(addition: Option<string>)
    | Quarantines(id: string)
    | Ignored
    | Refuses(error: Error)

  function MessageEffect(role: string, content: Content): Effect {
    var body := BodyOf(content);
    if role == "" then Refuses(EmptyField)
    else if role !in ["assistant", "system", "developer", "user"] then Refuses(UnknownRole)
    else if body.None? then Refuses(UnknownContent)
    else if role == "assistant" then Says(Assistant(body.value, None), true)
    else if role == "user" then Says(User(body.value), false)
    else Instructs(BodyText(body.value))
  }

  function EffectOf(env: Env, quarantined: set<string>, item: Item): Effect {
    match item
    case StringItem(text) => Says(User(StringBody(text)), false)
    case MessageItem(role, content) => MessageEffect(role, content)
    case FunctionCall(name, namespace, id, arguments) =>
      if name == "" then Refuses(EmptyField)
      else if env.parse(arguments).None? then Quarantines(id)
      else Says(ToolUse(id, AnthropicName(env.digest, name, namespace), env.parse(arguments).value, None), true)
    case CustomCall(name, namespace, id, input) =>
      if name == "" then Refuses(EmptyField)
      else Says(ToolUse(id, AnthropicName(env.digest, name, namespace), input, None), true)
    case FunctionOutput(id, output) =>
      if id in quarantined then Ignored else Says(ToolResult(id, output), false)
    case CustomOutput(id, output) => Says(ToolResult(id, output), false)
    case ReasoningItem(_, _) => Thinks(ReasoningText(item))
    case TextItem(text) => Says(User(StringBody(text)), false)
    case OtherItem => Refuses(UnknownItem)
  }

  // ---------------------------------------------------------------- the conversion

  datatype State = State(
    messages: seq<Message>,
    systemParts: seq<string>,
    pending: Option<string>,
    quarantined: set<string>)

  function AsideOf(pending: Option<string>): seq<Message> {
    if pending.GetOr("") == "" then [] else [Aside(pending.value)]
  }

  function WithReasoning(m: Message, pending: Option<string>): Message {
    var reasoning := if pending.GetOr("") == "" then None else pending;
    match m
    case Assistant(body, _) => Assistant(body, reasoning)
    case ToolUse(id, name, input, _) => ToolUse(id, name, input, reasoning)
    case _ => m
  }

  function Apply(s: State, effect: Effect): Result<State> {
    match effect
    case Says(m, takes) =>
      if takes then Ok(s.(messages := s.messages + [WithReasoning(m, s.pending)], pending := None))
      else Ok(s.(messages := s.messages + AsideOf(s.pending) + [m], pending := None))
    case Instructs(text) =>
      Ok(s.(messages := s.messages + AsideOf(s.pending), pending := None,
            systemParts := s.systemParts + if text == "" then [] else [text]))
    case Thinks(addition) => Ok(s.(pending := Combine(s.pending, addition)))
    case Quarantines(id) => Ok(s.(quarantined := s.quarantined + {id}))
    case Ignored => Ok(s)
    case Refuses(error) => Err(error)
  }

  function Convert(env: Env, s: State, items: seq<Item>): Result<State>
    decreases |items|
  {
    if items == [] then Ok(s)
    else
      match Apply(s, EffectOf(env, s.quarantined, items[0]))
      case Ok(s') => Convert(env, s', items[1..])
      case Err(error) => Err(error)
  }

  function Start(instructions: Option<string>): State {
    State([], if instructions.GetOr("") == "" then [] else [instructions.value], None, {})
  }

  /** The messages of a request and its system prompt. */
  function ConvertRequest(env: Env, instructions: Option<string>, items: seq<Item>): Result<(seq<Message>, seq<string>)> {
    match Convert(env, Start(instructions), items)
    case Err(error) => Err(error)
    case Ok(s) =>
      var messages := s.messages + AsideOf(s.pending);
      if messages == [] then Err(NoMessage) else Ok((messages, s.systemParts))
  }

  // ---------------------------------------------------------------- the object

  class InputConversion {
    const env: Env
    var messages: seq<Message>
    var systemParts: seq<string>
    var quarantinedFunctionCallIds: set<string>

    constructor (env: Env, systemParts: seq<string>)
      ensures this.env == env && messages == [] && this.systemParts == systemParts
      ensures quarantinedFunctionCallIds == {}
    {
      this.env, messages, this.systemParts, quarantinedFunctionCallIds := env, [], systemParts, {};
    }

    function Abs(pending: Option<string>): State
      reads this
    {
      State(messages, systemParts, pending, quarantinedFunctionCallIds)
    }

    method AppendPendingReasoning(pending: Option<string>)
      modifies this
      ensures Abs(None) == old(Abs(None)).(messages := old(messages) + AsideOf(pending))
    {
      if pending.Some? && pending.value != "" {
        messages := messages + [Aside(pending.value)];
      }
    }

    method AppendMessageItem(role: string, content: Content, reasoning: Option<string>) returns (r: Result<()>)
      requires role != "" && (role != "assistant" ==> reasoning == None)
      modifies this
      ensures match MessageEffect(role, content)
              case Refuses(error) => r == Err(error)
              case Says(m, _) =>
                r.Ok? && Abs(None) == old(Abs(None)).(messages := old(messages) + [WithReasoning(m, reasoning)])
              case Instructs(text) =>
                r.Ok? && Abs(None) == old(Abs(None)).(systemParts := old(systemParts) + if text == "" then [] else [text])
              case _ => false
    {
      var normalizedRole := if role == "developer" then "system" else role;
      if normalizedRole == "system" {
        var body := BodyOf(content);
        if body.None? {
          return Err(UnknownContent);
        }
        var text := BodyText(body.value);
        if text != "" {
          systemParts := systemParts + [text];
        }
        return Ok(());
      }
      if normalizedRole != "user" && normalizedRole != "assistant" {
        return Err(UnknownRole);
      }
      var body := BodyOf(content);
      if body.None? {
        return Err(UnknownContent);
      }
      if normalizedRole == "user" {
        messages := messages + [User(body.value)];
      } else {
        messages := messages + [Assistant(body.value, if reasoning.GetOr("") != "" then reasoning else None)];
      }
      r := Ok(());
    }

    method AppendInputItem(item: Item, pending: Option<string>) returns (r: Result<Option<string>>)
      modifies this
      ensures match Apply(old(Abs(pending)), EffectOf(env, old(quarantinedFunctionCallIds), item))
              case Err(error) => r == Err(error)
              case Ok(s) => r.Ok? && Abs(r.value) == s
    {
      match item {
        case StringItem(text) =>
          AppendPendingReasoning(pending);
          messages := messages + [User(StringBody(text))];
          r := Ok(None);
        case MessageItem(role, content) =>
          if role == "" {
            return Err(EmptyField);
          }
          if role != "assistant" {
            AppendPendingReasoning(pending);
          }
          var appended := AppendMessageItem(role, content, if role == "assistant" then pending else None);
          r := if appended.Ok? then Ok(None) else Err(appended.error);
        case FunctionCall(name, namespace, id, arguments) =>
          r := AppendFunctionCall(name, namespace, id, env.parse(arguments), pending);
        case CustomCall(name, namespace, id, input) =>
          r := AppendFunctionCall(name, namespace, id, Some(input), pending);
        case FunctionOutput(id, output) =>
          if id in quarantinedFunctionCallIds {
            return Ok(pending);
          }
          AppendPendingReasoning(pending);
          messages := messages + [ToolResult(id, output)];
          r := Ok(None);
        case CustomOutput(id, output) =>
          AppendPendingReasoning(pending);
          messages := messages + [ToolResult(id, output)];
          r := Ok(None);
        case ReasoningItem(_, _) =>
          r := Ok(Combine(pending, ReasoningText(item)));
        case TextItem(text) =>
          AppendPendingReasoning(pending);
          messages := messages + [User(StringBody(text))];
          r := Ok(None);
        case OtherItem =>
          r := Err(UnknownItem);
      }
    }

    /** A call whose input is missing is quarantined. */
    method AppendFunctionCall(name: string, namespace: Option<string>, id: string, input: Option<string>, pending: Option<string>)
      returns (r: Result<Option<string>>)
      modifies this
      ensures name == "" ==> r == Err(EmptyField)
      ensures name != "" && input.None?
              ==> r == Ok(pending) && messages == old(messages) && systemParts == old(systemParts)
                  && quarantinedFunctionCallIds == old(quarantinedFunctionCallIds) + {id}
      ensures name != "" && input.Some?
              ==> r == Ok(None) && systemParts == old(systemParts)
                  && quarantinedFunctionCallIds == old(quarantinedFunctionCallIds)
                  && messages == old(messages)
                     + [WithReasoning(ToolUse(id, AnthropicName(env.digest, name, namespace), input.value, None), pending)]
    {
      if name == "" {
        return Err(EmptyField);
      }
      if input.None? {
        quarantinedFunctionCallIds := quarantinedFunctionCallIds + {id};
        return Ok(pending);
      }
      var reasoning := if pending.GetOr("") != "" then pending else None;
      messages := messages + [ToolUse(id, AnthropicName(env.digest, name, namespace), input.value, reasoning)];
      r := Ok(None);
    }
  }

  method ConvertRequestToAnthropicPayload(env: Env, instructions: Option<string>, items: seq<Item>)
    returns (r: Result<(seq<Message>, seq<string>)>)
    ensures r == ConvertRequest(env, instructions, items)
  {
    var systemParts := [];
    if instructions.GetOr("") != "" {
      systemParts := [instructions.value];
    }
    var conversion := new InputConversion(env, systemParts);
    var pending: Option<string> := None;
    var i := 0;
    while i < |items|
      invariant 0 <= i <= |items|
      invariant conversion.env == env
      invariant Convert(env, Start(instructions), items) == Convert(env, conversion.Abs(pending), items[i..])
    {
      assert items[i..][0] == items[i] && items[i..][1..] == items[i + 1..];
      var appended := conversion.AppendInputItem(items[i], pending);
      if appended.Err? {
        return Err(appended.error);
      }
      pending := appended.value;
      i := i + 1;
    }
    conversion.AppendPendingReasoning(pending);
    if conversion.messages == [] {
      return Err(NoMessage);
    }
    r := Ok((conversion.messages, conversion.systemParts));
  }

  // ---------------------------------------------------------------- reasoning is kept

  /** The reasoning a message carries. */
  function ReasoningIn(m: Message): seq<string> {
    match m
    case Assistant(_, reasoning) => if reasoning.Some? then [reasoning.value] else []
    case ToolUse(_, _, _, reasoning) => if reasoning.Some? then [reasoning.value] else []
    case Aside(text) => [text]
    case _ => []
  }

  function AllReasoning(messages: seq<Message>): seq<string> {
    FlatMap(ReasoningIn, messages)
  }

  function AllTexts(items: seq<Item>): seq<string> {
    FlatMap(ReasoningTexts, items)
  }

  function JoinGroup(group: seq<string>): seq<string> {
    [Join("\n", group)]
  }

  /** What was thought, in groups that are joined to one text each: the fields of the messages
      so far, and a last group that is pending, if it is not empty. */
  ghost predicate Grouped(s: State, groups: seq<seq<string>>, last: seq<string>) {
    && AllReasoning(s.messages) == FlatMap(JoinGroup, groups)
    && (forall k :: 0 <= k < |last| ==> last[k] != "")
    && s.pending == if last == [] then None else Some(Join("\n", last))
  }

  lemma JoinIsNotEmpty(texts: seq<string>)
    requires texts != [] && texts[0] != ""
    ensures Join("\n", texts) != ""
  {
  }

  lemma {:induction false} NonEmptyTexts(texts: seq<string>)
    ensures forall k :: 0 <= k < |NonEmpty(texts)| ==> NonEmpty(texts)[k] != ""
  {
    if texts != [] {
      NonEmptyTexts(texts[1..]);
      var rest := NonEmpty(texts[1..]);
      assert NonEmpty(texts) == (if texts[0] == "" then [] else [texts[0]]) + rest;
    }
  }

  lemma ReasoningTextsAreNotEmpty(item: Item)
    ensures forall k :: 0 <= k < |ReasoningTexts(item)| ==> ReasoningTexts(item)[k] != ""
  {
    if item.ReasoningItem? {
      NonEmptyTexts(item.thoughts);
      NonEmptyTexts(item.summary);
    }
  }

  lemma CombineGroups(last: seq<string>, more: seq<string>)
    requires forall k :: 0 <= k < |last| ==> last[k] != ""
    requires forall k :: 0 <= k < |more| ==> more[k] != ""
    ensures Combine(if last == [] then None else Some(Join("\n", last)),
                    if more == [] then None else Some(Join("\n", more)))
            == if last + more == [] then None else Some(Join("\n", last + more))
  {
    if more == [] {
      assert last + more == last;
      if last != [] {
        JoinIsNotEmpty(last);
      }
    } else {
      JoinIsNotEmpty(more);
      if last == [] {
        assert last + more == more;
      } else {
        JoinIsNotEmpty(last);
        JoinAppend("\n", last, more);
      }
    }
  }

  function Closed(last: seq<string>): seq<seq<string>> {
    if last == [] then [] else [last]
  }

  lemma ClosedJoins(groups: seq<seq<string>>, last: seq<string>)
    ensures FlatMap(JoinGroup, groups + Closed(last))
            == FlatMap(JoinGroup, groups) + (if last == [] then [] else [Join("\n", last)])
  {
    if last == [] {
      assert groups + [] == groups;
    } else {
      FlatMapSnoc(JoinGroup, groups, last);
    }
  }

  lemma AsideReasoning(s: State, groups: seq<seq<string>>, last: seq<string>)
    requires Grouped(s, groups, last)
    ensures AllReasoning(s.messages + AsideOf(s.pending)) == FlatMap(JoinGroup, groups + Closed(last))
  {
    ClosedJoins(groups, last);
    if last != [] {
      JoinIsNotEmpty(last);
      FlatMapSnoc(ReasoningIn, s.messages, Aside(s.pending.value));
    } else {
      assert s.messages + [] == s.messages;
    }
  }

  lemma SaysReasoning(s: State, groups: seq<seq<string>>, last: seq<string>, m: Message, takes: bool)
    requires Grouped(s, groups, last)
    requires takes ==> m.Assistant? || m.ToolUse?
    requires !takes ==> m.User? || m.ToolResult?
    ensures Grouped(Apply(s, Says(m, takes)).value, groups + Closed(last), [])
  {
    ClosedJoins(groups, last);
    if last != [] {
      JoinIsNotEmpty(last);
    }
    if takes {
      FlatMapSnoc(ReasoningIn, s.messages, WithReasoning(m, s.pending));
    } else {
      AsideReasoning(s, groups, last);
      FlatMapSnoc(ReasoningIn, s.messages + AsideOf(s.pending), m);
    }
  }

  /** One item, with the groups before and after it. */
  lemma StepReasoning(env: Env, s: State, item: Item, groups: seq<seq<string>>, last: seq<string>)
    returns (groups': seq<seq<string>>, last': seq<string>)
    requires Grouped(s, groups, last)
    requires Apply(s, EffectOf(env, s.quarantined, item)).Ok?
    ensures Grouped(Apply(s, EffectOf(env, s.quarantined, item)).value, groups', last')
    ensures Flatten(groups') + last' == Flatten(groups) + last + ReasoningTexts(item)
    ensures (forall g :: g in groups' ==> g in groups || g != [])
  {
    var effect := EffectOf(env, s.quarantined, item);
    var texts := Flatten(groups) + last;
    assert texts + [] == texts;
    if effect.Thinks? {
      ReasoningTextsAreNotEmpty(item);
      CombineGroups(last, ReasoningTexts(item));
      groups', last' := groups, last + ReasoningTexts(item);
      ConcatAssoc(Flatten(groups), last, ReasoningTexts(item));
    } else if effect.Quarantines? || effect.Ignored? {
      groups', last' := groups, last;
    } else {
      groups', last' := groups + Closed(last), [];
      if last == [] {
        assert groups' == groups;
      } else {
        FlattenSnoc(groups, last);
      }
      assert Flatten(groups') + [] == Flatten(groups');
      if effect.Says? {
        SaysReasoning(s, groups, last, effect.message, effect.takes);
      } else {
        AsideReasoning(s, groups, last);
      }
    }
  }

  lemma {:induction false} ConvertReasoning(env: Env, s: State, items: seq<Item>, groups: seq<seq<string>>, last: seq<string>)
    returns (groups': seq<seq<string>>, last': seq<string>)
    requires Grouped(s, groups, last) && Convert(env, s, items).Ok?
    requires forall g :: g in groups ==> g != []
    ensures Grouped(Convert(env, s, items).value, groups', last')
    ensures Flatten(groups') + last' == Flatten(groups) + last + AllTexts(items)
    ensures forall g :: g in groups' ==> g != []
    decreases |items|
  {
    if items == [] {
      groups', last' := groups, last;
      assert Flatten(groups) + last + [] == Flatten(groups) + last;
    } else {
      var groups1, last1 := StepReasoning(env, s, items[0], groups, last);
      var s1 := Apply(s, EffectOf(env, s.quarantined, items[0])).value;
      groups', last' := ConvertReasoning(env, s1, items[1..], groups1, last1);
      ConcatAssoc(Flatten(groups) + last, ReasoningTexts(items[0]), AllTexts(items[1..]));
    }
  }

  /** The reasoning fields of the messages are, in order, the reasoning texts of the items, cut
      into groups of neighbours that were joined with line feeds: none is lost or doubled. */
  lemma ReasoningIsKept(env: Env, instructions: Option<string>, items: seq<Item>) returns (groups: seq<seq<string>>)
    requires ConvertRequest(env, instructions, items).Ok?
    ensures AllReasoning(ConvertRequest(env, instructions, items).value.0) == FlatMap(JoinGroup, groups)
    ensures Flatten(groups) == AllTexts(items) && forall g :: g in groups ==> g != []
  {
    var s0 := Start(instructions);
    assert Grouped(s0, [], []);
    var before, last := ConvertReasoning(env, s0, items, [], []);
    var s := Convert(env, s0, items).value;
    AsideReasoning(s, before, last);
    groups := before + Closed(last);
    if last != [] {
      FlattenSnoc(before, last);
    } else {
      assert groups == before && Flatten(before) + [] == Flatten(before);
    }
    assert Flatten<string>([]) + [] + AllTexts(items) == AllTexts(items);
  }

  // ---------------------------------------------------------------- quarantine

  /** A call with this id and broken arguments is among the items. */
  predicate Broken(env: Env, items: seq<Item>, id: string) {
    exists k :: 0 <= k < |items| && BrokenCall(env, items[k], id)
  }

  predicate BrokenCall(env: Env, item: Item, id: string) {
    item.FunctionCall? && item.id == id && env.parse(item.arguments).None?
  }

  function Quarantined(env: Env, items: seq<Item>): set<string> {
    if items == [] then {}
    else
      (if items[0].FunctionCall? && env.parse(items[0].arguments).None? then {items[0].id} else {})
      + Quarantined(env, items[1..])
  }

  lemma {:induction false} QuarantinedAreBroken(env: Env, items: seq<Item>, id: string)
    ensures id in Quarantined(env, items) <==> Broken(env, items, id)
  {
    if items != [] {
      QuarantinedAreBroken(env, items[1..], id);
      if Broken(env, items[1..], id) {
        var k :| 0 <= k < |items[1..]| && BrokenCall(env, items[1..][k], id);
        assert BrokenCall(env, items[k + 1], id);
      }
      if Broken(env, items, id) && !BrokenCall(env, items[0], id) {
        var k :| 0 <= k < |items| && BrokenCall(env, items[k], id);
        assert BrokenCall(env, items[1..][k - 1], id);
      }
    }
  }

  /** The item in its place is left out. */
  predicate LeftOut(env: Env, items: seq<Item>, k: nat)
    requires k < |items|
  {
    match items[k]
    case FunctionCall(_, _, _, arguments) => env.parse(arguments).None?
    case FunctionOutput(id, _) => Broken(env, items[..k], id)
    case _ => false
  }

  /** What the parts of a content say, one after another. */
  function Words(parts: seq<ContentPart>): seq<string> {
    FlatMap((part: ContentPart) =>
              match part
              case TextPart(text) => [text]
              case RefusalPart(refusal) => [refusal]
              case OtherPart => [],
            parts)
  }

  /** A content that can be converted, as a body. */
  function Said(content: Content): Body {
    match content
    case StringContent(text) => StringBody(text)
    case PartsContent(parts) => BlocksBody(Words(parts))
    case OtherContent => BlocksBody([])
  }

  /** The message an item stands for, without reasoning: by the kind of the item, its role, text, id,
      name, input and output. */
  function OwnMessage(env: Env, item: Item): seq<Message> {
    match item
    case StringItem(text) => [User(StringBody(text))]
    case TextItem(text) => [User(StringBody(text))]
    case MessageItem(role, content) =>
      if role == "user" then [User(Said(content))]
      else if role == "assistant" then [Assistant(Said(content), None)]
      else []
    case FunctionCall(name, namespace, id, arguments) =>
      (match env.parse(arguments)
       case Some(input) => [ToolUse(id, AnthropicName(env.digest, name, namespace), input, None)]
       case None => [])
    case CustomCall(name, namespace, id, input) =>
      [ToolUse(id, AnthropicName(env.digest, name, namespace), input, None)]
    case FunctionOutput(id, output) => [ToolResult(id, output)]
    case CustomOutput(id, output) => [ToolResult(id, output)]
    case ReasoningItem(_, _) => []
    case OtherItem => []
  }

  /** A part of no known kind. */
  predicate HasOther(parts: seq<ContentPart>) {
    exists part :: part in parts && part.OtherPart?
  }

  lemma {:induction false} PartTextsAreWords(parts: seq<ContentPart>)
    ensures PartTexts(parts).Some? <==> !HasOther(parts)
    ensures PartTexts(parts).Some? ==> PartTexts(parts).value == Words(parts)
  {
    if parts != [] {
      PartTextsAreWords(parts[1..]);
      assert parts == [parts[0]] + parts[1..];
    }
  }

  predicate Readable(content: Content) {
    match content
    case StringContent(_) => true
    case PartsContent(parts) => !HasOther(parts)
    case OtherContent => false
  }

  lemma BodyIsSaid(content: Content)
    ensures BodyOf(content) == if Readable(content) then Some(Said(content)) else None
  {
    if content.PartsContent? {
      PartTextsAreWords(content.parts);
    }
  }

  /** The messages of the items from `k` on that are not left out. */
  function OwnMessages(env: Env, items: seq<Item>, k: nat): seq<Message>
    requires k <= |items|
    decreases |items| - k
  {
    if k == |items| then []
    else (if LeftOut(env, items, k) then [] else OwnMessage(env, items[k])) + OwnMessages(env, items, k + 1)
  }

  function Bare(m: Message): seq<Message> {
    if m.Aside? then [] else [WithReasoning(m, None)]
  }

  /** The messages without the reasoning they carry. */
  function BareMessages(messages: seq<Message>): seq<Message> {
    FlatMap(Bare, messages)
  }

  lemma AsideIsBare(messages: seq<Message>, pending: Option<string>)
    ensures BareMessages(messages + AsideOf(pending)) == BareMessages(messages)
  {
    FlatMapAppend(Bare, messages, AsideOf(pending));
    if AsideOf(pending) != [] {
      FlatMapOne(Bare, AsideOf(pending)[0]);
    }
    assert BareMessages(messages) + [] == BareMessages(messages);
  }

  lemma SaysBare(s: State, m: Message, takes: bool)
    requires WithReasoning(m, None) == m && !m.Aside?
    ensures BareMessages(Apply(s, Says(m, takes)).value.messages) == BareMessages(s.messages) + [m]
  {
    AsideIsBare(s.messages, s.pending);
    if takes {
      FlatMapSnoc(Bare, s.messages, WithReasoning(m, s.pending));
    } else {
      FlatMapSnoc(Bare, s.messages + AsideOf(s.pending), m);
    }
  }

  lemma {:induction false} QuarantinedSnoc(env: Env, items: seq<Item>, item: Item)
    ensures Quarantined(env, items + [item])
            == Quarantined(env, items)
               + if item.FunctionCall? && env.parse(item.arguments).None? then {item.id} else {}
  {
    if items == [] {
      assert [] + [item] == [item] && [item][1..] == [];
    } else {
      assert (items + [item])[1..] == items[1..] + [item];
      QuarantinedSnoc(env, items[1..], item);
    }
  }

  lemma EffectBare(s: State, effect: Effect)
    requires Apply(s, effect).Ok?
    requires effect.Says? ==> WithReasoning(effect.message, None) == effect.message && !effect.message.Aside?
    ensures BareMessages(Apply(s, effect).value.messages)
            == BareMessages(s.messages) + (if effect.Says? then [effect.message] else [])
  {
    AsideIsBare(s.messages, s.pending);
    assert BareMessages(s.messages) + [] == BareMessages(s.messages);
    if effect.Says? {
      SaysBare(s, effect.message, effect.takes);
    }
  }

  /** The effect of an item in its place: it says its own message, or it is left out or has none. */
  lemma EffectInPlace(env: Env, items: seq<Item>, k: nat)
    requires k < |items|
    ensures var effect := EffectOf(env, Quarantined(env, items[..k]), items[k]);
            && (effect.Says? ==> !LeftOut(env, items, k) && OwnMessage(env, items[k]) == [effect.message]
                                 && WithReasoning(effect.message, None) == effect.message && !effect.message.Aside?)
            && (!effect.Says? ==> LeftOut(env, items, k) || OwnMessage(env, items[k]) == [] || effect.Refuses?)
            && (LeftOut(env, items, k) ==> effect.Quarantines? || effect.Ignored? || effect.Refuses?)
            && (effect.Quarantines? || effect.Ignored? ==> LeftOut(env, items, k))
  {
    if items[k].FunctionOutput? {
      QuarantinedAreBroken(env, items[..k], items[k].id);
    }
    if items[k].MessageItem? {
      BodyIsSaid(items[k].content);
    }
  }

  lemma QuarantineInPlace(env: Env, s: State, items: seq<Item>, k: nat)
    requires k < |items| && s.quarantined == Quarantined(env, items[..k])
    requires Apply(s, EffectOf(env, s.quarantined, items[k])).Ok?
    ensures Apply(s, EffectOf(env, s.quarantined, items[k])).value.quarantined == Quarantined(env, items[..k + 1])
  {
    assert items[..k + 1] == items[..k] + [items[k]];
    QuarantinedSnoc(env, items[..k], items[k]);
  }

  lemma StepBare(env: Env, s: State, items: seq<Item>, k: nat)
    requires k < |items| && s.quarantined == Quarantined(env, items[..k])
    requires Apply(s, EffectOf(env, s.quarantined, items[k])).Ok?
    ensures var t := Apply(s, EffectOf(env, s.quarantined, items[k])).value;
            && t.quarantined == Quarantined(env, items[..k + 1])
            && BareMessages(t.messages)
               == BareMessages(s.messages) + (if LeftOut(env, items, k) then [] else OwnMessage(env, items[k]))
  {
    QuarantineInPlace(env, s, items, k);
    EffectInPlace(env, items, k);
    EffectBare(s, EffectOf(env, s.quarantined, items[k]));
  }

  lemma {:induction false} ConvertBare(env: Env, s: State, items: seq<Item>, k: nat)
    requires k <= |items| && s.quarantined == Quarantined(env, items[..k])
    requires Convert(env, s, items[k..]).Ok?
    ensures BareMessages(Convert(env, s, items[k..]).value.messages)
            == BareMessages(s.messages) + OwnMessages(env, items, k)
    decreases |items| - k
  {
    if k == |items| {
      assert BareMessages(s.messages) + [] == BareMessages(s.messages);
    } else {
      assert items[k..][1..] == items[k + 1..];
      StepBare(env, s, items, k);
      var t := Apply(s, EffectOf(env, s.quarantined, items[k])).value;
      ConvertBare(env, t, items, k + 1);
      ConcatAssoc(BareMessages(s.messages), if LeftOut(env, items, k) then [] else OwnMessage(env, items[k]),
                  OwnMessages(env, items, k + 1));
    }
  }

  /** Reasoning aside, the messages are exactly those of the items that are not left out, once
      and in order. */
  lemma MessagesAreKept(env: Env, instructions: Option<string>, items: seq<Item>)
    requires ConvertRequest(env, instructions, items).Ok?
    ensures BareMessages(ConvertRequest(env, instructions, items).value.0) == OwnMessages(env, items, 0)
  {
    var s0 := Start(instructions);
    assert items[..0] == [] && items[0..] == items;
    ConvertBare(env, s0, items, 0);
    var s := Convert(env, s0, items).value;
    AsideIsBare(s.messages, s.pending);
    assert BareMessages([]) + OwnMessages(env, items, 0) == OwnMessages(env, items, 0);
  }

  // ---------------------------------------------------------------- which message carries what

  /** The item in its place ends the wait of reasoning: it is neither reasoning nor left out. */
  predicate Closes(env: Env, items: seq<Item>, k: nat)
    requires k < |items|
  {
    !items[k].ReasoningItem? && !LeftOut(env, items, k)
  }

  /** The reasoning texts that wait in front of item `k`: those behind the last item that closes. */
  function Waiting(env: Env, items: seq<Item>, k: nat): seq<string>
    requires k <= |items|
  {
    if k == 0 || Closes(env, items, k - 1) then []
    else Waiting(env, items, k - 1) + ReasoningTexts(items[k - 1])
  }

  function Joined(texts: seq<string>): Option<string> {
    if texts == [] then None else Some(Join("\n", texts))
  }

  predicate Takes(m: Message) {
    m.Assistant? || m.ToolUse?
  }

  /** What an item in its place is written as: its own message with the waiting reasoning if it
      takes any, and otherwise behind an empty message that carries it. */
  function Written(env: Env, items: seq<Item>, k: nat): seq<Message>
    requires k < |items|
  {
    var own, waiting := OwnMessage(env, items[k]), Joined(Waiting(env, items, k));
    if !Closes(env, items, k) then []
    else if own != [] && Takes(own[0]) then [WithReasoning(own[0], waiting)]
    else AsideOf(waiting) + own
  }

  function AllWritten(env: Env, items: seq<Item>, k: nat): seq<Message>
    requires k <= |items|
  {
    if k == 0 then [] else AllWritten(env, items, k - 1) + Written(env, items, k - 1)
  }

  lemma {:induction false} WaitingIsNotEmpty(env: Env, items: seq<Item>, k: nat)
    requires k <= |items|
    ensures forall n :: 0 <= n < |Waiting(env, items, k)| ==> Waiting(env, items, k)[n] != ""
  {
    if k > 0 && !Closes(env, items, k - 1) {
      WaitingIsNotEmpty(env, items, k - 1);
      ReasoningTextsAreNotEmpty(items[k - 1]);
    }
  }

  lemma WaitingSteps(env: Env, s: State, items: seq<Item>, k: nat)
    requires k < |items| && s.quarantined == Quarantined(env, items[..k])
    requires s.pending == Joined(Waiting(env, items, k))
    requires Apply(s, EffectOf(env, s.quarantined, items[k])).Ok?
    ensures Apply(s, EffectOf(env, s.quarantined, items[k])).value.pending == Joined(Waiting(env, items, k + 1))
  {
    EffectInPlace(env, items, k);
    if items[k].ReasoningItem? {
      WaitingIsNotEmpty(env, items, k);
      ReasoningTextsAreNotEmpty(items[k]);
      CombineGroups(Waiting(env, items, k), ReasoningTexts(items[k]));
    } else if LeftOut(env, items, k) {
      assert Waiting(env, items, k) + [] == Waiting(env, items, k);
    }
  }

  lemma MessagesStep(env: Env, s: State, items: seq<Item>, k: nat)
    requires k < |items| && s.quarantined == Quarantined(env, items[..k])
    requires s.pending == Joined(Waiting(env, items, k))
    requires Apply(s, EffectOf(env, s.quarantined, items[k])).Ok?
    ensures Apply(s, EffectOf(env, s.quarantined, items[k])).value.messages == s.messages + Written(env, items, k)
  {
    EffectInPlace(env, items, k);
    var effect := EffectOf(env, s.quarantined, items[k]);
    assert s.messages + [] == s.messages;
    if effect.Says? && !effect.takes {
      ConcatAssoc(s.messages, AsideOf(s.pending), [effect.message]);
    } else if effect.Instructs? {
      assert AsideOf(s.pending) + [] == AsideOf(s.pending);
    }
  }

  lemma {:induction false} ConvertWritten(env: Env, s: State, items: seq<Item>, k: nat)
    requires k <= |items| && s.quarantined == Quarantined(env, items[..k])
    requires s.pending == Joined(Waiting(env, items, k)) && s.messages == AllWritten(env, items, k)
    requires Convert(env, s, items[k..]).Ok?
    ensures var t := Convert(env, s, items[k..]).value;
            t.messages == AllWritten(env, items, |items|) && t.pending == Joined(Waiting(env, items, |items|))
    decreases |items| - k
  {
    if k < |items| {
      assert items[k..][1..] == items[k + 1..];
      QuarantineInPlace(env, s, items, k);
      WaitingSteps(env, s, items, k);
      MessagesStep(env, s, items, k);
      ConvertWritten(env, Apply(s, EffectOf(env, s.quarantined, items[k])).value, items, k + 1);
    }
  }

  /** The messages in full. Each item that is not left out becomes its own message, in order. The
      reasoning a message carries, or the empty message in front of it, is the join of the
      reasoning texts behind the item before it that was not left out; what waits at the end
      comes in an empty message of its own. */
  lemma ReasoningGoesToItsMessage(env: Env, instructions: Option<string>, items: seq<Item>)
    requires ConvertRequest(env, instructions, items).Ok?
    ensures ConvertRequest(env, instructions, items).value.0
            == AllWritten(env, items, |items|) + AsideOf(Joined(Waiting(env, items, |items|)))
  {
    assert items[..0] == [] && items[0..] == items;
    ConvertWritten(env, Start(instructions), items, 0);
  }

  // ---------------------------------------------------------------- the system prompt

  function PlainText(body: Body): string {
    match body
    case StringBody(text) => text
    case BlocksBody(texts) => Join("\n", texts)
  }

  /** What an item adds to the system prompt. */
  function SystemText(item: Item): seq<string> {
    if item.MessageItem? && (item.role == "system" || item.role == "developer") && PlainText(Said(item.content)) != ""
    then [PlainText(Said(item.content))] else []
  }

  lemma StepSystem(env: Env, s: State, item: Item)
    requires Apply(s, EffectOf(env, s.quarantined, item)).Ok?
    ensures Apply(s, EffectOf(env, s.quarantined, item)).value.systemParts == s.systemParts + SystemText(item)
  {
    assert s.systemParts + [] == s.systemParts;
    if item.MessageItem? {
      BodyIsSaid(item.content);
    }
  }

  lemma {:induction false} ConvertSystem(env: Env, s: State, items: seq<Item>)
    requires Convert(env, s, items).Ok?
    ensures Convert(env, s, items).value.systemParts == s.systemParts + FlatMap(SystemText, items)
    decreases |items|
  {
    if items == [] {
      assert s.systemParts + [] == s.systemParts;
    } else {
      var s1 := Apply(s, EffectOf(env, s.quarantined, items[0])).value;
      StepSystem(env, s, items[0]);
      ConvertSystem(env, s1, items[1..]);
      ConcatAssoc(s.systemParts, SystemText(items[0]), FlatMap(SystemText, items[1..]));
    }
  }

  /** The system prompt is made of the instructions and of the texts of system and developer
      messages, in their order, the empty ones left out. */
  lemma SystemPromptIsKept(env: Env, instructions: Option<string>, items: seq<Item>)
    requires ConvertRequest(env, instructions, items).Ok?
    ensures ConvertRequest(env, instructions, items).value.1
            == (if instructions.GetOr("") == "" then [] else [instructions.value]) + FlatMap(SystemText, items)
  {
    ConvertSystem(env, Start(instructions), items);
  }

  // ---------------------------------------------------------------- refusals

  /** The error that an item raises. */
  function Raises(item: Item): Option<Error> {
    match item
    case MessageItem(role, content) =>
      if role == "" then Some(EmptyField)
      else if role != "user" && role != "assistant" && role != "system" && role != "developer" then Some(UnknownRole)
      else if !Readable(content) then Some(UnknownContent)
      else None
    case FunctionCall(name, _, _, _) => if name == "" then Some(EmptyField) else None
    case CustomCall(name, _, _, _) => if name == "" then Some(EmptyField) else None
    case OtherItem => Some(UnknownItem)
    case _ => None
  }

  lemma StepRaises(env: Env, s: State, item: Item)
    ensures Apply(s, EffectOf(env, s.quarantined, item)).Ok? <==> Raises(item).None?
    ensures Raises(item).Some? ==> Apply(s, EffectOf(env, s.quarantined, item)) == Err(Raises(item).value)
  {
    if item.MessageItem? {
      BodyIsSaid(item.content);
    }
  }

  /** The first error among the items. */
  function FirstRaised(items: seq<Item>): Option<Error> {
    if items == [] then None else if Raises(items[0]).Some? then Raises(items[0]) else FirstRaised(items[1..])
  }

  lemma {:induction false} ConvertRaises(env: Env, s: State, items: seq<Item>)
    ensures Convert(env, s, items).Ok? <==> FirstRaised(items).None?
    ensures FirstRaised(items).Some? ==> Convert(env, s, items) == Err(FirstRaised(items).value)
    decreases |items|
  {
    if items != [] {
      StepRaises(env, s, items[0]);
      var r := Apply(s, EffectOf(env, s.quarantined, items[0]));
      if r.Ok? {
        ConvertRaises(env, r.value, items[1..]);
      }
    }
  }

  /** A request is refused exactly if an item raises an error, with the first one, or if no message
      comes of it. */
  lemma RefusedExactly(env: Env, instructions: Option<string>, items: seq<Item>)
    ensures var r := ConvertRequest(env, instructions, items);
            if FirstRaised(items).Some? then r == Err(FirstRaised(items).value)
            else
              var messages := AllWritten(env, items, |items|) + AsideOf(Joined(Waiting(env, items, |items|)));
              (r.Ok? <==> messages != []) && (r.Err? ==> r.error == NoMessage)
  {
    ConvertRaises(env, Start(instructions), items);
    if FirstRaised(items).None? {
      assert items[..0] == [] && items[0..] == items;
      ConvertWritten(env, Start(instructions), items, 0);
    }
  }

  // ---------------------------------------------------------------- the texts of a reasoning item

  lemma {:induction false} EmptyTextsDropOut(a: seq<string>, b: seq<string>)
    ensures NonEmpty(a + [""] + b) == NonEmpty(a + b)
    ensures (forall t :: t in a ==> t != "") ==> NonEmpty(a) == a
    decreases |a|
  {
    if a == [] {
      assert [] + [""] + b == [""] + b && ([""] + b)[1..] == b && [] + b == b;
      assert [] + NonEmpty(b) == NonEmpty(b);
    } else {
      assert (a + [""] + b)[1..] == a[1..] + [""] + b && (a + b)[1..] == a[1..] + b;
      assert a[0] in a && forall t :: t in a[1..] ==> t in a;
      EmptyTextsDropOut(a[1..], b);
    }
  }

  /** The content of a reasoning item counts, and its summary only where the content says nothing. */
  lemma ContentBeforeSummary(thoughts: seq<string>, summary: seq<string>)
    ensures ReasoningTexts(ReasoningItem(thoughts, [])) == NonEmpty(thoughts)
    ensures ReasoningTexts(ReasoningItem([], summary)) == NonEmpty(summary)
    ensures ReasoningTexts(ReasoningItem(thoughts, summary))
            == if exists t :: t in thoughts && t != "" then ReasoningTexts(ReasoningItem(thoughts, []))
               else ReasoningTexts(ReasoningItem([], summary))
  {
    AnyNonEmpty(thoughts);
  }

  lemma {:induction false} AnyNonEmpty(texts: seq<string>)
    ensures NonEmpty(texts) != [] <==> exists t :: t in texts && t != ""
  {
    if texts != [] {
      AnyNonEmpty(texts[1..]);
      assert texts == [texts[0]] + texts[1..];
      assert NonEmpty(texts) == (if texts[0] == "" then [] else [texts[0]]) + NonEmpty(texts[1..]);
      if texts[0] != "" {
        assert texts[0] in texts;
      } else if NonEmpty(texts[1..]) != [] {
        var t :| t in texts[1..] && t != "";
        assert t in texts;
      } else {
        forall t | t in texts
          ensures t == ""
        {
        }
      }
    }
  }

  // ---------------------------------------------------------------- a call and its output

  /** The output at `k` answers the call at `j`: the id is that of no other function call. */
  predicate OutputOf(items: seq<Item>, j: nat, k: nat) {
    && j < k < |items| && items[j].FunctionCall? && items[k].FunctionOutput? && items[j].id == items[k].id
    && forall i :: 0 <= i < |items| && i != j && items[i].FunctionCall? ==> items[i].id != items[j].id
  }

  /** A call and its output are kept together: exactly if the arguments of the call parsed. */
  lemma OutputsFollowTheirCalls(env: Env, items: seq<Item>, j: nat, k: nat)
    requires OutputOf(items, j, k)
    ensures LeftOut(env, items, k) <==> env.parse(items[j].arguments).None?
    ensures LeftOut(env, items, k) <==> LeftOut(env, items, j)
  {
    var before := items[..k];
    if env.parse(items[j].arguments).None? {
      assert BrokenCall(env, before[j], items[k].id);
    }
    if Broken(env, before, items[k].id) {
      var i :| 0 <= i < |before| && BrokenCall(env, before[i], items[k].id);
      assert before[i] == items[i];
    }
  }
}
