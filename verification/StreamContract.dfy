/** Anthropic stream events and the repository's own executable contract for them
    (core/anthropic/stream_contracts.py). */
module StreamContract {
  import opened Text

  /** A tool call id: sent by the upstream model, or made up from an upstream block index. */
  datatype ToolId = Given(id: string) | Made(upstream: int)

  /** A content block as a start event carries it. `kind` is missing when the payload holds no
      string there; `text` is the block's own streaming field. */
  datatype Block = Block(kind: Option<string>, text: string, id: Option<ToolId>,
                         name: Option<string>, input: Option<string>)

  datatype Delta = Delta(kind: Option<string>, payload: string)

  /** An index, block or delta is missing when the payload holds something of another type. */
  datatype Event =
    | Start(index: Option<int>, block: Option<Block>)
    | DeltaEvent(index: Option<int>, delta: Option<Delta>)
    | Stop(index: Option<int>)
    | Other(name: string, data: string)

  function EventName(e: Event): string {
    match e
    case Start(_, _) => "content_block_start"
    case DeltaEvent(_, _) => "content_block_delta"
    case Stop(_) => "content_block_stop"
    case Other(name, _) => name
  }

  const NO_DELTA_KINDS :=
    {"server_tool_use", "web_search_tool_result", "web_fetch_tool_result", "text_eager", "redacted_thinking"}
  const ALLOWED_KINDS :=
    {"text", "thinking", "tool_use", "redacted_thinking",
     "server_tool_use", "web_search_tool_result", "web_fetch_tool_result"}

  /** The blocks open now, each with the kind the checker stored, and all indices used so far. */
  datatype Checker = Checker(open: map<int, string>, seen: set<int>)

  const FRESH := Checker(map[], {})

  /** A text block that arrives with its text counts as a kind of its own. */
  function Storage(kind: string, text: string): string {
    if kind == "text" && !IsBlank(text) then "text_eager" else kind
  }

  predicate DeltaFits(kind: string, deltaKind: Option<string>) {
    && kind !in NO_DELTA_KINDS
    && (if kind == "thinking" then deltaKind == Some("thinking_delta") || deltaKind == Some("signature_delta")
        else if kind == "text" then deltaKind == Some("text_delta")
        else kind == "tool_use" && deltaKind == Some("input_json_delta"))
  }

  /** One event; no result means that an assertion failed. */
  function CheckEvent(c: Checker, e: Event, allowError: bool): Option<Checker> {
    match e
    case Start(Some(i), Some(b)) =>
      if b.kind.Some? && b.kind.value in ALLOWED_KINDS && i !in c.open && i !in c.seen
      then Some(Checker(c.open[i := Storage(b.kind.value, b.text)], c.seen + {i}))
      else None
    case DeltaEvent(Some(i), Some(d)) =>
      if i in c.open && DeltaFits(c.open[i], d.kind) then Some(c) else None
    case Stop(Some(i)) =>
      if i in c.open then Some(Checker(c.open - {i}, c.seen)) else None
    case Other(name, _) =>
      if name == "error" && !allowError then None else Some(c)
    case _ => None
  }

  function Check(c: Checker, events: seq<Event>, allowError: bool): Option<Checker>
    decreases |events|
  {
    if events == [] then Some(c)
    else
      match CheckEvent(c, events[0], allowError)
      case None => None
      case Some(c') => Check(c', events[1..], allowError)
  }

  lemma CheckOne(c: Checker, e: Event, allowError: bool)
    ensures Check(c, [e], allowError) == CheckEvent(c, e, allowError)
  {
    assert [e][1..] == [];
  }

  lemma {:induction false} CheckAppend(c: Checker, a: seq<Event>, b: seq<Event>, allowError: bool)
    ensures Check(c, a + b, allowError)
            == match Check(c, a, allowError) case None => None case Some(c') => Check(c', b, allowError)
    decreases |a|
  {
    if a == [] {
      assert a + b == b;
    } else {
      assert (a + b)[1..] == a[1..] + b;
      match CheckEvent(c, a[0], allowError)
      case None =>
      case Some(c') => CheckAppend(c', a[1..], b, allowError);
    }
  }

  predicate HasEvent(events: seq<Event>, name: string) {
    exists e :: e in events && EventName(e) == name
  }

  /** The whole contract. */
  predicate Contract(events: seq<Event>, allowError: bool) {
    && events != []
    && HasEvent(events, "message_start")
    && EventName(events[|events| - 1]) == "message_stop"
    && match Check(FRESH, events, allowError)
       case None => false
       case Some(c) => c.open == map[] && c.seen != {}
  }

  /** The checker as it runs: a loop over the events that keeps the open and the seen blocks. */
  method AssertStreamContract(events: seq<Event>, allowError: bool) returns (ok: bool)
    ensures ok == Contract(events, allowError)
  {
    if events == [] {
      return false;
    }
    var hasStart := exists e :: e in events && EventName(e) == "message_start";
    if !hasStart || EventName(events[|events| - 1]) != "message_stop" {
      return false;
    }
    var openBlocks: map<int, string>, seenBlocks: set<int> := map[], {};
    for n := 0 to |events|
      invariant Check(FRESH, events, allowError)
                == Check(Checker(openBlocks, seenBlocks), events[n..], allowError)
    {
      var e := events[n];
      assert events[n..][0] == e && events[n..][1..] == events[n + 1..];
      match e
      case Start(Some(i), Some(b)) =>
        if b.kind.None? || b.kind.value !in ALLOWED_KINDS || i in openBlocks || i in seenBlocks {
          return false;
        }
        var storage := b.kind.value;
        if storage == "text" && !IsBlank(b.text) {
          storage := "text_eager";
        }
        openBlocks := openBlocks[i := storage];
        seenBlocks := seenBlocks + {i};
      case DeltaEvent(Some(i), Some(d)) =>
        if i !in openBlocks || !DeltaFits(openBlocks[i], d.kind) {
          return false;
        }
      case Stop(Some(i)) =>
        if i !in openBlocks {
          return false;
        }
        openBlocks := openBlocks - {i};
      case Other(name, _) =>
        if name == "error" && !allowError {
          return false;
        }
      case _ =>
        return false;
    }
    return openBlocks == map[] && seenBlocks != {};
  }
}
