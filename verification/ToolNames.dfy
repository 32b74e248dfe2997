/** Tool names between the two interfaces (core/openai_responses/tools.py): a tool in a namespace
    gets one flat Anthropic name, and that name leads back to the declared tool. */
module ToolNames {
  import opened Text

  datatype ToolKind = FunctionTool | CustomTool
  datatype Identity = Identity(kind: ToolKind, name: string, namespace: Option<string>)

  const MAX_NAME := 64
  const DIGEST_LENGTH := 8
  const SEPARATOR := "__"

  predicate IsNameChar(c: char) {
    'A' <= c <= 'Z' || 'a' <= c <= 'z' || '0' <= c <= '9' || c == '_' || c == '-'
  }

  predicate IsName(s: string) {
    forall k :: 0 <= k < |s| ==> IsNameChar(s[k])
  }

  function SkipInvalid(s: string): (r: string)
    ensures |r| <= |s|
  {
    if s == "" || IsNameChar(s[0]) then s else SkipInvalid(s[1..])
  }

  /** Each run of invalid characters becomes one underscore. */
  function Squeeze(s: string): string
    decreases |s|
  {
    if s == "" then ""
    else if IsNameChar(s[0]) then [s[0]] + Squeeze(s[1..])
    else "_" + Squeeze(SkipInvalid(s[1..]))
  }

  function StripLeft(s: string): string {
    if s != "" && s[0] == '_' then StripLeft(s[1..]) else s
  }

  function StripRight(s: string): string {
    if s != "" && s[|s| - 1] == '_' then StripRight(s[..|s| - 1]) else s
  }

  function NamePart(s: string): string {
    var part := StripRight(StripLeft(Squeeze(s)));
    if part == "" then "tool" else part
  }

  const HEX := "0123456789abcdef"

  /** The last `digits` hexadecimal digits of a number. */
  function Hex(n: nat, digits: nat): string {
    if digits == 0 then "" else Hex(n / 16, digits - 1) + [HEX[n % 16]]
  }

  /** `digest` is the number that the hash function gives a string, cut to eight digits. */
  function AnthropicName(digest: string -> nat, name: string, namespace: Option<string>): string {
    if namespace.GetOr("") == "" then name
    else
      var combined := NamePart(namespace.value) + SEPARATOR + NamePart(name);
      if |combined| <= MAX_NAME then combined
      else combined[..MAX_NAME - DIGEST_LENGTH - 1] + "_" + Hex(digest(combined), DIGEST_LENGTH)
  }

  lemma {:induction false} SqueezeIsName(s: string)
    ensures IsName(Squeeze(s))
    decreases |s|
  {
    if s != "" {
      if IsNameChar(s[0]) {
        SqueezeIsName(s[1..]);
      } else {
        SqueezeIsName(SkipInvalid(s[1..]));
      }
    }
  }

  lemma {:induction false} StripLeftIsName(s: string)
    requires IsName(s)
    ensures IsName(StripLeft(s))
  {
    if s != "" && s[0] == '_' {
      StripLeftIsName(s[1..]);
    }
  }

  lemma {:induction false} StripRightIsName(s: string)
    requires IsName(s)
    ensures IsName(StripRight(s))
  {
    if s != "" && s[|s| - 1] == '_' {
      StripRightIsName(s[..|s| - 1]);
    }
  }

  lemma NamePartIsName(s: string)
    ensures IsName(NamePart(s)) && NamePart(s) != ""
  {
    SqueezeIsName(s);
    StripLeftIsName(Squeeze(s));
    StripRightIsName(StripLeft(Squeeze(s)));
  }

  lemma {:induction false} HexIsName(n: nat, digits: nat)
    ensures IsName(Hex(n, digits)) && |Hex(n, digits)| == digits
  {
    if digits > 0 {
      HexIsName(n / 16, digits - 1);
    }
  }

  lemma JoinedNames(a: string, b: string, c: string)
    requires IsName(a) && IsName(b) && IsName(c)
    ensures IsName(a + b + c)
  {
  }

  lemma NamePrefix(a: string, n: nat)
    requires IsName(a) && n <= |a|
    ensures IsName(a[..n])
  {
  }

  /** Every name of a tool in a namespace is one that Anthropic's interface takes: one to 64 of
      the characters it allows, whatever the two names are. */
  lemma NamespacedNamesAreValid(digest: string -> nat, name: string, namespace: string)
    requires namespace != ""
    ensures 1 <= |AnthropicName(digest, name, Some(namespace))| <= MAX_NAME
    ensures IsName(AnthropicName(digest, name, Some(namespace)))
  {
    var a, b := NamePart(namespace), NamePart(name);
    var combined := a + SEPARATOR + b;
    NamePartIsName(namespace);
    NamePartIsName(name);
    JoinedNames(a, SEPARATOR, b);
    if |combined| > MAX_NAME {
      var prefix, hex := combined[..MAX_NAME - DIGEST_LENGTH - 1], Hex(digest(combined), DIGEST_LENGTH);
      HexIsName(digest(combined), DIGEST_LENGTH);
      NamePrefix(combined, MAX_NAME - DIGEST_LENGTH - 1);
      JoinedNames(prefix, "_", hex);
    }
  }

  // ---------------------------------------------------------------- what a name is made of

  predicate NoNameChar(s: string) {
    forall k :: 0 <= k < |s| ==> !IsNameChar(s[k])
  }

  lemma {:induction false} SkipAll(run: string, rest: string)
    requires NoNameChar(run) && (rest == "" || IsNameChar(rest[0]))
    ensures SkipInvalid(run + rest) == rest
  {
    if run == "" {
      assert run + rest == rest;
    } else {
      assert (run + rest)[1..] == run[1..] + rest;
      SkipAll(run[1..], rest);
    }
  }

  /** Allowed characters stay, and a run of others between them becomes one underscore. */
  lemma {:induction false} RunsAreSqueezed(a: string, run: string, rest: string)
    requires IsName(a) && run != "" && NoNameChar(run) && (rest == "" || IsNameChar(rest[0]))
    ensures Squeeze(a + run + rest) == a + "_" + Squeeze(rest)
    decreases |a|
  {
    if a == "" {
      assert a + run + rest == run + rest && (run + rest)[1..] == run[1..] + rest;
      SkipAll(run[1..], rest);
    } else {
      assert (a + run + rest)[1..] == a[1..] + run + rest;
      RunsAreSqueezed(a[1..], run, rest);
    }
  }

  lemma {:induction false} NamesStay(s: string)
    requires IsName(s)
    ensures Squeeze(s) == s
  {
    if s != "" {
      NamesStay(s[1..]);
    }
  }

  /** A name that is clean already is left as it is. */
  lemma CleanNamesStay(s: string)
    requires s != "" && IsName(s) && s[0] != '_' && s[|s| - 1] != '_'
    ensures NamePart(s) == s
  {
    NamesStay(s);
  }

  predicate OnlyUnderscores(s: string) {
    forall k :: 0 <= k < |s| ==> s[k] == '_'
  }

  lemma {:induction false} LeftIsStripped(s: string) returns (front: string)
    ensures OnlyUnderscores(front) && s == front + StripLeft(s)
    ensures StripLeft(s) != "" ==> StripLeft(s)[0] != '_'
  {
    if s != "" && s[0] == '_' {
      var more := LeftIsStripped(s[1..]);
      front := "_" + more;
      assert s == [s[0]] + s[1..];
    } else {
      front := "";
    }
  }

  lemma {:induction false} RightIsStripped(s: string) returns (back: string)
    ensures OnlyUnderscores(back) && s == StripRight(s) + back
    ensures StripRight(s) != "" ==> StripRight(s)[|StripRight(s)| - 1] != '_' && StripRight(s)[0] == s[0]
  {
    if s != "" && s[|s| - 1] == '_' {
      var more := RightIsStripped(s[..|s| - 1]);
      back := more + "_";
      assert s == s[..|s| - 1] + "_";
    } else {
      back := "";
    }
  }

  /** The underscores at both ends are cut off, and "tool" stands for a name of which nothing is
      left. */
  lemma EndsAreCut(s: string) returns (front: string, back: string)
    ensures OnlyUnderscores(front) && OnlyUnderscores(back)
    ensures OnlyUnderscores(Squeeze(s)) ==> NamePart(s) == "tool"
    ensures !OnlyUnderscores(Squeeze(s)) ==>
              var part := NamePart(s);
              Squeeze(s) == front + part + back && part != "" && part[0] != '_' && part[|part| - 1] != '_'
  {
    var squeezed := Squeeze(s);
    front := LeftIsStripped(squeezed);
    back := RightIsStripped(StripLeft(squeezed));
    var inner := StripRight(StripLeft(squeezed));
    assert squeezed == front + (inner + back) == front + inner + back;
    if inner != "" {
      assert squeezed[|front|] == inner[0];
    }
  }

  /** The number that hexadecimal digits stand for. */
  function HexValue(s: string): nat {
    if s == "" then 0 else 16 * HexValue(s[..|s| - 1]) + Digit(s[|s| - 1])
  }

  function Digit(c: char): nat {
    if '0' <= c <= '9' then (c - '0') as nat else if 'a' <= c <= 'f' then (c - 'a') as nat + 10 else 0
  }

  function Power16(n: nat): nat {
    if n == 0 then 1 else 16 * Power16(n - 1)
  }

  lemma {:induction false} HexIsTheNumber(n: nat, digits: nat)
    requires n < Power16(digits)
    ensures HexValue(Hex(n, digits)) == n
  {
    if digits > 0 {
      HexIsTheNumber(n / 16, digits - 1);
      var front := Hex(n / 16, digits - 1);
      assert Hex(n, digits)[..|Hex(n, digits)| - 1] == front;
    }
  }

  /** What a converted name is: the name itself outside a namespace; the cleaned namespace, the
      separator and the cleaned name inside one, or where that is too long its first 55 characters,
      an underscore and the digest of all of it. */
  lemma NamesAreMadeOf(digest: string -> nat, name: string, namespace: Option<string>)
    ensures namespace.GetOr("") == "" ==> AnthropicName(digest, name, namespace) == name
    ensures namespace.GetOr("") != "" ==>
              var long := NamePart(namespace.value) + "__" + NamePart(name);
              var r := AnthropicName(digest, name, namespace);
              && (|long| <= 64 ==> r == long)
              && (|long| > 64 ==>
                    && |r| == 64 && r[..55] == long[..55] && r[55] == '_'
                    && (digest(long) < Power16(8) ==> HexValue(r[56..]) == digest(long)))
  {
    if namespace.GetOr("") != "" {
      var long := NamePart(namespace.value) + "__" + NamePart(name);
      HexIsName(digest(long), 8);
      if digest(long) < Power16(8) {
        HexIsTheNumber(digest(long), 8);
      }
      if |long| > 64 {
        assert AnthropicName(digest, name, namespace)[56..] == Hex(digest(long), 8);
      }
    }
  }

  // ---------------------------------------------------------------- the declared tools

  /** A declared tool in a namespace or outside one; one without a name has none to offer. */
  datatype Leaf = Leaf(kind: ToolKind, name: Option<string>) | OtherLeaf

  datatype Tool =
    | Single(leaf: Leaf)
    | Namespace(name: Option<string>, nested: Option<seq<Leaf>>)
    | PassiveTool
    | OtherTool

  function LeafIdentity(leaf: Leaf, namespace: Option<string>): seq<Identity> {
    if leaf.Leaf? && leaf.name.GetOr("") != "" then [Identity(leaf.kind, leaf.name.value, namespace)] else []
  }

  function NestedIdentities(nested: seq<Leaf>, namespace: Option<string>): seq<Identity> {
    FlatMap((leaf: Leaf) => LeafIdentity(leaf, namespace), nested)
  }

  function ToolIdentities(tool: Tool): seq<Identity> {
    match tool
    case Single(leaf) => LeafIdentity(leaf, None)
    case Namespace(name, nested) =>
      if name.GetOr("") == "" || nested.None? then [] else NestedIdentities(nested.value, name)
    case _ => []
  }

  function Identities(tools: seq<Tool>): seq<Identity> {
    FlatMap(ToolIdentities, tools)
  }

  function NameOf(digest: string -> nat, id: Identity): string {
    AnthropicName(digest, id.name, id.namespace)
  }

  /** The first identity with a name. */
  function FirstNamed(digest: string -> nat, ids: seq<Identity>, name: string): Option<Identity> {
    if ids == [] then None
    else if NameOf(digest, ids[0]) == name then Some(ids[0])
    else FirstNamed(digest, ids[1..], name)
  }

  lemma {:induction false} FirstNamedAppend(digest: string -> nat, a: seq<Identity>, b: seq<Identity>, name: string)
    ensures FirstNamed(digest, a + b, name)
            == if FirstNamed(digest, a, name).Some? then FirstNamed(digest, a, name)
               else FirstNamed(digest, b, name)
  {
    if a == [] {
      assert a + b == b;
    } else {
      assert (a + b)[1..] == a[1..] + b;
      FirstNamedAppend(digest, a[1..], b, name);
    }
  }

  /** A name that no declared tool has belongs to a function of that name. */
  function Lookup(digest: string -> nat, tools: seq<Tool>, name: string): Identity {
    FirstNamed(digest, Identities(tools), name).GetOr(Identity(FunctionTool, name, None))
  }

  lemma FirstOfLeaf(digest: string -> nat, leaf: Leaf, namespace: Option<string>, name: string)
    ensures FirstNamed(digest, LeafIdentity(leaf, namespace), name)
            == if leaf.Leaf? && leaf.name.GetOr("") != ""
                  && AnthropicName(digest, leaf.name.value, namespace) == name
               then Some(Identity(leaf.kind, leaf.name.value, namespace)) else None
  {
  }

  method FindNested(digest: string -> nat, nested: seq<Leaf>, namespace: Option<string>, name: string)
    returns (found: Option<Identity>)
    ensures found == FirstNamed(digest, NestedIdentities(nested, namespace), name)
  {
    var i := 0;
    while i < |nested|
      invariant 0 <= i <= |nested|
      invariant FirstNamed(digest, NestedIdentities(nested, namespace), name)
                == FirstNamed(digest, NestedIdentities(nested[i..], namespace), name)
    {
      var leaf := nested[i];
      assert nested[i..][1..] == nested[i + 1..];
      FirstOfLeaf(digest, leaf, namespace, name);
      FirstNamedAppend(digest, LeafIdentity(leaf, namespace), NestedIdentities(nested[i + 1..], namespace), name);
      if leaf.Leaf? && leaf.name.GetOr("") != "" && AnthropicName(digest, leaf.name.value, namespace) == name {
        return Some(Identity(leaf.kind, leaf.name.value, namespace));
      }
      i := i + 1;
    }
    found := None;
  }

  method IdentityFromAnthropicName(digest: string -> nat, tools: seq<Tool>, name: string) returns (id: Identity)
    ensures id == Lookup(digest, tools, name)
  {
    var i := 0;
    while i < |tools|
      invariant 0 <= i <= |tools|
      invariant FirstNamed(digest, Identities(tools), name) == FirstNamed(digest, Identities(tools[i..]), name)
    {
      var tool := tools[i];
      assert tools[i..][1..] == tools[i + 1..];
      FirstNamedAppend(digest, ToolIdentities(tool), Identities(tools[i + 1..]), name);
      var found: Option<Identity> := None;
      match tool {
        case Single(leaf) =>
          FirstOfLeaf(digest, leaf, None, name);
          if leaf.Leaf? && leaf.name.GetOr("") != "" && AnthropicName(digest, leaf.name.value, None) == name {
            found := Some(Identity(leaf.kind, leaf.name.value, None));
          }
        case Namespace(namespace, nested) =>
          if namespace.GetOr("") != "" && nested.Some? {
            found := FindNested(digest, nested.value, namespace, name);
          }
        case _ =>
      }
      if found.Some? {
        return found.value;
      }
      i := i + 1;
    }
    id := Identity(FunctionTool, name, None);
  }

  predicate LeadsBack(digest: string -> nat, tools: seq<Tool>, id: Identity) {
    Lookup(digest, tools, NameOf(digest, id)) == id
  }

  lemma {:induction false} FirstNamedIs(digest: string -> nat, ids: seq<Identity>, k: nat) returns (j: nat)
    requires k < |ids|
    ensures j <= k && FirstNamed(digest, ids, NameOf(digest, ids[k])) == Some(ids[j])
    ensures NameOf(digest, ids[j]) == NameOf(digest, ids[k])
  {
    if NameOf(digest, ids[0]) == NameOf(digest, ids[k]) {
      j := 0;
    } else {
      var i := FirstNamedIs(digest, ids[1..], k - 1);
      j := i + 1;
    }
  }

  /** Two declared tools with one Anthropic name are the same tool. */
  predicate NamesTellApart(digest: string -> nat, ids: seq<Identity>) {
    forall i, j :: 0 <= i < |ids| && 0 <= j < |ids| && NameOf(digest, ids[i]) == NameOf(digest, ids[j])
                   ==> ids[i] == ids[j]
  }

  lemma SharedNameIsAmbiguous(digest: string -> nat, tools: seq<Tool>, a: Identity, b: Identity)
    requires LeadsBack(digest, tools, a) && LeadsBack(digest, tools, b) && NameOf(digest, a) == NameOf(digest, b)
    ensures a == b
  {
  }

  /** Every declared tool comes back from its Anthropic name, in kind, name and namespace, if
      and only if no two different tools were given one name. */
  lemma NamesLeadBack(digest: string -> nat, tools: seq<Tool>)
    ensures (forall id :: id in Identities(tools) ==> LeadsBack(digest, tools, id))
            <==> NamesTellApart(digest, Identities(tools))
  {
    var ids := Identities(tools);
    if NamesTellApart(digest, ids) {
      forall id | id in ids
        ensures LeadsBack(digest, tools, id)
      {
        var k :| 0 <= k < |ids| && ids[k] == id;
        var j := FirstNamedIs(digest, ids, k);
      }
    }
    if forall id :: id in ids ==> LeadsBack(digest, tools, id) {
      forall i, j | 0 <= i < |ids| && 0 <= j < |ids| && NameOf(digest, ids[i]) == NameOf(digest, ids[j])
        ensures ids[i] == ids[j]
      {
        assert ids[i] in ids && ids[j] in ids;
        SharedNameIsAmbiguous(digest, tools, ids[i], ids[j]);
      }
    }
  }

  // ---------------------------------------------------------------- converting the declarations

  /** The name of a converted tool; one without a name cannot be converted. */
  function LeafNames(digest: string -> nat, leaf: Leaf, namespace: Option<string>): Option<seq<string>> {
    if leaf.Leaf? && leaf.name.GetOr("") != "" then Some([AnthropicName(digest, leaf.name.value, namespace)]) else None
  }

  method ConvertNested(digest: string -> nat, nested: seq<Leaf>, namespace: Option<string>)
    returns (names: Option<seq<string>>)
    ensures names.Some? <==> forall leaf :: leaf in nested ==> LeafNames(digest, leaf, namespace).Some?
    ensures names.Some? ==> names.value == NamesOf(digest, NestedIdentities(nested, namespace))
  {
    var result := [];
    var i := 0;
    while i < |nested|
      invariant 0 <= i <= |nested|
      invariant forall leaf :: leaf in nested[..i] ==> LeafNames(digest, leaf, namespace).Some?
      invariant result == NamesOf(digest, NestedIdentities(nested[..i], namespace))
    {
      var leaf := nested[i];
      assert leaf in nested && nested[..i + 1] == nested[..i] + [leaf];
      var name := LeafNames(digest, leaf, namespace);
      if name.None? {
        return None;
      }
      FlatMapSnoc((x: Leaf) => LeafIdentity(x, namespace), nested[..i], leaf);
      FlatMapAppend((id: Identity) => [NameOf(digest, id)], NestedIdentities(nested[..i], namespace),
                    LeafIdentity(leaf, namespace));
      FlatMapOne((id: Identity) => [NameOf(digest, id)], Identity(leaf.kind, leaf.name.value, namespace));
      result := result + name.value;
      i := i + 1;
    }
    assert nested[..i] == nested;
    names := Some(result);
  }

  function NamesOf(digest: string -> nat, ids: seq<Identity>): seq<string> {
    FlatMap((id: Identity) => [NameOf(digest, id)], ids)
  }

  predicate Convertible(leaf: Leaf) {
    leaf.Leaf? && leaf.name.GetOr("") != ""
  }

  predicate ConvertibleTool(tool: Tool) {
    match tool
    case Single(leaf) => Convertible(leaf)
    case Namespace(name, nested) =>
      name.GetOr("") != "" && nested.Some? && forall leaf :: leaf in nested.value ==> Convertible(leaf)
    case PassiveTool => true
    case OtherTool => false
  }

  /** The names that are sent upstream are those of the declared tools, in their order, so the
      lookup searches what was sent; one tool that cannot be converted refuses all. */
  method ConvertTools(digest: string -> nat, tools: seq<Tool>) returns (names: Option<seq<string>>)
    ensures names.Some? <==> forall tool :: tool in tools ==> ConvertibleTool(tool)
    ensures names.Some? ==> names.value == NamesOf(digest, Identities(tools))
  {
    var result := [];
    var i := 0;
    while i < |tools|
      invariant 0 <= i <= |tools|
      invariant forall tool :: tool in tools[..i] ==> ConvertibleTool(tool)
      invariant result == NamesOf(digest, Identities(tools[..i]))
    {
      var tool := tools[i];
      assert tool in tools && tools[..i + 1] == tools[..i] + [tool];
      var more := ConvertTool(digest, tool);
      if more.None? {
        return None;
      }
      FlatMapSnoc(ToolIdentities, tools[..i], tool);
      FlatMapAppend((id: Identity) => [NameOf(digest, id)], Identities(tools[..i]), ToolIdentities(tool));
      result := result + more.value;
      i := i + 1;
    }
    assert tools[..i] == tools;
    names := Some(result);
  }

  method ConvertTool(digest: string -> nat, tool: Tool) returns (names: Option<seq<string>>)
    ensures names.Some? <==> ConvertibleTool(tool)
    ensures names.Some? ==> names.value == NamesOf(digest, ToolIdentities(tool))
  {
    match tool {
      case Single(leaf) =>
        names := LeafNames(digest, leaf, None);
        if names.Some? {
          FlatMapOne((id: Identity) => [NameOf(digest, id)], Identity(leaf.kind, leaf.name.value, None));
        }
      case Namespace(name, nested) =>
        if name.GetOr("") == "" || nested.None? {
          return None;
        }
        names := ConvertNested(digest, nested.value, name);
      case PassiveTool =>
        names := Some([]);
      case OtherTool =>
        names := None;
    }
  }
}
