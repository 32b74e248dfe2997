/** Sequence and string operations that the streaming cores rely on: prefix tests, first and
    last occurrence, joining and flattening. */
module Text {

  datatype Option<+T> = None | Some(value: T) {
    function GetOr(default: T): T {
      match this
      case Some(v) => v
      case None => default
    }
  }

  /** `sub` stands in `s` at position `j`. */
  predicate OccursAt<T(==)>(s: seq<T>, sub: seq<T>, j: int) {
    0 <= j && j + |sub| <= |s| && s[j..j + |sub|] == sub
  }

  predicate StartsWith<T(==)>(s: seq<T>, prefix: seq<T>) {
    |prefix| <= |s| && s[..|prefix|] == prefix
  }

  lemma OccursIndex<T>(s: seq<T>, sub: seq<T>, j: int)
    requires OccursAt(s, sub, j)
    ensures forall i :: 0 <= i < |sub| ==> s[j + i] == sub[i]
  {
    forall i | 0 <= i < |sub|
      ensures s[j + i] == sub[i]
    {
      assert s[j..j + |sub|][i] == sub[i];
    }
  }

  lemma StartsAtZero<T>(s: seq<T>, sub: seq<T>)
    ensures StartsWith(s, sub) <==> OccursAt(s, sub, 0)
  {
  }

  /** Text added behind does not change what stands in front of it. */
  lemma OccursInPrefix<T>(b: seq<T>, f: seq<T>, sub: seq<T>, j: nat)
    requires j + |sub| <= |b|
    ensures OccursAt(b + f, sub, j) <==> OccursAt(b, sub, j)
  {
    assert (b + f)[j..j + |sub|] == b[j..j + |sub|];
  }

  lemma OccursInSuffix<T>(s: seq<T>, sub: seq<T>, d: nat, j: nat)
    requires d <= |s|
    ensures OccursAt(s[d..], sub, j) <==> OccursAt(s, sub, d + j)
  {
    if d + j + |sub| <= |s| {
      assert s[d..][j..j + |sub|] == s[d + j..d + j + |sub|];
    }
  }

  /** The lowest position not below `from` at which `sub` stands in `s`, or -1. */
  function FindFrom<T(==)>(s: seq<T>, sub: seq<T>, from: nat): (r: int)
    ensures r == -1 || from <= r <= |s| - |sub|
    decreases |s| - from
  {
    if from + |sub| > |s| then -1
    else if OccursAt(s, sub, from) then from
    else FindFrom(s, sub, from + 1)
  }

  function Find<T(==)>(s: seq<T>, sub: seq<T>): (r: int)
    ensures r == -1 || 0 <= r <= |s| - |sub|
  {
    FindFrom(s, sub, 0)
  }

  lemma {:induction false} FindFromIsFirst<T>(s: seq<T>, sub: seq<T>, from: nat)
    ensures var r := FindFrom(s, sub, from);
            && (r != -1 ==> OccursAt(s, sub, r))
            && (forall j :: from <= j && (r == -1 || j < r) ==> !OccursAt(s, sub, j))
    decreases |s| - from
  {
    if from + |sub| <= |s| && !OccursAt(s, sub, from) {
      FindFromIsFirst(s, sub, from + 1);
    }
  }

  /** What is found is an occurrence, and there is none before it. */
  lemma FindIsFirst<T>(s: seq<T>, sub: seq<T>)
    ensures var r := Find(s, sub);
            && (r != -1 ==> OccursAt(s, sub, r))
            && (forall j :: 0 <= j && (r == -1 || j < r) ==> !OccursAt(s, sub, j))
  {
    FindFromIsFirst(s, sub, 0);
  }

  predicate Contains<T(==)>(s: seq<T>, sub: seq<T>) {
    Find(s, sub) != -1
  }

  /** The highest position of `x` in `s`, or -1. */
  function FindLast<T(==)>(s: seq<T>, x: T): (r: int)
    ensures -1 <= r < |s|
    ensures r != -1 ==> s[r] == x
    ensures forall j :: r < j < |s| ==> s[j] != x
  {
    if s == [] then -1
    else if s[|s| - 1] == x then |s| - 1
    else FindLast(s[..|s| - 1], x)
  }

  lemma NoMember<T>(a: set<T>)
    requires forall x :: x !in a
    ensures a == {}
  {
  }

  lemma SomeMember<T>(a: set<T>) returns (x: T)
    requires a != {}
    ensures x in a
  {
    if forall y :: y !in a {
      NoMember(a);
    }
    x :| x in a;
  }

  lemma ConcatAssoc<T>(a: seq<T>, b: seq<T>, c: seq<T>)
    ensures a + b + c == a + (b + c)
  {
  }

  /** What `f` yields for each element, one after another. */
  function FlatMap<S, T>(f: S -> seq<T>, xs: seq<S>): seq<T> {
    if xs == [] then [] else f(xs[0]) + FlatMap(f, xs[1..])
  }

  lemma {:induction false} FlatMapAppend<S, T>(f: S -> seq<T>, a: seq<S>, b: seq<S>)
    ensures FlatMap(f, a + b) == FlatMap(f, a) + FlatMap(f, b)
  {
    if a == [] {
      assert a + b == b;
    } else {
      assert (a + b)[1..] == a[1..] + b;
      FlatMapAppend(f, a[1..], b);
      ConcatAssoc(f(a[0]), FlatMap(f, a[1..]), FlatMap(f, b));
    }
  }

  lemma FlatMapOne<S, T>(f: S -> seq<T>, x: S)
    ensures FlatMap(f, [x]) == f(x)
  {
    assert [x][1..] == [];
    assert f(x) + [] == f(x);
  }

  lemma FlatMapSnoc<S, T>(f: S -> seq<T>, a: seq<S>, x: S)
    ensures FlatMap(f, a + [x]) == FlatMap(f, a) + f(x)
  {
    FlatMapAppend(f, a, [x]);
    FlatMapOne(f, x);
  }

  lemma FlatMapTwo<S, T>(f: S -> seq<T>, x: S, y: S)
    ensures FlatMap(f, [x, y]) == f(x) + f(y)
  {
    assert [x, y] == [x] + [y];
    FlatMapSnoc(f, [x], y);
    FlatMapOne(f, x);
  }

  lemma {:induction false} FlatMapNone<S, T>(f: S -> seq<T>, xs: seq<S>)
    requires forall x :: x in xs ==> f(x) == []
    ensures FlatMap(f, xs) == []
  {
    if xs != [] {
      assert xs[0] in xs;
      FlatMapNone(f, xs[1..]);
    }
  }

  function Flatten<T>(parts: seq<seq<T>>): seq<T> {
    FlatMap((part: seq<T>) => part, parts)
  }

  lemma FlattenSnoc<T>(a: seq<seq<T>>, x: seq<T>)
    ensures Flatten(a + [x]) == Flatten(a) + x
  {
    FlatMapSnoc((part: seq<T>) => part, a, x);
  }

  /** Join with a separator, as a string's `join` method does. */
  function Join(sep: string, parts: seq<string>): string {
    if parts == [] then ""
    else if |parts| == 1 then parts[0]
    else parts[0] + sep + Join(sep, parts[1..])
  }

  lemma {:induction false} JoinAppend(sep: string, a: seq<string>, b: seq<string>)
    requires a != [] && b != []
    ensures Join(sep, a + b) == Join(sep, a) + sep + Join(sep, b)
  {
    if |a| == 1 {
      assert (a + b)[1..] == b;
    } else {
      assert (a + b)[1..] == a[1..] + b;
      JoinAppend(sep, a[1..], b);
    }
  }

  /** The characters that a string's `strip` method removes. */
  predicate IsSpace(c: char) {
    || '\t' <= c <= '\r'
    || '\U{1c}' <= c <= ' '
    || c == '\U{85}' || c == '\U{a0}' || c == '\U{1680}'
    || '\U{2000}' <= c <= '\U{200a}'
    || c == '\U{2028}' || c == '\U{2029}' || c == '\U{202f}' || c == '\U{205f}' || c == '\U{3000}'
  }

  predicate IsBlank(s: string) {
    forall i :: 0 <= i < |s| ==> IsSpace(s[i])
  }
}
