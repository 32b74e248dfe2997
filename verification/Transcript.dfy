/** Fitting a rendered transcript into a message of limited length (messaging/transcript.py):
    the oldest segments are dropped first. */
module Transcript {
  import opened Text

  function StatusText(status: string): string {
    if status == "" then "" else "\n\n" + status
  }

  function Whole(parts: seq<string>, status: string): string {
    Join("\n", parts) + StatusText(status)
  }

  /** The segments from `k` on behind the marker. */
  function Marked(marker: string, parts: seq<string>, status: string, k: nat): string
    requires k <= |parts|
  {
    var body := Join("\n", parts[k..]);
    (if body != "" then marker + body else body) + StatusText(status)
  }

  predicate Fits(s: string, limit: int) {
    |s| <= limit
  }

  function StripNewlines(s: string): (r: string)
    ensures |r| <= |s|
  {
    if s != "" && s[0] == '\n' then StripNewlines(s[1..]) else s
  }

  function Max(a: int, b: int): int {
    if a >= b then a else b
  }

  /** No suffix of the segments that has any, fits behind the marker. */
  predicate NothingFits(marker: string, parts: seq<string>, status: string, limit: int, upTo: nat)
    requires upTo <= |parts|
  {
    forall k :: 0 <= k < upTo ==> !Fits(Marked(marker, parts, status, k), limit)
  }

  lemma LastAlone(marker: string, parts: seq<string>, status: string)
    requires parts != [] && parts[|parts| - 1] != ""
    ensures Marked(marker, parts, status, |parts| - 1) == marker + parts[|parts| - 1] + StatusText(status)
  {
    assert parts[|parts| - 1..] == [parts[|parts| - 1]];
  }

  /** The rendered transcript: the whole where it fits; else the longest run of last segments
      that fits behind the marker; else the end of the last segment, cut so that the message is
      exactly as long as allowed, if that leaves more than 20 characters for it; else marker and
      status; else the status alone. */
  method Render(segments: seq<string>, marker: string, limit: int, status: string)
    returns (text: string, parts: seq<string>)
    ensures parts == FlatMap((s: string) => if s == "" then [] else [s], segments)
    ensures |text| <= Max(limit, |status|)
    ensures Fits(Whole(parts, status), limit) ==> text == Whole(parts, status)
    ensures forall k :: 0 <= k < |parts| && !Fits(Whole(parts, status), limit)
                        && Fits(Marked(marker, parts, status, k), limit) && NothingFits(marker, parts, status, limit, k)
                        ==> text == Marked(marker, parts, status, k)
    ensures !Fits(Whole(parts, status), limit) && NothingFits(marker, parts, status, limit, |parts|) ==>
              var budget := limit - |marker| - |StatusText(status)|;
              var minimal := marker + StripNewlines(StatusText(status));
              if parts != [] && budget > 20 then
                var last := parts[|parts| - 1];
                && budget - 3 <= |last| && |text| == limit
                && text == marker + "..." + last[|last| - (budget - 3)..] + StatusText(status)
              else if parts != [] && Fits(minimal, limit) then text == minimal
              else text == status
  {
    parts := [];
    var n := 0;
    while n < |segments|
      invariant 0 <= n <= |segments|
      invariant parts == FlatMap((s: string) => if s == "" then [] else [s], segments[..n])
      invariant forall k :: 0 <= k < |parts| ==> parts[k] != ""
    {
      assert segments[..n + 1] == segments[..n] + [segments[n]];
      FlatMapSnoc((s: string) => if s == "" then [] else [s], segments[..n], segments[n]);
      if segments[n] != "" {
        parts := parts + [segments[n]];
      }
      n := n + 1;
    }
    assert segments[..n] == segments;
    text := FitParts(parts, marker, limit, status);
  }

  method FitParts(rendered: seq<string>, marker: string, limit: int, status: string) returns (text: string)
    requires forall k :: 0 <= k < |rendered| ==> rendered[k] != ""
    ensures |text| <= Max(limit, |status|)
    ensures Fits(Whole(rendered, status), limit) ==> text == Whole(rendered, status)
    ensures forall k :: 0 <= k < |rendered| && !Fits(Whole(rendered, status), limit)
                        && Fits(Marked(marker, rendered, status, k), limit)
                        && NothingFits(marker, rendered, status, limit, k)
                        ==> text == Marked(marker, rendered, status, k)
    ensures !Fits(Whole(rendered, status), limit) && NothingFits(marker, rendered, status, limit, |rendered|) ==>
              var budget := limit - |marker| - |StatusText(status)|;
              var minimal := marker + StripNewlines(StatusText(status));
              if rendered != [] && budget > 20 then
                var last := rendered[|rendered| - 1];
                && budget - 3 <= |last| && |text| == limit
                && text == marker + "..." + last[|last| - (budget - 3)..] + StatusText(status)
              else if rendered != [] && Fits(minimal, limit) then text == minimal
              else text == status
  {
    text := Whole(rendered, status);
    if Fits(text, limit) {
      return;
    }
    var i := 0;
    while i < |rendered|
      invariant 0 <= i <= |rendered|
      invariant NothingFits(marker, rendered, status, limit, i)
    {
      text := Marked(marker, rendered, status, i);
      if Fits(text, limit) {
        return;
      }
      i := i + 1;
    }
    if rendered != [] {
      var lastPart := rendered[|rendered| - 1];
      LastAlone(marker, rendered, status);
      var budget := limit - |marker| - |StatusText(status)|;
      if budget > 20 {
        assert |lastPart| > budget;
        text := marker + "..." + lastPart[|lastPart| - (budget - 3)..] + StatusText(status);
        return;
      }
      text := marker + StripNewlines(StatusText(status));
      if Fits(text, limit) {
        return;
      }
    }
    text := status;
  }

  lemma {:induction false} JoinLonger(parts: seq<string>, k: nat, m: nat)
    requires k <= m <= |parts|
    ensures |Join("\n", parts[m..])| <= |Join("\n", parts[k..])|
    decreases m - k
  {
    if k < m {
      assert parts[k..][1..] == parts[k + 1..];
      JoinLonger(parts, k + 1, m);
    }
  }

  /** What fits behind the marker stays fitting as more of the oldest segments are dropped. */
  lemma ShorterRunsFit(marker: string, parts: seq<string>, status: string, limit: int, k: nat, m: nat)
    requires k <= m < |parts| && forall i :: 0 <= i < |parts| ==> parts[i] != ""
    requires Fits(Marked(marker, parts, status, k), limit)
    ensures Fits(Marked(marker, parts, status, m), limit)
  {
    JoinLonger(parts, k, m);
    assert parts[k..][0] != "" && parts[m..][0] != "";
  }

  /** The run that is rendered is the longest one that fits: exactly the runs that begin there or
      later do. */
  lemma RunsThatFit(marker: string, parts: seq<string>, status: string, limit: int, k: nat, m: nat)
    requires k < |parts| && m < |parts| && forall i :: 0 <= i < |parts| ==> parts[i] != ""
    requires NothingFits(marker, parts, status, limit, k) && Fits(Marked(marker, parts, status, k), limit)
    ensures Fits(Marked(marker, parts, status, m), limit) <==> k <= m
  {
    if k <= m {
      ShorterRunsFit(marker, parts, status, limit, k, m);
    }
  }

  /** Where the texts stand: the marker in front of a run that is not empty, then its segments
      each on a line of its own, and the status as a paragraph at the end. */
  lemma MessageReads(marker: string, parts: seq<string>, status: string, k: nat)
    requires k < |parts| && parts[k] != ""
    ensures var tail := if status == "" then "" else "\n\n" + status;
            && (k + 1 == |parts| ==> Marked(marker, parts, status, k) == marker + parts[k] + tail)
            && (k + 1 < |parts| ==> Marked(marker, parts, status, k)
                                    == marker + (parts[k] + "\n" + Join("\n", parts[k + 1..])) + tail)
            && Whole(parts[k..], status) == Marked("", parts, status, k)
  {
    assert parts[k..][1..] == parts[k + 1..] && parts[k..][0] == parts[k];
    var body := Join("\n", parts[k..]);
    assert "" + body == body;
  }

  /** Only line feeds are cut from the front of the status, and all of them. */
  lemma {:induction false} StripNewlinesCuts(s: string) returns (front: string)
    ensures s == front + StripNewlines(s) && forall i :: 0 <= i < |front| ==> front[i] == '\n'
    ensures StripNewlines(s) != "" ==> StripNewlines(s)[0] != '\n'
  {
    front := "";
    if s != "" && s[0] == '\n' {
      front := StripNewlinesCuts(s[1..]);
      front := s[..1] + front;
    }
  }
}
