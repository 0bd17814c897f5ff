/** The lines of an OCF/1 stream, and the places of single characters in one. */
module OcfLines {
  import opened Outcomes
  import opened Text

  // ----- Lines -----

  /** The lines of a stream, whose last one may or may not be ended. */
  function LinesOf(text: string): seq<string>
  {
    var lines := SplitChar(ReplaceCrLf(text), '\n', "");
    if lines[|lines| - 1] == "" then lines[..|lines| - 1] else lines
  }

  predicate IsLine(s: string) { s != "" && '\n' !in s && '\r' !in s }

  lemma {:induction false} ReplaceAfter(front: string, rest: string)
    requires '\r' !in front
    ensures ReplaceCrLf(front + rest) == front + ReplaceCrLf(rest)
  {
    if front == "" {
      assert front + rest == rest;
    } else {
      assert (front + rest)[1..] == front[1..] + rest;
      ReplaceAfter(front[1..], rest);
      assert front == [front[0]] + front[1..];
    }
  }

  lemma {:induction false} JoinedHasNo(parts: seq<string>, separator: string, c: char)
    requires c !in separator && forall i :: 0 <= i < |parts| ==> c !in parts[i]
    ensures c !in Join(parts, separator)
  {
    if |parts| > 1 {
      JoinedHasNo(parts[1..], separator, c);
    }
  }

  /** Joined lines are read back as they were. */
  lemma JoinedLines(lines: seq<string>)
    requires lines != [] && forall i :: 0 <= i < |lines| ==> IsLine(lines[i])
    ensures LinesOf(Join(lines, "\n")) == lines
    ensures '\r' !in Join(lines, "\n")
  {
    var text := Join(lines, "\n");
    JoinedHasNo(lines, "\n", '\r');
    ReplaceAfter(text, "");
    assert text + "" == text && text + ReplaceCrLf("") == text;
    SplitCharJoined(lines, '\n');
  }

  /** Whatever follows, the first line is the text before the first line feed. */
  lemma FirstLine(first: string, rest: string)
    requires IsLine(first)
    ensures LinesOf(first + "\n" + rest) != [] && LinesOf(first + "\n" + rest)[0] == first
  {
    ReplaceAfter(first + "\n", rest);
    var tail := "\n" + ReplaceCrLf(rest);
    assert first + "\n" + ReplaceCrLf(rest) == first + tail;
    SplitCharFree(first, tail, '\n', "");
    assert "" + first == first && tail[1..] == ReplaceCrLf(rest);
  }

  // ----- Places -----

  /** `indexOf`. */
  function FirstIndex(s: string, c: char): (r: Option<nat>)
    ensures r.Some? ==> r.value < |s| && s[r.value] == c && c !in s[..r.value]
    ensures r.None? ==> c !in s
  {
    if s == "" then None
    else if s[0] == c then Some(0)
    else
      match FirstIndex(s[1..], c)
      case None => None
      case Some(i) => assert s[..i + 1] == [s[0]] + s[1..][..i]; Some(i + 1)
  }

  /** `lastIndexOf`. */
  function LastIndex(s: string, c: char): (r: Option<nat>)
    ensures r.Some? ==> r.value < |s| && s[r.value] == c && c !in s[r.value + 1..]
    ensures r.None? ==> c !in s
  {
    if s == "" then None
    else if s[|s| - 1] == c then Some(|s| - 1)
    else
      match LastIndex(s[..|s| - 1], c)
      case None => None
      case Some(i) => assert s[i + 1..] == s[..|s| - 1][i + 1..] + [s[|s| - 1]]; Some(i)
  }

  lemma {:induction false} FoundFirst(front: string, c: char, rest: string)
    requires c !in front
    ensures FirstIndex(front + [c] + rest, c) == Some(|front|)
  {
    if front != "" {
      assert (front + [c] + rest)[1..] == front[1..] + [c] + rest;
      FoundFirst(front[1..], c, rest);
    }
  }

  lemma {:induction false} FoundLast(front: string, c: char, rest: string)
    requires c !in rest
    ensures LastIndex(front + [c] + rest, c) == Some(|front|)
  {
    if rest != "" {
      var s, n := front + [c] + rest, |rest| - 1;
      assert s[..|s| - 1] == front + [c] + rest[..n];
      FoundLast(front, c, rest[..n]);
    }
  }
}
