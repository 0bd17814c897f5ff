/** When two resource scopes must not be held by different owners. */
module Scopes {
  import opened Tables
  import opened Text

  /** A pattern in which `*` stands for any text without a line break, as `wildcardMatches` compiles it. */
  predicate WildcardMatches(pattern: string, value: string)
    decreases |pattern| + |value|
  {
    if pattern == "" then value == ""
    else if pattern[0] == '*' then
      || WildcardMatches(pattern[1..], value)
      || (value != "" && !IsLineBreak(value[0]) && WildcardMatches(pattern, value[1..]))
    else value != "" && value[0] == pattern[0] && WildcardMatches(pattern[1..], value[1..])
  }

  predicate IsLineBreak(c: char)
  {
    c == '\n' || c == '\r' || c as int == 0x2028 || c as int == 0x2029
  }

  function StripTrailingSlash(s: string): string
  {
    if s != "" && s[|s| - 1] == '/' then s[..|s| - 1] else s
  }

  predicate Overlap(kind: ScopeKind, left: string, right: string)
  {
    || left == right || WildcardMatches(left, right) || WildcardMatches(right, left)
    || (kind == File
        && var l, r := StripTrailingSlash(left), StripTrailingSlash(right);
           r + "/" <= l || l + "/" <= r)
  }

  predicate Conflict(left: Scope, right: Scope)
  {
    left.kind == right.kind && !(left.access == Read && right.access == Read)
    && Overlap(left.kind, left.identifier, right.identifier)
  }

  /** Which request came first does not decide whether two scopes conflict. */
  lemma ConflictSymmetric(left: Scope, right: Scope)
    ensures Conflict(left, right) == Conflict(right, left)
  {
  }

  // ----- What a pattern means -----

  predicate OnOneLine(s: string) { forall i :: 0 <= i < |s| ==> !IsLineBreak(s[i]) }

  function Stars(pattern: string): nat
  {
    if pattern == "" then 0 else (if pattern[0] == '*' then 1 else 0) + Stars(pattern[1..])
  }

  /** The pattern with the gaps written over its stars, in order. */
  function Fill(pattern: string, gaps: seq<string>): string
    requires |gaps| == Stars(pattern)
  {
    if pattern == "" then ""
    else if pattern[0] == '*' then gaps[0] + Fill(pattern[1..], gaps[1..])
    else [pattern[0]] + Fill(pattern[1..], gaps)
  }

  predicate FillsTo(pattern: string, gaps: seq<string>, value: string)
  {
    |gaps| == Stars(pattern) && (forall g :: g in gaps ==> OnOneLine(g)) && Fill(pattern, gaps) == value
  }

  lemma {:induction false} MatchFills(pattern: string, value: string) returns (gaps: seq<string>)
    requires WildcardMatches(pattern, value)
    ensures FillsTo(pattern, gaps, value)
    decreases |pattern| + |value|
  {
    if pattern == "" {
      gaps := [];
    } else if pattern[0] != '*' {
      gaps := MatchFills(pattern[1..], value[1..]);
    } else if WildcardMatches(pattern[1..], value) {
      var rest := MatchFills(pattern[1..], value);
      gaps := [""] + rest;
    } else {
      var more := MatchFills(pattern, value[1..]);
      gaps := [[value[0]] + more[0]] + more[1..];
      assert [value[0]] + (more[0] + Fill(pattern[1..], more[1..])) == value;
      assert OnOneLine(more[0]);
      assert forall i :: 0 < i < |gaps[0]| ==> gaps[0][i] == more[0][i - 1];
    }
  }

  lemma {:induction false} FillMatches(pattern: string, gaps: seq<string>, value: string)
    requires FillsTo(pattern, gaps, value)
    ensures WildcardMatches(pattern, value)
    decreases |pattern| + |value|
  {
    if pattern == "" {
    } else if pattern[0] != '*' {
      assert value[1..] == Fill(pattern[1..], gaps);
      FillMatches(pattern[1..], gaps, value[1..]);
    } else if gaps[0] == "" {
      assert value == Fill(pattern[1..], gaps[1..]);
      FillMatches(pattern[1..], gaps[1..], value);
    } else {
      var shorter := [gaps[0][1..]] + gaps[1..];
      assert shorter[1..] == gaps[1..];
      assert value[1..] == gaps[0][1..] + Fill(pattern[1..], gaps[1..]);
      assert OnOneLine(gaps[0]);
      FillMatches(pattern, shorter, value[1..]);
    }
  }

  /** A pattern matches exactly the values it turns into when every star is replaced by some text of one line. */
  lemma WildcardMeans(pattern: string, value: string)
    ensures WildcardMatches(pattern, value) <==> exists gaps :: FillsTo(pattern, gaps, value)
  {
    if WildcardMatches(pattern, value) {
      var gaps := MatchFills(pattern, value);
    }
    if gaps :| FillsTo(pattern, gaps, value) {
      FillMatches(pattern, gaps, value);
    }
  }

  // ----- What a conflict means -----

  /** The path as its list of names; a slash at the end adds none. */
  function Segments(path: string): seq<string> { SplitChar(StripTrailingSlash(path), '/', "") }

  /** Something may answer to both identifiers: they are the same text, or one is a pattern that turns into the other,
      or one is a directory on the way to the other. */
  ghost predicate Meet(kind: ScopeKind, left: string, right: string)
  {
    || left == right
    || (exists gaps :: FillsTo(left, gaps, right)) || (exists gaps :: FillsTo(right, gaps, left))
    || (kind == File && (Segments(left) < Segments(right) || Segments(right) < Segments(left)))
  }

  lemma {:induction false} SplitAtSlash(s: string, rest: string, part: string)
    ensures SplitChar(s + "/" + rest, '/', part) == SplitChar(s, '/', part) + SplitChar(rest, '/', "")
  {
    if s == "" {
      assert (s + "/" + rest)[1..] == rest;
    } else {
      assert (s + "/" + rest)[1..] == s[1..] + "/" + rest;
      SplitAtSlash(s[1..], rest, if s[0] == '/' then "" else part + [s[0]]);
    }
  }

  lemma {:induction false} JoinedAgain(s: string, part: string)
    ensures Join(SplitChar(s, '/', part), "/") == part + s
  {
    if s != "" && s[0] == '/' {
      JoinedAgain(s[1..], "");
      JoinCons(part, SplitChar(s[1..], '/', ""), "/");
      assert "" + s[1..] == s[1..] && part + "/" + s[1..] == part + s;
    } else if s != "" {
      JoinedAgain(s[1..], part + [s[0]]);
      assert part + [s[0]] + s[1..] == part + s;
    }
  }

  lemma {:induction false} JoinApart(front: seq<string>, back: seq<string>)
    requires front != [] && back != []
    ensures Join(front + back, "/") == Join(front, "/") + "/" + Join(back, "/")
  {
    if |front| == 1 {
      assert front + back == [front[0]] + back;
      JoinCons(front[0], back, "/");
    } else {
      JoinApart(front[1..], back);
      assert front + back == [front[0]] + (front[1..] + back);
      JoinCons(front[0], front[1..] + back, "/");
    }
  }

  /** Below a directory are the paths that begin with it and a slash. */
  lemma BelowMeans(dir: string, path: string)
    ensures dir + "/" <= path <==> SplitChar(dir, '/', "") < SplitChar(path, '/', "")
  {
    var front, whole := SplitChar(dir, '/', ""), SplitChar(path, '/', "");
    if dir + "/" <= path {
      var rest := path[|dir| + 1..];
      assert path == dir + "/" + rest;
      SplitAtSlash(dir, rest, "");
    }
    if front < whole {
      var back := whole[|front|..];
      assert whole == front + back;
      JoinApart(front, back);
      JoinedAgain(dir, "");
      JoinedAgain(path, "");
      assert "" + dir == dir && "" + path == path;
      assert path == dir + "/" + Join(back, "/");
    }
  }

  lemma OverlapMeans(kind: ScopeKind, left: string, right: string)
    ensures Overlap(kind, left, right) <==> Meet(kind, left, right)
  {
    WildcardMeans(left, right);
    WildcardMeans(right, left);
    BelowMeans(StripTrailingSlash(left), StripTrailingSlash(right));
    BelowMeans(StripTrailingSlash(right), StripTrailingSlash(left));
  }

  /** Two scopes are of one kind, at least one of them writes, and their identifiers meet. */
  ghost predicate Clash(left: Scope, right: Scope)
  {
    left.kind == right.kind && (left.access == Write || right.access == Write)
    && Meet(left.kind, left.identifier, right.identifier)
  }

  /** Scopes must be held apart exactly when one of them writes what the other may be about. */
  lemma ConflictMeans(left: Scope, right: Scope)
    ensures Conflict(left, right) <==> Clash(left, right)
  {
    OverlapMeans(left.kind, left.identifier, right.identifier);
    hide Overlap, Meet;
  }

  /** A path and the same path with a slash at the end are two scopes that do not meet, unless the path ends in a slash
      itself or is a pattern: a writer of the one does not hold off a writer of the other. */
  lemma TwinsMeetIff(path: string)
    requires '*' !in path
    ensures Meet(File, path + "/", path) <==> path != "" && path[|path| - 1] == '/'
  {
    hide FillsTo, SplitChar;
    assert StripTrailingSlash(path + "/") == path;
    assert path + "/" != path by { assert |path + "/"| != |path|; }
    FillsOnlyItself(path, path + "/");
    FillsOnlyItself(path + "/", path);
    if path != "" && path[|path| - 1] == '/' {
      var dir := path[..|path| - 1];
      assert path == dir + "/" && StripTrailingSlash(path) == dir;
      BelowMeans(dir, path);
    }
  }

  /** Two owners may write `src/` and `src` at once. */
  lemma SlashTwinsApart()
    ensures !Conflict(Scope(File, "src/", Write), Scope(File, "src", Write))
  {
    assert "src" + "/" == "src/";
    TwinsMeetIff("src");
    ConflictMeans(Scope(File, "src/", Write), Scope(File, "src", Write));
    hide Conflict, Meet;
  }

  lemma FillsOnlyItself(pattern: string, value: string)
    requires '*' !in pattern
    ensures (exists gaps :: FillsTo(pattern, gaps, value)) ==> value == pattern
  {
    FillsItself(pattern);
    if gaps :| FillsTo(pattern, gaps, value) {
      assert gaps == [];
    }
  }

  lemma {:induction false} FillsItself(pattern: string)
    requires '*' !in pattern
    ensures Stars(pattern) == 0 && Fill(pattern, []) == pattern
  {
    if pattern != "" {
      FillsItself(pattern[1..]);
    }
  }
}
