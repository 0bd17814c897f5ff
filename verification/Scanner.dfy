/** The string-aware, depth-counting splitters of the OCF/1 codec. */
module Scanner {
  import opened Outcomes
  import Text

  /** `depth`, `inString` and `escaped` of the splitting loops. */
  datatype Scan = Scan(depth: int, inString: bool, escaped: bool)

  datatype SplitError = UnexpectedClose | UnterminatedString | Unbalanced

  const Top := Scan(0, false, false)

  function At(depth: int): Scan { Scan(depth, false, false) }

  predicate IsDelimiter(c: char) { c == ',' || c == ':' || c == '|' }

  function Step(s: Scan, c: char): Scan
  {
    if s.inString then
      if s.escaped then s.(escaped := false)
      else if c == '\\' then s.(escaped := true)
      else if c == '"' then s.(inString := false)
      else s
    else if c == '"' then s.(inString := true)
    else if c == '[' || c == '{' then s.(depth := s.depth + 1)
    else if c == ']' || c == '}' then s.(depth := s.depth - 1)
    else s
  }

  predicate Cuts(s: Scan, c: char, delimiter: char)
  {
    !s.inString && s.depth == 0 && c == delimiter
  }

  /** What the loop yields from state `s` on text `t`, `part` being read so far;
      only a strict splitter refuses a closing delimiter that was never opened. */
  function SplitFrom(t: string, delimiter: char, strict: bool, s: Scan, part: string): Result<seq<string>, SplitError>
    decreases |t|
  {
    if t == "" then
      if s.inString then Err(UnterminatedString)
      else if s.depth != 0 then Err(Unbalanced)
      else Ok([part])
    else if Cuts(s, t[0], delimiter) then
      Prepend([part], SplitFrom(t[1..], delimiter, strict, s, ""))
    else if strict && Step(s, t[0]).depth < 0 then Err(UnexpectedClose)
    else SplitFrom(t[1..], delimiter, strict, Step(s, t[0]), part + [t[0]])
  }

  function Prepend(front: seq<string>, rest: Result<seq<string>, SplitError>): Result<seq<string>, SplitError>
  {
    match rest
    case Ok(parts) => Ok(front + parts)
    case Err(e) => Err(e)
  }

  lemma PrependTwice(a: seq<string>, b: seq<string>, rest: Result<seq<string>, SplitError>)
    ensures Prepend(a + b, rest) == Prepend(a, Prepend(b, rest))
    ensures Prepend([], rest) == rest
  {
    if rest.Ok? {
      assert [] + rest.value == rest.value;
      assert a + b + rest.value == a + (b + rest.value);
    }
  }

  /** `splitTopLevel` and `splitRecordLine`. */
  function Split(source: string, delimiter: char): Result<seq<string>, SplitError>
  {
    SplitFrom(source, delimiter, true, Top, "")
  }

  /** `splitLine` of the delta reader, which tolerates a dip below depth zero. */
  function LenientSplit(source: string, delimiter: char): Result<seq<string>, SplitError>
  {
    SplitFrom(source, delimiter, false, Top, "")
  }

  /** The splitting loop: `start`, `depth`, `inString` and `escaped` move over the text. */
  method SplitLoop(source: string, delimiter: char, strict: bool) returns (r: Result<seq<string>, SplitError>)
    requires IsDelimiter(delimiter)
    ensures r == SplitFrom(source, delimiter, strict, Top, "")
  {
    var result: seq<string> := [];
    var start, depth, inString, escaped := 0, 0, false, false;
    var index := 0;
    assert source[0..] == source && source[0..0] == "";
    PrependTwice([], [], SplitFrom(source, delimiter, strict, Top, ""));
    while index < |source|
      invariant 0 <= start <= index <= |source|
      invariant escaped ==> inString
      invariant strict ==> depth >= 0
      invariant Prepend(result,
          SplitFrom(source[index..], delimiter, strict, Scan(depth, inString, escaped), source[start..index]))
             == SplitFrom(source, delimiter, strict, Top, "")
    {
      var c := source[index];
      var part := source[start..index];
      assert source[index..][0] == c && source[index..][1..] == source[index + 1..];
      assert source[start..index + 1] == part + [c];
      index := index + 1;
      if inString {
        if escaped {
          escaped := false;
        } else if c == '\\' {
          escaped := true;
        } else if c == '"' {
          inString := false;
        }
      } else if c == '"' {
        inString := true;
      } else if c == '[' || c == '{' {
        depth := depth + 1;
      } else if c == ']' || c == '}' {
        depth := depth - 1;
        if strict && depth < 0 {
          return Err(UnexpectedClose);
        }
      } else if c == delimiter && depth == 0 {
        PrependTwice(result, [part], SplitFrom(source[index..], delimiter, strict, Top, ""));
        result := result + [part];
        start := index;
        assert source[start..index] == "";
      }
    }
    if inString {
      return Err(UnterminatedString);
    }
    if depth != 0 {
      return Err(Unbalanced);
    }
    r := Ok(result + [source[start..]]);
    assert source[start..] == source[start..index];
  }

  /** No part is longer than the text it was cut from. */
  lemma PartsFit(t: string, delimiter: char, strict: bool, s: Scan, part: string)
    requires SplitFrom(t, delimiter, strict, s, part).Ok?
    ensures SplitFrom(t, delimiter, strict, s, part).value != []
    ensures forall p :: p in SplitFrom(t, delimiter, strict, s, part).value ==> |p| <= |part| + |t|
  {
    if t != "" {
      if Cuts(s, t[0], delimiter) {
        PartsFit(t[1..], delimiter, strict, s, "");
      } else {
        PartsFit(t[1..], delimiter, strict, Step(s, t[0]), part + [t[0]]);
      }
    }
  }

  /** A first part that is not the only one leaves room for its delimiter. */
  lemma FirstPartFits(t: string, delimiter: char, strict: bool, s: Scan, part: string)
    requires SplitFrom(t, delimiter, strict, s, part).Ok?
    requires |SplitFrom(t, delimiter, strict, s, part).value| > 1
    ensures |SplitFrom(t, delimiter, strict, s, part).value[0]| < |part| + |t|
  {
    if !Cuts(s, t[0], delimiter) {
      FirstPartFits(t[1..], delimiter, strict, Step(s, t[0]), part + [t[0]]);
    }
  }

  // ----- What the splitters do with text they need not look into -----

  /** The state after `t`, if reading it from `s` neither meets a delimiter to cut at nor closes too much. */
  function Skim(t: string, delimiter: char, s: Scan): Option<Scan>
  {
    if t == "" then Some(s)
    else if Cuts(s, t[0], delimiter) || Step(s, t[0]).depth < 0 then None
    else Skim(t[1..], delimiter, Step(s, t[0]))
  }

  /** Text that a splitter passes over whole, at any depth it may start from. */
  predicate Sealed(t: string, delimiter: char)
  {
    Skim(t, delimiter, Top) == Some(Top)
  }

  lemma {:induction false} SkimConcat(a: string, b: string, delimiter: char, s: Scan)
    ensures Skim(a + b, delimiter, s) ==
            match Skim(a, delimiter, s) { case Some(m) => Skim(b, delimiter, m) case None => None }
  {
    if a == "" {
      assert a + b == b;
    } else {
      assert (a + b)[1..] == a[1..] + b;
      SkimConcat(a[1..], b, delimiter, Step(s, a[0]));
    }
  }

  lemma {:induction false} SplitSkims(p: string, rest: string, delimiter: char, strict: bool, s: Scan, part: string)
    requires Skim(p, delimiter, s).Some?
    ensures SplitFrom(p + rest, delimiter, strict, s, part)
         == SplitFrom(rest, delimiter, strict, Skim(p, delimiter, s).value, part + p)
  {
    if p == "" {
      assert p + rest == rest && part + p == part;
    } else {
      assert (p + rest)[1..] == p[1..] + rest;
      assert part + [p[0]] + p[1..] == part + p;
      SplitSkims(p[1..], rest, delimiter, strict, Step(s, p[0]), part + [p[0]]);
    }
  }

  /** Splitting undoes joining, for parts a splitter passes over whole. */
  lemma {:induction false} SplitJoined(parts: seq<string>, delimiter: char, strict: bool)
    requires parts != [] && IsDelimiter(delimiter)
    requires forall p :: p in parts ==> Sealed(p, delimiter)
    ensures SplitFrom(Text.Join(parts, [delimiter]), delimiter, strict, Top, "") == Ok(parts)
  {
    var p := parts[0];
    assert p in parts;
    assert "" + p == p && p + "" == p;
    if |parts| == 1 {
      SplitSkims(p, "", delimiter, strict, Top, "");
      assert parts == [p];
    } else {
      var rest := [delimiter] + Text.Join(parts[1..], [delimiter]);
      SplitSkims(p, rest, delimiter, strict, Top, "");
      SplitJoined(parts[1..], delimiter, strict);
      assert Text.Join(parts, [delimiter]) == p + rest;
      assert rest[1..] == Text.Join(parts[1..], [delimiter]);
      assert parts == [p] + parts[1..];
    }
  }

  /** The first part of a split is the text before the first cut. */
  lemma SplitAtFirstCut(p: string, rest: string, delimiter: char)
    requires IsDelimiter(delimiter) && Sealed(p, delimiter)
    requires exists d :: Skim(rest, d, Top) == Some(Top)
    ensures Split(p + [delimiter] + rest, delimiter).Ok?
    ensures var parts := Split(p + [delimiter] + rest, delimiter).value; |parts| > 1 && parts[0] == p
  {
    var d :| Skim(rest, d, Top) == Some(Top);
    var t := [delimiter] + rest;
    assert p + [delimiter] + rest == p + t && "" + p == p && t[1..] == rest;
    SplitSkims(p, t, delimiter, true, Top, "");
    SplitSucceeds(rest, delimiter, d, true, Top, "");
  }

  /** Balanced text splits at any delimiter. */
  lemma {:induction false} SplitSucceeds(t: string, delimiter: char, other: char, strict: bool, s: Scan, part: string)
    requires IsDelimiter(delimiter)
    requires Skim(t, other, s) == Some(Top)
    ensures SplitFrom(t, delimiter, strict, s, part).Ok?
    ensures SplitFrom(t, delimiter, strict, s, part).value != []
  {
    if t != "" {
      SplitSucceeds(t[1..], delimiter, other, strict, Step(s, t[0]),
                    if Cuts(s, t[0], delimiter) then "" else part + [t[0]]);
    }
  }

  /** Somewhere outside quotes the line closes a bracket that it has not opened. */
  predicate Dips(t: string, delimiter: char, s: Scan)
  {
    t != ""
    && if Cuts(s, t[0], delimiter) then Dips(t[1..], delimiter, s)
       else Step(s, t[0]).depth < 0 || Dips(t[1..], delimiter, Step(s, t[0]))
  }

  /** A strict splitter refuses the lines that dip below depth zero, and on all others does what the lenient one
      does. */
  lemma {:induction false} StrictRefusesDips(t: string, delimiter: char, s: Scan, part: string)
    ensures SplitFrom(t, delimiter, true, s, part)
         == if Dips(t, delimiter, s) then Err(UnexpectedClose) else SplitFrom(t, delimiter, false, s, part)
    ensures SplitFrom(t, delimiter, false, s, part) != Err(UnexpectedClose)
  {
    if t != "" {
      var on, part' := Step(s, t[0]), part + [t[0]];
      if Cuts(s, t[0], delimiter) {
        StrictRefusesDips(t[1..], delimiter, s, "");
      } else {
        StrictRefusesDips(t[1..], delimiter, on, part');
      }
    }
  }

  /** The delta reader's splitter agrees with the strict ones on exactly the lines that never dip. */
  lemma SplittersAgree(line: string, delimiter: char)
    ensures LenientSplit(line, delimiter) == Split(line, delimiter) <==> !Dips(line, delimiter, Top)
  {
    StrictRefusesDips(line, delimiter, Top, "");
  }

  /** They do not agree on all lines: one that closes before it opens. */
  lemma SplittersDiffer()
    ensures Split("][", '|') == Err(UnexpectedClose)
    ensures LenientSplit("][", '|') == Ok(["]["])
  {
    var t := "][";
    assert t[1..] == "[" && t[1..][1..] == "";
    assert Step(Top, ']') == At(-1) && Step(At(-1), '[') == Top;
    assert "" + ["]"[0]] == "]" && "]" + ["["[0]] == "][";
    assert t[0] == ']';
  }
}
