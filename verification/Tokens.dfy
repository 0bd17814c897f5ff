/** The token estimate used for budgets; a text is a sequence of code points. */
module Tokens {
  import opened Text

  predicate IsWord(c: char) { 'A' <= c <= 'Z' || 'a' <= c <= 'z' || '0' <= c <= '9' || c == '_' }

  function CeilQuarter(n: nat): nat { (n + 3) / 4 }

  /** The lexical pieces of a text: whole runs of word characters, and every other character that is not a space. */
  function Pieces(text: string): seq<string>
  {
    if text == "" then []
    else
      var n := |text| - 1;
      var front, c := Pieces(text[..n]), text[n];
      if IsSpace(c) then front
      else if IsWord(c) && n > 0 && IsWord(text[n - 1]) && front != [] then
        front[..|front| - 1] + [front[|front| - 1] + [c]]
      else front + [[c]]
  }

  /** A word of `k` characters counts a quarter of them, rounded up; anything else counts one. */
  function PieceCost(piece: string): nat { if CeilQuarter(|piece|) > 1 then CeilQuarter(|piece|) else 1 }

  function Sum(pieces: seq<string>): nat
  {
    if pieces == [] then 0 else Sum(pieces[..|pieces| - 1]) + PieceCost(pieces[|pieces| - 1])
  }

  /** `estimateTokens`. */
  function Estimate(text: string): nat
  {
    if text == "" then 0
    else if Pieces(text) == [] then CeilQuarter(|text|)
    else Sum(Pieces(text))
  }

  // ----- The estimate, character by character -----

  /** The length of the word a text ends in. */
  function Run(text: string): nat
  {
    if text == "" || !IsWord(text[|text| - 1]) then 0 else 1 + Run(text[..|text| - 1])
  }

  /** Every fourth character of a word begins another token. */
  function Begins(run: nat): nat { if run % 4 == 0 then 1 else 0 }

  /** What a character adds to a text that ends in a word of `run` characters. */
  function Step(run: nat, c: char): nat
  {
    if IsSpace(c) then 0 else if IsWord(c) then Begins(run) else 1
  }

  function Cost(text: string): nat
  {
    if text == "" then 0
    else
      var front := text[..|text| - 1];
      Cost(front) + Step(Run(front), text[|text| - 1])
  }

  lemma QuarterStep(k: nat)
    ensures CeilQuarter(k + 1) == CeilQuarter(k) + Begins(k)
    ensures CeilQuarter(1) == 1 && (k > 0 ==> CeilQuarter(k) >= 1)
  {
  }

  lemma LongerWord(piece: string, c: char)
    requires piece != ""
    ensures PieceCost(piece + [c]) == PieceCost(piece) + Begins(|piece|)
    ensures PieceCost([c]) == 1 && Begins(0) == 1
  {
    assert Begins(0) == 1;
    hide CeilQuarter, Begins;
    QuarterStep(|piece|);
    QuarterStep(|piece| + 1);
  }

  lemma WordIsNoSpace(c: char)
    ensures IsWord(c) ==> !IsSpace(c)
  {
  }

  lemma SumAppend(p: seq<string>, piece: string)
    ensures Sum(p + [piece]) == Sum(p) + PieceCost(piece)
  {
    hide PieceCost;
    assert (p + [piece])[..|p|] == p;
  }

  lemma SumLonger(front: seq<string>, last: string, c: char)
    requires last != ""
    ensures Sum(front + [last + [c]]) == Sum(front + [last]) + Begins(|last|)
  {
    hide PieceCost, Sum, Begins;
    SumAppend(front, last + [c]);
    SumAppend(front, last);
    LongerWord(last, c);
  }

  /** How the pieces, the cost and the last word of a text follow from those of the text without its last character. */
  lemma OneMore(text: string)
    requires text != ""
    ensures var n := |text| - 1;
            var front, c := text[..n], text[n];
            && Cost(text) == Cost(front) + Step(Run(front), c)
            && Run(text) == (if IsWord(c) then 1 + Run(front) else 0)
            && Pieces(text) == if IsSpace(c) then Pieces(front)
                               else if IsWord(c) && Run(front) > 0 && Pieces(front) != [] then
                                 Pieces(front)[..|Pieces(front)| - 1] + [Pieces(front)[|Pieces(front)| - 1] + [c]]
                               else Pieces(front) + [[c]]
  {
    hide IsSpace, IsWord, Step;
  }

  lemma {:induction false} PiecesShape(text: string)
    ensures Sum(Pieces(text)) == Cost(text)
    ensures Run(text) > 0 ==> Pieces(text) != [] && |Pieces(text)[|Pieces(text)| - 1]| == Run(text)
  {
    if text == "" {
      assert Pieces(text) == [] && Cost(text) == 0 && Run(text) == 0 && Sum([]) == 0;
    } else {
      PiecesShape(text[..|text| - 1]);
      ShapeGoesOn(text);
    }
  }

  lemma ShapeGoesOn(text: string)
    requires text != ""
    requires var front := text[..|text| - 1];
             && Sum(Pieces(front)) == Cost(front)
             && (Run(front) > 0 ==> Pieces(front) != [] && |Pieces(front)[|Pieces(front)| - 1]| == Run(front))
    ensures Sum(Pieces(text)) == Cost(text)
    ensures Run(text) > 0 ==> Pieces(text) != [] && |Pieces(text)[|Pieces(text)| - 1]| == Run(text)
  {
    hide PieceCost, IsSpace, IsWord, Begins, Sum, Pieces, Cost, Run;
    var n := |text| - 1;
    var front, c := text[..n], text[n];
    OneMore(text);
    WordIsNoSpace(c);
    LongerWord([c], c);
    SumAppend(Pieces(front), [c]);
    var p := Pieces(front);
    if IsWord(c) && Run(front) > 0 {
      assert p == p[..|p| - 1] + [p[|p| - 1]];
      SumLonger(p[..|p| - 1], p[|p| - 1], c);
    }
  }

  /** A text with anything but spaces in it costs what its characters add one by one. */
  lemma EstimateIsCost(text: string, i: nat)
    requires i < |text| && !IsSpace(text[i])
    ensures Estimate(text) == Cost(text)
  {
    PiecesShape(text);
    HasPiece(text, i);
  }

  lemma {:induction false} HasPiece(text: string, i: nat)
    requires i < |text| && !IsSpace(text[i])
    ensures Pieces(text) != []
  {
    if i < |text| - 1 {
      HasPiece(text[..|text| - 1], i);
    }
  }

  /** Cost adds up where no word runs across. */
  lemma {:induction false} CostAppend(a: string, b: string)
    requires b == "" || !IsWord(b[0])
    ensures Cost(a + b) == Cost(a) + Cost(b)
    ensures b != "" ==> Run(a + b) == Run(b)
  {
    if b == "" {
      assert a + b == a;
    } else {
      var n := |b| - 1;
      CostAppend(a, b[..n]);
      assert (a + b)[..|a + b| - 1] == a + b[..n];
      if n == 0 {
        assert b[..n] == "";
        assert a + b[..n] == a;
      }
    }
  }

  /** A longer beginning never costs less. */
  lemma {:induction false} CostGrows(a: string, b: string)
    ensures Cost(a) <= Cost(a + b)
  {
    if b == "" {
      assert a + b == a;
    } else {
      CostGrows(a, b[..|b| - 1]);
      assert (a + b)[..|a + b| - 1] == a + b[..|b| - 1];
    }
  }
}
