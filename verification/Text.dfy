/** String helpers shared by the codecs: joining, decimal numbers, key order. */
module Text {
  function Join(parts: seq<string>, separator: string): string
  {
    if parts == [] then ""
    else if |parts| == 1 then parts[0]
    else parts[0] + separator + Join(parts[1..], separator)
  }

  lemma JoinCons(part: string, rest: seq<string>, separator: string)
    requires rest != []
    ensures Join([part] + rest, separator) == part + separator + Join(rest, separator)
  {
    assert ([part] + rest)[1..] == rest;
  }

  // ----- White space -----

  /** The characters that `\s` matches, and that `trim` takes off. */
  predicate IsSpace(c: char)
  {
    || 9 <= c as int <= 13 || c == ' ' || c as int == 0xA0 || c as int == 0x1680
    || 0x2000 <= c as int <= 0x200A || c as int == 0x2028 || c as int == 0x2029
    || c as int == 0x202F || c as int == 0x205F || c as int == 0x3000 || c as int == 0xFEFF
  }

  /** Nothing is left of the text once it is trimmed. */
  predicate IsBlank(s: string) { forall i :: 0 <= i < |s| ==> IsSpace(s[i]) }

  // ----- Decimal numbers -----

  predicate IsDigit(c: char) { '0' <= c <= '9' }

  predicate AllDigits(s: string) { forall i :: 0 <= i < |s| ==> IsDigit(s[i]) }

  /** The shortest decimal form of a natural number. */
  function Decimal(n: nat): (s: string)
    ensures s != "" && AllDigits(s)
    ensures n > 0 ==> s[0] != '0'
    ensures |s| > 1 ==> s[0] != '0'
    decreases n
  {
    if n < 10 then [('0' as int + n) as char]
    else Decimal(n / 10) + [('0' as int + n % 10) as char]
  }

  /** The number that a string of digits denotes. */
  function Digits(s: string): nat
    requires AllDigits(s)
  {
    if s == "" then 0 else 10 * Digits(s[..|s| - 1]) + (s[|s| - 1] as int - '0' as int)
  }

  lemma {:induction false} DecimalDenotes(n: nat)
    ensures Digits(Decimal(n)) == n
  {
    if n >= 10 {
      DecimalDenotes(n / 10);
      var front := Decimal(n / 10);
      assert Decimal(n)[..|Decimal(n)| - 1] == front;
    } else {
      assert Decimal(n)[..0] == "";
    }
  }

  /** The regular expression `0|[1-9][0-9]*`. */
  predicate IsCanonicalNatural(s: string)
  {
    s != "" && AllDigits(s) && (|s| > 1 ==> s[0] != '0')
  }

  /** A canonical natural is the decimal form of the number it denotes. */
  lemma {:induction false} CanonicalIsDecimal(s: string)
    requires IsCanonicalNatural(s)
    ensures Decimal(Digits(s)) == s
  {
    if |s| == 1 {
      assert s[..0] == "";
    } else {
      var front := s[..|s| - 1];
      CanonicalIsDecimal(front);
      CanonicalPositive(front);
      assert s == front + [s[|s| - 1]];
    }
  }

  lemma CanonicalPositive(s: string)
    requires s != "" && AllDigits(s) && s[0] != '0'
    ensures Digits(s) > 0
  {
    if |s| > 1 {
      CanonicalPositive(s[..|s| - 1]);
    }
  }

  /** `String(n)` of a safe integer and `n.toString()` of a bigint. */
  function IntegerText(n: int): string
  {
    if n < 0 then "-" + Decimal(-n) else Decimal(n)
  }

  /** The regular expression `-?(?:0|[1-9][0-9]*)`. */
  predicate IsIntegerLiteral(s: string)
  {
    s != "" && IsCanonicalNatural(if s[0] == '-' then s[1..] else s)
  }

  function IntegerValue(s: string): int
    requires IsIntegerLiteral(s)
  {
    if s[0] == '-' then 0 - Digits(s[1..]) else Digits(s)
  }

  lemma IntegerTextRoundTrip(n: int)
    ensures IsIntegerLiteral(IntegerText(n)) && IntegerValue(IntegerText(n)) == n
  {
    DecimalDenotes(if n < 0 then -n else n);
    assert n < 0 ==> IntegerText(n)[1..] == Decimal(-n);
  }

  // ----- Cutting at a character -----

  /** `split` at a character, `part` being read so far. */
  function SplitChar(s: string, c: char, part: string): (r: seq<string>)
    ensures r != []
    decreases |s|
  {
    if s == "" then [part]
    else if s[0] == c then [part] + SplitChar(s[1..], c, "")
    else SplitChar(s[1..], c, part + [s[0]])
  }

  lemma {:induction false} SplitCharFree(s: string, rest: string, c: char, part: string)
    requires c !in s
    ensures SplitChar(s + rest, c, part) == SplitChar(rest, c, part + s)
  {
    if s == "" {
      assert s + rest == rest && part + s == part;
    } else {
      assert (s + rest)[1..] == s[1..] + rest && part + [s[0]] + s[1..] == part + s;
      SplitCharFree(s[1..], rest, c, part + [s[0]]);
    }
  }

  /** Splitting a text extended by one more part. */
  lemma {:induction false} SplitCharExtended(s: string, last: string, c: char, part: string)
    requires c !in last
    ensures SplitChar(s + [c] + last, c, part) == SplitChar(s, c, part) + [last]
  {
    if s == "" {
      SplitCharFree(last, "", c, "");
      assert last + "" == last && "" + last == last;
      assert s + [c] + last == [c] + last;
      assert ([c] + last)[1..] == last;
    } else {
      assert (s + [c] + last)[1..] == s[1..] + [c] + last;
      SplitCharExtended(s[1..], last, c, if s[0] == c then "" else part + [s[0]]);
    }
  }

  /** Splitting undoes joining. */
  lemma {:induction false} SplitCharJoined(parts: seq<string>, c: char)
    requires parts != [] && forall i :: 0 <= i < |parts| ==> c !in parts[i]
    ensures SplitChar(Join(parts, [c]), c, "") == parts
  {
    var p := parts[0];
    assert "" + p == p && p + "" == p;
    if |parts| == 1 {
      SplitCharFree(p, "", c, "");
      assert parts == [p];
    } else {
      var rest := [c] + Join(parts[1..], [c]);
      SplitCharFree(p, rest, c, "");
      SplitCharJoined(parts[1..], c);
      assert Join(parts, [c]) == p + rest && rest[1..] == Join(parts[1..], [c]);
      assert parts == [p] + parts[1..];
    }
  }

  /** `replaceAll("\r\n", "\n")`. */
  function ReplaceCrLf(text: string): string
  {
    if text == "" then ""
    else if |text| > 1 && text[0] == '\r' && text[1] == '\n' then "\n" + ReplaceCrLf(text[2..])
    else [text[0]] + ReplaceCrLf(text[1..])
  }

  // ----- The order in which `Array.prototype.sort` puts strings -----

  predicate StringLeq(a: string, b: string)
  {
    if a == "" then true
    else if b == "" then false
    else a[0] < b[0] || (a[0] == b[0] && StringLeq(a[1..], b[1..]))
  }

  lemma StringLeqTotal(a: string, b: string)
    ensures StringLeq(a, b) || StringLeq(b, a)
    ensures StringLeq(a, b) && StringLeq(b, a) ==> a == b
  {
    if a != "" && b != "" {
      StringLeqTotal(a[1..], b[1..]);
      assert a == [a[0]] + a[1..] && b == [b[0]] + b[1..];
    }
  }

  lemma StringLeqTransitive(a: string, b: string, c: string)
    requires StringLeq(a, b) && StringLeq(b, c)
    ensures StringLeq(a, c)
  {
    if a != "" && b != "" && c != "" && a[0] == b[0] == c[0] {
      StringLeqTransitive(a[1..], b[1..], c[1..]);
    }
  }

  predicate IsFirst(k: string, keys: set<string>)
  {
    k in keys && forall other :: other in keys ==> StringLeq(k, other)
  }

  lemma FirstExists(keys: set<string>) returns (first: string)
    requires keys != {}
    ensures IsFirst(first, keys)
  {
    var k :| k in keys;
    if keys == {k} {
      StringLeqTotal(k, k);
      first := k;
    } else {
      var m := FirstExists(keys - {k});
      StringLeqTotal(k, m);
      StringLeqTotal(k, k);
      if StringLeq(k, m) {
        forall other | other in keys
          ensures StringLeq(k, other)
        {
          if other != k {
            StringLeqTransitive(k, m, other);
          }
        }
        first := k;
      } else {
        first := m;
      }
    }
  }

  function First(keys: set<string>): (k: string)
    requires keys != {}
    ensures IsFirst(k, keys)
  {
    assert exists k :: IsFirst(k, keys) by {
      var k := FirstExists(keys);
    }
    assert forall k, l :: IsFirst(k, keys) && IsFirst(l, keys) ==> k == l by {
      forall k, l | IsFirst(k, keys) && IsFirst(l, keys) ensures k == l {
        StringLeqTotal(k, l);
      }
    }
    var k :| IsFirst(k, keys);
    k
  }

  predicate Distinct(keys: seq<string>)
  {
    forall i, j :: 0 <= i < j < |keys| ==> keys[i] != keys[j]
  }

  /** `Object.keys(object).sort()`. */
  function SortedKeys(keys: set<string>): (r: seq<string>)
    ensures forall k :: k in r <==> k in keys
    ensures Distinct(r)
    ensures |r| == |keys|
  {
    if keys == {} then [] else [First(keys)] + SortedKeys(keys - {First(keys)})
  }

  lemma {:induction false} SortedKeysInOrder(keys: set<string>, i: nat, j: nat)
    requires i <= j < |keys|
    ensures StringLeq(SortedKeys(keys)[i], SortedKeys(keys)[j])
  {
    var rest := keys - {First(keys)};
    assert SortedKeys(keys)[j] in SortedKeys(keys);
    if i > 0 {
      SortedKeysInOrder(rest, i - 1, j - 1);
    }
  }
}
