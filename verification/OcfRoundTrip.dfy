/** The strict parser inverts the canonical printer on every encodable value. */
module OcfRoundTrip {
  import opened Outcomes
  import opened OcfValues
  import opened Scanner
  import Text
  import JsonStrings

  /** The value a decoder sees: a numeric `$ref` comes back as its decimal string. */
  function Normalize(v: Value): Value
  {
    match v
    case Arr(items) => Arr(seq(|items|, i requires 0 <= i < |items| => Normalize(items[i])))
    case Obj(fields) =>
      if IsReference(v) then Reference(ReferenceToken(v), fields["id"])
      else Obj(map k | k in fields :: Normalize(fields[k]))
    case _ => v
  }

  /** Values whose references already name their schema by a string. */
  predicate StringReferences(v: Value)
  {
    match v
    case Arr(items) => forall i :: 0 <= i < |items| ==> StringReferences(items[i])
    case Obj(fields) =>
      && (IsReference(v) ==> fields["$ref"].Str?)
      && (forall k :: k in fields ==> StringReferences(fields[k]))
    case _ => true
  }

  // ----- Scanning printed text -----

  predicate IsPlain(c: char)
  {
    c != '"' && c != '[' && c != ']' && c != '{' && c != '}'
  }

  lemma {:induction false} PlainSkims(t: string, delimiter: char, depth: nat)
    requires forall i :: 0 <= i < |t| ==> IsPlain(t[i]) && (depth == 0 ==> t[i] != delimiter)
    ensures Skim(t, delimiter, At(depth)) == Some(At(depth))
  {
    if t != "" {
      PlainSkims(t[1..], delimiter, depth);
    }
  }

  lemma {:induction false} EscapedSkims(s: string, delimiter: char, depth: nat)
    ensures Skim(JsonStrings.EscapeAll(s), delimiter, Scan(depth, true, false)) == Some(Scan(depth, true, false))
  {
    if s != "" {
      var e := JsonStrings.EscapeChar(s[0]);
      var inside := Scan(depth, true, false);
      SkimConcat(e, JsonStrings.EscapeAll(s[1..]), delimiter, inside);
      EscapedCharSkims(s[0], delimiter, depth);
      EscapedSkims(s[1..], delimiter, depth);
    }
  }

  lemma EscapedCharSkims(c: char, delimiter: char, depth: nat)
    ensures Skim(JsonStrings.EscapeChar(c), delimiter, Scan(depth, true, false)) == Some(Scan(depth, true, false))
  {
    var e := JsonStrings.EscapeChar(c);
    var inside := Scan(depth, true, false);
    if |e| == 1 {
      assert e[1..] == "";
    } else {
      assert e[0] == '\\' && Step(inside, e[0]) == inside.(escaped := true);
      assert Step(inside.(escaped := true), e[1]) == inside;
      assert e[1..][0] == e[1] && e[1..][1..] == e[2..];
      InsideSkims(e[2..], delimiter, depth);
    }
  }

  lemma {:induction false} InsideSkims(t: string, delimiter: char, depth: nat)
    requires forall i :: 0 <= i < |t| ==> t[i] != '"' && t[i] != '\\'
    ensures Skim(t, delimiter, Scan(depth, true, false)) == Some(Scan(depth, true, false))
  {
    if t != "" {
      InsideSkims(t[1..], delimiter, depth);
    }
  }

  /** A quoted string hides every delimiter it holds. */
  lemma QuotedSkims(s: string, delimiter: char, depth: nat)
    requires IsDelimiter(delimiter)
    ensures Skim(JsonStrings.Quote(s), delimiter, At(depth)) == Some(At(depth))
  {
    var body := JsonStrings.EscapeAll(s);
    EscapedSkims(s, delimiter, depth);
    SkimConcat("\"", body, delimiter, At(depth));
    SkimConcat("\"" + body, "\"", delimiter, At(depth));
    var open, close := "\"", "\"";
    assert open[1..] == "" && Skim(open, delimiter, At(depth)) == Some(Scan(depth, true, false));
    assert close[1..] == "" && Skim(close, delimiter, Scan(depth, true, false)) == Some(At(depth));
  }

  lemma {:induction false} JoinSkims(parts: seq<string>, delimiter: char, depth: nat)
    requires depth > 0
    requires forall p :: p in parts ==> Skim(p, delimiter, At(depth)) == Some(At(depth))
    ensures Skim(Text.Join(parts, ","), delimiter, At(depth)) == Some(At(depth))
  {
    if parts != [] {
      assert parts[0] in parts;
      if |parts| > 1 {
        JoinSkims(parts[1..], delimiter, depth);
        PlainSkims(",", delimiter, depth);
        SkimConcat(parts[0] + ",", Text.Join(parts[1..], ","), delimiter, At(depth));
        SkimConcat(parts[0], ",", delimiter, At(depth));
      }
    }
  }

  lemma BracketedSkims(open: char, close: char, inner: string, delimiter: char, depth: nat)
    requires IsDelimiter(delimiter)
    requires open in {'[', '{'} && close in {']', '}'}
    requires Skim(inner, delimiter, At(depth + 1)) == Some(At(depth + 1))
    ensures Skim([open] + inner + [close], delimiter, At(depth)) == Some(At(depth))
  {
    SkimConcat([open], inner, delimiter, At(depth));
    SkimConcat([open] + inner, [close], delimiter, At(depth));
    assert [open][1..] == "" && Skim([open], delimiter, At(depth)) == Some(At(depth + 1));
    assert [close][1..] == "" && Skim([close], delimiter, At(depth + 1)) == Some(At(depth));
  }

  lemma IntegerTextPlain(n: int)
    ensures forall i :: 0 <= i < |Text.IntegerText(n)| ==>
        Text.IsDigit(Text.IntegerText(n)[i]) || Text.IntegerText(n)[i] == '-'
  {
  }

  /** A printed value is passed over whole: at any depth where its colons cannot cut. */
  lemma {:induction false} PrintSkims(v: Value, delimiter: char, depth: nat)
    requires ReferencesNamed(v) && IsDelimiter(delimiter)
    requires delimiter == ':' ==> depth > 0
    ensures Skim(Print(v), delimiter, At(depth)) == Some(At(depth))
    decreases v, 1
  {
    if v.Arr? {
      ArraySkims(v, delimiter, depth);
    } else if v.Obj? {
      if IsReference(v) {
        ReferenceSkims(v, delimiter, depth);
      } else {
        ObjectSkims(v, delimiter, depth);
      }
    } else {
      ScalarSkims(v, delimiter, depth);
    }
  }

  lemma ScalarSkims(v: Value, delimiter: char, depth: nat)
    requires IsScalar(v) && IsDelimiter(delimiter)
    requires delimiter == ':' ==> depth > 0
    ensures Skim(Print(v), delimiter, At(depth)) == Some(At(depth))
  {
    if v.Str? && !CanUseBareString(v.s) {
      QuotedSkims(v.s, delimiter, depth);
    } else {
      if v.Num? || v.BigInt? {
        IntegerTextPlain(if v.Num? then v.n else v.big);
      }
      PlainSkims(Print(v), delimiter, depth);
    }
  }

  lemma {:induction false} ArraySkims(v: Value, delimiter: char, depth: nat)
    requires v.Arr? && ReferencesNamed(v) && IsDelimiter(delimiter)
    ensures Skim(Print(v), delimiter, At(depth)) == Some(At(depth))
    decreases v, 0
  {
    var parts := PrintItems(v);
    forall i | 0 <= i < |parts| ensures Skim(parts[i], delimiter, At(depth + 1)) == Some(At(depth + 1)) {
      PrintSkims(v.items[i], delimiter, depth + 1);
    }
    JoinSkims(parts, delimiter, depth + 1);
    BracketedSkims('[', ']', Text.Join(parts, ","), delimiter, depth);
  }

  lemma ReferenceSkims(v: Value, delimiter: char, depth: nat)
    requires IsReference(v) && IsSchemaToken(ReferenceToken(v)) && IsDelimiter(delimiter)
    requires delimiter == ':' ==> depth > 0
    ensures Skim(Print(v), delimiter, At(depth)) == Some(At(depth))
  {
    var head := "&" + ReferenceToken(v) + ":";
    PlainSkims(head, delimiter, depth);
    ScalarSkims(v.fields["id"], delimiter, depth);
    SkimConcat(head, Print(v.fields["id"]), delimiter, At(depth));
  }

  lemma {:induction false} ObjectSkims(v: Value, delimiter: char, depth: nat)
    requires v.Obj? && !IsReference(v) && ReferencesNamed(v) && IsDelimiter(delimiter)
    ensures Skim(Print(v), delimiter, At(depth)) == Some(At(depth))
    decreases v, 0
  {
    var keys := Text.SortedKeys(v.fields.Keys);
    var parts := PrintFields(v, keys);
    forall i | 0 <= i < |parts| ensures Skim(parts[i], delimiter, At(depth + 1)) == Some(At(depth + 1)) {
      assert keys[i] in keys;
      PrintSkims(v.fields[keys[i]], delimiter, depth + 1);
      PropertySkims(v, keys[i], delimiter, depth + 1);
    }
    JoinSkims(parts, delimiter, depth + 1);
    BracketedSkims('{', '}', Text.Join(parts, ","), delimiter, depth);
  }

  lemma PropertySkims(v: Value, k: string, delimiter: char, depth: nat)
    requires v.Obj? && k in v.fields && IsDelimiter(delimiter)
    requires delimiter == ':' ==> depth > 0
    requires Skim(Print(v.fields[k]), delimiter, At(depth)) == Some(At(depth))
    ensures Skim(PrintField(v, k), delimiter, At(depth)) == Some(At(depth))
  {
    QuotedSkims(k, delimiter, depth);
    PlainSkims(":", delimiter, depth);
    SkimConcat(JsonStrings.Quote(k), ":", delimiter, At(depth));
    SkimConcat(JsonStrings.Quote(k) + ":", Print(v.fields[k]), delimiter, At(depth));
  }

  // ----- Parsing printed text -----

  /** Printed text starts and ends with visible characters. */
  lemma {:induction false} PrintVisible(v: Value)
    requires ReferencesNamed(v)
    ensures Print(v) != ""
    ensures !Text.IsSpace(Print(v)[0]) && !Text.IsSpace(Print(v)[|Print(v)| - 1])
    decreases v
  {
    if v.Obj? && IsReference(v) {
      PrintVisible(v.fields["id"]);
      var id := Print(v.fields["id"]);
      assert Print(v)[|Print(v)| - 1] == id[|id| - 1];
    } else if v.Num? || v.BigInt? {
      IntegerTextPlain(if v.Num? then v.n else v.big);
    }
  }

  lemma PrintedSplit(parts: seq<string>)
    requires parts != [] && forall p :: p in parts ==> Sealed(p, ',')
    ensures SplitInner(Text.Join(parts, ","), ',') == Ok(parts)
  {
    SplitJoined(parts, ',', true);
  }

  lemma CutAtColon(head: string, v: Value)
    requires Sealed(head, ':') && ReferencesNamed(v)
    ensures FindTopLevel(head + ":" + Print(v), ':') == Ok(Some(|head|))
  {
    PrintSkims(v, ',', 0);
    SplitAtFirstCut(head, Print(v), ':');
  }

  lemma NumberReads(v: Value)
    requires v.Num? || v.BigInt?
    ensures ParseNumber(Print(v)[1..]) == Ok(v)
  {
    hide Text.IntegerText, Text.IsIntegerLiteral, Text.IntegerValue;
    var n := if v.Num? then v.n else v.big;
    var text, literal := Text.IntegerText(n), Print(v)[1..];
    Text.IntegerTextRoundTrip(n);
    IntegerTextPlain(n);
    assert Text.IntegerText(n) != "" by { IntegerTextVisible(n); }
    if v.Num? {
      assert literal == text;
    } else {
      assert literal == text + "n" && literal[..|literal| - 1] == text;
    }
  }

  lemma IntegerTextVisible(n: int)
    ensures Text.IntegerText(n) != ""
  {
  }

  lemma NumberShape(v: Value)
    requires v.Num? || v.BigInt?
    ensures ShapeOf(Print(v)) == NumberText
  {
    PrintVisible(v);
    assert Print(v)[0] == '#';
  }

  lemma NumberRoundTrip(v: Value)
    requires v.Num? || v.BigInt?
    ensures ParseValue(Print(v)) == Ok(v)
  {
    hide ParseNumber, ShapeOf, Print;
    NumberShape(v);
    NumberReads(v);
  }

  /** `parseValue(encodeValue(v))` is `v`, up to the spelling of numeric `$ref`s. */
  lemma {:induction false} ParsePrint(v: Value)
    requires Encodable(v)
    ensures ParseValue(Print(v)) == Ok(Normalize(v))
    decreases v, 1
  {
    PrintVisible(v);
    match v
    case Null =>
    case Bool(b) =>
    case Num(n) => NumberRoundTrip(v);
    case BigInt(n) => NumberRoundTrip(v);
    case Str(s) =>
      if !CanUseBareString(s) {
        JsonStrings.QuoteRoundTrip(s);
      }
    case Arr(items) => ParsePrintArray(v);
    case Obj(fields) =>
      if IsReference(v) {
        ParsePrintReference(v);
      } else {
        ParsePrintObject(v);
      }
  }

  /** What `parseValue` makes of a bracketed list of parts that each parse. */
  lemma ArrayParses(inner: string, parts: seq<string>, items: seq<Value>)
    requires inner != "" && SplitInner(inner, ',') == Ok(parts)
    requires forall p :: p in parts ==> |p| < |inner| + 2
    requires ParseItems(parts, |inner| + 2) == Ok(items)
    ensures ParseValue("[" + inner + "]") == Ok(Arr(items))
  {
    var source := "[" + inner + "]";
    assert source[1..|source| - 1] == inner;
    assert ShapeOf(source) == ArrayText;
  }

  lemma ObjectParses(inner: string, parts: seq<string>, fields: map<string, Value>)
    requires inner != "" && SplitInner(inner, ',') == Ok(parts)
    requires forall p :: p in parts ==> |p| < |inner| + 2
    requires ParseProperties(parts, map[], |inner| + 2) == Ok(fields)
    ensures ParseValue("{" + inner + "}") == Ok(Obj(fields))
  {
    var source := "{" + inner + "}";
    assert source[1..|source| - 1] == inner;
    assert ShapeOf(source) == ObjectText;
  }

  lemma ReferenceShape(source: string)
    requires source != "" && source[0] == '&' && !Text.IsSpace(source[|source| - 1])
    ensures ShapeOf(source) == ReferenceText
  {
  }

  lemma ReferenceParts(token: string, id: string)
    ensures var source := "&" + token + ":" + id;
            source[1..] == token + ":" + id && source[1..|token| + 1] == token && source[|token| + 2..] == id
  {
  }

  lemma ReferenceParses(token: string, id: string, v: Value)
    requires IsSchemaToken(token) && id != ""
    requires FindTopLevel(token + ":" + id, ':') == Ok(Some(|token|))
    requires ParseValue(id) == Ok(v) && IsScalar(v)
    ensures ParseReference("&" + token + ":" + id) == Ok(Reference(token, v))
  {
    assert token != "";
    hide ParseValue, FindTopLevel, IsReference, IsSchemaToken, IsScalar, Reference;
    var source := "&" + token + ":" + id;
    ReferenceParts(token, id);
  }

  lemma {:induction false} ParsePrintArray(v: Value)
    requires v.Arr? && Encodable(v)
    ensures ParseValue(Print(v)) == Ok(Normalize(v))
    decreases v, 0
  {
    var parts := PrintItems(v);
    var inner := Text.Join(parts, ",");
    if v.items == [] {
      assert Print(v) == "[]" && "[]"[1..1] == "";
      assert ShapeOf("[]") == ArrayText;
    } else {
      forall i | 0 <= i < |parts|
        ensures Sealed(parts[i], ',') && parts[i] != "" && ParseValue(parts[i]) == Ok(Normalize(v).items[i])
      {
        PrintSkims(v.items[i], ',', 0);
        PrintVisible(v.items[i]);
        ParsePrint(v.items[i]);
      }
      hide ParseValue, SplitInner, Skim;
      JoinFits(parts);
      PrintedSplit(parts);
      ItemsParse(parts, Normalize(v).items, |inner| + 2);
      ArrayParses(inner, parts, Normalize(v).items);
    }
  }

  lemma {:induction false} JoinFits(parts: seq<string>)
    ensures forall p :: p in parts ==> |p| <= |Text.Join(parts, ",")|
  {
    if |parts| > 1 {
      JoinFits(parts[1..]);
    }
  }

  lemma {:induction false} ItemsParse(parts: seq<string>, items: seq<Value>, limit: nat)
    requires |parts| == |items| && forall p :: p in parts ==> |p| < limit
    requires forall i :: 0 <= i < |parts| ==> parts[i] != "" && ParseValue(parts[i]) == Ok(items[i])
    ensures ParseItems(parts, limit) == Ok(items)
  {
    hide ParseValue;
    if parts != [] {
      ItemsParse(parts[1..], items[1..], limit);
      assert [items[0]] + items[1..] == items;
    }
  }

  lemma ReferenceTextParses(token: string, id: string, v: Value)
    requires IsSchemaToken(token) && id != "" && !Text.IsSpace(id[|id| - 1])
    requires FindTopLevel(token + ":" + id, ':') == Ok(Some(|token|))
    requires ParseValue(id) == Ok(v) && IsScalar(v)
    ensures ParseValue("&" + token + ":" + id) == Ok(Reference(token, v))
  {
    hide FindTopLevel, ParseReference, ShapeOf;
    var source := "&" + token + ":" + id;
    assert source[|source| - 1] == id[|id| - 1];
    ReferenceShape(source);
    ReferenceParses(token, id, v);
  }

  lemma {:induction false} ParsePrintReference(v: Value)
    requires IsReference(v) && Encodable(v)
    ensures ParseValue(Print(v)) == Ok(Normalize(v))
    decreases v, 0
  {
    var token, id := ReferenceToken(v), v.fields["id"];
    hide FindTopLevel, ParseValue, ParseReference;
    PrintVisible(id);
    ParsePrint(id);
    PlainSkims(token, ':', 0);
    CutAtColon(token, id);
    ReferenceTextParses(token, Print(id), id);
  }

  lemma {:induction false} ParsePrintObject(v: Value)
    requires v.Obj? && !IsReference(v) && Encodable(v)
    ensures ParseValue(Print(v)) == Ok(Normalize(v))
    decreases v, 0
  {
    forall k | k in v.fields ensures ParsesBack(v.fields[k]) {
      ParsePrint(v.fields[k]);
    }
    if v.fields == map[] {
      EmptyObjectParses(v);
    } else {
      NonEmptyObjectParses(v);
    }
  }

  lemma NonEmptyObjectParses(v: Value)
    requires v.Obj? && !IsReference(v) && Encodable(v) && v.fields != map[]
    requires forall k :: k in v.fields ==> ParsesBack(v.fields[k])
    ensures ParsesBack(v)
  {
    hide ParseValue, IsReference;
    var keys := Text.SortedKeys(v.fields.Keys);
    assert forall i :: 0 <= i < |keys| ==> keys[i] in keys;
    var values := seq(|keys|, i requires 0 <= i < |keys| => Normalize(v.fields[keys[i]]));
    FieldsParse(v, keys, values);
    NormalCollected(v, keys, values);
  }

  lemma NormalCollected(v: Value, keys: seq<string>, values: seq<Value>)
    requires v.Obj? && !IsReference(v) && Text.Distinct(keys) && |keys| == |values|
    requires forall k :: k in keys <==> k in v.fields
    requires forall i :: 0 <= i < |keys| ==> keys[i] in keys && values[i] == Normalize(v.fields[keys[i]])
    ensures Normalize(v) == Obj(Collected(keys, values, map[]))
  {
    CollectedHolds(keys, values, map[]);
    var r := Collected(keys, values, map[]);
    assert r.Keys == v.fields.Keys;
    forall k | k in v.fields ensures r[k] == Normalize(v.fields[k]) {
      var i :| 0 <= i < |keys| && keys[i] == k;
    }
    assert Normalize(v).fields == r;
  }

  ghost predicate ParsesBack(v: Value)
  {
    ParseValue(Print(v)) == Ok(Normalize(v))
  }

  lemma EmptyObjectParses(v: Value)
    requires v == Obj(map[])
    ensures ParsesBack(v)
  {
    assert Print(v) == "{}" && "{}"[1..1] == "";
    assert ShapeOf("{}") == ObjectText;
  }

  lemma FieldsSealed(v: Value, keys: seq<string>)
    requires v.Obj? && ReferencesNamed(v)
    requires forall k :: k in keys ==> k in v.fields
    ensures forall p :: p in PrintFields(v, keys) ==> Sealed(p, ',')
  {
    var parts := PrintFields(v, keys);
    forall i | 0 <= i < |parts| ensures Sealed(parts[i], ',') {
      assert keys[i] in keys;
      PrintSkims(v.fields[keys[i]], ',', 0);
      PropertySkims(v, keys[i], ',', 0);
    }
  }

  lemma FieldsRead(v: Value, keys: seq<string>, limit: nat)
    requires v.Obj? && Encodable(v)
    requires forall k :: k in keys ==> k in v.fields && ParsesBack(v.fields[k])
    requires forall p :: p in PrintFields(v, keys) ==> |p| < limit
    ensures forall i :: 0 <= i < |keys| ==>
        PropertyReads(PrintFields(v, keys)[i], keys[i], Normalize(v.fields[keys[i]]), limit)
  {
    var parts := PrintFields(v, keys);
    forall i | 0 <= i < |keys| ensures PropertyReads(parts[i], keys[i], Normalize(v.fields[keys[i]]), limit) {
      var k := keys[i];
      assert parts[i] in parts && k in keys;
      forall taken: set<string> | k !in taken
        ensures ParseProperty(parts[i], taken, limit) == Ok((k, Normalize(v.fields[k])))
      {
        PropertyParses(v, k, taken, limit);
      }
    }
  }

  lemma FieldsParse(v: Value, keys: seq<string>, values: seq<Value>)
    requires v.Obj? && Encodable(v) && keys != [] && Text.Distinct(keys) && |values| == |keys|
    requires forall k :: k in keys ==> k in v.fields && ParsesBack(v.fields[k])
    requires forall i :: 0 <= i < |keys| ==> keys[i] in v.fields && values[i] == Normalize(v.fields[keys[i]])
    ensures ParseValue("{" + Text.Join(PrintFields(v, keys), ",") + "}") == Ok(Obj(Collected(keys, values, map[])))
  {
    var parts := PrintFields(v, keys);
    var inner := Text.Join(parts, ",");
    FieldsSealed(v, keys);
    JoinFits(parts);
    PrintedSplit(parts);
    FieldsRead(v, keys, |inner| + 2);
    PropertiesParse(parts, keys, values, map[], |inner| + 2);
    assert parts[0] != "";
    ObjectParses(inner, parts, Collected(keys, values, map[]));
  }

  /** The record the property loop builds from these keys and values. */
  function Collected(keys: seq<string>, values: seq<Value>, result: map<string, Value>): map<string, Value>
    requires |keys| == |values|
  {
    if keys == [] then result
    else Collected(keys[1..], values[1..], result[keys[0] := values[0]])
  }

  lemma {:induction false} CollectedHolds(keys: seq<string>, values: seq<Value>, result: map<string, Value>)
    requires |keys| == |values| && Text.Distinct(keys)
    ensures forall k :: k in Collected(keys, values, result) <==> k in keys || k in result
    ensures forall i :: 0 <= i < |keys| ==> Collected(keys, values, result)[keys[i]] == values[i]
    ensures forall k :: k in result && k !in keys ==> Collected(keys, values, result)[k] == result[k]
  {
    if keys != [] {
      CollectedHolds(keys[1..], values[1..], result[keys[0] := values[0]]);
      assert forall k :: k in keys <==> k == keys[0] || k in keys[1..];
    }
  }

  ghost predicate PropertyReads(part: string, key: string, value: Value, limit: nat)
  {
    |part| < limit && forall taken: set<string> | key !in taken :: ParseProperty(part, taken, limit) == Ok((key, value))
  }

  lemma {:induction false} PropertiesParse(parts: seq<string>, keys: seq<string>, values: seq<Value>,
                                           result: map<string, Value>, limit: nat)
    requires |parts| == |keys| == |values| && Text.Distinct(keys)
    requires forall p :: p in parts ==> |p| < limit
    requires forall k :: k in keys ==> k !in result
    requires forall i :: 0 <= i < |keys| ==> PropertyReads(parts[i], keys[i], values[i], limit)
    ensures ParseProperties(parts, result, limit) == Ok(Collected(keys, values, result))
  {
    if keys != [] {
      assert keys[0] in keys && PropertyReads(parts[0], keys[0], values[0], limit);
      PropertiesParse(parts[1..], keys[1..], values[1..], result[keys[0] := values[0]], limit);
    }
  }

  lemma PropertyCuts(v: Value, k: string)
    requires v.Obj? && k in v.fields && ReferencesNamed(v.fields[k])
    ensures FindTopLevel(PrintField(v, k), ':') == Ok(Some(|JsonStrings.Quote(k)|))
  {
    hide Print, FindTopLevel, JsonStrings.Quote;
    QuotedSkims(k, ':', 0);
    CutAtColon(JsonStrings.Quote(k), v.fields[k]);
  }

  lemma PropertyParses(v: Value, k: string, taken: set<string>, limit: nat)
    requires v.Obj? && Encodable(v) && k in v.fields && k !in taken
    requires ParsesBack(v.fields[k]) && |PrintField(v, k)| < limit
    ensures ParseProperty(PrintField(v, k), taken, limit) == Ok((k, Normalize(v.fields[k])))
  {
    PropertyIsPlain(v, k);
    hide ParseValue, Encodable, Normalize, Print, FindTopLevel, ReferencesNamed, JsonStrings.Unquote,
         JsonStrings.EscapeAll, IsDangerousKey;
    var part, head, text := PrintField(v, k), JsonStrings.Quote(k), Print(v.fields[k]);
    PropertyCuts(v, k);
    assert part == head + ":" + text;
    assert part[..|head|] == head && part[|head| + 1..] == text;
    JsonStrings.QuoteRoundTrip(k);
    PrintVisible(v.fields[k]);
  }

  lemma PropertyIsPlain(v: Value, k: string)
    requires v.Obj? && Encodable(v) && k in v.fields
    ensures ReferencesNamed(v.fields[k]) && !IsDangerousKey(k)
  {
  }

  // ----- The laws of the codec -----

  lemma {:induction false} NormalizeIdentity(v: Value)
    requires StringReferences(v)
    ensures Normalize(v) == v
  {
    match v
    case Arr(items) =>
      forall i | 0 <= i < |items| ensures Normalize(items[i]) == items[i] {
        NormalizeIdentity(items[i]);
      }
    case Obj(fields) =>
      if IsReference(v) {
        assert fields == Reference(ReferenceToken(v), fields["id"]).fields;
      } else {
        forall k | k in fields ensures Normalize(fields[k]) == fields[k] {
          NormalizeIdentity(fields[k]);
        }
        assert fields == map k | k in fields :: Normalize(fields[k]);
      }
    case _ =>
  }

  /** What `encodeValue` accepts, `parseValue` reads back. */
  lemma EncodeDecode(v: Value)
    ensures EncodeValue(v).Ok? <==> Encodable(v)
    ensures EncodeValue(v).Ok? ==> ParseValue(EncodeValue(v).value) == Ok(Normalize(v))
    ensures EncodeValue(v).Ok? && StringReferences(v) ==> ParseValue(EncodeValue(v).value) == Ok(v)
  {
    if Encodable(v) {
      ParsePrint(v);
      if StringReferences(v) {
        NormalizeIdentity(v);
      }
    }
  }

  /** Encodings are canonical: equal exactly when the values are. */
  lemma EncodingsCanonical(u: Value, v: Value)
    requires Encodable(u) && Encodable(v)
    ensures Normalize(u) == Normalize(v) <==> Print(u) == Print(v)
    ensures StringReferences(u) && StringReferences(v) ==> (Print(u) == Print(v) <==> ValuesEqual(u, v))
  {
    ParsePrint(u);
    ParsePrint(v);
    PrintNormalized(u);
    PrintNormalized(v);
    ValuesEqualIsEquality(u, v);
    if StringReferences(u) && StringReferences(v) {
      NormalizeIdentity(u);
      NormalizeIdentity(v);
    }
  }

  lemma {:induction false} PrintNormalized(v: Value)
    ensures Print(Normalize(v)) == Print(v)
    decreases v, 1
  {
    if v.Arr? {
      forall i | 0 <= i < |v.items| ensures Print(Normalize(v.items[i])) == Print(v.items[i]) {
        PrintNormalized(v.items[i]);
      }
      assert PrintItems(Normalize(v)) == PrintItems(v);
    } else if v.Obj? && !IsReference(v) {
      PrintNormalizedObject(v);
    } else if v.Obj? {
      var w := Normalize(v);
      assert w.fields["$ref"].Str? && w.fields["id"] == v.fields["id"];
      assert IsReference(w) && ReferenceToken(w) == ReferenceToken(v);
    }
  }

  lemma {:induction false} PrintNormalizedObject(v: Value)
    requires v.Obj? && !IsReference(v)
    ensures Print(Normalize(v)) == Print(v)
    decreases v, 0
  {
    var w := Normalize(v);
    assert w.fields.Keys == v.fields.Keys;
    NormalizeKeepsKind(v);
    var keys := Text.SortedKeys(v.fields.Keys);
    forall i | 0 <= i < |keys| ensures PrintField(w, keys[i]) == PrintField(v, keys[i]) {
      assert keys[i] in keys;
      PrintNormalized(v.fields[keys[i]]);
    }
    assert PrintFields(w, keys) == PrintFields(v, keys);
  }

  lemma NormalizeKeepsKind(v: Value)
    requires v.Obj? && !IsReference(v)
    ensures !IsReference(Normalize(v))
  {
    var w := Normalize(v);
    assert w.fields.Keys == v.fields.Keys;
    if v.fields.Keys == {"$ref", "id"} {
      assert "$ref" in v.fields && "id" in v.fields;
    }
  }

  /** `valuesEqual`: structural comparison over the sorted keys. */
  predicate ValuesEqual(left: Value, right: Value)
    decreases left, 1
  {
    match (left, right)
    case (Arr(l), Arr(r)) => |l| == |r| && forall i :: 0 <= i < |l| ==> ValuesEqual(l[i], r[i])
    case (Obj(l), Obj(r)) => SameProperties(left, right, Text.SortedKeys(l.Keys), Text.SortedKeys(r.Keys))
    case _ => !left.Arr? && !left.Obj? && left == right
  }

  predicate SameProperties(left: Value, right: Value, leftKeys: seq<string>, rightKeys: seq<string>)
    requires left.Obj? && (forall k :: k in leftKeys ==> k in left.fields)
    requires right.Obj? && (forall k :: k in rightKeys ==> k in right.fields)
    decreases left, 0, 1
  {
    && |leftKeys| == |rightKeys|
    && forall i :: 0 <= i < |leftKeys| ==> SameProperty(left, right, leftKeys[i], rightKeys[i])
  }

  predicate SameProperty(left: Value, right: Value, key: string, other: string)
    requires left.Obj? && key in left.fields && right.Obj? && other in right.fields
    decreases left, 0, 0
  {
    key == other && ValuesEqual(left.fields[key], right.fields[other])
  }

  lemma {:induction false} ValuesEqualIsEquality(left: Value, right: Value)
    ensures ValuesEqual(left, right) <==> left == right
    decreases left, 1
  {
    if left.Arr? && right.Arr? {
      forall i | 0 <= i < |left.items| && i < |right.items|
        ensures ValuesEqual(left.items[i], right.items[i]) <==> left.items[i] == right.items[i]
      {
        ValuesEqualIsEquality(left.items[i], right.items[i]);
      }
    } else if left.Obj? && right.Obj? {
      forall k | k in left.fields && k in right.fields
        ensures ValuesEqual(left.fields[k], right.fields[k]) <==> left.fields[k] == right.fields[k]
      {
        ValuesEqualIsEquality(left.fields[k], right.fields[k]);
      }
      ObjectsEqual(left, right);
    }
  }

  lemma ObjectsCompared(left: Value, right: Value)
    requires left.Obj? && right.Obj?
    ensures ValuesEqual(left, right)
       <==> SameProperties(left, right, Text.SortedKeys(left.fields.Keys), Text.SortedKeys(right.fields.Keys))
  {
  }

  lemma ObjectsEqual(left: Value, right: Value)
    requires left.Obj? && right.Obj?
    requires forall k :: k in left.fields && k in right.fields ==>
               (ValuesEqual(left.fields[k], right.fields[k]) <==> left.fields[k] == right.fields[k])
    ensures ValuesEqual(left, right) <==> left == right
  {
    hide ValuesEqual, SameProperties, Text.SortedKeys, Text.First;
    ObjectsCompared(left, right);
    var leftKeys, rightKeys := Text.SortedKeys(left.fields.Keys), Text.SortedKeys(right.fields.Keys);
    if SameProperties(left, right, leftKeys, rightKeys) {
      SameKeys(left, right, leftKeys, rightKeys);
      forall k ensures k in left.fields <==> k in right.fields {
        assert k in left.fields <==> k in leftKeys;
      }
      assert left.fields == right.fields;
    }
    if left == right {
      SelfSame(left, leftKeys);
    }
  }

  lemma SameKeys(left: Value, right: Value, leftKeys: seq<string>, rightKeys: seq<string>)
    requires left.Obj? && (forall k :: k in leftKeys ==> k in left.fields)
    requires right.Obj? && (forall k :: k in rightKeys ==> k in right.fields)
    requires SameProperties(left, right, leftKeys, rightKeys)
    ensures leftKeys == rightKeys
    ensures forall k :: k in leftKeys ==> ValuesEqual(left.fields[k], right.fields[k])
  {
    forall i | 0 <= i < |leftKeys| ensures leftKeys[i] == rightKeys[i] {
      assert SameProperty(left, right, leftKeys[i], rightKeys[i]);
    }
    forall k | k in leftKeys ensures ValuesEqual(left.fields[k], right.fields[k]) {
      var i :| 0 <= i < |leftKeys| && leftKeys[i] == k;
      assert SameProperty(left, right, leftKeys[i], rightKeys[i]);
    }
  }

  lemma SelfSame(v: Value, keys: seq<string>)
    requires v.Obj? && forall k :: k in keys ==> k in v.fields && ValuesEqual(v.fields[k], v.fields[k])
    ensures SameProperties(v, v, keys, keys)
  {
    forall i | 0 <= i < |keys| ensures SameProperty(v, v, keys[i], keys[i]) {
      assert keys[i] in keys;
    }
  }
}
