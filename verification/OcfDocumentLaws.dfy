/** When reading an OCF/1 stream gives back the records it was rendered from. */
module OcfDocumentLaws {
  import opened Outcomes
  import opened OcfValues
  import opened OcfLines
  import opened OcfSchemas
  import opened OcfDocuments
  import OcfRoundTrip
  import JsonStrings
  import Scanner
  import Text

  // ----- Characters of a line -----

  predicate IsTokenChar(c: char) { IsAlphanumeric(c) || c == '_' || c == '-' }

  predicate AllTokenChars(s: string) { forall i :: 0 <= i < |s| ==> IsTokenChar(s[i]) }

  lemma TokenChars(s: string)
    requires IsSchemaToken(s)
    ensures s != "" && AllTokenChars(s)
  {
  }

  lemma NumberChars(n: nat)
    ensures Text.IntegerText(n) != "" && AllTokenChars(Text.IntegerText(n))
  {
  }

  predicate OneLine(s: string) { '\n' !in s && '\r' !in s }

  lemma TokenExcludes(s: string, c: char)
    requires AllTokenChars(s) && !IsTokenChar(c)
    ensures c !in s
  {
  }

  lemma {:induction false} EscapedOneLine(s: string)
    ensures OneLine(JsonStrings.EscapeAll(s))
  {
    if s != "" {
      EscapedOneLine(s[1..]);
    }
  }

  lemma JoinedOneLine(parts: seq<string>, separator: string)
    requires OneLine(separator) && forall i :: 0 <= i < |parts| ==> OneLine(parts[i])
    ensures OneLine(Text.Join(parts, separator))
  {
    JoinedHasNo(parts, separator, '\n');
    JoinedHasNo(parts, separator, '\r');
  }

  lemma ScalarOneLine(v: Value)
    requires IsScalar(v)
    ensures OneLine(Print(v))
  {
    match v
    case Str(s) => EscapedOneLine(s);
    case Num(n) => OcfRoundTrip.IntegerTextPlain(n);
    case BigInt(n) => OcfRoundTrip.IntegerTextPlain(n);
    case Null =>
    case Bool(_) =>
  }

  lemma ReferenceOneLine(v: Value)
    requires IsReference(v) && ReferencesNamed(v)
    ensures OneLine(Print(v))
  {
    TokenChars(ReferenceToken(v));
    ScalarOneLine(v.fields["id"]);
    hide IsSchemaToken;
    JoinedOneLine(["&", ReferenceToken(v), ":", Print(v.fields["id"])], "");
  }

  /** No printed value breaks its line. */
  lemma {:induction false} PrintOneLine(v: Value)
    requires ReferencesNamed(v)
    ensures OneLine(Print(v))
    decreases v
  {
    if IsScalar(v) {
      ScalarOneLine(v);
    } else if v.Arr? {
      forall i | 0 <= i < |v.items| ensures OneLine(Print(v.items[i])) {
        PrintOneLine(v.items[i]);
      }
      JoinedOneLine(PrintItems(v), ",");
    } else if IsReference(v) {
      ReferenceOneLine(v);
    } else {
      forall k | k in v.fields ensures OneLine(Print(v.fields[k])) {
        PrintOneLine(v.fields[k]);
      }
      FieldsOneLine(v, Text.SortedKeys(v.fields.Keys));
    }
  }

  lemma FieldsOneLine(v: Value, keys: seq<string>)
    requires v.Obj? && forall k :: k in keys ==> k in v.fields && OneLine(Print(v.fields[k]))
    ensures OneLine(Text.Join(PrintFields(v, keys), ","))
  {
    var parts := PrintFields(v, keys);
    forall i | 0 <= i < |parts| ensures OneLine(parts[i]) {
      assert keys[i] in keys;
      EscapedOneLine(keys[i]);
    }
    JoinedOneLine(parts, ",");
  }

  // ----- The two header lines -----

  lemma ProfileReads(p: Profile, d: Document)
    ensures ProfileOf(ProfileText(p)) == Some(p)
    ensures '|' !in ProfileText(p) && OneLine(ProfileText(p))
    ensures '|' !in ShapeText(d) && OneLine(ShapeText(d))
    ensures d.Single? <==> ShapeText(d) == "record"
    ensures ShapeText(d) == "record" || ShapeText(d) == "collection"
    ensures '|' !in "!ocf/1" && OneLine("!ocf/1")
  {
  }

  lemma StreamLineReads(p: Profile, d: Document)
    ensures ReadStreamLine(StreamLine(p, ShapeText(d))) == Ok((p, d.Single?))
    ensures IsLine(StreamLine(p, ShapeText(d)))
  {
    var parts := ["!ocf/1", ProfileText(p), ShapeText(d)];
    ProfileReads(p, d);
    hide ProfileOf, ProfileText, ShapeText;
    Text.SplitCharJoined(parts, '|');
    JoinedOneLine(parts, "|");
    assert Text.Join(parts, "|") != "";
  }

  lemma NamesAreTokens(fields: seq<Field>, p: Profile)
    requires FieldsOk(fields)
    ensures forall i :: 0 <= i < |fields| ==> IsSchemaToken(WireNames(fields, p)[i])
    ensures Text.Distinct(WireNames(fields, p))
  {
    var names := WireNames(fields, p);
    forall i | 0 <= i < |fields| ensures IsSchemaToken(names[i]) {
      assert FieldOk(fields[i]);
    }
  }

  lemma VersionReads(version: nat)
    requires 1 <= version <= MAX_SAFE_INTEGER
    ensures ReadVersion(Text.IntegerText(version)) == Some(version)
  {
    Text.DecimalDenotes(version);
  }

  lemma TokenAndVersionRead(token: string, version: nat)
    requires IsSchemaToken(token) && 1 <= version <= MAX_SAFE_INTEGER
    ensures ReadTokenAndVersion(token + "/" + Text.IntegerText(version)) == Ok((token, version))
    ensures '=' !in token + "/" + Text.IntegerText(version) && OneLine(token + "/" + Text.IntegerText(version))
  {
    var text := Text.IntegerText(version);
    var part := token + "/" + text;
    TokenChars(token);
    NumberChars(version);
    VersionReads(version);
    hide IsSchemaToken, ReadVersion, Text.IntegerText;
    TokenExcludes(text, '/');
    FoundLast(token, '/', text);
    assert part == token + ['/'] + text && part[..|token|] == token && part[|token| + 1..] == text;
  }

  lemma SchemaLineReads(s: Schema, p: Profile)
    requires SchemaOk(s) && IsSchemaToken(TokenFor(s, p))
    ensures ReadSchemaLine(SchemaLine(s, p)) == Ok((TokenFor(s, p), VersionOf(s), WireNames(s.fields, p)))
    ensures IsLine(SchemaLine(s, p))
  {
    var names := WireNames(s.fields, p);
    NamesAreTokens(s.fields, p);
    forall i | 0 <= i < |names| ensures ',' !in names[i] && '=' !in names[i] && OneLine(names[i]) {
      TokenChars(names[i]);
    }
    hide IsSchemaToken, FieldsOk, WireName;
    var fields := Text.Join(names, ",");
    JoinedHasNo(names, ",", '=');
    JoinedOneLine(names, ",");
    Text.SplitCharJoined(names, ',');
    SchemaLineParts(TokenFor(s, p), VersionOf(s), names);
  }

  lemma LineHalves(part: string, fields: string)
    requires part != "" && '=' !in part && '=' !in fields
    ensures var line := "@" + part + "=" + fields;
            && FirstIndex(line, '=') == LastIndex(line, '=') == Some(|part| + 1)
            && line[0] == '@' && line[1..|part| + 1] == part && line[|part| + 2..] == fields
  {
    var front := "@" + part;
    assert "@" + part + "=" + fields == front + ['='] + fields;
    FoundFirst(front, '=', fields);
    FoundLast(front, '=', fields);
  }

  lemma HalvesRead(part: string, fields: string, token: string, version: nat, names: seq<string>)
    requires part != "" && '=' !in part && '=' !in fields && ReadTokenAndVersion(part) == Ok((token, version))
    requires Text.SplitChar(fields, ',', "") == names && Text.Distinct(names)
    requires forall i :: 0 <= i < |names| ==> IsSchemaToken(names[i])
    ensures ReadSchemaLine("@" + part + "=" + fields) == Ok((token, version, names))
  {
    hide IsSchemaToken, ReadTokenAndVersion, Text.SplitChar, Text.Distinct, FirstIndex, LastIndex;
    LineHalves(part, fields);
  }

  lemma SchemaLineParts(token: string, version: nat, names: seq<string>)
    requires IsSchemaToken(token) && 1 <= version <= MAX_SAFE_INTEGER
    requires forall i :: 0 <= i < |names| ==> IsSchemaToken(names[i])
    requires Text.Distinct(names) && Text.SplitChar(Text.Join(names, ","), ',', "") == names
    requires '=' !in Text.Join(names, ",") && OneLine(Text.Join(names, ","))
    ensures var line := "@" + token + "/" + Text.IntegerText(version) + "=" + Text.Join(names, ",");
            ReadSchemaLine(line) == Ok((token, version, names)) && IsLine(line)
  {
    hide IsSchemaToken, ReadTokenAndVersion, ReadSchemaLine, Text.Join, Text.SplitChar, Text.IntegerText, Text.Distinct;
    var part, fields := token + "/" + Text.IntegerText(version), Text.Join(names, ",");
    TokenAndVersionRead(token, version);
    HalvesRead(part, fields, token, version, names);
    assert "@" + token + "/" + Text.IntegerText(version) + "=" + fields == "@" + part + "=" + fields;
  }

  // ----- Fields -----

  lemma NormalizeKind(v: Value, t: FieldType)
    ensures TypeMatches(OcfRoundTrip.Normalize(v), t) <==> TypeMatches(v, t)
  {
    if v.Obj? && !IsReference(v) {
      OcfRoundTrip.NormalizeKeepsKind(v);
    }
  }

  /** A field accepts a value however its references spell their schema. */
  lemma StillAccepted(f: Field, v: Value)
    requires FieldAccepts(f, v)
    ensures FieldAccepts(f, OcfRoundTrip.Normalize(v))
  {
    var w := OcfRoundTrip.Normalize(v);
    NormalizeKind(v, if f.kind.Some? then f.kind.value else UnknownType);
    if v.Arr? && f.itemKind.Some? {
      forall i | 0 <= i < |v.items| ensures TypeMatches(w.items[i], f.itemKind.value) {
        NormalizeKind(v.items[i], f.itemKind.value);
      }
    }
  }

  lemma WireReads(f: Field, v: Value)
    requires FieldOk(f) && ToWire(f, v).Ok?
    ensures FromWire(f, OcfRoundTrip.Normalize(ToWire(f, v).value))
         == Ok(if InheritsPrototype(f, v) then Obj(map[]) else OcfRoundTrip.Normalize(v))
  {
    WireRoundTrip(f, v);
    if InheritsPrototype(f, v) {
      assert OcfRoundTrip.Normalize(Obj(map[])) == Obj(map[]);
    }
  }

  /** A field reads back what it was sent, unless that was the inherited prototype. */
  lemma FieldReads(f: Field, record: Record)
    requires FieldOk(f) && FieldFault(f, record).None? && FieldText(f, record).Ok?
    ensures ReadField(FieldText(f, record).value, f) == Ok(OcfRoundTrip.Normalize(record[f.name]))
       <==> !InheritsPrototype(f, record[f.name])
  {
    var v := record[f.name];
    var wire := ToWire(f, v).value;
    OcfRoundTrip.ParsePrint(wire);
    StillAccepted(f, v);
    WireReads(f, v);
    hide ParseValue, Print, FieldAccepts, ToWire, FromWire, LookUp, ReferencesNamed, FieldOk;
    assert InheritsPrototype(f, v) ==> v.Str? && OcfRoundTrip.Normalize(v) == v;
  }

  /** What the field loop makes of the texts, field by field. */
  lemma {:induction false} FieldsRead(texts: seq<string>, fields: seq<Field>, record: Record)
    requires |texts| == |fields| && forall i, j :: 0 <= i < j < |fields| ==> fields[i].name != fields[j].name
    ensures ReadFields(texts, fields, record).Ok? <==> forall i :: 0 <= i < |fields| ==>
        ReadField(texts[i], fields[i]).Ok?
    ensures ReadFields(texts, fields, record).Ok? ==>
              var r := ReadFields(texts, fields, record).value;
              && (forall k :: k in r <==> k in record || HasField(fields, k))
              && (forall k :: k in record && !HasField(fields, k) ==> k in r && r[k] == record[k])
              && (forall i :: 0 <= i < |fields| ==>
                  fields[i].name in r && ReadField(texts[i], fields[i]) == Ok(r[fields[i].name]))
  {
    hide ReadField;
    if texts != [] && ReadField(texts[0], fields[0]).Ok? {
      var name := fields[0].name;
      FieldsRead(texts[1..], fields[1..], record[name := ReadField(texts[0], fields[0]).value]);
      SplitFields(fields, texts);
    }
  }

  lemma SplitFields(fields: seq<Field>, texts: seq<string>)
    requires |fields| == |texts| > 0
    ensures forall k :: HasField(fields, k) <==> k == fields[0].name || HasField(fields[1..], k)
    ensures (forall i :: 0 <= i < |fields| ==> ReadField(texts[i], fields[i]).Ok?)
       <==> ReadField(texts[0], fields[0]).Ok? && forall i :: 0 <= i < |fields[1..]| ==>
           ReadField(texts[1..][i], fields[1..][i]).Ok?
  {
    hide ReadField;
    forall k ensures HasField(fields, k) <==> k == fields[0].name || HasField(fields[1..], k) {
      if HasField(fields, k) && k != fields[0].name {
        var i :| 0 <= i < |fields| && fields[i].name == k;
        assert fields[1..][i - 1].name == k;
      }
      if HasField(fields[1..], k) {
        var i :| 0 <= i < |fields[1..]| && fields[1..][i].name == k;
        assert fields[i + 1].name == k;
      }
    }
    forall i | 0 < i < |fields| ensures fields[i] == fields[1..][i - 1] && texts[i] == texts[1..][i - 1] {
    }
  }

  lemma {:induction false} TextsSent(fields: seq<Field>, record: Record)
    requires FieldTexts(fields, record).Ok?
    ensures var texts := FieldTexts(fields, record).value;
            |texts| == |fields| && forall i :: 0 <= i < |fields| ==> FieldText(fields[i], record) == Ok(texts[i])
  {
    if fields != [] {
      TextsSent(fields[1..], record);
    }
  }

  lemma {:induction false} NoFault(fields: seq<Field>, record: Record)
    requires FieldsFault(fields, record).None?
    ensures forall i :: 0 <= i < |fields| ==> FieldFault(fields[i], record).None?
  {
    if fields != [] {
      NoFault(fields[1..], record);
    }
  }

  // ----- Records -----

  function NormalizeRecord(record: Record): Record
  {
    map k | k in record :: OcfRoundTrip.Normalize(record[k])
  }

  /** Some field of the record is sent as what its abbreviation table inherits. */
  ghost predicate SendsPrototype(s: Schema, record: Record)
  {
    exists i :: 0 <= i < |s.fields| && s.fields[i].name in record
        && InheritsPrototype(s.fields[i], record[s.fields[i].name])
  }

  lemma TextPasses(f: Field, record: Record)
    requires FieldText(f, record).Ok?
    ensures Scanner.Sealed(FieldText(f, record).value, '|') && OneLine(FieldText(f, record).value)
  {
    var wire := ToWire(f, record[f.name]).value;
    hide ToWire, ReferencesNamed, Serializable;
    OcfRoundTrip.PrintSkims(wire, '|', 0);
    PrintOneLine(wire);
  }

  /** The line of a record splits into its token and the texts of its fields. */
  lemma LineSplits(token: string, texts: seq<string>)
    requires IsSchemaToken(token) && texts != []
    requires forall i :: 0 <= i < |texts| ==> Scanner.Sealed(texts[i], '|') && OneLine(texts[i])
    ensures Scanner.Split(token + "|" + Text.Join(texts, "|"), '|') == Ok([token] + texts)
    ensures IsLine(token + "|" + Text.Join(texts, "|"))
  {
    var parts := [token] + texts;
    TokenPasses(token);
    hide IsSchemaToken, Scanner.Sealed, Scanner.SplitFrom, Text.Join, OneLine;
    Text.JoinCons(token, texts, "|");
    forall p | p in parts ensures Scanner.Sealed(p, '|') {
      var i :| 0 <= i < |parts| && parts[i] == p;
      assert i > 0 ==> p == texts[i - 1];
    }
    Scanner.SplitJoined(parts, '|', true);
    forall i | 0 <= i < |parts| ensures OneLine(parts[i]) {
      assert i > 0 ==> parts[i] == texts[i - 1];
    }
    assert OneLine("|") by { PipeOneLine(); }
    JoinedOneLine(parts, "|");
    LineIsOne(token + "|" + Text.Join(texts, "|"));
  }

  lemma TokenPasses(token: string)
    requires IsSchemaToken(token)
    ensures Scanner.Sealed(token, '|') && OneLine(token) && token != ""
  {
    TokenChars(token);
    OcfRoundTrip.PlainSkims(token, '|', 0);
  }

  lemma PipeOneLine()
    ensures OneLine("|")
  {
  }

  lemma LineIsOne(s: string)
    requires OneLine(s) && s != ""
    ensures IsLine(s)
  {
  }

  lemma FieldsKnown(s: Schema, record: Record)
    requires RecordFault(s, record).None?
    ensures forall k :: k in record <==> HasField(s.fields, k)
    ensures FieldsFault(s.fields, record).None?
  {
    NoFault(s.fields, record);
    forall k | HasField(s.fields, k) ensures k in record {
      var i :| 0 <= i < |s.fields| && s.fields[i].name == k;
      assert FieldFault(s.fields[i], record).None?;
    }
  }

  /** The field loop gives the record back exactly when every field does. */
  lemma RecordFills(s: Schema, record: Record, texts: seq<string>)
    requires SchemaOk(s) && RecordFault(s, record).None? && FieldTexts(s.fields, record) == Ok(texts)
    ensures |texts| == |s.fields|
    ensures ReadFields(texts, s.fields, map[]) == Ok(NormalizeRecord(record)) <==> !SendsPrototype(s, record)
  {
    var fields := s.fields;
    TextsSent(fields, record);
    FieldsKnown(s, record);
    NoFault(fields, record);
    FieldsRead(texts, fields, map[]);
    var result := ReadFields(texts, fields, map[]);
    forall i | 0 <= i < |fields|
      ensures ReadField(texts[i], fields[i]) == Ok(OcfRoundTrip.Normalize(record[fields[i].name]))
         <==> !InheritsPrototype(fields[i], record[fields[i].name])
    {
      assert FieldOk(fields[i]);
      FieldReads(fields[i], record);
    }
    hide ReadField, ReadFields, InheritsPrototype, FieldTexts, SchemaOk, RecordFault;
    if !SendsPrototype(s, record) {
      AllFieldsBack(fields, record, texts, result);
    }
    if result == Ok(NormalizeRecord(record)) {
      forall i | 0 <= i < |fields| ensures !InheritsPrototype(fields[i], record[fields[i].name]) {
        assert fields[i].name in record;
      }
    }
  }

  lemma AllFieldsBack(fields: seq<Field>, record: Record, texts: seq<string>, result: Result<Record, DocumentError>)
    requires |texts| == |fields| && result.Ok? && forall k :: k in record <==> HasField(fields, k)
    requires forall k :: k in result.value <==> HasField(fields, k)
    requires forall i :: 0 <= i < |fields| ==>
               && fields[i].name in result.value && fields[i].name in record
               && ReadField(texts[i], fields[i]) == Ok(result.value[fields[i].name])
               && ReadField(texts[i], fields[i]) == Ok(OcfRoundTrip.Normalize(record[fields[i].name]))
    ensures result.value == NormalizeRecord(record)
  {
    hide ReadField;
    forall k | k in record ensures result.value[k] == OcfRoundTrip.Normalize(record[k]) {
      var i :| 0 <= i < |fields| && fields[i].name == k;
      assert ReadField(texts[i], fields[i]) == Ok(result.value[k]);
    }
  }

  lemma RecordReads(s: Schema, token: string, record: Record)
    requires SchemaOk(s) && IsSchemaToken(token) && RecordFault(s, record).None? && RecordLine(s, token, record).Ok?
    ensures ReadRecord(RecordLine(s, token, record).value, token, s) == Ok(NormalizeRecord(record))
        <==> !SendsPrototype(s, record)
    ensures IsLine(RecordLine(s, token, record).value)
  {
    var texts := FieldTexts(s.fields, record).value;
    TextsSent(s.fields, record);
    RecordFills(s, record, texts);
    forall i | 0 <= i < |texts| ensures Scanner.Sealed(texts[i], '|') && OneLine(texts[i]) {
      TextPasses(s.fields[i], record);
    }
    hide IsSchemaToken, RecordFault, ReadFields, Scanner.Split, FieldTexts;
    assert texts != [];
    LineSplits(token, texts);
    assert ([token] + texts)[0] == token && ([token] + texts)[1..] == texts;
  }

  // ----- Documents -----

  function NormalizeRecords(records: seq<Record>): (r: seq<Record>)
    ensures |r| == |records| && forall i :: 0 <= i < |r| ==> r[i] == NormalizeRecord(records[i])
  {
    seq(|records|, i requires 0 <= i < |records| => NormalizeRecord(records[i]))
  }

  /** The document a reader sees: numeric `$ref`s come back as their decimal strings. */
  function NormalizeDocument(d: Document): Document
  {
    match d
    case Single(record) => Single(NormalizeRecord(record))
    case Collection(records) => Collection(NormalizeRecords(records))
  }

  ghost predicate AnySendsPrototype(s: Schema, records: seq<Record>)
  {
    exists i :: 0 <= i < |records| && SendsPrototype(s, records[i])
  }

  lemma FirstOrLater(s: Schema, records: seq<Record>)
    requires records != []
    ensures AnySendsPrototype(s, records) <==> SendsPrototype(s, records[0]) || AnySendsPrototype(s, records[1..])
  {
    hide SendsPrototype;
    if AnySendsPrototype(s, records) && !SendsPrototype(s, records[0]) {
      var i :| 0 <= i < |records| && SendsPrototype(s, records[i]);
      assert SendsPrototype(s, records[1..][i - 1]);
    }
    if AnySendsPrototype(s, records[1..]) {
      var i :| 0 <= i < |records[1..]| && SendsPrototype(s, records[1..][i]);
      assert SendsPrototype(s, records[i + 1]);
    }
  }

  lemma {:induction false} RecordsRead(s: Schema, token: string, records: seq<Record>)
    requires SchemaOk(s) && IsSchemaToken(token) && RecordsFault(s, records).None? && RecordLines(s, token, records).Ok?
    ensures var lines := RecordLines(s, token, records).value;
            && (forall i :: 0 <= i < |lines| ==> IsLine(lines[i]))
            && (ReadRecords(lines, token, s) == Ok(NormalizeRecords(records)) <==> !AnySendsPrototype(s, records))
  {
    hide SchemaOk, IsSchemaToken, RecordFault, RecordLine, ReadRecord, SendsPrototype, IsLine, NormalizeRecord;
    if records != [] {
      RecordReads(s, token, records[0]);
      RecordsRead(s, token, records[1..]);
      FirstOrLater(s, records);
      var line, rest := RecordLine(s, token, records[0]).value, RecordLines(s, token, records[1..]).value;
      assert RecordLines(s, token, records).value == [line] + rest && ([line] + rest)[1..] == rest;
      assert NormalizeRecords(records) == [NormalizeRecord(records[0])] + NormalizeRecords(records[1..]);
      SameFront(ReadRecord(line, token, s), ReadRecords(rest, token, s), NormalizeRecord(records[0]),
          NormalizeRecords(records[1..]));
    }
  }

  lemma SameFront(first: Result<Record, DocumentError>, rest: Result<seq<Record>, DocumentError>, r: Record,
      rs: seq<Record>)
    ensures first.Ok? && Prepend([first.value], rest) == Ok([r] + rs) <==> first == Ok(r) && rest == Ok(rs)
  {
    if first.Ok? && rest.Ok? && [first.value] + rest.value == [r] + rs {
      assert ([first.value] + rest.value)[0] == first.value && ([first.value] + rest.value)[1..] == rest.value;
      assert ([r] + rs)[0] == r && ([r] + rs)[1..] == rs;
    }
  }

  lemma LinesParse(lines: seq<string>)
    requires |lines| >= 2 && forall i :: 0 <= i < |lines| ==> IsLine(lines[i])
    ensures ParseLines(Text.Join(lines, "\n")) == Ok(lines)
  {
    JoinedLines(lines);
    var text := Text.Join(lines, "\n");
    assert text != "";
    hide LinesOf, Text.Join;
  }

  lemma HeadersRead(s: Schema, d: Document, p: Profile, lines: seq<string>)
    requires SchemaOk(s) && IsSchemaToken(TokenFor(s, p)) && |lines| >= 2
    requires lines[0] == StreamLine(p, ShapeText(d)) && lines[1] == SchemaLine(s, p)
    ensures ReadHeaders(lines) == Ok(Header(p, d.Single?, TokenFor(s, p), VersionOf(s), WireNames(s.fields, p)))
    ensures IsLine(lines[0]) && IsLine(lines[1])
  {
    StreamLineReads(p, d);
    SchemaLineReads(s, p);
    hide ReadStreamLine, ReadSchemaLine, StreamLine, SchemaLine, IsSchemaToken, SchemaOk;
  }

  /** The lines of an encoded document. */
  function LinesSent(s: Schema, d: Document, p: Profile): seq<string>
    requires RecordLines(s, TokenFor(s, p), RecordsOf(d)).Ok?
  {
    [StreamLine(p, ShapeText(d)), SchemaLine(s, p)] + RecordLines(s, TokenFor(s, p), RecordsOf(d)).value
  }

  lemma TextSent(s: Schema, d: Document, p: Profile)
    requires Encoded(s, d, p).Ok?
    ensures RecordsFault(s, RecordsOf(d)).None? && RecordLines(s, TokenFor(s, p), RecordsOf(d)).Ok?
    ensures Encoded(s, d, p).value == Text.Join(LinesSent(s, d, p), "\n")
  {
    hide RecordsFault, RecordLines, SchemaLine, StreamLine, Text.Join;
  }

  function HeaderSent(s: Schema, d: Document, p: Profile): Header
    requires SchemaOk(s)
  {
    Header(p, d.Single?, TokenFor(s, p), VersionOf(s), WireNames(s.fields, p))
  }

  lemma BodyReads(s: Schema, d: Document, p: Profile, lines: seq<string>)
    requires SchemaOk(s) && RecordLines(s, TokenFor(s, p), RecordsOf(d)).Ok? && lines == LinesSent(s, d, p)
    ensures DecodedBody(lines, HeaderSent(s, d, p), s) == Ok(NormalizeDocument(d))
       <==> ReadRecords(RecordLines(s, TokenFor(s, p), RecordsOf(d)).value, TokenFor(s, p), s)
            == Ok(NormalizeRecords(RecordsOf(d)))
  {
    hide RecordLines, ReadRecords, StreamLine, SchemaLine, TokenFor, NormalizeRecord;
    var token := TokenFor(s, p);
    assert lines[2..] == RecordLines(s, token, RecordsOf(d)).value;
    if d.Single? {
      OneRecordRead(s, token, d.record);
      var read := ReadRecords(lines[2..], token, s);
      assert read.Ok? ==> read.value == [read.value[0]];
    }
  }

  lemma SentLinesParse(s: Schema, d: Document, p: Profile)
    requires SchemaOk(s) && IsSchemaToken(TokenFor(s, p))
    requires RecordsFault(s, RecordsOf(d)).None? && RecordLines(s, TokenFor(s, p), RecordsOf(d)).Ok?
    ensures ParseLines(Text.Join(LinesSent(s, d, p), "\n")) == Ok(LinesSent(s, d, p))
    ensures ReadHeaders(LinesSent(s, d, p)) == Ok(HeaderSent(s, d, p))
  {
    hide IsSchemaToken, SchemaOk, RecordsFault, RecordLines, ReadRecords, ReadHeaders, StreamLine, SchemaLine, IsLine,
         ParseLines, AnySendsPrototype, NormalizeRecord, Text.Join, TokenFor;
    var token, lines := TokenFor(s, p), LinesSent(s, d, p);
    RecordsRead(s, token, RecordsOf(d));
    HeadersRead(s, d, p, lines);
    forall i | 0 <= i < |lines| ensures IsLine(lines[i]) {
      if i >= 2 {
        assert lines[i] == RecordLines(s, token, RecordsOf(d)).value[i - 2];
      }
    }
    LinesParse(lines);
  }

  lemma NamedSchemaReads(s: Schema, d: Document, p: Profile)
    requires SchemaOk(s) && IsSchemaToken(TokenFor(s, p)) && Encoded(s, d, p).Ok?
    ensures Decoded(Encoded(s, d, p).value, s) == Ok(NormalizeDocument(d)) <==> !AnySendsPrototype(s, RecordsOf(d))
  {
    TextSent(s, d, p);
    hide IsSchemaToken, SchemaOk, RecordsFault, RecordLines, ReadRecords, ReadHeaders, LinesSent, HeaderSent,
         ParseLines, AnySendsPrototype, Text.Join, DecodedBody, Encoded, TokenFor, NormalizeDocument;
    RecordsRead(s, TokenFor(s, p), RecordsOf(d));
    SentLinesParse(s, d, p);
    BodyReads(s, d, p, LinesSent(s, d, p));
  }

  lemma OneRecordRead(s: Schema, token: string, record: Record)
    requires RecordLines(s, token, [record]).Ok?
    ensures var read := ReadRecords(RecordLines(s, token, [record]).value, token, s); read.Ok? ==> |read.value| == 1
    ensures NormalizeRecords([record]) == [NormalizeRecord(record)]
  {
    hide RecordLine, ReadRecord, NormalizeRecord;
    assert [record][1..] == [];
    var line := RecordLine(s, token, record).value;
    assert [line] + [] == [line] && [line][1..] == [];
  }

  /** The stream would carry a string id that is no wire token. */
  predicate OddToken(s: Schema, p: Profile) { p.Dense? && s.id.TextId? && !IsSchemaToken(s.id.s) }

  /** A name is a wire token, and so is a numeric id; a string id need not be one. */
  lemma TokenUnlessOdd(s: Schema, p: Profile)
    requires SchemaOk(s)
    ensures IsSchemaToken(TokenFor(s, p)) <==> !OddToken(s, p)
  {
  }

  lemma HeaderDecides(text: string, s: Schema, d: Document, p: Profile)
    requires !IsSchemaToken(TokenFor(s, p)) && LinesOf(text) != [] && LinesOf(text)[0] == StreamLine(p, ShapeText(d))
    ensures Decoded(text, s).Err?
  {
    StreamLineReads(p, d);
    hide IsSchemaToken, LinesOf, StreamLine, ReadStreamLine, ReadSchemaLine, ReadRecords, TokenFor, HasCrLf;
  }

  /** A stream whose token is not a wire token cannot be read back at all. */
  lemma OddTokenFails(s: Schema, d: Document, p: Profile)
    requires SchemaOk(s) && OddToken(s, p) && Encoded(s, d, p).Ok?
    ensures Decoded(Encoded(s, d, p).value, s).Err?
  {
    TokenUnlessOdd(s, p);
    hide SchemaOk, OddToken;
    var text, first, second := Encoded(s, d, p).value, StreamLine(p, ShapeText(d)), SchemaLine(s, p);
    StreamLineReads(p, d);
    TextSent(s, d, p);
    hide IsSchemaToken, RecordsFault, RecordLines, SchemaLine, StreamLine, Encoded, Decoded, LinesOf, Text.Join,
        TokenFor;
    var rest := [second] + RecordLines(s, TokenFor(s, p), RecordsOf(d)).value;
    assert LinesSent(s, d, p) == [first] + rest;
    Text.JoinCons(first, rest, "\n");
    FirstLine(first, Text.Join(rest, "\n"));
    HeaderDecides(text, s, d, p);
  }

  /** Reading a stream gives back the document it was rendered from, numeric `$ref`s aside, exactly when the profile is
      not dense over an odd string id and no field was sent as what its abbreviation table inherits. */
  lemma DocumentRoundTrip(s: Schema, d: Document, p: Profile)
    requires SchemaOk(s) && Encoded(s, d, p).Ok?
    ensures Decoded(Encoded(s, d, p).value, s) == Ok(NormalizeDocument(d))
       <==> !OddToken(s, p) && !AnySendsPrototype(s, RecordsOf(d))
  {
    hide SchemaOk, Encoded, Decoded, AnySendsPrototype, NormalizeDocument, OddToken, IsSchemaToken;
    TokenUnlessOdd(s, p);
    if OddToken(s, p) {
      OddTokenFails(s, d, p);
    } else {
      NamedSchemaReads(s, d, p);
    }
  }

  // ----- What is accepted, and what comes back unchanged -----

  /** The field can be written at all: its references are named, and it is no string that its table inherits as a
      function. */
  predicate Writable(f: Field, v: Value)
  {
    ReferencesNamed(v) && !(f.values.Some? && v.Str? && LookUp(f.values.value, v.s).InheritedFunction?)
  }

  ghost predicate RecordWritable(s: Schema, record: Record)
  {
    forall i :: 0 <= i < |s.fields| && s.fields[i].name in record ==> Writable(s.fields[i], record[s.fields[i].name])
  }

  lemma FieldWrites(f: Field, record: Record)
    requires FieldFault(f, record).None?
    ensures FieldText(f, record).Ok? <==> Writable(f, record[f.name])
  {
  }

  lemma {:induction false} FieldsWrite(fields: seq<Field>, record: Record)
    requires FieldsFault(fields, record).None?
    ensures FieldTexts(fields, record).Ok?
       <==> forall i :: 0 <= i < |fields| && fields[i].name in record ==> Writable(fields[i], record[fields[i].name])
  {
    if fields != [] {
      FieldWrites(fields[0], record);
      FieldsWrite(fields[1..], record);
      hide FieldText, Writable, FieldFault;
      assert forall i :: 0 < i < |fields| ==> fields[i] == fields[1..][i - 1];
      assert forall i :: 0 <= i < |fields[1..]| ==> fields[1..][i] == fields[i + 1];
      assert fields[0].name in record by { NoFault(fields, record); FaultlessHas(fields[0], record); }
    }
  }

  lemma FaultlessHas(f: Field, record: Record)
    requires FieldFault(f, record).None?
    ensures f.name in record
  {
  }

  /** A document is encoded exactly when its records pass the check of their schema and every field can be written;
      the profile has no say in it. */
  lemma {:induction false} EncodesIff(s: Schema, d: Document, p: Profile)
    ensures Encoded(s, d, p).Ok?
       <==> RecordsFault(s, RecordsOf(d)).None? && forall i :: 0 <= i < |RecordsOf(d)| ==>
           RecordWritable(s, RecordsOf(d)[i])
  {
    hide RecordsFault, RecordLines, RecordWritable;
    if RecordsFault(s, RecordsOf(d)).None? {
      LinesWrite(s, TokenFor(s, p), RecordsOf(d));
    }
  }

  lemma {:induction false} LinesWrite(s: Schema, token: string, records: seq<Record>)
    requires RecordsFault(s, records).None?
    ensures RecordLines(s, token, records).Ok? <==> forall i :: 0 <= i < |records| ==> RecordWritable(s, records[i])
  {
    if records != [] {
      FieldsKnown(s, records[0]);
      FieldsWrite(s.fields, records[0]);
      LinesWrite(s, token, records[1..]);
      hide FieldTexts, RecordFault, RecordWritable, Writable;
      assert forall i :: 0 < i < |records| ==> records[i] == records[1..][i - 1];
      assert forall i :: 0 <= i < |records[1..]| ==> records[1..][i] == records[i + 1];
      assert FieldTexts(s.fields, records[0]).Ok?
          <==> RecordWritable(s, records[0]) by { WritableMeans(s, records[0]); }
    }
  }

  lemma WritableMeans(s: Schema, record: Record)
    ensures RecordWritable(s, record)
       <==> forall i :: 0 <= i < |s.fields| && s.fields[i].name in record ==>
           Writable(s.fields[i], record[s.fields[i].name])
  {
  }

  ghost predicate NamesByString(d: Document)
  {
    forall i, k :: 0 <= i < |RecordsOf(d)| && k in RecordsOf(d)[i] ==> OcfRoundTrip.StringReferences(RecordsOf(d)[i][k])
  }

  /** A document whose references all name their schema by a string comes back as it was. */
  lemma NormalizesToItself(d: Document)
    requires NamesByString(d)
    ensures NormalizeDocument(d) == d
  {
    forall i | 0 <= i < |RecordsOf(d)| ensures NormalizeRecord(RecordsOf(d)[i]) == RecordsOf(d)[i] {
      var record := RecordsOf(d)[i];
      forall k | k in record ensures NormalizeRecord(record)[k] == record[k] {
        OcfRoundTrip.NormalizeIdentity(record[k]);
      }
    }
    assert NormalizeRecords(RecordsOf(d)) == RecordsOf(d);
    if d.Single? {
      assert RecordsOf(d)[0] == d.record;
    }
  }

  function Abbreviated(): Schema
  {
    Schema(NumberId(1), "note", None, [Field("mark", None, None, None, None, Some([("open", "o")]))])
  }

  /** Not every accepted document comes back: a field with abbreviations takes the string `__proto__`, which it never
      declared, sends it as `{}`, and reads an empty object. */
  lemma PrototypeIsLost(p: Profile)
    ensures var d := Single(map["mark" := Str("__proto__")]);
            && SchemaOk(Abbreviated()) && Encoded(Abbreviated(), d, p).Ok?
            && Decoded(Encoded(Abbreviated(), d, p).value, Abbreviated()) != Ok(NormalizeDocument(d))
  {
    var s, record := Abbreviated(), map["mark" := Str("__proto__")];
    var d := Single(record);
    AbbreviatedOk();
    AbbreviatedAccepts(record);
    hide Abbreviated, SchemaOk, RecordFault, RecordWritable, SendsPrototype, Encoded, Decoded;
    assert [record][1..] == [];
    assert RecordsFault(s, []).None?;
    EncodesIff(s, d, p);
    DocumentRoundTrip(s, d, p);
    assert SendsPrototype(s, RecordsOf(d)[0]);
  }

  lemma AbbreviatedOk()
    ensures SchemaOk(Abbreviated())
  {
  }

  lemma AbbreviatedAccepts(record: Record)
    requires record == map["mark" := Str("__proto__")]
    ensures RecordFault(Abbreviated(), record).None? && RecordWritable(Abbreviated(), record)
    ensures SendsPrototype(Abbreviated(), record)
  {
    var s := Abbreviated();
    var f := s.fields[0];
    AbbreviatedLooksUp();
    hide LookUp;
    assert s.fields == [f] && [f][1..] == [];
    assert HasField(s.fields, "mark");
    assert FieldFault(f, record).None? && FieldsFault([f][1..], record).None?;
    assert FieldsFault([f], record).None?;
    assert InheritsPrototype(f, record[f.name]);
  }

  lemma AbbreviatedLooksUp()
    ensures LookUp([("open", "o")], "__proto__") == InheritedPrototype
  {
    var entries := [("open", "o")];
    assert entries[1..] == [];
    assert "open"[0] != "__proto__"[0];
  }

  /** A schema of one field that takes any string. */
  function Plain(id: SchemaId, name: string): Schema
  {
    Schema(id, name, Some(1), [Field("mark", None, None, None, None, None)])
  }

  function Marked(): Document { Single(map["mark" := Str("done")]) }

  lemma PlainEncodes(id: SchemaId, name: string, p: Profile)
    requires IdOk(id) && IsIdentifier(name)
    ensures SchemaOk(Plain(id, name)) && Encoded(Plain(id, name), Marked(), p).Ok?
  {
    var s, record := Plain(id, name), map["mark" := Str("done")];
    PlainOk(id, name);
    PlainAccepts(s, record);
    hide RecordFault, RecordWritable, Encoded, IsIdentifier, IdOk, SchemaOk, Plain;
    EncodesIff(s, Marked(), p);
    assert [record][1..] == [];
    assert RecordsFault(s, []).None?;
  }

  lemma PlainOk(id: SchemaId, name: string)
    requires IdOk(id) && IsIdentifier(name)
    ensures SchemaOk(Plain(id, name))
  {
    hide IdOk;
  }

  lemma PlainAccepts(s: Schema, record: Record)
    requires s == Plain(s.id, s.name) && record == map["mark" := Str("done")]
    ensures RecordFault(s, record).None? && RecordWritable(s, record)
  {
    var f := s.fields[0];
    assert s.fields == [f] && [f][1..] == [];
    assert HasField(s.fields, "mark");
    assert FieldFault(f, record).None? && FieldsFault([f][1..], record).None?;
    assert FieldsFault([f], record).None?;
  }

  /** Not every accepted schema can be read in the dense profile: its string id goes out as it is. */
  lemma OddIdIsUnreadable()
    ensures var s := Plain(TextId("two words"), "note");
            && SchemaOk(s) && Encoded(s, Marked(), Dense).Ok?
            && Decoded(Encoded(s, Marked(), Dense).value, s).Err?
  {
    hide SchemaOk, Encoded, Decoded;
    var s := Plain(TextId("two words"), "note");
    PlainEncodes(s.id, "note", Dense);
    assert "two words"[3] == ' ';
    assert OddToken(s, Dense);
    OddTokenFails(s, Marked(), Dense);
  }
}
