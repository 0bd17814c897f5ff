/** What a schema accepts, and streams and values written out. */
module OcfWire {
  import opened Outcomes
  import opened OcfValues
  import opened OcfSchemas
  import opened OcfDocuments
  import OcfDocumentLaws
  import JsonStrings
  import Text

  // ----- What a schema accepts -----

  /** The types a value is of; null is of none. */
  function TypesOf(v: Value): set<FieldType>
  {
    match v
    case Null => {}
    case Bool(_) => {BooleanType}
    case Num(_) => {NumberType, IntegerType}
    case BigInt(_) => {BigIntType}
    case Str(_) => {StringType}
    case Arr(_) => {ArrayType}
    case Obj(_) => if IsReference(v) then {ReferenceType} else {ObjectType}
  }

  predicate IsOf(v: Value, kind: Option<FieldType>)
  {
    kind.None? || kind.value == UnknownType || kind.value in TypesOf(v)
  }

  /** The string has an abbreviation, or is a name that every abbreviation object inherits. */
  predicate Abbreviates(entries: seq<(string, string)>, s: string)
  {
    (exists i :: 0 <= i < |entries| && entries[i].0 == s) || s == "__proto__" || s in INHERITED_FUNCTIONS
  }

  predicate Conforms(f: Field, v: Value)
  {
    if v == Null then f.nullable != Some(false)
    else
      && IsOf(v, f.kind)
      && (v.Arr? ==> forall item :: item in v.items ==> IsOf(item, f.itemKind))
      && (v.Str? && f.values.Some? ==> Abbreviates(f.values.value, v.s))
  }

  lemma TypesTold(v: Value, t: FieldType)
    ensures TypeMatches(v, t) <==> IsOf(v, Some(t))
  {
  }

  lemma {:induction false} FoundIff(entries: seq<(string, string)>, key: string)
    ensures Find(entries, key).Some? <==> exists i :: 0 <= i < |entries| && entries[i].0 == key
  {
    if entries != [] {
      FoundIff(entries[1..], key);
      if i :| 0 <= i < |entries| && entries[i].0 == key {
        assert i > 0 ==> entries[1..][i - 1].0 == key;
      }
      if i :| 0 <= i < |entries[1..]| && entries[1..][i].0 == key {
        assert entries[i + 1].0 == key;
      }
    }
  }

  lemma AcceptsWhatConforms(f: Field, v: Value)
    ensures FieldAccepts(f, v) <==> Conforms(f, v)
  {
    TypesTold(v, if f.kind.Some? then f.kind.value else UnknownType);
    if v.Arr? && f.itemKind.Some? {
      forall i | 0 <= i < |v.items|
        ensures TypeMatches(v.items[i], f.itemKind.value) <==> IsOf(v.items[i], f.itemKind)
      {
        TypesTold(v.items[i], f.itemKind.value);
      }
    }
    if v.Str? && f.values.Some? {
      FoundIff(f.values.value, v.s);
    }
    hide TypeMatches, TypesOf, Find;
  }

  /** The record has the fields of the schema and no others, each with a safe value that conforms. */
  predicate RecordFits(s: Schema, record: Record)
  {
    && (forall k :: k in record ==> exists i :: 0 <= i < |s.fields| && s.fields[i].name == k)
    && (forall i :: 0 <= i < |s.fields| ==>
          && s.fields[i].name in record && Serializable(record[s.fields[i].name])
          && Conforms(s.fields[i], record[s.fields[i].name]))
  }

  lemma {:induction false} FaultlessFields(fields: seq<Field>, record: Record)
    ensures FieldsFault(fields, record).None?
       <==> forall i :: 0 <= i < |fields| ==> FieldFault(fields[i], record).None?
  {
    hide FieldFault;
    if fields != [] {
      FaultlessFields(fields[1..], record);
      assert forall i :: 0 < i < |fields| ==> fields[i] == fields[1..][i - 1];
      assert forall i :: 0 <= i < |fields[1..]| ==> fields[1..][i] == fields[i + 1];
    }
  }

  lemma {:induction false} FaultlessRecords(s: Schema, records: seq<Record>)
    ensures RecordsFault(s, records).None?
       <==> forall i :: 0 <= i < |records| ==> RecordFault(s, records[i]).None?
  {
    hide RecordFault;
    if records != [] {
      FaultlessRecords(s, records[1..]);
      assert forall i :: 0 < i < |records| ==> records[i] == records[1..][i - 1];
      assert forall i :: 0 <= i < |records[1..]| ==> records[1..][i] == records[i + 1];
    }
  }

  lemma RecordAccepted(s: Schema, record: Record)
    ensures RecordFault(s, record).None? <==> RecordFits(s, record)
  {
    FaultlessFields(s.fields, record);
    forall i | 0 <= i < |s.fields| && s.fields[i].name in record
      ensures FieldAccepts(s.fields[i], record[s.fields[i].name]) <==> Conforms(s.fields[i], record[s.fields[i].name])
    {
      AcceptsWhatConforms(s.fields[i], record[s.fields[i].name]);
    }
    hide FieldAccepts, Conforms, Serializable;
  }

  /** The codec checks every record before it writes one: what it encodes fits its schema, in each profile. */
  lemma EncodedFits(s: Schema, d: Document, p: Profile, i: nat)
    requires Encoded(s, d, p).Ok? && i < |RecordsOf(d)|
    ensures RecordFits(s, RecordsOf(d)[i])
  {
    FaultlessRecords(s, RecordsOf(d));
    RecordAccepted(s, RecordsOf(d)[i]);
    hide RecordFits, RecordFault, Rendered;
  }

  // ----- Values written out -----

  predicate IsPlain(s: string) { forall i :: 0 <= i < |s| ==> IsAlphanumeric(s[i]) || s[i] == ' ' }

  lemma {:induction false} PlainUnescaped(s: string)
    requires IsPlain(s)
    ensures JsonStrings.EscapeAll(s) == s
  {
    if s != "" {
      PlainUnescaped(s[1..]);
      assert s == [s[0]] + s[1..];
    }
  }

  /** Letters and digits are written bare; a blank among them makes for quotes. */
  lemma StringWritten(s: string)
    requires IsPlain(s) && s != "" && s[0] != ' '
    ensures Print(Str(s)) == if ' ' in s then "\"" + s + "\"" else s
  {
    PlainUnescaped(s);
    hide JsonStrings.EscapeAll;
    if ' ' in s {
      var i :| 0 <= i < |s| && s[i] == ' ';
      assert !IsBareChar(s[i]);
    }
  }

  lemma ScalarsWritten(n: SafeInteger, big: int)
    ensures Print(Null) == "~" && Print(Bool(true)) == "!t" && Print(Bool(false)) == "!f"
    ensures Print(Num(n)) == "#" + Text.IntegerText(n) && Print(BigInt(big)) == "#" + Text.IntegerText(big) + "n"
    ensures Text.IntegerText(1) == "1" && Text.IntegerText(-1) == "-1" && Text.IntegerText(103) == "103"
  {
    assert Text.Decimal(10) == "10";
    assert Text.Decimal(103) == "103";
  }

  /** A reference is a sigil, the schema it names and its id. */
  lemma ReferenceWritten(token: string, id: Value)
    requires IsScalar(id)
    ensures Print(Reference(token, id)) == "&" + token + ":" + Print(id)
  {
    var v := Reference(token, id);
    assert v.fields.Keys == {"$ref", "id"};
    assert "$ref" != "id" by { assert |"$ref"| != |"id"|; }
  }

  /** Every part with the separator in front of it. */
  function Led(parts: seq<string>, separator: string): string
  {
    if parts == [] then "" else separator + parts[0] + Led(parts[1..], separator)
  }

  lemma {:induction false} JoinIsLed(first: string, rest: seq<string>, separator: string)
    ensures Text.Join([first] + rest, separator) == first + Led(rest, separator)
    decreases |rest|
  {
    if rest != [] {
      Text.JoinCons(first, rest, separator);
      JoinIsLed(rest[0], rest[1..], separator);
      assert rest == [rest[0]] + rest[1..];
    }
  }

  function Texts(items: seq<Value>): seq<string>
  {
    if items == [] then [] else [Print(items[0])] + Texts(items[1..])
  }

  lemma {:induction false} TextsAre(items: seq<Value>)
    ensures Texts(items) == PrintItems(Arr(items))
  {
    hide Print;
    if items != [] {
      TextsAre(items[1..]);
      assert Texts(items) == [Print(items[0])] + Texts(items[1..]);
    }
  }

  /** An array is its items in brackets, with commas between them. */
  lemma ArrayWritten(items: seq<Value>)
    ensures Print(Arr(items))
         == if items == [] then "[]" else "[" + (Print(items[0]) + Led(Texts(items[1..]), ",")) + "]"
  {
    TextsAre(items);
    assert Print(Arr(items)) == "[" + Text.Join(Texts(items), ",") + "]";
    if items != [] {
      JoinIsLed(Print(items[0]), Texts(items[1..]), ",");
    }
    hide Print;
  }

  function Properties(fields: map<string, Value>, keys: seq<string>): seq<string>
    requires forall k :: k in keys ==> k in fields
  {
    if keys == [] then []
    else
      ["\"" + JsonStrings.EscapeAll(keys[0]) + "\"" + ":" + Print(fields[keys[0]])] + Properties(fields, keys[1..])
  }

  lemma {:induction false} PropertiesAre(fields: map<string, Value>, keys: seq<string>)
    requires forall k :: k in keys ==> k in fields
    ensures Properties(fields, keys) == PrintFields(Obj(fields), keys)
  {
    hide Print, JsonStrings.EscapeAll;
    if keys != [] {
      PropertiesAre(fields, keys[1..]);
    }
  }

  /** An object is its properties in braces, in the order of their keys, each key quoted. */
  lemma ObjectWritten(fields: map<string, Value>)
    requires !IsReference(Obj(fields))
    ensures var keys := Text.SortedKeys(fields.Keys);
            && (fields == map[] ==> Print(Obj(fields)) == "{}")
            && (fields != map[] ==>
                  && keys != []
                  && var properties := Properties(fields, keys);
                     Print(Obj(fields)) == "{" + (properties[0] + Led(properties[1..], ",")) + "}")
    ensures forall i, j :: 0 <= i <= j < |fields| ==>
              Text.StringLeq(Text.SortedKeys(fields.Keys)[i], Text.SortedKeys(fields.Keys)[j])
  {
    var keys := Text.SortedKeys(fields.Keys);
    PropertiesAre(fields, keys);
    assert Print(Obj(fields)) == "{" + Text.Join(Properties(fields, keys), ",") + "}";
    forall i, j | 0 <= i <= j < |fields|
      ensures Text.StringLeq(Text.SortedKeys(fields.Keys)[i], Text.SortedKeys(fields.Keys)[j])
    {
      Text.SortedKeysInOrder(fields.Keys, i, j);
    }
    hide Print, Text.SortedKeys, JsonStrings.EscapeAll, IsReference;
    if fields != map[] {
      assert |fields.Keys| > 0 && keys != [];
      var properties := Properties(fields, keys);
      hide Properties, Text.Join;
      assert properties == [properties[0]] + properties[1..];
      JoinIsLed(properties[0], properties[1..], ",");
    }
  }

  // ----- Streams written out -----

  /** A declared abbreviation is what goes over the wire. */
  lemma AbbreviationSent(f: Field, i: nat)
    requires f.values.Some? && i < |f.values.value|
    requires forall j :: 0 <= j < i ==> f.values.value[j].0 != f.values.value[i].0
    ensures ToWire(f, Str(f.values.value[i].0)) == Ok(Str(f.values.value[i].1))
  {
    FoundFirst(f.values.value, i);
  }

  lemma {:induction false} FoundFirst(entries: seq<(string, string)>, i: nat)
    requires i < |entries| && forall j :: 0 <= j < i ==> entries[j].0 != entries[i].0
    ensures Find(entries, entries[i].0) == Some(entries[i].1)
  {
    if i > 0 {
      FoundFirst(entries[1..], i - 1);
    }
  }

  /** The text of a field is its value as written, or that of its abbreviation where the schema declares one. */
  lemma FieldWritten(fields: seq<Field>, record: Record, i: nat, j: nat)
    requires FieldTexts(fields, record).Ok? && i < |fields|
    ensures var texts, f := FieldTexts(fields, record).value, fields[i];
            && |texts| == |fields| && f.name in record
            && var v := record[f.name];
               && (f.values.None? || !v.Str? ==> texts[i] == Print(v))
               && (f.values.Some? && v.Str? && j < |f.values.value| && f.values.value[j].0 == v.s
                   && (forall k :: 0 <= k < j ==> f.values.value[k].0 != v.s) ==>
                     texts[i] == Print(Str(f.values.value[j].1)))
  {
    OcfDocumentLaws.TextsSent(fields, record);
    var f := fields[i];
    assert FieldText(f, record) == Ok(FieldTexts(fields, record).value[i]);
    if f.values.Some? && j < |f.values.value| && forall k :: 0 <= k < j ==> f.values.value[k].0 != f.values.value[j].0 {
      AbbreviationSent(f, j);
    }
    hide FieldTexts, Print, Serializable, ReferencesNamed;
  }

  /** A record: the token, and behind a bar each the text of every field, in the order of the schema. */
  function RowText(fields: seq<Field>, token: string, record: Record): string
    requires FieldTexts(fields, record).Ok?
  {
    token + Led(FieldTexts(fields, record).value, "|")
  }

  predicate RowsWrite(fields: seq<Field>, records: seq<Record>)
  {
    forall i :: 0 <= i < |records| ==> FieldTexts(fields, records[i]).Ok?
  }

  /** The records, each on a line of its own. */
  function Rows(fields: seq<Field>, token: string, records: seq<Record>): string
    requires RowsWrite(fields, records)
  {
    if records == [] then ""
    else
      assert RowsWrite(fields, records[1..]) by { FewerRows(fields, records); }
      "\n" + RowText(fields, token, records[0]) + Rows(fields, token, records[1..])
  }

  lemma FewerRows(fields: seq<Field>, records: seq<Record>)
    requires RowsWrite(fields, records) && records != []
    ensures RowsWrite(fields, records[1..])
  {
    assert forall i :: 0 <= i < |records[1..]| ==> records[1..][i] == records[i + 1];
  }

  /** What a schema calls itself in a profile, and its fields. */
  function NameIn(s: Schema, p: Profile): string
  {
    if p != Dense then s.name else if s.id.TextId? then s.id.s else Text.IntegerText(s.id.n)
  }

  function FieldNames(fields: seq<Field>, p: Profile): seq<string>
  {
    if fields == [] then []
    else
      var f := fields[0];
      [if p == Readable || f.alias.None? then f.name else f.alias.value] + FieldNames(fields[1..], p)
  }

  /** The two lines at the top of a stream. */
  function Heading(s: Schema, single: bool, p: Profile): string
    requires s.fields != []
  {
    var names := FieldNames(s.fields, p);
    "!ocf/1|" + (if p == Readable then "readable" else if p == Compact then "compact" else "dense")
    + (if single then "|record" else "|collection")
    + "\n@" + NameIn(s, p) + "/" + Text.IntegerText(if s.version.None? then 1 else s.version.value)
    + "=" + names[0] + Led(names[1..], ",")
  }

  lemma {:induction false} NamesAre(fields: seq<Field>, p: Profile)
    ensures FieldNames(fields, p) == WireNames(fields, p)
  {
    if fields != [] {
      NamesAre(fields[1..], p);
      var names, rest := WireNames(fields, p), WireNames(fields[1..], p);
      assert forall i :: 0 <= i < |rest| ==> names[i + 1] == rest[i];
      assert names == [WireName(fields[0], p)] + rest;
    }
  }

  lemma {:induction false} RowsAre(s: Schema, token: string, records: seq<Record>)
    requires s.fields != [] && RecordLines(s, token, records).Ok?
    ensures RowsWrite(s.fields, records)
    ensures Led(RecordLines(s, token, records).value, "\n") == Rows(s.fields, token, records)
  {
    hide FieldTexts;
    if records != [] {
      RowsAre(s, token, records[1..]);
      assert forall i :: 0 < i < |records| ==> records[i] == records[1..][i - 1];
      RowIs(s, token, records[0]);
      var line := RecordLine(s, token, records[0]).value;
      var rest := RecordLines(s, token, records[1..]).value;
      assert ([line] + rest)[1..] == rest;
      hide RecordLine, RowText;
    }
  }

  lemma RowIs(s: Schema, token: string, record: Record)
    requires s.fields != [] && RecordLine(s, token, record).Ok?
    ensures FieldTexts(s.fields, record).Ok?
    ensures RecordLine(s, token, record).value == RowText(s.fields, token, record)
  {
    hide FieldTexts;
    TextCount(s.fields, record);
    var texts := FieldTexts(s.fields, record).value;
    JoinIsLed(texts[0], texts[1..], "|");
    assert texts == [texts[0]] + texts[1..];
    hide Text.Join;
  }

  lemma TextCount(fields: seq<Field>, record: Record)
    requires fields != [] && FieldTexts(fields, record).Ok?
    ensures FieldTexts(fields, record).value != []
  {
  }

  lemma HeadingIs(s: Schema, d: Document, p: Profile)
    requires s.fields != []
    ensures StreamLine(p, ShapeText(d)) + "\n" + SchemaLine(s, p) == Heading(s, d.Single?, p)
  {
    hide Text.Join, StreamLine, FieldNames, Led, Text.IntegerText, Heading, WireNames;
    StreamLineIs(p, ShapeText(d));
    HeadingAs(s, d, p);
    var names, version := FieldNames(s.fields, p), Text.IntegerText(VersionOf(s));
    assert SchemaLine(s, p) == "@" + NameIn(s, p) + "/" + version + "=" + (names[0] + Led(names[1..], ",")) by {
      NamesAre(s.fields, p);
      assert names == [names[0]] + names[1..];
      JoinIsLed(names[0], names[1..], ",");
      assert TokenFor(s, p) == NameIn(s, p);
      hide NameIn;
    }
    hide SchemaLine, NameIn, ProfileText;
    HeadingJoins(ProfileText(p), ShapeText(d), NameIn(s, p), version, names[0], Led(names[1..], ","));
  }

  lemma HeadingAs(s: Schema, d: Document, p: Profile)
    requires s.fields != []
    ensures var names := FieldNames(s.fields, p);
            Heading(s, d.Single?, p)
            == "!ocf/1|" + ProfileText(p) + ("|" + ShapeText(d)) + "\n@" + NameIn(s, p) + "/"
               + Text.IntegerText(VersionOf(s)) + "=" + names[0] + Led(names[1..], ",")
  {
    hide FieldNames, Led, NameIn, Text.IntegerText;
    assert "|" + "record" == "|record" && "|" + "collection" == "|collection";
  }

  lemma StreamLineIs(p: Profile, shape: string)
    ensures StreamLine(p, shape) == "!ocf/1" + "|" + (ProfileText(p) + "|" + shape)
  {
    Text.JoinCons(ProfileText(p), [shape], "|");
    Text.JoinCons("!ocf/1", [ProfileText(p), shape], "|");
    assert [ProfileText(p)] + [shape] == [ProfileText(p), shape];
    assert ["!ocf/1"] + [ProfileText(p), shape] == ["!ocf/1", ProfileText(p), shape];
  }

  lemma HeadingJoins(profile: string, shape: string, token: string, version: string, name: string, names: string)
    ensures "!ocf/1" + "|" + (profile + "|" + shape) + "\n" + ("@" + token + "/" + version + "=" + (name + names))
         == "!ocf/1|" + profile + ("|" + shape) + "\n@" + token + "/" + version + "=" + name + names
  {
    assert "!ocf/1" + "|" == "!ocf/1|" && "\n" + "@" == "\n@";
  }

  /** The whole text of a stream, in every profile: the two lines of its heading, and then the records. */
  lemma StreamLayout(s: Schema, d: Document, p: Profile)
    requires SchemaOk(s) && Encoded(s, d, p).Ok?
    ensures RowsWrite(s.fields, RecordsOf(d))
    ensures Encoded(s, d, p).value == Heading(s, d.Single?, p) + Rows(s.fields, NameIn(s, p), RecordsOf(d))
  {
    hide RecordsFault, StreamLine, SchemaLine, RecordLines, Rows, Heading, Text.Join;
    assert TokenFor(s, p) == NameIn(s, p);
    var token, first, second := TokenFor(s, p), StreamLine(p, ShapeText(d)), SchemaLine(s, p);
    var lines := RecordLines(s, token, RecordsOf(d)).value;
    assert Encoded(s, d, p).value == Text.Join([first, second] + lines, "\n");
    hide Encoded, SchemaOk, TokenFor, NameIn;
    RowsAre(s, token, RecordsOf(d));
    assert [first, second] + lines == [first] + ([second] + lines);
    Text.JoinCons(first, [second] + lines, "\n");
    JoinIsLed(second, lines, "\n");
    HeadingIs(s, d, p);
  }
}
