/** The schema registry and the codec over it. */
module OcfCodecs {
  import opened Outcomes
  import opened OcfValues
  import opened OcfSchemas
  import opened OcfDocuments
  import OcfDocumentLaws
  import Scanner
  import Text
  import Tokens

  // ----- The registry, as a value -----

  datatype Registry = Registry(byName: map<string, Schema>, byId: map<SchemaId, Schema>)

  datatype Reference = BySchema(schema: Schema) | ByText(text: string) | ByNumber(n: int)

  /** The two tables hold the same normalized schemas. */
  ghost predicate Consistent(g: Registry)
  {
    && (forall n :: n in g.byName ==> Held(g, g.byName[n]) && g.byName[n].name == n)
    && (forall i :: i in g.byId ==> Held(g, g.byId[i]) && g.byId[i].id == i)
  }

  ghost predicate Held(g: Registry, s: Schema)
  {
    && SchemaOk(s) && s == Normalized(s)
    && s.name in g.byName && g.byName[s.name] == s && s.id in g.byId && g.byId[s.id] == s
  }

  function Registered(g: Registry, s: Schema): (Result<Schema, DocumentError>, Registry)
  {
    if !SchemaOk(s) then (Err(InvalidSchema), g)
    else
      var n := Normalized(s);
      if n.name in g.byName || n.id in g.byId then
        if n.name in g.byName && n.id in g.byId && g.byName[n.name] == n then (Ok(n), g) else (Err(DuplicateSchema), g)
      else (Ok(n), Registry(g.byName[n.name := n], g.byId[n.id := n]))
  }

  function ByNumericText(g: Registry, text: string): Option<Schema>
  {
    if text != "" && Text.AllDigits(text) && NumberId(Text.Digits(text)) in g.byId
    then Some(g.byId[NumberId(Text.Digits(text))])
    else None
  }

  function ByStringId(g: Registry, text: string): Option<Schema>
  {
    if TextId(text) in g.byId then Some(g.byId[TextId(text)]) else None
  }

  function OrUnknown(s: Option<Schema>): Result<Schema, DocumentError>
  {
    match s
    case Some(schema) => Ok(schema)
    case None => Err(UnknownSchema)
  }

  /** `resolve`, which registers a schema object that it does not know. */
  function Resolved(g: Registry, reference: Reference): (Result<Schema, DocumentError>, Registry)
  {
    match reference
    case BySchema(s) =>
      if s.name in g.byName && s.id in g.byId && g.byName[s.name] == g.byId[s.id]
      then (Ok(g.byName[s.name]), g) else Registered(g, s)
    case ByText(text) =>
      (OrUnknown(if text in g.byName then Some(g.byName[text])
                 else if ByStringId(g, text).Some? then ByStringId(g, text)
                 else ByNumericText(g, text)), g)
    case ByNumber(n) => (OrUnknown(if NumberId(n) in g.byId then Some(g.byId[NumberId(n)]) else None), g)
  }

  function ResolvedToken(g: Registry, token: string): Result<Schema, DocumentError>
  {
    OrUnknown(if token in g.byName then Some(g.byName[token])
              else if ByNumericText(g, token).Some? then ByNumericText(g, token)
              else ByStringId(g, token))
  }

  lemma RegisteringKeeps(g: Registry, s: Schema)
    requires Consistent(g)
    ensures Consistent(Registered(g, s).1)
    ensures forall h :: Held(g, h) ==> Held(Registered(g, s).1, h)
    ensures Registered(g, s).0.Ok? ==>
        Held(Registered(g, s).1, Normalized(s)) && Registered(g, s).0 == Ok(Normalized(s))
  {
    hide FieldsOk, IsIdentifier;
    var n, next := Normalized(s), Registered(g, s).1;
    if next != g {
      assert Held(next, n);
      forall h | Held(g, h) ensures Held(next, h) {
      }
    } else if Registered(g, s).0.Ok? {
      assert Held(g, g.byName[n.name]);
    }
  }

  /** Whatever is resolved or registered, the tables stay consistent and no schema they hold is ever replaced. */
  lemma ResolvingKeeps(g: Registry, reference: Reference)
    requires Consistent(g)
    ensures Consistent(Resolved(g, reference).1)
    ensures forall h :: Held(g, h) ==> Held(Resolved(g, reference).1, h)
    ensures Resolved(g, reference).0.Ok? ==> Held(Resolved(g, reference).1, Resolved(g, reference).0.value)
  {
    if reference.BySchema? {
      RegisteringKeeps(g, reference.schema);
    }
    hide SchemaOk;
  }

  /** Another schema answers to the token first. */
  predicate Shadowed(g: Registry, s: Schema, token: string)
  {
    || (token in g.byName && g.byName[token] != s)
    || (token !in g.byName && ByNumericText(g, token).Some? && ByNumericText(g, token).value != s)
  }

  /** The token a stream carries names its own schema to the registry, unless another schema answers to it first. */
  lemma TokenResolves(g: Registry, s: Schema, p: Profile)
    requires Consistent(g) && Held(g, s)
    ensures ResolvedToken(g, TokenFor(s, p)) == Ok(s) <==> !Shadowed(g, s, TokenFor(s, p))
  {
    hide SchemaOk;
    if p.Dense? && s.id.NumberId? {
      assert 0 <= s.id.n by { IdIsNatural(s); }
      Text.DecimalDenotes(s.id.n);
      assert ByNumericText(g, TokenFor(s, p)) == Some(s);
    }
  }

  lemma IdIsNatural(s: Schema)
    requires SchemaOk(s) && s.id.NumberId?
    ensures 0 <= s.id.n
  {
  }

  // ----- Encoding and decoding over a registry -----

  datatype Encoding = Encoding(text: string, profile: Profile, tokens: nat)

  function EncodedIn(s: Schema, d: Document, p: Profile): Result<Encoding, DocumentError>
  {
    match Encoded(s, d, p)
    case Err(e) => Err(e)
    case Ok(text) => Ok(Encoding(text, p, Tokens.Estimate(text)))
  }

  /** The first of the candidates sorted by tokens and, among equals, by profile. */
  function Lightest(a: Encoding, b: Encoding, c: Encoding): Encoding
  {
    if a.tokens <= b.tokens && a.tokens <= c.tokens then a else if b.tokens <= c.tokens then b else c
  }

  function Detailed(s: Schema, d: Document, requested: Option<Profile>): Result<Encoding, DocumentError>
  {
    if requested.Some? then EncodedIn(s, d, requested.value)
    else
      match (EncodedIn(s, d, Readable), EncodedIn(s, d, Compact), EncodedIn(s, d, Dense))
      case (Ok(a), Ok(b), Ok(c)) => Ok(Lightest(a, b, c))
      case (Err(e), _, _) => Err(e)
      case (Ok(_), Err(e), _) => Err(e)
      case (Ok(_), Ok(_), Err(e)) => Err(e)
  }

  /** What an adaptive encoding is: the text of one profile, which no profile beats and no simpler profile ties. */
  lemma AdaptiveIsLightest(s: Schema, d: Document)
    ensures forall p :: Detailed(s, d, None).Ok? <==> Encoded(s, d, p).Ok?
    ensures Detailed(s, d, None).Ok? ==>
              var r := Detailed(s, d, None).value;
              && Encoded(s, d, r.profile) == Ok(r.text) && r.tokens == Tokens.Estimate(r.text)
              && forall p :: Encoded(s, d, p).Ok? ==>
                   var other := Tokens.Estimate(Encoded(s, d, p).value);
                   r.tokens <= other && (Rank(p) < Rank(r.profile) ==> r.tokens < other)
  {
    OcfDocumentLaws.EncodesIff(s, d, Readable);
    OcfDocumentLaws.EncodesIff(s, d, Compact);
    OcfDocumentLaws.EncodesIff(s, d, Dense);
    hide Encoded, RecordsFault, OcfDocumentLaws.RecordWritable, Tokens.Estimate;
    forall p: Profile
      ensures Encoded(s, d, p).Ok? <==> Detailed(s, d, None).Ok?
      ensures Encoded(s, d, p).Ok? ==>
                var r, other := Detailed(s, d, None).value, Tokens.Estimate(Encoded(s, d, p).value);
                r.tokens <= other && (Rank(p) < Rank(r.profile) ==> r.tokens < other)
    {
      match p
      case Readable =>
      case Compact =>
      case Dense =>
    }
  }

  function Rank(p: Profile): nat
  {
    match p
    case Readable => 0
    case Compact => 1
    case Dense => 2
  }

  /** `decode`: the schema is the one asked for, or the one the token of the stream names. */
  function DecodedBy(g: Registry, text: string, reference: Option<Reference>)
    : (Result<Document, DocumentError>, Registry)
  {
    match ParseLines(text)
    case Err(e) => (Err(e), g)
    case Ok(lines) =>
      match ReadHeaders(lines)
      case Err(e) => (Err(e), g)
      case Ok(h) =>
        var (resolved, after) :=
          if reference.Some? then Resolved(g, reference.value) else (ResolvedToken(g, h.token), g);
        match resolved
        case Err(e) => (Err(e), after)
        case Ok(s) => (DecodedBody(lines, h, s), after)
  }

  /** A registry that holds the schema and is told of it, or finds it by the token of the stream, reads any encoding, in
      a requested profile or an adaptive one, back to its document exactly when the document alone allows it: when the
      token is no odd string id and no field was sent as what its abbreviation table inherits. */
  lemma CodecRoundTrip(g: Registry, s: Schema, d: Document, requested: Option<Profile>, told: bool)
    requires Consistent(g) && Held(g, s) && Detailed(s, d, requested).Ok?
    requires var p := Detailed(s, d, requested).value.profile;
             told || (!OcfDocumentLaws.OddToken(s, p) && !Shadowed(g, s, TokenFor(s, p)))
    ensures var r := Detailed(s, d, requested).value;
            && DecodedBy(g, r.text, if told then Some(BySchema(s)) else None).1 == g
            && (DecodedBy(g, r.text, if told then Some(BySchema(s)) else None).0
                == Ok(OcfDocumentLaws.NormalizeDocument(d))
                <==> !OcfDocumentLaws.OddToken(s, r.profile) && !OcfDocumentLaws.AnySendsPrototype(s, RecordsOf(d)))
  {
    hide Encoded, DecodedBy, Shadowed, OcfDocumentLaws.OddToken, OcfDocumentLaws.AnySendsPrototype,
         OcfDocumentLaws.NormalizeDocument, TokenFor, Held;
    if requested.None? {
      AdaptiveIsLightest(s, d);
    }
    var r := Detailed(s, d, requested).value;
    assert Encoded(s, d, r.profile) == Ok(r.text);
    assert SchemaOk(s) by { HeldIsOk(g, s); }
    hide Detailed, Consistent;
    OcfDocumentLaws.DocumentRoundTrip(s, d, r.profile);
    if told {
      ToldReads(g, s, r.text);
    } else {
      TokenResolves(g, s, r.profile);
      NamedReads(g, s, s, d, r.profile);
    }
  }

  lemma HeldIsOk(g: Registry, s: Schema)
    requires Held(g, s)
    ensures SchemaOk(s)
  {
  }

  /** A registry that is told of a schema it holds reads as that schema does. */
  lemma ToldReads(g: Registry, s: Schema, text: string)
    requires Held(g, s)
    ensures DecodedBy(g, text, Some(BySchema(s))) == (Decoded(text, s), g)
  {
    hide SchemaOk, ParseLines, ReadHeaders, DecodedBody;
  }

  /** A registry that is told nothing reads as the schema does that its tables give for the token. */
  lemma NamedReads(g: Registry, s: Schema, t: Schema, d: Document, p: Profile)
    requires SchemaOk(s) && Encoded(s, d, p).Ok? && !OcfDocumentLaws.OddToken(s, p)
    requires ResolvedToken(g, TokenFor(s, p)) == Ok(t)
    ensures DecodedBy(g, Encoded(s, d, p).value, None) == (Decoded(Encoded(s, d, p).value, t), g)
    ensures TokenFor(t, p) != TokenFor(s, p) ==> Decoded(Encoded(s, d, p).value, t) == Err(SchemaMismatch)
  {
    OcfDocumentLaws.TokenUnlessOdd(s, p);
    OcfDocumentLaws.TextSent(s, d, p);
    hide SchemaOk, IsSchemaToken, Encoded, ParseLines, ReadHeaders, ResolvedToken, ReadRecords, RecordsFault,
         RecordLines, OcfDocumentLaws.LinesSent, OcfDocumentLaws.OddToken, TokenFor, WireNames;
    OcfDocumentLaws.SentLinesParse(s, d, p);
  }

  /** The token of a stream whose schema another one shadows names that other schema, which refuses the stream: all but
      a schema whose number is what the string id spells, which reads the stream as its own. */
  lemma ShadowedReads(g: Registry, s: Schema, d: Document, p: Profile)
    requires Consistent(g) && Held(g, s) && Encoded(s, d, p).Ok?
    requires !OcfDocumentLaws.OddToken(s, p) && Shadowed(g, s, TokenFor(s, p))
    ensures var text, named := Encoded(s, d, p).value, ResolvedToken(g, TokenFor(s, p));
            && named.Ok? && named.value != s && DecodedBy(g, text, None) == (Decoded(text, named.value), g)
            && ((named.value.id.NumberId? && s.id == TextId(IdText(named.value.id)))
                || Decoded(text, named.value) == Err(SchemaMismatch))
  {
    HeldIsOk(g, s);
    ShadowIs(g, s, p);
    hide Encoded, Decoded, DecodedBy, SchemaOk, Shadowed, Consistent, Held, OcfDocumentLaws.OddToken, TokenFor,
         ResolvedToken;
    NamedReads(g, s, ResolvedToken(g, TokenFor(s, p)).value, d, p);
  }

  lemma ShadowIs(g: Registry, s: Schema, p: Profile)
    requires Consistent(g) && Held(g, s) && Shadowed(g, s, TokenFor(s, p))
    ensures var named := ResolvedToken(g, TokenFor(s, p));
            && named.Ok? && named.value != s
            && (TokenFor(named.value, p) == TokenFor(s, p) ==>
                  named.value.id.NumberId? && s.id == TextId(IdText(named.value.id)))
  {
    TokenResolves(g, s, p);
    var t := ResolvedToken(g, TokenFor(s, p)).value;
    assert Held(g, t);
    assert p.Dense?;
    if TokenFor(t, p) == TokenFor(s, p) {
      assert IdText(t.id) == IdText(s.id);
      if s.id.NumberId? {
        NumbersAreUnshadowed(g, s);
      }
    }
    hide SchemaOk;
  }

  lemma NamesAreNoNumbers(g: Registry, name: string)
    requires Consistent(g) && name in g.byName
    ensures !Text.AllDigits(name)
  {
    assert Held(g, g.byName[name]);
    assert IsIdentifier(name) && IsLetter(name[0]);
    hide SchemaOk;
  }

  /** A number is no name, and the table of ids holds its own schema under it. */
  lemma NumbersAreUnshadowed(g: Registry, s: Schema)
    requires Consistent(g) && Held(g, s) && s.id.NumberId?
    ensures !Shadowed(g, s, IdText(s.id))
  {
    assert 0 <= s.id.n by { IdIsNatural(s); }
    Text.DecimalDenotes(s.id.n);
    var token := IdText(s.id);
    assert ByNumericText(g, token) == Some(s);
    if token in g.byName {
      NamesAreNoNumbers(g, token);
    }
  }

  /** A schema is registered under a string id, and then another under that string as its name. */
  function Alpha(): Schema { OcfDocumentLaws.Plain(TextId("beta"), "alpha") }

  function Beta(): Schema { OcfDocumentLaws.Plain(NumberId(1), "beta") }

  function Both(): Registry { Registered(Registered(Registry(map[], map[]), Alpha()).1, Beta()).1 }

  lemma BothHeld()
    ensures Both() == Registry(map["alpha" := Alpha(), "beta" := Beta()],
                               map[TextId("beta") := Alpha(), NumberId(1) := Beta()])
    ensures Consistent(Both()) && Held(Both(), Alpha()) && Held(Both(), Beta())
  {
    var empty := Registry(map[], map[]);
    AlphaOk();
    assert "alpha" != "beta" by { assert |"alpha"| != |"beta"|; }
    hide SchemaOk;
    RegisteringKeeps(empty, Alpha());
    RegisteringKeeps(Registered(empty, Alpha()).1, Beta());
  }

  lemma AlphaOk()
    ensures SchemaOk(Alpha()) && SchemaOk(Beta())
    ensures Normalized(Alpha()) == Alpha() && Normalized(Beta()) == Beta()
  {
  }

  /** The token of a dense stream of the one names the other, and the stream is refused. */
  lemma ShadowedStreamFails()
    ensures Encoded(Alpha(), OcfDocumentLaws.Marked(), Dense).Ok?
    ensures DecodedBy(Both(), Encoded(Alpha(), OcfDocumentLaws.Marked(), Dense).value, None).0 == Err(SchemaMismatch)
  {
    BothHeld();
    AlphaOk();
    OcfDocumentLaws.PlainEncodes(TextId("beta"), "alpha", Dense);
    assert Shadowed(Both(), Alpha(), "beta");
    assert !OcfDocumentLaws.OddToken(Alpha(), Dense);
    hide Both, SchemaOk, Encoded, Decoded, DecodedBy, Consistent, Held, Shadowed;
    ShadowedReads(Both(), Alpha(), OcfDocumentLaws.Marked(), Dense);
  }

  // ----- The classes -----

  class OcfSchemaRegistry {
    var byName: map<string, Schema>
    var byId: map<SchemaId, Schema>

    function View(): Registry reads this { Registry(byName, byId) }

    constructor ()
      ensures View() == Registry(map[], map[])
    {
      byName, byId := map[], map[];
    }

    method Register(s: Schema) returns (r: Result<Schema, DocumentError>)
      modifies this
      ensures (r, View()) == Registered(old(View()), s)
    {
      var normalized := NormalizeSchema(s);
      if normalized.Err? {
        return normalized;
      }
      var n := normalized.value;
      assert n.name == s.name && n.id == s.id;
      if n.name in byName || n.id in byId {
        if n.name in byName && n.id in byId && byName[n.name] == n {
          return Ok(byName[n.name]);
        }
        return Err(DuplicateSchema);
      }
      byName := byName[n.name := n];
      byId := byId[n.id := n];
      r := Ok(n);
    }

    method Resolve(reference: Reference) returns (r: Result<Schema, DocumentError>)
      modifies this
      ensures (r, View()) == Resolved(old(View()), reference)
    {
      match reference
      case BySchema(s) =>
        if s.name in byName && s.id in byId && byName[s.name] == byId[s.id] {
          return Ok(byName[s.name]);
        }
        r := Register(s);
      case ByText(text) =>
        if text in byName {
          return Ok(byName[text]);
        }
        if TextId(text) in byId {
          return Ok(byId[TextId(text)]);
        }
        if text != "" && Text.AllDigits(text) && NumberId(Text.Digits(text)) in byId {
          return Ok(byId[NumberId(Text.Digits(text))]);
        }
        r := Err(UnknownSchema);
      case ByNumber(n) =>
        r := if NumberId(n) in byId then Ok(byId[NumberId(n)]) else Err(UnknownSchema);
    }

    method ResolveWireToken(token: string) returns (r: Result<Schema, DocumentError>)
      ensures r == ResolvedToken(View(), token)
    {
      if token in byName {
        return Ok(byName[token]);
      }
      if token != "" && Text.AllDigits(token) && NumberId(Text.Digits(token)) in byId {
        return Ok(byId[NumberId(Text.Digits(token))]);
      }
      r := if TextId(token) in byId then Ok(byId[TextId(token)]) else Err(UnknownSchema);
    }
  }

  lemma PrependTwice<T>(a: seq<T>, b: seq<T>, rest: Result<seq<T>, DocumentError>)
    ensures Prepend(a, Prepend(b, rest)) == Prepend(a + b, rest)
    ensures Prepend([], rest) == rest && (rest == Ok([]) ==> Prepend(a, rest) == Ok(a))
  {
    if rest.Ok? {
      assert a + (b + rest.value) == a + b + rest.value && [] + rest.value == rest.value;
      assert a + [] == a;
    }
  }

  method FieldTextLoop(fields: seq<Field>, record: Record) returns (r: Result<seq<string>, DocumentError>)
    ensures r == FieldTexts(fields, record)
  {
    hide FieldText;
    var values: seq<string> := [];
    PrependTwice([], [], FieldTexts(fields, record));
    assert fields[0..] == fields;
    for i := 0 to |fields|
      invariant FieldTexts(fields, record) == Prepend(values, FieldTexts(fields[i..], record))
    {
      assert fields[i..][0] == fields[i] && fields[i..][1..] == fields[i + 1..];
      var text := FieldText(fields[i], record);
      if text.Err? {
        return Err(text.error);
      }
      PrependTwice(values, [text.value], FieldTexts(fields[i + 1..], record));
      values := values + [text.value];
    }
    assert fields[|fields|..] == [];
    PrependTwice(values, [], FieldTexts([], record));
    r := Ok(values);
  }

  /** `render`: the lines of a stream, pushed one by one. */
  method Render(s: Schema, d: Document, p: Profile) returns (r: Result<string, DocumentError>)
    ensures r == Rendered(s, d, p)
  {
    hide FieldTexts, StreamLine, SchemaLine, Text.Join, TokenFor;
    var token, records := TokenFor(s, p), RecordsOf(d);
    ghost var sent := RecordLines(s, token, records);
    var lines := [StreamLine(p, ShapeText(d)), SchemaLine(s, p)];
    ghost var all := Prepend(lines, sent);
    assert records[0..] == records;
    for i := 0 to |records|
      invariant all == Prepend(lines, RecordLines(s, token, records[i..]))
    {
      assert records[i..][0] == records[i] && records[i..][1..] == records[i + 1..];
      var values := FieldTextLoop(s.fields, records[i]);
      if values.Err? {
        return Err(values.error);
      }
      var line := token + "|" + Text.Join(values.value, "|");
      PrependTwice(lines, [line], RecordLines(s, token, records[i + 1..]));
      lines := lines + [line];
    }
    assert records[|records|..] == [];
    PrependTwice(lines, [], RecordLines(s, token, []));
    r := Ok(Text.Join(lines, "\n"));
  }

  /** One record line of `decode`: the record is filled field by field. */
  method ReadLine(line: string, token: string, s: Schema) returns (r: Result<Record, DocumentError>)
    ensures r == ReadRecord(line, token, s)
  {
    hide ReadField;
    var split := Scanner.SplitLoop(line, '|', true);
    if split.Err? {
      return Err(MalformedRecord);
    }
    var parts := split.value;
    Scanner.PartsFit(line, '|', true, Scanner.Top, "");
    if parts[0] != token {
      return Err(SchemaMismatch);
    }
    if |parts| != |s.fields| + 1 {
      return Err(FieldCount);
    }
    ghost var texts := parts[1..];
    var record: Record := map[];
    assert texts[0..] == texts && s.fields[0..] == s.fields;
    for i := 0 to |s.fields|
      invariant ReadFields(texts, s.fields, map[]) == ReadFields(texts[i..], s.fields[i..], record)
    {
      var field, encoded := s.fields[i], parts[i + 1];
      assert texts[i..][0] == encoded && texts[i..][1..] == texts[i + 1..];
      assert s.fields[i..][0] == field && s.fields[i..][1..] == s.fields[i + 1..];
      var value := ReadField(encoded, field);
      if value.Err? {
        return Err(value.error);
      }
      record := record[field.name := value.value];
    }
    r := Ok(record);
  }

  method ReadBody(lines: seq<string>, h: Header, s: Schema) returns (r: Result<Document, DocumentError>)
    requires |lines| >= 2
    ensures r == DecodedBody(lines, h, s)
  {
    hide HeaderFault, ReadRecord, TokenFor;
    var fault := HeaderFault(h, s);
    if fault.Some? {
      return Err(fault.value);
    }
    var token := TokenFor(s, h.profile);
    var records: seq<Record> := [];
    PrependTwice([], [], ReadRecords(lines[2..], token, s));
    for i := 2 to |lines|
      invariant ReadRecords(lines[2..], token, s) == Prepend(records, ReadRecords(lines[i..], token, s))
    {
      assert lines[i..][0] == lines[i] && lines[i..][1..] == lines[i + 1..];
      var record := ReadLine(lines[i], token, s);
      if record.Err? {
        return Err(record.error);
      }
      PrependTwice(records, [record.value], ReadRecords(lines[i + 1..], token, s));
      records := records + [record.value];
    }
    assert lines[|lines|..] == [];
    PrependTwice(records, [], ReadRecords([], token, s));
    if !h.single {
      return Ok(Collection(records));
    }
    r := if |records| != 1 then Err(RecordCount) else Ok(Single(records[0]));
  }

  class OCF {
    const registry: OcfSchemaRegistry

    constructor (registry: OcfSchemaRegistry)
      ensures this.registry == registry
    {
      this.registry := registry;
    }

    method EncodeProfile(s: Schema, d: Document, p: Profile) returns (r: Result<Encoding, DocumentError>)
      requires RecordsFault(s, RecordsOf(d)).None?
      ensures r == EncodedIn(s, d, p)
    {
      hide Rendered, RecordsFault;
      var text := Render(s, d, p);
      r := match text { case Err(e) => Err(e) case Ok(t) => Ok(Encoding(t, p, Tokens.Estimate(t))) };
    }

    method EncodeDetailed(d: Document, reference: Reference, requested: Option<Profile>)
      returns (r: Result<Encoding, DocumentError>)
      modifies registry
      ensures var (resolved, after) := Resolved(old(registry.View()), reference);
              && registry.View() == after
              && r == match resolved { case Err(e) => Err(e) case Ok(s) => Detailed(s, d, requested) }
    {
      hide Rendered, RecordsFault, Resolved;
      var resolved := registry.Resolve(reference);
      if resolved.Err? {
        return Err(resolved.error);
      }
      var s := resolved.value;
      var fault := RecordsFault(s, RecordsOf(d));
      if fault.Some? {
        return Err(fault.value);
      }
      if requested.Some? {
        r := EncodeProfile(s, d, requested.value);
        return;
      }
      var candidates: seq<Encoding> := [];
      ghost var known := registry.View();
      for i := 0 to 3
        invariant registry.View() == known
        invariant |candidates| == i
        invariant i > 0 ==> EncodedIn(s, d, Readable) == Ok(candidates[0])
        invariant i > 1 ==> EncodedIn(s, d, Compact) == Ok(candidates[1])
        invariant i > 2 ==> EncodedIn(s, d, Dense) == Ok(candidates[2])
      {
        var p := if i == 0 then Readable else if i == 1 then Compact else Dense;
        var candidate := EncodeProfile(s, d, p);
        if candidate.Err? {
          return Err(candidate.error);
        }
        candidates := candidates + [candidate.value];
      }
      r := Ok(Lightest(candidates[0], candidates[1], candidates[2]));
    }

    method Decode(text: string, reference: Option<Reference>) returns (r: Result<Document, DocumentError>)
      modifies registry
      ensures (r, registry.View()) == DecodedBy(old(registry.View()), text, reference)
    {
      hide ParseLines, ReadHeaders, DecodedBody, Resolved, ResolvedToken;
      var lines := ParseLines(text);
      if lines.Err? {
        return Err(lines.error);
      }
      var header := ReadHeaders(lines.value);
      if header.Err? {
        return Err(header.error);
      }
      var resolved;
      if reference.None? {
        resolved := registry.ResolveWireToken(header.value.token);
      } else {
        resolved := registry.Resolve(reference.value);
      }
      if resolved.Err? {
        return Err(resolved.error);
      }
      r := ReadBody(lines.value, header.value, resolved.value);
    }
  }
}
