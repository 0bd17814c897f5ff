/** OCF/1 streams: records of a schema rendered as lines of text, and the strict reader of those lines. */
module OcfDocuments {
  import opened Outcomes
  import opened OcfValues
  import opened OcfLines
  import opened OcfSchemas
  import Scanner
  import Text

  type Record = map<string, Value>

  datatype Profile = Readable | Compact | Dense

  datatype Document = Single(record: Record) | Collection(records: seq<Record>)

  function RecordsOf(d: Document): seq<Record>
  {
    match d
    case Single(record) => [record]
    case Collection(records) => records
  }

  function ProfileText(p: Profile): string
  {
    match p
    case Readable => "readable"
    case Compact => "compact"
    case Dense => "dense"
  }

  function ShapeText(d: Document): string { if d.Single? then "record" else "collection" }

  /** `schemaTokenFor`. */
  function TokenFor(s: Schema, p: Profile): string { if p.Dense? then IdText(s.id) else s.name }

  function WireName(f: Field, p: Profile): string { if p.Readable? then f.name else AliasOf(f) }

  function WireNames(fields: seq<Field>, p: Profile): (r: seq<string>)
    ensures |r| == |fields| && forall i :: 0 <= i < |r| ==> r[i] == WireName(fields[i], p)
  {
    seq(|fields|, i requires 0 <= i < |fields| => WireName(fields[i], p))
  }

  // ----- Encoding -----

  function FieldFault(f: Field, record: Record): Option<DocumentError>
  {
    if f.name !in record then Some(InvalidRecord)
    else if !Serializable(record[f.name]) then Some(BadValue(UnsafeKey))
    else if !FieldAccepts(f, record[f.name]) then Some(InvalidFieldValue)
    else None
  }

  function FieldsFault(fields: seq<Field>, record: Record): Option<DocumentError>
  {
    if fields == [] then None
    else if FieldFault(fields[0], record).Some? then FieldFault(fields[0], record)
    else FieldsFault(fields[1..], record)
  }

  predicate HasField(fields: seq<Field>, key: string) { exists i :: 0 <= i < |fields| && fields[i].name == key }

  /** What `assertRecord` finds wrong. */
  function RecordFault(s: Schema, record: Record): Option<DocumentError>
  {
    if exists key :: key in record && !HasField(s.fields, key) then Some(InvalidRecord)
    else FieldsFault(s.fields, record)
  }

  function RecordsFault(s: Schema, records: seq<Record>): Option<DocumentError>
  {
    if records == [] then None
    else if RecordFault(s, records[0]).Some? then RecordFault(s, records[0])
    else RecordsFault(s, records[1..])
  }

  function FieldText(f: Field, record: Record): Result<string, DocumentError>
  {
    if f.name !in record then Err(InvalidRecord)
    else
      match ToWire(f, record[f.name])
      case Err(e) => Err(e)
      case Ok(wire) =>
        match EncodeValue(wire)
        case Err(e) => Err(BadValue(e))
        case Ok(text) => Ok(text)
  }

  function FieldTexts(fields: seq<Field>, record: Record): Result<seq<string>, DocumentError>
  {
    if fields == [] then Ok([])
    else
      match FieldText(fields[0], record)
      case Err(e) => Err(e)
      case Ok(text) => Prepend([text], FieldTexts(fields[1..], record))
  }

  function Prepend<T>(front: seq<T>, rest: Result<seq<T>, DocumentError>): Result<seq<T>, DocumentError>
  {
    match rest
    case Err(e) => Err(e)
    case Ok(items) => Ok(front + items)
  }

  function RecordLine(s: Schema, token: string, record: Record): Result<string, DocumentError>
  {
    match FieldTexts(s.fields, record)
    case Err(e) => Err(e)
    case Ok(texts) => Ok(token + "|" + Text.Join(texts, "|"))
  }

  function RecordLines(s: Schema, token: string, records: seq<Record>): Result<seq<string>, DocumentError>
  {
    if records == [] then Ok([])
    else
      match RecordLine(s, token, records[0])
      case Err(e) => Err(e)
      case Ok(line) => Prepend([line], RecordLines(s, token, records[1..]))
  }

  function StreamLine(p: Profile, shape: string): string
  {
    Text.Join(["!ocf/1", ProfileText(p), shape], "|")
  }

  function SchemaLine(s: Schema, p: Profile): string
  {
    "@" + TokenFor(s, p) + "/" + Text.IntegerText(VersionOf(s)) + "=" + Text.Join(WireNames(s.fields, p), ",")
  }

  function Rendered(s: Schema, d: Document, p: Profile): Result<string, DocumentError>
  {
    match Prepend([StreamLine(p, ShapeText(d)), SchemaLine(s, p)], RecordLines(s, TokenFor(s, p), RecordsOf(d)))
    case Err(e) => Err(e)
    case Ok(lines) => Ok(Text.Join(lines, "\n"))
  }

  /** `encode` in one profile. */
  function Encoded(s: Schema, d: Document, p: Profile): Result<string, DocumentError>
  {
    match RecordsFault(s, RecordsOf(d))
    case Some(e) => Err(e)
    case None => Rendered(s, d, p)
  }

  // ----- Decoding -----

  datatype Header = Header(profile: Profile, single: bool, token: string, version: nat, fields: seq<string>)

  function ParseLines(text: string): (r: Result<seq<string>, DocumentError>)
    ensures r.Ok? ==> |r.value| >= 2 && forall i :: 0 <= i < |r.value| ==> r.value[i] != ""
  {
    if text == "" then Err(EmptyInput)
    else if '\r' in text && !HasCrLf(text) then Err(LineEndings)
    else
      var lines := LinesOf(text);
      if exists i :: 0 <= i < |lines| && lines[i] == "" then Err(BlankLine)
      else if |lines| < 2 then Err(TruncatedInput)
      else Ok(lines)
  }

  predicate HasCrLf(text: string) { exists i :: 0 <= i < |text| - 1 && text[i] == '\r' && text[i + 1] == '\n' }

  function ProfileOf(text: string): Option<Profile>
  {
    if text == "readable" then Some(Readable)
    else if text == "compact" then Some(Compact)
    else if text == "dense" then Some(Dense)
    else None
  }

  function ReadStreamLine(line: string): Result<(Profile, bool), DocumentError>
  {
    var parts := Text.SplitChar(line, '|', "");
    if |parts| != 3 || parts[0] != "!ocf/1" then Err(InvalidHeader)
    else if ProfileOf(parts[1]).None? then Err(InvalidProfile)
    else if parts[2] != "record" && parts[2] != "collection" then Err(InvalidShape)
    else Ok((ProfileOf(parts[1]).value, parts[2] == "record"))
  }

  /** `[1-9][0-9]*`, and no larger than a safe integer. */
  function ReadVersion(text: string): Option<nat>
  {
    if text == "" || text[0] == '0' || !Text.AllDigits(text) || Text.Digits(text) > MAX_SAFE_INTEGER then None
    else Some(Text.Digits(text))
  }

  function ReadSchemaLine(line: string): (r: Result<(string, nat, seq<string>), DocumentError>)
    ensures r.Ok? ==> IsSchemaToken(r.value.0)
  {
    if line == "" || line[0] != '@' then Err(InvalidSchemaHeader)
    else
      var equals := FirstIndex(line, '=');
      if equals.None? || equals.value <= 1 || LastIndex(line, '=') != equals then Err(InvalidSchemaHeader)
      else
        var part, fields := line[1..equals.value], Text.SplitChar(line[equals.value + 1..], ',', "");
        match ReadTokenAndVersion(part)
        case Err(e) => Err(e)
        case Ok((token, version)) =>
          if (exists i :: 0 <= i < |fields| && !IsSchemaToken(fields[i])) || !Text.Distinct(fields)
          then Err(InvalidSchemaHeader)
          else Ok((token, version, fields))
  }

  function ReadTokenAndVersion(part: string): (r: Result<(string, nat), DocumentError>)
    ensures r.Ok? ==> IsSchemaToken(r.value.0)
  {
    var slash := LastIndex(part, '/');
    if slash.None? || slash.value == 0 || slash.value == |part| - 1 then Err(InvalidSchemaHeader)
    else
      var token, version := part[..slash.value], ReadVersion(part[slash.value + 1..]);
      if !IsSchemaToken(token) || version.None? then Err(InvalidSchemaHeader) else Ok((token, version.value))
  }

  function ReadHeaders(lines: seq<string>): (r: Result<Header, DocumentError>)
    requires |lines| >= 2
    ensures r.Ok? ==> IsSchemaToken(r.value.token)
  {
    match ReadStreamLine(lines[0])
    case Err(e) => Err(e)
    case Ok((profile, single)) =>
      match ReadSchemaLine(lines[1])
      case Err(e) => Err(e)
      case Ok((token, version, fields)) => Ok(Header(profile, single, token, version, fields))
  }

  function HeaderFault(h: Header, s: Schema): Option<DocumentError>
  {
    if h.token != TokenFor(s, h.profile) then Some(SchemaMismatch)
    else if h.version != VersionOf(s) then Some(VersionMismatch)
    else if h.fields != WireNames(s.fields, h.profile) then Some(SchemaMismatch)
    else None
  }

  function ReadField(text: string, f: Field): Result<Value, DocumentError>
  {
    match ParseValue(text)
    case Err(e) => Err(BadValue(e))
    case Ok(parsed) =>
      match FromWire(f, parsed)
      case Err(e) => Err(e)
      case Ok(v) => if FieldAccepts(f, v) then Ok(v) else Err(InvalidFieldValue)
  }

  /** The field loop, `record` being filled. */
  function ReadFields(texts: seq<string>, fields: seq<Field>, record: Record): Result<Record, DocumentError>
    requires |texts| == |fields|
  {
    if texts == [] then Ok(record)
    else
      match ReadField(texts[0], fields[0])
      case Err(e) => Err(e)
      case Ok(v) => ReadFields(texts[1..], fields[1..], record[fields[0].name := v])
  }

  function ReadRecord(line: string, token: string, s: Schema): Result<Record, DocumentError>
  {
    match Scanner.Split(line, '|')
    case Err(_) => Err(MalformedRecord)
    case Ok(parts) =>
      Scanner.PartsFit(line, '|', true, Scanner.Top, "");
      if parts[0] != token then Err(SchemaMismatch)
      else if |parts| != |s.fields| + 1 then Err(FieldCount)
      else ReadFields(parts[1..], s.fields, map[])
  }

  function ReadRecords(lines: seq<string>, token: string, s: Schema): Result<seq<Record>, DocumentError>
  {
    if lines == [] then Ok([])
    else
      match ReadRecord(lines[0], token, s)
      case Err(e) => Err(e)
      case Ok(record) => Prepend([record], ReadRecords(lines[1..], token, s))
  }

  function DecodedBody(lines: seq<string>, h: Header, s: Schema): Result<Document, DocumentError>
    requires |lines| >= 2
  {
    match HeaderFault(h, s)
    case Some(e) => Err(e)
    case None =>
      match ReadRecords(lines[2..], TokenFor(s, h.profile), s)
      case Err(e) => Err(e)
      case Ok(records) =>
        if !h.single then Ok(Collection(records))
        else if |records| != 1 then Err(RecordCount)
        else Ok(Single(records[0]))
  }

  /** `decode` with the schema known. */
  function Decoded(text: string, s: Schema): Result<Document, DocumentError>
  {
    match ParseLines(text)
    case Err(e) => Err(e)
    case Ok(lines) =>
      match ReadHeaders(lines)
      case Err(e) => Err(e)
      case Ok(h) => DecodedBody(lines, h, s)
  }
}
