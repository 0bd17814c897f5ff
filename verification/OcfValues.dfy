/** OCF/1 values, their canonical text and the strict parser of that text. */
module OcfValues {
  import opened Outcomes
  import Text
  import JsonStrings
  import Scanner

  const MAX_SAFE_INTEGER: int := 0x1F_FFFF_FFFF_FFFF

  type SafeInteger = n: int | -MAX_SAFE_INTEGER <= n <= MAX_SAFE_INTEGER

  /** A plain object is its set of properties; a reference is an object with the keys `$ref` and `id`. */
  datatype Value =
    | Null
    | Bool(b: bool)
    | Num(n: SafeInteger)
    | BigInt(big: int)
    | Str(s: string)
    | Arr(items: seq<Value>)
    | Obj(fields: map<string, Value>)

  datatype OcfError =
    | UnsafeKey | InvalidReference
    | MalformedValue | MalformedNumber | UnsafeInteger | MalformedString
    | MalformedArray | MalformedObject | DuplicateKey | MalformedReference

  // ----- Character classes -----

  predicate IsLetter(c: char) { 'A' <= c <= 'Z' || 'a' <= c <= 'z' }

  predicate IsAlphanumeric(c: char) { IsLetter(c) || Text.IsDigit(c) }

  predicate IsBareChar(c: char)
  {
    IsAlphanumeric(c) || c == '.' || c == '_' || c == '/' || c == '@' || c == ':' || c == '+' || c == '-'
  }

  /** Strings written without quotes: `[A-Za-z0-9][A-Za-z0-9._/@:+-]*`. */
  predicate CanUseBareString(s: string)
  {
    s != "" && IsAlphanumeric(s[0]) && forall i :: 0 <= i < |s| ==> IsBareChar(s[i])
  }

  predicate IsIdentifier(s: string)
  {
    && s != "" && IsLetter(s[0])
    && forall i :: 0 <= i < |s| ==> IsAlphanumeric(s[i]) || s[i] == '_' || s[i] == '-'
  }

  /** `[A-Za-z][A-Za-z0-9_-]*` or `[0-9]+`. */
  predicate IsSchemaToken(s: string)
  {
    IsIdentifier(s) || (s != "" && Text.AllDigits(s))
  }

  predicate IsDangerousKey(k: string)
  {
    k == "__proto__" || k == "constructor" || k == "prototype"
  }

  // ----- References and encodable values -----

  predicate IsScalar(v: Value) { !v.Arr? && !v.Obj? }

  predicate IsReference(v: Value)
  {
    && v.Obj?
    && v.fields.Keys == {"$ref", "id"}
    && (v.fields["$ref"].Str? || v.fields["$ref"].Num?)
    && IsScalar(v.fields["id"])
  }

  /** `String(value.$ref)`. */
  function ReferenceToken(v: Value): string
    requires IsReference(v)
  {
    if v.fields["$ref"].Str? then v.fields["$ref"].s else Text.IntegerText(v.fields["$ref"].n)
  }

  function Reference(token: string, id: Value): Value
  {
    Obj(map["$ref" := Str(token), "id" := id])
  }

  /** `assertSerializable` passes: no dangerous key at any depth. */
  predicate Serializable(v: Value)
  {
    match v
    case Arr(items) => forall i :: 0 <= i < |items| ==> Serializable(items[i])
    case Obj(fields) => forall k :: k in fields ==> !IsDangerousKey(k) && Serializable(fields[k])
    case _ => true
  }

  /** Every reference names its schema by a token. */
  predicate ReferencesNamed(v: Value)
  {
    match v
    case Arr(items) => forall i :: 0 <= i < |items| ==> ReferencesNamed(items[i])
    case Obj(fields) =>
      && (IsReference(v) ==> IsSchemaToken(ReferenceToken(v)))
      && (forall k :: k in fields ==> ReferencesNamed(fields[k]))
    case _ => true
  }

  predicate Encodable(v: Value) { Serializable(v) && ReferencesNamed(v) }

  // ----- encodeValue -----

  function Print(v: Value): string
    decreases v, 0
  {
    match v
    case Null => "~"
    case Bool(b) => if b then "!t" else "!f"
    case Num(n) => "#" + Text.IntegerText(n)
    case BigInt(n) => "#" + Text.IntegerText(n) + "n"
    case Str(s) => if CanUseBareString(s) then s else JsonStrings.Quote(s)
    case Arr(items) => "[" + Text.Join(PrintItems(v), ",") + "]"
    case Obj(fields) =>
      if IsReference(v) then "&" + ReferenceToken(v) + ":" + Print(fields["id"])
      else "{" + Text.Join(PrintFields(v, Text.SortedKeys(fields.Keys)), ",") + "}"
  }

  function PrintItems(v: Value): (r: seq<string>)
    requires v.Arr?
    ensures |r| == |v.items|
    ensures forall i :: 0 <= i < |r| ==> r[i] == Print(v.items[i])
    decreases v, 0, 0
  {
    seq(|v.items|, i requires 0 <= i < |v.items| => Print(v.items[i]))
  }

  function PrintField(v: Value, k: string): string
    requires v.Obj? && k in v.fields
    decreases v, 0, 0
  {
    JsonStrings.Quote(k) + ":" + Print(v.fields[k])
  }

  function PrintFields(v: Value, keys: seq<string>): (r: seq<string>)
    requires v.Obj? && forall k :: k in keys ==> k in v.fields
    ensures |r| == |keys|
    ensures forall i :: 0 <= i < |r| ==> r[i] == PrintField(v, keys[i])
    decreases v, 0, 1
  {
    seq(|keys|, i requires 0 <= i < |keys| => PrintField(v, keys[i]))
  }

  /** The whole value is checked for dangerous keys before any of it is printed. */
  function EncodeValue(v: Value): Result<string, OcfError>
  {
    if !Serializable(v) then Err(UnsafeKey)
    else if !ReferencesNamed(v) then Err(InvalidReference)
    else Ok(Print(v))
  }

  // ----- parseValue -----

  function ParseNumber(literal: string): Result<Value, OcfError>
  {
    if literal != "" && literal[|literal| - 1] == 'n' then
      var integer := literal[..|literal| - 1];
      if Text.IsIntegerLiteral(integer) then Ok(BigInt(Text.IntegerValue(integer))) else Err(MalformedNumber)
    else if !Text.IsIntegerLiteral(literal) then Err(MalformedNumber)
    else
      var n := Text.IntegerValue(literal);
      if -MAX_SAFE_INTEGER <= n <= MAX_SAFE_INTEGER then Ok(Num(n)) else Err(UnsafeInteger)
  }

  function ParseString(source: string): Result<Value, OcfError>
  {
    match JsonStrings.Unquote(source)
    case Some(s) => Ok(Str(s))
    case None => Err(MalformedString)
  }

  /** The parts of `inner`, each shorter than the text that held them. */
  function SplitInner(inner: string, delimiter: char): (r: Result<seq<string>, OcfError>)
    ensures r.Ok? ==> r.value != [] && forall p :: p in r.value ==> |p| <= |inner|
  {
    match Scanner.Split(inner, delimiter)
    case Ok(parts) =>
      Scanner.PartsFit(inner, delimiter, true, Scanner.Top, "");
      Ok(parts)
    case Err(_) => Err(MalformedValue)
  }

  /** `findTopLevel`: where the first cut is, if there is one. */
  function FindTopLevel(source: string, delimiter: char): (r: Result<Option<nat>, OcfError>)
    ensures r.Ok? && r.value.Some? ==> r.value.value < |source|
  {
    match SplitInner(source, delimiter)
    case Err(e) => Err(e)
    case Ok(parts) =>
      if |parts| == 1 then Ok(None)
      else
        Scanner.FirstPartFits(source, delimiter, true, Scanner.Top, "");
        Ok(Some(|parts[0]|))
  }

  /** What the first characters of a value, and its last one, say it is. */
  datatype Shape =
    | Malformed(error: OcfError)
    | Constant(value: Value)
    | NumberText | QuotedText | ArrayText | ObjectText | ReferenceText | BareText

  function ShapeOf(source: string): (r: Shape)
    ensures !r.Malformed? ==> source != ""
    ensures r.NumberText? ==> source[0] == '#'
    ensures r.QuotedText? ==> source[0] == '"' && source[|source| - 1] == '"'
    ensures r.ArrayText? ==> source[0] == '[' && source[|source| - 1] == ']'
    ensures r.ObjectText? ==> source[0] == '{' && source[|source| - 1] == '}'
    ensures r.ReferenceText? ==> source[0] == '&'
  {
    if source == "" then Malformed(MalformedValue)
    else
      var first, last := source[0], source[|source| - 1];
      if Text.IsSpace(first) || Text.IsSpace(last) then Malformed(MalformedValue)
      else if source == "~" then Constant(Null)
      else if source == "!t" then Constant(Bool(true))
      else if source == "!f" then Constant(Bool(false))
      else if first == '#' then NumberText
      else if first == '"' then (if last == '"' then QuotedText else Malformed(MalformedString))
      else if first == '[' then (if last == ']' then ArrayText else Malformed(MalformedArray))
      else if first == '{' then (if last == '}' then ObjectText else Malformed(MalformedObject))
      else if first == '&' then ReferenceText
      else if CanUseBareString(source) then BareText
      else Malformed(MalformedString)
  }

  function ParseValue(source: string): Result<Value, OcfError>
    decreases |source|, 2, 0
  {
    match ShapeOf(source)
    case Malformed(e) => Err(e)
    case Constant(v) => Ok(v)
    case NumberText => ParseNumber(source[1..])
    case QuotedText => ParseString(source)
    case ArrayText => ParseArray(source)
    case ObjectText => ParseObject(source)
    case ReferenceText => ParseReference(source)
    case BareText => Ok(Str(source))
  }

  function ParseArray(source: string): Result<Value, OcfError>
    requires source != "" && source[0] == '[' && source[|source| - 1] == ']'
    decreases |source|, 1, 0
  {
    var inner := source[1..|source| - 1];
    if inner == "" then Ok(Arr([]))
    else
      match SplitInner(inner, ',')
      case Err(e) => Err(e)
      case Ok(parts) =>
        match ParseItems(parts, |source|)
        case Err(e) => Err(e)
        case Ok(items) => Ok(Arr(items))
  }

  function ParseItems(parts: seq<string>, ghost limit: nat): Result<seq<Value>, OcfError>
    requires forall p :: p in parts ==> |p| < limit
    decreases limit, 0, |parts|
  {
    if parts == [] then Ok([])
    else if parts[0] == "" then Err(MalformedArray)
    else
      match ParseValue(parts[0])
      case Err(e) => Err(e)
      case Ok(v) =>
        match ParseItems(parts[1..], limit)
        case Err(e) => Err(e)
        case Ok(rest) => Ok([v] + rest)
  }

  function ParseObject(source: string): Result<Value, OcfError>
    requires source != "" && source[0] == '{' && source[|source| - 1] == '}'
    decreases |source|, 1, 0
  {
    var inner := source[1..|source| - 1];
    if inner == "" then Ok(Obj(map[]))
    else
      match SplitInner(inner, ',')
      case Err(e) => Err(e)
      case Ok(parts) =>
        match ParseProperties(parts, map[], |source|)
        case Err(e) => Err(e)
        case Ok(fields) => Ok(Obj(fields))
  }

  /** The property loop, `result` being the record filled so far. */
  function ParseProperties(parts: seq<string>, result: map<string, Value>, ghost limit: nat)
    : Result<map<string, Value>, OcfError>
    requires forall p :: p in parts ==> |p| < limit
    decreases limit, 0, |parts|
  {
    if parts == [] then Ok(result)
    else
      match ParseProperty(parts[0], result.Keys, limit)
      case Err(e) => Err(e)
      case Ok((key, value)) => ParseProperties(parts[1..], result[key := value], limit)
  }

  /** `parseObject` fills one record, property by property. */
  method FillProperties(parts: seq<string>, ghost limit: nat) returns (r: Result<map<string, Value>, OcfError>)
    requires forall p :: p in parts ==> |p| < limit
    ensures r == ParseProperties(parts, map[], limit)
  {
    var result: map<string, Value> := map[];
    assert parts[0..] == parts;
    for i := 0 to |parts|
      invariant ParseProperties(parts[i..], result, limit) == ParseProperties(parts, map[], limit)
    {
      var part := parts[i];
      assert part in parts && parts[i..][0] == part && parts[i..][1..] == parts[i + 1..];
      match ParseProperty(part, result.Keys, limit)
      case Err(e) => return Err(e);
      case Ok((key, value)) => result := result[key := value];
    }
    r := Ok(result);
  }

  function ParseProperty(part: string, taken: set<string>, ghost limit: nat): Result<(string, Value), OcfError>
    requires |part| < limit
    decreases limit, 0, 0
  {
    if part == "" then Err(MalformedObject)
    else
      match FindTopLevel(part, ':')
      case Err(e) => Err(e)
      case Ok(None) => Err(MalformedObject)
      case Ok(Some(colon)) =>
        if colon == 0 then Err(MalformedObject)
        else
          var keyText, valueText := part[..colon], part[colon + 1..];
          if keyText[0] != '"' || keyText[|keyText| - 1] != '"' then Err(MalformedObject)
          else
            match JsonStrings.Unquote(keyText)
            case None => Err(MalformedString)
            case Some(key) =>
              if IsDangerousKey(key) then Err(UnsafeKey)
              else if key in taken then Err(DuplicateKey)
              else if valueText == "" then Err(MalformedObject)
              else
                match ParseValue(valueText)
                case Err(e) => Err(e)
                case Ok(v) => Ok((key, v))
  }

  function ParseReference(source: string): Result<Value, OcfError>
    requires source != "" && source[0] == '&'
    decreases |source|, 1, 0
  {
    match FindTopLevel(source[1..], ':')
    case Err(e) => Err(e)
    case Ok(None) => Err(MalformedReference)
    case Ok(Some(colon)) =>
      if colon == 0 then Err(MalformedReference)
      else
        var schema, id := source[1..colon + 1], source[colon + 2..];
        if !IsSchemaToken(schema) then Err(MalformedReference)
        else if id == "" then Err(MalformedReference)
        else
          match ParseValue(id)
          case Err(e) => Err(e)
          case Ok(v) => if IsScalar(v) then Ok(Reference(schema, v)) else Err(MalformedReference)
  }
}
