/** Record schemas: what a valid one is, and the wire form of a field's value. */
module OcfSchemas {
  import opened Outcomes
  import opened OcfValues
  import Text

  datatype SchemaId = TextId(s: string) | NumberId(n: int)

  datatype FieldType =
    | UnknownType | StringType | NumberType | IntegerType | BigIntType
    | BooleanType | ArrayType | ObjectType | ReferenceType

  /** `values` holds the entries of the abbreviation object, in their order. */
  datatype Field = Field(name: string, alias: Option<string>, kind: Option<FieldType>, itemKind: Option<FieldType>,
                         nullable: Option<bool>, values: Option<seq<(string, string)>>)

  datatype Schema = Schema(id: SchemaId, name: string, version: Option<int>, fields: seq<Field>)

  datatype DocumentError =
    | InvalidSchema | DuplicateSchema | UnknownSchema
    | InvalidRecord | InvalidFieldValue | InvalidValue | BadValue(cause: OcfError)
    | EmptyInput | LineEndings | BlankLine | TruncatedInput
    | InvalidHeader | InvalidProfile | InvalidShape | InvalidSchemaHeader
    | SchemaMismatch | VersionMismatch | FieldCount | RecordCount | MalformedRecord

  /** `String(id)`. */
  function IdText(id: SchemaId): string
  {
    match id
    case TextId(s) => s
    case NumberId(n) => Text.IntegerText(n)
  }

  function VersionOf(s: Schema): int { if s.version.Some? then s.version.value else 1 }

  function AliasOf(f: Field): string { if f.alias.Some? then f.alias.value else f.name }

  // ----- normalizeSchema -----

  /** The abbreviations can be undone: no two values share a wire form, and neither side is empty. */
  predicate ValuesOk(entries: seq<(string, string)>)
  {
    && (forall i :: 0 <= i < |entries| ==> entries[i].0 != "" && entries[i].1 != "")
    && (forall i, j :: 0 <= i < j < |entries| ==> entries[i].1 != entries[j].1)
  }

  predicate FieldOk(f: Field)
  {
    IsIdentifier(f.name) && IsIdentifier(AliasOf(f)) && (f.values.Some? ==> ValuesOk(f.values.value))
  }

  predicate FieldsOk(fields: seq<Field>)
  {
    && (forall i :: 0 <= i < |fields| ==> FieldOk(fields[i]))
    && (forall i, j :: 0 <= i < j < |fields| ==> fields[i].name != fields[j].name)
    && (forall i, j :: 0 <= i < j < |fields| ==> AliasOf(fields[i]) != AliasOf(fields[j]))
  }

  predicate IdOk(id: SchemaId)
  {
    match id
    case TextId(s) => s != ""
    case NumberId(n) => 0 <= n <= MAX_SAFE_INTEGER
  }

  predicate SchemaOk(s: Schema)
  {
    IdOk(s.id) && IsIdentifier(s.name) && 1 <= VersionOf(s) <= MAX_SAFE_INTEGER && s.fields != [] && FieldsOk(s.fields)
  }

  function Normalized(s: Schema): Schema { s.(version := Some(VersionOf(s))) }

  method CheckValues(entries: seq<(string, string)>) returns (ok: bool)
    ensures ok <==> ValuesOk(entries)
  {
    var wires: set<string> := {};
    for i := 0 to |entries|
      invariant ValuesOk(entries[..i])
      invariant forall w :: w in wires <==> exists j :: 0 <= j < i && entries[j].1 == w
    {
      var (value, wire) := entries[i];
      if value == "" || wire == "" || wire in wires {
        return false;
      }
      wires := wires + {wire};
    }
    assert entries[..|entries|] == entries;
    ok := true;
  }

  predicate NewName(fields: seq<Field>, name: string) { forall i :: 0 <= i < |fields| ==> fields[i].name != name }

  predicate NewAlias(fields: seq<Field>, alias: string)
  {
    forall i :: 0 <= i < |fields| ==> AliasOf(fields[i]) != alias
  }

  lemma OneFieldMore(fields: seq<Field>, n: nat)
    requires n < |fields| && FieldsOk(fields[..n])
    ensures var f, before := fields[n], fields[..n];
            FieldsOk(fields[..n + 1]) <==> FieldOk(f) && NewName(before, f.name) && NewAlias(before, AliasOf(f))
  {
    hide FieldOk, AliasOf;
    var longer := fields[..n + 1];
    assert longer[n] == fields[n] && forall i :: 0 <= i < n ==> longer[i] == fields[..n][i];
  }

  lemma FewerFields(fields: seq<Field>, n: nat)
    requires n <= |fields| && FieldsOk(fields)
    ensures FieldsOk(fields[..n])
  {
  }

  /** `normalizeSchema`, with the names and aliases met so far in two sets. */
  method NormalizeSchema(s: Schema) returns (r: Result<Schema, DocumentError>)
    ensures r == if SchemaOk(s) then Ok(Normalized(s)) else Err(InvalidSchema)
  {
    if !IdOk(s.id) || !IsIdentifier(s.name) || !(1 <= VersionOf(s) <= MAX_SAFE_INTEGER) || s.fields == [] {
      return Err(InvalidSchema);
    }
    var names: set<string>, aliases: set<string> := {}, {};
    for i := 0 to |s.fields|
      invariant FieldsOk(s.fields[..i])
      invariant forall n :: n in names <==> !NewName(s.fields[..i], n)
      invariant forall a :: a in aliases <==> !NewAlias(s.fields[..i], a)
    {
      hide FieldsOk, IsIdentifier, ValuesOk, AliasOf;
      var field := s.fields[i];
      OneFieldMore(s.fields, i);
      if FieldsOk(s.fields) {
        FewerFields(s.fields, i + 1);
      }
      if !IsIdentifier(field.name) || field.name in names {
        return Err(InvalidSchema);
      }
      names := names + {field.name};
      var alias := AliasOf(field);
      if !IsIdentifier(alias) || alias in aliases {
        return Err(InvalidSchema);
      }
      aliases := aliases + {alias};
      if field.values.Some? {
        var ok := CheckValues(field.values.value);
        if !ok {
          return Err(InvalidSchema);
        }
      }
      assert s.fields[..i + 1] == s.fields[..i] + [field];
    }
    assert s.fields[..|s.fields|] == s.fields;
    r := Ok(Normalized(s));
  }

  // ----- Values of a field -----

  predicate TypeMatches(v: Value, t: FieldType)
  {
    match t
    case UnknownType => true
    case StringType => v.Str?
    case NumberType => v.Num?
    case IntegerType => v.Num?
    case BigIntType => v.BigInt?
    case BooleanType => v.Bool?
    case ArrayType => v.Arr?
    case ObjectType => v.Obj? && !IsReference(v)
    case ReferenceType => IsReference(v)
  }

  /** What `values[key]` finds: an entry, or something every object inherits, or nothing. */
  datatype Lookup = Declared(wire: string) | InheritedFunction | InheritedPrototype | Undefined

  const INHERITED_FUNCTIONS: set<string> := {
    "constructor", "hasOwnProperty", "isPrototypeOf", "propertyIsEnumerable", "toLocaleString", "toString", "valueOf",
    "__defineGetter__", "__defineSetter__", "__lookupGetter__", "__lookupSetter__"
  }

  function Find(entries: seq<(string, string)>, key: string): Option<string>
  {
    if entries == [] then None
    else if entries[0].0 == key then Some(entries[0].1)
    else Find(entries[1..], key)
  }

  function LookUp(entries: seq<(string, string)>, key: string): Lookup
  {
    match Find(entries, key)
    case Some(wire) => Declared(wire)
    case None =>
      if key == "__proto__" then InheritedPrototype
      else if key in INHERITED_FUNCTIONS then InheritedFunction
      else Undefined
  }

  /** `validateFieldValue` passes. */
  predicate FieldAccepts(f: Field, v: Value)
  {
    if v.Null? then f.nullable != Some(false)
    else
      && TypeMatches(v, if f.kind.Some? then f.kind.value else UnknownType)
      && (v.Arr? && f.itemKind.Some? ==> forall i :: 0 <= i < |v.items| ==> TypeMatches(v.items[i], f.itemKind.value))
      && (f.values.Some? && v.Str? ==> !LookUp(f.values.value, v.s).Undefined?)
  }

  /** The value is the one string that an abbreviation table inherits as a plain object. */
  predicate InheritsPrototype(f: Field, v: Value)
  {
    f.values.Some? && v.Str? && LookUp(f.values.value, v.s).InheritedPrototype?
  }

  function ToWire(f: Field, v: Value): Result<Value, DocumentError>
  {
    if f.values.Some? && v.Str? then
      match LookUp(f.values.value, v.s)
      case Declared(wire) => Ok(Str(wire))
      case InheritedPrototype => Ok(Obj(map[]))
      case InheritedFunction => Err(InvalidValue)
      case Undefined => Err(InvalidFieldValue)
    else Ok(v)
  }

  function FindWire(entries: seq<(string, string)>, wire: string): Option<string>
  {
    if entries == [] then None
    else if entries[0].1 == wire then Some(entries[0].0)
    else FindWire(entries[1..], wire)
  }

  function FromWire(f: Field, v: Value): Result<Value, DocumentError>
  {
    if f.values.Some? && v.Str? then
      match FindWire(f.values.value, v.s)
      case Some(key) => Ok(Str(key))
      case None => Err(InvalidFieldValue)
    else Ok(v)
  }

  lemma {:induction false} FindIsUndone(entries: seq<(string, string)>, key: string)
    requires ValuesOk(entries) && Find(entries, key).Some?
    ensures FindWire(entries, Find(entries, key).value) == Some(key)
  {
    if entries[0].0 != key {
      FindIsUndone(entries[1..], key);
      FoundAmong(entries[1..], key);
    }
  }

  lemma {:induction false} FoundAmong(entries: seq<(string, string)>, key: string)
    requires Find(entries, key).Some?
    ensures exists i :: 0 <= i < |entries| && entries[i].1 == Find(entries, key).value
  {
    if entries[0].0 != key {
      FoundAmong(entries[1..], key);
      var i :| 0 <= i < |entries[1..]| && entries[1..][i].1 == Find(entries, key).value;
      assert entries[i + 1] == entries[1..][i];
    }
  }

  /** What a field puts on the wire it takes back, but for the inherited prototype, which comes back as an object. */
  lemma WireRoundTrip(f: Field, v: Value)
    requires FieldOk(f) && ToWire(f, v).Ok?
    ensures FromWire(f, ToWire(f, v).value) == Ok(if InheritsPrototype(f, v) then Obj(map[]) else v)
  {
    if f.values.Some? && v.Str? && LookUp(f.values.value, v.s).Declared? {
      FindIsUndone(f.values.value, v.s);
    }
  }
}
