/** Deltas as text: the adjunct stream, its reader, and when the one undoes the other. */
module OcfDeltaTexts {
  import opened Outcomes
  import opened OcfValues
  import opened OcfDelta
  import opened OcfLines
  import OcfDeltaLaws
  import OcfDocumentLaws
  import OcfRoundTrip
  import OcfWire
  import Scanner
  import Text

  // ----- encodeDelta -----

  function OpName(o: Operation): string
  {
    match o
    case Add(_, _) => "add"
    case Remove(_) => "remove"
    case Replace(_, _) => "replace"
  }

  /** The parts of an operation's line. */
  function OperationParts(o: Operation): seq<string>
  {
    ["op", OpName(o), Print(Str(o.path))] + if o.Remove? then [] else [Print(o.value)]
  }

  function OperationLines(operations: seq<Operation>): Result<seq<string>, DeltaError>
  {
    if operations == [] then Ok([])
    else if !operations[0].Remove? && !Encodable(operations[0].value) then Err(NotEncodable)
    else
      match OperationLines(operations[1..])
      case Err(e) => Err(e)
      case Ok(rest) => Ok([Text.Join(OperationParts(operations[0]), "|")] + rest)
  }

  function Magic(): string { "!ocf-delta/1" }

  function HeadLines(delta: Delta): seq<string>
  {
    [Magic(), Text.Join(["base", delta.baseHash], "|"), Text.Join(["target", delta.targetHash], "|")]
  }

  function EncodedDelta(delta: Delta): Result<string, DeltaError>
  {
    if !WellFormed(delta) then Err(InvalidDelta)
    else
      match OperationLines(delta.operations)
      case Err(e) => Err(e)
      case Ok(lines) => Ok(Text.Join(HeadLines(delta) + lines, "\n"))
  }

  // ----- decodeDelta -----

  function ReadHash(line: string, name: string): Result<string, DeltaError>
  {
    match Scanner.LenientSplit(line, '|')
    case Err(_) => Err(InvalidDelta)
    case Ok(parts) => if |parts| == 2 && parts[0] == name then Ok(parts[1]) else Err(InvalidDelta)
  }

  function ReadOperation(line: string): Result<Operation, DeltaError>
  {
    match Scanner.LenientSplit(line, '|')
    case Err(_) => Err(InvalidDelta)
    case Ok(parts) => ReadParts(parts)
  }

  function ReadParts(parts: seq<string>): Result<Operation, DeltaError>
  {
    if (|parts| != 3 && |parts| != 4) || parts[0] != "op" then Err(InvalidDelta)
    else if parts[1] != "add" && parts[1] != "remove" && parts[1] != "replace" then Err(InvalidDelta)
    else if (parts[1] == "remove") != (|parts| == 3) then Err(InvalidDelta)
    else
      match ParseValue(parts[2])
      case Err(_) => Err(InvalidDelta)
      case Ok(path) =>
        if !path.Str? then Err(InvalidDelta)
        else if parts[1] == "remove" then Ok(Remove(path.s))
        else
          match ParseValue(parts[3])
          case Err(_) => Err(InvalidDelta)
          case Ok(v) => Ok(if parts[1] == "add" then Add(path.s, v) else Replace(path.s, v))
  }

  function ReadOperations(lines: seq<string>): Result<seq<Operation>, DeltaError>
  {
    if lines == [] then Ok([])
    else
      match ReadOperation(lines[0])
      case Err(e) => Err(e)
      case Ok(o) =>
        match ReadOperations(lines[1..])
        case Err(e) => Err(e)
        case Ok(rest) => Ok([o] + rest)
  }

  function DecodedDelta(text: string): Result<Delta, DeltaError>
  {
    var lines := LinesOf(text);
    if |lines| < 3 || lines[0] != Magic() then Err(InvalidDelta)
    else
      match (ReadHash(lines[1], "base"), ReadHash(lines[2], "target"))
      case (Err(e), _) => Err(e)
      case (Ok(_), Err(e)) => Err(e)
      case (Ok(base), Ok(target)) =>
        match ReadOperations(lines[3..])
        case Err(e) => Err(e)
        case Ok(operations) =>
          var delta := Delta(base, target, operations);
          if WellFormed(delta) then Ok(delta) else Err(InvalidDelta)
  }

  /** `decodeDelta`: the operations are pushed line by line. */
  method DecodeDelta(text: string) returns (r: Result<Delta, DeltaError>)
    ensures r == DecodedDelta(text)
  {
    hide ReadOperation, ReadHash, WellFormed;
    var lines := LinesOf(text);
    if |lines| < 3 || lines[0] != Magic() {
      return Err(InvalidDelta);
    }
    var base, target := ReadHash(lines[1], "base"), ReadHash(lines[2], "target");
    if base.Err? {
      return Err(base.error);
    }
    if target.Err? {
      return Err(target.error);
    }
    var operations: seq<Operation> := [];
    ghost var all := ReadOperations(lines[3..]);
    PushedOn([], [], all);
    for i := 3 to |lines|
      invariant all == Pushed(operations, ReadOperations(lines[i..]))
    {
      assert lines[i..][0] == lines[i] && lines[i..][1..] == lines[i + 1..];
      var operation := ReadOperation(lines[i]);
      if operation.Err? {
        return Err(operation.error);
      }
      PushedOn(operations, [operation.value], ReadOperations(lines[i + 1..]));
      operations := operations + [operation.value];
    }
    assert lines[|lines|..] == [] && operations + [] == operations;
    var delta := Delta(base.value, target.value, operations);
    r := if WellFormed(delta) then Ok(delta) else Err(InvalidDelta);
  }

  function Pushed(front: seq<Operation>, rest: Result<seq<Operation>, DeltaError>): Result<seq<Operation>, DeltaError>
  {
    match rest
    case Err(e) => Err(e)
    case Ok(operations) => Ok(front + operations)
  }

  lemma PushedOn(a: seq<Operation>, b: seq<Operation>, rest: Result<seq<Operation>, DeltaError>)
    ensures Pushed(a, Pushed(b, rest)) == Pushed(a + b, rest)
    ensures Pushed([], rest) == rest
  {
    if rest.Ok? {
      assert a + (b + rest.value) == a + b + rest.value && [] + rest.value == rest.value;
    }
  }

  // ----- The round trip -----

  /** The operation a reader sees: numeric `$ref`s come back as their decimal strings. */
  function NormalizeOperation(o: Operation): Operation
  {
    match o
    case Add(path, value) => Add(path, OcfRoundTrip.Normalize(value))
    case Remove(path) => Remove(path)
    case Replace(path, value) => Replace(path, OcfRoundTrip.Normalize(value))
  }

  function NormalizeOperations(operations: seq<Operation>): (r: seq<Operation>)
    ensures |r| == |operations| && forall i :: 0 <= i < |r| ==> r[i] == NormalizeOperation(operations[i])
  {
    seq(|operations|, i requires 0 <= i < |operations| => NormalizeOperation(operations[i]))
  }

  function NormalizeDelta(delta: Delta): Delta { delta.(operations := NormalizeOperations(delta.operations)) }

  predicate Writable(o: Operation) { o.Remove? || Encodable(o.value) }

  lemma WordPasses(word: string)
    requires forall i :: 0 <= i < |word| ==>
        OcfRoundTrip.IsPlain(word[i]) && word[i] != '|' && word[i] != '\n' && word[i] != '\r'
    ensures Scanner.Sealed(word, '|') && OcfDocumentLaws.OneLine(word)
  {
    OcfRoundTrip.PlainSkims(word, '|', 0);
  }

  lemma ValuePasses(v: Value)
    requires ReferencesNamed(v)
    ensures Scanner.Sealed(Print(v), '|') && OcfDocumentLaws.OneLine(Print(v))
  {
    OcfRoundTrip.PrintSkims(v, '|', 0);
    OcfDocumentLaws.PrintOneLine(v);
  }

  /** A line joined from parts that a splitter passes over splits into them, also for the lenient splitter. */
  lemma PartsSplit(parts: seq<string>)
    requires |parts| > 1
    requires forall i :: 0 <= i < |parts| ==> Scanner.Sealed(parts[i], '|') && OcfDocumentLaws.OneLine(parts[i])
    ensures Scanner.LenientSplit(Text.Join(parts, "|"), '|') == Ok(parts)
    ensures IsLine(Text.Join(parts, "|"))
  {
    hide Scanner.Sealed, Scanner.SplitFrom;
    Scanner.SplitJoined(parts, '|', false);
    OcfDocumentLaws.JoinedOneLine(parts, "|");
    Text.JoinCons(parts[0], parts[1..], "|");
    assert [parts[0]] + parts[1..] == parts;
  }

  lemma OpNamesPass(o: Operation)
    ensures Scanner.Sealed("op", '|') && OcfDocumentLaws.OneLine("op")
    ensures Scanner.Sealed(OpName(o), '|') && OcfDocumentLaws.OneLine(OpName(o))
  {
    WordPasses("op");
    WordPasses(OpName(o));
  }

  lemma PartsAre(o: Operation)
    ensures var parts := OperationParts(o);
            && |parts| == (if o.Remove? then 3 else 4)
            && parts[0] == "op" && parts[1] == OpName(o) && parts[2] == Print(Str(o.path))
            && (!o.Remove? ==> parts[3] == Print(o.value))
  {
  }

  lemma OpNames(o: Operation)
    ensures OpName(o) == "add" <==> o.Add?
    ensures OpName(o) == "remove" <==> o.Remove?
    ensures OpName(o) == "replace" <==> o.Replace?
  {
  }

  lemma OperationSplits(o: Operation)
    requires Writable(o)
    ensures Scanner.LenientSplit(Text.Join(OperationParts(o), "|"), '|') == Ok(OperationParts(o))
    ensures IsLine(Text.Join(OperationParts(o), "|"))
  {
    OpNamesPass(o);
    ValuePasses(Str(o.path));
    if !o.Remove? {
      ValuePasses(o.value);
    }
    PartsAre(o);
    hide Scanner.Sealed, OcfDocumentLaws.OneLine, OpName, OperationParts, Print, ReferencesNamed, Serializable,
         Scanner.LenientSplit, IsLine;
    var parts := OperationParts(o);
    forall i | 0 <= i < |parts| ensures Scanner.Sealed(parts[i], '|') && OcfDocumentLaws.OneLine(parts[i]) {
      assert i == 0 || i == 1 || i == 2 || i == 3;
    }
    PartsSplit(parts);
  }

  lemma PartsRead(o: Operation)
    requires Writable(o)
    ensures ReadParts(OperationParts(o)) == Ok(NormalizeOperation(o))
  {
    OcfRoundTrip.ParsePrint(Str(o.path));
    assert OcfRoundTrip.Normalize(Str(o.path)) == Str(o.path);
    if !o.Remove? {
      OcfRoundTrip.ParsePrint(o.value);
    }
    PartsAre(o);
    OpNames(o);
    hide ParseValue, Print, ReferencesNamed, Serializable, OpName, OperationParts, OcfRoundTrip.Normalize;
  }

  lemma OperationReads(o: Operation)
    requires Writable(o)
    ensures ReadOperation(Text.Join(OperationParts(o), "|")) == Ok(NormalizeOperation(o))
    ensures IsLine(Text.Join(OperationParts(o), "|"))
  {
    OperationSplits(o);
    PartsRead(o);
    hide ReadParts, OperationParts, Text.Join, NormalizeOperation, Scanner.LenientSplit, IsLine;
  }

  lemma {:induction false} OperationsRead(operations: seq<Operation>)
    ensures OperationLines(operations).Ok? <==> forall i :: 0 <= i < |operations| ==> Writable(operations[i])
    ensures OperationLines(operations).Ok? ==>
              var lines := OperationLines(operations).value;
              && (forall i :: 0 <= i < |lines| ==> IsLine(lines[i]))
              && ReadOperations(lines) == Ok(NormalizeOperations(operations))
  {
    if operations != [] {
      OperationsRead(operations[1..]);
      AllOrFirst(operations);
      hide ReadOperation, OperationParts, NormalizeOperation, IsLine, Text.Join;
      if OperationLines(operations).Ok? {
        OperationReads(operations[0]);
        var line, rest := Text.Join(OperationParts(operations[0]), "|"), OperationLines(operations[1..]).value;
        assert ([line] + rest)[0] == line && ([line] + rest)[1..] == rest;
        NormalizedCons(operations);
      }
    }
  }

  lemma AllOrFirst(operations: seq<Operation>)
    requires operations != []
    ensures (forall i :: 0 <= i < |operations| ==> Writable(operations[i]))
       <==> Writable(operations[0]) && forall i :: 0 <= i < |operations[1..]| ==> Writable(operations[1..][i])
  {
    hide Writable;
    assert forall i :: 0 < i < |operations| ==> operations[i] == operations[1..][i - 1];
  }

  lemma NormalizedCons(operations: seq<Operation>)
    requires operations != []
    ensures NormalizeOperations(operations)
        == [NormalizeOperation(operations[0])] + NormalizeOperations(operations[1..])
  {
    hide NormalizeOperation;
  }

  lemma HashPasses(h: string)
    requires IsHash(h)
    ensures Scanner.Sealed(h, '|') && OcfDocumentLaws.OneLine(h)
  {
    assert forall i :: 0 <= i < 7 ==> h[i] == h[..7][i];
    WordPasses(h);
  }

  lemma HashReads(name: string, h: string)
    requires IsHash(h) && (name == "base" || name == "target")
    ensures ReadHash(Text.Join([name, h], "|"), name) == Ok(h) && IsLine(Text.Join([name, h], "|"))
  {
    WordPasses(name);
    HashPasses(h);
    hide IsHash, Scanner.Sealed, OcfDocumentLaws.OneLine, IsLine, Scanner.LenientSplit, Text.Join;
    PartsSplit([name, h]);
  }

  lemma NormalWellFormed(delta: Delta)
    requires WellFormed(delta) && forall i :: 0 <= i < |delta.operations| ==> Writable(delta.operations[i])
    ensures WellFormed(NormalizeDelta(delta))
  {
    hide IsHash, ParsePath;
    var operations := delta.operations;
    forall i | 0 <= i < |operations| && !operations[i].Remove?
      ensures Serializable(NormalizeOperation(operations[i]).value)
    {
      NormalSerializable(operations[i].value);
    }
  }

  lemma {:induction false} NormalSerializable(v: Value)
    requires Serializable(v)
    ensures Serializable(OcfRoundTrip.Normalize(v))
  {
    match v
    case Arr(items) =>
      forall i | 0 <= i < |items| ensures Serializable(OcfRoundTrip.Normalize(items[i])) {
        NormalSerializable(items[i]);
      }
    case Obj(fields) =>
      if !IsReference(v) {
        forall k | k in fields ensures Serializable(OcfRoundTrip.Normalize(fields[k])) {
          NormalSerializable(fields[k]);
        }
      }
    case _ =>
  }

  /** A delta is written exactly when it is well formed and its values can be encoded, and what is written is read back
      as the delta it was, numeric `$ref`s aside. */
  lemma DeltaTextRoundTrip(delta: Delta)
    ensures EncodedDelta(delta).Ok?
       <==> WellFormed(delta) && forall i :: 0 <= i < |delta.operations| ==> Writable(delta.operations[i])
    ensures EncodedDelta(delta).Ok? ==> DecodedDelta(EncodedDelta(delta).value) == Ok(NormalizeDelta(delta))
  {
    OperationsRead(delta.operations);
    if EncodedDelta(delta).Ok? {
      NormalWellFormed(delta);
      WrittenReads(delta);
    }
  }

  /** The lines begin with the three that name the format and the hashes of this delta. */
  predicate Heads(lines: seq<string>, delta: Delta)
  {
    && |lines| >= 3 && lines[0] == Magic()
    && ReadHash(lines[1], "base") == Ok(delta.baseHash) && ReadHash(lines[2], "target") == Ok(delta.targetHash)
  }

  lemma HeadReads(delta: Delta, rest: seq<string>)
    requires WellFormed(delta)
    ensures var head := HeadLines(delta); |head| == 3 && forall i :: 0 <= i < |head| ==> IsLine(head[i])
    ensures Heads(HeadLines(delta) + rest, delta) && Heads(HeadLines(delta) + rest, NormalizeDelta(delta))
  {
    HashReads("base", delta.baseHash);
    HashReads("target", delta.targetHash);
  }

  lemma LinesDecode(text: string, lines: seq<string>, delta: Delta)
    requires LinesOf(text) == lines && Heads(lines, delta) && WellFormed(delta)
    requires ReadOperations(lines[3..]) == Ok(delta.operations)
    ensures DecodedDelta(text) == Ok(delta)
  {
    hide Magic, ReadHash, ReadOperations, WellFormed, LinesOf;
  }

  lemma AllLines(head: seq<string>, rest: seq<string>)
    requires head != [] && forall i :: 0 <= i < |head| ==> IsLine(head[i])
    requires forall i :: 0 <= i < |rest| ==> IsLine(rest[i])
    ensures LinesOf(Text.Join(head + rest, "\n")) == head + rest
  {
    hide IsLine, LinesOf, Text.Join;
    JoinedLines(head + rest);
  }

  lemma WrittenReads(delta: Delta)
    requires WellFormed(delta) && WellFormed(NormalizeDelta(delta)) && OperationLines(delta.operations).Ok?
    ensures DecodedDelta(Text.Join(HeadLines(delta) + OperationLines(delta.operations).value, "\n"))
        == Ok(NormalizeDelta(delta))
  {
    hide IsLine, Heads, OperationLines, ReadOperations, WellFormed, LinesOf, Text.Join, DecodedDelta, HeadLines,
        Writable;
    var head, rest := HeadLines(delta), OperationLines(delta.operations).value;
    HeadReads(delta, rest);
    OperationsRead(delta.operations);
    AllLines(head, rest);
    assert (head + rest)[3..] == rest;
    LinesDecode(Text.Join(head + rest, "\n"), head + rest, NormalizeDelta(delta));
  }

  // ----- From one side to the other -----

  /** What a delta carries can be written, and needs no respelling. */
  predicate Plain(o: Operation) { o.Remove? || (Encodable(o.value) && OcfRoundTrip.StringReferences(o.value)) }

  lemma {:induction false} DiffPlain(base: Value, target: Value, at: seq<string>)
    requires Encodable(target) && OcfRoundTrip.StringReferences(target)
    ensures forall o :: o in Diff(base, target, at) ==> Plain(o)
    decreases base, 1
  {
    if base.Obj? && target.Obj? && !OcfRoundTrip.ValuesEqual(base, target) {
      DiffKeysPlain(base, target, at, Text.SortedKeys(base.fields.Keys + target.fields.Keys));
    }
  }

  lemma {:induction false} DiffKeysPlain(base: Value, target: Value, at: seq<string>, keys: seq<string>)
    requires base.Obj? && target.Obj? && Encodable(target) && OcfRoundTrip.StringReferences(target)
    requires forall k :: k in keys ==> k in base.fields || k in target.fields
    ensures forall o :: o in DiffKeys(base, target, at, keys) ==> Plain(o)
    decreases base, 0, |keys|
  {
    hide Diff;
    if keys != [] {
      var key := keys[0];
      assert key in keys;
      DiffKeysPlain(base, target, at, keys[1..]);
      if key in base.fields && key in target.fields {
        DiffPlain(base.fields[key], target.fields[key], at + [key]);
      }
    }
  }

  /** A created delta is written, sent and read back as it was; so what the other side applies to the base is the
      target. */
  lemma CreatedDeltaTravels(base: Value, target: Value, hash: string -> string)
    requires Encodable(base) && Encodable(target) && OcfRoundTrip.StringReferences(target)
    requires IsHash(hash(Print(base))) && IsHash(hash(Print(target)))
    ensures CreateDelta(base, target, hash).Ok?
    ensures var delta := CreateDelta(base, target, hash).value;
            && EncodedDelta(delta).Ok? && DecodedDelta(EncodedDelta(delta).value) == Ok(delta)
            && ApplyAll(base, delta.operations) == Ok(target)
  {
    OcfDeltaLaws.CreatedDeltaApplies(base, target, hash);
    DiffPlain(base, target, []);
    var delta := CreateDelta(base, target, hash).value;
    hide ReferencesNamed, Serializable, Diff, EncodedDelta, DecodedDelta, WellFormed, ApplyAll;
    DeltaTextRoundTrip(delta);
    forall i | 0 <= i < |delta.operations|
      ensures Writable(delta.operations[i]) && NormalizeOperation(delta.operations[i]) == delta.operations[i]
    {
      var o := delta.operations[i];
      assert o in delta.operations && Plain(o);
      if !o.Remove? {
        OcfRoundTrip.NormalizeIdentity(o.value);
      }
    }
    assert NormalizeOperations(delta.operations) == delta.operations;
  }

  method SendAndApply(base: Value, target: Value, hash: string -> string) returns (r: Result<Value, DeltaError>)
    requires Encodable(base) && Encodable(target) && OcfRoundTrip.StringReferences(target)
    requires IsHash(hash(Print(base))) && IsHash(hash(Print(target)))
    ensures r == Ok(target)
  {
    CreatedDeltaTravels(base, target, hash);
    OcfDeltaLaws.CreatedDeltaApplies(base, target, hash);
    hide ReferencesNamed, Serializable, CreateDelta, EncodedDelta, DecodedDelta, WellFormed;
    var text := EncodedDelta(CreateDelta(base, target, hash).value).value;
    var received := DecodeDelta(text);
    r := ApplyDelta(base, received.value, hash);
  }

  // ----- The layout -----

  /** An operation on a line of its own: its name, its path and what it puts there. */
  function OperationText(o: Operation): string
  {
    match o
    case Add(path, v) => "\nop|add|" + Print(Str(path)) + "|" + Print(v)
    case Remove(path) => "\nop|remove|" + Print(Str(path))
    case Replace(path, v) => "\nop|replace|" + Print(Str(path)) + "|" + Print(v)
  }

  function OperationsText(operations: seq<Operation>): string
  {
    if operations == [] then "" else OperationText(operations[0]) + OperationsText(operations[1..])
  }

  lemma PartsJoined(name: string, path: string, value: string)
    ensures "\n" + Text.Join(["op", name, path], "|") == "\nop|" + name + "|" + path
    ensures "\n" + Text.Join(["op", name, path, value], "|") == "\nop|" + name + "|" + path + "|" + value
  {
    OcfWire.JoinIsLed("op", [name, path], "|");
    OcfWire.JoinIsLed("op", [name, path, value], "|");
    assert ["op"] + [name, path] == ["op", name, path] && ["op"] + [name, path, value] == ["op", name, path, value];
    hide Text.Join;
    assert [name, path][1..] == [path] && [name, path, value][1..] == [path, value] && [path, value][1..] == [value];
    assert OcfWire.Led([], "|") == "";
    assert OcfWire.Led([value], "|") == "|" + value;
    assert OcfWire.Led([path], "|") == "|" + path;
    assert "\n" + "op" == "\nop" && "\nop" + "|" == "\nop|";
  }

  lemma OperationIs(o: Operation)
    ensures "\n" + Text.Join(OperationParts(o), "|") == OperationText(o)
  {
    var path, name := Print(Str(o.path)), OpName(o);
    var value := if o.Remove? then "" else Print(o.value);
    PartsJoined(name, path, value);
    assert OperationParts(o) == if o.Remove? then ["op", name, path] else ["op", name, path, value];
    assert "\nop|" + "add" + "|" == "\nop|add|";
    assert "\nop|" + "remove" + "|" == "\nop|remove|";
    assert "\nop|" + "replace" + "|" == "\nop|replace|";
    hide Print, Text.Join, OperationParts;
  }

  lemma {:induction false} OperationsAre(operations: seq<Operation>)
    requires OperationLines(operations).Ok?
    ensures OcfWire.Led(OperationLines(operations).value, "\n") == OperationsText(operations)
  {
    hide Print, Encodable, OperationParts, OperationText, Text.Join;
    if operations != [] {
      OperationsAre(operations[1..]);
      OperationIs(operations[0]);
      var line, rest := Text.Join(OperationParts(operations[0]), "|"), OperationLines(operations[1..]).value;
      assert ([line] + rest)[1..] == rest;
    }
  }

  /** The whole text of a delta: what it is, the hashes of base and target, and a line for each operation. */
  lemma DeltaLayout(delta: Delta)
    requires EncodedDelta(delta).Ok?
    ensures EncodedDelta(delta).value
         == "!ocf-delta/1\nbase|" + delta.baseHash + "\ntarget|" + delta.targetHash + OperationsText(delta.operations)
  {
    hide WellFormed, OperationLines, OperationsText, OcfWire.Led;
    OperationsAre(delta.operations);
    var lines := OperationLines(delta.operations).value;
    var base, target := Text.Join(["base", delta.baseHash], "|"), Text.Join(["target", delta.targetHash], "|");
    HashLines(delta.baseHash, delta.targetHash);
    hide Text.Join;
    assert HeadLines(delta) + lines == [Magic()] + ([base] + ([target] + lines));
    Text.JoinCons(Magic(), [base] + ([target] + lines), "\n");
    Text.JoinCons(base, [target] + lines, "\n");
    OcfWire.JoinIsLed(target, lines, "\n");
    HeadJoins(delta.baseHash, delta.targetHash, OperationsText(delta.operations));
  }

  lemma HashLines(base: string, target: string)
    ensures Text.Join(["base", base], "|") == "base" + "|" + base
    ensures Text.Join(["target", target], "|") == "target" + "|" + target
  {
    assert ["base", base][1..] == [base] && ["target", target][1..] == [target];
  }

  lemma HeadJoins(base: string, target: string, rest: string)
    ensures "!ocf-delta/1" + "\n" + ("base" + "|" + base + "\n" + ("target" + "|" + target + rest))
         == "!ocf-delta/1\nbase|" + base + "\ntarget|" + target + rest
  {
    assert "!ocf-delta/1" + "\n" + ("base" + "|") == "!ocf-delta/1\nbase|";
    assert "\n" + ("target" + "|") == "\ntarget|";
  }
}
