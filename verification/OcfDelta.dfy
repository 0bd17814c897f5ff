/** Structural deltas between OCF values: creation, JSON pointers, application. */
module OcfDelta {
  import opened Outcomes
  import opened OcfValues
  import OcfRoundTrip
  import Text

  datatype Operation =
    | Add(path: string, value: Value)
    | Remove(path: string)
    | Replace(path: string, value: Value)

  datatype Delta = Delta(baseHash: string, targetHash: string, operations: seq<Operation>)

  datatype DeltaError =
    | NotEncodable | InvalidDelta | InvalidPath | UnsafeSegment | BaseMismatch | TargetMismatch

  // ----- JSON pointers (RFC 6901, sections 3 and 4) -----

  function EncodeSegment(segment: string): string
  {
    if segment == "" then ""
    else (if segment[0] == '~' then "~0" else if segment[0] == '/' then "~1" else [segment[0]])
         + EncodeSegment(segment[1..])
  }

  function Unescape(segment: string): Result<string, DeltaError>
  {
    if segment == "" then Ok("")
    else if segment[0] != '~' then PrependChar(segment[0], Unescape(segment[1..]))
    else if |segment| == 1 then Err(InvalidPath)
    else if segment[1] == '0' then PrependChar('~', Unescape(segment[2..]))
    else if segment[1] == '1' then PrependChar('/', Unescape(segment[2..]))
    else Err(InvalidPath)
  }

  function PrependChar(c: char, rest: Result<string, DeltaError>): Result<string, DeltaError>
  {
    match rest
    case Ok(s) => Ok([c] + s)
    case Err(e) => Err(e)
  }

  function DecodeSegment(segment: string): Result<string, DeltaError>
  {
    match Unescape(segment)
    case Err(e) => Err(e)
    case Ok(s) => if IsDangerousKey(s) then Err(UnsafeSegment) else Ok(s)
  }

  /** `decodePathSegment` reads the segment in one loop. */
  method DecodeSegmentLoop(segment: string) returns (r: Result<string, DeltaError>)
    ensures r == DecodeSegment(segment)
  {
    var result := "";
    var index := 0;
    PrependTextChar("", ' ', Unescape(segment));
    assert segment[0..] == segment;
    while index < |segment|
      invariant 0 <= index <= |segment|
      invariant Unescape(segment) == PrependText(result, Unescape(segment[index..]))
    {
      var rest := segment[index..];
      var c := segment[index];
      if c != '~' {
        PrependTextChar(result, c, Unescape(rest[1..]));
        result := result + [c];
        index := index + 1;
      } else if index + 1 < |segment| && (segment[index + 1] == '0' || segment[index + 1] == '1') {
        var decoded := if segment[index + 1] == '0' then '~' else '/';
        PrependTextChar(result, decoded, Unescape(rest[2..]));
        result := result + [decoded];
        index := index + 2;
      } else {
        return Err(InvalidPath);
      }
    }
    r := if IsDangerousKey(result) then Err(UnsafeSegment) else Ok(result);
    assert segment[index..] == "" && result + "" == result;
  }

  function PrependText(front: string, rest: Result<string, DeltaError>): Result<string, DeltaError>
  {
    match rest
    case Ok(s) => Ok(front + s)
    case Err(e) => Err(e)
  }

  lemma PrependTextChar(front: string, c: char, rest: Result<string, DeltaError>)
    ensures PrependText(front + [c], rest) == PrependText(front, PrependChar(c, rest))
    ensures PrependText("", rest) == rest
  {
    if rest.Ok? {
      assert "" + rest.value == rest.value;
      assert front + [c] + rest.value == front + ([c] + rest.value);
    }
  }

  function DecodeAll(segments: seq<string>): Result<seq<string>, DeltaError>
  {
    if segments == [] then Ok([])
    else
      match DecodeSegment(segments[0])
      case Err(e) => Err(e)
      case Ok(s) =>
        match DecodeAll(segments[1..])
        case Err(e) => Err(e)
        case Ok(rest) => Ok([s] + rest)
  }

  function ParsePath(path: string): Result<seq<string>, DeltaError>
  {
    if path == "" then Ok([])
    else if path[0] != '/' then Err(InvalidPath)
    else DecodeAll(Text.SplitChar(path[1..], '/', ""))
  }

  function JoinPath(parent: string, segment: string): string
  {
    parent + "/" + EncodeSegment(segment)
  }

  /** The pointer `joinPath` builds on the way down `segments`. */
  function Pointer(segments: seq<string>): string
  {
    if segments == [] then "" else JoinPath(Pointer(segments[..|segments| - 1]), segments[|segments| - 1])
  }

  predicate SafeSegments(segments: seq<string>)
  {
    forall i :: 0 <= i < |segments| ==> !IsDangerousKey(segments[i])
  }

  lemma {:induction false} SegmentRoundTrip(segment: string)
    ensures Unescape(EncodeSegment(segment)) == Ok(segment)
    ensures '/' !in EncodeSegment(segment)
  {
    if segment != "" {
      SegmentRoundTrip(segment[1..]);
      var head := if segment[0] == '~' then "~0" else if segment[0] == '/' then "~1" else [segment[0]];
      var text := EncodeSegment(segment);
      assert text == head + EncodeSegment(segment[1..]);
      assert text[|head|..] == EncodeSegment(segment[1..]);
      assert [segment[0]] + segment[1..] == segment;
    }
  }

  lemma {:induction false} DecodeAllExtended(segments: seq<string>, last: string)
    requires DecodeAll(segments).Ok? && DecodeSegment(last).Ok?
    ensures DecodeAll(segments + [last]) == Ok(DecodeAll(segments).value + [DecodeSegment(last).value])
  {
    if segments == [] {
      var decoded := DecodeSegment(last).value;
      assert segments + [last] == [last] && DecodeAll([last][1..]) == Ok([]);
      assert [decoded] + [] == [decoded] && [] + [decoded] == [decoded];
    } else {
      assert (segments + [last])[1..] == segments[1..] + [last];
      DecodeAllExtended(segments[1..], last);
      var head, rest := DecodeSegment(segments[0]).value, DecodeAll(segments[1..]).value;
      assert [head] + (rest + [DecodeSegment(last).value]) == [head] + rest + [DecodeSegment(last).value];
      assert (segments + [last])[0] == segments[0];
    }
  }

  /** In a pointer a tilde is written `~0` and a slash `~1`, every other character as it is, and a slash leads each
      segment. */
  lemma {:induction false} PointerWritten(segments: seq<string>, segment: string, c: char)
    ensures Pointer([]) == "" && Pointer(segments + [""]) == Pointer(segments) + "/"
    ensures Pointer(segments + [segment + [c]])
         == Pointer(segments + [segment]) + if c == '~' then "~0" else if c == '/' then "~1" else [c]
  {
    hide EncodeSegment;
    SegmentWritten(segment, c);
    assert (segments + [""])[..|segments|] == segments && (segments + [segment])[..|segments|] == segments;
    assert (segments + [segment + [c]])[..|segments|] == segments;
  }

  lemma {:induction false} SegmentWritten(segment: string, c: char)
    ensures EncodeSegment("") == ""
    ensures EncodeSegment(segment + [c])
         == EncodeSegment(segment) + if c == '~' then "~0" else if c == '/' then "~1" else [c]
  {
    if segment == "" {
      assert segment + [c] == [c] && [c][1..] == "";
    } else {
      SegmentWritten(segment[1..], c);
      assert (segment + [c])[1..] == segment[1..] + [c];
    }
  }

  /** Parsing a pointer gives back the segments it was joined from. */
  lemma {:induction false} PointerRoundTrip(segments: seq<string>)
    requires SafeSegments(segments)
    ensures ParsePath(Pointer(segments)) == Ok(segments)
  {
    if segments != [] {
      var front, last := segments[..|segments| - 1], segments[|segments| - 1];
      var text := EncodeSegment(last);
      PointerRoundTrip(front);
      SegmentRoundTrip(last);
      assert segments == front + [last];
      var path := Pointer(segments);
      if front == [] {
        assert path == "/" + text && path[1..] == text;
        Text.SplitCharFree(text, "", '/', "");
        assert text + "" == text && "" + text == text;
        DecodeAllExtended([], text);
        assert [] + [text] == [text] && front + [last] == [] + [last];
      } else {
        var parent := Pointer(front);
        PointerNonEmpty(front);
        assert path[1..] == parent[1..] + "/" + text;
        Text.SplitCharExtended(parent[1..], text, '/', "");
        DecodeAllExtended(Text.SplitChar(parent[1..], '/', ""), text);
      }
    }
  }

  lemma PointerNonEmpty(segments: seq<string>)
    requires segments != []
    ensures Pointer(segments) != "" && Pointer(segments)[0] == '/'
  {
    if |segments| > 1 {
      PointerNonEmpty(segments[..|segments| - 1]);
    }
  }

  // ----- createDelta -----

  /** The operations `diff` pushes for the values found at `at`. */
  function Diff(base: Value, target: Value, at: seq<string>): seq<Operation>
    decreases base, 1, 0
  {
    if OcfRoundTrip.ValuesEqual(base, target) then []
    else if base.Arr? || target.Arr? then [Replace(Pointer(at), target)]
    else if base.Obj? && target.Obj? then
      DiffKeys(base, target, at, Text.SortedKeys(base.fields.Keys + target.fields.Keys))
    else [Replace(Pointer(at), target)]
  }

  function DiffKeys(base: Value, target: Value, at: seq<string>, keys: seq<string>): seq<Operation>
    requires base.Obj? && target.Obj?
    requires forall k :: k in keys ==> k in base.fields || k in target.fields
    decreases base, 0, |keys|
  {
    if keys == [] then []
    else DiffKey(base, target, at, keys[0]) + DiffKeys(base, target, at, keys[1..])
  }

  function DiffKey(base: Value, target: Value, at: seq<string>, key: string): seq<Operation>
    requires base.Obj? && target.Obj? && (key in base.fields || key in target.fields)
    decreases base, 0, 0
  {
    if key !in base.fields then [Add(Pointer(at + [key]), target.fields[key])]
    else if key !in target.fields then [Remove(Pointer(at + [key]))]
    else Diff(base.fields[key], target.fields[key], at + [key])
  }

  /** `diff` itself: one growing list, pushed to by the recursion under the key loop. */
  method DiffInto(base: Value, target: Value, at: seq<string>, pushed: seq<Operation>)
      returns (operations: seq<Operation>)
    ensures operations == pushed + Diff(base, target, at)
    decreases base, 1
  {
    operations := pushed;
    if OcfRoundTrip.ValuesEqual(base, target) {
      return;
    }
    if base.Obj? && target.Obj? {
      operations := DiffIntoKeys(base, target, at, Text.SortedKeys(base.fields.Keys + target.fields.Keys), pushed);
    } else {
      operations := operations + [Replace(Pointer(at), target)];
    }
  }

  method DiffIntoKeys(base: Value, target: Value, at: seq<string>, keys: seq<string>, pushed: seq<Operation>)
    returns (operations: seq<Operation>)
    requires base.Obj? && target.Obj?
    requires forall k :: k in keys ==> k in base.fields || k in target.fields
    ensures operations == pushed + DiffKeys(base, target, at, keys)
    decreases base, 0
  {
    hide Diff, Pointer;
    operations := pushed;
    assert keys[0..] == keys;
    for i := 0 to |keys|
      invariant operations + DiffKeys(base, target, at, keys[i..]) == pushed + DiffKeys(base, target, at, keys)
    {
      var key := keys[i];
      var rest := keys[i..];
      assert key in keys && rest[0] == key && rest[1..] == keys[i + 1..];
      ghost var before := operations;
      if key !in base.fields {
        operations := operations + [Add(Pointer(at + [key]), target.fields[key])];
      } else if key !in target.fields {
        operations := operations + [Remove(Pointer(at + [key]))];
      } else {
        operations := DiffInto(base.fields[key], target.fields[key], at + [key], operations);
      }
      assert operations == before + DiffKey(base, target, at, key);
    }
  }

  /** `hash` stands for SHA-256 of the UTF-8 text. */
  function CreateDelta(base: Value, target: Value, hash: string -> string): Result<Delta, DeltaError>
  {
    if !Serializable(base) || !Serializable(target) then Err(NotEncodable)
    else
      match (EncodeValue(base), EncodeValue(target))
      case (Ok(b), Ok(t)) => Ok(Delta(hash(b), hash(t), Diff(base, target, [])))
      case _ => Err(NotEncodable)
  }

  // ----- applyDelta -----

  function ArrayIndex(segment: string, length: nat, allowAppend: bool): Option<nat>
  {
    if !Text.IsCanonicalNatural(segment) then None
    else
      var index := Text.Digits(segment);
      if index <= MAX_SAFE_INTEGER && (index < length || (allowAppend && index == length)) then Some(index) else None
  }

  /** The change at the end of a path, in its parent. */
  function EditLeaf(parent: Value, leaf: string, operation: Operation): Result<Value, DeltaError>
  {
    match parent
    case Arr(items) =>
      (match ArrayIndex(leaf, |items|, operation.Add?)
       case None => Err(InvalidPath)
       case Some(i) =>
         match operation
         case Add(_, value) => Ok(Arr(items[..i] + [value] + items[i..]))
         case Remove(_) => Ok(Arr(items[..i] + items[i + 1..]))
         case Replace(_, value) => Ok(Arr(items[i := value])))
    case Obj(fields) =>
      (match operation
       case Add(_, value) => if leaf in fields then Err(InvalidDelta) else Ok(Obj(fields[leaf := value]))
       case Remove(_) => if leaf in fields then Ok(Obj(fields - {leaf})) else Err(InvalidPath)
       case Replace(_, value) => if leaf in fields then Ok(Obj(fields[leaf := value])) else Err(InvalidPath))
    case _ => Err(InvalidPath)
  }

  /** Walks to the parent of the last segment and changes it there. */
  function Edit(root: Value, segments: seq<string>, operation: Operation): Result<Value, DeltaError>
    requires segments != []
    decreases |segments|
  {
    if |segments| == 1 then EditLeaf(root, segments[0], operation)
    else
      match root
      case Arr(items) =>
        (match ArrayIndex(segments[0], |items|, false)
         case None => Err(InvalidPath)
         case Some(i) =>
           match Edit(items[i], segments[1..], operation)
           case Err(e) => Err(e)
           case Ok(child) => Ok(Arr(items[i := child])))
      case Obj(fields) =>
        if segments[0] !in fields then Err(InvalidPath)
        else
          (match Edit(fields[segments[0]], segments[1..], operation)
           case Err(e) => Err(e)
           case Ok(child) => Ok(Obj(fields[segments[0] := child])))
      case _ => Err(InvalidPath)
  }

  /** The change an operation makes when its path leads along `segments`. */
  function Change(root: Value, segments: seq<string>, operation: Operation): Result<Value, DeltaError>
  {
    if segments != [] then Edit(root, segments, operation)
    else if operation.Remove? then Err(InvalidDelta)
    else Ok(operation.value)
  }

  function ApplyOperation(root: Value, operation: Operation): Result<Value, DeltaError>
  {
    match ParsePath(operation.path)
    case Err(e) => Err(e)
    case Ok(segments) => Change(root, segments, operation)
  }

  function ApplyAll(root: Value, operations: seq<Operation>): Result<Value, DeltaError>
    decreases |operations|
  {
    if operations == [] then Ok(root)
    else
      match ApplyOperation(root, operations[0])
      case Err(e) => Err(e)
      case Ok(next) => ApplyAll(next, operations[1..])
  }

  predicate IsHash(h: string)
  {
    && |h| == 71 && h[..7] == "sha256:"
    && forall i :: 7 <= i < 71 ==> Text.IsDigit(h[i]) || 'a' <= h[i] <= 'f'
  }

  predicate WellFormed(delta: Delta)
  {
    && IsHash(delta.baseHash) && IsHash(delta.targetHash)
    && forall i :: 0 <= i < |delta.operations| ==>
         var o := delta.operations[i];
         ParsePath(o.path).Ok? && (!o.Remove? ==> Serializable(o.value))
  }

  /** The loop over the operations, between the two hash checks. */
  method ApplyDelta(base: Value, delta: Delta, hash: string -> string) returns (r: Result<Value, DeltaError>)
    ensures r.Ok? <==>
            && Encodable(base) && WellFormed(delta) && hash(Print(base)) == delta.baseHash
            && ApplyAll(base, delta.operations).Ok?
            && Encodable(ApplyAll(base, delta.operations).value)
            && hash(Print(ApplyAll(base, delta.operations).value)) == delta.targetHash
    ensures r.Ok? ==> r == ApplyAll(base, delta.operations)
  {
    if !Serializable(base) {
      return Err(NotEncodable);
    }
    if !WellFormed(delta) {
      return Err(InvalidDelta);
    }
    var actualBase := EncodeValue(base);
    if actualBase.Err? {
      return Err(NotEncodable);
    }
    if hash(actualBase.value) != delta.baseHash {
      return Err(BaseMismatch);
    }
    var result := base;
    for i := 0 to |delta.operations|
      invariant ApplyAll(result, delta.operations[i..]) == ApplyAll(base, delta.operations)
    {
      assert delta.operations[i..][0] == delta.operations[i];
      assert delta.operations[i..][1..] == delta.operations[i + 1..];
      var next := ApplyOperation(result, delta.operations[i]);
      if next.Err? {
        return next;
      }
      result := next.value;
    }
    var actualTarget := EncodeValue(result);
    if actualTarget.Err? {
      return Err(NotEncodable);
    }
    if hash(actualTarget.value) != delta.targetHash {
      return Err(TargetMismatch);
    }
    r := Ok(result);
  }
}
