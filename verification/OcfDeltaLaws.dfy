/** A created delta rebuilds its target, in whatever order its operations are applied. */
module OcfDeltaLaws {
  import opened Outcomes
  import opened OcfValues
  import opened OcfDelta
  import OcfRoundTrip
  import Text

  /** Where an operation's pointer leads. */
  function Segments(operation: Operation): seq<string>
  {
    match ParsePath(operation.path)
    case Ok(segments) => segments
    case Err(_) => []
  }

  /** The operation points somewhere at or under `at`, through safe segments. */
  ghost predicate PointsUnder(operation: Operation, at: seq<string>)
  {
    && ParsePath(operation.path).Ok?
    && |at| <= |Segments(operation)|
    && Segments(operation)[..|at|] == at
  }

  /** Applies operations to the value found at depth `n` of their pointers. */
  function ApplyBelow(v: Value, operations: seq<Operation>, n: nat): Result<Value, DeltaError>
    requires forall o :: o in operations ==> n <= |Segments(o)|
    decreases |operations|
  {
    if operations == [] then Ok(v)
    else
      assert operations[0] in operations;
      match Change(v, Segments(operations[0])[n..], operations[0])
      case Err(e) => Err(e)
      case Ok(next) => ApplyBelow(next, operations[1..], n)
  }

  lemma {:induction false} ApplyBelowRoot(v: Value, operations: seq<Operation>)
    requires forall o :: o in operations ==> ParsePath(o.path).Ok?
    ensures ApplyBelow(v, operations, 0) == ApplyAll(v, operations)
    decreases |operations|
  {
    if operations != [] {
      var o := operations[0];
      assert o in operations;
      assert Segments(o)[0..] == Segments(o);
      var next := Change(v, Segments(o), o);
      if next.Ok? {
        ApplyBelowRoot(next.value, operations[1..]);
      }
    }
  }

  lemma {:induction false} ApplyBelowConcat(v: Value, a: seq<Operation>, b: seq<Operation>, n: nat)
    requires forall o :: o in a + b ==> n <= |Segments(o)|
    ensures forall o :: o in a || o in b ==> o in a + b
    ensures ApplyBelow(v, a + b, n) ==
            match ApplyBelow(v, a, n) { case Ok(m) => ApplyBelow(m, b, n) case Err(e) => Err(e) }
    decreases |a|
  {
    if a == [] {
      assert a + b == b;
    } else {
      assert a[0] in a + b && (a + b)[1..] == a[1..] + b;
      var next := Change(v, Segments(a[0])[n..], a[0]);
      if next.Ok? {
        ApplyBelowConcat(next.value, a[1..], b, n);
      }
    }
  }

  // ----- The pointers of a difference -----

  /** Operations of a difference found at `at` stay under it, and only replace `at` itself. */
  lemma {:induction false} DiffPoints(base: Value, target: Value, at: seq<string>)
    requires Serializable(base) && Serializable(target) && SafeSegments(at)
    ensures forall o :: o in Diff(base, target, at) ==> PointsUnder(o, at) && (Segments(o) == at ==> o.Replace?)
    decreases base, 1, 0
  {
    PointerRoundTrip(at);
    if base.Obj? && target.Obj? {
      var keys := Text.SortedKeys(base.fields.Keys + target.fields.Keys);
      DiffKeysPoint(base, target, at, keys);
    }
  }

  lemma {:induction false} DiffKeysPoint(base: Value, target: Value, at: seq<string>, keys: seq<string>)
    requires base.Obj? && target.Obj? && Serializable(base) && Serializable(target) && SafeSegments(at)
    requires forall k :: k in keys ==> k in base.fields || k in target.fields
    ensures forall o :: o in DiffKeys(base, target, at, keys) ==>
              PointsUnder(o, at) && |Segments(o)| > |at| && Segments(o)[|at|] in keys
    decreases base, 0, |keys|
  {
    if keys != [] {
      DiffKeyPoints(base, target, at, keys[0]);
      DiffKeysPoint(base, target, at, keys[1..]);
    }
  }

  lemma {:induction false} DiffKeyPoints(base: Value, target: Value, at: seq<string>, key: string)
    requires base.Obj? && target.Obj? && Serializable(base) && Serializable(target) && SafeSegments(at)
    requires key in base.fields || key in target.fields
    ensures forall o :: o in DiffKey(base, target, at, key) ==> PointsUnder(o, at + [key])
    ensures forall o :: o in DiffKey(base, target, at, key) ==>
              PointsUnder(o, at) && |Segments(o)| > |at| && Segments(o)[|at|] == key
    decreases base, 0, 0
  {
    PointerRoundTrip(at + [key]);
    if key in base.fields && key in target.fields {
      DiffPoints(base.fields[key], target.fields[key], at + [key]);
    }
    forall o | o in DiffKey(base, target, at, key)
      ensures PointsUnder(o, at + [key]) && PointsUnder(o, at) && |Segments(o)| > |at| && Segments(o)[|at|] == key
    {
      assert PointsUnder(o, at + [key]);
      assert Segments(o)[..|at|] == Segments(o)[..|at| + 1][..|at|];
      assert Segments(o)[|at|] == Segments(o)[..|at| + 1][|at|];
    }
  }

  // ----- Correctness -----

  /** Operations under one key of an object act on the value at that key. */
  lemma {:induction false} Lift(fields: map<string, Value>, key: string, operations: seq<Operation>, n: nat)
    requires key in fields
    requires forall o :: o in operations ==>
               |Segments(o)| > n && Segments(o)[n] == key && (|Segments(o)| == n + 1 ==> o.Replace?)
    ensures ApplyBelow(Obj(fields), operations, n) ==
            match ApplyBelow(fields[key], operations, n + 1)
            case Ok(child) => Ok(Obj(fields[key := child]))
            case Err(e) => Err(e)
    decreases |operations|
  {
    if operations == [] {
      assert fields[key := fields[key]] == fields;
    } else {
      var o := operations[0];
      assert o in operations;
      var rest := Segments(o)[n..];
      assert rest[0] == key && rest[1..] == Segments(o)[n + 1..];
      var next := Change(fields[key], rest[1..], o);
      if next.Ok? {
        Lift(fields[key := next.value], key, operations[1..], n);
        assert ApplyBelow(next.value, operations[1..], n + 1).Ok? ==>
          var child := ApplyBelow(next.value, operations[1..], n + 1).value;
          fields[key := next.value][key := child] == fields[key := child];
      }
    }
  }

  /** The properties once those under `keys` have been brought to the target. */
  function Merged(fields: map<string, Value>, target: map<string, Value>, keys: set<string>): map<string, Value>
  {
    map k | k in fields.Keys + target.Keys && (if k in keys then k in target else k in fields)
      :: if k in keys then target[k] else fields[k]
  }

  lemma {:induction false} DiffApplies(base: Value, target: Value, at: seq<string>)
    requires Serializable(base) && Serializable(target) && SafeSegments(at)
    ensures forall o :: o in Diff(base, target, at) ==> |at| <= |Segments(o)|
    ensures ApplyBelow(base, Diff(base, target, at), |at|) == Ok(target)
    decreases base, 1, 0
  {
    OcfRoundTrip.ValuesEqualIsEquality(base, target);
    if base != target {
      if base.Obj? && target.Obj? {
        var keys := Text.SortedKeys(base.fields.Keys + target.fields.Keys);
        DiffKeysApply(base, target, at, keys, base.fields);
        MergedAll(base.fields, target.fields, keys);
      } else {
        OneChange(base, at, Replace(Pointer(at), target));
      }
    }
  }

  lemma OneChange(v: Value, at: seq<string>, operation: Operation)
    requires SafeSegments(at) && operation.path == Pointer(at)
    ensures Segments(operation) == at
    ensures forall n: nat :: n <= |at| ==> ApplyBelow(v, [operation], n) == Change(v, at[n..], operation)
  {
    PointerRoundTrip(at);
    forall n: nat | n <= |at| ensures ApplyBelow(v, [operation], n) == Change(v, at[n..], operation) {
      assert [operation][1..] == [];
    }
  }

  lemma MergedAll(fields: map<string, Value>, target: map<string, Value>, keys: seq<string>)
    requires forall k :: k in keys <==> k in fields.Keys + target.Keys
    ensures Merged(fields, target, set k | k in keys) == target
  {
  }

  lemma {:induction false} DiffKeysApply(base: Value, target: Value, at: seq<string>, keys: seq<string>,
      fields: map<string, Value>)
    requires base.Obj? && target.Obj? && Serializable(base) && Serializable(target) && SafeSegments(at)
    requires Text.Distinct(keys)
    requires forall k :: k in keys ==> k in base.fields || k in target.fields
    requires forall k :: k in keys ==>
        (k in fields <==> k in base.fields) && (k in fields ==> fields[k] == base.fields[k])
    ensures forall o :: o in DiffKeys(base, target, at, keys) ==> |at| <= |Segments(o)|
    ensures ApplyBelow(Obj(fields), DiffKeys(base, target, at, keys), |at|)
         == Ok(Obj(Merged(fields, target.fields, set k | k in keys)))
    decreases base, 0, |keys|
  {
    DiffKeysPoint(base, target, at, keys);
    if keys == [] {
      assert Merged(fields, target.fields, set k | k in keys) == fields;
    } else {
      var key, rest := keys[0], keys[1..];
      var next := Merged(fields, target.fields, {key});
      DiffKeyApplies(base, target, at, key, fields);
      DiffKeysApply(base, target, at, rest, next);
      ApplyBelowConcat(Obj(fields), DiffKey(base, target, at, key), DiffKeys(base, target, at, rest), |at|);
      MergedTwice(fields, target.fields, keys);
    }
  }

  lemma MergedTwice(fields: map<string, Value>, target: map<string, Value>, keys: seq<string>)
    requires keys != []
    ensures Merged(Merged(fields, target, {keys[0]}), target, set k | k in keys[1..])
         == Merged(fields, target, set k | k in keys)
  {
    assert forall k :: k in keys <==> k == keys[0] || k in keys[1..];
  }

  lemma {:induction false} DiffKeyApplies(base: Value, target: Value, at: seq<string>, key: string,
      fields: map<string, Value>)
    requires base.Obj? && target.Obj? && Serializable(base) && Serializable(target) && SafeSegments(at)
    requires key in base.fields || key in target.fields
    requires (key in fields <==> key in base.fields) && (key in fields ==> fields[key] == base.fields[key])
    ensures forall o :: o in DiffKey(base, target, at, key) ==> |at| <= |Segments(o)|
    ensures ApplyBelow(Obj(fields), DiffKey(base, target, at, key), |at|)
         == Ok(Obj(Merged(fields, target.fields, {key})))
    decreases base, 0, 0
  {
    MergedOne(fields, target.fields, key);
    if key in base.fields && key in target.fields {
      DiffApplies(base.fields[key], target.fields[key], at + [key]);
      BelowLifts(base.fields[key], target.fields[key], at, key, fields);
      DiffPoints(base.fields[key], target.fields[key], at + [key]);
    } else {
      LoneKeyApplies(base, target, at, key, fields);
    }
  }

  lemma LoneKeyApplies(base: Value, target: Value, at: seq<string>, key: string, fields: map<string, Value>)
    requires base.Obj? && target.Obj? && SafeSegments(at + [key])
    requires (key in base.fields) != (key in target.fields) && (key in fields <==> key in base.fields)
    ensures forall o :: o in DiffKey(base, target, at, key) ==> |at| <= |Segments(o)|
    ensures ApplyBelow(Obj(fields), DiffKey(base, target, at, key), |at|)
         == Ok(Obj(if key in target.fields then fields[key := target.fields[key]] else fields - {key}))
  {
    assert (at + [key])[|at|..] == [key];
    OneChange(Obj(fields), at + [key], DiffKey(base, target, at, key)[0]);
  }

  lemma MergedOne(fields: map<string, Value>, target: map<string, Value>, key: string)
    ensures Merged(fields, target, {key}) == if key in target then fields[key := target[key]] else fields - {key}
  {
  }

  lemma BelowLifts(base: Value, target: Value, at: seq<string>, key: string, fields: map<string, Value>)
    requires Serializable(base) && Serializable(target) && SafeSegments(at + [key])
    requires key in fields && fields[key] == base
    requires forall o :: o in Diff(base, target, at + [key]) ==> |at| + 1 <= |Segments(o)|
    requires ApplyBelow(base, Diff(base, target, at + [key]), |at| + 1) == Ok(target)
    ensures ApplyBelow(Obj(fields), Diff(base, target, at + [key]), |at|) == Ok(Obj(fields[key := target]))
  {
    var operations := Diff(base, target, at + [key]);
    DiffPoints(base, target, at + [key]);
    forall o | o in operations
      ensures |Segments(o)| > |at| && Segments(o)[|at|] == key && (|Segments(o)| == |at| + 1 ==> o.Replace?)
    {
      assert PointsUnder(o, at + [key]);
      assert Segments(o)[|at|] == Segments(o)[..|at| + 1][|at|];
      if |Segments(o)| == |at| + 1 {
        assert Segments(o) == Segments(o)[..|at| + 1];
      }
    }
    Lift(fields, key, operations, |at|);
  }

  /** A difference is empty exactly when there is none. */
  lemma {:induction false} DiffEmpty(base: Value, target: Value, at: seq<string>)
    requires Serializable(base) && Serializable(target) && SafeSegments(at)
    ensures Diff(base, target, at) == [] <==> base == target
  {
    OcfRoundTrip.ValuesEqualIsEquality(base, target);
    DiffApplies(base, target, at);
  }

  // ----- Confluence -----

  /** Neither path leads through the other. */
  predicate Apart(a: seq<string>, b: seq<string>)
  {
    !(a <= b) && !(b <= a)
  }

  ghost predicate PairwiseApart(operations: seq<Operation>)
  {
    forall i, j :: 0 <= i < j < |operations| ==> Apart(Segments(operations[i]), Segments(operations[j]))
  }

  lemma {:induction false} DiffApart(base: Value, target: Value, at: seq<string>)
    requires Serializable(base) && Serializable(target) && SafeSegments(at)
    ensures PairwiseApart(Diff(base, target, at))
    decreases base, 1, 0
  {
    if base.Obj? && target.Obj? {
      DiffKeysApart(base, target, at, Text.SortedKeys(base.fields.Keys + target.fields.Keys));
    }
  }

  lemma {:induction false} DiffKeysApart(base: Value, target: Value, at: seq<string>, keys: seq<string>)
    requires base.Obj? && target.Obj? && Serializable(base) && Serializable(target) && SafeSegments(at)
    requires Text.Distinct(keys) && forall k :: k in keys ==> k in base.fields || k in target.fields
    ensures PairwiseApart(DiffKeys(base, target, at, keys))
    decreases base, 0, |keys|
  {
    if keys != [] {
      var key, rest := keys[0], keys[1..];
      var first, others := DiffKey(base, target, at, key), DiffKeys(base, target, at, rest);
      if key in base.fields && key in target.fields {
        DiffApart(base.fields[key], target.fields[key], at + [key]);
      }
      DiffKeysApart(base, target, at, rest);
      DiffKeyPoints(base, target, at, key);
      DiffKeysPoint(base, target, at, rest);
      forall a, b | a in first && b in others ensures Apart(Segments(a), Segments(b)) {
        assert Segments(a)[|at|] == key && Segments(b)[|at|] in rest;
      }
      ApartConcat(first, others);
    }
  }

  lemma ApartConcat(a: seq<Operation>, b: seq<Operation>)
    requires PairwiseApart(a) && PairwiseApart(b)
    requires forall x, y :: x in a && y in b ==> Apart(Segments(x), Segments(y))
    ensures PairwiseApart(a + b)
  {
    forall i, j | 0 <= i < j < |a + b| ensures Apart(Segments((a + b)[i]), Segments((a + b)[j])) {
      if i < |a| <= j {
        assert a[i] in a && b[j - |a|] in b;
      }
    }
  }

  /** The path runs through objects all the way to its last segment. */
  predicate ThroughObjects(v: Value, segments: seq<string>)
    decreases |segments|
  {
    segments == [] ||
    (v.Obj? && (|segments| > 1 ==> segments[0] in v.fields && ThroughObjects(v.fields[segments[0]], segments[1..])))
  }

  lemma {:induction false} DiffThroughObjects(base: Value, target: Value, at: seq<string>)
    requires Serializable(base) && Serializable(target) && SafeSegments(at)
    ensures forall o :: o in Diff(base, target, at) ==>
        |at| <= |Segments(o)| && ThroughObjects(base, Segments(o)[|at|..])
    decreases base, 1, 0
  {
    DiffPoints(base, target, at);
    if base.Obj? && target.Obj? {
      DiffKeysThroughObjects(base, target, at, Text.SortedKeys(base.fields.Keys + target.fields.Keys));
    } else {
      OneChange(base, at, Replace(Pointer(at), target));
    }
  }

  lemma {:induction false} DiffKeysThroughObjects(base: Value, target: Value, at: seq<string>, keys: seq<string>)
    requires base.Obj? && target.Obj? && Serializable(base) && Serializable(target) && SafeSegments(at)
    requires forall k :: k in keys ==> k in base.fields || k in target.fields
    ensures forall o :: o in DiffKeys(base, target, at, keys) ==>
              |at| <= |Segments(o)| && ThroughObjects(base, Segments(o)[|at|..])
    decreases base, 0, |keys|
  {
    if keys != [] {
      var key := keys[0];
      DiffKeysThroughObjects(base, target, at, keys[1..]);
      DiffKeyPoints(base, target, at, key);
      if key in base.fields && key in target.fields {
        DiffThroughObjects(base.fields[key], target.fields[key], at + [key]);
      }
      forall o | o in DiffKey(base, target, at, key) ensures ThroughObjects(base, Segments(o)[|at|..]) {
        var s := Segments(o)[|at|..];
        if |s| > 1 {
          assert s[0] == key && s[1..] == Segments(o)[|at| + 1..];
          if !(key in base.fields && key in target.fields) {
            OneChange(base, at + [key], o);
          }
        }
      }
    }
  }

  /** Changes at paths apart from each other do not block or overwrite one another. */
  lemma {:induction false} Commute(v: Value, a: Operation, b: Operation, s: seq<string>, t: seq<string>)
    requires Apart(s, t) && ThroughObjects(v, s) && ThroughObjects(v, t)
    requires Change(v, s, a).Ok? && Change(Change(v, s, a).value, t, b).Ok?
    ensures Change(v, t, b).Ok?
    ensures Change(Change(v, t, b).value, s, a) == Change(Change(v, s, a).value, t, b)
    decreases |s|
  {
    var f := v.fields;
    if s[0] == t[0] {
      var key := s[0];
      assert s == [key] + s[1..] && t == [key] + t[1..];
      assert |s| > 1 && |t| > 1;
      var first := Change(f[key], s[1..], a);
      assert Obj(f[key := first.value]).fields[key] == first.value;
      Commute(f[key], a, b, s[1..], t[1..]);
      var second := Change(f[key], t[1..], b);
      var both := Change(first.value, t[1..], b);
      assert f[key := first.value][key := both.value] == f[key := second.value][key := both.value];
    } else {
      CommuteAtFork(f, a, b, s, t);
    }
  }

  /** The properties after a change under one key. */
  function Touched(f: map<string, Value>, s: seq<string>, a: Operation): map<string, Value>
    requires s != [] && Change(Obj(f), s, a).Ok?
    ensures Change(Obj(f), s, a) == Ok(Obj(Touched(f, s, a)))
    ensures Touched(f, s, a) - {s[0]} == f - {s[0]}
  {
    Change(Obj(f), s, a).value.fields
  }

  lemma CommuteAtFork(f: map<string, Value>, a: Operation, b: Operation, s: seq<string>, t: seq<string>)
    requires s != [] && t != [] && s[0] != t[0]
    requires Change(Obj(f), s, a).Ok? && Change(Obj(Touched(f, s, a)), t, b).Ok?
    ensures Change(Obj(f), t, b).Ok?
    ensures Change(Obj(Touched(f, t, b)), s, a) == Change(Obj(Touched(f, s, a)), t, b)
  {
    var fs := Touched(f, s, a);
    SameAtKey(f, fs, t, b);
    var ft := Touched(f, t, b);
    SameAtKey(f, ft, s, a);
    assert Touched(ft, s, a) == Touched(fs, t, b) by {
      var x, y := Touched(ft, s, a), Touched(fs, t, b);
      forall k ensures k in x <==> k in y {
        assert k != s[0] ==> (k in x <==> k in ft);
        assert k != t[0] ==> (k in y <==> k in fs);
        assert k != s[0] ==> (k in fs <==> k in f);
        assert k != t[0] ==> (k in ft <==> k in f);
      }
      forall k | k in x ensures x[k] == y[k] {
        assert k != s[0] ==> x[k] == ft[k];
        assert k != t[0] ==> y[k] == fs[k];
      }
    }
  }

  /** A change under a key depends on, and decides, only what is at that key. */
  lemma SameAtKey(f: map<string, Value>, g: map<string, Value>, t: seq<string>, b: Operation)
    requires t != [] && (t[0] in f <==> t[0] in g) && (t[0] in f ==> f[t[0]] == g[t[0]])
    requires Change(Obj(f), t, b).Ok? || Change(Obj(g), t, b).Ok?
    ensures Change(Obj(f), t, b).Ok? && Change(Obj(g), t, b).Ok?
    ensures t[0] in Touched(f, t, b) <==> t[0] in Touched(g, t, b)
    ensures t[0] in Touched(f, t, b) ==> Touched(f, t, b)[t[0]] == Touched(g, t, b)[t[0]]
  {
  }

  lemma {:induction false} StillThroughObjects(v: Value, a: Operation, s: seq<string>, t: seq<string>)
    requires Apart(s, t) && ThroughObjects(v, s) && ThroughObjects(v, t) && Change(v, s, a).Ok?
    ensures ThroughObjects(Change(v, s, a).value, t)
    decreases |s|
  {
    var f := v.fields;
    if s[0] == t[0] {
      assert s == [s[0]] + s[1..] && t == [s[0]] + t[1..];
      assert |s| > 1 && |t| > 1;
      StillThroughObjects(f[s[0]], a, s[1..], t[1..]);
    } else {
      var g := Touched(f, s, a);
      assert t[0] in f ==> t[0] in f - {s[0]} && t[0] in g && g[t[0]] == (g - {s[0]})[t[0]];
    }
  }

  ghost predicate AllThroughObjects(v: Value, operations: seq<Operation>)
  {
    forall o :: o in operations ==> ParsePath(o.path).Ok? && ThroughObjects(v, Segments(o))
  }

  /** The operations but the one at `i`. */
  function Without(operations: seq<Operation>, i: nat): seq<Operation>
    requires i < |operations|
  {
    operations[..i] + operations[i + 1..]
  }

  /** An operation apart from those before it may be applied first. */
  lemma {:induction false} Advance(v: Value, operations: seq<Operation>, i: nat)
    requires i < |operations| && PairwiseApart(operations) && AllThroughObjects(v, operations)
    requires ApplyAll(v, operations).Ok?
    ensures ApplyAll(v, [operations[i]] + Without(operations, i)) == ApplyAll(v, operations)
    decreases i
  {
    var a, b := operations[0], operations[i];
    if i == 0 {
      assert [b] + Without(operations, 0) == operations;
    } else {
      var tail := Without(operations[1..], i - 1);
      assert a in operations && b in operations;
      StaysThroughObjects(v, operations);
      Advance(ApplyOperation(v, a).value, operations[1..], i - 1);
      WithoutLater(operations, i);
      Exchange(v, a, b, tail);
    }
  }

  lemma WithoutLater(operations: seq<Operation>, i: nat)
    requires 0 < i < |operations|
    ensures Without(operations, i) == [operations[0]] + Without(operations[1..], i - 1)
  {
  }

  /** Two operations apart from each other may change places. */
  lemma Exchange(v: Value, a: Operation, b: Operation, tail: seq<Operation>)
    requires AllThroughObjects(v, [a, b]) && Apart(Segments(a), Segments(b))
    requires ApplyOperation(v, a).Ok? && ApplyAll(ApplyOperation(v, a).value, [b] + tail).Ok?
    ensures ApplyAll(v, [b] + ([a] + tail)) == ApplyAll(ApplyOperation(v, a).value, [b] + tail)
  {
    assert a in [a, b] && b in [a, b];
    var next := ApplyOperation(v, a).value;
    assert ([b] + tail)[0] == b;
    FirstTwo(next, b, tail);
    Commute(v, a, b, Segments(a), Segments(b));
    FirstTwo(ApplyOperation(v, b).value, a, tail);
    FirstTwo(v, b, [a] + tail);
  }

  lemma FirstTwo(v: Value, a: Operation, tail: seq<Operation>)
    requires ApplyOperation(v, a).Ok?
    ensures ApplyAll(v, [a] + tail) == ApplyAll(ApplyOperation(v, a).value, tail)
  {
    assert ([a] + tail)[1..] == tail;
  }

  /** After the first operation the others still find their way. */
  lemma StaysThroughObjects(v: Value, operations: seq<Operation>)
    requires operations != [] && PairwiseApart(operations) && AllThroughObjects(v, operations)
    requires ApplyOperation(v, operations[0]).Ok?
    ensures AllThroughObjects(ApplyOperation(v, operations[0]).value, operations[1..])
    ensures PairwiseApart(operations[1..])
  {
    var a := operations[0];
    assert a in operations;
    forall o | o in operations[1..]
      ensures ParsePath(o.path).Ok? && ThroughObjects(ApplyOperation(v, a).value, Segments(o))
    {
      var j :| 1 <= j < |operations| && operations[j] == o;
      assert o in operations;
      StillThroughObjects(v, a, Segments(a), Segments(o));
    }
  }

  /** Any order of pairwise apart operations has the same result. */
  lemma {:induction false} AnyOrder(v: Value, operations: seq<Operation>, shuffled: seq<Operation>)
    requires PairwiseApart(operations) && AllThroughObjects(v, operations)
    requires ApplyAll(v, operations).Ok?
    requires multiset(operations) == multiset(shuffled)
    ensures ApplyAll(v, shuffled) == ApplyAll(v, operations)
    decreases |shuffled|
  {
    if shuffled == [] {
      assert multiset(operations) == multiset{} && |multiset(operations)| == |operations|;
    } else {
      var b := shuffled[0];
      var i := SharedHead(operations, shuffled);
      var rest := Without(operations, i);
      Advance(v, operations, i);
      Remaining(v, operations, i);
      FirstTwo(v, b, rest);
      AnyOrder(ApplyOperation(v, b).value, rest, shuffled[1..]);
      FirstTwo(v, b, shuffled[1..]);
      assert shuffled == [b] + shuffled[1..];
    }
  }

  lemma SharedHead(operations: seq<Operation>, shuffled: seq<Operation>) returns (i: nat)
    requires shuffled != [] && multiset(operations) == multiset(shuffled)
    ensures i < |operations| && operations[i] == shuffled[0]
    ensures multiset(Without(operations, i)) == multiset(shuffled[1..])
  {
    var b := shuffled[0];
    assert b in multiset(shuffled) && b in operations;
    i :| 0 <= i < |operations| && operations[i] == b;
    assert operations == operations[..i] + [b] + operations[i + 1..];
    assert shuffled == [b] + shuffled[1..];
    assert multiset(Without(operations, i)) == multiset(operations) - multiset{b};
    assert multiset(shuffled[1..]) == multiset(shuffled) - multiset{b};
  }

  lemma Remaining(v: Value, operations: seq<Operation>, i: nat)
    requires i < |operations| && PairwiseApart(operations) && AllThroughObjects(v, operations)
    requires ApplyAll(v, [operations[i]] + Without(operations, i)).Ok?
    ensures ApplyOperation(v, operations[i]).Ok?
    ensures AllThroughObjects(ApplyOperation(v, operations[i]).value, Without(operations, i))
    ensures PairwiseApart(Without(operations, i))
  {
    var advanced := [operations[i]] + Without(operations, i);
    assert advanced[0] == operations[i] && advanced[1..] == Without(operations, i);
    AdvancedSame(operations, i);
    StaysThroughObjects(v, advanced);
  }

  lemma AdvancedSame(operations: seq<Operation>, i: nat)
    requires i < |operations|
    ensures forall o :: o in [operations[i]] + Without(operations, i) ==> o in operations
    ensures PairwiseApart(operations) ==> PairwiseApart([operations[i]] + Without(operations, i))
  {
    var advanced := [operations[i]] + Without(operations, i);
    forall j | 0 <= j < |advanced|
        ensures advanced[j] == operations[if j == 0 then i else if j <= i then j - 1 else j] {
    }
  }

  // ----- The laws of the delta -----

  /** Applied in any order, the operations of a difference turn the base into the target. */
  lemma DeltaConfluent(base: Value, target: Value, shuffled: seq<Operation>)
    requires Serializable(base) && Serializable(target)
    requires multiset(shuffled) == multiset(Diff(base, target, []))
    ensures ApplyAll(base, shuffled) == Ok(target)
    ensures PairwiseApart(Diff(base, target, []))
  {
    var operations := Diff(base, target, []);
    DiffPoints(base, target, []);
    DiffApplies(base, target, []);
    ApplyBelowRoot(base, operations);
    DiffApart(base, target, []);
    DiffThroughObjects(base, target, []);
    forall o | o in operations ensures ParsePath(o.path).Ok? && ThroughObjects(base, Segments(o)) {
      assert PointsUnder(o, []) && Segments(o)[0..] == Segments(o);
    }
    AnyOrder(base, operations, shuffled);
  }

  lemma {:induction false} DiffSerializable(base: Value, target: Value, at: seq<string>)
    requires Serializable(base) && Serializable(target)
    ensures forall o :: o in Diff(base, target, at) && !o.Remove? ==> Serializable(o.value)
    decreases base, 1, 0
  {
    if base.Obj? && target.Obj? {
      DiffKeysSerializable(base, target, at, Text.SortedKeys(base.fields.Keys + target.fields.Keys));
    }
  }

  lemma {:induction false} DiffKeysSerializable(base: Value, target: Value, at: seq<string>, keys: seq<string>)
    requires base.Obj? && target.Obj? && Serializable(base) && Serializable(target)
    requires forall k :: k in keys ==> k in base.fields || k in target.fields
    ensures forall o :: o in DiffKeys(base, target, at, keys) && !o.Remove? ==> Serializable(o.value)
    decreases base, 0, |keys|
  {
    if keys != [] {
      var key := keys[0];
      DiffKeysSerializable(base, target, at, keys[1..]);
      if key in base.fields && key in target.fields {
        DiffSerializable(base.fields[key], target.fields[key], at + [key]);
      }
    }
  }

  /** What `applyDelta` demands before and after its loop holds of every created delta. */
  lemma CreatedDeltaApplies(base: Value, target: Value, hash: string -> string)
    requires Encodable(base) && Encodable(target)
    requires IsHash(hash(Print(base))) && IsHash(hash(Print(target)))
    ensures CreateDelta(base, target, hash).Ok?
    ensures var delta := CreateDelta(base, target, hash).value;
            && WellFormed(delta)
            && delta.baseHash == hash(Print(base)) && delta.targetHash == hash(Print(target))
            && ApplyAll(base, delta.operations) == Ok(target)
            && (delta.operations == [] <==> base == target)
  {
    var operations := Diff(base, target, []);
    DeltaConfluent(base, target, operations);
    DiffSerializable(base, target, []);
    DiffPoints(base, target, []);
    DiffEmpty(base, target, []);
    forall i | 0 <= i < |operations|
      ensures ParsePath(operations[i].path).Ok? && (!operations[i].Remove? ==> Serializable(operations[i].value))
    {
      assert operations[i] in operations && PointsUnder(operations[i], []);
    }
  }

  /** `applyDelta(base, createDelta(base, target))` yields the target. */
  method CreateThenApply(base: Value, target: Value, hash: string -> string) returns (r: Result<Value, DeltaError>)
    requires Encodable(base) && Encodable(target)
    requires IsHash(hash(Print(base))) && IsHash(hash(Print(target)))
    ensures r == Ok(target)
  {
    CreatedDeltaApplies(base, target, hash);
    r := ApplyDelta(base, CreateDelta(base, target, hash).value, hash);
  }

  /** With a collision-free hash, a delta is applied only to its own base and never rebuilds another target. */
  method ApplyRefusesStrangers(base: Value, delta: Delta, source: Value, target: Value, hash: string -> string)
    returns (r: Result<Value, DeltaError>)
    requires forall s: string, t: string :: hash(s) == hash(t) ==> s == t
    requires Encodable(source) && delta.baseHash == hash(Print(source))
    requires Encodable(target) && delta.targetHash == hash(Print(target))
    ensures r.Ok? ==> OcfRoundTrip.Normalize(base) == OcfRoundTrip.Normalize(source)
    ensures r.Ok? ==> OcfRoundTrip.Normalize(r.value) == OcfRoundTrip.Normalize(target)
  {
    r := ApplyDelta(base, delta, hash);
    if r.Ok? {
      OcfRoundTrip.EncodingsCanonical(base, source);
      OcfRoundTrip.EncodingsCanonical(r.value, target);
    }
  }
}
