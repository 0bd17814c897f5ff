/** Where the operations of a difference stand: at the places at which two values part, and nowhere else. */
module OcfDeltaPlaces {
  import opened Outcomes
  import opened OcfValues
  import opened OcfDelta
  import OcfRoundTrip
  import Text

  /** What a value has at the end of a way through objects. */
  function ValueAt(v: Value, segments: seq<string>): Option<Value>
  {
    if segments == [] then Some(v)
    else if v.Obj? && segments[0] in v.fields then ValueAt(v.fields[segments[0]], segments[1..])
    else None
  }

  /** The way there leads through objects in both values. */
  predicate ThroughObjects(base: Value, target: Value, segments: seq<string>)
  {
    forall i :: 0 <= i < |segments| ==> ObjectsAt(base, target, segments[..i])
  }

  /** The operation says how the values part there: only the target has something, or only the base has, or both have
      different things that are not both objects. */
  predicate Stands(o: Operation, base: Value, target: Value, segments: seq<string>)
  {
    var before, after := ValueAt(base, segments), ValueAt(target, segments);
    && ThroughObjects(base, target, segments)
    && match o
       case Add(_, v) => before.None? && after == Some(v)
       case Remove(_) => before.Some? && after.None?
       case Replace(_, v) => before.Some? && after == Some(v) && before.value != v && !(before.value.Obj? && v.Obj?)
  }

  ghost predicate StandsBelow(o: Operation, base: Value, target: Value, at: seq<string>)
  {
    exists segments :: Placed(o, base, target, at, segments)
  }

  predicate Placed(o: Operation, base: Value, target: Value, at: seq<string>, segments: seq<string>)
  {
    o.path == Pointer(at + segments) && Stands(o, base, target, segments)
  }

  predicate ObjectsAt(base: Value, target: Value, segments: seq<string>)
  {
    && ValueAt(base, segments).Some? && ValueAt(base, segments).value.Obj?
    && ValueAt(target, segments).Some? && ValueAt(target, segments).value.Obj?
  }

  lemma WayDown(v: Value, k: string, rest: seq<string>, i: nat)
    requires v.Obj? && i <= |rest|
    ensures ValueAt(v, ([k] + rest)[..i + 1]) == if k in v.fields then ValueAt(v.fields[k], rest[..i]) else None
  {
    assert ([k] + rest)[..i + 1] == [k] + rest[..i] && ([k] + rest[..i])[1..] == rest[..i];
  }

  lemma ThroughOneMore(base: Value, target: Value, k: string, rest: seq<string>)
    requires base.Obj? && target.Obj?
    ensures ThroughObjects(base, target, [k] + rest)
       <==> rest == [] || (k in base.fields && k in target.fields
                           && ThroughObjects(base.fields[k], target.fields[k], rest))
  {
    var way := [k] + rest;
    assert way[..0] == [] && ObjectsAt(base, target, []);
    hide ValueAt;
    forall i | 0 <= i < |rest|
      ensures ObjectsAt(base, target, way[..i + 1])
         <==> k in base.fields && k in target.fields && ObjectsAt(base.fields[k], target.fields[k], rest[..i])
    {
      WayDown(base, k, rest, i);
      WayDown(target, k, rest, i);
    }
    if ThroughObjects(base, target, way) && rest != [] {
      assert ObjectsAt(base, target, way[..0 + 1]);
      forall i | 0 <= i < |rest| ensures ObjectsAt(base.fields[k], target.fields[k], rest[..i]) {
        assert ObjectsAt(base, target, way[..i + 1]);
      }
    }
    if k in base.fields && k in target.fields && ThroughObjects(base.fields[k], target.fields[k], rest) {
      forall i | 0 <= i < |way| ensures ObjectsAt(base, target, way[..i]) {
        if i > 0 {
          assert ObjectsAt(base.fields[k], target.fields[k], rest[..i - 1]);
          assert ObjectsAt(base, target, way[..(i - 1) + 1]);
        }
      }
    }
  }

  lemma StandsOneDeeper(o: Operation, base: Value, target: Value, k: string, rest: seq<string>)
    requires base.Obj? && target.Obj?
    ensures Stands(o, base, target, [k] + rest)
       <==> if k in base.fields && k in target.fields then Stands(o, base.fields[k], target.fields[k], rest)
            else rest == []
                 && ((k in target.fields && o.Add? && o.value == target.fields[k]) || (k in base.fields && o.Remove?))
  {
    ThroughOneMore(base, target, k, rest);
    WayOn(base, k, rest);
    WayOn(target, k, rest);
    hide ValueAt;
    if rest == [] && k in base.fields && k in target.fields {
      assert ThroughObjects(base.fields[k], target.fields[k], rest);
    }
    hide ThroughObjects;
  }

  lemma WayOn(v: Value, k: string, rest: seq<string>)
    requires v.Obj?
    ensures ValueAt(v, [k] + rest) == if k in v.fields then ValueAt(v.fields[k], rest) else None
    ensures k in v.fields && rest == [] ==> ValueAt(v.fields[k], rest) == Some(v.fields[k])
  {
    assert ([k] + rest)[1..] == rest && ([k] + rest)[0] == k;
  }

  lemma {:induction false} KeysDiffer(base: Value, target: Value, at: seq<string>, keys: seq<string>, o: Operation)
    requires base.Obj? && target.Obj? && forall k :: k in keys ==> k in base.fields || k in target.fields
    ensures o in DiffKeys(base, target, at, keys) <==> exists k :: k in keys && o in DiffKey(base, target, at, k)
  {
    hide DiffKey;
    if keys != [] {
      var head := keys[0];
      KeysDiffer(base, target, at, keys[1..], o);
      assert keys == [head] + keys[1..];
      assert DiffKeys(base, target, at, keys)
          == DiffKey(base, target, at, head) + DiffKeys(base, target, at, keys[1..]);
      assert head in keys;
    }
  }

  /** The operations of a difference are exactly those that stand somewhere. */
  lemma {:induction false} DiffStands(base: Value, target: Value, at: seq<string>, o: Operation)
    ensures o in Diff(base, target, at) <==> StandsBelow(o, base, target, at)
    decreases base, 1
  {
    OcfRoundTrip.ValuesEqualIsEquality(base, target);
    if base == target {
      SameNowhere(o, base, at);
    } else if base.Obj? && target.Obj? {
      var keys := Text.SortedKeys(base.fields.Keys + target.fields.Keys);
      KeysDiffer(base, target, at, keys, o);
      forall k | k in base.fields || k in target.fields
        ensures o in DiffKey(base, target, at, k) <==> exists rest :: Placed(o, base, target, at, [k] + rest)
      {
        KeyStands(base, target, at, k, o);
      }
      ObjectsPlace(o, base, target, at, keys);
    } else {
      AtomsPlace(o, base, target, at);
    }
  }

  lemma SameNowhere(o: Operation, v: Value, at: seq<string>)
    ensures !StandsBelow(o, v, v, at)
  {
  }

  lemma NoWayThroughAtoms(base: Value, target: Value, segments: seq<string>)
    requires !(base.Obj? && target.Obj?)
    ensures ThroughObjects(base, target, segments) ==> segments == []
  {
    if segments != [] {
      assert segments[..0] == [];
      assert !ObjectsAt(base, target, segments[..0]);
    }
  }

  lemma AtomsPlace(o: Operation, base: Value, target: Value, at: seq<string>)
    requires base != target && !(base.Obj? && target.Obj?)
    ensures StandsBelow(o, base, target, at) <==> o == Replace(Pointer(at), target)
  {
    assert at + [] == at;
    if segments :| Placed(o, base, target, at, segments) {
      NoWayThroughAtoms(base, target, segments);
    }
    if o == Replace(Pointer(at), target) {
      assert Placed(o, base, target, at, []);
    }
  }

  lemma ObjectsPlace(o: Operation, base: Value, target: Value, at: seq<string>, keys: seq<string>)
    requires base.Obj? && target.Obj? && keys == Text.SortedKeys(base.fields.Keys + target.fields.Keys)
    ensures StandsBelow(o, base, target, at)
       <==> exists k :: k in keys && exists rest :: Placed(o, base, target, at, [k] + rest)
  {
    hide Text.SortedKeys;
    if segments :| Placed(o, base, target, at, segments) {
      assert segments != [];
      var k, rest := segments[0], segments[1..];
      assert segments == [k] + rest;
      StandsOneDeeper(o, base, target, k, rest);
    }
  }

  lemma {:induction false} KeyStands(base: Value, target: Value, at: seq<string>, k: string, o: Operation)
    requires base.Obj? && target.Obj? && (k in base.fields || k in target.fields)
    ensures o in DiffKey(base, target, at, k) <==> exists rest :: Placed(o, base, target, at, [k] + rest)
    decreases base, 0
  {
    forall rest ensures at + ([k] + rest) == at + [k] + rest {
    }
    if k in base.fields && k in target.fields {
      DiffStands(base.fields[k], target.fields[k], at + [k], o);
      hide Diff, Stands;
      forall rest
        ensures Placed(o, base, target, at, [k] + rest)
           <==> Placed(o, base.fields[k], target.fields[k], at + [k], rest)
      {
        StandsOneDeeper(o, base, target, k, rest);
      }
    } else {
      hide Stands;
      forall rest
        ensures Placed(o, base, target, at, [k] + rest)
           <==> rest == [] && o in DiffKey(base, target, at, k)
      {
        StandsOneDeeper(o, base, target, k, rest);
        assert at + [k] + [] == at + [k];
      }
      assert o in DiffKey(base, target, at, k) ==> Placed(o, base, target, at, [k] + []);
    }
  }

  // ----- The order of the operations -----

  /** At the first name in which the two ways part, the first one's comes first. */
  predicate Precedes(a: seq<string>, b: seq<string>)
  {
    exists n :: 0 <= n < |a| && n < |b| && a[..n] == b[..n] && a[n] != b[n] && Text.StringLeq(a[n], b[n])
  }

  /** The paths of these operations, all below `at`, come in the order of their names. */
  ghost predicate InOrder(operations: seq<Operation>, at: seq<string>)
  {
    forall i, j :: 0 <= i < j < |operations| ==> OneBefore(operations[i], operations[j], at)
  }

  ghost predicate OneBefore(o: Operation, next: Operation, at: seq<string>)
  {
    exists a, b :: o.path == Pointer(at + a) && next.path == Pointer(at + b) && Precedes(a, b)
  }

  lemma PrecedesBelow(k: string, a: seq<string>, b: seq<string>)
    requires Precedes(a, b)
    ensures Precedes([k] + a, [k] + b)
  {
    hide Text.StringLeq;
    var n :| 0 <= n < |a| && n < |b| && a[..n] == b[..n] && a[n] != b[n] && Text.StringLeq(a[n], b[n]);
    var a', b' := [k] + a, [k] + b;
    assert a'[..n + 1] == [k] + a[..n] && b'[..n + 1] == [k] + b[..n];
    assert a'[n + 1] == a[n] && b'[n + 1] == b[n];
  }

  lemma PrecedesBeside(k: string, a: seq<string>, l: string, b: seq<string>)
    requires k != l && Text.StringLeq(k, l)
    ensures Precedes([k] + a, [l] + b)
  {
    hide Text.StringLeq;
    var a', b' := [k] + a, [l] + b;
    assert a'[..0] == b'[..0] && a'[0] == k && b'[0] == l;
  }

  lemma Deeper(o: Operation, next: Operation, at: seq<string>, k: string)
    requires OneBefore(o, next, at + [k])
    ensures OneBefore(o, next, at)
  {
    hide Precedes, Pointer;
    var a, b :| o.path == Pointer(at + [k] + a) && next.path == Pointer(at + [k] + b) && Precedes(a, b);
    assert at + [k] + a == at + ([k] + a) && at + [k] + b == at + ([k] + b);
    PrecedesBelow(k, a, b);
  }

  lemma BelowTheirKeys(base: Value, target: Value, at: seq<string>, k: string, l: string, o: Operation, next: Operation)
    requires base.Obj? && target.Obj? && (k in base.fields || k in target.fields)
    requires l in base.fields || l in target.fields
    requires o in DiffKey(base, target, at, k) && next in DiffKey(base, target, at, l)
    requires k != l && Text.StringLeq(k, l)
    ensures OneBefore(o, next, at)
  {
    hide DiffKey, Stands, Text.StringLeq, Precedes, Pointer;
    KeyStands(base, target, at, k, o);
    KeyStands(base, target, at, l, next);
    var a :| Placed(o, base, target, at, [k] + a);
    var b :| Placed(next, base, target, at, [l] + b);
    PrecedesBeside(k, a, l, b);
  }

  lemma {:induction false} KeysInOrder(base: Value, target: Value, at: seq<string>, keys: seq<string>)
    requires base.Obj? && target.Obj? && forall k :: k in keys ==> k in base.fields || k in target.fields
    requires forall i, j :: 0 <= i < j < |keys| ==> keys[i] != keys[j] && Text.StringLeq(keys[i], keys[j])
    requires forall k :: k in keys ==> InOrder(DiffKey(base, target, at, k), at)
    ensures InOrder(DiffKeys(base, target, at, keys), at)
  {
    if keys != [] {
      var head, tail := keys[0], keys[1..];
      assert head in keys && forall k :: k in tail ==> k in keys;
      KeysInOrder(base, target, at, tail);
      var front, back := DiffKey(base, target, at, head), DiffKeys(base, target, at, tail);
      hide DiffKey, OneBefore, DiffKeys;
      forall i, j | 0 <= i < |front| && 0 <= j < |back| ensures OneBefore(front[i], back[j], at) {
        KeysDiffer(base, target, at, tail, back[j]);
        var l :| l in tail && back[j] in DiffKey(base, target, at, l);
        BelowTheirKeys(base, target, at, head, l, front[i], back[j]);
      }
      assert DiffKeys(base, target, at, keys) == front + back by { KeysSplit(base, target, at, keys); }
      OrdersJoin(front, back, at);
    }
  }

  lemma KeysSplit(base: Value, target: Value, at: seq<string>, keys: seq<string>)
    requires base.Obj? && target.Obj? && keys != [] && forall k :: k in keys ==> k in base.fields || k in target.fields
    ensures DiffKeys(base, target, at, keys)
         == DiffKey(base, target, at, keys[0]) + DiffKeys(base, target, at, keys[1..])
  {
  }

  lemma OrdersJoin(front: seq<Operation>, back: seq<Operation>, at: seq<string>)
    requires InOrder(front, at) && InOrder(back, at)
    requires forall i, j :: 0 <= i < |front| && 0 <= j < |back| ==> OneBefore(front[i], back[j], at)
    ensures InOrder(front + back, at)
  {
    hide OneBefore;
    var all := front + back;
    forall i, j | 0 <= i < j < |all| ensures OneBefore(all[i], all[j], at) {
      if i < |front| <= j {
        assert all[j] == back[j - |front|];
      }
    }
  }

  lemma {:induction false} DiffInOrder(base: Value, target: Value, at: seq<string>)
    ensures InOrder(Diff(base, target, at), at)
    decreases base
  {
    if base.Obj? && target.Obj? {
      var keys := Text.SortedKeys(base.fields.Keys + target.fields.Keys);
      forall i, j | 0 <= i < j < |keys| ensures keys[i] != keys[j] && Text.StringLeq(keys[i], keys[j]) {
        Text.SortedKeysInOrder(base.fields.Keys + target.fields.Keys, i, j);
      }
      hide Text.SortedKeys;
      forall k | k in keys ensures InOrder(DiffKey(base, target, at, k), at) {
        if k in base.fields && k in target.fields {
          var inner := Diff(base.fields[k], target.fields[k], at + [k]);
          DiffInOrder(base.fields[k], target.fields[k], at + [k]);
          hide OneBefore;
          forall i, j | 0 <= i < j < |inner| ensures OneBefore(inner[i], inner[j], at) {
            Deeper(inner[i], inner[j], at, k);
          }
        }
      }
      KeysInOrder(base, target, at, keys);
      hide InOrder;
    }
  }

  // ----- Created deltas -----

  /** A created delta adds exactly where only the target has something, removes exactly where only the base has, and
      replaces exactly where both have different things that are not both objects; it descends through objects alone,
      and goes by the order of names. */
  lemma DeltaIsLocal(base: Value, target: Value, hash: string -> string, o: Operation)
    requires CreateDelta(base, target, hash).Ok?
    ensures var operations := CreateDelta(base, target, hash).value.operations;
            && (o in operations
                <==> exists segments :: o.path == Pointer(segments) && Stands(o, base, target, segments))
            && InOrder(operations, [])
  {
    DiffStands(base, target, [], o);
    DiffInOrder(base, target, []);
    hide Stands, InOrder, Diff, EncodeValue;
    assert forall segments: seq<string> :: [] + segments == segments;
    if segments :| o.path == Pointer(segments) && Stands(o, base, target, segments) {
      assert Placed(o, base, target, [], segments);
    }
  }

  // ----- What applying an operation changes -----

  /** What one name of a path leads to: a field of an object, or the item of an array that the name numbers. */
  function Child(v: Value, name: string): Option<Value>
  {
    match v
    case Obj(fields) => if name in fields then Some(fields[name]) else None
    case Arr(items) =>
      if Text.IsCanonicalNatural(name) && Text.Digits(name) < |items| && Text.Digits(name) <= MAX_SAFE_INTEGER
      then Some(items[Text.Digits(name)])
      else None
    case _ => None
  }

  lemma NamesNumberOnce(v: Value, name: string, other: string)
    requires v.Arr? && name != other
    ensures Child(v, name).Some? && Child(v, other).Some? ==> Text.Digits(name) != Text.Digits(other)
  {
    hide Text.Digits;
    if Child(v, name).Some? && Child(v, other).Some? {
      Text.CanonicalIsDecimal(name);
      Text.CanonicalIsDecimal(other);
    }
  }

  /** A longer path edits what its first name leads to, and nothing else of the value changes. */
  lemma EditReaches(root: Value, segments: seq<string>, o: Operation, other: string)
    requires |segments| > 1
    ensures var child, r := Child(root, segments[0]), Edit(root, segments, o);
            && (r.Ok? <==> child.Some? && Edit(child.value, segments[1..], o).Ok?)
            && (r.Ok? ==>
                  && Child(r.value, segments[0]) == Some(Edit(child.value, segments[1..], o).value)
                  && (other != segments[0] ==> Child(r.value, other) == Child(root, other))
                  && (root.Arr? ==> r.value.Arr? && |r.value.items| == |root.items|)
                  && (root.Obj? ==> r.value.Obj? && r.value.fields.Keys == root.fields.Keys))
  {
    hide Text.Digits, Text.IsCanonicalNatural, Edit;
    EditUnfolds(root, segments, o);
    if root.Arr? && other != segments[0] {
      NamesNumberOnce(root, other, segments[0]);
    }
  }

  lemma EditUnfolds(root: Value, segments: seq<string>, o: Operation)
    requires |segments| > 1
    ensures Edit(root, segments, o)
         == match Child(root, segments[0])
            case None => Err(InvalidPath)
            case Some(child) =>
              match Edit(child, segments[1..], o)
              case Err(e) => Err(e)
              case Ok(edited) =>
                Ok(if root.Obj? then Obj(root.fields[segments[0] := edited])
                   else Arr(root.items[Text.Digits(segments[0]) := edited]))
  {
    hide EditLeaf, Text.Digits, Text.IsCanonicalNatural;
  }

  /** In an object a name is added that is not there, and removed or replaced if it is; no other name changes. */
  lemma ObjectLeaf(fields: map<string, Value>, leaf: string, o: Operation)
    ensures var r := EditLeaf(Obj(fields), leaf, o);
            && (r.Ok? <==> (o.Add? <==> leaf !in fields))
            && (r.Ok? ==>
                  && r.value.Obj?
                  && (leaf in r.value.fields <==> !o.Remove?)
                  && (!o.Remove? ==> r.value.fields[leaf] == o.value)
                  && r.value.fields - {leaf} == fields - {leaf})
  {
  }

  /** In an array, an index at which there is an item, or at the end for an addition, takes an item in, takes one out,
      or changes one; the items before it stay, and those behind it move by one or stay. */
  lemma ArrayLeaf(items: seq<Value>, leaf: string, o: Operation)
    ensures var r := EditLeaf(Arr(items), leaf, o);
            && (r.Ok? <==> exists i: nat :: i <= MAX_SAFE_INTEGER && leaf == Text.Decimal(i)
                                            && (i < |items| || (i == |items| && o.Add?)))
            && forall i: nat :: r.Ok? && leaf == Text.Decimal(i) ==>
                 && i <= |items| && r.value.Arr?
                 && match o
                    case Add(_, v) =>
                      |r.value.items| == |items| + 1 && r.value.items[i] == v
                      && r.value.items[..i] == items[..i] && r.value.items[i + 1..] == items[i..]
                    case Remove(_) =>
                      i < |items| && |r.value.items| == |items| - 1
                      && r.value.items[..i] == items[..i] && r.value.items[i..] == items[i + 1..]
                    case Replace(_, v) =>
                      i < |items| && |r.value.items| == |items| && r.value.items[i] == v
                      && r.value.items[..i] == items[..i] && r.value.items[i + 1..] == items[i + 1..]
  {
    hide Text.Digits, Text.Decimal;
    forall i: nat ensures Text.IsCanonicalNatural(Text.Decimal(i)) && Text.Digits(Text.Decimal(i)) == i {
      Text.DecimalDenotes(i);
    }
    if Text.IsCanonicalNatural(leaf) {
      Text.CanonicalIsDecimal(leaf);
    }
  }
}
