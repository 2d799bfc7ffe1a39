/** The structural comparison of two OpenAPI documents, and the patch it stands for. */
module StructuralDiff {
  import opened Prelude

  // ---------------------------------------------------------------- documents

  /** Infinities and the not-a-number value are outside JSON proper, but the parser accepts them. */
  datatype Json =
    | Null
    | Bool(b: bool)
    | Int(i: int)
    | Float(x: real)
    | Infinity(negative: bool)
    | NaN
    | Str(s: string)
    | List(items: seq<Json>)
    | Object(fields: map<string, Json>)

  function Number(j: Json): Option<real> {
    match j
    case Bool(b) => Some(if b then 1.0 else 0.0)
    case Int(i) => Some(i as real)
    case Float(x) => Some(x)
    case _ => None
  }

  /** Whether two values are the same inside a list or an object: identical or equal. A truth value
      equals the number one or zero, and an integer equals the fraction of the same value, at any
      depth. The parser has one object for not-a-number, which is identical to itself. */
  predicate Same(a: Json, b: Json)
    decreases a
  {
    match (a, b)
    case (Null, Null) => true
    case (NaN, NaN) => true
    case (Infinity(m), Infinity(n)) => m == n
    case (Str(s), Str(t)) => s == t
    case (List(s), List(t)) => |s| == |t| && forall i | 0 <= i < |s| :: Same(s[i], t[i])
    case (Object(m), Object(n)) => m.Keys == n.Keys && forall k | k in m :: Same(m[k], n[k])
    case _ => Number(a).Some? && Number(a) == Number(b)
  }

  /** Equality proper, by which not-a-number differs from itself. */
  predicate Equal(a: Json, b: Json) {
    Same(a, b) && !a.NaN?
  }

  /** The same document with every number written one way. */
  function Norm(j: Json): Json {
    match j
    case Bool(b) => Float(if b then 1.0 else 0.0)
    case Int(i) => Float(i as real)
    case List(s) => List(seq(|s|, i requires 0 <= i < |s| => Norm(s[i])))
    case Object(m) => Object(map k | k in m :: Norm(m[k]))
    case _ => j
  }

  /** Values are the same exactly if they are identical once numbers are written one way. */
  lemma {:induction false} SameIsSameNorm(a: Json, b: Json)
    ensures Same(a, b) <==> Norm(a) == Norm(b)
    decreases a
  {
    match (a, b)
    case (List(s), List(t)) => SameLists(a, b);
    case (Object(m), Object(n)) => SameObjects(a, b);
    case _ =>
  }

  lemma {:induction false} SameLists(a: Json, b: Json)
    requires a.List? && b.List?
    ensures Same(a, b) <==> Norm(a) == Norm(b)
    decreases a, 0
  {
    var s, t, x, y := a.items, b.items, Norm(a).items, Norm(b).items;
    assert |x| == |s| && |y| == |t|;
    if |s| == |t| {
      forall i | 0 <= i < |s|
        ensures Same(s[i], t[i]) <==> Norm(s[i]) == Norm(t[i])
        ensures x[i] == Norm(s[i]) && y[i] == Norm(t[i])
      {
        SameIsSameNorm(s[i], t[i]);
      }
      if Same(a, b) { assert x == y; }
      if x == y { forall i | 0 <= i < |s| ensures Same(s[i], t[i]) { assert x[i] == y[i]; } }
    }
  }

  lemma {:induction false} SameObjects(a: Json, b: Json)
    requires a.Object? && b.Object?
    ensures Same(a, b) <==> Norm(a) == Norm(b)
    decreases a, 0
  {
    var m, n := a.fields, b.fields;
    assert Norm(a).fields.Keys == m.Keys && Norm(b).fields.Keys == n.Keys;
    if m.Keys == n.Keys {
      forall k | k in m ensures Same(m[k], n[k]) <==> Norm(m[k]) == Norm(n[k]) {
        SameIsSameNorm(m[k], n[k]);
      }
      assert Norm(a) == Norm(b) <==> forall k | k in m :: Norm(a).fields[k] == Norm(b).fields[k];
    }
  }

  // ---------------------------------------------------------------- key order

  predicate Leq(a: string, b: string) {
    a == [] || (b != [] && (a[0] < b[0] || (a[0] == b[0] && Leq(a[1..], b[1..]))))
  }

  lemma {:induction false} LeqTotal(a: string, b: string)
    ensures Leq(a, b) || Leq(b, a)
    ensures Leq(a, b) && Leq(b, a) ==> a == b
  {
    if a != [] && b != [] && a[0] == b[0] {
      LeqTotal(a[1..], b[1..]);
      assert a == [a[0]] + a[1..] && b == [b[0]] + b[1..];
    }
  }

  lemma {:induction false} LeqTransitive(a: string, b: string, c: string)
    requires Leq(a, b) && Leq(b, c)
    ensures Leq(a, c)
  {
    if a != [] && a[0] == b[0] == c[0] { LeqTransitive(a[1..], b[1..], c[1..]); }
  }

  predicate IsLeast(s: set<string>, m: string) {
    m in s && forall x | x in s :: Leq(m, x)
  }

  lemma {:induction false} LeastExists(s: set<string>)
    requires s != {}
    ensures exists m :: IsLeast(s, m)
    decreases |s|
  {
    var x :| x in s;
    var rest := s - {x};
    LeqTotal(x, x);
    if rest == {} {
      assert s == {x};
      assert IsLeast(s, x);
    } else {
      LeastExists(rest);
      var m :| IsLeast(rest, m);
      LeqTotal(x, m);
      var least := if Leq(x, m) then x else m;
      forall y | y in s ensures Leq(least, y) {
        if y != x && least == x { LeqTransitive(x, m, y); }
      }
      assert IsLeast(s, least);
    }
  }

  function Sorted(s: set<string>): (keys: seq<string>)
    ensures forall k :: k in keys <==> k in s
    ensures forall i, j | 0 <= i < j < |keys| :: keys[i] != keys[j] && Leq(keys[i], keys[j])
    decreases |s|
  {
    if s == {} then []
    else
      LeastExists(s);
      var m := Least(s);
      [m] + Sorted(s - {m})
  }

  function Least(s: set<string>): (m: string)
    requires s != {}
    ensures IsLeast(s, m)
  {
    LeastExists(s);
    assert forall m, n | IsLeast(s, m) && IsLeast(s, n) :: m == n by {
      forall m, n | IsLeast(s, m) && IsLeast(s, n) ensures m == n { LeqTotal(m, n); }
    }
    var m :| IsLeast(s, m);
    m
  }

  // ---------------------------------------------------------------- differences

  datatype Op = Removed(before: Json) | Added(after: Json) | Changed(before: Json, after: Json)

  /** One difference, at the end of a path of keys. */
  datatype Edit = Edit(path: seq<string>, op: Op)

  function Prefix(k: string, edits: seq<Edit>): seq<Edit> {
    seq(|edits|, i requires 0 <= i < |edits| => Edit([k] + edits[i].path, edits[i].op))
  }

  function Removals(m: map<string, Json>, keys: seq<string>): seq<Edit>
    requires forall k | k in keys :: k in m
  {
    seq(|keys|, i requires 0 <= i < |keys| => Edit([keys[i]], Removed(m[keys[i]])))
  }

  function Additions(m: map<string, Json>, keys: seq<string>): seq<Edit>
    requires forall k | k in keys :: k in m
  {
    seq(|keys|, i requires 0 <= i < |keys| => Edit([keys[i]], Added(m[keys[i]])))
  }

  function Inner(before: Json, after: Json, keys: seq<string>): seq<Edit>
    requires before.Object? && after.Object?
    requires forall k | k in keys :: k in before.fields && k in after.fields
    decreases before, 0, |keys|
  {
    if keys == [] then []
    else Prefix(keys[0], Diff(before.fields[keys[0]], after.fields[keys[0]])) + Inner(before, after, keys[1..])
  }

  /** The differences in order: removed keys, added keys, then what differs below common keys. */
  function Diff(before: Json, after: Json): seq<Edit>
    decreases before, 1, 0
  {
    if before.Object? && after.Object? then
      var b, a := before.fields, after.fields;
      Removals(b, Sorted(b.Keys - a.Keys)) + Additions(a, Sorted(a.Keys - b.Keys)) +
      Inner(before, after, Sorted(b.Keys * a.Keys))
    else if Equal(before, after) then []
    else [Edit([], Changed(before, after))]
  }
}
