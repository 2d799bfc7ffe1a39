/** The differences as a patch: applied in any order, they turn the older document into the newer. */
module StructuralPatch {
  import opened Prelude
  import opened StructuralDiff

  // ---------------------------------------------------------------- applying differences

  function At(m: map<string, Json>, k: string): Option<Json> {
    if k in m then Some(m[k]) else None
  }

  function Put(m: map<string, Json>, k: string, o: Option<Json>): map<string, Json> {
    match o
    case None => m - {k}
    case Some(j) => m[k := j]
  }

  /** The effect of one difference on what is found at its start, if anything. A path that leads
      through something other than an object has no effect. */
  function Apply(e: Edit, o: Option<Json>): Option<Json>
    decreases |e.path|
  {
    if e.path == [] then
      match e.op
      case Removed(_) => None
      case Added(j) => Some(j)
      case Changed(_, j) => Some(j)
    else if o.Some? && o.value.Object? then
      var m := o.value.fields;
      Some(Object(Put(m, e.path[0], Apply(Edit(e.path[1..], e.op), At(m, e.path[0])))))
    else o
  }

  function ApplyAll(edits: seq<Edit>, o: Option<Json>): Option<Json> {
    if edits == [] then o else ApplyAll(edits[1..], Apply(edits[0], o))
  }

  /** The differences below the key k, seen from there. */
  function Below(edits: seq<Edit>, k: string): seq<Edit> {
    if edits == [] then []
    else if edits[0].path != [] && edits[0].path[0] == k
    then [Edit(edits[0].path[1..], edits[0].op)] + Below(edits[1..], k)
    else Below(edits[1..], k)
  }

  ghost predicate Nested(edits: seq<Edit>) {
    forall e | e in edits :: e.path != []
  }

  /** Differences below different keys do not interfere. */
  lemma {:induction false} ApplyAllByKey(edits: seq<Edit>, m: map<string, Json>) returns (m': map<string, Json>)
    requires Nested(edits)
    ensures ApplyAll(edits, Some(Object(m))) == Some(Object(m'))
    ensures forall k :: At(m', k) == ApplyAll(Below(edits, k), At(m, k))
    decreases edits
  {
    if edits == [] {
      m' := m;
    } else {
      var e := edits[0];
      assert e in edits;
      var n := Put(m, e.path[0], Apply(Edit(e.path[1..], e.op), At(m, e.path[0])));
      assert forall x | x in edits[1..] :: x in edits;
      m' := ApplyAllByKey(edits[1..], n);
      forall k ensures At(m', k) == ApplyAll(Below(edits, k), At(m, k)) {
        if k == e.path[0] {
          var first := Edit(e.path[1..], e.op);
          assert ([first] + Below(edits[1..], k))[1..] == Below(edits[1..], k);
        }
      }
    }
  }

  // ---------------------------------------------------------------- order does not matter

  lemma TailPlus<T>(x: seq<T>, y: seq<T>)
    requires x != []
    ensures (x + y)[1..] == x[1..] + y
  {
  }

  lemma Associative<T>(x: seq<T>, y: seq<T>, z: seq<T>)
    ensures x + (y + z) == x + y + z
  {
  }

  lemma {:induction false} BelowPlus(x: seq<Edit>, y: seq<Edit>, k: string)
    ensures Below(x + y, k) == Below(x, k) + Below(y, k)
    decreases x
  {
    if x == [] {
      assert x + y == y;
    } else {
      BelowPlus(x[1..], y, k);
      TailPlus(x, y);
      var e := x[0];
      if e.path != [] && e.path[0] == k {
        Associative([Edit(e.path[1..], e.op)], Below(x[1..], k), Below(y, k));
      }
    }
  }

  lemma Without<T>(a: seq<T>, e: T, b: seq<T>)
    ensures multiset(a + [e] + b) - multiset{e} == multiset(a + b)
  {
  }

  lemma WithoutFirst<T>(x: seq<T>)
    requires x != []
    ensures multiset(x) - multiset{x[0]} == multiset(x[1..])
  {
    assert x == [x[0]] + x[1..];
  }

  lemma SplitAt<T>(y: seq<T>, i: nat)
    requires i < |y|
    ensures y == y[..i] + [y[i]] + y[i + 1..]
  {
  }

  lemma TakeApart<T>(x: seq<T>, y: seq<T>) returns (a: seq<T>, b: seq<T>)
    requires x != [] && multiset(x) == multiset(y)
    ensures y == a + [x[0]] + b && multiset(x[1..]) == multiset(a + b)
  {
    assert x[0] in multiset(y);
    var i :| 0 <= i < |y| && y[i] == x[0];
    a, b := y[..i], y[i + 1..];
    SplitAt(y, i);
    Without(a, x[0], b);
    WithoutFirst(x);
  }

  lemma BelowApart(a: seq<Edit>, e: Edit, b: seq<Edit>, k: string)
    ensures multiset(Below(a + [e] + b, k)) == multiset(Below([e], k)) + multiset(Below(a + b, k))
  {
    BelowPlus(a, b, k);
    BelowThree(a, [e], b, k);
  }

  /** The same differences in another order are the same differences below each key. */
  lemma {:induction false} BelowReordered(x: seq<Edit>, y: seq<Edit>, k: string)
    requires multiset(x) == multiset(y)
    ensures multiset(Below(x, k)) == multiset(Below(y, k))
    decreases x
  {
    if x == [] {
      NoneReordered(y);
    } else {
      var a, b := TakeApart(x, y);
      BelowReordered(x[1..], a + b, k);
      BelowApart(a, x[0], b, k);
      BelowApart([], x[0], x[1..], k);
      assert [] + [x[0]] + x[1..] == x && [] + x[1..] == x[1..];
    }
  }

  lemma OneReordered(x: seq<Edit>, e: Edit)
    requires multiset(x) == multiset{e}
    ensures x == [e]
  {
    assert |x| == |multiset(x)| == 1;
    assert x[0] in multiset(x);
  }

  lemma NoneReordered(x: seq<Edit>)
    requires multiset(x) == multiset{}
    ensures x == []
  {
    assert |x| == |multiset(x)| == 0;
  }

  // ---------------------------------------------------------------- differences below a key

  lemma {:induction false} BelowPrefix(h: string, edits: seq<Edit>, k: string)
    ensures Below(Prefix(h, edits), k) == if h == k then edits else []
    decreases edits
  {
    if edits != [] {
      BelowPrefix(h, edits[1..], k);
      assert Prefix(h, edits)[1..] == Prefix(h, edits[1..]);
      assert ([h] + edits[0].path)[1..] == edits[0].path;
      assert Edit(edits[0].path, edits[0].op) == edits[0];
    }
  }

  ghost predicate DistinctKeys(keys: seq<string>) {
    forall i, j | 0 <= i < j < |keys| :: keys[i] != keys[j]
  }

  lemma {:induction false} BelowRemovals(m: map<string, Json>, keys: seq<string>, k: string)
    requires DistinctKeys(keys) && forall x | x in keys :: x in m
    ensures Below(Removals(m, keys), k) == if k in keys then [Edit([], Removed(m[k]))] else []
    decreases keys
  {
    if keys != [] {
      BelowRemovals(m, keys[1..], k);
      assert Removals(m, keys)[1..] == Removals(m, keys[1..]);
      assert Removals(m, keys)[0].path[1..] == [];
      assert k in keys <==> k == keys[0] || k in keys[1..];
    }
  }

  lemma {:induction false} BelowAdditions(m: map<string, Json>, keys: seq<string>, k: string)
    requires DistinctKeys(keys) && forall x | x in keys :: x in m
    ensures Below(Additions(m, keys), k) == if k in keys then [Edit([], Added(m[k]))] else []
    decreases keys
  {
    if keys != [] {
      BelowAdditions(m, keys[1..], k);
      assert Additions(m, keys)[1..] == Additions(m, keys[1..]);
      assert Additions(m, keys)[0].path[1..] == [];
      assert k in keys <==> k == keys[0] || k in keys[1..];
    }
  }

  lemma {:induction false} BelowInner(before: Json, after: Json, keys: seq<string>, k: string)
    requires before.Object? && after.Object? && DistinctKeys(keys)
    requires forall x | x in keys :: x in before.fields && x in after.fields
    ensures Below(Inner(before, after, keys), k) ==
            if k in keys then Diff(before.fields[k], after.fields[k]) else []
    decreases keys
  {
    if keys != [] {
      var h := keys[0];
      BelowInner(before, after, keys[1..], k);
      var here := Prefix(h, Diff(before.fields[h], after.fields[h]));
      BelowPlus(here, Inner(before, after, keys[1..]), k);
      BelowPrefix(h, Diff(before.fields[h], after.fields[h]), k);
      assert k in keys <==> k == h || k in keys[1..];
    }
  }

  /** Seen from a key, the comparison is the comparison of what the two documents have there. */
  lemma DiffBelow(before: Json, after: Json, k: string)
    requires before.Object? && after.Object?
    ensures var b, a := before.fields, after.fields;
            Below(Diff(before, after), k) ==
            if k in b then if k in a then Diff(b[k], a[k]) else [Edit([], Removed(b[k]))]
            else if k in a then [Edit([], Added(a[k]))] else []
  {
    var b, a := before.fields, after.fields;
    PartsBelow(before, after, Sorted(b.Keys - a.Keys), Sorted(a.Keys - b.Keys), Sorted(b.Keys * a.Keys), k);
  }

  lemma PartsBelow(before: Json, after: Json, gone: seq<string>, new': seq<string>, both: seq<string>, k: string)
    requires before.Object? && after.Object? && DistinctKeys(gone) && DistinctKeys(new') && DistinctKeys(both)
    requires forall x | x in gone :: x in before.fields
    requires forall x | x in new' :: x in after.fields
    requires forall x | x in both :: x in before.fields && x in after.fields
    ensures var b, a := before.fields, after.fields;
            Below(Removals(b, gone) + Additions(a, new') + Inner(before, after, both), k) ==
            (if k in gone then [Edit([], Removed(b[k]))] else []) +
            (if k in new' then [Edit([], Added(a[k]))] else []) +
            (if k in both then Diff(b[k], a[k]) else [])
  {
    BelowThree(Removals(before.fields, gone), Additions(after.fields, new'), Inner(before, after, both), k);
    BelowRemovals(before.fields, gone, k);
    BelowAdditions(after.fields, new', k);
    BelowInner(before, after, both, k);
  }

  lemma BelowThree(x: seq<Edit>, y: seq<Edit>, z: seq<Edit>, k: string)
    ensures Below(x + y + z, k) == Below(x, k) + Below(y, k) + Below(z, k)
  {
    BelowPlus(x + y, z, k);
    BelowPlus(x, y, k);
  }

  lemma {:induction false} InnerNested(before: Json, after: Json, keys: seq<string>)
    requires before.Object? && after.Object?
    requires forall x | x in keys :: x in before.fields && x in after.fields
    ensures Nested(Inner(before, after, keys))
    decreases keys
  {
    if keys != [] { InnerNested(before, after, keys[1..]); }
  }

  lemma DiffNested(before: Json, after: Json)
    requires before.Object? && after.Object?
    ensures Nested(Diff(before, after))
  {
    InnerNested(before, after, Sorted(before.fields.Keys * after.fields.Keys));
  }

  // ---------------------------------------------------------------- patching

  lemma ApplyOne(e: Edit, o: Option<Json>)
    ensures ApplyAll([e], o) == Apply(e, o)
  {
    assert [e][1..] == [];
  }

  /** Applying the differences, in any order, to the older document gives the newer one. */
  lemma {:induction false} PatchGivesAfter(before: Json, after: Json, edits: seq<Edit>) returns (result: Json)
    requires multiset(edits) == multiset(Diff(before, after))
    ensures ApplyAll(edits, Some(before)) == Some(result) && Same(result, after)
    decreases before
  {
    if before.Object? && after.Object? {
      DiffNested(before, after);
      assert Nested(edits) by {
        forall e | e in edits ensures e in Diff(before, after) { assert e in multiset(edits); }
      }
      var fields := ApplyAllByKey(edits, before.fields);
      result := Object(fields);
      forall k
        ensures k in fields <==> k in after.fields
        ensures k in fields ==> Same(fields[k], after.fields[k])
      {
        PatchAtKey(before, after, edits, fields, k);
      }
    } else if Equal(before, after) {
      NoneReordered(edits);
      result := before;
    } else {
      OneReordered(edits, Edit([], Changed(before, after)));
      ApplyOne(edits[0], Some(before));
      SameIsSameNorm(after, after);
      result := after;
    }
  }

  lemma {:induction false} PatchAtKey(before: Json, after: Json, edits: seq<Edit>, fields: map<string, Json>, k: string)
    requires before.Object? && after.Object? && multiset(edits) == multiset(Diff(before, after))
    requires At(fields, k) == ApplyAll(Below(edits, k), At(before.fields, k))
    ensures k in fields <==> k in after.fields
    ensures k in fields ==> Same(fields[k], after.fields[k])
    decreases before, 0
  {
    var b, a := before.fields, after.fields;
    BelowReordered(edits, Diff(before, after), k);
    DiffBelow(before, after, k);
    if k in b && k in a {
      var r := PatchGivesAfter(b[k], a[k], Below(edits, k));
    } else if k in b {
      OneReordered(Below(edits, k), Edit([], Removed(b[k])));
      ApplyOne(Below(edits, k)[0], At(b, k));
    } else if k in a {
      OneReordered(Below(edits, k), Edit([], Added(a[k])));
      ApplyOne(Below(edits, k)[0], At(b, k));
      SameIsSameNorm(a[k], a[k]);
    } else {
      NoneReordered(Below(edits, k));
    }
  }

  /** Both documents have not-a-number at the same place, reached through objects only. */
  predicate MeetAtNaN(a: Json, b: Json)
    decreases a
  {
    if a.Object? && b.Object? then exists k :: k in a.fields && k in b.fields && MeetAtNaN(a.fields[k], b.fields[k])
    else a.NaN? && b.NaN?
  }

  /** The comparison is empty exactly when the documents are the same and do not have not-a-number at
      one place reached through objects. */
  lemma {:induction false} EmptyMeansSame(before: Json, after: Json)
    ensures Diff(before, after) == [] <==> Same(before, after) && !MeetAtNaN(before, after)
    decreases before
  {
    if before.Object? && after.Object? {
      if Diff(before, after) == [] {
        EmptyObjects(before, after);
      } else if Same(before, after) {
        DifferentObjects(before, after);
      }
    }
  }

  lemma {:induction false} EmptyObjects(before: Json, after: Json)
    requires before.Object? && after.Object? && Diff(before, after) == []
    ensures Same(before, after) && !MeetAtNaN(before, after)
    decreases before, 0
  {
    var r := PatchGivesAfter(before, after, []);
    forall k | k in before.fields && k in after.fields ensures !MeetAtNaN(before.fields[k], after.fields[k]) {
      DiffBelow(before, after, k);
      EmptyMeansSame(before.fields[k], after.fields[k]);
    }
  }

  lemma {:induction false} DifferentObjects(before: Json, after: Json)
    requires before.Object? && after.Object? && Diff(before, after) != [] && Same(before, after)
    ensures MeetAtNaN(before, after)
    decreases before, 0
  {
    DiffNested(before, after);
    assert Diff(before, after)[0] in Diff(before, after);
    var k := Diff(before, after)[0].path[0];
    DiffBelow(before, after, k);
    assert k in before.fields && k in after.fields;
    EmptyMeansSame(before.fields[k], after.fields[k]);
  }

  /** For object-rooted documents: empty exactly when they are equal, up to not-a-number. */
  lemma EmptyMeansEqual(before: Json, after: Json)
    requires before.Object? && after.Object?
    ensures Diff(before, after) == [] <==> Equal(before, after) && !MeetAtNaN(before, after)
  {
    EmptyMeansSame(before, after);
  }

  lemma TruthAndOneLookAlike(k: string)
    ensures Bool(true) != Int(1) && Diff(Object(map[k := Bool(true)]), Object(map[k := Int(1)])) == []
  {
    var before, after := Object(map[k := Bool(true)]), Object(map[k := Int(1)]);
    assert Number(Bool(true)) == Number(Int(1));
    assert Same(before, after);
    EmptyMeansEqual(before, after);
  }

  /** Equal documents can have a difference reported: not-a-number under a key. */
  lemma NaNLooksChanged(k: string)
    ensures Equal(Object(map[k := NaN]), Object(map[k := NaN]))
    ensures Diff(Object(map[k := NaN]), Object(map[k := NaN])) != []
  {
    var d := Object(map[k := NaN]);
    assert Same(d, d);
    assert k in d.fields && MeetAtNaN(d.fields[k], d.fields[k]);
    EmptyMeansEqual(d, d);
  }

  // ---------------------------------------------------------------- places

  /** No path leads to or through the end of another. */
  ghost predicate PrefixFree(edits: seq<Edit>) {
    forall i, j | 0 <= i < |edits| && 0 <= j < |edits| && i != j :: !(edits[i].path <= edits[j].path)
  }

  /** Two differences whose first keys differ, or that are apart below the same key, are apart. */
  lemma {:induction false} BelowCount(edits: seq<Edit>, k: string, i: nat) returns (n: nat)
    requires Nested(edits) && i < |edits| && edits[i].path[0] == k
    ensures n < |Below(edits, k)| && Below(edits, k)[n] == Edit(edits[i].path[1..], edits[i].op)
    ensures n == |Below(edits[..i], k)|
    decreases edits
  {
    assert edits[0] in edits && edits[i] in edits;
    if i == 0 {
      n := 0;
    } else {
      assert forall x | x in edits[1..] :: x in edits;
      assert edits[1..][i - 1] == edits[i];
      assert edits[..i][1..] == edits[1..][..i - 1];
      n := BelowCount(edits[1..], k, i - 1);
      if edits[0].path[0] == k { n := n + 1; }
    }
  }

  lemma BelowInOrder(edits: seq<Edit>, k: string, i: nat, j: nat) returns (m: nat, n: nat)
    requires Nested(edits) && i < j < |edits| && edits[i].path[0] == k == edits[j].path[0]
    ensures m < n < |Below(edits, k)|
    ensures Below(edits, k)[m].path == edits[i].path[1..] && Below(edits, k)[n].path == edits[j].path[1..]
  {
    m := BelowCount(edits, k, i);
    n := BelowCount(edits, k, j);
    assert edits[..j] == edits[..i] + [edits[i]] + edits[i + 1..j];
    assert edits[i] in edits;
    BelowThree(edits[..i], [edits[i]], edits[i + 1..j], k);
  }

  lemma TailsToo(p: seq<string>, q: seq<string>)
    requires p != [] && q != []
    ensures p <= q ==> p[0] == q[0] && p[1..] <= q[1..]
  {
    if p <= q { assert p[1..] <= q[1..]; }
  }

  lemma PrefixFreeByKey(edits: seq<Edit>)
    requires Nested(edits) && forall k :: PrefixFree(Below(edits, k))
    ensures PrefixFree(edits)
  {
    forall i, j | 0 <= i < |edits| && 0 <= j < |edits| && i != j ensures !(edits[i].path <= edits[j].path) {
      assert edits[i] in edits && edits[j] in edits;
      var k := edits[i].path[0];
      if edits[j].path[0] == k {
        assert PrefixFree(Below(edits, k));
        if i < j {
          var m, n := BelowInOrder(edits, k, i, j);
        } else {
          var m, n := BelowInOrder(edits, k, j, i);
        }
      }
      TailsToo(edits[i].path, edits[j].path);
    }
  }

  /** The differences are at distinct places, none of them inside another. */
  lemma {:induction false} DiffPrefixFree(before: Json, after: Json)
    ensures PrefixFree(Diff(before, after))
    decreases before
  {
    if before.Object? && after.Object? {
      DiffNested(before, after);
      forall k ensures PrefixFree(Below(Diff(before, after), k)) {
        DiffBelow(before, after, k);
        if k in before.fields && k in after.fields {
          DiffPrefixFree(before.fields[k], after.fields[k]);
        }
      }
      PrefixFreeByKey(Diff(before, after));
    }
  }
}
