/** The differences also say what was there before: turned around they lead back. */
module StructuralUndo {
  import opened Prelude
  import opened StructuralDiff
  import opened StructuralPatch

  /** The same difference, seen from the newer document. */
  function Flip(e: Edit): Edit {
    Edit(e.path, match e.op
                 case Removed(x) => Added(x)
                 case Added(x) => Removed(x)
                 case Changed(x, y) => Changed(y, x))
  }

  function FlipAll(edits: seq<Edit>): seq<Edit> {
    seq(|edits|, i requires 0 <= i < |edits| => Flip(edits[i]))
  }

  lemma FlipPlus(x: seq<Edit>, y: seq<Edit>)
    ensures FlipAll(x + y) == FlipAll(x) + FlipAll(y)
  {
  }

  lemma FlipPrefix(k: string, edits: seq<Edit>)
    ensures FlipAll(Prefix(k, edits)) == Prefix(k, FlipAll(edits))
  {
  }

  lemma FlipRemovals(m: map<string, Json>, keys: seq<string>)
    requires forall k | k in keys :: k in m
    ensures FlipAll(Removals(m, keys)) == Additions(m, keys)
    ensures FlipAll(Additions(m, keys)) == Removals(m, keys)
  {
  }

  lemma PrefixPlus(k: string, x: seq<Edit>, y: seq<Edit>)
    ensures Prefix(k, x + y) == Prefix(k, x) + Prefix(k, y)
  {
  }

  /** Reordered differences stay so below a key. */
  lemma {:induction false} PrefixReordered(k: string, x: seq<Edit>, y: seq<Edit>)
    requires multiset(x) == multiset(y)
    ensures multiset(Prefix(k, x)) == multiset(Prefix(k, y))
    decreases x
  {
    if x == [] {
      NoneReordered(y);
    } else {
      var a, b := TakeApart(x, y);
      PrefixReordered(k, x[1..], a + b);
      PrefixApart(k, a, x[0], b);
      PrefixApart(k, [], x[0], x[1..]);
      assert [] + [x[0]] + x[1..] == x && [] + x[1..] == x[1..];
    }
  }

  lemma PrefixApart(k: string, a: seq<Edit>, e: Edit, b: seq<Edit>)
    ensures multiset(Prefix(k, a + [e] + b)) == multiset(Prefix(k, [e])) + multiset(Prefix(k, a + b))
  {
    PrefixPlus(k, a + [e], b);
    PrefixPlus(k, a, [e]);
    PrefixPlus(k, a, b);
  }

  lemma SameSymmetric(a: Json, b: Json)
    ensures Equal(a, b) <==> Equal(b, a)
  {
    SameIsSameNorm(a, b);
    SameIsSameNorm(b, a);
  }

  lemma {:induction false} FlipInner(before: Json, after: Json, keys: seq<string>)
    requires before.Object? && after.Object?
    requires forall k | k in keys :: k in before.fields && k in after.fields
    ensures multiset(FlipAll(Inner(before, after, keys))) == multiset(Inner(after, before, keys))
    decreases before, 0, |keys|
  {
    if keys != [] {
      var k := keys[0];
      var here, there := Diff(before.fields[k], after.fields[k]), Diff(after.fields[k], before.fields[k]);
      FlipInner(before, after, keys[1..]);
      FlipDiff(before.fields[k], after.fields[k]);
      FlipPlus(Prefix(k, here), Inner(before, after, keys[1..]));
      FlipPrefix(k, here);
      PrefixReordered(k, FlipAll(here), there);
    }
  }

  /** Turned around, the differences are those of the documents the other way round. */
  lemma {:induction false} FlipDiff(before: Json, after: Json)
    ensures multiset(FlipAll(Diff(before, after))) == multiset(Diff(after, before))
    decreases before, 1, 0
  {
    if before.Object? && after.Object? {
      var b, a := before.fields, after.fields;
      var gone, new', both := Sorted(b.Keys - a.Keys), Sorted(a.Keys - b.Keys), Sorted(b.Keys * a.Keys);
      assert a.Keys * b.Keys == b.Keys * a.Keys;
      FlipInner(before, after, both);
      FlipRemovals(b, gone);
      FlipRemovals(a, new');
      FlipPlus(Removals(b, gone) + Additions(a, new'), Inner(before, after, both));
      FlipPlus(Removals(b, gone), Additions(a, new'));
    } else {
      SameSymmetric(before, after);
      assert FlipAll([]) == [];
    }
  }

  /** The differences turned around and applied to the newer document, in any order, give back the older. */
  lemma UndoGivesBefore(before: Json, after: Json, edits: seq<Edit>) returns (result: Json)
    requires multiset(edits) == multiset(FlipAll(Diff(before, after)))
    ensures ApplyAll(edits, Some(after)) == Some(result) && Same(result, before)
  {
    FlipDiff(before, after);
    result := PatchGivesAfter(after, before, edits);
  }
}
