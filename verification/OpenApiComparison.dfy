/** The comparison report: differences named by JSON pointers (RFC 6901), and their counts. */
module OpenApiComparison {
  import opened Prelude
  import opened StructuralDiff
  import opened StructuralPatch

  // ---------------------------------------------------------------- pointers

  function Replace(s: string, c: char, text: string): string {
    if s == [] then [] else (if s[0] == c then text else [s[0]]) + Replace(s[1..], c, text)
  }

  function Escape(key: string): string {
    Replace(Replace(key, '~', "~0"), '/', "~1")
  }

  function Join(pointer: string, key: string): string {
    pointer + "/" + Escape(key)
  }

  /** The pointer that following the keys from the root builds up. */
  function Pointer(path: seq<string>): string {
    if path == [] then "" else Join(Pointer(path[..|path| - 1]), path[|path| - 1])
  }

  /** Undoes the escapes, as section 4 of RFC 6901 has it. */
  function Unescape(s: string): string {
    if |s| >= 2 && s[0] == '~' && s[1] == '0' then "~" + Unescape(s[2..])
    else if |s| >= 2 && s[0] == '~' && s[1] == '1' then "/" + Unescape(s[2..])
    else if s == [] then []
    else [s[0]] + Unescape(s[1..])
  }

  /** The text up to the next slash. */
  function Token(s: string): (t: string)
    ensures |t| <= |s|
  {
    if s == [] || s[0] == '/' then [] else [s[0]] + Token(s[1..])
  }

  /** The keys that a pointer names, as section 3 of RFC 6901 has it. */
  function Parse(pointer: string): seq<string>
    decreases |pointer|
  {
    if pointer == [] then []
    else [Unescape(Token(pointer[1..]))] + Parse(pointer[1 + |Token(pointer[1..])|..])
  }

  function Escaped(c: char): string {
    if c == '~' then "~0" else if c == '/' then "~1" else [c]
  }

  lemma {:induction false} ReplacePlus(s: string, t: string, c: char, text: string)
    ensures Replace(s + t, c, text) == Replace(s, c, text) + Replace(t, c, text)
  {
    if s == [] {
      assert s + t == t;
    } else {
      ReplacePlus(s[1..], t, c, text);
      assert (s + t)[1..] == s[1..] + t;
    }
  }

  lemma EscapeHead(s: string)
    requires s != []
    ensures Escape(s) == Escaped(s[0]) + Escape(s[1..])
  {
    var head := if s[0] == '~' then "~0" else [s[0]];
    ReplacePlus(head, Replace(s[1..], '~', "~0"), '/', "~1");
    if s[0] == '~' {
      assert head[1..] == "0" && "0"[1..] == "";
    } else {
      assert head[1..] == "";
    }
  }

  lemma {:induction false} UnescapeEscape(s: string)
    ensures Unescape(Escape(s)) == s && '/' !in Escape(s)
  {
    if s != [] {
      EscapeHead(s);
      UnescapeEscape(s[1..]);
      var rest := Escape(s[1..]);
      if s[0] == '~' || s[0] == '/' {
        assert (Escaped(s[0]) + rest)[2..] == rest;
      } else {
        assert (Escaped(s[0]) + rest)[1..] == rest;
      }
    }
  }

  lemma {:induction false} TokenStops(s: string, t: string)
    requires '/' !in s && (t == [] || t[0] == '/')
    ensures Token(s + t) == s
  {
    if s == [] {
      assert s + t == t;
    } else {
      TokenStops(s[1..], t);
      assert (s + t)[1..] == s[1..] + t;
    }
  }

  lemma {:induction false} PointerHead(k: string, path: seq<string>)
    ensures Pointer([k] + path) == Join("", k) + Pointer(path)
    decreases path
  {
    if path == [] {
      assert ([k] + path)[..0] == [];
      assert [k] + path == [k];
    } else {
      var front, last := path[..|path| - 1], path[|path| - 1];
      PointerHead(k, front);
      assert ([k] + path)[..|path|] == [k] + front;
      assert Join("", k) + (Pointer(front) + "/" + Escape(last)) ==
             (Join("", k) + Pointer(front)) + "/" + Escape(last);
    }
  }

  lemma {:induction false} PointerStart(path: seq<string>)
    ensures path != [] <==> Pointer(path) != []
    ensures path != [] ==> Pointer(path)[0] == '/'
  {
    if path != [] {
      PointerHead(path[0], path[1..]);
      assert [path[0]] + path[1..] == path;
    }
  }

  /** Parsing a pointer gives back the path, so different paths have different pointers. */
  lemma {:induction false} ParsePointer(path: seq<string>)
    ensures Parse(Pointer(path)) == path
    decreases path
  {
    if path != [] {
      var k, rest := path[0], path[1..];
      ParsePointer(rest);
      PointerHead(k, rest);
      assert [k] + rest == path;
      UnescapeEscape(k);
      PointerStart(rest);
      TokenStops(Escape(k), Pointer(rest));
      var tail := Pointer(path)[1..];
      assert tail == Escape(k) + Pointer(rest);
      assert Pointer(path)[1 + |Escape(k)|..] == Pointer(rest);
    }
  }

  // ---------------------------------------------------------------- the report

  datatype Change = Change(pointer: string, op: Op)

  /** A difference as reported from a place; a root that is not an object is reported as "/". */
  function Render(pointer: string, e: Edit): Change {
    var p := pointer + Pointer(e.path);
    Change(if p == "" then "/" else p, e.op)
  }

  function RenderAll(pointer: string, edits: seq<Edit>): seq<Change> {
    seq(|edits|, i requires 0 <= i < |edits| => Render(pointer, edits[i]))
  }

  lemma RenderPlus(pointer: string, x: seq<Edit>, y: seq<Edit>)
    ensures RenderAll(pointer, x + y) == RenderAll(pointer, x) + RenderAll(pointer, y)
  {
    var all, apart := RenderAll(pointer, x + y), RenderAll(pointer, x) + RenderAll(pointer, y);
    assert |all| == |apart|;
    forall i | 0 <= i < |all| ensures all[i] == apart[i] {
      if i < |x| { assert (x + y)[i] == x[i]; } else { assert (x + y)[i] == y[i - |x|]; }
    }
  }

  lemma RenderBelow(pointer: string, k: string, e: Edit)
    ensures Render(pointer, Edit([k] + e.path, e.op)) == Render(Join(pointer, k), e)
  {
    PointerHead(k, e.path);
    assert pointer + (Join("", k) + Pointer(e.path)) == Join(pointer, k) + Pointer(e.path);
  }

  /** Differences below a key are reported from the place of the key. */
  lemma RenderPrefix(pointer: string, k: string, edits: seq<Edit>)
    ensures RenderAll(pointer, Prefix(k, edits)) == RenderAll(Join(pointer, k), edits)
  {
    var here, below := RenderAll(pointer, Prefix(k, edits)), RenderAll(Join(pointer, k), edits);
    assert |here| == |below|;
    forall i | 0 <= i < |edits| ensures here[i] == below[i] {
      assert Prefix(k, edits)[i] == Edit([k] + edits[i].path, edits[i].op);
      RenderBelow(pointer, k, edits[i]);
    }
  }

  lemma RenderKey(pointer: string, k: string, op: Op)
    ensures Render(pointer, Edit([k], op)) == Change(Join(pointer, k), op)
  {
    PointerHead(k, []);
    assert [k] + [] == [k];
    assert pointer + Join("", k) == Join(pointer, k);
  }

  /** What the comparison still reports below common keys, from the i-th on. */
  ghost function Rest(before: Json, after: Json, i: nat): seq<Edit>
    requires before.Object? && after.Object?
    requires i <= |Sorted(before.fields.Keys * after.fields.Keys)|
  {
    var both := Sorted(before.fields.Keys * after.fields.Keys);
    assert forall k | k in both[i..] :: k in both;
    Inner(before, after, both[i..])
  }

  lemma RestNext(before: Json, after: Json, i: nat)
    requires before.Object? && after.Object?
    requires i < |Sorted(before.fields.Keys * after.fields.Keys)|
    ensures var k := Sorted(before.fields.Keys * after.fields.Keys)[i];
            k in before.fields && k in after.fields &&
            Rest(before, after, i) == Prefix(k, Diff(before.fields[k], after.fields[k])) + Rest(before, after, i + 1)
  {
    var both := Sorted(before.fields.Keys * after.fields.Keys);
    assert both[i] in both && both[i..][1..] == both[i + 1..];
  }

  method ReportRemovals(b: map<string, Json>, keys: seq<string>, pointer: string) returns (result: seq<Change>)
    requires forall k | k in keys :: k in b
    ensures result == RenderAll(pointer, Removals(b, keys))
  {
    result := [];
    for i := 0 to |keys|
      invariant |result| == i
      invariant forall j | 0 <= j < i :: result[j] == Render(pointer, Removals(b, keys)[j])
    {
      RenderKey(pointer, keys[i], Removed(b[keys[i]]));
      result := result + [Change(Join(pointer, keys[i]), Removed(b[keys[i]]))];
    }
  }

  method ReportAdditions(a: map<string, Json>, keys: seq<string>, pointer: string) returns (result: seq<Change>)
    requires forall k | k in keys :: k in a
    ensures result == RenderAll(pointer, Additions(a, keys))
  {
    result := [];
    for i := 0 to |keys|
      invariant |result| == i
      invariant forall j | 0 <= j < i :: result[j] == Render(pointer, Additions(a, keys)[j])
    {
      RenderKey(pointer, keys[i], Added(a[keys[i]]));
      result := result + [Change(Join(pointer, keys[i]), Added(a[keys[i]]))];
    }
  }

  method ReportCommon(before: Json, after: Json, pointer: string) returns (result: seq<Change>)
    requires before.Object? && after.Object?
    ensures result == RenderAll(pointer, Rest(before, after, 0))
    decreases before, 0
  {
    var both := Sorted(before.fields.Keys * after.fields.Keys);
    result := [];
    for i := 0 to |both|
      invariant result + RenderAll(pointer, Rest(before, after, i)) == RenderAll(pointer, Rest(before, after, 0))
    {
      RestNext(before, after, i);
      var k := both[i];
      var b, a := before.fields[k], after.fields[k];
      var below := Differences(b, a, Join(pointer, k));
      RenderPrefix(pointer, k, Diff(b, a));
      RenderPlus(pointer, Prefix(k, Diff(b, a)), Rest(before, after, i + 1));
      assert result + (below + RenderAll(pointer, Rest(before, after, i + 1))) ==
             (result + below) + RenderAll(pointer, Rest(before, after, i + 1));
      result := result + below;
    }
  }

  /** The recursive comparison, which passes the pointer down. */
  method Differences(before: Json, after: Json, pointer: string) returns (result: seq<Change>)
    ensures result == RenderAll(pointer, Diff(before, after))
    decreases before, 1
  {
    if before.Object? && after.Object? {
      var b, a := before.fields, after.fields;
      var removals := ReportRemovals(b, Sorted(b.Keys - a.Keys), pointer);
      var additions := ReportAdditions(a, Sorted(a.Keys - b.Keys), pointer);
      var common := ReportCommon(before, after, pointer);
      RenderThree(pointer, before, after);
      result := removals + additions + common;
    } else if Equal(before, after) {
      result := [];
    } else {
      result := [Change(if pointer == "" then "/" else pointer, Changed(before, after))];
      assert pointer + Pointer([]) == pointer;
    }
  }

  lemma RenderThree(pointer: string, before: Json, after: Json)
    requires before.Object? && after.Object?
    ensures var b, a := before.fields, after.fields;
            RenderAll(pointer, Diff(before, after)) ==
            RenderAll(pointer, Removals(b, Sorted(b.Keys - a.Keys))) +
            RenderAll(pointer, Additions(a, Sorted(a.Keys - b.Keys))) + RenderAll(pointer, Rest(before, after, 0))
  {
    var b, a := before.fields, after.fields;
    var x, y := Removals(b, Sorted(b.Keys - a.Keys)), Additions(a, Sorted(a.Keys - b.Keys));
    var both := Sorted(b.Keys * a.Keys);
    assert both[0..] == both;
    RenderPlus(pointer, x + y, Rest(before, after, 0));
    RenderPlus(pointer, x, y);
  }

  // ---------------------------------------------------------------- the report as a patch

  /** What a reader of the report makes of a difference: the keys of its pointer, and the change. */
  function Read(c: Change): Edit {
    Edit(Parse(c.pointer), c.op)
  }

  function ReadAll(changes: seq<Change>): seq<Edit> {
    if changes == [] then [] else [Read(changes[0])] + ReadAll(changes[1..])
  }

  lemma ReadRender(e: Edit)
    requires e.path != []
    ensures Read(Render("", e)) == e
  {
    PointerStart(e.path);
    ParsePointer(e.path);
    assert "" + Pointer(e.path) == Pointer(e.path);
  }

  lemma {:induction false} ReadRenderAll(edits: seq<Edit>)
    requires Nested(edits)
    ensures ReadAll(RenderAll("", edits)) == edits
    decreases edits
  {
    if edits != [] {
      assert edits[0] in edits && forall e | e in edits[1..] :: e in edits;
      ReadRender(edits[0]);
      ReadRenderAll(edits[1..]);
      assert RenderAll("", edits)[1..] == RenderAll("", edits[1..]);
    }
  }

  lemma {:induction false} ReadPlus(x: seq<Change>, y: seq<Change>)
    ensures ReadAll(x + y) == ReadAll(x) + ReadAll(y)
    decreases x
  {
    if x == [] {
      assert x + y == y;
    } else {
      ReadPlus(x[1..], y);
      assert (x + y)[1..] == x[1..] + y;
    }
  }

  lemma {:induction false} ReadReordered(x: seq<Change>, y: seq<Change>)
    requires multiset(x) == multiset(y)
    ensures multiset(ReadAll(x)) == multiset(ReadAll(y))
    decreases x
  {
    if x == [] {
      assert |multiset(y)| == 0;
      assert y == [];
    } else {
      var a, b := TakeApart(x, y);
      ReadReordered(x[1..], a + b);
      ReadMiddle(a, x[0], b);
      MultisetHead(Read(x[0]), ReadAll(x[1..]));
    }
  }

  lemma ReadThree(x: seq<Change>, c: Change, y: seq<Change>)
    ensures ReadAll(x + [c] + y) == ReadAll(x) + [Read(c)] + ReadAll(y)
  {
    ReadPlus(x + [c], y);
    ReadPlus(x, [c]);
    assert [c][1..] == [];
  }

  lemma ReadMiddle(x: seq<Change>, c: Change, y: seq<Change>)
    ensures multiset(ReadAll(x + [c] + y)) == multiset{Read(c)} + multiset(ReadAll(x + y))
  {
    ReadPlus(x, y);
    ReadThree(x, c, y);
    MultisetMiddle(ReadAll(x), Read(c), ReadAll(y));
  }

  lemma MultisetHead<T>(e: T, y: seq<T>)
    ensures multiset([e] + y) == multiset{e} + multiset(y)
  {
  }

  lemma MultisetMiddle<T>(x: seq<T>, e: T, y: seq<T>)
    ensures multiset(x + [e] + y) == multiset{e} + multiset(x + y)
  {
  }

  /** The report of two object-rooted documents is a patch: its differences, read back from their
      pointers and applied in any order, turn the older document into the newer one. */
  lemma ReportIsPatch(before: Json, after: Json, changes: seq<Change>) returns (result: Json)
    requires before.Object? && after.Object?
    requires multiset(changes) == multiset(RenderAll("", Diff(before, after)))
    ensures ApplyAll(ReadAll(changes), Some(before)) == Some(result) && Same(result, after)
  {
    DiffNested(before, after);
    ReadRenderAll(Diff(before, after));
    ReadReordered(changes, RenderAll("", Diff(before, after)));
    result := PatchGivesAfter(before, after, ReadAll(changes));
  }

  /** Its pointers name distinct places, none inside another, and none is the root. */
  lemma PointersApart(before: Json, after: Json, i: nat, j: nat)
    requires before.Object? && after.Object?
    requires i < |Diff(before, after)| && j < |Diff(before, after)| && i != j
    ensures var p, q := RenderAll("", Diff(before, after))[i].pointer, RenderAll("", Diff(before, after))[j].pointer;
            Parse(p) != [] && p != q && !(Parse(p) <= Parse(q))
  {
    var edits := Diff(before, after);
    DiffNested(before, after);
    DiffPrefixFree(before, after);
    assert edits[i] in edits && edits[j] in edits;
    ReadRender(edits[i]);
    ReadRender(edits[j]);
  }

  // ---------------------------------------------------------------- counts

  datatype Summary = Summary(
    total: nat, added: nat, removed: nat, changed: nat, endpoints: nat, schemas: nat, others: int)

  predicate Under(prefix: string, c: Change) {
    prefix <= c.pointer
  }

  predicate IsAdded(c: Change) {
    c.op.Added?
  }

  predicate IsRemoved(c: Change) {
    c.op.Removed?
  }

  predicate IsChanged(c: Change) {
    c.op.Changed?
  }

  predicate OfEndpoint(c: Change) {
    Under("/paths/", c)
  }

  predicate OfSchema(c: Change) {
    Under("/definitions/", c)
  }

  function Count(changes: seq<Change>, p: Change -> bool): nat {
    if changes == [] then 0 else (if p(changes[0]) then 1 else 0) + Count(changes[1..], p)
  }

  function Summarize(changes: seq<Change>): Summary {
    var endpoints, schemas := Count(changes, OfEndpoint), Count(changes, OfSchema);
    Summary(|changes|, Count(changes, IsAdded), Count(changes, IsRemoved), Count(changes, IsChanged),
            endpoints, schemas, |changes| - endpoints - schemas)
  }

  /** Every difference is counted once by kind and at most once by area. */
  lemma {:induction false} CountsAddUp(changes: seq<Change>)
    ensures var s := Summarize(changes);
            s.added + s.removed + s.changed == s.total && s.endpoints + s.schemas + s.others == s.total &&
            0 <= s.others
    decreases changes
  {
    if changes != [] {
      CountsAddUp(changes[1..]);
      assert Under("/paths/", changes[0]) ==> changes[0].pointer[1] == 'p';
      assert Under("/definitions/", changes[0]) ==> changes[0].pointer[1] == 'd';
    }
  }

  lemma PointerTail(path: seq<string>)
    requires path != []
    ensures Pointer(path) != [] && Pointer(path)[0] == '/'
    ensures Pointer(path)[1..] == Escape(path[0]) + Pointer(path[1..])
    ensures Token(Pointer(path)[1..]) == Escape(path[0])
  {
    PointerHead(path[0], path[1..]);
    assert [path[0]] + path[1..] == path;
    PointerStart(path[1..]);
    UnescapeEscape(path[0]);
    TokenStops(Escape(path[0]), Pointer(path[1..]));
    AfterFirst('/', Escape(path[0]), Pointer(path[1..]));
    assert Join("", path[0]) == ['/'] + Escape(path[0]);
  }

  lemma AfterFirst(c: char, s: string, t: string)
    ensures ([c] + s + t)[1..] == s + t && ([c] + s + t)[0] == c
  {
  }

  lemma StartsWithArea(name: string, tail: string)
    requires '/' !in name && name + "/" <= tail
    ensures Token(tail) == name && |tail| > |name|
  {
    var more := tail[|name|..];
    assert tail == name + more && more[0] == '/';
    TokenStops(name, more);
  }

  /** A pointer starts with an area's name exactly if its path goes through that key and further. */
  lemma AreaMeans(name: string, path: seq<string>)
    requires Escape(name) == name && path != []
    ensures name + "/" <= Pointer(path)[1..] <==> |path| >= 2 && path[0] == name
  {
    var tail := Pointer(path)[1..];
    PointerTail(path);
    PointerStart(path[1..]);
    if name + "/" <= tail { AreaFollows(name, tail, path[0], Pointer(path[1..])); }
    if |path| >= 2 && path[0] == name {
      PointerTail(path[1..]);
      assert tail == name + Pointer(path[1..]);
    }
  }

  lemma AreaFollows(name: string, tail: string, k: string, rest: string)
    requires Escape(name) == name && name + "/" <= tail
    requires tail == Escape(k) + rest && Token(tail) == Escape(k)
    ensures k == name && rest != []
  {
    UnescapeEscape(name);
    UnescapeEscape(k);
    StartsWithArea(name, tail);
  }

  lemma {:induction false} PlainEscape(name: string)
    requires '~' !in name && '/' !in name
    ensures Escape(name) == name
  {
    if name != [] {
      EscapeHead(name);
      PlainEscape(name[1..]);
      assert [name[0]] + name[1..] == name;
    }
  }

  lemma SameStart(name: string, p: string)
    requires p != [] && p[0] == '/'
    ensures "/" + name + "/" <= p <==> name + "/" <= p[1..]
  {
    var q := name + "/";
    assert "/" + name + "/" == ['/'] + q;
    assert p == ['/'] + p[1..];
    if q <= p[1..] { assert (['/'] + q) <= (['/'] + p[1..]); }
    if (['/'] + q) <= p { assert (['/'] + q)[1..] == q <= p[1..]; }
  }

  /** A difference counts for an area exactly if it lies properly inside it. */
  lemma UnderMeans(name: string, e: Edit)
    requires '~' !in name && '/' !in name && e.path != []
    ensures Under("/" + name + "/", Render("", e)) <==> |e.path| >= 2 && e.path[0] == name
  {
    PlainEscape(name);
    PointerTail(e.path);
    assert "" + Pointer(e.path) == Pointer(e.path);
    SameStart(name, Pointer(e.path));
    AreaMeans(name, e.path);
  }

  /** The places of the changes that p selects. */
  ghost function Places(changes: seq<Change>, p: Change -> bool): set<nat> {
    set i: nat | i < |changes| && p(changes[i])
  }

  lemma {:induction false} CountIs(changes: seq<Change>, p: Change -> bool)
    ensures Count(changes, p) == |Places(changes, p)|
    decreases changes
  {
    if changes == [] {
      assert Places(changes, p) == {};
    } else {
      var front, last := changes[..|changes| - 1], changes[|changes| - 1];
      CountIs(front, p);
      CountLast(front, last, p);
      assert changes == front + [last];
      if p(last) {
        assert Places(changes, p) == Places(front, p) + {|front|};
      } else {
        assert Places(changes, p) == Places(front, p);
      }
    }
  }

  lemma {:induction false} CountLast(front: seq<Change>, last: Change, p: Change -> bool)
    ensures Count(front + [last], p) == Count(front, p) + if p(last) then 1 else 0
    decreases front
  {
    if front == [] {
      assert ([] + [last])[1..] == [];
    } else {
      CountLast(front[1..], last, p);
      assert (front + [last])[1..] == front[1..] + [last];
    }
  }

  /** The places of the differences whose path goes through an area's key and further. */
  ghost function Inside(edits: seq<Edit>, name: string): set<nat> {
    set i: nat | i < |edits| && |edits[i].path| >= 2 && edits[i].path[0] == name
  }

  lemma CountInside(edits: seq<Edit>, name: string, p: Change -> bool)
    requires (forall e | e in edits :: e.path != []) && '~' !in name && '/' !in name
    requires forall c :: p(c) <==> Under("/" + name + "/", c)
    ensures Count(RenderAll("", edits), p) == |Inside(edits, name)|
  {
    var changes := RenderAll("", edits);
    CountIs(changes, p);
    forall i | 0 <= i < |edits| ensures p(changes[i]) <==> |edits[i].path| >= 2 && edits[i].path[0] == name {
      UnderMeans(name, edits[i]);
    }
    assert Places(changes, p) == Inside(edits, name);
  }

  ghost function AddedPlaces(edits: seq<Edit>): set<nat> {
    set i: nat | i < |edits| && edits[i].op.Added?
  }

  ghost function RemovedPlaces(edits: seq<Edit>): set<nat> {
    set i: nat | i < |edits| && edits[i].op.Removed?
  }

  ghost function ChangedPlaces(edits: seq<Edit>): set<nat> {
    set i: nat | i < |edits| && edits[i].op.Changed?
  }

  lemma CountKinds(edits: seq<Edit>, changes: seq<Change>)
    requires |changes| == |edits| && forall i | 0 <= i < |edits| :: changes[i].op == edits[i].op
    ensures Count(changes, IsAdded) == |AddedPlaces(edits)|
    ensures Count(changes, IsRemoved) == |RemovedPlaces(edits)|
    ensures Count(changes, IsChanged) == |ChangedPlaces(edits)|
  {
    CountIs(changes, IsAdded);
    CountIs(changes, IsRemoved);
    CountIs(changes, IsChanged);
    assert Places(changes, IsAdded) == AddedPlaces(edits);
    assert Places(changes, IsRemoved) == RemovedPlaces(edits);
    assert Places(changes, IsChanged) == ChangedPlaces(edits);
  }

  lemma CountAreas(edits: seq<Edit>)
    requires forall e | e in edits :: e.path != []
    ensures Count(RenderAll("", edits), OfEndpoint) == |Inside(edits, "paths")|
    ensures Count(RenderAll("", edits), OfSchema) == |Inside(edits, "definitions")|
  {
    assert "/" + "paths" + "/" == "/paths/" && "/" + "definitions" + "/" == "/definitions/";
    CountInside(edits, "paths", OfEndpoint);
    CountInside(edits, "definitions", OfSchema);
  }

  /** The summary of a report counts the differences of each kind, those below the endpoints and below the
      definitions, and the rest. */
  lemma SummaryMeans(edits: seq<Edit>)
    requires forall e | e in edits :: e.path != []
    ensures var s := Summarize(RenderAll("", edits));
            s.total == |edits| && s.added == |AddedPlaces(edits)| &&
            s.removed == |RemovedPlaces(edits)| && s.changed == |ChangedPlaces(edits)| &&
            s.endpoints == |Inside(edits, "paths")| && s.schemas == |Inside(edits, "definitions")| &&
            s.others == s.total - s.endpoints - s.schemas
  {
    CountKinds(edits, RenderAll("", edits));
    CountAreas(edits);
  }
}
