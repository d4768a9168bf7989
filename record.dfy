/**
 * A record: a Header of metadata and one root Field. The Field is a tree of
 * scalars, lists and maps, addressed by the field-paths of module FieldPaths.
 *
 * The pure functions over Field values (Resolve, Get, Delete, SetPath,
 * FieldPathsOf) say what each path operation computes; the classes Record and
 * Header hold the mutable state and update it through those functions.
 */
module Records {
  import opened Wrappers
  import opened FieldPaths

  /** A record's data: an opaque scalar, an ordered list, or a keyed map. */
  datatype Field = Scalar(value: string) | List(items: seq<Field>) | Map(entries: map<string, Field>)

  // ---------------------------------------------------------------------------
  // Resolving segment paths
  // ---------------------------------------------------------------------------

  /** The field one segment below `f`: a map entry, or a list position in range. */
  function Child(f: Field, seg: Segment): Option<Field>
  {
    match seg
    case Key(n) => if f.Map? && n in f.entries then Some(f.entries[n]) else None
    case Index(i) => if f.List? && i < |f.items| then Some(f.items[i]) else None
  }

  /** The field a segment path addresses, walking the tree left to right. */
  function Resolve(f: Field, p: seq<Segment>): Option<Field>
    decreases |p|
  {
    if p == [] then Some(f)
    else
      match Child(f, p[0])
      case None => None
      case Some(c) => Resolve(c, p[1..])
  }

  /** Resolving p + q is resolving q from wherever p leads. */
  lemma {:induction false} ResolveAppend(f: Field, p: seq<Segment>, q: seq<Segment>)
    ensures Resolve(f, p + q) == if Resolve(f, p).Some? then Resolve(Resolve(f, p).value, q) else None
    decreases |p|
  {
    if p == [] {
      assert p + q == q;
    } else {
      assert (p + q)[0] == p[0];
      assert (p + q)[1..] == p[1..] + q;
      if Child(f, p[0]).Some? {
        ResolveAppend(Child(f, p[0]).value, p[1..], q);
      }
    }
  }

  /** The two paths part ways: they differ at a position both of them have. */
  predicate Diverge(p: seq<Segment>, r: seq<Segment>)
    decreases |p|
  {
    p != [] && r != [] && (p[0] != r[0] || Diverge(p[1..], r[1..]))
  }

  /** A path that parts from q + [x] parts from q, or passes q and then leaves x aside. */
  lemma {:induction false} DivergeExtend(q: seq<Segment>, x: Segment, r: seq<Segment>)
    requires Diverge(q + [x], r)
    ensures Diverge(q, r) || (|r| > |q| && r[..|q|] == q && r[|q|] != x)
    decreases |q|
  {
    if q != [] {
      assert (q + [x])[0] == q[0];
      assert (q + [x])[1..] == q[1..] + [x];
      if q[0] == r[0] {
        DivergeExtend(q[1..], x, r[1..]);
        if !Diverge(q[1..], r[1..]) {
          assert r[..|q|] == [r[0]] + r[1..][..|q| - 1];
          assert q == [q[0]] + q[1..];
        }
      }
    }
  }

  /** `f` with the node that `q` addresses replaced by `v`. */
  function ReplaceAt(f: Field, q: seq<Segment>, v: Field): Field
    requires Resolve(f, q).Some?
    decreases |q|
  {
    if q == [] then v
    else
      match q[0]
      case Key(n) => Map(f.entries[n := ReplaceAt(f.entries[n], q[1..], v)])
      case Index(i) => List(f.items[i := ReplaceAt(f.items[i], q[1..], v)])
  }

  /** Below the replaced node the tree is exactly `v`. */
  lemma {:induction false} ReplaceAtHit(f: Field, q: seq<Segment>, v: Field, r: seq<Segment>)
    requires Resolve(f, q).Some?
    ensures Resolve(ReplaceAt(f, q, v), q + r) == Resolve(v, r)
    decreases |q|
  {
    if q == [] {
      assert q + r == r;
    } else {
      assert (q + r)[0] == q[0];
      assert (q + r)[1..] == q[1..] + r;
      var c := Child(f, q[0]).value;
      ReplaceAtHit(c, q[1..], v, r);
    }
  }

  /** Paths that part from `q` see the tree as it was. */
  lemma {:induction false} ReplaceAtMiss(f: Field, q: seq<Segment>, v: Field, r: seq<Segment>)
    requires Resolve(f, q).Some? && Diverge(q, r)
    ensures Resolve(ReplaceAt(f, q, v), r) == Resolve(f, r)
    decreases |q|
  {
    var c := Child(f, q[0]).value;
    if q[0] == r[0] {
      ReplaceAtMiss(c, q[1..], v, r[1..]);
    }
  }

  /** Putting back the node that is already there changes nothing. */
  lemma {:induction false} ReplaceAtSame(f: Field, q: seq<Segment>)
    requires Resolve(f, q).Some?
    ensures ReplaceAt(f, q, Resolve(f, q).value) == f
    decreases |q|
  {
    if q != [] {
      var c := Child(f, q[0]).value;
      ReplaceAtSame(c, q[1..]);
      match q[0]
      case Key(n) => assert f.entries[n := c] == f.entries;
      case Index(i) => assert f.items[i := c] == f.items;
    }
  }

  // ---------------------------------------------------------------------------
  // get(path), has(path)
  // ---------------------------------------------------------------------------

  /** The answer to a path lookup: the field, no field there, or a malformed path. */
  datatype Lookup = Found(field: Field) | NotFound | InvalidPath

  /**
   * Record.get(path): tokenize the path, then walk the tree. A malformed path
   * is refused, the empty path finds the root, and a field found is the node
   * the parsed path leads to.
   */
  function Get(f: Field, path: string): (r: Lookup)
    ensures r == InvalidPath <==> Parse(path).None?
    ensures path == "" ==> r == Found(f)
    ensures r.Found? ==> Resolve(f, Parse(path).value) == Some(r.field)
  {
    match Parse(path)
    case None => InvalidPath
    case Some(p) =>
      match Resolve(f, p)
      case None => NotFound
      case Some(g) => Found(g)
  }

  /** Record.has(path): the path addresses a field (false on a malformed path). */
  predicate Has(f: Field, path: string)
    ensures Has(f, path) <==> Parse(path).Some? && Resolve(f, Parse(path).value).Some?
  {
    Get(f, path).Found?
  }

  /** The empty path addresses the root, so get("") is get(). */
  lemma EmptyPathIsRoot(f: Field)
    ensures Get(f, "") == Found(f)
  {
  }

  /** "/NAME" resolves exactly into the map entry NAME, and nothing else. */
  lemma KeyLookup(f: Field, name: string)
    ensures Get(f, "/" + Escape(name)) ==
      if f.Map? && name in f.entries then Found(f.entries[name]) else NotFound
  {
    ParseRender([Key(name)]);
    assert Render([Key(name)]) == "/" + Escape(name);
    assert Parse("/" + Escape(name)) == Some([Key(name)]);
    assert [Key(name)][1..] == [];
    assert Resolve(f, [Key(name)]) == Child(f, Key(name));
  }

  /** "[INDEX]" resolves exactly into position INDEX of a list, and nothing else. */
  lemma IndexLookup(f: Field, i: nat)
    ensures Get(f, "[" + Digits(i) + "]") ==
      if f.List? && i < |f.items| then Found(f.items[i]) else NotFound
  {
    ParseRender([Index(i)]);
    assert Render([Index(i)]) == "[" + Digits(i) + "]";
    assert Parse("[" + Digits(i) + "]") == Some([Index(i)]);
    assert [Index(i)][1..] == [];
    assert Resolve(f, [Index(i)]) == Child(f, Index(i));
  }

  /** Paths compose: get(p + q) is get(q) on the field that get(p) finds. */
  lemma GetComposes(f: Field, p: seq<Segment>, q: seq<Segment>)
    requires Separable(p + q)
    ensures Render(p + q) == Render(p) + Render(q)
    ensures Get(f, Render(p + q)) ==
      if Has(f, Render(p)) then Get(Get(f, Render(p)).field, Render(q)) else NotFound
  {
    RenderAppend(p, q);
    SeparableSplit(p, q);
    ParseRender(p + q);
    ParseRender(p);
    ParseRender(q);
    ResolveAppend(f, p, q);
  }

  // ---------------------------------------------------------------------------
  // getFieldPaths()
  // ---------------------------------------------------------------------------

  /** Every segment path that reaches a node: the root, each container and each leaf. */
  function SegmentPaths(f: Field): set<seq<Segment>>
  {
    {[]} + match f
      case Scalar(_) => {}
      case List(items) => (set i, p | 0 <= i < |items| && p in SegmentPaths(items[i]) :: [Index(i)] + p)
      case Map(m) => (set k, p | k in m && p in SegmentPaths(m[k]) :: [Key(k)] + p)
  }

  /** Record.getFieldPaths(): every node's path, written in escaped syntax; a scalar has only the root. */
  function FieldPathsOf(f: Field): (s: set<string>)
    ensures "" in s
    ensures f.Scalar? ==> s == {""}
  {
    assert Render([]) == "" && [] in SegmentPaths(f);
    set p | p in SegmentPaths(f) :: Render(p)
  }

  /** The enumerated segment paths are exactly the paths that resolve. */
  lemma {:induction false} SegmentPathsResolve(f: Field, p: seq<Segment>)
    ensures p in SegmentPaths(f) <==> Resolve(f, p).Some?
    decreases |p|
  {
    if p != [] {
      assert p == [p[0]] + p[1..];
      match Child(f, p[0])
      case None =>
      case Some(c) =>
        SegmentPathsResolve(c, p[1..]);
        if Resolve(f, p).Some? {
          match p[0]
          case Key(k) => assert [Key(k)] + p[1..] in SegmentPaths(f);
          case Index(i) => assert [Index(i)] + p[1..] in SegmentPaths(f);
        }
    }
  }

  /** Maps nested directly in a map have only free-standing keys. */
  predicate SafeKeys(f: Field)
  {
    match f
    case Scalar(_) => true
    case List(items) => forall i | 0 <= i < |items| :: SafeKeys(items[i])
    case Map(m) =>
      forall k | k in m ::
        (m[k].Map? ==> forall k2 | k2 in m[k].entries :: FreeStanding(k2)) && SafeKeys(m[k])
  }

  lemma {:induction false} ResolvedPathSeparable(f: Field, p: seq<Segment>)
    requires SafeKeys(f) && Resolve(f, p).Some?
    ensures Separable(p)
    decreases |p|
  {
    if p != [] {
      var c := Child(f, p[0]).value;
      ResolvedPathSeparable(c, p[1..]);
      if |p| >= 2 && p[0].Key? && p[1].Key? {
        assert Child(c, p[1]).Some?;
      }
    }
  }

  /** Every path getFieldPaths() returns is accepted by get and has, and finds its node. */
  lemma FieldPathsResolvable(f: Field, p: seq<Segment>)
    requires SafeKeys(f) && p in SegmentPaths(f)
    ensures Render(p) in FieldPathsOf(f) && Resolve(f, p).Some?
    ensures Has(f, Render(p)) && Get(f, Render(p)) == Found(Resolve(f, p).value)
  {
    SegmentPathsResolve(f, p);
    ResolvedPathSeparable(f, p);
    ParseRender(p);
  }

  /** getFieldPaths() lists the path of every node that a path resolves to. */
  lemma FieldPathsComplete(f: Field, p: seq<Segment>)
    requires Resolve(f, p).Some?
    ensures Render(p) in FieldPathsOf(f)
  {
    SegmentPathsResolve(f, p);
  }

  /**
   * With safe keys, getFieldPaths() lists exactly the paths that has() accepts
   * and that write no index with a leading zero. Without safe keys, every such
   * path is still listed.
   */
  lemma FieldPathsExactlyHas(f: Field, path: string)
    ensures SafeKeys(f) ==> (path in FieldPathsOf(f) <==> Has(f, path) && UnpaddedIndexes(path))
    ensures UnpaddedIndexes(path) && Has(f, path) ==> path in FieldPathsOf(f)
  {
    if SafeKeys(f) && path in FieldPathsOf(f) {
      var p :| p in SegmentPaths(f) && Render(p) == path;
      FieldPathsResolvable(f, p);
      ResolvedPathSeparable(f, p);
      RenderUnpadded(p);
    }
    if UnpaddedIndexes(path) && Has(f, path) {
      var p := Parse(path).value;
      RenderParse(path);
      FieldPathsComplete(f, p);
    }
  }

  lemma FieldPathsAllHave(f: Field)
    ensures SafeKeys(f) ==> forall q | q in FieldPathsOf(f) :: Has(f, q)
  {
    forall q | q in FieldPathsOf(f) && SafeKeys(f) ensures Has(f, q) {
      FieldPathsExactlyHas(f, q);
    }
  }

  /** Without SafeKeys a listed path can fail: "/a///b" is read as key "a/" then "b". */
  lemma FieldPathsAmbiguity()
    ensures var f := Map(map["a" := Map(map["/b" := Scalar("x")])]);
      "/a///b" in FieldPathsOf(f) && !Has(f, "/a///b")
  {
    var f := Map(map["a" := Map(map["/b" := Scalar("x")])]);
    var p := [Key("a"), Key("/b")];
    assert Resolve(f, p) == Some(Scalar("x")) by {
      assert p[1..] == [Key("/b")];
      assert p[1..][1..] == [];
    }
    SegmentPathsResolve(f, p);
    AmbiguousEscaping();
    assert Render(p) == "/a///b";
    var q := [Key("a/"), Key("b")];
    assert Parse("/a///b") == Some(q);
    assert Child(f, q[0]) == None;
    assert Resolve(f, q) == None;
  }

  // ---------------------------------------------------------------------------
  // delete(path)
  // ---------------------------------------------------------------------------

  /** The path of the container holding the node that `p` addresses. */
  function Parent(p: seq<Segment>): seq<Segment>
    requires p != []
  {
    p[..|p| - 1]
  }

  function Last(p: seq<Segment>): Segment
    requires p != []
  {
    p[|p| - 1]
  }

  /** The container without the addressed child, and that child. Later list items shift down. */
  function Remove(parent: Field, seg: Segment): Option<(Field, Field)>
  {
    match seg
    case Key(n) =>
      if parent.Map? && n in parent.entries then Some((Map(parent.entries - {n}), parent.entries[n]))
      else None
    case Index(i) =>
      if parent.List? && i < |parent.items| then
        Some((List(parent.items[..i] + parent.items[i + 1..]), parent.items[i]))
      else None
  }

  /** Removes the node at a non-root path: the new tree and the removed field. */
  function DeleteAt(f: Field, p: seq<Segment>): Option<(Field, Field)>
    requires p != []
  {
    match Resolve(f, Parent(p))
    case None => None
    case Some(parent) =>
      match Remove(parent, Last(p))
      case None => None
      case Some((rest, removed)) => Some((ReplaceAt(f, Parent(p), rest), removed))
  }

  /**
   * Record.delete(path): the new tree and the removed field. A malformed path
   * is refused, the root is not removable, and when nothing is removed the
   * tree is left as it was.
   */
  function Delete(f: Field, path: string): (r: (Field, Lookup))
    ensures r.1 == InvalidPath <==> Parse(path).None?
    ensures path == "" ==> r == (f, NotFound)
    ensures !r.1.Found? ==> r.0 == f
  {
    match Parse(path)
    case None => (f, InvalidPath)
    case Some(p) =>
      if p == [] then (f, NotFound)
      else
        match DeleteAt(f, p)
        case None => (f, NotFound)
        case Some((g, removed)) => (g, Found(removed))
  }

  /** What delete(path) removes is what get(path) found there before. */
  lemma DeleteReturnsGet(f: Field, path: string)
    ensures Delete(f, path).1.Found? ==> Get(f, path) == Delete(f, path).1
  {
    if Delete(f, path).1.Found? {
      var p := Parse(path).value;
      ParentLast(p);
      ResolveAppend(f, Parent(p), [Last(p)]);
      assert [Last(p)][1..] == [];
    }
  }

  lemma ParentLast(p: seq<Segment>)
    requires p != []
    ensures Parent(p) + [Last(p)] == p
  {
  }

  lemma ParentOfAppend(q: seq<Segment>, x: Segment)
    ensures Parent(q + [x]) == q && Last(q + [x]) == x
  {
    assert (q + [x])[..|q|] == q;
  }

  /** Deleting map entry n under q: the entry is gone, and every other path reads as before. */
  lemma DeleteMapEntry(f: Field, q: seq<Segment>, n: string)
    requires Resolve(f, q).Some? && Resolve(f, q).value.Map? && n in Resolve(f, q).value.entries
    ensures var m := Resolve(f, q).value.entries;
      var d := DeleteAt(f, q + [Key(n)]);
      && d.Some? && d.value.1 == m[n]
      && Resolve(d.value.0, q) == Some(Map(m - {n}))
      && Resolve(d.value.0, q + [Key(n)]).None?
      && forall r :: Diverge(q + [Key(n)], r) ==> Resolve(d.value.0, r) == Resolve(f, r)
  {
    var m := Resolve(f, q).value.entries;
    var p := q + [Key(n)];
    ParentOfAppend(q, Key(n));
    var g := ReplaceAt(f, q, Map(m - {n}));
    assert DeleteAt(f, p) == Some((g, m[n]));
    ReplaceAtHit(f, q, Map(m - {n}), []);
    assert q + [] == q;
    ReplaceAtHit(f, q, Map(m - {n}), [Key(n)]);
    forall r | Diverge(p, r) ensures Resolve(g, r) == Resolve(f, r) {
      DivergeExtend(q, Key(n), r);
      if Diverge(q, r) {
        ReplaceAtMiss(f, q, Map(m - {n}), r);
      } else {
        var r' := r[|q|..];
        assert r == q + r';
        ReplaceAtHit(f, q, Map(m - {n}), r');
        ResolveAppend(f, q, r');
        assert r'[0] != Key(n);
        assert Child(Map(m - {n}), r'[0]) == Child(Map(m), r'[0]);
      }
    }
  }

  /** Deleting item i of the list under q shifts the later items down; paths outside the list read as before. */
  lemma DeleteListItem(f: Field, q: seq<Segment>, i: nat)
    requires Resolve(f, q).Some? && Resolve(f, q).value.List? && i < |Resolve(f, q).value.items|
    ensures var items := Resolve(f, q).value.items;
      var d := DeleteAt(f, q + [Index(i)]);
      && d.Some? && d.value.1 == items[i]
      && Resolve(d.value.0, q) == Some(List(items[..i] + items[i + 1..]))
      && forall r :: Diverge(q, r) ==> Resolve(d.value.0, r) == Resolve(f, r)
  {
    var items := Resolve(f, q).value.items;
    var rest := List(items[..i] + items[i + 1..]);
    ParentOfAppend(q, Index(i));
    ReplaceAtHit(f, q, rest, []);
    assert q + [] == q;
    forall r | Diverge(q, r) ensures Resolve(ReplaceAt(f, q, rest), r) == Resolve(f, r) {
      ReplaceAtMiss(f, q, rest, r);
    }
  }

  /** Every node of a tree with safe keys has safe keys itself. */
  lemma {:induction false} SafeKeysResolve(f: Field, q: seq<Segment>)
    requires SafeKeys(f) && Resolve(f, q).Some?
    ensures SafeKeys(Resolve(f, q).value)
    decreases |q|
  {
    if q != [] {
      SafeKeysResolve(Child(f, q[0]).value, q[1..]);
    }
  }

  /**
   * Replacing a node by a field with safe keys, which is a map only where the
   * old node was one and then over fewer keys, keeps the keys of the tree safe.
   */
  lemma {:induction false} ReplaceAtSafe(f: Field, q: seq<Segment>, v: Field)
    requires SafeKeys(f) && Resolve(f, q).Some? && SafeKeys(v)
    requires v.Map? ==> Resolve(f, q).value.Map? && v.entries.Keys <= Resolve(f, q).value.entries.Keys
    ensures SafeKeys(ReplaceAt(f, q, v))
    ensures ReplaceAt(f, q, v).Map? ==> f.Map? && ReplaceAt(f, q, v).entries.Keys <= f.entries.Keys
    decreases |q|
  {
    if q != [] {
      var c := Child(f, q[0]).value;
      ReplaceAtSafe(c, q[1..], v);
      var c' := ReplaceAt(c, q[1..], v);
      match q[0]
      case Key(n) =>
        var m := f.entries[n := c'];
        forall k | k in m
          ensures (m[k].Map? ==> forall k2 | k2 in m[k].entries :: FreeStanding(k2)) && SafeKeys(m[k])
        {
          if k == n {
            if c'.Map? {
              assert forall k2 | k2 in c.entries :: FreeStanding(k2);
            }
          }
        }
      case Index(i) =>
        var items := f.items[i := c'];
        forall j | 0 <= j < |items| ensures SafeKeys(items[j]) {
        }
    }
  }

  /**
   * After delete(p) of a map entry, has(p) is false and the rest of the tree is
   * unchanged; when the keys are safe, getFieldPaths() no longer lists p either.
   */
  lemma DeletedEntryIsGone(f: Field, path: string, q: seq<Segment>, n: string)
    requires Parse(path) == Some(q + [Key(n)])
    requires Resolve(f, q).Some? && Resolve(f, q).value.Map? && n in Resolve(f, q).value.entries
    ensures var (g, removed) := Delete(f, path);
      && removed == Found(Resolve(f, q).value.entries[n])
      && !Has(g, path)
      && forall r :: Diverge(q + [Key(n)], r) ==> Resolve(g, r) == Resolve(f, r)
    ensures SafeKeys(f) ==> path !in FieldPathsOf(Delete(f, path).0)
  {
    var p := q + [Key(n)];
    DeleteMapEntry(f, q, n);
    if SafeKeys(f) {
      var m := Resolve(f, q).value.entries;
      var g := Delete(f, path).0;
      assert g == ReplaceAt(f, q, Map(m - {n}));
      SafeKeysResolve(f, q);
      ReplaceAtSafe(f, q, Map(m - {n}));
      forall r | r in SegmentPaths(g) ensures Render(r) != path {
        SegmentPathsResolve(g, r);
        ResolvedPathSeparable(g, r);
        ParseRender(r);
        assert r != p;
      }
    }
  }

  // ---------------------------------------------------------------------------
  // set(path, field)
  // ---------------------------------------------------------------------------

  /** The container with the addressed child stored: a map may gain a key, a list index must exist. */
  function Put(parent: Field, seg: Segment, v: Field): Option<Field>
  {
    match seg
    case Key(n) => if parent.Map? then Some(Map(parent.entries[n := v])) else None
    case Index(i) => if parent.List? && i < |parent.items| then Some(List(parent.items[i := v])) else None
  }

  /** Stores `v` at `p` inside existing containers; None when the parent is missing or of the wrong kind. */
  function SetAt(f: Field, p: seq<Segment>, v: Field): Option<Field>
  {
    if p == [] then Some(v)
    else
      match Resolve(f, Parent(p))
      case None => None
      case Some(parent) =>
        match Put(parent, Last(p), v)
        case None => None
        case Some(parent') => Some(ReplaceAt(f, Parent(p), parent'))
  }

  /** Siblings of the stored child are untouched by Put. */
  lemma PutOther(parent: Field, x: Segment, v: Field, y: Segment)
    requires Put(parent, x, v).Some? && y != x
    ensures Child(Put(parent, x, v).value, y) == Child(parent, y)
  {
  }

  /**
   * set(p, v) succeeds exactly when p names an existing node or a new key of
   * an existing map; afterwards p holds v and paths that part from p are unchanged.
   */
  lemma SetThenGet(f: Field, p: seq<Segment>, v: Field)
    ensures SetAt(f, p, v).Some? <==>
      (p == [] || Resolve(f, p).Some? ||
        (Last(p).Key? && Resolve(f, Parent(p)).Some? && Resolve(f, Parent(p)).value.Map?))
    ensures SetAt(f, p, v).Some? ==>
      && Resolve(SetAt(f, p, v).value, p) == Some(v)
      && forall r :: Diverge(p, r) ==> Resolve(SetAt(f, p, v).value, r) == Resolve(f, r)
  {
    if p != [] {
      var q, x := Parent(p), Last(p);
      ParentLast(p);
      ResolveAppend(f, q, [x]);
      if Resolve(f, q).Some? {
        var parent := Resolve(f, q).value;
        assert Resolve(parent, [x]) == Child(parent, x) by {
          assert [x][1..] == [];
        }
        if Put(parent, x, v).Some? {
          var parent' := Put(parent, x, v).value;
          var g := ReplaceAt(f, q, parent');
          ReplaceAtHit(f, q, parent', [x]);
          assert Resolve(parent', [x]) == Child(parent', x) by {
            assert [x][1..] == [];
          }
          forall r | Diverge(p, r) ensures Resolve(g, r) == Resolve(f, r) {
            DivergeExtend(q, x, r);
            if Diverge(q, r) {
              ReplaceAtMiss(f, q, parent', r);
            } else {
              var r' := r[|q|..];
              assert r == q + r';
              ReplaceAtHit(f, q, parent', r');
              ResolveAppend(f, q, r');
              PutOther(parent, x, v, r'[0]);
            }
          }
        }
      }
    }
  }

  /** set(p, get(p)) leaves the tree unchanged. */
  lemma SetGetIdentity(f: Field, p: seq<Segment>)
    requires Resolve(f, p).Some?
    ensures SetAt(f, p, Resolve(f, p).value) == Some(f)
  {
    if p != [] {
      var q, x := Parent(p), Last(p);
      ParentLast(p);
      ResolveAppend(f, q, [x]);
      var parent := Resolve(f, q).value;
      assert [x][1..] == [];
      var v := Child(parent, x).value;
      assert Put(parent, x, v) == Some(parent) by {
        match x
        case Key(n) => assert parent.entries[n := v] == parent.entries;
        case Index(i) => assert parent.items[i := v] == parent.items;
      }
      ReplaceAtSame(f, q);
    }
  }

  /** The answer to set(path, field): the previous field (if any), or why nothing was stored. */
  datatype SetResult = Stored(previous: Option<Field>) | ParentMissing | MalformedPath

  /**
   * Record.set(path, field): the new tree and the outcome. A malformed path is
   * refused, nothing changes unless the field is stored, and the previous
   * field reported is what get(path) found before.
   */
  function SetPath(f: Field, path: string, v: Field): (r: (Field, SetResult))
    ensures r.1 == MalformedPath <==> Parse(path).None?
    ensures !r.1.Stored? ==> r.0 == f
    ensures r.1.Stored? ==> r.1.previous == (if Get(f, path).Found? then Some(Get(f, path).field) else None)
  {
    match Parse(path)
    case None => (f, MalformedPath)
    case Some(p) =>
      match SetAt(f, p, v)
      case None => (f, ParentMissing)
      case Some(g) => (g, Stored(Resolve(f, p)))
  }

  /** A stored field is what get(path) then returns, and the previous one is reported. */
  lemma SetPathThenGet(f: Field, path: string, v: Field)
    requires Parse(path).Some? && SetAt(f, Parse(path).value, v).Some?
    ensures var (g, r) := SetPath(f, path, v);
      r == Stored(Resolve(f, Parse(path).value)) && Get(g, path) == Found(v)
  {
    SetThenGet(f, Parse(path).value, v);
  }

  /** set("/a/", v) on {a: {}} stores under the empty key, and get("/a/") then finds v. */
  lemma SetEmptyKeyExample(v: Field)
    ensures var f := Map(map["a" := Map(map[])]);
      var (g, r) := SetPath(f, "/a/", v);
      r == Stored(None) && Get(g, "/a/") == Found(v)
  {
    var f := Map(map["a" := Map(map[])]);
    assert Parse("/a/") == Some([Key("a"), Key("")]) by {
      assert "/a/"[1..] == "a/" && "a/"[1..] == "/" && "/"[1..] == [];
      assert ReadName("/") == Some(([], "/"));
      assert ReadName([]) == Some(([], []));
      assert ['a'] + [] == "a";
      assert ReadName("a/") == Some(("a", "/"));
      assert Parse([]) == Some([]);
      assert [Key("")] + [] == [Key("")];
      assert Parse("/") == Some([Key("")]);
      assert [Key("a")] + [Key("")] == [Key("a"), Key("")];
    }
    var p := [Key("a"), Key("")];
    assert Parent(p) == [Key("a")] && Last(p) == Key("");
    assert Resolve(f, [Key("a")]) == Some(Map(map[])) by {
      assert [Key("a")][1..] == [];
    }
    assert Resolve(f, p) == None by {
      assert p[1..] == [Key("")];
    }
    SetPathThenGet(f, "/a/", v);
  }

  // ---------------------------------------------------------------------------
  // Record and Header objects
  // ---------------------------------------------------------------------------

  /** Where a record came from. */
  datatype Lineage = Lineage(
    stageCreator: string,
    sourceId: string,
    trackingId: string,
    previousTrackingId: string,
    stagesPath: string)

  /** The error annotations of a record routed to an error stage. */
  datatype ErrorInfo = ErrorInfo(
    dataCollectorId: string,
    pipelineName: string,
    code: string,
    message: string,
    stage: string,
    timestamp: int)

  /** Record.Header: fixed lineage, raw origin and error fields, and a mutable attribute map. */
  class Header {
    const lineage: Lineage
    const raw: Option<seq<bv8>>
    const rawMimeType: Option<string>
    const error: Option<ErrorInfo>
    var attributes: map<string, string>

    constructor (lineage: Lineage, raw: Option<seq<bv8>>, rawMimeType: Option<string>,
                 error: Option<ErrorInfo>, attributes: map<string, string>)
      ensures this.lineage == lineage && this.raw == raw && this.rawMimeType == rawMimeType
      ensures this.error == error && this.attributes == attributes
    {
      this.lineage := lineage;
      this.raw := raw;
      this.rawMimeType := rawMimeType;
      this.error := error;
      this.attributes := attributes;
    }

    /** getAttributeNames(): exactly the names getAttribute answers for. */
    function GetAttributeNames(): (names: set<string>)
      reads this
      ensures forall n :: n in names <==> GetAttribute(n).Some?
    {
      attributes.Keys
    }

    /** getAttribute(name): the value, or None where Java returns null. */
    function GetAttribute(name: string): (v: Option<string>)
      reads this
      ensures v.Some? <==> name in attributes
      ensures v.Some? ==> v.value == attributes[name]
    {
      if name in attributes then Some(attributes[name]) else None
    }

    method SetAttribute(name: string, value: string)
      modifies this
      ensures GetAttribute(name) == Some(value) && name in GetAttributeNames()
      ensures GetAttributeNames() == old(GetAttributeNames()) + {name}
      ensures forall other :: other != name ==> GetAttribute(other) == old(GetAttribute(other))
    {
      attributes := attributes[name := value];
    }

    method DeleteAttribute(name: string)
      modifies this
      ensures GetAttribute(name) == None && name !in GetAttributeNames()
      ensures GetAttributeNames() == old(GetAttributeNames()) - {name}
      ensures forall other :: other != name ==> GetAttribute(other) == old(GetAttribute(other))
    {
      attributes := attributes - {name};
    }
  }

  /** Record: one owned Header and one root Field. */
  class Record {
    const header: Header
    var root: Field

    constructor (header: Header, root: Field)
      ensures this.header == header && this.root == root
    {
      this.header := header;
      this.root := root;
    }

    /** get(path): get("") is the root; a malformed path is refused. */
    function GetPath(path: string): (r: Lookup)
      reads this
      ensures path == "" ==> r == Found(root)
      ensures r == InvalidPath <==> Parse(path).None?
      ensures r.Found? ==> Resolve(root, Parse(path).value) == Some(r.field)
    {
      Get(root, path)
    }

    /** has(path): true of the root, false of a malformed path. */
    predicate HasPath(path: string)
      reads this
      ensures path == "" ==> HasPath(path)
      ensures HasPath(path) ==> Parse(path).Some?
    {
      Has(root, path)
    }

    /** getFieldPaths(): includes the root, and with safe keys has() accepts every path listed. */
    function GetFieldPaths(): (ps: set<string>)
      reads this
      ensures "" in ps
      ensures SafeKeys(root) ==> forall q | q in ps :: HasPath(q)
    {
      FieldPathsAllHave(root);
      FieldPathsOf(root)
    }

    /** set(Field): replaces the root; get() and get("") then return the new field. */
    method SetRoot(field: Field) returns (previous: Field)
      modifies this
      ensures root == field && previous == old(root)
      ensures GetPath("") == Found(field)
    {
      previous := root;
      root := field;
      EmptyPathIsRoot(field);
    }

    /** delete(path) */
    method DeletePath(path: string) returns (removed: Lookup)
      modifies this
      ensures (root, removed) == Delete(old(root), path)
    {
      var (g, r) := Delete(root, path);
      root, removed := g, r;
    }

    /** set(path, field) */
    method SetFieldAt(path: string, field: Field) returns (result: SetResult)
      modifies this
      ensures (root, result) == SetPath(old(root), path, field)
    {
      var (g, r) := SetPath(root, path, field);
      root, result := g, r;
    }
  }
}
