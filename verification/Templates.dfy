/** party/templates/templates.go: deep copy, deep merge and path access, in place. */
module Templates {
  import opened GoStrings
  import opened Json
  import opened Merge
  import opened NestedMaps

  /** deepCopyValue, deepCopySlice and deepCopyMap. */
  method DeepCopyValue(v: Value, ghost s: Shape) returns (copy: Value, ghost c: Shape)
    requires ValueOf(s) == v && Rep(s)
    ensures ValueOf(c) == copy && Rep(c) && Separate(c) && fresh(Nodes(c))
    ensures TreeOf(c) == TreeOf(s)
    decreases s, 1
  {
    match v
    case Ref(node) =>
      var n;
      n, c := DeepCopyMap(node, s);
      copy := Ref(n);
    case Slice(items) =>
      var xs;
      xs, c := DeepCopySlice(items, s);
      copy := Slice(xs);
    case Leaf(a) =>
      copy, c := v, s;
  }

  method DeepCopySlice(items: seq<Value>, ghost s: Shape) returns (out: seq<Value>, ghost c: Shape)
    requires ValueOf(s) == Slice(items) && Rep(s)
    ensures ValueOf(c) == Slice(out) && Rep(c) && Separate(c) && fresh(Nodes(c))
    ensures TreeOf(c) == TreeOf(s)
    decreases s, 0
  {
    hide Rep, Separate, Nodes, TreeOf, ValueOf;
    NodesAllocated(s);
    SliceParts(items, s);
    out := [];
    ghost var cs: seq<Shape> := [];
    for i := 0 to |items|
      invariant |out| == |cs| == i
      invariant forall j | 0 <= j < i :: out[j] == ValueOf(cs[j]) && TreeOf(cs[j]) == TreeOf(s.items[j])
      invariant forall j | 0 <= j < i :: Rep(cs[j]) && Separate(cs[j]) && fresh(Nodes(cs[j]))
      invariant forall j, k | 0 <= j < k < i :: Nodes(cs[j]) !! Nodes(cs[k])
      invariant Rep(s)
    {
      SliceParts(items, s);
      forall j | 0 <= j < i ensures forall n | n in Nodes(cs[j]) :: allocated(n) { NodesAllocated(cs[j]); }
      var x, xc := DeepCopyValue(items[i], s.items[i]);
      assert Rep(s);
      out, cs := out + [x], cs + [xc];
    }
    c := SSlice(cs);
    MakeSlice(cs, out);
    SliceTree(cs, s.items);
  }

  lemma SliceParts(items: seq<Value>, s: Shape)
    requires ValueOf(s) == Slice(items) && Rep(s)
    ensures s.SSlice? && |s.items| == |items|
    ensures forall i | 0 <= i < |items| :: ValueOf(s.items[i]) == items[i] && Rep(s.items[i])
  {
  }

  lemma MakeSlice(cs: seq<Shape>, out: seq<Value>)
    requires |out| == |cs| && forall j | 0 <= j < |cs| :: out[j] == ValueOf(cs[j])
    requires forall j | 0 <= j < |cs| :: Rep(cs[j]) && Separate(cs[j])
    requires forall j, k | 0 <= j < k < |cs| :: Nodes(cs[j]) !! Nodes(cs[k])
    ensures ValueOf(SSlice(cs)) == Slice(out) && Rep(SSlice(cs)) && Separate(SSlice(cs))
    ensures forall n | n in Nodes(SSlice(cs)) :: exists j :: 0 <= j < |cs| && n in Nodes(cs[j])
  {
  }

  lemma SliceTree(cs: seq<Shape>, ds: seq<Shape>)
    requires |ds| == |cs| && forall j | 0 <= j < |cs| :: TreeOf(cs[j]) == TreeOf(ds[j])
    ensures TreeOf(SSlice(cs)) == TreeOf(SSlice(ds))
  {
  }

  /** `out[key] = deepCopyValue(v)`. */
  method CopyInto(out: Node, ghost kids: map<string, Shape>, key: string, v: Value, ghost s: Shape)
    returns (ghost c: Shape)
    requires Holds(out, kids)
    requires ValueOf(s) == v && Rep(s) && out !in Nodes(s)
    modifies out
    ensures Holds(out, kids[key := c]) && Rep(s)
    ensures fresh(Nodes(c)) && TreeOf(c) == TreeOf(s)
    decreases s, 2
  {
    hide Rep, Separate, Nodes, TreeOf, ValueOf, Holds, Below;
    NodesAllocated(s);
    BelowAllocated(kids);
    ExceptHolds(out, kids, key);
    BelowLess(kids, key);
    var x;
    x, c := DeepCopyValue(v, s);
    Put(out, kids, key, x, c);
  }

  method DeepCopyMap(in_: Node, ghost s: Shape) returns (out: Node, ghost c: Shape)
    requires ValueOf(s) == Ref(in_) && Rep(s)
    ensures ValueOf(c) == Ref(out) && Rep(c) && Separate(c) && fresh(Nodes(c))
    ensures TreeOf(c) == TreeOf(s)
    decreases s, 0
  {
    hide Rep, Separate, Nodes, TreeOf, ValueOf, Holds, Below;
    NodesAllocated(s);
    MapParts(in_, s);
    out := new Node();
    EmptyHolds(out);
    ghost var kids: map<string, Shape> := map[];
    var todo := in_.entries.Keys;
    while todo != {}
      invariant todo <= s.kids.Keys && kids.Keys == s.kids.Keys - todo
      invariant Rep(s) && Holds(out, kids) && fresh(Below(kids) + {out})
      invariant forall key | key in kids :: TreeOf(kids[key]) == TreeOf(s.kids[key])
    {
      var key :| key in todo;
      MapParts(in_, s);
      ghost var c := CopyInto(out, kids, key, in_.entries[key], s.kids[key]);
      BelowPut(kids, key, c);
      kids := kids[key := c];
      todo := todo - {key};
    }
    HoldsParts(out, kids);
    c := SMap(out, kids);
    MapTree(c, s);
  }

  lemma MapTree(c: Shape, s: Shape)
    requires c.SMap? && s.SMap? && c.kids.Keys == s.kids.Keys
    requires forall key | key in s.kids :: TreeOf(c.kids[key]) == TreeOf(s.kids[key])
    ensures TreeOf(c) == TreeOf(s)
  {
  }

  /** The merge of one key. */
  ghost function MergedAt(kids: map<string, Shape>, key: string, src: Tree): Tree {
    if key in kids then MergeTree(TreeOf(kids[key]), src) else src
  }

  /** The body of DeepMerge's loop: what it does to the destination for one key of the source. */
  method MergeKey(dst: Node, ghost kids: map<string, Shape>, key: string, v: Value, ghost s: Shape)
    returns (ghost r: Shape)
    requires Holds(dst, kids)
    requires ValueOf(s) == v && Rep(s) && Nodes(s) !! Nodes(SMap(dst, kids))
    modifies Nodes(SMap(dst, kids))
    ensures Holds(dst, kids[key := r]) && Rep(s)
    ensures TreeOf(r) == MergedAt(kids, key, TreeOf(s))
    ensures forall n | n in Nodes(r) :: n in Nodes(SMap(dst, kids)) || fresh(n)
    decreases s, 1
  {
    hide Rep, Separate, Nodes, TreeOf, ValueOf, Holds, HoldsExcept, Below, MergeTree;
    HoldsParts(dst, kids);
    NodesAllocated(s);
    if key in dst.entries && dst.entries[key].Ref? && v.Ref? {
      ExceptHolds(dst, kids, key);
      BelowLess(kids, key);
      BelowAllocated(kids);
      var merged;
      merged, r := DeepMerge(dst.entries[key].node, kids[key], v.node, s);
      Put(dst, kids, key, Ref(merged), r);
    } else {
      r := CopyInto(dst, kids, key, v, s);
      if key in kids {
        MergeReplaces(kids[key], s);
      }
    }
  }

  lemma MergeReplaces(d: Shape, s: Shape)
    requires !(ValueOf(d).Ref? && ValueOf(s).Ref?)
    ensures MergeTree(TreeOf(d), TreeOf(s)) == TreeOf(s)
  {
  }

  /** DeepMerge. A nil destination is replaced by a new map. */
  method DeepMerge(dst: Node?, ghost d: Shape, src: Node, ghost s: Shape) returns (out: Node, ghost r: Shape)
    requires dst != null ==> ValueOf(d) == Ref(dst) && Rep(d) && Separate(d)
    requires dst == null ==> d == SSlice([])
    requires ValueOf(s) == Ref(src) && Rep(s) && Nodes(s) !! Nodes(d)
    modifies Nodes(d)
    ensures dst != null ==> out == dst
    ensures ValueOf(r) == Ref(out) && Rep(r) && Separate(r) && Rep(s)
    ensures TreeOf(r) == MergeTree(if dst == null then Obj(map[]) else TreeOf(d), TreeOf(s))
    ensures forall n | n in Nodes(r) :: n in Nodes(d) || fresh(n)
    decreases s, 0
  {
    hide Rep, Separate, Nodes, TreeOf, ValueOf, Holds, Below, MergeTree, MergedSoFar;
    MapParts(src, s);
    NodesAllocated(s);
    ghost var kids: map<string, Shape> := map[];
    if dst == null {
      out := new Node();
      EmptyHolds(out);
    } else {
      out := dst;
      ShapeHolds(d, dst);
      kids := d.kids;
    }
    ghost var before := kids;
    MergedStart(before, s.kids);
    var todo := src.entries.Keys;
    while todo != {}
      invariant todo <= s.kids.Keys && MergedSoFar(before, s.kids, todo, kids)
      invariant Rep(s) && Holds(out, kids)
      invariant forall n | n in Below(kids) + {out} :: n in Nodes(d) || fresh(n)
    {
      var key :| key in todo;
      MapParts(src, s);
      HoldsParts(out, kids);
      BelowAllocated(kids);
      ghost var owned := Nodes(SMap(out, kids));
      ghost var k := MergeKey(out, kids, key, src.entries[key], s.kids[key]);
      assert forall n | n in Nodes(k) :: n in owned || fresh(n);
      BelowPut(kids, key, k);
      MergedStep(before, s.kids, todo, kids, key, k);
      kids := kids[key := k];
      todo := todo - {key};
    }
    HoldsParts(out, kids);
    r := SMap(out, kids);
    MergedTree(before, s, r);
  }

  /** What the keys merged so far, all but those in `todo`, have made of `before`. */
  ghost predicate MergedSoFar(before: map<string, Shape>, src: map<string, Shape>, todo: set<string>,
                              kids: map<string, Shape>) {
    && kids.Keys == before.Keys + (src.Keys - todo)
    && (forall key | key in kids && (key in todo || key !in src) :: kids[key] == before[key])
    && (forall key | key in kids && key in src && key !in todo ::
        TreeOf(kids[key]) == MergedAt(before, key, TreeOf(src[key])))
  }

  lemma MergedStart(before: map<string, Shape>, src: map<string, Shape>)
    ensures MergedSoFar(before, src, src.Keys, before)
  {
  }

  lemma MergedStep(before: map<string, Shape>, src: map<string, Shape>, todo: set<string>, kids: map<string, Shape>,
                   key: string, k: Shape)
    requires MergedSoFar(before, src, todo, kids) && todo <= src.Keys && key in todo
    requires TreeOf(k) == MergedAt(kids, key, TreeOf(src[key]))
    ensures MergedSoFar(before, src, todo - {key}, kids[key := k])
  {
    hide TreeOf, MergeTree;
    assert key in kids <==> key in before;
  }

  lemma MergedTree(before: map<string, Shape>, s: Shape, r: Shape)
    requires r.SMap? && s.SMap? && MergedSoFar(before, s.kids, {}, r.kids)
    ensures TreeOf(r) == MergeTree(Obj(KidTrees(before)), TreeOf(s))
  {
    hide TreeOf, MergeTree;
    KidsTree(r);
    KidsTree(s);
    MergedFields(KidTrees(before), KidTrees(s.kids));
    var merged := MergeFields(KidTrees(before), KidTrees(s.kids));
    assert KidTrees(r.kids).Keys == merged.Keys;
    forall key | key in merged
      ensures KidTrees(r.kids)[key] == merged[key]
    {
      if key in s.kids {
        assert TreeOf(r.kids[key]) == MergedAt(before, key, TreeOf(s.kids[key]));
      } else {
        assert r.kids[key] == before[key];
      }
    }
  }

  lemma KidsTree(s: Shape)
    requires s.SMap?
    ensures TreeOf(s) == Obj(KidTrees(s.kids)) && FieldsOf(s) == KidTrees(s.kids)
  {
  }

  // ---- paths ----

  /** splitPath; the empty result stands for Go's nil. */
  function PathParts(path: string): seq<string> {
    var parts := Split(TrimSpace(path), '.');
    if exists i | 0 <= i < |parts| :: TrimSpace(parts[i]) == "" then []
    else seq(|parts|, i requires 0 <= i < |parts| => TrimSpace(parts[i]))
  }

  method SplitPath(path: string) returns (out: seq<string>)
    ensures out == PathParts(path)
  {
    var trimmed := TrimSpace(path);
    if trimmed == "" {
      assert Split(trimmed, '.')[0] == "";
      return [];
    }
    var parts := Split(trimmed, '.');
    out := [];
    for i := 0 to |parts|
      invariant |out| == i && forall j | 0 <= j < i :: out[j] == TrimSpace(parts[j]) != ""
    {
      var part := TrimSpace(parts[i]);
      if part == "" {
        return [];
      }
      out := out + [part];
    }
  }

  /** A path is written back by joining its parts. */
  lemma PathPartsJoin(parts: seq<string>)
    requires parts != []
    requires forall i | 0 <= i < |parts| :: parts[i] != "" && Trimmed(parts[i]) && '.' !in parts[i]
    ensures PathParts(Join(parts, '.')) == parts
  {
    hide TrimSpace, Trimmed, Split, Join;
    JoinTrimmed(parts);
    TrimmedIsFixed(Join(parts, '.'));
    SplitJoin(parts, '.');
    forall i | 0 <= i < |parts| ensures TrimSpace(parts[i]) == parts[i] { TrimmedIsFixed(parts[i]); }
  }

  lemma {:induction false} JoinTrimmed(parts: seq<string>)
    requires parts != []
    requires forall i | 0 <= i < |parts| :: parts[i] != "" && Trimmed(parts[i])
    ensures Join(parts, '.') != "" && Trimmed(Join(parts, '.'))
  {
    if |parts| > 1 {
      JoinTrimmed(parts[1..]);
    }
  }

  lemma GetStep(s: Shape, parts: seq<string>, i: nat)
    requires i < |parts|
    ensures !ValueOf(s).Ref? ==> TreeGet(TreeOf(s), parts[i..]).None?
    ensures s.SMap? && parts[i] !in s.kids ==> TreeGet(TreeOf(s), parts[i..]).None?
    ensures s.SMap? && parts[i] in s.kids
      ==> TreeGet(TreeOf(s), parts[i..]) == TreeGet(TreeOf(s.kids[parts[i]]), parts[i + 1..])
    ensures TreeGet(TreeOf(s), parts[|parts|..]) == Some(TreeOf(s))
    ensures forall key | s.SMap? && key in s.kids ::
      TreeGet(TreeOf(s.kids[key]), parts[|parts|..]) == Some(TreeOf(s.kids[key]))
  {
    assert parts[i..][1..] == parts[i + 1..];
  }

  method PathGet(root: Node?, ghost s: Shape, path: string) returns (value: Option<Value>, ghost found: Shape)
    requires root != null ==> ValueOf(s) == Ref(root) && Rep(s)
    ensures value.Some? <==> root != null && PathParts(path) != [] && TreeGet(TreeOf(s), PathParts(path)).Some?
    ensures value.Some? ==> ValueOf(found) == value.value && Rep(found) && Nodes(found) <= Nodes(s)
    ensures value.Some? ==> TreeGet(TreeOf(s), PathParts(path)) == Some(TreeOf(found))
  {
    found := s;
    NodesAllocated(s);
    if root == null { return None, s; }
    var parts := SplitPath(path);
    if parts == [] { return None, s; }
    var current := Ref(root);
    hide Rep, Nodes, PathParts, ValueOf, TreeOf, TreeGet;
    for i := 0 to |parts|
      invariant ValueOf(found) == current && Rep(found) && Nodes(found) <= Nodes(s)
      invariant i < |parts| && TreeGet(TreeOf(s), parts) == TreeGet(TreeOf(found), parts[i..])
    {
      GetStep(found, parts, i);
      if !current.Ref? { return None, s; }
      MapParts(current.node, found);
      if parts[i] !in current.node.entries { return None, s; }
      var next := current.node.entries[parts[i]];
      found := found.kids[parts[i]];
      if i == |parts| - 1 { return Some(next), found; }
      current := next;
    }
    assert false;
  }

  /** The map in which a write at this path has to create the first missing map on the way, if any is missing. */
  ghost function CreatesIn(s: Shape, path: seq<string>): Option<Node>
    decreases |path|
  {
    if |path| <= 1 || !s.SMap? then None
    else if path[0] !in s.kids then Some(s.node)
    else CreatesIn(s.kids[path[0]], path[1..])
  }

  /** The value contains the map in which the write creates another one. */
  ghost predicate GrowsInside(s: Shape, path: seq<string>, vs: Shape) {
    CreatesIn(s, path).Some? && CreatesIn(s, path).value in Nodes(vs)
  }

  lemma {:induction false} CreatesInside(s: Shape, path: seq<string>)
    ensures CreatesIn(s, path).Some? ==> CreatesIn(s, path).value in Nodes(s)
    decreases |path|
  {
    if |path| > 1 && s.SMap? && path[0] in s.kids {
      CreatesInside(s.kids[path[0]], path[1..]);
    }
  }

  /** What the value being written has become, by the maps created so far on the way. */
  ghost predicate Grown(s: Shape, parts: seq<string>, vs: Shape, grown: Shape) {
    if GrowsInside(s, parts, vs) then Extends(TreeOf(vs), TreeOf(grown)) && TreeOf(grown) != TreeOf(vs) else grown == vs
  }

  /** One step of the walk, as long as nothing was missing. */
  lemma WalkOn(here: Shape, parts: seq<string>, i: nat)
    requires here.SMap? && i + 1 < |parts|
    ensures parts[i] !in here.kids ==> CreatesIn(here, parts[i..]) == Some(here.node)
    ensures parts[i] in here.kids ==> CreatesIn(here, parts[i..]) == CreatesIn(here.kids[parts[i]], parts[i + 1..])
    ensures here.kids == map[] ==> parts[i] !in here.kids
  {
    assert parts[i..][1..] == parts[i + 1..];
  }

  /** Creating the first missing map. */
  lemma FirstGrowth(s: Shape, parts: seq<string>, vs: Shape, node: Node, key: string, e: Shape)
    requires CreatesIn(s, parts) == Some(node) && Rep(vs) && key !in node.entries
    ensures Grown(s, parts, vs, Grow(vs, node, key, e))
  {
    GrowExtends(vs, node, key, e);
    GrowElsewhere(vs, node, key, e);
  }

  /** Creating the next one, in a map that was not there before. */
  lemma NextGrowth(s: Shape, parts: seq<string>, vs: Shape, grown: Shape, node: Node, key: string, e: Shape)
    requires Grown(s, parts, vs, grown) && Rep(grown) && key !in node.entries && node !in Nodes(vs)
    ensures Grown(s, parts, vs, Grow(grown, node, key, e))
  {
    GrowExtends(grown, node, key, e);
    GrowElsewhere(grown, node, key, e);
    if GrowsInside(s, parts, vs) {
      var a, b, c := TreeOf(vs), TreeOf(grown), TreeOf(Grow(grown, node, key, e));
      ExtendsOn(a, b, c);
      if a == c { ExtendsBoth(a, b); }
    }
  }

  /** Whether a write is possible does not depend on what is written. */
  lemma {:induction false} EitherValue(t: Fields, path: seq<string>, v: Tree, w: Tree)
    requires path != []
    ensures TreeSet(t, path, v).Some? <==> TreeSet(t, path, w).Some?
    decreases |path|
  {
    if |path| > 1 && (path[0] in t ==> t[path[0]].Obj?) {
      EitherValue(if path[0] in t then t[path[0]].fields else map[], path[1..], v, w);
    }
  }

  /** Writing the value as it has become equals writing it as it was exactly when it has not changed. */
  lemma WrittenIff(s: Fields, t: Fields, parts: seq<string>, v: Tree, grown: Tree, out: Fields)
    requires parts != [] && TreeSet(t, parts, v) == TreeSet(s, parts, v) && TreeSet(t, parts, grown) == Some(out)
    ensures TreeSet(s, parts, v) == Some(out) <==> v == grown
    ensures TreeSet(s, parts, v).Some?
  {
    EitherValue(t, parts, v, grown);
    assert parts + [] == parts;
    GetAfterSet(t, parts, grown, []);
    if TreeSet(s, parts, v) == Some(out) { GetAfterSet(s, parts, v, []); }
  }

  /**
   PathSet. All or nothing: it succeeds exactly when the write is possible on the tree, and
   a failed call leaves the very shape it was given, although it creates maps as it walks.

   The value may share maps with the tree. A successful call is then the write of the value on
   the tree exactly when the value does not contain the map in which the first missing map on
   the way is created; otherwise it is written as it has become by then.
   */
  method PathSet(root: Node?, ghost s: Shape, path: string, value: Value, ghost vs: Shape)
    returns (ok: bool, ghost r: Shape)
    requires root != null ==> ValueOf(s) == Ref(root) && Rep(s) && Separate(s)
    requires root == null ==> s == SSlice([])
    requires ValueOf(vs) == value && Rep(vs)
    modifies Nodes(s)
    ensures ok <==> root != null && PathParts(path) != []
                    && TreeSet(FieldsOf(s), PathParts(path), TreeOf(vs)).Some?
    ensures !ok ==> r == s && (root != null ==> Rep(s)) && Rep(vs)
    ensures ok ==> ValueOf(r) == Ref(root) && Rep(r) && Separate(r)
    ensures ok ==> forall n | n in Nodes(r) :: n in Nodes(s) || fresh(n)
    ensures ok ==> (TreeSet(FieldsOf(s), PathParts(path), TreeOf(vs)) == Some(FieldsOf(r))
                    <==> !GrowsInside(s, PathParts(path), vs))
    ensures ok && Nodes(vs) !! Nodes(s) ==>
      && Rep(vs) && Nodes(r) !! Nodes(vs)
      && TreeSet(FieldsOf(s), PathParts(path), TreeOf(vs)) == Some(FieldsOf(r))
  {
    hide Rep, Separate, Nodes, TreeOf, FieldsOf, ValueOf, Holds, Below, PathParts, TreeSet, Around, RepAround,
         ShapeAt, Replace, Grow, Grown,
         GrowsInside, CreatesIn, Extends, RepThen;
    r := s;
    NodesAllocated(s);
    NodesAllocated(vs);
    if root == null { return false, s; }
    var parts := SplitPath(path);
    if parts == [] { return false, s; }
    var current := root;
    MapParts(root, s);
    ShapeAtRoot(s);
    assert parts[..0] == [] && parts[0..] == parts;
    ghost var created := false;
    ghost var here := s;
    ghost var grown := vs;
    for i := 0 to |parts| - 1
      invariant ValueOf(r) == Ref(root) && Rep(r) && Separate(r)
      invariant ValueOf(grown) == value && Rep(grown)
      invariant forall n | n in Nodes(r) :: n in Nodes(s) || fresh(n)
      invariant ShapeAt(r, parts[..i]) == Some(here) && here.SMap? && here.node == current
      invariant !created ==> r == s && grown == vs && CreatesIn(s, parts) == CreatesIn(here, parts[i..])
      invariant created ==> here.kids == map[] && fresh(current) && Grown(s, parts, vs, grown)
      invariant Nodes(vs) !! Nodes(s) ==> Rep(vs)
      invariant TreeSet(FieldsOf(r), parts, TreeOf(vs)) == TreeSet(FieldsOf(s), parts, TreeOf(vs))
    {
      var part := parts[i];
      assert parts[..i + 1] == parts[..i] + [part];
      assert parts == parts[..i] + parts[i..];
      NodeIsThere(here);
      TakeOut(r, parts[..i]);
      MapParts(current, here);
      WalkOn(here, parts, i);
      if part !in current.entries {
        r, grown, current := CreateMap(r, parts, i, current, here, s, vs, grown, value, created);
        created, here := true, SMap(current, map[]);
      } else if current.entries[part].Ref? {
        ShapeAtExtend(r, parts[..i], [part]);
        ShapeAtKey(here.node, here.kids, part);
        here := here.kids[part];
        MapParts(current.entries[part].node, here);
        current := current.entries[part].node;
      } else {
        NotAMap(r, parts[..i], parts[i..], TreeOf(vs));
        return false, r;
      }
    }
    if !created { NothingCreated(s, parts, vs, here); }
    ApartNotInside(s, parts, vs);
    NodeIsThere(here);
    TakeOut(r, parts[..|parts| - 1]);
    MapParts(root, r);
    r := SetLast(r, parts, current, here, s, vs, grown, value);
    ok := true;
  }

  lemma ApartNotInside(s: Shape, parts: seq<string>, vs: Shape)
    ensures Nodes(vs) !! Nodes(s) ==> !GrowsInside(s, parts, vs)
  {
    CreatesInside(s, parts);
  }

  /**
   An instance: an empty map, written into itself at a path of two keys, does not stay empty on
   the way, and it is not the empty map that is written.
   */
  method SetIntoItself(root: Node, path: string) returns (ghost r: Shape)
    requires root.entries == map[] && |PathParts(path)| == 2
    modifies root
    ensures ValueOf(r) == Ref(root) && Rep(r)
    ensures TreeSet(map[], PathParts(path), Obj(map[])).Some?
    ensures FieldsOf(r) != TreeSet(map[], PathParts(path), Obj(map[])).value
  {
    ghost var s := SMap(root, map[]);
    assert TreeOf(s) == Obj(map[]) && FieldsOf(s) == map[] && Nodes(s) == {root};
    assert CreatesIn(s, PathParts(path)) == Some(root);
    var ok;
    ok, r := PathSet(root, s, path, Ref(root), s);
  }

  lemma NothingCreated(s: Shape, parts: seq<string>, vs: Shape, here: Shape)
    requires parts != [] && CreatesIn(s, parts) == CreatesIn(here, parts[|parts| - 1..])
    ensures Grown(s, parts, vs, vs)
  {
  }

  /** `nextMap := map[string]any{}; current[part] = nextMap`, on the way of a write. */
  method CreateMap(ghost r: Shape, parts: seq<string>, i: nat, current: Node, ghost here: Shape, ghost s: Shape,
                   ghost vs: Shape,
                   ghost grown: Shape, value: Value, ghost created: bool)
    returns (ghost r': Shape, ghost grown': Shape, nextMap: Node)
    requires i + 1 < |parts| && parts[i] !in current.entries
    requires Rep(r) && Separate(r) && ShapeAt(r, parts[..i]) == Some(here) && here.SMap? && here.node == current
      && parts[i] !in here.kids
    requires ValueOf(grown) == value && Rep(grown)
    requires if created then Grown(s, parts, vs, grown) && current !in Nodes(vs)
      else grown == vs && CreatesIn(s, parts) == Some(current)
    requires Nodes(vs) !! Nodes(s) ==> Rep(vs)
    requires current in Nodes(s) || current !in Nodes(vs)
    modifies current
    ensures ValueOf(r') == ValueOf(r) && Rep(r') && Separate(r') && fresh(nextMap) && Nodes(r') <= Nodes(r) + {nextMap}
    ensures ShapeAt(r', parts[..i + 1]) == Some(SMap(nextMap, map[]))
    ensures ValueOf(grown') == value && Rep(grown') && Grown(s, parts, vs, grown')
    ensures Nodes(vs) !! Nodes(s) ==> Rep(vs)
    ensures TreeSet(FieldsOf(r'), parts, TreeOf(vs)) == TreeSet(FieldsOf(r), parts, TreeOf(vs))
  {
    hide Rep, Separate, Nodes, TreeOf, FieldsOf, ValueOf, TreeSet, ShapeAt, Replace, Grow, Grown, CreatesIn, Extends,
         RepThen;
    var part := parts[i];
    assert parts[..i + 1] == parts[..i] + [part];
    assert parts == parts[..i] + parts[i..];
    NodesAllocated(r);
    NodesAllocated(vs);
    NodesAllocated(grown);
    nextMap := new Node();
    EmptyMap(nextMap);
    ghost var next := SMap(nextMap, map[]);
    if created {
      NextGrowth(s, parts, vs, grown, current, part, next);
    } else {
      FirstGrowth(s, parts, vs, current, part, next);
    }
    RepIsTaken(grown, Nodes(grown));
    ghost var before := Taken(Nodes(grown));
    r' := AddEntry(current, r, parts[..i], part, Ref(nextMap), next);
    GrowRep(grown, before, current, part, next);
    GrowElsewhere(grown, current, part, next);
    grown' := Grow(grown, current, part, next);
    CreateKeepsSet(r, parts[..i], parts[i..], nextMap, TreeOf(vs));
  }

  /** `current[parts[len(parts)-1]] = deepCopyValue(value)`, at the end of a write. */
  method SetLast(ghost r: Shape, parts: seq<string>, current: Node, ghost here: Shape, ghost s: Shape,
                 ghost vs: Shape, ghost grown: Shape, value: Value)
    returns (ghost r': Shape)
    requires parts != [] && Rep(r) && Separate(r) && r.SMap?
    requires ShapeAt(r, parts[..|parts| - 1]) == Some(here) && here.SMap? && here.node == current
    requires ValueOf(grown) == value && Rep(grown) && Grown(s, parts, vs, grown)
    requires TreeSet(FieldsOf(r), parts, TreeOf(vs)) == TreeSet(FieldsOf(s), parts, TreeOf(vs))
    requires Nodes(vs) !! Nodes(s) ==> Rep(vs)
    requires current in Nodes(s) || current !in Nodes(vs)
    modifies current
    ensures ValueOf(r') == ValueOf(r) && Rep(r') && Separate(r')
    ensures forall n | n in Nodes(r') :: n in Nodes(r) || fresh(n)
    ensures TreeSet(FieldsOf(s), parts, TreeOf(vs)).Some?
    ensures TreeSet(FieldsOf(s), parts, TreeOf(vs)) == Some(FieldsOf(r')) <==> !GrowsInside(s, parts, vs)
    ensures Nodes(vs) !! Nodes(s) ==> Rep(vs)
  {
    hide Rep, Separate, Nodes, TreeOf, FieldsOf, ValueOf, TreeSet, ShapeAt, Replace, Grow, GrowsInside, Extends;
    var last := parts[|parts| - 1];
    assert parts == parts[..|parts| - 1] + [last];
    NodesAllocated(r);
    NodesAllocated(vs);
    var copy, c := DeepCopyValue(value, grown);
    FinalSet(r, parts[..|parts| - 1], last, c, TreeOf(grown));
    r' := AddEntry(current, r, parts[..|parts| - 1], last, copy, c);
    WrittenIff(FieldsOf(s), FieldsOf(r), parts, TreeOf(vs), TreeOf(grown), FieldsOf(r'));
  }

  lemma EmptyMap(node: Node)
    requires node.entries == map[]
    ensures ValueOf(SMap(node, map[])) == Ref(node) && Rep(SMap(node, map[])) && Separate(SMap(node, map[]))
    ensures Nodes(SMap(node, map[])) == {node}
  {
  }

  lemma ShapeAtRoot(s: Shape)
    ensures ShapeAt(s, []) == Some(s)
  {
  }

  /** What a write below a place does to the whole. */
  lemma {:induction false} SetBelow(s: Shape, path: seq<string>, rest: seq<string>, v: Tree, new_: Shape)
    requires ShapeAt(s, path).Some? && ShapeAt(s, path).value.SMap? && rest != [] && new_.SMap?
    ensures s.SMap? && Replace(s, path, new_).SMap?
    ensures TreeSet(FieldsOf(ShapeAt(s, path).value), rest, v) == None
        ==> TreeSet(FieldsOf(s), path + rest, v) == None
    ensures TreeSet(FieldsOf(ShapeAt(s, path).value), rest, v) == Some(FieldsOf(new_))
        ==> TreeSet(FieldsOf(s), path + rest, v) == Some(FieldsOf(Replace(s, path, new_)))
    decreases |path|
  {
    if path == [] {
      assert path + rest == rest;
    } else {
      var key := path[0];
      var sub := s.kids[key];
      assert (path + rest)[1..] == path[1..] + rest;
      SetBelow(sub, path[1..], rest, v, new_);
      KidsPut(s, key, Replace(sub, path[1..], new_));
    }
  }

  lemma KidsPut(s: Shape, key: string, e: Shape)
    requires s.SMap?
    ensures TreeOf(s) == Obj(FieldsOf(s))
    ensures FieldsOf(SMap(s.node, s.kids[key := e])) == FieldsOf(s)[key := TreeOf(e)]
    ensures FieldsOf(s).Keys == s.kids.Keys
    ensures key in s.kids ==> FieldsOf(s)[key] == TreeOf(s.kids[key])
  {
    KidsTree(SMap(s.node, s.kids[key := e]));
    assert KidTrees(s.kids[key := e]) == KidTrees(s.kids)[key := TreeOf(e)];
  }

  lemma EmptyFields(node: Node)
    ensures TreeOf(SMap(node, map[])) == Obj(map[]) && FieldsOf(SMap(node, map[])) == map[]
  {
  }

  lemma FinalSet(s: Shape, path: seq<string>, last: string, c: Shape, v: Tree)
    requires ShapeAt(s, path).Some? && ShapeAt(s, path).value.SMap? && TreeOf(c) == v
    ensures s.SMap?
    ensures var here := ShapeAt(s, path).value;
      TreeSet(FieldsOf(s), path + [last], v) == Some(FieldsOf(Replace(s, path, SMap(here.node, here.kids[last := c]))))
  {
    var here := ShapeAt(s, path).value;
    KidsPut(here, last, c);
    SetBelow(s, path, [last], v, SMap(here.node, here.kids[last := c]));
  }

  lemma NotAMap(s: Shape, path: seq<string>, rest: seq<string>, v: Tree)
    requires ShapeAt(s, path).Some? && ShapeAt(s, path).value.SMap? && |rest| > 1
    requires rest[0] in ShapeAt(s, path).value.kids && !ValueOf(ShapeAt(s, path).value.kids[rest[0]]).Ref?
    ensures s.SMap? && TreeSet(FieldsOf(s), path + rest, v) == None
  {
    SetBelow(s, path, rest, v, ShapeAt(s, path).value);
  }

  /** Creating a missing map on the way does not change what the write will do. */
  lemma {:induction false} CreateKeepsSet(s: Shape, path: seq<string>, rest: seq<string>, node: Node, v: Tree)
    requires ShapeAt(s, path).Some? && ShapeAt(s, path).value.SMap? && |rest| > 1
    requires rest[0] !in ShapeAt(s, path).value.kids
    ensures var here := ShapeAt(s, path).value;
      var r := Replace(s, path, SMap(here.node, here.kids[rest[0] := SMap(node, map[])]));
      s.SMap? && r.SMap? && TreeSet(FieldsOf(r), path + rest, v) == TreeSet(FieldsOf(s), path + rest, v)
    decreases |path|
  {
    hide TreeOf, KidTrees, FieldsOf;
    var here := ShapeAt(s, path).value;
    var key := rest[0];
    var next := SMap(here.node, here.kids[key := SMap(node, map[])]);
    if path == [] {
      assert path + rest == rest;
      KidsPut(here, key, SMap(node, map[]));
      EmptyFields(node);
      var below := TreeSet(map[], rest[1..], v);
      assert below.Some? ==>
          FieldsOf(here)[key := Obj(map[])][key := Obj(below.value)] == FieldsOf(here)[key := Obj(below.value)];
    } else {
      assert (path + rest)[1..] == path[1..] + rest;
      var sub := Replace(s.kids[path[0]], path[1..], next);
      CreateKeepsSet(s.kids[path[0]], path[1..], rest, node, v);
      KidsPut(s, path[0], sub);
      KidsTree(sub);
      KidsTree(s.kids[path[0]]);
      var below := TreeSet(FieldsOf(sub), path[1..] + rest, v);
      assert below.Some? ==>
          FieldsOf(s)[path[0] := TreeOf(sub)][path[0] := Obj(below.value)] == FieldsOf(s)[path[0] := Obj(below.value)];
    }
  }
}
