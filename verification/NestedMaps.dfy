/** Go's `map[string]any` values as heap objects. */
module NestedMaps {
  import opened GoStrings
  import opened Json

  /** A Go `any`. Slices are never written through, so only maps are objects. */
  datatype Value =
    | Leaf(scalar: Scalar)
    | Slice(items: seq<Value>)
    | Ref(node: Node)

  class Node {
    var entries: map<string, Value>

    constructor ()
      ensures entries == map[]
    {
      entries := map[];
    }
  }

  /**
   The shape of a value: the tree of nodes below it. It is pure data; `Rep` says that the
   heap agrees with it, and `Separate` that no node occurs in it twice.
   */
  datatype Shape =
    | SLeaf(scalar: Scalar)
    | SSlice(items: seq<Shape>)
    | SMap(node: Node, kids: map<string, Shape>)

  ghost function ValueOf(s: Shape): Value {
    match s
    case SLeaf(a) => Leaf(a)
    case SSlice(items) => Slice(seq(|items|, i requires 0 <= i < |items| => ValueOf(items[i])))
    case SMap(node, _) => Ref(node)
  }

  ghost function TreeOf(s: Shape): Tree {
    match s
    case SLeaf(a) => Atom(a)
    case SSlice(items) => Arr(seq(|items|, i requires 0 <= i < |items| => TreeOf(items[i])))
    case SMap(_, kids) => Obj(map key | key in kids :: TreeOf(kids[key]))
  }

  ghost function KidTrees(kids: map<string, Shape>): Fields {
    map key | key in kids :: TreeOf(kids[key])
  }

  /** The fields of a map's tree. */
  ghost function FieldsOf(s: Shape): Fields {
    if s.SMap? then KidTrees(s.kids) else map[]
  }

  ghost function Nodes(s: Shape): set<Node> {
    match s
    case SLeaf(_) => {}
    case SSlice(items) => set i, n | 0 <= i < |items| && n in Nodes(items[i]) :: n
    case SMap(node, kids) => {node} + set key, n | key in kids && n in Nodes(kids[key]) :: n
  }

  ghost predicate Separate(s: Shape) {
    match s
    case SLeaf(_) => true
    case SSlice(items) =>
      && (forall i | 0 <= i < |items| :: Separate(items[i]))
      && (forall i, j | 0 <= i < j < |items| :: Nodes(items[i]) !! Nodes(items[j]))
    case SMap(node, kids) =>
      && (forall key | key in kids :: Separate(kids[key]) && node !in Nodes(kids[key]))
      && (forall k1, k2 | k1 in kids && k2 in kids && k1 != k2 :: Nodes(kids[k1]) !! Nodes(kids[k2]))
  }

  ghost predicate Rep(s: Shape)
    reads Nodes(s)
  {
    match s
    case SLeaf(_) => true
    case SSlice(items) => forall i | 0 <= i < |items| :: Rep(items[i])
    case SMap(node, kids) =>
      && node.entries == (map key | key in kids :: ValueOf(kids[key]))
      && forall key | key in kids :: Rep(kids[key])
  }

  /** The nodes below a map. */
  ghost function Below(kids: map<string, Shape>): set<Node> {
    set key, n | key in kids && n in Nodes(kids[key]) :: n
  }

  /** The node holds exactly these separate values. */
  ghost predicate Holds(node: Node, kids: map<string, Shape>)
    reads Nodes(SMap(node, kids))
  {
    Rep(SMap(node, kids)) && Separate(SMap(node, kids))
  }

  // ---- facts about shapes ----

  lemma {:induction false} NodesAllocated(s: Shape)
    ensures forall n | n in Nodes(s) :: allocated(n)
  {
    match s
    case SLeaf(_) =>
    case SSlice(items) =>
      forall i | 0 <= i < |items| ensures forall n | n in Nodes(items[i]) :: allocated(n) {
        NodesAllocated(items[i]);
      }
    case SMap(_, kids) =>
      forall key | key in kids ensures forall n | n in Nodes(kids[key]) :: allocated(n) {
        NodesAllocated(kids[key]);
      }
  }

  lemma {:induction false} BelowAllocated(kids: map<string, Shape>)
    ensures forall n | n in Below(kids) :: allocated(n)
  {
    forall key | key in kids ensures forall n | n in Nodes(kids[key]) :: allocated(n) {
      NodesAllocated(kids[key]);
    }
  }

  lemma MapParts(node: Node, s: Shape)
    requires ValueOf(s) == Ref(node) && Rep(s)
    ensures s.SMap? && s.node == node && node in Nodes(s)
    ensures node.entries.Keys == s.kids.Keys
    ensures forall key | key in s.kids ::
      node.entries[key] == ValueOf(s.kids[key]) && Rep(s.kids[key]) && Nodes(s.kids[key]) <= Nodes(s)
  {
  }

  lemma HoldsParts(node: Node, kids: map<string, Shape>)
    requires Holds(node, kids)
    ensures Rep(SMap(node, kids)) && Separate(SMap(node, kids)) && ValueOf(SMap(node, kids)) == Ref(node)
    ensures Nodes(SMap(node, kids)) == {node} + Below(kids) && node !in Below(kids)
    ensures node.entries.Keys == kids.Keys
    ensures forall key | key in kids ::
      node.entries[key] == ValueOf(kids[key]) && Rep(kids[key]) && Separate(kids[key])
          && Nodes(kids[key]) <= Below(kids)
  {
  }

  lemma EmptyHolds(node: Node)
    requires node.entries == map[]
    ensures Holds(node, map[]) && Below(map[]) == {}
  {
  }

  lemma BelowPut(kids: map<string, Shape>, key: string, s: Shape)
    ensures Nodes(s) <= Below(kids[key := s]) <= Below(kids) + Nodes(s)
  {
    assert kids[key := s][key] == s;
  }

  lemma BelowLess(kids: map<string, Shape>, key: string)
    ensures Below(kids - {key}) <= Below(kids)
  {
  }

  lemma ShapeHolds(s: Shape, node: Node)
    requires ValueOf(s) == Ref(node) && Rep(s) && Separate(s)
    ensures s.SMap? && s.node == node && Holds(node, s.kids) && Nodes(s) == {node} + Below(s.kids)
    ensures TreeOf(s) == Obj(KidTrees(s.kids))
  {
  }

  /** `Holds`, with nothing said about one key. */
  ghost predicate HoldsExcept(node: Node, kids: map<string, Shape>, key: string)
    reads node, Below(kids - {key})
  {
    && node.entries.Keys - {key} == kids.Keys - {key}
    && (forall k | k in kids - {key} ::
          k in node.entries && node.entries[k] == ValueOf(kids[k]) && Rep((kids - {key})[k]) && Separate(kids[k])
              && node !in Nodes(kids[k]))
    && (forall k1, k2 | k1 in kids - {key} && k2 in kids - {key} && k1 != k2 :: Nodes(kids[k1]) !! Nodes(kids[k2]))
  }

  lemma ExceptHolds(node: Node, kids: map<string, Shape>, key: string)
    requires Holds(node, kids)
    ensures HoldsExcept(node, kids, key)
    ensures key in kids ==> Nodes(kids[key]) !! Below(kids - {key}) && node !in Nodes(kids[key])
  {
  }

  lemma ExceptPut(node: Node, kids: map<string, Shape>, key: string, s: Shape)
    requires HoldsExcept(node, kids, key) && key in node.entries && node.entries[key] == ValueOf(s)
    requires Rep(s) && Separate(s) && node !in Nodes(s) && Nodes(s) !! Below(kids - {key})
    ensures Holds(node, kids[key := s])
  {
    var others := kids - {key};
    var after := kids[key := s];
    assert node.entries.Keys == node.entries.Keys - {key} + {key};
    assert after.Keys == kids.Keys - {key} + {key};
    forall k | k in after
      ensures node.entries[k] == ValueOf(after[k]) && Rep(after[k]) && Separate(after[k]) && node !in Nodes(after[k])
    {
      assert k == key || (k in others && after[k] == others[k]);
    }
    forall k1, k2 | k1 in after && k2 in after && k1 != k2
      ensures Nodes(after[k1]) !! Nodes(after[k2])
    {
      assert k1 == key || (k1 in others && Nodes(others[k1]) <= Below(others));
      assert k2 == key || (k2 in others && Nodes(others[k2]) <= Below(others));
    }
    MakeHolds(node, after);
  }

  lemma MakeHolds(node: Node, kids: map<string, Shape>)
    requires node.entries.Keys == kids.Keys
    requires forall k | k in kids ::
      node.entries[k] == ValueOf(kids[k]) && Rep(kids[k]) && Separate(kids[k]) && node !in Nodes(kids[k])
    requires forall k1, k2 | k1 in kids && k2 in kids && k1 != k2 :: Nodes(kids[k1]) !! Nodes(kids[k2])
    ensures Holds(node, kids)
  {
    assert node.entries == map k | k in kids :: ValueOf(kids[k]);
  }

  /** Storing a separate value under a key. */
  method Put(node: Node, ghost kids: map<string, Shape>, key: string, value: Value, ghost s: Shape)
    requires HoldsExcept(node, kids, key)
    requires ValueOf(s) == value && Rep(s) && Separate(s)
    requires node !in Nodes(s) && Nodes(s) !! Below(kids - {key})
    modifies node
    ensures Holds(node, kids[key := s])
    ensures node.entries == old(node.entries)[key := value]
  {
    node.entries := node.entries[key := value];
    ExceptPut(node, kids, key, s);
  }

  // ---- a place inside a shape ----

  ghost function ShapeAt(s: Shape, path: seq<string>): Option<Shape> {
    if path == [] then Some(s)
    else if s.SMap? && path[0] in s.kids then ShapeAt(s.kids[path[0]], path[1..])
    else None
  }

  ghost function Replace(s: Shape, path: seq<string>, new_: Shape): Shape
    requires ShapeAt(s, path).Some?
    decreases |path|
  {
    if path == [] then new_
    else SMap(s.node, s.kids[path[0] := Replace(s.kids[path[0]], path[1..], new_)])
  }

  /** The nodes of a shape outside the place. */
  ghost function Around(s: Shape, path: seq<string>): set<Node>
    requires ShapeAt(s, path).Some?
    decreases |path|
  {
    if path == [] then {}
    else {s.node} + Below(s.kids - {path[0]}) + Around(s.kids[path[0]], path[1..])
  }

  /** The heap agrees with a shape outside the place. */
  ghost predicate RepAround(s: Shape, path: seq<string>)
    requires ShapeAt(s, path).Some?
    reads Around(s, path)
    decreases |path|
  {
    path == [] ||
    (HoldsExcept(s.node, s.kids, path[0])
    && path[0] in s.node.entries && s.node.entries[path[0]] == ValueOf(s.kids[path[0]])
    && s.node !in Nodes(s.kids[path[0]]) && Nodes(s.kids[path[0]]) !! Below(s.kids - {path[0]})
    && RepAround(s.kids[path[0]], path[1..]))
  }

  lemma {:induction false} TakeOut(s: Shape, path: seq<string>)
    requires ShapeAt(s, path).Some? && Rep(s) && Separate(s)
    ensures RepAround(s, path)
    ensures Nodes(s) == Around(s, path) + Nodes(ShapeAt(s, path).value)
    ensures Around(s, path) !! Nodes(ShapeAt(s, path).value)
    ensures Rep(ShapeAt(s, path).value) && Separate(ShapeAt(s, path).value)
    decreases |path|
  {
    hide Rep, Separate, Nodes, Holds, Below;
    if path == [] {
    } else {
      var key := path[0];
      NodeIsThere(s);
      ShapeHolds(s, s.node);
      ExceptHolds(s.node, s.kids, key);
      HoldsParts(s.node, s.kids);
      TakeOut(s.kids[key], path[1..]);
      BelowSplit(s.kids, key);
    }
  }

  lemma BelowSplit(kids: map<string, Shape>, key: string)
    requires key in kids
    ensures Below(kids) == Below(kids - {key}) + Nodes(kids[key])
  {
    forall n | n in Below(kids)
      ensures n in Below(kids - {key}) || n in Nodes(kids[key])
    {
      var k :| k in kids && n in Nodes(kids[k]);
      assert k == key || (k in kids - {key} && (kids - {key})[k] == kids[k]);
    }
  }

  lemma {:induction false} AroundInside(s: Shape, path: seq<string>)
    requires ShapeAt(s, path).Some?
    ensures Around(s, path) <= Nodes(s)
    decreases |path|
  {
    if path == [] {
    } else {
      AroundInside(s.kids[path[0]], path[1..]);
      BelowLess(s.kids, path[0]);
    }
  }

  /** Putting a shape of the same node back, or one with more nodes, restores the whole. */
  lemma {:induction false} PutBack(s: Shape, path: seq<string>, new_: Shape)
    requires ShapeAt(s, path).Some? && RepAround(s, path)
    requires Rep(new_) && Separate(new_) && ValueOf(new_) == ValueOf(ShapeAt(s, path).value)
    requires Nodes(new_) !! Around(s, path)
    ensures Rep(Replace(s, path, new_)) && Separate(Replace(s, path, new_))
    ensures ValueOf(Replace(s, path, new_)) == ValueOf(s)
    ensures Nodes(Replace(s, path, new_)) == Around(s, path) + Nodes(new_)
    decreases |path|
  {
    hide Rep, Separate, Nodes, ValueOf, Holds, HoldsExcept, Below;
    if path == [] {
    } else {
      var key := path[0];
      PutBack(s.kids[key], path[1..], new_);
      AroundInside(s.kids[key], path[1..]);
      NodeIsThere(Replace(s, path, new_));
      NodeIsThere(s);
      var sub := Replace(s.kids[key], path[1..], new_);
      ExceptPut(s.node, s.kids, key, sub);
      HoldsParts(s.node, s.kids[key := sub]);
      BelowSplit(s.kids[key := sub], key);
      assert s.kids[key := sub] - {key} == s.kids - {key};
    }
  }

  lemma {:induction false} ShapeAtExtend(s: Shape, path: seq<string>, more: seq<string>)
    requires ShapeAt(s, path).Some?
    ensures ShapeAt(s, path + more) == ShapeAt(ShapeAt(s, path).value, more)
    decreases |path|
  {
    if path == [] {
      assert path + more == more;
    } else {
      assert (path + more)[1..] == path[1..] + more;
      ShapeAtExtend(s.kids[path[0]], path[1..], more);
    }
  }

  lemma {:induction false} ShapeAtReplaced(s: Shape, path: seq<string>, new_: Shape)
    requires ShapeAt(s, path).Some?
    ensures ShapeAt(Replace(s, path, new_), path) == Some(new_)
    decreases |path|
  {
    if path == [] {
    } else {
      ShapeAtReplaced(s.kids[path[0]], path[1..], new_);
    }
  }

  lemma ShapeAtKey(node: Node, kids: map<string, Shape>, key: string)
    requires key in kids
    ensures ShapeAt(SMap(node, kids), [key]) == Some(kids[key])
  {
  }

  lemma NodeIsThere(s: Shape)
    requires s.SMap?
    ensures s.node in Nodes(s) && ValueOf(s) == Ref(s.node)
  {
  }

  /** `current[key] = value`, for a map somewhere inside a shape. */
  method AddEntry(current: Node, ghost s: Shape, ghost path: seq<string>, key: string, value: Value, ghost e: Shape)
    returns (ghost r: Shape)
    requires Rep(s) && Separate(s) && ShapeAt(s, path).Some?
    requires ShapeAt(s, path).value.SMap? && ShapeAt(s, path).value.node == current
    requires ValueOf(e) == value && Rep(e) && Separate(e) && Nodes(e) !! Nodes(s)
    modifies current
    ensures r == Replace(s, path, SMap(current, ShapeAt(s, path).value.kids[key := e]))
    ensures ValueOf(r) == ValueOf(s) && Rep(r) && Separate(r) && Nodes(r) <= Nodes(s) + Nodes(e)
    ensures ShapeAt(r, path + [key]) == Some(e)
    ensures current.entries == old(current.entries)[key := value]
  {
    hide Rep, Separate, Nodes, ValueOf, Holds, HoldsExcept, Below, Around, RepAround, Replace, ShapeAt;
    ghost var here := ShapeAt(s, path).value;
    NodesAllocated(s);
    TakeOut(s, path);
    NodeIsThere(here);
    ShapeHolds(here, current);
    ExceptHolds(current, here.kids, key);
    BelowLess(here.kids, key);
    Put(current, here.kids, key, value, e);
    ghost var kids := here.kids[key := e];
    HoldsParts(current, kids);
    BelowPut(here.kids, key, e);
    PutBack(s, path, SMap(current, kids));
    r := Replace(s, path, SMap(current, kids));
    ShapeAtReplaced(s, path, SMap(current, kids));
    ShapeAtExtend(r, path, [key]);
    ShapeAtKey(current, kids, key);
  }

  // ---- a value that shares maps with what is being changed ----

  /** The shape of a value after `node[key] = e`, wherever the node occurs in it. */
  ghost function Grow(v: Shape, node: Node, key: string, e: Shape): Shape {
    match v
    case SLeaf(_) => v
    case SSlice(items) => SSlice(seq(|items|, i requires 0 <= i < |items| => Grow(items[i], node, key, e)))
    case SMap(n, kids) =>
      var grown := map k | k in kids :: Grow(kids[k], node, key, e);
      SMap(n, if n == node then grown[key := e] else grown)
  }

  lemma {:induction false} GrowElsewhere(v: Shape, node: Node, key: string, e: Shape)
    ensures node !in Nodes(v) ==> Grow(v, node, key, e) == v
    ensures ValueOf(Grow(v, node, key, e)) == ValueOf(v)
  {
    match v
    case SLeaf(_) =>
    case SSlice(items) =>
      forall i | 0 <= i < |items|
        ensures node !in Nodes(items[i]) ==> Grow(items[i], node, key, e) == items[i]
        ensures ValueOf(Grow(items[i], node, key, e)) == ValueOf(items[i])
      {
        GrowElsewhere(items[i], node, key, e);
      }
    case SMap(n, kids) =>
      forall k | k in kids
        ensures node !in Nodes(kids[k]) ==> Grow(kids[k], node, key, e) == kids[k]
      {
        GrowElsewhere(kids[k], node, key, e);
      }
  }

  /** What was there is still there; objects may have more fields. */
  predicate Extends(a: Tree, b: Tree) {
    match a
    case Atom(_) => b == a
    case Arr(items) => b.Arr? && |b.items| == |items| && forall i | 0 <= i < |items| :: Extends(items[i], b.items[i])
    case Obj(fields) => b.Obj? && fields.Keys <= b.fields.Keys && forall k | k in fields ::
        Extends(fields[k], b.fields[k])
  }

  lemma {:induction false} ExtendsSelf(a: Tree)
    ensures Extends(a, a)
  {
    match a
    case Atom(_) =>
    case Arr(items) => forall i | 0 <= i < |items| ensures Extends(items[i], items[i]) { ExtendsSelf(items[i]); }
    case Obj(fields) => forall k | k in fields ensures Extends(fields[k], fields[k]) { ExtendsSelf(fields[k]); }
  }

  lemma {:induction false} ExtendsOn(a: Tree, b: Tree, c: Tree)
    requires Extends(a, b) && Extends(b, c)
    ensures Extends(a, c)
  {
    match a
    case Atom(_) =>
    case Arr(items) => forall i | 0 <= i < |items|
      ensures Extends(items[i], c.items[i])
    {
      ExtendsOn(items[i], b.items[i], c.items[i]);
    }
    case Obj(fields) => forall k | k in fields
      ensures Extends(fields[k], c.fields[k])
    {
      ExtendsOn(fields[k], b.fields[k], c.fields[k]);
    }
  }

  lemma {:induction false} ExtendsBoth(a: Tree, b: Tree)
    requires Extends(a, b) && Extends(b, a)
    ensures a == b
  {
    match a
    case Atom(_) =>
    case Arr(items) =>
      forall i | 0 <= i < |items| ensures items[i] == b.items[i] { ExtendsBoth(items[i], b.items[i]); }
      assert items == b.items;
    case Obj(fields) =>
      forall k | k in fields ensures fields[k] == b.fields[k] { ExtendsBoth(fields[k], b.fields[k]); }
      assert fields == b.fields;
  }

  /** A value that has the node grows for good when a new key is stored there. */
  lemma {:induction false} GrowExtends(v: Shape, node: Node, key: string, e: Shape)
    requires Rep(v) && key !in node.entries
    ensures Extends(TreeOf(v), TreeOf(Grow(v, node, key, e)))
    ensures node in Nodes(v) ==> TreeOf(Grow(v, node, key, e)) != TreeOf(v)
  {
    var g := Grow(v, node, key, e);
    match v
    case SLeaf(_) =>
    case SSlice(items) =>
      forall i | 0 <= i < |items|
        ensures Extends(TreeOf(items[i]), TreeOf(g.items[i]))
        ensures node in Nodes(items[i]) ==> TreeOf(items[i]) != TreeOf(g.items[i])
      {
        GrowExtends(items[i], node, key, e);
      }
      if node in Nodes(v) {
        var i :| 0 <= i < |items| && node in Nodes(items[i]);
        assert TreeOf(v).items[i] != TreeOf(g).items[i];
      }
    case SMap(n, kids) =>
      forall k | k in kids
        ensures k in g.kids && Extends(TreeOf(kids[k]), TreeOf(g.kids[k]))
        ensures node in Nodes(kids[k]) ==> TreeOf(kids[k]) != TreeOf(g.kids[k])
      {
        GrowExtends(kids[k], node, key, e);
        assert n == node ==> k != key;
      }
      if n == node {
        assert key in TreeOf(g).fields && key !in TreeOf(v).fields;
      } else if node in Nodes(v) {
        var k :| k in kids && node in Nodes(kids[k]);
        assert TreeOf(v).fields[k] != TreeOf(g).fields[k];
      }
  }

  /** What some nodes hold at a moment, to speak of it later. */
  ghost function Taken(nodes: set<Node>): map<Node, map<string, Value>>
    reads nodes
  {
    map n | n in nodes :: n.entries
  }

  ghost predicate RepThen(v: Shape, then_: map<Node, map<string, Value>>) {
    match v
    case SLeaf(_) => true
    case SSlice(items) => forall i | 0 <= i < |items| :: RepThen(items[i], then_)
    case SMap(n, kids) =>
      && n in then_ && then_[n] == (map k | k in kids :: ValueOf(kids[k]))
      && forall k | k in kids :: RepThen(kids[k], then_)
  }

  lemma {:induction false} RepIsTaken(v: Shape, nodes: set<Node>)
    requires Rep(v) && Nodes(v) <= nodes
    ensures RepThen(v, Taken(nodes))
  {
    match v
    case SLeaf(_) =>
    case SSlice(items) =>
      forall i | 0 <= i < |items| ensures RepThen(items[i], Taken(nodes)) { RepIsTaken(items[i], nodes); }
    case SMap(n, kids) =>
      forall k | k in kids ensures RepThen(kids[k], Taken(nodes)) { RepIsTaken(kids[k], nodes); }
  }

  lemma MakeRep(n: Node, kids: map<string, Shape>)
    requires n.entries.Keys == kids.Keys
    requires forall k | k in kids :: n.entries[k] == ValueOf(kids[k]) && Rep(kids[k])
    ensures Rep(SMap(n, kids))
  {
    hide ValueOf;
    assert n.entries == map k | k in kids :: ValueOf(kids[k]);
  }

  /** After `node[key] = value` the heap agrees with the grown shape. */
  lemma {:induction false} GrowRep(v: Shape, then_: map<Node, map<string, Value>>, node: Node, key: string, e: Shape)
    requires RepThen(v, then_) && Rep(e)
    requires forall n | n in Nodes(v) ::
      n in then_ && n.entries == if n == node then then_[n][key := ValueOf(e)] else then_[n]
    ensures Rep(Grow(v, node, key, e))
    decreases v
  {
    hide Rep, ValueOf;
    match v
    case SLeaf(_) => RepLeaf(v);
    case SSlice(items) =>
      forall i | 0 <= i < |items| ensures Rep(Grow(items[i], node, key, e)) { GrowRep(items[i], then_, node, key, e); }
      RepSlice(Grow(v, node, key, e));
    case SMap(n, kids) =>
      forall k | k in kids
        ensures Rep(Grow(kids[k], node, key, e)) && ValueOf(Grow(kids[k], node, key, e)) == ValueOf(kids[k])
      {
        GrowRep(kids[k], then_, node, key, e);
        GrowElsewhere(kids[k], node, key, e);
      }
      MakeRep(n, Grow(v, node, key, e).kids);
  }

  lemma RepLeaf(v: Shape)
    ensures v.SLeaf? ==> Rep(v)
  {
  }

  lemma RepSlice(v: Shape)
    requires v.SSlice? && forall i | 0 <= i < |v.items| :: Rep(v.items[i])
    ensures Rep(v)
  {
  }

  lemma {:induction false} GrowNodes(v: Shape, node: Node, key: string, e: Shape)
    ensures Nodes(Grow(v, node, key, e)) <= Nodes(v) + Nodes(e)
  {
    var g := Grow(v, node, key, e);
    match v
    case SLeaf(_) =>
    case SSlice(items) =>
      forall i | 0 <= i < |items|
        ensures Nodes(g.items[i]) <= Nodes(items[i]) + Nodes(e)
      {
        GrowNodes(items[i], node, key, e);
      }
    case SMap(n, kids) =>
      forall k | k in kids
        ensures Nodes(Grow(kids[k], node, key, e)) <= Nodes(kids[k]) + Nodes(e)
      {
        GrowNodes(kids[k], node, key, e);
      }
      forall m | m in Nodes(g)
        ensures m in Nodes(v) + Nodes(e)
      {
        if m != n {
          var k :| k in g.kids && m in Nodes(g.kids[k]);
          assert k in kids || k == key;
        }
      }
  }
}
