/** json.Unmarshal and json.Marshal between trees and heap values. */
module JsonValues {
  import opened GoStrings
  import opened Json
  import opened NestedMaps
  import opened Templates

  /** json.Unmarshal into a Go `any`: every object becomes a new map. */
  method Unmarshal(t: Tree) returns (v: Value, ghost s: Shape)
    ensures ValueOf(s) == v && Rep(s) && Separate(s) && fresh(Nodes(s))
    ensures TreeOf(s) == t
    decreases t, 1
  {
    match t
    case Atom(a) =>
      v, s := Leaf(a), SLeaf(a);
    case Arr(items) =>
      var xs;
      xs, s := UnmarshalItems(t);
      v := Slice(xs);
    case Obj(fields) =>
      var n;
      n, s := UnmarshalFields(t);
      v := Ref(n);
  }

  method UnmarshalItems(t: Tree) returns (out: seq<Value>, ghost s: Shape)
    requires t.Arr?
    ensures ValueOf(s) == Slice(out) && Rep(s) && Separate(s) && fresh(Nodes(s))
    ensures TreeOf(s) == t
    decreases t, 0
  {
    hide Rep, Separate, Nodes, TreeOf, ValueOf;
    out := [];
    ghost var ss: seq<Shape> := [];
    for i := 0 to |t.items|
      invariant |out| == |ss| == i
      invariant forall j | 0 <= j < i :: out[j] == ValueOf(ss[j]) && TreeOf(ss[j]) == t.items[j]
      invariant forall j | 0 <= j < i :: Rep(ss[j]) && Separate(ss[j]) && fresh(Nodes(ss[j]))
      invariant forall j, k | 0 <= j < k < i :: Nodes(ss[j]) !! Nodes(ss[k])
    {
      forall j | 0 <= j < i ensures forall n | n in Nodes(ss[j]) :: allocated(n) { NodesAllocated(ss[j]); }
      var x, xs := Unmarshal(t.items[i]);
      out, ss := out + [x], ss + [xs];
    }
    s := SSlice(ss);
    MakeSlice(ss, out);
    SliceTrees(ss, t.items);
  }

  lemma SliceTrees(ss: seq<Shape>, items: seq<Tree>)
    requires |ss| == |items| && forall j | 0 <= j < |ss| :: TreeOf(ss[j]) == items[j]
    ensures TreeOf(SSlice(ss)) == Arr(items)
  {
  }

  method UnmarshalInto(out: Node, ghost kids: map<string, Shape>, key: string, t: Tree) returns (ghost s: Shape)
    requires Holds(out, kids)
    modifies out
    ensures Holds(out, kids[key := s]) && fresh(Nodes(s)) && TreeOf(s) == t
    decreases t, 2
  {
    hide Rep, Separate, Nodes, TreeOf, ValueOf, Holds, Below;
    BelowAllocated(kids);
    ExceptHolds(out, kids, key);
    BelowLess(kids, key);
    var x;
    x, s := Unmarshal(t);
    Put(out, kids, key, x, s);
  }

  method UnmarshalFields(t: Tree) returns (out: Node, ghost s: Shape)
    requires t.Obj?
    ensures ValueOf(s) == Ref(out) && Rep(s) && Separate(s) && fresh(Nodes(s))
    ensures TreeOf(s) == t
    decreases t, 0
  {
    hide Rep, Separate, Nodes, TreeOf, ValueOf, Holds, Below;
    out := new Node();
    EmptyHolds(out);
    ghost var kids: map<string, Shape> := map[];
    var todo := t.fields.Keys;
    while todo != {}
      invariant todo <= t.fields.Keys && kids.Keys == t.fields.Keys - todo
      invariant Holds(out, kids) && fresh(Below(kids) + {out})
      invariant forall key | key in kids :: TreeOf(kids[key]) == t.fields[key]
    {
      var key :| key in todo;
      ghost var k := UnmarshalInto(out, kids, key, t.fields[key]);
      BelowPut(kids, key, k);
      kids := kids[key := k];
      todo := todo - {key};
    }
    HoldsParts(out, kids);
    s := SMap(out, kids);
    KidsTree(s);
    assert KidTrees(kids) == t.fields;
  }

  lemma LeafTree(s: Shape)
    requires ValueOf(s).Leaf?
    ensures TreeOf(s) == Atom(ValueOf(s).scalar)
  {
  }

  /** The tree that json.Marshal and fmt.Sprint see behind a Go value. */
  method ReadTree(v: Value, ghost s: Shape) returns (t: Tree)
    requires ValueOf(s) == v && Rep(s)
    ensures t == TreeOf(s)
    decreases s
  {
    hide Rep, TreeOf, ValueOf, Nodes;
    NodesAllocated(s);
    match v
    case Leaf(a) =>
      t := Atom(a);
      LeafTree(s);
    case Slice(items) =>
      SliceParts(items, s);
      var ts: seq<Tree> := [];
      for i := 0 to |items|
        invariant Rep(s) && |ts| == i && forall j | 0 <= j < i :: ts[j] == TreeOf(s.items[j])
      {
        SliceParts(items, s);
        var x := ReadTree(items[i], s.items[i]);
        ts := ts + [x];
      }
      t := Arr(ts);
      SliceTrees(s.items, ts);
    case Ref(node) =>
      MapParts(node, s);
      var fields: Fields := map[];
      var todo := node.entries.Keys;
      while todo != {}
        invariant Rep(s) && todo <= s.kids.Keys && fields.Keys == s.kids.Keys - todo
        invariant forall key | key in fields :: fields[key] == TreeOf(s.kids[key])
      {
        var key :| key in todo;
        MapParts(node, s);
        var x := ReadTree(node.entries[key], s.kids[key]);
        fields := fields[key := x];
        todo := todo - {key};
      }
      t := Obj(fields);
      KidsTree(s);
      assert KidTrees(s.kids) == fields;
  }
}
