/** What the nested-map library computes, on trees. */
module Merge {
  import opened GoStrings
  import opened Json

  /** Right-biased recursive merge: objects merge field by field, anything else is replaced. */
  function MergeTree(dst: Tree, src: Tree): Tree
    decreases src
  {
    if dst.Obj? && src.Obj? then
      Obj(map key | key in dst.fields.Keys + src.fields.Keys ::
            if key !in src.fields then dst.fields[key]
            else if key !in dst.fields then src.fields[key]
            else MergeTree(dst.fields[key], src.fields[key]))
    else src
  }

  function MergeFields(dst: Fields, src: Fields): Fields {
    MergeTree(Obj(dst), Obj(src)).fields
  }

  lemma MergedFields(dst: Fields, src: Fields)
    ensures MergeTree(Obj(dst), Obj(src)) == Obj(MergeFields(dst, src))
    ensures MergeFields(dst, src).Keys == dst.Keys + src.Keys
    ensures forall key | key in src ::
      MergeFields(dst, src)[key] == if key in dst then MergeTree(dst[key], src[key]) else src[key]
    ensures forall key | key in dst && key !in src :: MergeFields(dst, src)[key] == dst[key]
  {
  }

  lemma MergeIntoEmpty(src: Fields)
    ensures MergeTree(Obj(map[]), Obj(src)) == Obj(src)
  {
    MergedFields(map[], src);
    assert MergeFields(map[], src) == src;
  }

  /** Merging the same source twice is merging it once. */
  lemma {:induction false} MergeTwice(dst: Tree, src: Tree)
    ensures MergeTree(MergeTree(dst, src), src) == MergeTree(dst, src)
    decreases src
  {
    if !src.Obj? {
    } else {
      var once := MergeTree(dst, src);
      forall key | key in src.fields
        ensures MergeTree(once.fields[key], src.fields[key]) == once.fields[key]
      {
        if dst.Obj? && key in dst.fields {
          MergeTwice(dst.fields[key], src.fields[key]);
        } else {
          MergeSelf(src.fields[key]);
        }
      }
      assert MergeTree(once, src).fields == once.fields;
    }
  }

  lemma {:induction false} MergeSelf(t: Tree)
    ensures MergeTree(t, t) == t
    decreases t
  {
    if !t.Obj? {
    } else {
      forall key | key in t.fields
        ensures MergeTree(t.fields[key], t.fields[key]) == t.fields[key]
      {
        MergeSelf(t.fields[key]);
      }
      assert MergeTree(t, t).fields == t.fields;
    }
  }

  // ---- paths ----

  /** The value a path leads to; the empty path leads to the tree itself. */
  function TreeGet(t: Tree, path: seq<string>): Option<Tree> {
    if path == [] then Some(t)
    else if t.Obj? && path[0] in t.fields then TreeGet(t.fields[path[0]], path[1..])
    else None
  }

  /** Writing at a path, creating missing objects on the way; None when a non-object is in the way. */
  function TreeSet(t: Fields, path: seq<string>, value: Tree): Option<Fields>
    requires path != []
    decreases |path|
  {
    if |path| == 1 then Some(t[path[0] := value])
    else if path[0] in t && !t[path[0]].Obj? then None
    else
      var sub := TreeSet(if path[0] in t then t[path[0]].fields else map[], path[1..], value);
      if sub.None? then None else Some(t[path[0] := Obj(sub.value)])
  }

  /** Neither path leads through the end of the other. */
  predicate Diverge(p: seq<string>, q: seq<string>) {
    p != [] && q != [] && (p[0] != q[0] || Diverge(p[1..], q[1..]))
  }

  /** A write fails exactly when a proper prefix of the path holds something other than an object. */
  lemma {:induction false} TreeSetFails(t: Fields, path: seq<string>, value: Tree)
    requires path != []
    ensures TreeSet(t, path, value).None?
        <==> exists i :: 0 < i < |path| && TreeGet(Obj(t), path[..i]).Some? && !TreeGet(Obj(t), path[..i]).value.Obj?
    decreases |path|
  {
    if |path| > 1 {
      var rest := path[1..];
      var sub: Fields := if path[0] in t && t[path[0]].Obj? then t[path[0]].fields else map[];
      TreeSetFails(sub, rest, value);
      forall i | 0 < i < |path|
        ensures TreeGet(Obj(t), path[..i]) == if path[0] in t then TreeGet(t[path[0]], rest[..i - 1]) else None
      {
        assert path[..i][1..] == rest[..i - 1];
      }
      if path[0] in t && !t[path[0]].Obj? {
        assert TreeGet(Obj(t), path[..1]) == Some(t[path[0]]) by { assert rest[..0] == []; }
      } else if TreeSet(t, path, value).None? {
        var i :| 0 < i < |rest| && TreeGet(Obj(sub), rest[..i]).Some? && !TreeGet(Obj(sub), rest[..i]).value.Obj?;
        assert path[..i + 1][1..] == rest[..i];
        assert TreeGet(Obj(t), path[..i + 1]) == TreeGet(Obj(sub), rest[..i]);
      } else {
        forall i | 0 < i < |path|
          ensures !(TreeGet(Obj(t), path[..i]).Some? && !TreeGet(Obj(t), path[..i]).value.Obj?)
        {
          if i > 1 && path[0] in t {
            assert rest[..i - 1] == rest[..(i - 1)];
          }
        }
      }
    }
  }

  /** A written value is read back, together with everything below it. */
  lemma {:induction false} GetAfterSet(t: Fields, path: seq<string>, value: Tree, below: seq<string>)
    requires path != [] && TreeSet(t, path, value).Some?
    ensures TreeGet(Obj(TreeSet(t, path, value).value), path + below) == TreeGet(value, below)
    decreases |path|
  {
    assert (path + below)[1..] == path[1..] + below;
    if |path| == 1 {
      assert path[1..] + below == below;
    } else {
      GetAfterSet(if path[0] in t then t[path[0]].fields else map[], path[1..], value, below);
    }
  }

  /** A write leaves every diverging path as it was. */
  lemma {:induction false} GetElsewhere(t: Fields, path: seq<string>, value: Tree, other: seq<string>)
    requires path != [] && TreeSet(t, path, value).Some? && Diverge(path, other)
    ensures TreeGet(Obj(TreeSet(t, path, value).value), other) == TreeGet(Obj(t), other)
    decreases |path|
  {
    if |path| > 1 && path[0] == other[0] {
      GetElsewhere(if path[0] in t then t[path[0]].fields else map[], path[1..], value, other[1..]);
    }
  }

  /** Where the source of a merge holds something other than an object, the merged tree reads as the source. */
  lemma {:induction false} MergeReads(dst: Tree, src: Tree, path: seq<string>)
    ensures TreeGet(src, path).Some? && !TreeGet(src, path).value.Obj?
      ==> TreeGet(MergeTree(dst, src), path) == TreeGet(src, path)
    ensures TreeGet(src, path).Some? ==> TreeGet(MergeTree(dst, src), path).Some?
    decreases |path|
  {
    if path != [] && src.Obj? && path[0] in src.fields && dst.Obj? && path[0] in dst.fields {
      MergeReads(dst.fields[path[0]], src.fields[path[0]], path[1..]);
    }
  }
}
