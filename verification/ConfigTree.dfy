/**
 Machine configurations as trees, and the two library operations the update engine is
 built on: computing the strategic merge patch between two configurations, and merging
 a patch into a configuration.

 The merge engine itself is a Talos library that is not part of this model. It is
 defined here as a tree merge in the style of RFC 7396, section 2, with an explicit
 removal node in place of JSON's null; a list is an opaque leaf.
 */
module ConfigTree {
  import opened Wrappers

  /** A scalar or a whole list, as its text. */
  type Value = string

  datatype Tree = Leaf(value: Value) | Node(fields: Document)

  /** The root of a configuration is always a mapping. */
  type Document = map<string, Tree>

  datatype Patch = Remove | Put(value: Value) | Edit(changes: map<string, Patch>)

  /** What a patch finds when it looks for a mapping: anything else counts as empty. */
  function Fields(t: Option<Tree>): Document {
    if t.Some? && t.value.Node? then t.value.fields else map[]
  }

  function Merge(base: Option<Tree>, p: Patch): Option<Tree>
    decreases p
  {
    match p
    case Remove => None
    case Put(v) => Some(Leaf(v))
    case Edit(c) =>
      var m := Fields(base);
      Some(Node(map k | k in m.Keys + c.Keys && (k in c ==> Merge(Get(m, k), c[k]).Some?) ::
        if k in c then Merge(Get(m, k), c[k]).value else m[k]))
  }

  /** The patch that takes `from` to `to`. Only what differs is mentioned. */
  function Diff(from: Option<Tree>, to: Tree): Patch
    decreases to
  {
    match to
    case Leaf(v) => Put(v)
    case Node(g) =>
      var f := Fields(from);
      Edit(map k | k in f.Keys + g.Keys && Get(f, k) != Get(g, k) ::
        if k in g then Diff(Get(f, k), g[k]) else Remove)
  }

  /** The value at a path; absent when a step finds no such key. */
  function Lookup(t: Option<Tree>, path: seq<string>): Option<Tree>
    decreases |path|
  {
    if path == [] then t else Lookup(Get(Fields(t), path[0]), path[1..])
  }

  predicate IsMapping(t: Option<Tree>) {
    t.Some? && t.value.Node?
  }

  /** The two sides disagree here, and the second has a leaf or nothing. */
  predicate ReplacedAt(from: Option<Tree>, to: Option<Tree>, path: seq<string>) {
    Lookup(from, path) != Lookup(to, path) && !IsMapping(Lookup(to, path))
  }

  /** Some prefix of the path, or the path itself, is replaced. */
  ghost predicate ReplacedAbove(from: Option<Tree>, to: Option<Tree>, path: seq<string>) {
    exists i :: 0 <= i <= |path| && ReplacedAt(from, to, path[..i])
  }

  // ---------------------------------------------------------------- diff against merge

  lemma MergeEditAt(base: Option<Tree>, c: map<string, Patch>, k: string)
    ensures Get(Fields(Merge(base, Edit(c))), k)
         == if k in c then Merge(Get(Fields(base), k), c[k]) else Get(Fields(base), k)
  {
  }

  /** Merging the diff into the configuration it was computed from gives the target. */
  lemma {:induction false} DiffThenMerge(a: Option<Tree>, b: Tree)
    ensures Merge(a, Diff(a, b)) == Some(b)
    decreases b
  {
    match b
    case Leaf(_) =>
    case Node(g) =>
      var f, c := Fields(a), Diff(a, b).changes;
      forall k ensures Get(Fields(Merge(a, Edit(c))), k) == Get(g, k) {
        MergeEditAt(a, c, k);
        if k in g && k in c {
          DiffThenMerge(Get(f, k), g[k]);
        }
      }
      MapsEqual(Fields(Merge(a, Edit(c))), g);
  }

  /** A diff of a document with itself leaves every document as it is. */
  lemma SelfDiffIsIdentity(a: Document, base: Document)
    ensures Merge(Some(Node(base)), Diff(Some(Node(a)), Node(a))) == Some(Node(base))
  {
    var c := Diff(Some(Node(a)), Node(a)).changes;
    assert c == map[];
    forall k ensures Get(Fields(Merge(Some(Node(base)), Edit(c))), k) == Get(base, k) {
      MergeEditAt(Some(Node(base)), c, k);
    }
    MapsEqual(Fields(Merge(Some(Node(base)), Edit(c))), base);
  }

  // ---------------------------------------------------------------- the three-way merge

  lemma LookupStep(t: Option<Tree>, path: seq<string>, i: nat)
    requires path != [] && i + 1 <= |path|
    ensures Lookup(t, path[..i + 1]) == Lookup(Get(Fields(t), path[0]), path[1..][..i])
  {
    assert path[..i + 1][1..] == path[1..][..i];
  }

  /** What is replaced above a path is the root, or lies above its tail one level down. */
  lemma ReplacedAboveStep(a: Option<Tree>, b: Option<Tree>, path: seq<string>)
    requires path != []
    ensures ReplacedAbove(a, b, path)
       <==> ReplacedAt(a, b, []) || ReplacedAbove(Get(Fields(a), path[0]), Get(Fields(b), path[0]), path[1..])
  {
    var x, y, tail := Get(Fields(a), path[0]), Get(Fields(b), path[0]), path[1..];
    if ReplacedAbove(a, b, path) {
      var i :| 0 <= i <= |path| && ReplacedAt(a, b, path[..i]);
      if i > 0 {
        LookupStep(a, path, i - 1);
        LookupStep(b, path, i - 1);
        assert ReplacedAt(x, y, tail[..i - 1]);
      }
    }
    if ReplacedAt(a, b, []) {
      assert path[..0] == [];
    }
    if ReplacedAbove(x, y, tail) {
      var i :| 0 <= i <= |tail| && ReplacedAt(x, y, tail[..i]);
      LookupStep(a, path, i);
      LookupStep(b, path, i);
      assert ReplacedAt(a, b, path[..i + 1]);
    }
  }

  lemma LookupAbsent(path: seq<string>)
    ensures Lookup(None, path) == None
    decreases |path|
  {
    if path != [] {
      LookupAbsent(path[1..]);
    }
  }

  /** Below a leaf there is nothing. */
  lemma LookupBelowLeaf(v: Value, path: seq<string>)
    requires path != []
    ensures Lookup(Some(Leaf(v)), path) == None
  {
    LookupAbsent(path[1..]);
  }

  /**
   The outcome of a change, made on a live side it was not computed from, at one path. At
   and below a leaf or nothing that differs there is exactly what is desired; elsewhere,
   what is the same on both sides of the change is as on the live side, also below a
   mapping that the change creates; and what is left is a mapping.
   */
  ghost predicate MergedAt(live: Option<Tree>, cur: Option<Tree>, des: Option<Tree>, result: Option<Tree>,
                           path: seq<string>) {
    var r := Lookup(result, path);
    if ReplacedAbove(cur, des, path) then r == Lookup(des, path)
    else if Lookup(cur, path) == Lookup(des, path) then r == Lookup(live, path)
    else IsMapping(r)
  }

  /** The change from one side to the other, made on the live one. */
  function Replayed(live: Option<Tree>, cur: Option<Tree>, des: Option<Tree>): Option<Tree> {
    if cur == des then live else if des.Some? then Merge(live, Diff(cur, des.value)) else None
  }

  lemma ReplayedBelow(live: Option<Tree>, cur: Option<Tree>, des: Option<Tree>, k: string)
    requires IsMapping(des)
    ensures Get(Fields(Replayed(live, cur, des)), k)
         == Replayed(Get(Fields(live), k), Get(Fields(cur), k), Get(Fields(des), k))
  {
    if cur != des {
      MergeEditAt(live, Diff(cur, des.value).changes, k);
    }
  }

  lemma {:induction false} ReplayedIsMerged(live: Option<Tree>, cur: Option<Tree>, des: Option<Tree>, path: seq<string>)
    ensures MergedAt(live, cur, des, Replayed(live, cur, des), path)
    decreases |path|
  {
    if path == [] {
      assert path[..0] == path;
    } else {
      var k, tail := path[0], path[1..];
      ReplacedAboveStep(cur, des, path);
      if IsMapping(des) {
        ReplayedBelow(live, cur, des, k);
        ReplayedIsMerged(Get(Fields(live), k), Get(Fields(cur), k), Get(Fields(des), k), tail);
      } else {
        LookupAbsent(tail);
        NothingReplaced(cur, path);
      }
    }
  }

  /** Nothing is replaced between two equal sides. */
  lemma NothingReplaced(t: Option<Tree>, path: seq<string>)
    ensures !ReplacedAbove(t, t, path)
  {
  }

  /** Replaying a template change on a live document it was not computed from. */
  lemma ThreeWayMerge(live: Document, cur: Document, des: Document, path: seq<string>)
    ensures MergedAt(Some(Node(live)), Some(Node(cur)), Some(Node(des)),
                     Merge(Some(Node(live)), Diff(Some(Node(cur)), Node(des))), path)
  {
    if cur == des {
      SelfDiffIsIdentity(cur, live);
    }
    ReplayedIsMerged(Some(Node(live)), Some(Node(cur)), Some(Node(des)), path);
  }

  /** At every path the two are the same, or both are mappings. */
  ghost predicate SameShape(s: Option<Tree>, t: Option<Tree>) {
    forall path: seq<string> ::
      Lookup(s, path) == Lookup(t, path) || (IsMapping(Lookup(s, path)) && IsMapping(Lookup(t, path)))
  }

  /** A tree is known by its leaves and by where it has mappings. */
  lemma {:induction false} SameShapeIsSame(s: Option<Tree>, t: Option<Tree>)
    requires SameShape(s, t)
    ensures s == t
    decreases if s.Some? then s.value else Leaf("")
  {
    assert Lookup(s, []) == s && Lookup(t, []) == t;
    if IsMapping(s) && IsMapping(t) {
      forall k ensures Get(Fields(s), k) == Get(Fields(t), k) {
        var x, y := Get(Fields(s), k), Get(Fields(t), k);
        forall path: seq<string>
          ensures Lookup(x, path) == Lookup(y, path) || (IsMapping(Lookup(x, path)) && IsMapping(Lookup(y, path)))
        {
          assert ([k] + path)[1..] == path;
          assert Lookup(s, [k] + path) == Lookup(x, path) && Lookup(t, [k] + path) == Lookup(y, path);
        }
        if k in s.value.fields {
          SameShapeIsSame(x, y);
        } else {
          assert Lookup(x, []) == x && Lookup(y, []) == y;
        }
      }
      MapsEqual(Fields(s), Fields(t));
    }
  }

  /** A template change on a node, path by path. */
  ghost predicate KeepsIdentity(live: Document, cur: Document, des: Document, result: Document) {
    forall path: seq<string> :: MergedAt(Some(Node(live)), Some(Node(cur)), Some(Node(des)), Some(Node(result)), path)
  }

  /** The paths say it all: only the merge of the diff into the live document has these outcomes. */
  lemma KeepsIdentityExactlyWhen(live: Document, cur: Document, des: Document, result: Document)
    ensures KeepsIdentity(live, cur, des, result)
       <==> Some(Node(result)) == Merge(Some(Node(live)), Diff(Some(Node(cur)), Node(des)))
  {
    var a, b, c := Some(Node(live)), Some(Node(cur)), Some(Node(des));
    var merged := Merge(a, Diff(b, c.value));
    forall path: seq<string> ensures MergedAt(a, b, c, merged, path) {
      ThreeWayMerge(live, cur, des, path);
    }
    if KeepsIdentity(live, cur, des, result) {
      forall path: seq<string>
        ensures Lookup(Some(Node(result)), path) == Lookup(merged, path)
          || (IsMapping(Lookup(Some(Node(result)), path)) && IsMapping(Lookup(merged, path)))
      {
        assert MergedAt(a, b, c, Some(Node(result)), path) && MergedAt(a, b, c, merged, path);
      }
      SameShapeIsSame(Some(Node(result)), merged);
    }
  }
}
