/**
 Lists of patches applied one after the other, and the reason a retried update is safe:
 applying a list a second time never changes anything.
 */
module PatchList {
  import opened Wrappers
  import opened ConfigTree

  function Fold(base: Option<Tree>, ps: seq<Patch>): Option<Tree>
    decreases |ps|
  {
    if ps == [] then base else Fold(Merge(base, ps[0]), ps[1..])
  }

  /** What the list says about one key, for a list of edits. */
  function Project(ps: seq<Patch>, k: string): seq<Patch> {
    if ps == [] then []
    else if ps[0].Edit? && k in ps[0].changes then [ps[0].changes[k]] + Project(ps[1..], k)
    else Project(ps[1..], k)
  }

  ghost predicate AllEdits(ps: seq<Patch>) {
    forall p :: p in ps ==> p.Edit?
  }

  // ---------------------------------------------------------------- how deep a patch is

  ghost function MaxOf(s: set<nat>): (m: nat)
    ensures forall x :: x in s ==> x <= m
  {
    if s == {} then 0
    else
      var x :| x in s;
      var rest := MaxOf(s - {x});
      assert forall y :: y in s ==> y == x || y in s - {x};
      if x > rest then x else rest
  }

  ghost function Height(p: Patch): nat {
    match p
    case Remove => 0
    case Put(_) => 0
    case Edit(c) => 1 + MaxOf(set k | k in c :: Height(c[k]))
  }

  lemma HeightOfChange(c: map<string, Patch>, k: string)
    requires k in c
    ensures Height(c[k]) < Height(Edit(c))
  {
    var hs := set j | j in c :: Height(c[j]);
    assert Height(c[k]) in hs;
    assert Height(Edit(c)) == 1 + MaxOf(hs);
  }

  ghost predicate NoHigher(ps: seq<Patch>, n: nat) {
    forall p :: p in ps ==> Height(p) <= n
  }

  ghost function HeightOf(ps: seq<Patch>): (n: nat)
    ensures NoHigher(ps, n)
  {
    var hs := set p | p in ps :: Height(p);
    assert forall p :: p in ps ==> Height(p) in hs;
    MaxOf(hs)
  }

  lemma {:induction false} ProjectNoHigher(ps: seq<Patch>, k: string, n: nat)
    requires NoHigher(ps, n) && n > 0
    ensures NoHigher(Project(ps, k), n - 1)
  {
    if ps != [] {
      ProjectNoHigher(ps[1..], k, n);
      if ps[0].Edit? && k in ps[0].changes {
        HeightOfChange(ps[0].changes, k);
        assert ps[0] in ps;
      }
    }
  }

  // ---------------------------------------------------------------- folding

  /** Once a list overwrites or removes the whole value, what was there no longer matters. */
  lemma {:induction false} FoldForgetsBase(a: Option<Tree>, b: Option<Tree>, ps: seq<Patch>)
    requires !AllEdits(ps)
    ensures Fold(a, ps) == Fold(b, ps)
    decreases |ps|
  {
    if ps[0].Edit? {
      assert !AllEdits(ps[1..]) by {
        var p :| p in ps && !p.Edit?;
        assert p in ps[1..];
      }
      FoldForgetsBase(Merge(a, ps[0]), Merge(b, ps[0]), ps[1..]);
    }
  }

  /** A list of edits acts on each key by itself. */
  lemma {:induction false} FoldAtKey(base: Option<Tree>, ps: seq<Patch>, k: string)
    requires AllEdits(ps)
    ensures Get(Fields(Fold(base, ps)), k) == Fold(Get(Fields(base), k), Project(ps, k))
    ensures ps != [] ==> Fold(base, ps).Some? && Fold(base, ps).value.Node?
    decreases |ps|
  {
    if ps != [] {
      MergeEditAt(base, ps[0].changes, k);
      FoldAtKey(Merge(base, ps[0]), ps[1..], k);
      assert ps[0] in ps;
    }
  }

  lemma {:induction false} FoldTwiceBounded(base: Option<Tree>, ps: seq<Patch>, n: nat)
    requires NoHigher(ps, n)
    ensures Fold(Fold(base, ps), ps) == Fold(base, ps)
    decreases n
  {
    if !AllEdits(ps) {
      FoldForgetsBase(Fold(base, ps), base, ps);
    } else if ps != [] {
      var once := Fold(base, ps);
      var twice := Fold(once, ps);
      assert ps[0] in ps && n > 0;
      FoldAtKey(base, ps, "");
      FoldAtKey(once, ps, "");
      forall k ensures Get(Fields(twice), k) == Get(Fields(once), k) {
        FoldAtKey(base, ps, k);
        FoldAtKey(once, ps, k);
        ProjectNoHigher(ps, k, n);
        FoldTwiceBounded(Get(Fields(base), k), Project(ps, k), n - 1);
      }
      MapsEqual(Fields(twice), Fields(once));
    }
  }

  /** Any list of patches, later ones overwriting, removing or nesting under earlier ones. */
  lemma FoldTwice(base: Option<Tree>, ps: seq<Patch>)
    ensures Fold(Fold(base, ps), ps) == Fold(base, ps)
  {
    FoldTwiceBounded(base, ps, HeightOf(ps));
  }

  // ---------------------------------------------------------------- documents

  /**
   Applying a list to a document. A step that does not leave a mapping behind is an
   error, and an error anywhere means no result at all.
   */
  function Apply(doc: Document, ps: seq<Patch>): Option<Document>
    decreases |ps|
  {
    if ps == [] then Some(doc)
    else if ps[0].Edit? then Apply(Merge(Some(Node(doc)), ps[0]).value.fields, ps[1..])
    else None
  }

  lemma {:induction false} ApplyIsFold(doc: Document, ps: seq<Patch>)
    ensures AllEdits(ps) <==> Apply(doc, ps).Some?
    ensures AllEdits(ps) ==> Fold(Some(Node(doc)), ps) == Some(Node(Apply(doc, ps).value))
    decreases |ps|
  {
    if ps != [] {
      if ps[0].Edit? {
        ApplyIsFold(Merge(Some(Node(doc)), ps[0]).value.fields, ps[1..]);
        assert AllEdits(ps) <==> AllEdits(ps[1..]) by {
          assert ps == [ps[0]] + ps[1..];
        }
      } else {
        assert ps[0] in ps;
      }
    }
  }

  /** One patch is the merge of it; a longer list is its parts, the earlier ones first. */
  lemma {:induction false} ApplyInOrder(doc: Document, ps: seq<Patch>, qs: seq<Patch>)
    ensures forall p :: Apply(doc, [p]) == (if p.Edit? then Some(Merge(Some(Node(doc)), p).value.fields) else None)
    ensures Apply(doc, ps + qs) == if Apply(doc, ps).Some? then Apply(Apply(doc, ps).value, qs) else None
    decreases |ps|
  {
    if ps == [] {
      assert ps + qs == qs;
    } else {
      assert (ps + qs)[1..] == ps[1..] + qs;
      if ps[0].Edit? {
        ApplyInOrder(Merge(Some(Node(doc)), ps[0]).value.fields, ps[1..], qs);
      }
    }
  }

  /** A list that applies to one document applies to every one, and the second time changes nothing. */
  lemma ApplyTwice(doc: Document, ps: seq<Patch>)
    requires Apply(doc, ps).Some?
    ensures Apply(Apply(doc, ps).value, ps) == Apply(doc, ps)
  {
    var once := Apply(doc, ps).value;
    ApplyIsFold(doc, ps);
    ApplyIsFold(once, ps);
    FoldTwice(Some(Node(doc)), ps);
  }

  // ---------------------------------------------------------------- the diff as a list

  /** The list the diff library hands back: nothing when nothing changed. */
  function DiffList(cur: Document, des: Document): seq<Patch> {
    if cur == des then [] else [Diff(Some(Node(cur)), Node(des))]
  }

  /** As a list too, a diff takes its own source to its target and stays there. */
  lemma DiffListRoundTrip(cur: Document, des: Document)
    ensures Apply(cur, DiffList(cur, des)) == Some(des)
    ensures Apply(des, DiffList(cur, des)) == Some(des)
  {
    if cur != des {
      DiffThenMerge(Some(Node(cur)), Node(des));
      var d := Diff(Some(Node(cur)), Node(des));
      assert Apply(cur, [d]) == Some(des);
      ApplyTwice(cur, [d]);
    }
  }

  /** On any live document the diff list applies, and what it does is the three-way merge. */
  lemma DiffListOnLive(live: Document, cur: Document, des: Document)
    ensures Apply(live, DiffList(cur, des)).Some?
    ensures Some(Node(Apply(live, DiffList(cur, des)).value))
         == Merge(Some(Node(live)), Diff(Some(Node(cur)), Node(des)))
  {
    if cur == des {
      SelfDiffIsIdentity(cur, live);
    }
  }
}
