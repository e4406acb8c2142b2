/** JSON values, as the handlers see them after decoding. */
module Json {
  datatype Json =
    | Null
    | Bool(b: bool)
    | Num(n: real)
    | Str(s: string)
    | Arr(items: seq<Json>)
    | Obj(fields: map<string, Json>)
}

/**
 JSON Patch (RFC 6902): sequential application of add, remove and replace, and the
 differ that produces the patches the hooks answer with.

 A JSON Pointer is a sequence of segments. The differ is a library that is not part of
 this model's source; its published algorithm is followed, including the order in which
 it edits arrays. It ranges over Go maps, so the order of keys is arbitrary: every loop
 over keys below picks the next key freely.
 */
module JsonPatch {
  import opened Wrappers
  import opened Json

  datatype Seg = Key(name: string) | Index(i: nat)

  datatype Action = Add(value: Json) | Remove | Replace(value: Json)

  datatype Op = Op(path: seq<Seg>, action: Action)

  // ---------------------------------------------------------------- RFC 6902, section 4

  function ApplyOp(doc: Json, path: seq<Seg>, action: Action): Option<Json>
    decreases |path|
  {
    if path == [] then
      if action.Remove? then None else Some(action.value)
    else
      match (doc, path[0])
      case (Obj(m), Key(k)) =>
        if |path| == 1 && action.Add? then Some(Obj(m[k := action.value]))
        else if k !in m then None
        else if |path| == 1 && action.Remove? then Some(Obj(m - {k}))
        else
          var sub := ApplyOp(m[k], path[1..], action);
          if sub.Some? then Some(Obj(m[k := sub.value])) else None
      case (Arr(a), Index(i)) =>
        if |path| == 1 && action.Add? then
          if i <= |a| then Some(Arr(a[..i] + [action.value] + a[i..])) else None
        else if i >= |a| then None
        else if |path| == 1 && action.Remove? then Some(Arr(a[..i] + a[i + 1..]))
        else
          var sub := ApplyOp(a[i], path[1..], action);
          if sub.Some? then Some(Arr(a[i := sub.value])) else None
      case _ => None
  }

  /** What the three operations do to a member of an object; only an addition may find nothing there. */
  lemma OpOnMember(m: map<string, Json>, k: string, v: Json)
    ensures ApplyOp(Obj(m), [Key(k)], Add(v)) == Some(Obj(m[k := v]))
    ensures ApplyOp(Obj(m), [Key(k)], Replace(v)) == if k in m then Some(Obj(m[k := v])) else None
    ensures ApplyOp(Obj(m), [Key(k)], Remove) == if k in m then Some(Obj(m - {k})) else None
  {
  }

  /** And to an element of an array: an addition moves what follows up, a removal moves it down. */
  lemma OpOnElement(a: seq<Json>, i: nat, v: Json)
    ensures ApplyOp(Arr(a), [Index(i)], Add(v)) == if i <= |a| then Some(Arr(a[..i] + [v] + a[i..])) else None
    ensures ApplyOp(Arr(a), [Index(i)], Replace(v)) == if i < |a| then Some(Arr(a[i := v])) else None
    ensures ApplyOp(Arr(a), [Index(i)], Remove) == if i < |a| then Some(Arr(a[..i] + a[i + 1..])) else None
  {
  }

  /** A longer path leads into the one part it names, which must be there. */
  lemma OpBelowMember(m: map<string, Json>, k: string, path: seq<Seg>, action: Action)
    requires path != []
    ensures ApplyOp(Obj(m), [Key(k)] + path, action)
         == if k in m && ApplyOp(m[k], path, action).Some?
            then Some(Obj(m[k := ApplyOp(m[k], path, action).value])) else None
  {
    assert ([Key(k)] + path)[1..] == path;
  }

  lemma OpBelowElement(a: seq<Json>, i: nat, path: seq<Seg>, action: Action)
    requires path != []
    ensures ApplyOp(Arr(a), [Index(i)] + path, action)
         == if i < |a| && ApplyOp(a[i], path, action).Some?
            then Some(Arr(a[i := ApplyOp(a[i], path, action).value])) else None
  {
    assert ([Index(i)] + path)[1..] == path;
  }

  /** The operations in order; the first that fails makes the whole patch fail. */
  function ApplyPatch(doc: Json, ops: seq<Op>): Option<Json>
    decreases |ops|
  {
    if ops == [] then Some(doc)
    else
      var next := ApplyOp(doc, ops[0].path, ops[0].action);
      if next.Some? then ApplyPatch(next.value, ops[1..]) else None
  }

  lemma {:induction false} ApplyPatchAppend(doc: Json, xs: seq<Op>, ys: seq<Op>)
    requires ApplyPatch(doc, xs).Some?
    ensures ApplyPatch(doc, xs + ys) == ApplyPatch(ApplyPatch(doc, xs).value, ys)
    decreases |xs|
  {
    if xs == [] {
      assert xs + ys == ys;
    } else {
      assert (xs + ys)[1..] == xs[1..] + ys;
      ApplyPatchAppend(ApplyOp(doc, xs[0].path, xs[0].action).value, xs[1..], ys);
    }
  }

  // ---------------------------------------------------------------- patches of a part

  /** The same operations, addressed from one level further up. */
  function Nest(seg: Seg, ops: seq<Op>): seq<Op> {
    if ops == [] then [] else [Op([seg] + ops[0].path, ops[0].action)] + Nest(seg, ops[1..])
  }

  /** The root of the part is only ever replaced, never added to or removed from its parent. */
  ghost predicate RootOnlyReplaced(ops: seq<Op>) {
    forall op :: op in ops && op.path == [] ==> op.action.Replace?
  }

  lemma NestMember(seg: Seg, ops: seq<Op>)
    ensures forall op :: op in Nest(seg, ops) ==> op.path != [] && op.path[0] == seg
  {
  }

  lemma NestNothing(seg: Seg)
    ensures Nest(seg, []) == []
  {
  }

  lemma {:induction false} NestUnderKey(m: map<string, Json>, k: string, ops: seq<Op>)
    requires k in m && RootOnlyReplaced(ops) && ApplyPatch(m[k], ops).Some?
    ensures ApplyPatch(Obj(m), Nest(Key(k), ops)) == Some(Obj(m[k := ApplyPatch(m[k], ops).value]))
    decreases |ops|
  {
    if ops == [] {
      assert m[k := m[k]] == m;
    } else {
      var v := ApplyOp(m[k], ops[0].path, ops[0].action).value;
      assert ([Key(k)] + ops[0].path)[1..] == ops[0].path;
      assert ops[0] in ops;
      assert ApplyOp(Obj(m), [Key(k)] + ops[0].path, ops[0].action) == Some(Obj(m[k := v])) by {
        if ops[0].path == [] {
          assert [Key(k)] + ops[0].path == [Key(k)];
        }
      }
      NestUnderKey(m[k := v], k, ops[1..]);
      assert m[k := v][k := ApplyPatch(v, ops[1..]).value] == m[k := ApplyPatch(m[k], ops).value];
    }
  }

  lemma {:induction false} NestUnderIndex(a: seq<Json>, i: nat, ops: seq<Op>)
    requires i < |a| && RootOnlyReplaced(ops) && ApplyPatch(a[i], ops).Some?
    ensures ApplyPatch(Arr(a), Nest(Index(i), ops)) == Some(Arr(a[i := ApplyPatch(a[i], ops).value]))
    decreases |ops|
  {
    if ops == [] {
      assert a[i := a[i]] == a;
    } else {
      var v := ApplyOp(a[i], ops[0].path, ops[0].action).value;
      assert ([Index(i)] + ops[0].path)[1..] == ops[0].path;
      assert ops[0] in ops;
      assert ApplyOp(Arr(a), [Index(i)] + ops[0].path, ops[0].action) == Some(Arr(a[i := v])) by {
        if ops[0].path == [] {
          assert [Index(i)] + ops[0].path == [Index(i)];
        }
      }
      NestUnderIndex(a[i := v], i, ops[1..]);
      assert a[i := v][i := ApplyPatch(v, ops[1..]).value] == a[i := ApplyPatch(a[i], ops).value];
    }
  }

  // ---------------------------------------------------------------- the differ

  /** Applying what the differ returns, in order, takes the first value to the second. */
  method CreatePatch(a: Json, b: Json) returns (ops: seq<Op>)
    ensures ApplyPatch(a, ops) == Some(b)
    ensures RootOnlyReplaced(ops)
    ensures a == b ==> ops == []
    ensures a.Obj? && b.Obj? ==> OnlyChangedKeys(a.fields, b.fields, ops)
    decreases a, 2
  {
    match (a, b)
    case (Null, Null) => ops := [];
    case (Obj(m), Obj(n)) => ops := DiffObjects(m, n);
    case (Arr(xs), Arr(ys)) => ops := DiffArrays(xs, ys);
    case _ => ops := if a == b then [] else [Op([], Replace(b))];
  }

  /** Every operation lies under a key on which the two objects disagree. */
  ghost predicate OnlyChangedKeys(m: map<string, Json>, n: map<string, Json>, ops: seq<Op>) {
    forall op :: op in ops ==>
      op.path != [] && op.path[0].Key? && Get(m, op.path[0].name) != Get(n, op.path[0].name)
  }

  lemma OnlyChangedKeysAppend(m: map<string, Json>, n: map<string, Json>, ops: seq<Op>, next: seq<Op>, k: string)
    requires OnlyChangedKeys(m, n, ops)
    requires forall op :: op in next ==> op.path != [] && op.path[0] == Key(k)
    requires next != [] ==> Get(m, k) != Get(n, k)
    ensures OnlyChangedKeys(m, n, ops + next)
  {
  }

  /** The object on the way: `done` already as in the target, the rest as in the source. */
  function Halfway(m: map<string, Json>, n: map<string, Json>, done: set<string>): map<string, Json> {
    map k | k in m.Keys + n.Keys && (if k in done then k in n else k in m) :: if k in done then n[k] else m[k]
  }

  lemma HalfwayPut(m: map<string, Json>, n: map<string, Json>, done: set<string>, k: string)
    requires k in n && k !in done
    ensures Halfway(m, n, done + {k}) == Halfway(m, n, done)[k := n[k]]
    ensures Get(Halfway(m, n, done), k) == Get(m, k)
  {
  }

  lemma HalfwayDrop(m: map<string, Json>, n: map<string, Json>, done: set<string>, k: string)
    requires k !in n && k !in done
    ensures Halfway(m, n, done + {k}) == Halfway(m, n, done) - {k}
    ensures Get(Halfway(m, n, done), k) == Get(m, k)
  {
  }

  lemma AddKey(doc: map<string, Json>, k: string, v: Json)
    ensures ApplyPatch(Obj(doc), [Op([Key(k)], Add(v))]) == Some(Obj(doc[k := v]))
  {
    assert ApplyOp(Obj(doc), [Key(k)], Add(v)) == Some(Obj(doc[k := v]));
  }

  lemma RemoveKey(doc: map<string, Json>, k: string)
    requires k in doc
    ensures ApplyPatch(Obj(doc), [Op([Key(k)], Remove)]) == Some(Obj(doc - {k}))
  {
    assert ApplyOp(Obj(doc), [Key(k)], Remove) == Some(Obj(doc - {k}));
  }

  /** One key compared: added, replaced, or patched below. */
  method DiffKey(m: map<string, Json>, n: map<string, Json>, k: string) returns (next: seq<Op>)
    requires k in n
    ensures forall doc :: Get(doc, k) == Get(m, k) ==> ApplyPatch(Obj(doc), next) == Some(Obj(doc[k := n[k]]))
    ensures forall op :: op in next ==> op.path != [] && op.path[0] == Key(k)
    ensures next != [] ==> Get(m, k) != Get(n, k)
    decreases Obj(m), 0
  {
    hide ApplyOp, ApplyPatch, Nest;
    if k !in m {
      next := [Op([Key(k)], Add(n[k]))];
      forall doc: map<string, Json> {
        AddKey(doc, k, n[k]);
      }
    } else {
      var sub := CreatePatch(m[k], n[k]);
      next := Nest(Key(k), sub);
      NestMember(Key(k), sub);
      NestNothing(Key(k));
      forall doc | Get(doc, k) == Get(m, k)
        ensures ApplyPatch(Obj(doc), next) == Some(Obj(doc[k := n[k]]))
      {
        NestUnderKey(doc, k, sub);
      }
    }
  }

  /** What one more group of operations, under one key, adds to the patch. */
  lemma DiffGrows(m: map<string, Json>, n: map<string, Json>, ops: seq<Op>, next: seq<Op>, k: string,
                  doc: map<string, Json>, doc': map<string, Json>)
    requires ApplyPatch(Obj(m), ops) == Some(Obj(doc)) && OnlyChangedKeys(m, n, ops)
    requires ApplyPatch(Obj(doc), next) == Some(Obj(doc'))
    requires forall op :: op in next ==> op.path != [] && op.path[0] == Key(k)
    requires next != [] ==> Get(m, k) != Get(n, k)
    ensures ApplyPatch(Obj(m), ops + next) == Some(Obj(doc')) && OnlyChangedKeys(m, n, ops + next)
  {
    hide ApplyPatch;
    ApplyPatchAppend(Obj(m), ops, next);
    OnlyChangedKeysAppend(m, n, ops, next, k);
  }

  /** Starts at the source, and ends at the target once all keys are done. */
  lemma HalfwayEnds(m: map<string, Json>, n: map<string, Json>)
    ensures Halfway(m, n, {}) == m
    ensures Halfway(m, n, m.Keys + n.Keys) == n
  {
  }

  lemma NoOps(m: map<string, Json>, n: map<string, Json>)
    ensures ApplyPatch(Obj(m), []) == Some(Obj(m)) && OnlyChangedKeys(m, n, [])
  {
  }

  method DiffObjects(m: map<string, Json>, n: map<string, Json>) returns (ops: seq<Op>)
    ensures ApplyPatch(Obj(m), ops) == Some(Obj(n))
    ensures OnlyChangedKeys(m, n, ops)
    decreases Obj(m), 1
  {
    hide ApplyOp, ApplyPatch, OnlyChangedKeys, Halfway;
    HalfwayEnds(m, n);
    NoOps(m, n);
    ops := [];
    var todo := n.Keys;
    ghost var done: set<string> := {};
    while todo != {}
      invariant todo !! done && todo + done == n.Keys
      invariant ApplyPatch(Obj(m), ops) == Some(Obj(Halfway(m, n, done)))
      invariant OnlyChangedKeys(m, n, ops)
    {
      var k :| k in todo;
      HalfwayPut(m, n, done, k);
      var next := DiffKey(m, n, k);
      DiffGrows(m, n, ops, next, k, Halfway(m, n, done), Halfway(m, n, done + {k}));
      ops := ops + next;
      todo, done := todo - {k}, done + {k};
    }
    todo := m.Keys;
    while todo != {}
      invariant todo <= m.Keys && done == n.Keys + (m.Keys - todo)
      invariant ApplyPatch(Obj(m), ops) == Some(Obj(Halfway(m, n, done)))
      invariant OnlyChangedKeys(m, n, ops)
    {
      var k :| k in todo;
      if k !in n {
        var next := [Op([Key(k)], Remove)];
        HalfwayDrop(m, n, done, k);
        RemoveKey(Halfway(m, n, done), k);
        DiffGrows(m, n, ops, next, k, Halfway(m, n, done), Halfway(m, n, done + {k}));
        ops := ops + next;
      }
      assert k in n ==> done + {k} == done;
      todo, done := todo - {k}, done + {k};
    }
    assert done == m.Keys + n.Keys;
  }

  lemma RemoveLast(xs: seq<Json>)
    requires xs != []
    ensures ApplyPatch(Arr(xs), [Op([Index(|xs| - 1)], Remove)]) == Some(Arr(xs[..|xs| - 1]))
  {
    var i := |xs| - 1;
    assert ApplyOp(Arr(xs), [Index(i)], Remove) == Some(Arr(xs[..i] + xs[i + 1..]));
    assert xs[..i] + xs[i + 1..] == xs[..i];
  }

  lemma AppendOne(xs: seq<Json>, v: Json)
    ensures ApplyPatch(Arr(xs), [Op([Index(|xs|)], Add(v))]) == Some(Arr(xs + [v]))
  {
    assert ApplyOp(Arr(xs), [Index(|xs|)], Add(v)) == Some(Arr(xs[..|xs|] + [v] + xs[|xs|..]));
    assert xs[..|xs|] + [v] + xs[|xs|..] == xs + [v];
  }

  /** No operation addresses the value itself. */
  predicate AllBelow(ops: seq<Op>) {
    forall op :: op in ops ==> op.path != []
  }

  /** What a further group of operations adds to the patch. */
  lemma PatchGrows(xs: seq<Json>, ops: seq<Op>, next: seq<Op>, doc: seq<Json>, doc': seq<Json>)
    requires ApplyPatch(Arr(xs), ops) == Some(Arr(doc)) && AllBelow(ops)
    requires ApplyPatch(Arr(doc), next) == Some(Arr(doc')) && AllBelow(next)
    ensures ApplyPatch(Arr(xs), ops + next) == Some(Arr(doc')) && AllBelow(ops + next)
  {
    hide ApplyPatch;
    ApplyPatchAppend(Arr(xs), ops, next);
  }

  /** The array on the way: the common part compared up to `i`, the missing elements appended up to `j`. */
  function Between(xs: seq<Json>, ys: seq<Json>, n: nat, i: nat, j: nat): seq<Json>
    requires i <= n <= |xs| && n <= j <= |ys|
  {
    ys[..i] + xs[i..n] + ys[n..j]
  }

  lemma BetweenGrows(xs: seq<Json>, ys: seq<Json>, n: nat, j: nat)
    requires n <= |xs| && n <= j <= |ys|
    ensures Between(xs, ys, n, 0, n) == xs[..n]
    ensures |Between(xs, ys, n, 0, j)| == j
    ensures j < |ys| ==> Between(xs, ys, n, 0, j) + [ys[j]] == Between(xs, ys, n, 0, j + 1)
  {
  }

  lemma BetweenChanges(xs: seq<Json>, ys: seq<Json>, n: nat, i: nat)
    requires i <= n <= |xs| && n <= |ys|
    ensures var doc := Between(xs, ys, n, i, |ys|);
      && |doc| == |ys|
      && (i < n ==> doc[i] == xs[i] && doc[i := ys[i]] == Between(xs, ys, n, i + 1, |ys|))
      && (i == n ==> doc == ys)
  {
  }

  /** Surplus elements go from the end. */
  method DropSurplus(xs: seq<Json>, n: nat) returns (ops: seq<Op>)
    requires n <= |xs|
    ensures ApplyPatch(Arr(xs), ops) == Some(Arr(xs[..n])) && AllBelow(ops)
    ensures n == |xs| ==> ops == []
  {
    assert ApplyPatch(Arr(xs), []) == Some(Arr(xs));
    hide ApplyOp, ApplyPatch;
    ops := [];
    var i := |xs|;
    assert xs[..i] == xs;
    while i > n
      invariant n <= i <= |xs|
      invariant ApplyPatch(Arr(xs), ops) == Some(Arr(xs[..i])) && AllBelow(ops)
      invariant i == |xs| ==> ops == []
    {
      i := i - 1;
      var next := [Op([Index(i)], Remove)];
      RemoveLast(xs[..i + 1]);
      assert xs[..i + 1][..i] == xs[..i];
      PatchGrows(xs, ops, next, xs[..i + 1], xs[..i]);
      ops := ops + next;
    }
  }

  /** Missing elements are appended. */
  method AppendMissing(xs: seq<Json>, ys: seq<Json>, n: nat) returns (ops: seq<Op>)
    requires n <= |xs| && n <= |ys|
    ensures ApplyPatch(Arr(xs[..n]), ops) == Some(Arr(Between(xs, ys, n, 0, |ys|))) && AllBelow(ops)
    ensures n == |ys| ==> ops == []
  {
    assert ApplyPatch(Arr(xs[..n]), []) == Some(Arr(xs[..n]));
    hide ApplyOp, ApplyPatch, Between;
    BetweenGrows(xs, ys, n, n);
    ops := [];
    var i := n;
    while i < |ys|
      invariant n <= i <= |ys|
      invariant ApplyPatch(Arr(xs[..n]), ops) == Some(Arr(Between(xs, ys, n, 0, i))) && AllBelow(ops)
      invariant n == |ys| ==> ops == []
    {
      var next := [Op([Index(i)], Add(ys[i]))];
      BetweenGrows(xs, ys, n, i);
      AppendOne(Between(xs, ys, n, 0, i), ys[i]);
      PatchGrows(xs[..n], ops, next, Between(xs, ys, n, 0, i), Between(xs, ys, n, 0, i + 1));
      ops := ops + next;
      i := i + 1;
    }
  }

  /** The rest is compared in place. */
  method CompareInPlace(xs: seq<Json>, ys: seq<Json>, n: nat) returns (ops: seq<Op>)
    requires n <= |xs| && n <= |ys|
    ensures ApplyPatch(Arr(Between(xs, ys, n, 0, |ys|)), ops) == Some(Arr(ys)) && AllBelow(ops)
    ensures xs == ys ==> ops == []
    decreases Arr(xs), 0
  {
    ghost var start := Between(xs, ys, n, 0, |ys|);
    assert ApplyPatch(Arr(start), []) == Some(Arr(start));
    hide ApplyOp, ApplyPatch, Nest, Between;
    ops := [];
    for i := 0 to n
      invariant ApplyPatch(Arr(start), ops) == Some(Arr(Between(xs, ys, n, i, |ys|))) && AllBelow(ops)
      invariant xs == ys ==> ops == []
    {
      var sub := CreatePatch(xs[i], ys[i]);
      var next := Nest(Index(i), sub);
      BetweenChanges(xs, ys, n, i);
      NestMember(Index(i), sub);
      NestNothing(Index(i));
      NestUnderIndex(Between(xs, ys, n, i, |ys|), i, sub);
      PatchGrows(start, ops, next, Between(xs, ys, n, i, |ys|), Between(xs, ys, n, i + 1, |ys|));
      ops := ops + next;
    }
    BetweenChanges(xs, ys, n, n);
  }

  method DiffArrays(xs: seq<Json>, ys: seq<Json>) returns (ops: seq<Op>)
    ensures ApplyPatch(Arr(xs), ops) == Some(Arr(ys))
    ensures AllBelow(ops)
    ensures xs == ys ==> ops == []
    decreases Arr(xs), 1
  {
    hide ApplyPatch, Between;
    var n := if |xs| < |ys| then |xs| else |ys|;
    var surplus := DropSurplus(xs, n);
    var missing := AppendMissing(xs, ys, n);
    var changes := CompareInPlace(xs, ys, n);
    PatchGrows(xs, surplus, missing, xs[..n], Between(xs, ys, n, 0, |ys|));
    PatchGrows(xs, surplus + missing, changes, Between(xs, ys, n, 0, |ys|), ys);
    ops := surplus + missing + changes;
  }
}
