/**
 What a push contains and how calls answer, in every run.
 */
module Pushes {
  import opened Wrappers
  import opened Json
  import opened ConfigTree
  import opened PatchList
  import opened Bootstrap
  import opened Engine
  import opened ExactlyOnce
  import opened IntentKept
  import opened Justified
  import opened Outcomes

  // ---------------------------------------------------------------- identity of the node

  /** Exactly the template change is made, and the node keeps everything else. */
  lemma DiffListKeepsIdentity(live: Document, cur: Document, des: Document)
    ensures Apply(live, DiffList(cur, des)).Some?
    ensures KeepsIdentity(live, cur, des, Apply(live, DiffList(cur, des)).value)
    ensures forall result :: KeepsIdentity(live, cur, des, result) ==> Apply(live, DiffList(cur, des)) == Some(result)
  {
    hide KeepsIdentity, Apply, DiffList;
    DiffListOnLive(live, cur, des);
    KeepsIdentityExactlyWhen(live, cur, des, Apply(live, DiffList(cur, des)).value);
    forall result | KeepsIdentity(live, cur, des, result) ensures Apply(live, DiffList(cur, des)) == Some(result) {
      KeepsIdentityExactlyWhen(live, cur, des, result);
    }
  }

  /** Whenever a recorded or recovered change is pushed, the node keeps its identity. */
  lemma PushKeepsIdentity(cx: Context, m: Machine, c: Call, cur: Document, des: Document)
    requires FindPatches(cx, m, c) == Some(DiffList(cur, des))
    requires UpdateMachine(cx, m, c).attempt.Some?
    ensures KeepsIdentity(m.live, cur, des, UpdateMachine(cx, m, c).attempt.value.config)
  {
    CallEffect(cx, m, c);
    hide UpdateMachine, FindPatches, KeepsIdentity;
    DiffListKeepsIdentity(m.live, cur, des);
  }

  /**
   A whole update, from the recorded intent to the done answer: the node's configuration is
   then its own, with exactly the template change made.
   */
  lemma UpdateKeepsIdentity(cx: Context, m: Machine, inputs: seq<Input>, current: string, desired: string, j: nat,
                            cur: Document, des: Document)
    requires OnRecord(cx, m, current, desired) && OnlyThisChange(cx, m, current, desired)
    requires SameChange(inputs, current, desired) && CacheReadsSucceed(inputs) && OneStyle(cx, current, desired)
    requires j < |inputs| && IsDone(History(cx, m, inputs)[j])
    requires ParsedConfig(cx.codec, current) == Some(cur) && ParsedConfig(cx.codec, desired) == Some(des)
    ensures KeepsIdentity(m.live, cur, des, Run(cx, m, inputs).live)
  {
    DoneMeansPatched(cx, m, inputs, current, desired, j);
    assert Intended(cx, current, desired) == DiffList(cur, des);
    hide KeepsIdentity, Run, History, OnRecord, OneStyle;
    DiffListKeepsIdentity(m.live, cur, des);
  }

  // ---------------------------------------------------------------- after a success

  /** After a successful push whose cleanup worked, nothing of the change is remembered. */
  lemma {:induction false} SuccessForgetsChange(cx: Context, m: Machine, inputs: seq<Input>, i: nat)
    requires cx.hasStore && i < |inputs| && IsSuccessfulApply(History(cx, m, inputs)[i])
    requires inputs[i].Update? ==> inputs[i].call.cleanupRead && inputs[i].call.cleanupWrite != Refused
    requires forall k :: i < k < |inputs| ==> !inputs[k].CanUpdate?
    ensures Run(cx, m, inputs).patches.None? && Run(cx, m, inputs).entry.None?
    decreases |inputs|
  {
    var n := |inputs| - 1;
    HistorySnoc(cx, m, inputs);
    var before := Run(cx, m, inputs[..n]);
    if i < n {
      SuccessForgetsChange(cx, m, inputs[..n], i);
    }
    if inputs[n].Update? {
      CallEffect(cx, before, inputs[n].call);
    }
    hide UpdateMachine, PlanFor;
  }

  // ---------------------------------------------------------------- path C

  /** Neither memory nor the cache has anything for the call. */
  ghost predicate OnlyTemplates(cx: Context, m: Machine, c: Call) {
    m.patches.None? && forall ps :: !Recovered(cx, m, c, ps)
  }

  /** An outcome of the strategic patches is a push of all of them or a failure that leaves the machine alone. */
  lemma TemplateIsAllOrNothing(cx: Context, m: Machine, c: Call, items: seq<Json>, at: seq<nat>, r: CallResult)
    returns (ps: seq<Patch>)
    requires m.patches.None? && TemplateCarried(cx, m, c, items, at, r)
    ensures TextPositions(items, at)
    ensures r.attempt.Some? <==>
      LoadedInOrder(cx.codec, items, at, ps) && ps != [] && Applicable(cx, m.live, ps)
    ensures r.attempt.Some? ==> Apply(m.live, ps) == Some(r.attempt.value.config)
    ensures r.attempt.None? && at != [] ==> r.reply.status == Failure && r.machine == m
  {
    hide Apply;
    if exists i :: FirstUnloadable(cx.codec, items, at, i) {
      var i :| FirstUnloadable(cx.codec, items, at, i);
      assert forall qs :: !LoadedInOrder(cx.codec, items, at, qs);
      return [];
    }
    var n := LoadableCount(cx.codec, items, at, |at|);
    assert n == |at|;
    ps := seq(|at|, i requires 0 <= i < |at| => cx.codec.loadPatch(items[at[i]].s).value);
    assert LoadedInOrder(cx.codec, items, at, ps);
  }

  /** How many string elements from the start are patches, up to `n`; the next one, if any, is not. */
  lemma {:induction false} LoadableCount(codec: Codec, items: seq<Json>, at: seq<nat>, n: nat) returns (k: nat)
    requires TextPositions(items, at) && n <= |at|
    ensures k <= n && forall j :: 0 <= j < k ==> Loads(codec, items[at[j]])
    ensures k < n ==> FirstUnloadable(codec, items, at, k)
  {
    k := 0;
    if n > 0 {
      k := LoadableCount(codec, items, at, n - 1);
      if k == n - 1 && Loads(codec, items[at[k]]) {
        k := n;
      }
    }
  }

  /**
   With no patches in memory or to recover, a configuration is pushed exactly when every
   string element of `strategicPatches` loads, there is one, and they apply in order to a
   configuration that can be written out; that is what is pushed. Otherwise nothing is, and
   unless there was no string element the call fails and leaves the machine as it was.
   */
  lemma PathCIsAllOrNothing(cx: Context, m: Machine, c: Call, items: seq<Json>) returns (at: seq<nat>, ps: seq<Patch>)
    requires Proceeds(m, c) && c.nodeRead && OnlyTemplates(cx, m, c) && ItemsAre(cx.codec, c.desired, items)
    ensures TextPositions(items, at)
    ensures var r := UpdateMachine(cx, m, c);
      && (r.attempt.Some? <==> LoadedInOrder(cx.codec, items, at, ps) && ps != [] && Applicable(cx, m.live, ps))
      && (r.attempt.Some? ==> Apply(m.live, ps) == Some(r.attempt.value.config))
      && (r.attempt.None? && at != [] ==> r.reply.status == Failure && r.machine == m)
  {
    hide UpdateMachine, TemplateCarried, Proceeds, Apply, Applicable, Recovered, LoadedInOrder;
    StrategicPatchesDecide(cx, m, c);
    at :| TemplateCarried(cx, m, c, items, at, UpdateMachine(cx, m, c));
    ps := TemplateIsAllOrNothing(cx, m, c, items, at, UpdateMachine(cx, m, c));
  }

  /** A push without other patches is one of strategic patches. */
  lemma TemplatePushHasItems(cx: Context, m: Machine, c: Call) returns (items: seq<Json>)
    requires Proceeds(m, c) && c.nodeRead && OnlyTemplates(cx, m, c) && UpdateMachine(cx, m, c).attempt.Some?
    ensures ItemsAre(cx.codec, c.desired, items)
  {
    StrategicPatchesDecide(cx, m, c);
    hide UpdateMachine, Recovered, TemplateCarried;
    var spec: map<string, Json> :| SpecIs(cx.codec, c.desired, spec);
    items := spec["strategicPatches"].items;
  }

  // ---------------------------------------------------------------- all three paths

  /** A call that attempts a push found an address, an unfinished record and a readable node. */
  lemma AttemptProceeds(cx: Context, m: Machine, c: Call)
    requires UpdateMachine(cx, m, c).attempt.Some?
    ensures Proceeds(m, c) && c.nodeRead
  {
    hide PlanFor, FindPatches, Send;
  }

  /**
   Every push of every run was asked for. What is pushed is the configuration the node has
   at that moment, changed by the first of these that there is: the patches in memory,
   which are the difference between a recorded current and a requested desired
   configuration; the difference between the cache entry, which was recorded, and the
   desired configuration of the call; the strategic patches of the desired object.
   */
  lemma EveryPushWasAskedFor(cx: Context, m: Machine, inputs: seq<Input>, k: nat)
    returns (items: seq<Json>, at: seq<nat>, ps: seq<Patch>)
    requires m.patches.None? && m.entry.None?
    requires k < |inputs| && IsAttempt(History(cx, m, inputs)[k])
    ensures inputs[k].Update?
    ensures var now, c := Run(cx, m, inputs[..k]), inputs[k].call;
      && Apply(now.live, ps) == Some(History(cx, m, inputs)[k].attempt.value.config)
      && if now.patches.Some? then
           now.patches == Some(ps) && exists cur, des :: DerivedFrom(cx, inputs[..k], cur, des, now.patches)
         else if !OnlyTemplates(cx, now, c) then
           CurrentSeen(inputs[..k], now.entry.value) && Recovered(cx, now, c, ps)
         else ItemsAre(cx.codec, c.desired, items) && LoadedInOrder(cx.codec, items, at, ps)
  {
    HistoryAt(cx, m, inputs, k);
    var now, c := Run(cx, m, inputs[..k]), inputs[k].call;
    PatchesComeFromRequests(cx, m, inputs[..k]);
    AttemptProceeds(cx, now, c);
    hide UpdateMachine, Run, Apply, LoadedInOrder, ItemsAre, DerivedFrom, Proceeds;
    items, at, ps := [], [], [];
    if now.patches.Some? {
      ps := now.patches.value;
      PatchesInMemoryDecide(cx, now, c);
    } else if !OnlyTemplates(cx, now, c) {
      ps :| Recovered(cx, now, c, ps);
      RecoveredPatchesDecide(cx, now, c, ps);
    } else {
      hide OnlyTemplates;
      items := TemplatePushHasItems(cx, now, c);
      at, ps := PathCIsAllOrNothing(cx, now, c, items);
    }
  }

  // ---------------------------------------------------------------- answers

  /** A call that attempts a push answers success with a retry; a failure changes nothing but on timeout. */
  predicate Disciplined(before: Machine, c: Call, reply: Reply, attempt: Option<Attempt>, after: Machine) {
    && (attempt.Some? ==>
          && reply.status == Success && reply.retryAfter == 15
          && (attempt.value.mode == NoReboot <==> "cluster.x-k8s.io/control-plane" in c.labels))
    && (reply.status == Failure ==> attempt.None? && after.live == before.live && after.entry == before.entry)
    && (reply.status == Failure && reply.message != TimedOut ==> after.state == before.state)
    && (reply.message == TimedOut ==> reply.status == Failure && after.state.None? && after.patches.None?)
    && (reply.status == Success ==> after.state.Some? || (reply.message == Complete && reply.retryAfter == 0))
    && reply.status != Unset
  }

  lemma CallIsDisciplined(cx: Context, m: Machine, c: Call)
    ensures var r := UpdateMachine(cx, m, c); Disciplined(m, c, r.reply, r.attempt, r.machine)
  {
    hide Apply, Recover, StrategicPatches, LoadAll, Cleaned;
  }

  /**
   Every call of every run answers success with a retry when it attempts a push, in the
   mode its labels ask for; a failure leaves the update record and the node alone, except
   the timeout, which forgets both the record and the patches.
   */
  lemma ResponseDiscipline(cx: Context, m: Machine, inputs: seq<Input>, k: nat)
    requires k < |inputs| && inputs[k].Update?
    ensures var e := History(cx, m, inputs)[k];
      e.Called? && e.call == inputs[k].call
      && Disciplined(Run(cx, m, inputs[..k]), e.call, e.reply, e.attempt, Run(cx, m, inputs[..k + 1]))
  {
    HistoryAt(cx, m, inputs, k);
    assert inputs[..k + 1][..k] == inputs[..k];
    CallIsDisciplined(cx, Run(cx, m, inputs[..k]), inputs[k].call);
    hide UpdateMachine, Disciplined;
  }
}
