/**
 A recorded change is not forgotten: when UpdateMachine reports that it is done, the
 configuration really was sent to the node and the node accepted it.
 */
module IntentKept {
  import opened Wrappers
  import opened ConfigTree
  import opened PatchList
  import opened Bootstrap
  import opened Engine
  import opened ExactlyOnce

  predicate IsSuccessfulApply(e: Event) {
    e.Called? && e.attempt.Some? && e.attempt.value.outcome == Written
  }

  predicate IsDone(e: Event) {
    e.Called? && e.reply.status == Success && e.reply.retryAfter == 0
  }

  ghost predicate AnyApplied(es: seq<Event>) {
    exists j :: 0 <= j < |es| && IsSuccessfulApply(es[j])
  }

  /** Every done answer comes after a successful apply. */
  ghost predicate DoneAfterApply(es: seq<Event>) {
    forall j :: 0 <= j < |es| && IsDone(es[j]) ==> AnyApplied(es[..j])
  }

  lemma HistorySnoc(cx: Context, m: Machine, inputs: seq<Input>)
    requires inputs != []
    ensures var n := |inputs| - 1;
      History(cx, m, inputs) == History(cx, m, inputs[..n]) + [EventOf(cx, Run(cx, m, inputs[..n]), inputs[n])]
  {
  }

  lemma AnyAppliedSnoc(es: seq<Event>, e: Event)
    ensures AnyApplied(es + [e]) <==> AnyApplied(es) || IsSuccessfulApply(e)
  {
    if AnyApplied(es) {
      var j :| 0 <= j < |es| && IsSuccessfulApply(es[j]);
      assert (es + [e])[j] == es[j];
    }
    if IsSuccessfulApply(e) {
      assert (es + [e])[|es|] == e;
    }
    if AnyApplied(es + [e]) {
      var j :| 0 <= j < |es| + 1 && IsSuccessfulApply((es + [e])[j]);
      assert j < |es| ==> es[j] == (es + [e])[j];
    }
  }

  /**
   Whatever is asked and whatever fails, a machine's cache entry is there until a push for
   that machine succeeds; only a new recording can change what it says.
   */
  lemma {:induction false} EntryOutlivesFailures(cx: Context, m: Machine, inputs: seq<Input>)
    requires m.entry.Some? && !AnyApplied(History(cx, m, inputs))
    ensures var entry := Run(cx, m, inputs).entry;
      entry.Some? && (entry == m.entry || exists i :: i in inputs && i.CanUpdate? && entry == Some(i.intent.current))
    decreases |inputs|
  {
    if inputs != [] {
      var n := |inputs| - 1;
      var before, i := Run(cx, m, inputs[..n]), inputs[n];
      HistorySnoc(cx, m, inputs);
      AnyAppliedSnoc(History(cx, m, inputs[..n]), EventOf(cx, before, i));
      EntryOutlivesFailures(cx, m, inputs[..n]);
      assert i in inputs && forall x :: x in inputs[..n] ==> x in inputs;
      if i.Update? {
        CallEffect(cx, before, i.call);
      }
      hide UpdateMachine, Derive, AnyApplied;
    }
  }

  predicate CacheReadsSucceed(inputs: seq<Input>) {
    forall i :: i in inputs && i.Update? ==> i.call.cacheRead
  }

  /**
   The change is on record, and no earlier push of the machine still counts as applied;
   RecordedIntentKeptExactlyWhen shows that the last condition cannot be dropped.
   */
  predicate OnRecord(cx: Context, m: Machine, cur: string, des: string) {
    && cx.hasStore
    && Derive(cx.codec, cur, des).Some?
    && m.entry == Some(cur)
    && !CountsAsApplied(m)
  }

  lemma OnRecordStep(cx: Context, m: Machine, i: Input, cur: string, des: string)
    requires OnRecord(cx, m, cur, des)
    requires SameChange([i], cur, des) && CacheReadsSucceed([i])
    ensures !IsSuccessfulApply(EventOf(cx, m, i)) ==> OnRecord(cx, Step(cx, m, i), cur, des)
    ensures !IsDone(EventOf(cx, m, i))
  {
    assert i in [i];
    if i.Update? {
      assert FindPatches(cx, m, i.call).Some?;
      assert !PlanFor(cx, m, i.call).Nothing?;
      CallEffect(cx, m, i.call);
      CallMovesState(cx, m, i.call);
      hide UpdateMachine;
      hide FindPatches;
      hide PlanFor;
    }
  }

  /** Looking back over one more event: what held of the earlier ones still does. */
  lemma DoneAfterApplySnoc(es: seq<Event>, e: Event)
    requires DoneAfterApply(es)
    requires IsDone(e) ==> AnyApplied(es)
    ensures DoneAfterApply(es + [e])
  {
    forall j | 0 <= j < |es + [e]| && IsDone((es + [e])[j])
      ensures AnyApplied((es + [e])[..j])
    {
      assert (es + [e])[..j] == es[..j];
      if j == |es| {
        assert es[..j] == es;
      }
    }
  }

  /**
   When no earlier push still counts as applied, and while no configuration has been
   accepted, the record stays; so a done answer is preceded by a successful apply. Any
   number of restarts, timeouts and failed attempts may come in between; in-memory patches
   may be absent or belong to anything.
   */
  lemma {:induction false} IntentIsNeverLost(cx: Context, m: Machine, inputs: seq<Input>, cur: string, des: string)
    requires OnRecord(cx, m, cur, des)
    requires SameChange(inputs, cur, des) && CacheReadsSucceed(inputs)
    ensures !AnyApplied(History(cx, m, inputs)) ==> OnRecord(cx, Run(cx, m, inputs), cur, des)
    ensures DoneAfterApply(History(cx, m, inputs))
    decreases |inputs|
  {
    if inputs != [] {
      var n := |inputs| - 1;
      IntentIsNeverLost(cx, m, inputs[..n], cur, des);
      HistorySnoc(cx, m, inputs);
      var es, before := History(cx, m, inputs[..n]), Run(cx, m, inputs[..n]);
      AnyAppliedSnoc(es, EventOf(cx, before, inputs[n]));
      assert inputs[n] in inputs;
      if !AnyApplied(es) {
        OnRecordStep(cx, before, inputs[n], cur, des);
      }
      DoneAfterApplySnoc(es, EventOf(cx, before, inputs[n]));
      hide Step;
      hide EventOf;
      hide OnRecord;
    }
  }

  // ---------------------------------------------------------------- recording while an earlier push settles

  /**
   A change recorded while the record of an earlier push still settles: memory and cache
   hold the new change, yet the next call after the settling time answers done, sends
   nothing, leaves the node alone and drops the new patches from memory.
   */
  lemma SecondChangeReportedDone(cx: Context, m: Machine, cur: string, des: string, c: Call)
    requires CountsAsApplied(m) && cx.hasStore && Derive(cx.codec, cur, des).Some?
    requires c.address != ""
    requires 30_000_000_000 < c.start - m.state.value.startedAt <= 300_000_000_000
    ensures var recorded := StoreDiff(cx, m, Intent(cur, des, true, Written));
      var e, after := EventOf(cx, recorded, Update(c)), Step(cx, recorded, Update(c));
      && recorded.patches == Derive(cx.codec, cur, des) && recorded.entry == Some(cur)
      && IsDone(e) && e.attempt.None?
      && after.live == m.live && after.patches.None? && after.entry == Some(cur)
  {
    hide TryToApply;
  }

  /** In every run about the recorded change whose cache reads succeed, done comes after a successful apply. */
  ghost predicate IntentIsKept(cx: Context, m: Machine, cur: string, des: string) {
    forall inputs: seq<Input> :: SameChange(inputs, cur, des) && CacheReadsSucceed(inputs) ==>
      DoneAfterApply(History(cx, m, inputs))
  }

  /** A call just after the settling time, with nothing failing. */
  function SettledCall(m: Machine, des: string): Call
    requires CountsAsApplied(m)
  {
    var at := m.state.value.startedAt + SETTLE_TIME + 1;
    Call("10.0.0.1", map[], des, at, at, true, true, Written, true, Written)
  }

  /**
   The exact condition under which a recorded change is kept: it is if and only if no
   earlier push of the machine still counts as applied when the run begins.
   */
  lemma RecordedIntentKeptExactlyWhen(cx: Context, m: Machine, cur: string, des: string)
    requires cx.hasStore && Derive(cx.codec, cur, des).Some? && m.entry == Some(cur)
    ensures IntentIsKept(cx, m, cur, des) <==> !CountsAsApplied(m)
  {
    if CountsAsApplied(m) {
      var call := Update(SettledCall(m, des));
      assert IsDone(EventOf(cx, m, call));
      RunThrough(cx, m, [call], [m, Step(cx, m, call)]);
      assert SameChange([call], cur, des) && CacheReadsSucceed([call]);
      assert IsDone(History(cx, m, [call])[0]) && !AnyApplied(History(cx, m, [call])[..0]);
    } else {
      forall inputs: seq<Input> | SameChange(inputs, cur, des) && CacheReadsSucceed(inputs)
        ensures DoneAfterApply(History(cx, m, inputs))
      {
        IntentIsNeverLost(cx, m, inputs, cur, des);
      }
    }
  }

  // ---------------------------------------------------------------- without any assumption on failures

  predicate DesiredIs(inputs: seq<Input>, des: string) {
    forall i :: i in inputs && i.Update? ==> i.call.desired == des
  }

  /** In every run, with whatever failures, a done answer comes after a successful apply. */
  ghost predicate NoSilentDone(cx: Context, m: Machine, des: string) {
    forall inputs: seq<Input> :: DesiredIs(inputs, des) ==>
      DoneAfterApply(History(cx, m, inputs))
  }

  lemma SomethingToSendStep(cx: Context, m: Machine, i: Input, des: string)
    requires !CountsAsApplied(m) && DesiredIs([i], des)
    requires StrategicPatches(cx.codec, des) != Ok([])
    ensures !IsSuccessfulApply(EventOf(cx, m, i)) ==> !CountsAsApplied(Step(cx, m, i))
    ensures !IsDone(EventOf(cx, m, i))
  {
    assert i in [i];
    if i.Update? {
      assert !PlanFor(cx, m, i.call).Nothing?;
      CallMovesState(cx, m, i.call);
      hide UpdateMachine;
      hide PlanFor;
    }
  }

  lemma {:induction false} DoneNeedsApplyUnlessNothing(cx: Context, m: Machine, inputs: seq<Input>, des: string)
    requires m.state.None? && DesiredIs(inputs, des)
    requires StrategicPatches(cx.codec, des) != Ok([])
    ensures !AnyApplied(History(cx, m, inputs)) ==> !CountsAsApplied(Run(cx, m, inputs))
    ensures DoneAfterApply(History(cx, m, inputs))
    decreases |inputs|
  {
    if inputs != [] {
      var n := |inputs| - 1;
      DoneNeedsApplyUnlessNothing(cx, m, inputs[..n], des);
      HistorySnoc(cx, m, inputs);
      var es, before := History(cx, m, inputs[..n]), Run(cx, m, inputs[..n]);
      AnyAppliedSnoc(es, EventOf(cx, before, inputs[n]));
      assert inputs[n] in inputs;
      if !AnyApplied(es) {
        SomethingToSendStep(cx, before, inputs[n], des);
      }
      DoneAfterApplySnoc(es, EventOf(cx, before, inputs[n]));
      hide Step;
      hide EventOf;
      hide AnyApplied;
    }
  }

  function FailedCacheCall(des: string, at: int): Call {
    Call("10.0.0.1", map[], des, at, at, true, false, Refused, false, Refused)
  }

  /** A restart, one failed cache read and a wait are enough to report done with nothing sent. */
  lemma SilentDone(cx: Context, m: Machine, des: string)
    requires m.state.None? && StrategicPatches(cx.codec, des) == Ok([])
    ensures !NoSilentDone(cx, m, des)
  {
    var first, second := Update(FailedCacheCall(des, 0)), Update(FailedCacheCall(des, SETTLE_TIME + 1));
    var bare := Forget(m);
    var settling := bare.(state := Some(UpdateState(0, true)));
    assert Step(cx, bare, first) == settling && !IsSuccessfulApply(EventOf(cx, bare, first));
    assert IsDone(EventOf(cx, settling, second));
    assert Step(cx, m, Restart) == bare && !IsSuccessfulApply(EventOf(cx, m, Restart));
    hide Step, EventOf, IsSuccessfulApply, IsDone;
    var inputs := [Restart, first, second];
    RunThrough(cx, m, inputs, [m, bare, settling, Step(cx, settling, second)]);
    assert !AnyApplied(History(cx, m, inputs)[..2]);
    assert DesiredIs(inputs, des);
  }

  /**
   The exact condition under which done always means applied, whatever fails: it does if
   and only if the desired object's strategic patches are not a readable empty list.
   */
  lemma DoneMeansAppliedExactlyWhen(cx: Context, m: Machine, des: string)
    requires m.state.None?
    ensures NoSilentDone(cx, m, des) <==> StrategicPatches(cx.codec, des) != Ok([])
  {
    if StrategicPatches(cx.codec, des) == Ok([]) {
      SilentDone(cx, m, des);
    } else {
      forall inputs: seq<Input> | DesiredIs(inputs, des)
        ensures DoneAfterApply(History(cx, m, inputs))
      {
        DoneNeedsApplyUnlessNothing(cx, m, inputs, des);
      }
    }
  }

  // ---------------------------------------------------------------- end to end

  /** A successful apply leaves the change on the node. */
  lemma SuccessLeavesPatched(cx: Context, m: Machine, i: Input, cur: string, des: string, before: Document)
    requires SameChange([i], cur, des) && OneStyle(cx, cur, des)
    requires OnlyThisChange(cx, m, cur, des)
    requires OriginalOrPatched(m.live, before, Intended(cx, cur, des))
    requires IsSuccessfulApply(EventOf(cx, m, i))
    ensures Some(Step(cx, m, i).live) == Apply(before, Intended(cx, cur, des))
  {
    assert i in [i];
    IntendedIsPlanned(cx, m, i.call, cur, des);
    CallEffect(cx, m, i.call);
    hide UpdateMachine, PlanFor, FindPatches, Intended, Apply;
    if m.live != before {
      ApplyTwice(before, Intended(cx, cur, des));
    }
  }

  lemma SuccessBeforeDone(cx: Context, m: Machine, inputs: seq<Input>, cur: string, des: string, j: nat)
    returns (k: nat)
    requires OnRecord(cx, m, cur, des)
    requires SameChange(inputs, cur, des) && CacheReadsSucceed(inputs)
    requires j < |inputs| && IsDone(History(cx, m, inputs)[j])
    ensures k < j && IsSuccessfulApply(EventOf(cx, Run(cx, m, inputs[..k]), inputs[k]))
  {
    IntentIsNeverLost(cx, m, inputs, cur, des);
    var es := History(cx, m, inputs);
    k :| 0 <= k < j && IsSuccessfulApply(es[..j][k]);
    HistoryAt(cx, m, inputs, k);
  }

  lemma SameChangeParts(inputs: seq<Input>, cur: string, des: string, k: nat)
    requires SameChange(inputs, cur, des) && k < |inputs|
    ensures SameChange(inputs[..k], cur, des) && SameChange([inputs[k]], cur, des)
    ensures inputs[..k + 1] + inputs[k + 1..] == inputs
  {
  }

  /** The change is on the node at the end of any run in which a push succeeded. */
  lemma SuccessPatchesForGood(cx: Context, m: Machine, inputs: seq<Input>, cur: string, des: string, k: nat)
    requires OnlyThisChange(cx, m, cur, des) && SameChange(inputs, cur, des) && OneStyle(cx, cur, des)
    requires k < |inputs| && IsSuccessfulApply(EventOf(cx, Run(cx, m, inputs[..k]), inputs[k]))
    ensures Some(Run(cx, m, inputs).live) == Apply(m.live, Intended(cx, cur, des))
  {
    hide Step, EventOf, Intended, Apply, OnlyThisChange, OneStyle, IsSuccessfulApply, SameChange, OriginalOrPatched;
    var done, rest := inputs[..k + 1], inputs[k + 1..];
    assert done[..k] == inputs[..k];
    SameChangeParts(inputs, cur, des, k);
    AtLeastOnceActsAsExactlyOnce(cx, m, inputs[..k], cur, des);
    SuccessLeavesPatched(cx, Run(cx, m, inputs[..k]), inputs[k], cur, des, m.live);
    PatchedStaysPatched(cx, m, done, rest, cur, des);
  }

  /**
   From the recording of a change to the done answer: the node then runs its original
   configuration with the change applied exactly once.
   */
  lemma DoneMeansPatched(cx: Context, m: Machine, inputs: seq<Input>, cur: string, des: string, j: nat)
    requires OnRecord(cx, m, cur, des) && OnlyThisChange(cx, m, cur, des)
    requires SameChange(inputs, cur, des) && CacheReadsSucceed(inputs) && OneStyle(cx, cur, des)
    requires j < |inputs| && IsDone(History(cx, m, inputs)[j])
    ensures Some(Run(cx, m, inputs).live) == Apply(m.live, Intended(cx, cur, des))
  {
    var k := SuccessBeforeDone(cx, m, inputs, cur, des, j);
    SuccessPatchesForGood(cx, m, inputs, cur, des, k);
  }
}
