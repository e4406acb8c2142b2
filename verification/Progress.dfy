/**
 A recorded change gets through: when nothing fails and calls come neither too often nor
 too rarely, it is pushed and reported done, and then it is on the node.
 */
module Progress {
  import opened Wrappers
  import opened ConfigTree
  import opened PatchList
  import opened Bootstrap
  import opened Engine
  import opened ExactlyOnce
  import opened IntentKept
  import opened Timing

  /** Every call that finds an address can read the cache. */
  predicate CacheReadable(inputs: seq<Input>) {
    forall i :: i in inputs && Counts(i) ==> i.call.cacheRead
  }

  /** The change is on record, and at most it is on the node already. */
  predicate Pending(cx: Context, m: Machine, before: Document, cur: string, des: string) {
    && OnRecord(cx, m, cur, des) && OnlyThisChange(cx, m, cur, des)
    && OriginalOrPatched(m.live, before, Intended(cx, cur, des))
  }

  /** With the change on record and the cache readable, a call can only push that change. */
  lemma PendingPlan(cx: Context, m: Machine, c: Call, before: Document, cur: string, des: string)
    requires Pending(cx, m, before, cur, des) && c.desired == des && c.cacheRead
    ensures FindPatches(cx, m, c) == Derive(cx.codec, cur, des)
    ensures PlanFor(cx, m, c) == PatchLive(cx, m.live, Intended(cx, cur, des))
    ensures var plan := PlanFor(cx, m, c);
      plan.Push? ==> Some(plan.config) == Apply(before, Intended(cx, cur, des))
  {
    var ps := Intended(cx, cur, des);
    if m.live != before {
      ApplyTwice(before, ps);
    }
    hide Derive, Apply, StrategicPatches, LoadAll;
  }

  /** Whatever goes wrong, while no push is accepted the change stays pending. */
  lemma PendingStep(cx: Context, m: Machine, i: Input, before: Document, cur: string, des: string)
    requires Pending(cx, m, before, cur, des) && !IsSuccessfulApply(EventOf(cx, m, i))
    requires SameChange([i], cur, des) && CacheReadable([i])
    ensures Pending(cx, Step(cx, m, i), before, cur, des)
  {
    assert i in [i];
    if Counts(i) {
      PendingPlan(cx, m, i.call, before, cur, des);
      OnRecordStep(cx, m, i, cur, des);
      CallEffect(cx, m, i.call);
      hide UpdateMachine, FindPatches, PlanFor, PatchLive, Derive, Intended, OnRecord, Apply;
    } else {
      hide TryToApply, Derive, Intended;
    }
  }

  lemma {:induction false} StaysPending(cx: Context, m: Machine, inputs: seq<Input>, cur: string, des: string)
    requires OnRecord(cx, m, cur, des) && OnlyThisChange(cx, m, cur, des)
    requires SameChange(inputs, cur, des) && CacheReadable(inputs) && !AnyApplied(History(cx, m, inputs))
    ensures Pending(cx, Run(cx, m, inputs), m.live, cur, des)
    decreases |inputs|
  {
    if inputs != [] {
      var n := |inputs| - 1;
      var before, i := Run(cx, m, inputs[..n]), inputs[n];
      assert i in inputs;
      HistorySnoc(cx, m, inputs);
      AnyAppliedSnoc(History(cx, m, inputs[..n]), EventOf(cx, before, i));
      assert Run(cx, m, inputs) == Step(cx, before, i);
      hide Run, Step, EventOf, History, Pending, OnRecord, OnlyThisChange, IsSuccessfulApply, AnyApplied;
      StaysPending(cx, m, inputs[..n], cur, des);
      PendingStep(cx, before, i, m.live, cur, des);
    }
  }

  /** The first call that goes through pushes the change, and the node takes it. */
  lemma CallPushes(cx: Context, m: Machine, c: Call, before: Document, cur: string, des: string)
    requires Pending(cx, m, before, cur, des)
    requires Applicable(cx, before, Intended(cx, cur, des))
    requires c.address != "" && c.desired == des && c.nodeRead && c.cacheRead && c.apply == Written
    requires m.state.Some? ==> c.start - m.state.value.startedAt <= 300_000_000_000
    ensures IsSuccessfulApply(EventOf(cx, m, Update(c)))
    ensures var r := Step(cx, m, Update(c));
      r.state == Some(UpdateState(c.finish, true)) && Some(r.live) == Apply(before, Intended(cx, cur, des))
  {
    PendingPlan(cx, m, c, before, cur, des);
    if m.live != before {
      ApplyTwice(before, Intended(cx, cur, des));
    }
    assert PlanFor(cx, m, c).Push?;
    hide FindPatches, Intended, Apply, PlanFor, PatchLive, Derive;
  }

  /** The node does not change while the record counts as applied. */
  lemma AppliedStepKeepsNode(cx: Context, m: Machine, i: Input)
    requires CountsAsApplied(m)
    ensures Step(cx, m, i).live == m.live
  {
    if i.Update? {
      CallMovesState(cx, m, i.call);
      CallEffect(cx, m, i.call);
      hide UpdateMachine, PlanFor, FindPatches;
    }
  }

  lemma {:induction false} AppliedKeepsNode(cx: Context, m: Machine, inputs: seq<Input>)
    requires StaysApplied(cx, m, inputs)
    ensures Run(cx, m, inputs).live == m.live
    decreases |inputs|
  {
    if inputs != [] {
      var init, i := inputs[..|inputs| - 1], inputs[|inputs| - 1];
      assert Run(cx, m, inputs) == Step(cx, Run(cx, m, init), i);
      hide Run, Step;
      AppliedKeepsNode(cx, m, init);
      StaysAppliedState(cx, m, init);
      AppliedStepKeepsNode(cx, Run(cx, m, init), i);
    }
  }

  /** A cycle that does not stay applied was closed at some point. */
  lemma {:induction false} FirstChange(cx: Context, m: Machine, inputs: seq<Input>) returns (n: nat)
    requires CountsAsApplied(m) && !StaysApplied(cx, m, inputs)
    ensures n <= |inputs| && ClosesApplied(cx, m, inputs[..n])
    decreases |inputs|
  {
    n := |inputs|;
    var init := inputs[..n - 1];
    assert inputs[..n] == inputs;
    hide Run;
    if !StaysApplied(cx, m, init) {
      hide StaysApplied, ClosesApplied;
      n := FirstChange(cx, m, init);
      assert init[..n] == inputs[..n];
    }
  }

  lemma {:induction false} CallsAppend(xs: seq<Input>, ys: seq<Input>)
    ensures Calls(xs + ys) == Calls(xs) + Calls(ys)
    decreases |ys|
  {
    if ys == [] {
      assert xs + ys == xs;
    } else {
      assert (xs + ys)[..|xs + ys| - 1] == xs + ys[..|ys| - 1];
      CallsAppend(xs, ys[..|ys| - 1]);
    }
  }

  lemma {:induction false} PacedPrefix(p: Pacing, inputs: seq<Input>, from: int, gap: int, since: int, n: nat)
    requires Paced(p, inputs, from) && Frequent(inputs, since, gap) && n <= |inputs|
    ensures Paced(p, inputs[..n], from) && Frequent(inputs[..n], since, gap)
    decreases |inputs|
  {
    if n == |inputs| {
      assert inputs[..n] == inputs;
    } else {
      PacedPrefix(p, inputs[..|inputs| - 1], from, gap, since, n);
      assert inputs[..|inputs| - 1][..n] == inputs[..n];
    }
  }

  /** From a record that counts as applied, three calls are enough for a done answer, or four paced by their starts. */
  lemma DoneWithinThreeCalls(cx: Context, m: Machine, p: Pacing, rest: seq<Input>) returns (j: nat)
    requires CountsAsApplied(m) && Calls(rest) >= 3 + Slack(p)
    requires Paced(p, rest, Earliest(p, m.state.value.startedAt))
    requires Frequent(rest, m.state.value.startedAt, 270_000_000_000)
    ensures j < |rest| && IsDone(History(cx, m, rest)[j]) && Calls(rest[..j + 1]) <= 3 + Slack(p)
    ensures Run(cx, m, rest[..j + 1]).live == m.live
  {
    var at, gap := m.state.value.startedAt, 270_000_000_000;
    if StaysApplied(cx, m, rest) {
      SettlesWithinThreeCalls(cx, m, p, rest);
      assert false;
    }
    var n := FirstChange(cx, m, rest);
    j := n - 1;
    var closing, init, i := rest[..n], rest[..j], rest[j];
    assert closing[..|closing| - 1] == init && init + [i] == closing && rest[..j + 1] == closing;
    assert StaysApplied(cx, m, init);
    hide Run, Step, EventOf, History, Calls, LastCall, Paced, Frequent, StaysApplied, IsDone, Counts, Attempts;
    PacedPrefix(p, rest, Earliest(p, at), gap, at, n);
    PacedPrefix(p, rest, Earliest(p, at), gap, at, j);
    SettlesWithinThreeCalls(cx, m, p, init);
    AppendInput(cx, m, init, i);
    AppliedEndsWithDone(cx, m, closing, gap);
    HistoryPrefix(cx, m, rest, n);
    assert History(cx, m, rest)[..n][j] == History(cx, m, rest)[j];
    AppliedKeepsNode(cx, m, init);
    StaysAppliedState(cx, m, init);
    AppliedStepKeepsNode(cx, Run(cx, m, init), i);
  }

  /**
   From the recording to done, whatever goes wrong in between. Pushes may be refused or their
   replies lost, the pod may restart and cycles may time out: as long as the cache can be
   read and no push is accepted, the next call whose reads and push go through leaves the
   original configuration with the change made once. If then the pod lives on and calls are
   paced and at most 270 s apart, one of the next three (four, when the interval is counted
   from their starts) is answered done, with that configuration still on the node.
   */
  lemma RecordedChangeGetsThrough(cx: Context, m: Machine, faulty: seq<Input>, first: Call, p: Pacing, rest: seq<Input>,
                                  cur: string, des: string)
    returns (j: nat)
    requires OnRecord(cx, m, cur, des) && OnlyThisChange(cx, m, cur, des)
    requires Applicable(cx, m.live, Intended(cx, cur, des))
    requires SameChange(faulty, cur, des) && CacheReadable(faulty) && !AnyApplied(History(cx, m, faulty))
    requires first.address != "" && first.desired == des
    requires first.nodeRead && first.cacheRead && first.apply == Written
    requires var state := Run(cx, m, faulty).state;
      state.Some? ==> first.start - state.value.startedAt <= 300_000_000_000
    requires Calls(rest) >= 3 + Slack(p) && Paced(p, rest, Earliest(p, first.finish))
    requires Frequent(rest, first.finish, 270_000_000_000)
    ensures var inputs := faulty + [Update(first)] + rest;
      && IsSuccessfulApply(History(cx, m, inputs)[|faulty|])
      && |faulty| < j < |inputs| && IsDone(History(cx, m, inputs)[j])
      && Calls(inputs[..j + 1]) <= Calls(faulty) + 4 + Slack(p)
      && Some(Run(cx, m, inputs[..j + 1]).live) == Apply(m.live, Intended(cx, cur, des))
  {
    hide Run, History, Step, EventOf, OnRecord, OnlyThisChange, Applicable, Intended, Apply, Pending, AnyApplied;
    hide Calls, LastCall, Paced, Frequent, IsDone, IsSuccessfulApply, Attempts;
    var start, before := faulty + [Update(first)], Run(cx, m, faulty);
    StaysPending(cx, m, faulty, cur, des);
    CallPushes(cx, before, first, m.live, cur, des);
    AppendInput(cx, m, faulty, Update(first));
    var k := DoneWithinThreeCalls(cx, Run(cx, m, start), p, rest);
    HistoryAppend(cx, m, start, rest);
    HistorySnoc(cx, m, start);
    assert start[..|start| - 1] == faulty;
    j := |start| + k;
    assert (start + rest)[..j + 1] == start + rest[..k + 1];
    RunAppend(cx, m, start, rest[..k + 1]);
    CallsAppend(start, rest[..k + 1]);
  }
}
