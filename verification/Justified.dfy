/**
 What a done answer rests on: the record that counts as applied always has a cause in the
 history, and so do the patches held in memory.
 */
module Justified {
  import opened Wrappers
  import opened ConfigTree
  import opened Bootstrap
  import opened Engine
  import opened IntentKept

  predicate IsAttempt(e: Event) {
    e.Called? && e.attempt.Some?
  }

  predicate IsClosing(e: Event) {
    e.PodRestarted? || (e.Called? && (e.reply.message == TimedOut || e.reply.message == Complete))
  }

  /** A push the node accepted, or the finding that there was nothing to push, at that instant. */
  predicate IsCause(e: Event, at: int) {
    e.Called? && (
      || (e.attempt.Some? && e.attempt.value.outcome == Written && e.attempt.value.at == at)
      || (e.reply.message == NothingToApply && e.call.finish == at))
  }

  /** A cause at that instant with no attempt and no closing of the cycle since. */
  ghost predicate CausedAt(es: seq<Event>, at: int) {
    exists j :: 0 <= j < |es| && IsCause(es[j], at)
      && forall k :: j < k < |es| ==> !IsAttempt(es[k]) && !IsClosing(es[k])
  }

  lemma CausedAtSnoc(es: seq<Event>, e: Event, at: int)
    requires IsCause(e, at) || (CausedAt(es, at) && !IsAttempt(e) && !IsClosing(e))
    ensures CausedAt(es + [e], at)
  {
    if IsCause(e, at) {
      assert IsCause((es + [e])[|es|], at);
    } else {
      var j :| 0 <= j < |es| && IsCause(es[j], at)
        && forall k :: j < k < |es| ==> !IsAttempt(es[k]) && !IsClosing(es[k]);
      assert IsCause((es + [e])[j], at);
    }
  }

  /** Every record that counts as applied was set by a cause at exactly its start time. */
  lemma {:induction false} AppliedHasCause(cx: Context, m: Machine, inputs: seq<Input>)
    requires !CountsAsApplied(m)
    ensures var r := Run(cx, m, inputs);
      CountsAsApplied(r) ==> CausedAt(History(cx, m, inputs), r.state.value.startedAt)
    decreases |inputs|
  {
    if inputs != [] {
      var n := |inputs| - 1;
      AppliedHasCause(cx, m, inputs[..n]);
      HistorySnoc(cx, m, inputs);
      var es, before := History(cx, m, inputs[..n]), Run(cx, m, inputs[..n]);
      var r := Step(cx, before, inputs[n]);
      if CountsAsApplied(r) {
        var e := EventOf(cx, before, inputs[n]);
        if inputs[n].Update? {
          CallMovesState(cx, before, inputs[n].call);
          CallEffect(cx, before, inputs[n].call);
        }
        hide UpdateMachine;
        hide CausedAt;
        CausedAtSnoc(es, e, r.state.value.startedAt);
      }
    }
  }

  /**
   Done is answered only for an update with a cause, strictly more than the settling time
   and at most the update timeout after it, and with no push in between.
   */
  lemma DoneIsJustified(cx: Context, m: Machine, inputs: seq<Input>, j: nat)
    requires !CountsAsApplied(m)
    requires j < |inputs| && IsDone(History(cx, m, inputs)[j])
    ensures exists at ::
      && CausedAt(History(cx, m, inputs)[..j], at)
      && 30_000_000_000 < History(cx, m, inputs)[j].call.start - at <= 300_000_000_000
  {
    HistoryAt(cx, m, inputs, j);
    HistoryPrefix(cx, m, inputs, j);
    AppliedHasCause(cx, m, inputs[..j]);
    CallMovesState(cx, Run(cx, m, inputs[..j]), inputs[j].call);
    hide UpdateMachine;
  }

  // ---------------------------------------------------------------- one success per cycle

  /** After a success that no closing has followed, the machine counts as applied. */
  lemma {:induction false} SuccessHoldsUntilClosed(cx: Context, m: Machine, inputs: seq<Input>, i: nat)
    requires i < |inputs| && IsSuccessfulApply(History(cx, m, inputs)[i])
    requires forall k :: i < k < |inputs| ==> !IsClosing(History(cx, m, inputs)[k])
    ensures CountsAsApplied(Run(cx, m, inputs))
    decreases |inputs|
  {
    var n := |inputs| - 1;
    HistorySnoc(cx, m, inputs);
    var es, before := History(cx, m, inputs[..n]), Run(cx, m, inputs[..n]);
    if i < n {
      assert forall k :: i < k < n ==> es[k] == History(cx, m, inputs)[k];
      SuccessHoldsUntilClosed(cx, m, inputs[..n], i);
      assert !IsClosing(History(cx, m, inputs)[n]);
    }
    if inputs[n].Update? {
      CallMovesState(cx, before, inputs[n].call);
      CallEffect(cx, before, inputs[n].call);
    }
    hide UpdateMachine;
  }

  /** Between a successful push and the next attempt the cycle was closed. */
  lemma AtMostOneSuccessPerCycle(cx: Context, m: Machine, inputs: seq<Input>, i: nat, j: nat)
    requires i < j < |inputs|
    requires IsSuccessfulApply(History(cx, m, inputs)[i]) && IsAttempt(History(cx, m, inputs)[j])
    ensures exists k :: i < k < j && IsClosing(History(cx, m, inputs)[k])
  {
    HistoryAt(cx, m, inputs, j);
    HistoryPrefix(cx, m, inputs, j);
    CallMovesState(cx, Run(cx, m, inputs[..j]), inputs[j].call);
    hide UpdateMachine;
    var es := History(cx, m, inputs[..j]);
    if forall k :: i < k < j ==> !IsClosing(es[k]) {
      SuccessHoldsUntilClosed(cx, m, inputs[..j], i);
      assert false;
    }
  }

  // ---------------------------------------------------------------- where patches come from

  ghost predicate CurrentSeen(inputs: seq<Input>, cur: string) {
    exists i :: i in inputs && i.CanUpdate? && i.intent.current == cur
  }

  ghost predicate DesiredSeen(inputs: seq<Input>, des: string) {
    exists i :: i in inputs &&
      ((i.CanUpdate? && i.intent.desired == des) || (i.Update? && i.call.desired == des))
  }

  ghost predicate DerivedFrom(cx: Context, inputs: seq<Input>, cur: string, des: string, ps: Option<seq<Patch>>) {
    CurrentSeen(inputs, cur) && DesiredSeen(inputs, des) && Derive(cx.codec, cur, des) == ps
  }

  lemma SeenGrows(inputs: seq<Input>, n: nat)
    requires n <= |inputs|
    ensures forall cur :: CurrentSeen(inputs[..n], cur) ==> CurrentSeen(inputs, cur)
    ensures forall des :: DesiredSeen(inputs[..n], des) ==> DesiredSeen(inputs, des)
  {
    assert forall i :: i in inputs[..n] ==> i in inputs;
  }

  lemma OriginStep(cx: Context, m: Machine, i: Input)
    ensures var r := Step(cx, m, i);
      && (r.entry == m.entry || r.entry == None || (i.CanUpdate? && r.entry == Some(i.intent.current)))
      && (r.patches == m.patches || r.patches == None
          || (i.CanUpdate? && r.patches == Derive(cx.codec, i.intent.current, i.intent.desired))
          || (i.Update? && m.entry.Some? && r.patches == Derive(cx.codec, m.entry.value, i.call.desired)))
  {
    hide Derive;
    hide PlanFor;
  }

  /**
   In every reachable state the cache entry is a current configuration that was recorded,
   and the patches in memory are the difference between a recorded current configuration
   and a desired one that was asked for.
   */
  lemma {:induction false} PatchesComeFromRequests(cx: Context, m: Machine, inputs: seq<Input>)
    requires m.patches.None? && m.entry.None?
    ensures var r := Run(cx, m, inputs);
      && (r.entry.Some? ==> CurrentSeen(inputs, r.entry.value))
      && (r.patches.Some? ==> exists cur, des :: DerivedFrom(cx, inputs, cur, des, r.patches))
    decreases |inputs|
  {
    if inputs != [] {
      var n := |inputs| - 1;
      var before, i := Run(cx, m, inputs[..n]), inputs[n];
      PatchesComeFromRequests(cx, m, inputs[..n]);
      OriginStep(cx, before, i);
      SeenGrows(inputs, n);
      assert i in inputs;
      var r := Run(cx, m, inputs);
      assert r == Step(cx, before, i);
      hide Step;
      hide Derive;
      if r.patches.Some? {
        if r.patches == before.patches {
          var cur, des :| DerivedFrom(cx, inputs[..n], cur, des, before.patches);
          assert DerivedFrom(cx, inputs, cur, des, r.patches);
        } else if i.CanUpdate? {
          assert DerivedFrom(cx, inputs, i.intent.current, i.intent.desired, r.patches);
        } else {
          assert DerivedFrom(cx, inputs, before.entry.value, i.call.desired, r.patches);
        }
      }
    }
  }

  /**
   After a recording that reached the cache, and while the desired configuration stays the
   same, memory and cache agree: whatever is in memory is what the cache would give back.
   */
  lemma {:induction false} RecoveryRefinesMemory(cx: Context, m: Machine, intent: Intent, inputs: seq<Input>)
    requires cx.hasStore && intent.persistRead && intent.persistWrite != Refused
    requires Derive(cx.codec, intent.current, intent.desired).Some?
    requires forall i :: i in inputs ==> !i.CanUpdate? && (i.Update? ==> i.call.desired == intent.desired)
    ensures var r := Run(cx, StoreDiff(cx, m, intent), inputs);
      && (r.entry.None? || r.entry == Some(intent.current))
      && (r.patches.None? || r.patches == Derive(cx.codec, intent.current, intent.desired))
      && (r.patches.Some? && r.entry.Some? ==> r.patches == Recover(cx, r.entry, true, intent.desired))
    decreases |inputs|
  {
    if inputs != [] {
      var n := |inputs| - 1;
      var stored := StoreDiff(cx, m, intent);
      RecoveryRefinesMemory(cx, m, intent, inputs[..n]);
      OriginStep(cx, Run(cx, stored, inputs[..n]), inputs[n]);
      assert inputs[n] in inputs;
      assert Run(cx, stored, inputs) == Step(cx, Run(cx, stored, inputs[..n]), inputs[n]);
      hide Step;
      hide StoreDiff;
    }
  }

  /** Patches that the cache would give back anyway can be forgotten without a trace. */
  lemma ForgettingMakesNoDifference(cx: Context, m: Machine, c: Call)
    requires m.patches.None? || m.patches == Recover(cx, m.entry, c.cacheRead, c.desired)
    requires m.state.Some? ==> !m.state.value.applied && c.start - m.state.value.startedAt <= 300_000_000_000
    ensures var kept, lost := UpdateMachine(cx, m, c), UpdateMachine(cx, Forget(m), c);
      kept.attempt == lost.attempt && kept.reply == lost.reply && kept.machine.live == lost.machine.live
  {
    hide Derive, PatchLive, StrategicPlan, Cleaned;
    assert FindPatches(cx, m, c) == FindPatches(cx, Forget(m), c);
    hide FindPatches, Recover;
    assert PlanFor(cx, m, c) == PlanFor(cx, Forget(m), c);
    hide PlanFor;
  }

  /** So losing the memory before a call makes no difference to what the call sends and answers. */
  lemma RestartBeforeCallIsInvisible(cx: Context, m: Machine, intent: Intent, inputs: seq<Input>, c: Call)
    requires cx.hasStore && intent.persistRead && intent.persistWrite != Refused
    requires Derive(cx.codec, intent.current, intent.desired).Some?
    requires forall i :: i in inputs ==> !i.CanUpdate? && (i.Update? ==> i.call.desired == intent.desired)
    requires c.desired == intent.desired && c.cacheRead
    ensures var r := Run(cx, StoreDiff(cx, m, intent), inputs);
      && r.entry.Some? && !CountsAsApplied(r)
      && (r.state.Some? ==> c.start - r.state.value.startedAt <= 300_000_000_000)
      ==>
        var kept, lost := UpdateMachine(cx, r, c), UpdateMachine(cx, Forget(r), c);
        kept.attempt == lost.attempt && kept.reply == lost.reply && kept.machine.live == lost.machine.live
  {
    RecoveryRefinesMemory(cx, m, intent, inputs);
    var r := Run(cx, StoreDiff(cx, m, intent), inputs);
    hide Run, StoreDiff, UpdateMachine, Forget, Recover, Derive;
    if r.entry.Some? && !CountsAsApplied(r) {
      if r.state.Some? ==> c.start - r.state.value.startedAt <= 300_000_000_000 {
        ForgettingMakesNoDifference(cx, r, c);
      }
    }
  }
}
