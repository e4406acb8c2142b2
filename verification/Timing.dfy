/**
 How long a cycle lasts. A cycle is open while the machine has an update record. Calls
 that find no address leave everything alone and do not count.
 */
module Timing {
  import opened Wrappers
  import opened PatchList
  import opened Engine
  import opened IntentKept
  import opened Justified

  /** The retry interval of the answers, 15 s. */
  const RETRY_TIME: int := 15_000_000_000

  predicate Counts(i: Input) {
    i.Update? && i.call.address != ""
  }

  function Calls(inputs: seq<Input>): nat {
    if inputs == [] then 0
    else Calls(inputs[..|inputs| - 1]) + if Counts(inputs[|inputs| - 1]) then 1 else 0
  }

  function Attempts(es: seq<Event>): nat {
    if es == [] then 0
    else Attempts(es[..|es| - 1]) + if IsAttempt(es[|es| - 1]) then 1 else 0
  }

  /** The last call that counted. */
  function LastCall(inputs: seq<Input>): Option<Call> {
    if inputs == [] then None
    else if Counts(inputs[|inputs| - 1]) then Some(inputs[|inputs| - 1].call)
    else LastCall(inputs[..|inputs| - 1])
  }

  /** Where the retry interval is counted from: the answer to the last call, or its start. */
  datatype Pacing = FromAnswer | FromStart

  /** The earliest start of the next call after one that was answered at this instant. */
  function Earliest(p: Pacing, answered: int): int {
    if p.FromAnswer? then answered + RETRY_TIME else answered
  }

  /** When the next call may start. Calls of one machine do not overlap. */
  function Due(p: Pacing, c: Call): int {
    if p.FromStart? && c.start + RETRY_TIME > c.finish then c.start + RETRY_TIME else Earliest(p, c.finish)
  }

  /** The first call is no earlier than `from`, and each later one when it is due. The pod does not restart. */
  predicate Paced(p: Pacing, inputs: seq<Input>, from: int) {
    inputs == [] ||
      var n := |inputs| - 1;
      var prev := LastCall(inputs[..n]);
      && Paced(p, inputs[..n], from)
      && !inputs[n].Restart?
      && (Counts(inputs[n]) ==>
            && inputs[n].call.start <= inputs[n].call.finish
            && (if prev.Some? then Due(p, prev.value) else from) <= inputs[n].call.start)
  }

  /** The first input opens a cycle and no later one closes it. */
  ghost predicate OneOpenCycle(cx: Context, m: Machine, inputs: seq<Input>) {
    if inputs == [] then m.state.None?
    else OneOpenCycle(cx, m, inputs[..|inputs| - 1]) && Run(cx, m, inputs).state.Some?
  }

  /** The cycle counts as applied at the start, and no input closes it. */
  ghost predicate StaysApplied(cx: Context, m: Machine, inputs: seq<Input>) {
    if inputs == [] then CountsAsApplied(m)
    else StaysApplied(cx, m, inputs[..|inputs| - 1]) && Run(cx, m, inputs).state == m.state
  }

  // ---------------------------------------------------------------- one more input

  lemma NothingRun(cx: Context, m: Machine)
    ensures Run(cx, m, []) == m && History(cx, m, []) == []
    ensures Calls([]) == 0 && Attempts([]) == 0 && LastCall([]) == None
  {
  }

  lemma NothingKeeps(cx: Context, m: Machine, p: Pacing, from: int)
    ensures Paced(p, [], from)
    ensures OneOpenCycle(cx, m, []) <==> m.state.None?
    ensures StaysApplied(cx, m, []) <==> CountsAsApplied(m)
  {
  }

  lemma AppendInput(cx: Context, m: Machine, xs: seq<Input>, i: Input)
    ensures Run(cx, m, xs + [i]) == Step(cx, Run(cx, m, xs), i)
    ensures Attempts(History(cx, m, xs + [i]))
         == Attempts(History(cx, m, xs)) + if IsAttempt(EventOf(cx, Run(cx, m, xs), i)) then 1 else 0
    ensures Calls(xs + [i]) == Calls(xs) + if Counts(i) then 1 else 0
    ensures LastCall(xs + [i]) == if Counts(i) then Some(i.call) else LastCall(xs)
  {
    assert (xs + [i])[..|xs|] == xs;
    var es, e := History(cx, m, xs), EventOf(cx, Run(cx, m, xs), i);
    assert History(cx, m, xs + [i]) == es + [e];
    assert (es + [e])[..|es|] == es;
  }

  /** The predicates on runs, one input further. */
  lemma AppendKeeps(cx: Context, m: Machine, p: Pacing, xs: seq<Input>, i: Input, from: int)
    ensures Paced(p, xs + [i], from)
       <==> && Paced(p, xs, from) && !i.Restart?
            && (Counts(i) ==>
                  && i.call.start <= i.call.finish
                  && (if LastCall(xs).Some? then Due(p, LastCall(xs).value) else from) <= i.call.start)
    ensures OneOpenCycle(cx, m, xs + [i]) <==> OneOpenCycle(cx, m, xs) && Run(cx, m, xs + [i]).state.Some?
    ensures StaysApplied(cx, m, xs + [i]) <==> StaysApplied(cx, m, xs) && Run(cx, m, xs + [i]).state == m.state
  {
    hide Run;
    assert (xs + [i])[..|xs|] == xs;
  }

  lemma UncountedChangesNothing(cx: Context, m: Machine, i: Input)
    requires !Counts(i) && !i.Restart?
    ensures Step(cx, m, i).state == m.state
    ensures !IsAttempt(EventOf(cx, m, i))
  {
  }

  // ---------------------------------------------------------------- the bounds

  /** Counted from its start, a call may start one interval earlier. */
  function Slack(p: Pacing): nat {
    if p.FromAnswer? then 0 else 1
  }

  lemma DueLater(p: Pacing, c: Call)
    requires c.start <= c.finish
    ensures Due(p, c) >= c.start + RETRY_TIME
    ensures Due(p, c) >= c.finish + RETRY_TIME * (1 - Slack(p))
  {
  }

  /**
   Where in the cycle a machine can be after so many calls and attempts, by the time that
   has passed when the next call is due. Once applied, calls beyond those that can push
   were settling calls.
   */
  predicate WithinBudget(p: Pacing, s: UpdateState, calls: nat, attempts: nat, last: Call) {
    var passed, most := Due(p, last) - s.startedAt, 21 + Slack(p);
    if s.applied then
      var settling := if calls > most then calls - most else 0;
      && attempts <= most && settling <= 2 + Slack(p)
      && passed >= RETRY_TIME * (settling + 1 - Slack(p))
    else
      1 <= calls <= most && attempts <= calls && passed >= RETRY_TIME * (calls - Slack(p))
  }

  lemma BudgetStep(cx: Context, m: Machine, p: Pacing, i: Input, calls: nat, attempts: nat, last: Call)
    requires Counts(i) && m.state.Some? && WithinBudget(p, m.state.value, calls, attempts, last)
    requires i.call.start <= i.call.finish && Due(p, last) <= i.call.start
    requires Step(cx, m, i).state.Some?
    ensures WithinBudget(p, Step(cx, m, i).state.value,
                         calls + 1, attempts + if IsAttempt(EventOf(cx, m, i)) then 1 else 0, i.call)
  {
    CallMovesState(cx, m, i.call);
    DueLater(p, i.call);
    hide UpdateMachine, Due;
  }

  lemma FirstWithinBudget(cx: Context, m: Machine, p: Pacing, i: Input)
    requires Counts(i) && i.call.start <= i.call.finish && m.state.None? && Step(cx, m, i).state.Some?
    ensures WithinBudget(p, Step(cx, m, i).state.value, 1, if IsAttempt(EventOf(cx, m, i)) then 1 else 0, i.call)
  {
    CallMovesState(cx, m, i.call);
    DueLater(p, i.call);
    hide UpdateMachine, Due;
  }

  lemma {:induction false} OpenCycleWithinBudget(cx: Context, m: Machine, p: Pacing, inputs: seq<Input>, from: int)
    requires inputs != [] && Counts(inputs[0])
    requires Paced(p, inputs, from) && OneOpenCycle(cx, m, inputs)
    ensures LastCall(inputs).Some? && Run(cx, m, inputs).state.Some?
    ensures WithinBudget(p, Run(cx, m, inputs).state.value,
                         Calls(inputs), Attempts(History(cx, m, inputs)), LastCall(inputs).value)
    decreases |inputs|
  {
    hide WithinBudget, Step, EventOf, IsAttempt, Run, History, Calls, Attempts, LastCall, Paced, Due;
    var n := |inputs| - 1;
    var init, i := inputs[..n], inputs[n];
    assert init + [i] == inputs;
    AppendInput(cx, m, init, i);
    AppendKeeps(cx, m, p, init, i, from);
    NothingRun(cx, m);
    if n == 0 {
      assert init == [];
      NothingKeeps(cx, m, p, from);
      FirstWithinBudget(cx, m, p, i);
    } else {
      hide OneOpenCycle;
      OpenCycleWithinBudget(cx, m, p, init, from);
      if Counts(i) {
        BudgetStep(cx, Run(cx, m, init), p, i, Calls(init), Attempts(History(cx, m, init)), LastCall(init).value);
      } else {
        UncountedChangesNothing(cx, Run(cx, m, init), i);
      }
    }
  }

  /**
   A cycle whose calls are paced by the retry interval ends. Counted from the answers, it
   stays open for at most 23 calls, so the record is gone with the 24th, and at most 21 of
   them push a configuration; counted from the starts, it is 25 and 22.
   */
  lemma CycleIsBounded(cx: Context, m: Machine, p: Pacing, inputs: seq<Input>, from: int)
    requires inputs != [] && Counts(inputs[0])
    requires Paced(p, inputs, from) && OneOpenCycle(cx, m, inputs)
    ensures Calls(inputs) <= if p.FromAnswer? then 23 else 25
    ensures Attempts(History(cx, m, inputs)) <= if p.FromAnswer? then 21 else 22
  {
    hide Run, Calls, Attempts, Paced, OneOpenCycle;
    OpenCycleWithinBudget(cx, m, p, inputs, from);
  }

  lemma SettlingStep(cx: Context, m: Machine, i: Input)
    requires CountsAsApplied(m) && Counts(i) && Step(cx, m, i).state == m.state
    ensures i.call.start - m.state.value.startedAt <= 30_000_000_000
  {
    CallMovesState(cx, m, i.call);
    hide UpdateMachine;
  }

  lemma {:induction false} StaysAppliedState(cx: Context, m: Machine, inputs: seq<Input>)
    requires StaysApplied(cx, m, inputs)
    ensures CountsAsApplied(m) && Run(cx, m, inputs).state == m.state
    decreases |inputs|
  {
    if inputs != [] {
      StaysAppliedState(cx, m, inputs[..|inputs| - 1]);
      hide Run;
    }
  }

  lemma {:induction false} SettlingCalls(cx: Context, m: Machine, p: Pacing, inputs: seq<Input>)
    requires StaysApplied(cx, m, inputs) && CountsAsApplied(m)
    requires Paced(p, inputs, Earliest(p, m.state.value.startedAt))
    ensures var last := LastCall(inputs);
      if Calls(inputs) == 0 then last.None?
      else
        && last.Some? && Calls(inputs) <= 2 + Slack(p)
        && Due(p, last.value) - m.state.value.startedAt >= RETRY_TIME * (Calls(inputs) + 1 - Slack(p))
    decreases |inputs|
  {
    NothingRun(cx, m);
    hide Run, Step, Calls, LastCall, Paced, StaysApplied, Due;
    if inputs != [] {
      var n := |inputs| - 1;
      var init, i := inputs[..n], inputs[n];
      assert init + [i] == inputs;
      AppendInput(cx, m, init, i);
      AppendKeeps(cx, m, p, init, i, Earliest(p, m.state.value.startedAt));
      SettlingCalls(cx, m, p, init);
      if Counts(i) {
        StaysAppliedState(cx, m, init);
        SettlingStep(cx, Run(cx, m, init), i);
        DueLater(p, i.call);
      }
    }
  }

  /** Once applied, a cycle survives at most two calls paced by the answers, or three paced by the starts. */
  lemma SettlesWithinThreeCalls(cx: Context, m: Machine, p: Pacing, inputs: seq<Input>)
    requires StaysApplied(cx, m, inputs) && CountsAsApplied(m)
    requires Paced(p, inputs, Earliest(p, m.state.value.startedAt))
    ensures Calls(inputs) <= if p.FromAnswer? then 2 else 3
  {
    hide StaysApplied, Paced, Calls;
    SettlingCalls(cx, m, p, inputs);
  }

  // ---------------------------------------------------------------- the bounds are reached

  function CallAt(start: int, finish: int, outcome: WriteOutcome): Input {
    Update(Call("10.0.0.1", map[], "", start, finish, true, true, outcome, true, Written))
  }

  /** The start of the n-th call, when the first is answered at instant zero. */
  function Slot(p: Pacing, n: nat): int {
    RETRY_TIME * (n - Slack(p))
  }

  /** Refused pushes, as soon after each other as they may come. */
  function RefusedRun(p: Pacing, n: nat): seq<Input> {
    if n == 0 then []
    else RefusedRun(p, n - 1) + [CallAt(Slot(p, n - 1), if n == 1 then 0 else Slot(p, n - 1), Refused)]
  }

  predicate CanPush(cx: Context, m: Machine) {
    m.patches.Some? && Applicable(cx, m.live, m.patches.value)
  }

  lemma StillCanPush(cx: Context, m: Machine, s: UpdateState)
    requires CanPush(cx, m)
    ensures CanPush(cx, m.(state := Some(s)))
  {
  }

  lemma RefusedCall(cx: Context, m: Machine, start: int, finish: int, outcome: WriteOutcome)
    requires CanPush(cx, m)
    requires m.state.Some? ==> !m.state.value.applied && start - m.state.value.startedAt <= 300_000_000_000
    ensures var i := CallAt(start, finish, outcome);
      && IsAttempt(EventOf(cx, m, i))
      && (outcome == Refused ==>
            Step(cx, m, i) == m.(state := if m.state.Some? then m.state else Some(UpdateState(finish, false))))
      && (outcome == Written ==> Step(cx, m, i).state == Some(UpdateState(finish, true)))
  {
    hide Apply;
  }

  lemma SettlingCall(cx: Context, m: Machine, at: int)
    requires CountsAsApplied(m) && at - m.state.value.startedAt <= 30_000_000_000
    ensures Step(cx, m, CallAt(at, at, Written)) == m
    ensures !IsAttempt(EventOf(cx, m, CallAt(at, at, Written)))
  {
  }

  /** One more paced call that leaves the cycle open. */
  lemma OpenRunGrows(cx: Context, m: Machine, p: Pacing, xs: seq<Input>, start: int, finish: int, outcome: WriteOutcome)
    returns (ys: seq<Input>)
    requires OneOpenCycle(cx, m, xs) && Paced(p, xs, Slot(p, 0))
    requires (if LastCall(xs).Some? then Due(p, LastCall(xs).value) else Slot(p, 0)) <= start <= finish
    requires Step(cx, Run(cx, m, xs), CallAt(start, finish, outcome)).state.Some?
    ensures var i := CallAt(start, finish, outcome);
      && ys == xs + [i]
      && OneOpenCycle(cx, m, ys) && Paced(p, ys, Slot(p, 0))
      && Run(cx, m, ys) == Step(cx, Run(cx, m, xs), i)
      && Calls(ys) == Calls(xs) + 1
      && Attempts(History(cx, m, ys))
         == Attempts(History(cx, m, xs)) + (if IsAttempt(EventOf(cx, Run(cx, m, xs), i)) then 1 else 0)
      && LastCall(ys) == Some(i.call)
  {
    hide Run, Step, EventOf, History, Calls, Attempts, LastCall, Paced, OneOpenCycle, Due, Slot, IsAttempt;
    var i := CallAt(start, finish, outcome);
    ys := xs + [i];
    AppendInput(cx, m, xs, i);
    AppendKeeps(cx, m, p, xs, i, Slot(p, 0));
  }

  lemma OneMoreRefused(p: Pacing, n: nat)
    requires n > 0
    ensures var at := Slot(p, n - 1);
      RefusedRun(p, n) == RefusedRun(p, n - 1) + [CallAt(at, if n == 1 then 0 else at, Refused)]
    ensures RefusedRun(p, 0) == []
  {
  }

  lemma RefusedRunStarts(cx: Context, m: Machine, p: Pacing)
    requires m.state.None? && CanPush(cx, m)
    ensures var r := RefusedRun(p, 1);
      && Run(cx, m, r) == m.(state := Some(UpdateState(0, false)))
      && OneOpenCycle(cx, m, r) && Paced(p, r, Slot(p, 0)) && Calls(r) == 1 && Attempts(History(cx, m, r)) == 1
      && LastCall(r).Some? && Due(p, LastCall(r).value) == Slot(p, 1)
  {
    var none: seq<Input> := [];
    hide Step, EventOf, Run, History, Calls, Attempts, LastCall, Paced, OneOpenCycle, CanPush, IsAttempt, RefusedRun;
    OneMoreRefused(p, 1);
    NothingRun(cx, m);
    NothingKeeps(cx, m, p, Slot(p, 0));
    RefusedCall(cx, m, Slot(p, 0), 0, Refused);
    var _ := OpenRunGrows(cx, m, p, none, Slot(p, 0), 0, Refused);
  }

  lemma {:induction false} RefusedRunStaysOpen(cx: Context, m: Machine, p: Pacing, n: nat)
    requires m.state.None? && CanPush(cx, m) && 1 <= n <= 21 + Slack(p)
    ensures var r := RefusedRun(p, n);
      && Run(cx, m, r) == m.(state := Some(UpdateState(0, false)))
      && OneOpenCycle(cx, m, r) && Paced(p, r, Slot(p, 0))
      && Calls(r) == n && Attempts(History(cx, m, r)) == n
      && LastCall(r).Some? && Due(p, LastCall(r).value) == Slot(p, n)
  {
    hide Step, EventOf, Run, History, Calls, Attempts, LastCall, Paced, OneOpenCycle, CanPush, IsAttempt, RefusedRun;
    StillCanPush(cx, m, UpdateState(0, false));
    OneMoreRefused(p, n);
    if n == 1 {
      RefusedRunStarts(cx, m, p);
    } else {
      RefusedRunStaysOpen(cx, m, p, n - 1);
      var xs, at := RefusedRun(p, n - 1), Slot(p, n - 1);
      RefusedCall(cx, Run(cx, m, xs), at, at, Refused);
      var _ := OpenRunGrows(cx, m, p, xs, at, at, Refused);
    }
  }

  /** A settling call at the earliest moment, which leaves the cycle open. */
  lemma SettlingRunGrows(cx: Context, m: Machine, p: Pacing, xs: seq<Input>, at: int) returns (ys: seq<Input>)
    requires OneOpenCycle(cx, m, xs) && Paced(p, xs, Slot(p, 0)) && LastCall(xs).Some?
    requires CountsAsApplied(Run(cx, m, xs)) && Due(p, LastCall(xs).value) <= at
    requires at - Run(cx, m, xs).state.value.startedAt <= 30_000_000_000
    ensures OneOpenCycle(cx, m, ys) && Paced(p, ys, Slot(p, 0)) && ys != []
    ensures Run(cx, m, ys) == Run(cx, m, xs) && LastCall(ys).Some? && Due(p, LastCall(ys).value) == at + RETRY_TIME
    ensures Calls(ys) == Calls(xs) + 1 && Attempts(History(cx, m, ys)) == Attempts(History(cx, m, xs))
  {
    hide Step, EventOf, Run, History, Calls, Attempts, LastCall, Paced, OneOpenCycle, IsAttempt;
    SettlingCall(cx, Run(cx, m, xs), at);
    ys := OpenRunGrows(cx, m, p, xs, at, at, Written);
  }

  /** Neither bound can be lowered: refusals to the last moment, a success, and calls that still wait. */
  lemma BoundsAreReached(cx: Context, m: Machine, p: Pacing) returns (inputs: seq<Input>)
    requires m.state.None? && CanPush(cx, m)
    ensures inputs != [] && Counts(inputs[0]) && Paced(p, inputs, Slot(p, 0)) && OneOpenCycle(cx, m, inputs)
    ensures Calls(inputs) == if p.FromAnswer? then 23 else 25
    ensures Attempts(History(cx, m, inputs)) == if p.FromAnswer? then 21 else 22
  {
    hide Step, EventOf, Run, History, Calls, Attempts, LastCall, Paced, OneOpenCycle, RefusedRun, Counts, CanPush;
    hide IsAttempt;
    StillCanPush(cx, m, UpdateState(0, false));
    var n := 20 + Slack(p);
    RefusedRunStaysOpen(cx, m, p, n);
    var at, applied := Slot(p, n), Slot(p, n) + RETRY_TIME;
    RefusedCall(cx, Run(cx, m, RefusedRun(p, n)), at, applied, Written);
    inputs := OpenRunGrows(cx, m, p, RefusedRun(p, n), at, applied, Written);
    inputs := SettlingRunGrows(cx, m, p, inputs, Earliest(p, applied));
    inputs := SettlingRunGrows(cx, m, p, inputs, Earliest(p, applied) + RETRY_TIME);
    if p.FromStart? {
      inputs := SettlingRunGrows(cx, m, p, inputs, applied + 2 * RETRY_TIME);
    }
    OpenCycleStartsWithCall(cx, m, inputs);
  }

  /** An input that opens a cycle is a call. */
  lemma OpeningCounts(cx: Context, m: Machine, i: Input)
    requires m.state.None? && Step(cx, m, i).state.Some?
    ensures Counts(i)
  {
    if !Counts(i) && !i.Restart? {
      UncountedChangesNothing(cx, m, i);
    }
  }

  lemma {:induction false} OpenCycleStartsWithCall(cx: Context, m: Machine, inputs: seq<Input>)
    requires inputs != [] && OneOpenCycle(cx, m, inputs)
    ensures Counts(inputs[0])
    decreases |inputs|
  {
    var init := inputs[..|inputs| - 1];
    assert OneOpenCycle(cx, m, init);
    if init == [] {
      assert Run(cx, m, init) == m && Run(cx, m, inputs) == Step(cx, m, inputs[0]);
      hide Step, Counts;
      OpeningCounts(cx, m, inputs[0]);
    } else {
      hide Run, Counts;
      OpenCycleStartsWithCall(cx, m, init);
    }
  }

  // ---------------------------------------------------------------- no spurious timeout

  /** From `from` on, no two consecutive calls are more than `gap` apart. No restarts. */
  predicate Frequent(inputs: seq<Input>, from: int, gap: int) {
    inputs == [] ||
      var n := |inputs| - 1;
      var prev := LastCall(inputs[..n]);
      && Frequent(inputs[..n], from, gap)
      && !inputs[n].Restart?
      && (Counts(inputs[n]) ==> inputs[n].call.start <= (if prev.Some? then prev.value.start else from) + gap)
  }

  /** The last input is the first to change the record of a cycle that counts as applied. */
  ghost predicate ClosesApplied(cx: Context, m: Machine, inputs: seq<Input>) {
    inputs != [] && StaysApplied(cx, m, inputs[..|inputs| - 1]) && Run(cx, m, inputs).state != m.state
  }

  /** However a cycle that counts as applied is closed, it is closed by a done answer. */
  ghost predicate EndsWithDone(cx: Context, gap: int) {
    forall m: Machine, inputs: seq<Input> ::
      CountsAsApplied(m) && ClosesApplied(cx, m, inputs) && Frequent(inputs, m.state.value.startedAt, gap) ==>
        IsDone(History(cx, m, inputs)[|inputs| - 1])
  }

  lemma {:induction false} LastCallWasSettling(cx: Context, m: Machine, inputs: seq<Input>)
    requires StaysApplied(cx, m, inputs) && CountsAsApplied(m)
    ensures LastCall(inputs).Some? ==> LastCall(inputs).value.start - m.state.value.startedAt <= 30_000_000_000
    decreases |inputs|
  {
    NothingRun(cx, m);
    hide Run, Step, LastCall, StaysApplied, Counts;
    if inputs != [] {
      var n := |inputs| - 1;
      var init, i := inputs[..n], inputs[n];
      assert init + [i] == inputs;
      AppendInput(cx, m, init, i);
      AppendKeeps(cx, m, FromAnswer, init, i, 0);
      LastCallWasSettling(cx, m, init);
      if Counts(i) {
        StaysAppliedState(cx, m, init);
        SettlingStep(cx, Run(cx, m, init), i);
      }
    }
  }

  /** A step that changes the record of an applied cycle in time is a done answer. */
  lemma ClosingStep(cx: Context, m: Machine, i: Input)
    requires CountsAsApplied(m) && Step(cx, m, i).state != m.state && !i.Restart?
    requires Counts(i) ==> i.call.start - m.state.value.startedAt <= 300_000_000_000
    ensures IsDone(EventOf(cx, m, i))
  {
    if Counts(i) {
      CallMovesState(cx, m, i.call);
      hide UpdateMachine;
    } else {
      UncountedChangesNothing(cx, m, i);
    }
  }

  lemma AppliedEndsWithDone(cx: Context, m: Machine, inputs: seq<Input>, gap: int)
    requires gap <= 270_000_000_000
    requires CountsAsApplied(m) && ClosesApplied(cx, m, inputs)
    requires Frequent(inputs, m.state.value.startedAt, gap)
    ensures IsDone(History(cx, m, inputs)[|inputs| - 1])
  {
    var init, i := inputs[..|inputs| - 1], inputs[|inputs| - 1];
    HistorySnoc(cx, m, inputs);
    assert Run(cx, m, inputs) == Step(cx, Run(cx, m, init), i);
    hide Run, Step, EventOf, History, StaysApplied, LastCall, IsDone;
    LastCallWasSettling(cx, m, init);
    StaysAppliedState(cx, m, init);
    ClosingStep(cx, Run(cx, m, init), i);
  }

  lemma FrequentAppend(xs: seq<Input>, i: Input, from: int, gap: int)
    ensures Frequent(xs + [i], from, gap)
       <==> && Frequent(xs, from, gap) && !i.Restart?
            && (Counts(i) ==> i.call.start <= (if LastCall(xs).Some? then LastCall(xs).value.start else from) + gap)
  {
    assert (xs + [i])[..|xs|] == xs;
  }

  lemma LateCall(cx: Context, m: Machine, at: int)
    requires m.state.Some? && at - m.state.value.startedAt > 300_000_000_000
    ensures var i := CallAt(at, at, Written); Step(cx, m, i).state.None? && !IsDone(EventOf(cx, m, i))
  {
  }

  /** A call at the end of the settling time of a cycle applied at zero, and the next one just too late. */
  function TooRare(): seq<Input> {
    [] + [CallAt(30_000_000_000, 30_000_000_000, Written)] + [CallAt(300_000_000_000 + 1, 300_000_000_000 + 1, Written)]
  }

  lemma TooRareIsFrequent(gap: int)
    requires gap > 270_000_000_000
    ensures Frequent(TooRare(), 0, gap)
  {
    var none: seq<Input> := [];
    var settling := CallAt(30_000_000_000, 30_000_000_000, Written);
    assert Frequent(none, 0, gap) && LastCall(none) == None && LastCall([settling]) == Some(settling.call);
    assert none + [settling] == [settling];
    hide Frequent, LastCall;
    FrequentAppend(none, settling, 0, gap);
    FrequentAppend(none + [settling], CallAt(300_000_000_000 + 1, 300_000_000_000 + 1, Written), 0, gap);
  }

  lemma TooRareTimesOut(cx: Context, gap: int)
    requires gap > 270_000_000_000
    ensures !EndsWithDone(cx, gap)
  {
    assert TooRare()[..|TooRare()| - 1] == [] + [CallAt(30_000_000_000, 30_000_000_000, Written)];
    hide Step, EventOf, Run, History, LastCall, IsDone, Frequent, Attempts, Calls, CallAt;
    hide StaysApplied, Paced, OneOpenCycle;
    var m := Machine(Some(UpdateState(0, true)), None, None, map[]);
    var at, late := 30_000_000_000, 300_000_000_000 + 1;
    var none: seq<Input> := [];
    var settling, closing := CallAt(at, at, Written), CallAt(late, late, Written);
    var a := none + [settling];
    assert TooRare() == a + [closing];
    TooRareIsFrequent(gap);
    NothingRun(cx, m);
    SettlingCall(cx, m, at);
    LateCall(cx, m, late);
    AppendInput(cx, m, none, settling);
    AppendInput(cx, m, a, closing);
    AppendKeeps(cx, m, FromAnswer, none, settling, 0);
    NothingKeeps(cx, m, FromAnswer, 0);
    HistorySnoc(cx, m, TooRare());
    assert ClosesApplied(cx, m, TooRare());
  }

  /** The longest pause between calls that never turns an applied update into a timeout. */
  lemma NoSpuriousTimeoutExactlyWhen(cx: Context, gap: int)
    ensures EndsWithDone(cx, gap) <==> gap <= 270_000_000_000
  {
    if gap <= 270_000_000_000 {
      forall m: Machine, inputs: seq<Input> |
        CountsAsApplied(m) && ClosesApplied(cx, m, inputs) && Frequent(inputs, m.state.value.startedAt, gap)
        ensures IsDone(History(cx, m, inputs)[|inputs| - 1])
      {
        AppliedEndsWithDone(cx, m, inputs, gap);
      }
    } else {
      TooRareTimesOut(cx, gap);
    }
  }
}
