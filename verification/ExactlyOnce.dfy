/**
 What the node ends up with. Calls are repeated, replies are lost and the pod restarts, so
 a configuration may be pushed many times; the node must look as if the change had been
 made at most once.
 */
module ExactlyOnce {
  import opened Wrappers
  import opened Json
  import opened ConfigTree
  import opened PatchList
  import opened Bootstrap
  import opened Engine

  /** Every request in the run is about the same change. */
  ghost predicate SameChange(inputs: seq<Input>, cur: string, des: string) {
    forall i :: i in inputs ==>
      && (i.CanUpdate? ==> i.intent.current == cur && i.intent.desired == des)
      && (i.Update? ==> i.call.desired == des)
  }

  /** A desired object that carries a full configuration carries no strategic patches. */
  predicate OneStyle(cx: Context, cur: string, des: string) {
    Derive(cx.codec, cur, des).Some? ==>
      var texts := StrategicPatches(cx.codec, des);
      texts.Err? || texts.value == []
  }

  /** The change the request asks for, whichever style it is written in. */
  function Intended(cx: Context, cur: string, des: string): seq<Patch> {
    var derived := Derive(cx.codec, cur, des);
    if derived.Some? then derived.value
    else
      var texts := StrategicPatches(cx.codec, des);
      if texts.Ok? && LoadAll(cx.codec, texts.value).Ok? then LoadAll(cx.codec, texts.value).value else []
  }

  /** Memory and cache hold nothing that belongs to another change. */
  predicate OnlyThisChange(cx: Context, m: Machine, cur: string, des: string) {
    && (m.patches.Some? ==> m.patches == Derive(cx.codec, cur, des))
    && (m.entry.Some? ==> m.entry == Some(cur))
  }

  predicate OriginalOrPatched(now: Document, before: Document, ps: seq<Patch>) {
    now == before || Some(now) == Apply(before, ps)
  }

  // ---------------------------------------------------------------- when other patches do no harm

  /** What the patches in memory at the start would push; a record that counts as applied goes and takes them along. */
  function HeldPlan(cx: Context, m: Machine): Plan {
    if m.patches.Some? && !CountsAsApplied(m) then PatchLive(cx, m.live, m.patches.value) else Nothing
  }

  /** What the cache entry there is at the start would push on this configuration. */
  function OlderPlan(cx: Context, m: Machine, live: Document, des: string): Plan {
    var ps := Recover(cx, m.entry, true, des);
    if ps.Some? then PatchLive(cx, live, ps.value) else Nothing
  }

  predicate LeadsNowhereNew(plan: Plan, before: Document, ps: seq<Patch>) {
    plan.Push? ==> OriginalOrPatched(plan.config, before, ps)
  }

  /** Neither the strategic patches nor the entry at the start would push a third configuration on this one. */
  predicate HarmlessAt(cx: Context, m: Machine, live: Document, des: string, ps: seq<Patch>) {
    && LeadsNowhereNew(StrategicPlan(cx, live, des), m.live, ps)
    && LeadsNowhereNew(OlderPlan(cx, m, live, des), m.live, ps)
  }

  /** What else could be pushed, planned on the original and on the patched configuration, gives one of the two. */
  predicate Harmless(cx: Context, m: Machine, cur: string, des: string) {
    var ps := Intended(cx, cur, des);
    var plan := PatchLive(cx, m.live, ps);
    && LeadsNowhereNew(HeldPlan(cx, m), m.live, ps)
    && HarmlessAt(cx, m, m.live, des, ps)
    && (plan.Push? ==> HarmlessAt(cx, m, plan.config, des, ps))
  }

  /** The handler never leaves a configuration on the node that cannot be written out. */
  predicate Reached(cx: Context, now: Document, before: Document, ps: seq<Patch>) {
    now == before || PatchLive(cx, before, ps) == Push(now)
  }

  /** The patches of the start were not pushed yet, or pushed only themselves. */
  predicate StillHeld(cx: Context, now: Machine, m: Machine)
    requires m.patches.Some?
  {
    if CountsAsApplied(m) then now.state == m.state else Reached(cx, now.live, m.live, m.patches.value)
  }

  /** Where the entry and the patches of a later state come from, and what the node can hold. */
  predicate Accounted(cx: Context, now: Machine, m: Machine, cur: string, des: string) {
    && (now.entry.None? || now.entry == m.entry || now.entry == Some(cur))
    && (now.patches.Some? ==>
          || now.patches == Derive(cx.codec, cur, des)
          || now.patches == Recover(cx, m.entry, true, des)
          || (now.patches == m.patches && StillHeld(cx, now, m)))
    && Reached(cx, now.live, m.live, Intended(cx, cur, des))
  }

  /** Pushing a list on what it has reached leads to what it can reach. */
  lemma ReachedAgain(cx: Context, now: Document, before: Document, ps: seq<Patch>)
    requires Reached(cx, now, before, ps)
    ensures var plan := PatchLive(cx, now, ps); plan.Push? ==> Reached(cx, plan.config, before, ps)
  {
    if now != before {
      ApplyTwice(before, ps);
    }
  }

  /** A plan that leads nowhere new leads to something that can be written out. */
  lemma NowhereNewIsReached(cx: Context, live: Document, xs: seq<Patch>, before: Document, ps: seq<Patch>)
    requires LeadsNowhereNew(PatchLive(cx, live, xs), before, ps)
    ensures var plan := PatchLive(cx, live, xs); plan.Push? ==> Reached(cx, plan.config, before, ps)
  {
  }

  /** The strategic plan pushes some list of patches. */
  lemma StrategicPlanIsPatchLive(cx: Context, live: Document, des: string) returns (xs: seq<Patch>)
    ensures var plan := StrategicPlan(cx, live, des); plan.Push? ==> plan == PatchLive(cx, live, xs)
  {
    var texts := StrategicPatches(cx.codec, des);
    xs := if texts.Ok? && LoadAll(cx.codec, texts.value).Ok? then LoadAll(cx.codec, texts.value).value else [];
  }

  lemma HarmlessHere(cx: Context, live: Document, m: Machine, cur: string, des: string)
    requires Harmless(cx, m, cur, des) && Reached(cx, live, m.live, Intended(cx, cur, des))
    ensures HarmlessAt(cx, m, live, des, Intended(cx, cur, des))
  {
  }

  /** A list in memory from the start can be pushed as often as it likes. */
  lemma HeldPushIsReached(cx: Context, live: Document, m: Machine, cur: string, des: string)
    requires Harmless(cx, m, cur, des) && m.patches.Some? && !CountsAsApplied(m)
    requires Reached(cx, live, m.live, m.patches.value)
    ensures var plan := PatchLive(cx, live, m.patches.value);
      plan.Push? ==>
        Reached(cx, plan.config, m.live, m.patches.value) && Reached(cx, plan.config, m.live, Intended(cx, cur, des))
  {
    ReachedAgain(cx, live, m.live, m.patches.value);
    NowhereNewIsReached(cx, m.live, m.patches.value, m.live, Intended(cx, cur, des));
    hide PatchLive, Intended;
  }

  /** What a call finds is this change, the entry there was at the start, or what memory held then. */
  predicate Known(cx: Context, found: Option<seq<Patch>>, now: Machine, m: Machine, cur: string, des: string) {
    || found == Derive(cx.codec, cur, des)
    || found == Recover(cx, m.entry, true, des)
    || (found == now.patches == m.patches && m.patches.Some? && !CountsAsApplied(m)
        && Reached(cx, now.live, m.live, m.patches.value))
  }

  lemma FoundIsKnown(cx: Context, now: Machine, m: Machine, c: Call, cur: string, des: string)
    requires c.desired == des && Accounted(cx, now, m, cur, des) && !CountsAsApplied(now)
    ensures var found := FindPatches(cx, now, c); found.Some? ==> Known(cx, found, now, m, cur, des)
  {
    hide Derive, Reached;
  }

  /** Whatever a call would push is the original configuration or the patched one. */
  lemma AccountedPlan(cx: Context, now: Machine, m: Machine, c: Call, cur: string, des: string)
    requires c.desired == des && Harmless(cx, m, cur, des) && Accounted(cx, now, m, cur, des)
    requires !CountsAsApplied(now)
    ensures var plan := PlanFor(cx, now, c); plan.Push? ==> Reached(cx, plan.config, m.live, Intended(cx, cur, des))
    ensures var found, plan := FindPatches(cx, now, c), PlanFor(cx, now, c);
      plan.Push? && found.Some? && found == now.patches == m.patches ==>
        || found == Derive(cx.codec, cur, des)
        || found == Recover(cx, m.entry, true, des)
        || Reached(cx, plan.config, m.live, m.patches.value)
  {
    var found, ps := FindPatches(cx, now, c), Intended(cx, cur, des);
    FoundIsKnown(cx, now, m, c, cur, des);
    HarmlessHere(cx, now.live, m, cur, des);
    if found.None? {
      var xs := StrategicPlanIsPatchLive(cx, now.live, des);
      hide StrategicPlan, FindPatches, Recover, Intended, Harmless, Accounted, PatchLive;
      if PlanFor(cx, now, c).Push? {
        NowhereNewIsReached(cx, now.live, xs, m.live, ps);
      }
    } else if found == Derive(cx.codec, cur, des) {
      assert found.value == ps;
      hide StrategicPlan, FindPatches, Recover, Intended, Harmless, PatchLive;
      ReachedAgain(cx, now.live, m.live, ps);
    } else if found == Recover(cx, m.entry, true, des) {
      hide StrategicPlan, FindPatches, Recover, Intended, Harmless, Accounted, PatchLive;
      NowhereNewIsReached(cx, now.live, found.value, m.live, ps);
    } else {
      hide StrategicPlan, FindPatches, Recover, Intended, Accounted, PatchLive;
      HeldPushIsReached(cx, now.live, m, cur, des);
    }
  }

  /** While the record counts as applied a call does nothing, or forgets record and patches. */
  lemma AppliedCall(cx: Context, m: Machine, c: Call)
    requires CountsAsApplied(m)
    ensures var r := UpdateMachine(cx, m, c); r.attempt.None? && (r.machine == m || r.machine == Forget(m))
  {
    hide TryToApply;
  }

  lemma HarmlessCall(cx: Context, now: Machine, c: Call, m: Machine, cur: string, des: string)
    requires c.desired == des && Harmless(cx, m, cur, des) && Accounted(cx, now, m, cur, des)
    ensures Accounted(cx, UpdateMachine(cx, now, c).machine, m, cur, des)
  {
    hide UpdateMachine, Derive, PatchLive, PlanFor, Intended, Harmless, Recover, Reached;
    if CountsAsApplied(now) {
      AppliedCall(cx, now, c);
    } else {
      CallEffect(cx, now, c);
      FoundIsKnown(cx, now, m, c, cur, des);
      AccountedPlan(cx, now, m, c, cur, des);
    }
  }

  lemma HarmlessStep(cx: Context, now: Machine, i: Input, m: Machine, cur: string, des: string)
    requires SameChange([i], cur, des) && Harmless(cx, m, cur, des) && Accounted(cx, now, m, cur, des)
    ensures Accounted(cx, Step(cx, now, i), m, cur, des)
  {
    assert i in [i];
    if i.Update? {
      hide Accounted, Harmless, UpdateMachine;
      HarmlessCall(cx, now, i.call, m, cur, des);
    } else {
      hide Derive, PatchLive, Intended, Harmless, Recover, Reached;
    }
  }

  lemma {:induction false} HarmlessRun(cx: Context, m: Machine, inputs: seq<Input>, cur: string, des: string)
    requires SameChange(inputs, cur, des) && Harmless(cx, m, cur, des)
    ensures Accounted(cx, Run(cx, m, inputs), m, cur, des)
    decreases |inputs|
  {
    if inputs != [] {
      var n := |inputs| - 1;
      HarmlessRun(cx, m, inputs[..n], cur, des);
      HarmlessStep(cx, Run(cx, m, inputs[..n]), inputs[n], m, cur, des);
    }
  }

  // ---------------------------------------------------------------- exactly once

  /** Whichever way a call finds its configuration, it is the live one with the intended change. */
  lemma IntendedIsPlanned(cx: Context, m: Machine, c: Call, cur: string, des: string)
    requires OneStyle(cx, cur, des) && OnlyThisChange(cx, m, cur, des) && c.desired == des
    ensures var plan := PlanFor(cx, m, c);
      plan.Push? ==> Some(plan.config) == Apply(m.live, Intended(cx, cur, des))
    ensures var found := FindPatches(cx, m, c);
      found.Some? ==> found == Derive(cx.codec, cur, des)
  {
    hide Apply;
    hide Derive;
    hide StrategicPatches;
    hide LoadAll;
  }

  /** One style and nothing of another change: then nothing else can be pushed. */
  lemma OneStyleIsHarmless(cx: Context, m: Machine, cur: string, des: string)
    requires OneStyle(cx, cur, des) && OnlyThisChange(cx, m, cur, des)
    ensures Harmless(cx, m, cur, des)
  {
    var ps := Intended(cx, cur, des);
    var plan := PatchLive(cx, m.live, ps);
    if plan.Push? {
      ApplyTwice(m.live, ps);
    }
    hide Derive, Apply, StrategicPatches, LoadAll;
  }

  /**
   Under any mix of retries, lost replies, duplicate calls, recorded intents and pod
   restarts, the node's configuration is the original one or the original with the change
   applied exactly once.
   */
  lemma AtLeastOnceActsAsExactlyOnce(cx: Context, m: Machine, inputs: seq<Input>, cur: string, des: string)
    requires SameChange(inputs, cur, des) && OneStyle(cx, cur, des)
    requires OnlyThisChange(cx, m, cur, des)
    ensures OnlyThisChange(cx, Run(cx, m, inputs), cur, des)
    ensures OriginalOrPatched(Run(cx, m, inputs).live, m.live, Intended(cx, cur, des))
  {
    OneStyleIsHarmless(cx, m, cur, des);
    HarmlessRun(cx, m, inputs, cur, des);
    hide Derive, Harmless, Run, Intended;
  }

  /** Once the change is on the node, nothing in the run takes it off again. */
  lemma PatchedStaysPatched(cx: Context, m: Machine, done: seq<Input>, more: seq<Input>, cur: string, des: string)
    requires SameChange(done + more, cur, des) && OneStyle(cx, cur, des)
    requires OnlyThisChange(cx, m, cur, des)
    requires Some(Run(cx, m, done).live) == Apply(m.live, Intended(cx, cur, des))
    ensures Some(Run(cx, m, done + more).live) == Apply(m.live, Intended(cx, cur, des))
  {
    var ps := Intended(cx, cur, des);
    assert forall i :: i in done || i in more ==> i in done + more;
    RunAppend(cx, m, done, more);
    AtLeastOnceActsAsExactlyOnce(cx, m, done, cur, des);
    AtLeastOnceActsAsExactlyOnce(cx, Run(cx, m, done), more, cur, des);
    ApplyTwice(m.live, ps);
  }

  // ---------------------------------------------------------------- the exact condition

  /** Every run about this change leaves the original configuration or the patched one. */
  ghost predicate NeverWrong(cx: Context, m: Machine, cur: string, des: string) {
    forall inputs: seq<Input> :: SameChange(inputs, cur, des) ==>
      OriginalOrPatched(Run(cx, m, inputs).live, m.live, Intended(cx, cur, des))
  }

  /** A call whose push is accepted but whose cleanup fails, with or without a readable cache. */
  function Probe(des: string, at: int, cacheRead: bool): Input {
    Update(Call("10.0.0.1", map[], des, at, at, true, cacheRead, Written, true, Refused))
  }

  lemma ProbePushes(cx: Context, m: Machine, des: string, at: int, cacheRead: bool)
    requires m.state.Some? ==> !m.state.value.applied && at == m.state.value.startedAt
    ensures var probe := Probe(des, at, cacheRead);
      var plan, after := PlanFor(cx, m, probe.call), Step(cx, m, probe);
      plan.Push? ==> after.live == plan.config && after.entry == m.entry
  {
    hide PlanFor;
  }

  lemma InRun(cx: Context, m: Machine, inputs: seq<Input>, i: Input, cur: string, des: string)
    requires SameChange(inputs, cur, des) && SameChange([i], cur, des)
    ensures SameChange(inputs + [i], cur, des)
    ensures Run(cx, m, inputs + [i]) == Step(cx, Run(cx, m, inputs), i)
  {
    assert i in [i];
    assert (inputs + [i])[..|inputs|] == inputs;
  }

  /** With nothing in memory, a readable entry decides what is pushed, and otherwise the strategic patches. */
  lemma ProbePlan(cx: Context, m: Machine, bare: Machine, des: string, older: bool)
    requires bare.patches.None? && bare.entry == m.entry
    requires older ==> OlderPlan(cx, m, bare.live, des).Push?
    ensures PlanFor(cx, bare, Probe(des, 0, older).call)
         == if older then OlderPlan(cx, m, bare.live, des) else StrategicPlan(cx, bare.live, des)
  {
    hide Derive, PatchLive, StrategicPlan;
  }

  lemma AboutThisChange(cur: string, des: string, at: int, cacheRead: bool)
    ensures SameChange([Restart], cur, des) && SameChange([Probe(des, at, cacheRead)], cur, des)
    ensures SameChange([CanUpdate(Intent(cur, des, false, Refused))], cur, des) && SameChange([], cur, des)
  {
  }

  lemma OneWrongRun(cx: Context, m: Machine, inputs: seq<Input>, cur: string, des: string)
    requires SameChange(inputs, cur, des)
    requires !OriginalOrPatched(Run(cx, m, inputs).live, m.live, Intended(cx, cur, des))
    ensures !NeverWrong(cx, m, cur, des)
  {
    hide Run, Intended, OriginalOrPatched, SameChange;
  }

  /** From any machine of a run that still has the entry of the start, what is harmful can be pushed. */
  lemma HarmFrom(cx: Context, m: Machine, inputs: seq<Input>, cur: string, des: string)
    requires SameChange(inputs, cur, des) && Run(cx, m, inputs).entry == m.entry
    requires !HarmlessAt(cx, m, Run(cx, m, inputs).live, des, Intended(cx, cur, des))
    ensures !NeverWrong(cx, m, cur, des)
  {
    assert Step(cx, Run(cx, m, inputs), Restart) == Forget(Run(cx, m, inputs));
    hide PlanFor, OlderPlan, StrategicPlan, Intended, Step, Run, OriginalOrPatched, Probe, SameChange, NeverWrong;
    var bare := Forget(Run(cx, m, inputs));
    var older := !LeadsNowhereNew(OlderPlan(cx, m, bare.live, des), m.live, Intended(cx, cur, des));
    var probe := Probe(des, 0, older);
    AboutThisChange(cur, des, 0, older);
    ProbePlan(cx, m, bare, des, older);
    ProbePushes(cx, bare, des, 0, older);
    InRun(cx, m, inputs, Restart, cur, des);
    InRun(cx, m, inputs + [Restart], probe, cur, des);
    OneWrongRun(cx, m, inputs + [Restart] + [probe], cur, des);
  }

  /** A machine that remembers nothing, or only this change, pushes it if the call reads no older entry. */
  lemma IntendedProbe(cx: Context, m: Machine, stored: Machine, cur: string, des: string)
    requires stored == Forget(m).(patches := Derive(cx.codec, cur, des))
    requires PatchLive(cx, m.live, Intended(cx, cur, des)).Push? && Intended(cx, cur, des) != []
    ensures PlanFor(cx, stored, Probe(des, 0, false).call) == PatchLive(cx, m.live, Intended(cx, cur, des))
  {
    hide PatchLive, Derive, StrategicPatches;
  }

  /** The patched configuration can be reached with the entry of the start still there. */
  lemma PatchedIsReachable(cx: Context, m: Machine, cur: string, des: string) returns (inputs: seq<Input>)
    requires PatchLive(cx, m.live, Intended(cx, cur, des)).Push?
    ensures SameChange(inputs, cur, des)
    ensures Run(cx, m, inputs).entry == m.entry
    ensures Run(cx, m, inputs).live == PatchLive(cx, m.live, Intended(cx, cur, des)).config
  {
    inputs := [];
    assert Run(cx, m, inputs) == m;
    if Intended(cx, cur, des) == [] {
      assert PatchLive(cx, m.live, []).config == m.live;
      return;
    }
    var record, probe := CanUpdate(Intent(cur, des, false, Refused)), Probe(des, 0, false);
    var stored := Forget(m).(patches := Derive(cx.codec, cur, des));
    assert Step(cx, m, Restart) == Forget(m) && Step(cx, Forget(m), record) == stored;
    hide Run, Step, PlanFor, PatchLive, Derive, Intended, SameChange, Probe;
    AboutThisChange(cur, des, 0, false);
    InRun(cx, m, inputs, Restart, cur, des);
    InRun(cx, m, inputs + [Restart], record, cur, des);
    InRun(cx, m, inputs + [Restart] + [record], probe, cur, des);
    IntendedProbe(cx, m, stored, cur, des);
    ProbePushes(cx, stored, des, 0, false);
    inputs := inputs + [Restart] + [record] + [probe];
  }

  /** What memory holds at the start can be pushed at once. */
  lemma HeldIsPushed(cx: Context, m: Machine, cur: string, des: string)
    requires !LeadsNowhereNew(HeldPlan(cx, m), m.live, Intended(cx, cur, des))
    ensures !NeverWrong(cx, m, cur, des)
  {
    var start: seq<Input> := [];
    var probe := Probe(des, if m.state.Some? then m.state.value.startedAt else 0, true);
    assert Run(cx, m, start) == m && HeldPlan(cx, m) == PlanFor(cx, m, probe.call);
    AboutThisChange(cur, des, probe.call.start, true);
    hide PlanFor, HeldPlan, Intended, Step, Run, SameChange, NeverWrong, OriginalOrPatched;
    ProbePushes(cx, m, des, probe.call.start, true);
    InRun(cx, m, start, probe, cur, des);
    OneWrongRun(cx, m, start + [probe], cur, des);
  }

  /**
   The exact condition, in whatever state the machine is, whatever memory and cache hold
   and in whatever style the change is written: all runs leave the original or the patched
   configuration if and only if the patches held in memory, the entry in the cache and the
   strategic patches, planned on these two, lead nowhere else.
   */
  lemma ExactlyOnceExactlyWhen(cx: Context, m: Machine, cur: string, des: string)
    ensures NeverWrong(cx, m, cur, des) <==> Harmless(cx, m, cur, des)
  {
    var ps := Intended(cx, cur, des);
    if Harmless(cx, m, cur, des) {
      forall inputs: seq<Input> | SameChange(inputs, cur, des)
        ensures OriginalOrPatched(Run(cx, m, inputs).live, m.live, ps)
      {
        HarmlessRun(cx, m, inputs, cur, des);
      }
    } else if !LeadsNowhereNew(HeldPlan(cx, m), m.live, ps) {
      HeldIsPushed(cx, m, cur, des);
    } else if !HarmlessAt(cx, m, m.live, des, ps) {
      var start: seq<Input> := [];
      assert Run(cx, m, start) == m;
      HarmFrom(cx, m, start, cur, des);
    } else {
      var inputs := PatchedIsReachable(cx, m, cur, des);
      HarmFrom(cx, m, inputs, cur, des);
    }
  }

  // ---------------------------------------------------------------- an older entry

  /** A recording that reaches the cache makes the change the only one, whatever memory and cache held before. */
  lemma RecordingTakesOver(cx: Context, m: Machine, i: Intent)
    requires cx.hasStore && i.persistRead && i.persistWrite != Refused
    requires Derive(cx.codec, i.current, i.desired).Some?
    ensures OnlyThisChange(cx, StoreDiff(cx, m, i), i.current, i.desired)
    ensures OneStyle(cx, i.current, i.desired) ==> Harmless(cx, StoreDiff(cx, m, i), i.current, i.desired)
  {
    hide Derive, Harmless, OneStyle;
    if OneStyle(cx, i.current, i.desired) {
      OneStyleIsHarmless(cx, StoreDiff(cx, m, i), i.current, i.desired);
    }
  }

  /** One that does not reach it leaves the older entry to decide after a restart. */
  lemma OlderEntryIsPushed(cx: Context, m: Machine, i: Intent, stale: string, c: Call, ps: seq<Patch>)
    requires cx.hasStore && m.entry == Some(stale) && i.persistWrite == Refused
    requires c.address != "" && c.nodeRead && c.cacheRead && c.desired == i.desired
    requires Derive(cx.codec, stale, i.desired) == Some(ps)
    ensures var r := UpdateMachine(cx, Forget(StoreDiff(cx, m, i)), c);
      if Applicable(cx, m.live, ps) then r.attempt.Some? && Some(r.attempt.value.config) == Apply(m.live, ps)
      else r.attempt.None? && r.machine.live == m.live
  {
    hide Derive, Apply, StrategicPlan;
  }

  // ---------------------------------------------------------------- an object in both styles that does harm

  function TwoStyleCodec(): Codec {
    Codec(
      (s: string) =>
        if s == "current" then Some(Obj(map["spec" := Obj(map["talosConfig" := Str("one")])]))
        else Some(Obj(map["spec" := Obj(map["talosConfig" := Str("two"), "strategicPatches" := Arr([Str("extra")])])])),
      (j: Json) => "",
      (s: string) => Some(map["a" := Leaf(s)]),
      (s: string) => Some(Edit(map["b" := Put(s)])),
      (d: Document) => true)
  }

  const ONE: Document := map["a" := Leaf("one")]
  const TWO: Document := map["a" := Leaf("two")]
  const EXTRA := Edit(map["b" := Put("extra")])

  lemma TwoStyleDiff()
    ensures Derive(TwoStyleCodec(), "current", "desired") == Some(DiffList(ONE, TWO))
    ensures Apply(ONE, DiffList(ONE, TWO)) == Some(TWO)
  {
    DiffListRoundTrip(ONE, TWO);
    hide Apply, DiffList;
    assert ParsedConfig(TwoStyleCodec(), "current") == Some(ONE);
    assert ParsedConfig(TwoStyleCodec(), "desired") == Some(TWO);
    hide ParsedConfig;
  }

  lemma TwoStyleTexts()
    ensures StrategicPatches(TwoStyleCodec(), "desired") == Ok(["extra"])
  {
    var items := [Str("extra")];
    assert items[..0] == [];
    assert Strings(items) == ["extra"];
    hide Strings;
  }

  lemma TwoStylePatches()
    ensures LoadAll(TwoStyleCodec(), ["extra"]) == Ok([EXTRA])
  {
    var texts := ["extra"];
    assert texts[..0] == [];
    assert LoadAll(TwoStyleCodec(), texts[..0]) == Ok([]);
    assert TwoStyleCodec().loadPatch(texts[0]) == Some(EXTRA);
    assert [] + [EXTRA] == [EXTRA];
  }

  /** The extra patch makes a document that neither style asks for. */
  lemma ExtraIsNeither() returns (both: Document)
    ensures Apply(TWO, [EXTRA]) == Some(both) && both != ONE && both != TWO
  {
    both := Merge(Some(Node(TWO)), EXTRA).value.fields;
    MergeEditAt(Some(Node(TWO)), EXTRA.changes, "b");
    assert Apply(TWO, [EXTRA]) == Apply(both, []);
    assert "b" in both && "b" !in ONE && "b" !in TWO;
  }

  /**
   A desired object in both styles breaks the guarantee: the recorded change is pushed,
   its record is dropped, the pod restarts, and the next call pushes the strategic patches
   on top.
   */
  lemma BothStylesPushTwoChanges() returns (cx: Context, m: Machine, inputs: seq<Input>)
    ensures SameChange(inputs, "current", "desired")
    ensures m.state.None? && OnlyThisChange(cx, m, "current", "desired")
    ensures !OneStyle(cx, "current", "desired")
    ensures !OriginalOrPatched(Run(cx, m, inputs).live, m.live, Intended(cx, "current", "desired"))
  {
    cx := Context(TwoStyleCodec(), true);
    m := Machine(None, None, None, ONE);
    var call := Call("10.0.0.1", map[], "desired", 0, 0, true, true, Written, true, Written);
    var intent := Intent("current", "desired", true, Written);
    TwoStyleDiff();
    TwoStyleTexts();
    TwoStylePatches();
    var both := ExtraIsNeither();
    hide Derive;
    hide StrategicPatches;
    hide LoadAll;
    hide Apply;
    inputs := [CanUpdate(intent), Update(call), Restart, Update(call)];
    var recorded := Machine(None, Some(DiffList(ONE, TWO)), Some("current"), ONE);
    var pushed := Machine(Some(UpdateState(0, true)), None, None, TWO);
    var bare := Machine(None, None, None, TWO);
    assert Step(cx, m, CanUpdate(intent)) == recorded;
    assert Step(cx, recorded, Update(call)) == pushed;
    assert Step(cx, bare, Update(call)).live == both;
    RunThrough(cx, m, inputs, [m, recorded, pushed, bare, Step(cx, bare, Update(call))]);
  }
}
