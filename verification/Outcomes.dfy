/**
 What one call does and answers, case by case and for all machines and calls. Everything
 is said of the request, the record, the decoded texts and the live configuration, and in
 the units and names of the outside world.
 */
module Outcomes {
  import opened Wrappers
  import opened Json
  import opened ConfigTree
  import opened PatchList
  import opened Bootstrap
  import opened Engine

  // ---------------------------------------------------------------- before anything is pushed

  /** The time since the start of the open cycle, in nanoseconds. */
  function Elapsed(m: Machine, c: Call): int
    requires m.state.Some?
  {
    c.start - m.state.value.startedAt
  }

  /** Without an address, whatever the record says, the call fails and leaves everything as it is. */
  lemma NoAddressIsFailure(cx: Context, m: Machine, c: Call)
    ensures var r := UpdateMachine(cx, m, c);
      && (r.reply.message == NoAddress <==> c.address == "")
      && (c.address == "" ==> r == CallResult(m, Reply(Failure, NoAddress, 0), None))
  {
    hide Apply, Derive, StrategicPatches, LoadAll, Cleaned;
  }

  /**
   What the clock decides: more than five minutes after its start a cycle is given up;
   until then one that counts as applied is done after more than thirty seconds, and
   settling before.
   */
  lemma ClockDecides(cx: Context, m: Machine, c: Call)
    requires c.address != "" && m.state.Some?
    ensures var r, elapsed, applied := UpdateMachine(cx, m, c), Elapsed(m, c), m.state.value.applied;
      && (r.reply.message == TimedOut <==> elapsed > 300_000_000_000)
      && (r.reply.message == Complete <==> applied && 30_000_000_000 < elapsed <= 300_000_000_000)
      && (r.reply.message == Settling <==> applied && elapsed <= 30_000_000_000)
      && (r.reply.message == TimedOut ==>
            r == CallResult(Machine(None, None, m.entry, m.live), Reply(Failure, TimedOut, 0), None))
      && (r.reply.message == Complete ==>
            r == CallResult(Machine(None, None, m.entry, m.live), Reply(Success, Complete, 0), None))
      && (r.reply.message == Settling ==> r == CallResult(m, Reply(Success, Settling, 15), None))
  {
    hide Apply, Derive, StrategicPatches, LoadAll, Cleaned;
  }

  /** The call has an address, and no record that is applied or older than five minutes. */
  predicate Proceeds(m: Machine, c: Call) {
    c.address != "" && (m.state.Some? ==> !m.state.value.applied && Elapsed(m, c) <= 300_000_000_000)
  }

  lemma UnreadableNodeIsFailure(cx: Context, m: Machine, c: Call)
    requires Proceeds(m, c) && !c.nodeRead
    ensures UpdateMachine(cx, m, c) == CallResult(m, Reply(Failure, NodeReadFailed, 0), None)
  {
    hide PlanFor, FindPatches;
  }

  // ---------------------------------------------------------------- when a configuration is pushed

  /** A configuration was sent, with all that follows from how the node answered. */
  predicate Sent(cx: Context, m: Machine, c: Call, kept: Option<seq<Patch>>, config: Document, r: CallResult) {
    var mode := if "cluster.x-k8s.io/control-plane" in c.labels then NoReboot else Auto;
    && r.attempt == Some(Attempt(config, mode, c.apply, c.finish))
    && match c.apply
       case Written =>
         && r.reply == Reply(Success, Applied, 15)
         && r.machine.state == Some(UpdateState(c.finish, true)) && r.machine.patches == None
         && r.machine.entry == (if cx.hasStore && c.cleanupRead && c.cleanupWrite != Refused then None else m.entry)
         && r.machine.live == config
       case _ =>
         && r.reply == Reply(Success, WillRetry, 15)
         && r.machine.state == (if m.state.Some? then m.state else Some(UpdateState(c.finish, false)))
         && r.machine.patches == kept && r.machine.entry == m.entry
         && r.machine.live == if c.apply == Refused then m.live else config
  }

  /** Nothing was sent and the call fails; patches that were found stay in memory. */
  predicate Failed(m: Machine, kept: Option<seq<Patch>>, message: Message, r: CallResult) {
    r == CallResult(Machine(m.state, kept, m.entry, m.live), Reply(Failure, message, 0), None)
  }

  /** Patches meet the live configuration: they are sent when the result can be written out, and only then. */
  predicate Carried(cx: Context, m: Machine, c: Call, kept: Option<seq<Patch>>, ps: seq<Patch>, r: CallResult) {
    match Apply(m.live, ps)
    case None => Failed(m, kept, PatchNotApplicable, r)
    case Some(config) =>
      if cx.codec.encodable(config) then Sent(cx, m, c, kept, config, r) else Failed(m, kept, NotEncodable, r)
  }

  /** The cache entry and the desired object both carry a configuration, and this is their difference. */
  ghost predicate Recovered(cx: Context, m: Machine, c: Call, ps: seq<Patch>) {
    && cx.hasStore && c.cacheRead && m.entry.Some?
    && exists cur, des ::
         ConfigIs(cx.codec, m.entry.value, cur) && ConfigIs(cx.codec, c.desired, des) && ps == DiffList(cur, des)
  }

  lemma RecoverExactlyWhen(cx: Context, m: Machine, c: Call, ps: seq<Patch>)
    ensures Recover(cx, m.entry, c.cacheRead, c.desired) == Some(ps) <==> Recovered(cx, m, c, ps)
  {
    hide Derive, ConfigIs;
    if m.entry.Some? {
      DeriveExactlyWhen(cx.codec, m.entry.value, c.desired, ps);
    }
  }

  /** What happens once there is a list of patches and the node has been read. */
  lemma PatchesAreCarried(cx: Context, m: Machine, c: Call, ps: seq<Patch>)
    requires Proceeds(m, c) && c.nodeRead && FindPatches(cx, m, c) == Some(ps)
    ensures Carried(cx, m, c, Some(ps), ps, UpdateMachine(cx, m, c))
  {
    hide FindPatches, Apply;
  }

  /** Patches in memory are carried out, whatever the cache and the desired object say. */
  lemma PatchesInMemoryDecide(cx: Context, m: Machine, c: Call)
    requires Proceeds(m, c) && c.nodeRead && m.patches.Some?
    ensures Carried(cx, m, c, m.patches, m.patches.value, UpdateMachine(cx, m, c))
  {
    hide UpdateMachine, Carried;
    PatchesAreCarried(cx, m, c, m.patches.value);
  }

  /** Without them, what the cache gives back is carried out and kept in memory. */
  lemma RecoveredPatchesDecide(cx: Context, m: Machine, c: Call, ps: seq<Patch>)
    requires Proceeds(m, c) && c.nodeRead && m.patches.None? && Recovered(cx, m, c, ps)
    ensures Carried(cx, m, c, Some(ps), ps, UpdateMachine(cx, m, c))
  {
    RecoverExactlyWhen(cx, m, c, ps);
    hide UpdateMachine, Carried, Recover, Recovered;
    PatchesAreCarried(cx, m, c, ps);
  }

  // ---------------------------------------------------------------- the strategic patches

  /** The elements of the desired object's `strategicPatches`, of whatever kind. */
  ghost predicate ItemsAre(codec: Codec, raw: string, items: seq<Json>) {
    exists spec :: SpecIs(codec, raw, spec) && Get(spec, "strategicPatches") == Some(Arr(items))
  }

  predicate Loads(codec: Codec, item: Json) {
    item.Str? && codec.loadPatch(item.s).Some?
  }

  /** These are the positions of the string elements, in array order. */
  ghost predicate TextPositions(items: seq<Json>, at: seq<nat>) {
    && (forall i :: 0 <= i < |at| ==> at[i] < |items| && items[at[i]].Str?)
    && (forall i, j :: 0 <= i < j < |at| ==> at[i] < at[j])
    && (forall n :: 0 <= n < |items| && items[n].Str? ==> n in at)
  }

  /** The patches loaded from exactly the string elements, in array order. */
  ghost predicate LoadedInOrder(codec: Codec, items: seq<Json>, at: seq<nat>, ps: seq<Patch>) {
    && TextPositions(items, at) && |at| == |ps|
    && (forall i :: 0 <= i < |at| ==> codec.loadPatch(items[at[i]].s) == Some(ps[i]))
  }

  /** The first string element that is not a patch, counted among the string elements. */
  ghost predicate FirstUnloadable(codec: Codec, items: seq<Json>, at: seq<nat>, i: nat)
    requires TextPositions(items, at)
  {
    i < |at| && !Loads(codec, items[at[i]]) && forall j :: 0 <= j < i ==> Loads(codec, items[at[j]])
  }

  /** What a desired object's strategic patches lead to. */
  ghost predicate TemplateCarried(cx: Context, m: Machine, c: Call, items: seq<Json>, at: seq<nat>, r: CallResult) {
    && TextPositions(items, at)
    && (at == [] ==> NothingSent(m, c, r))
    && (forall ps :: LoadedInOrder(cx.codec, items, at, ps) && ps != [] ==> Carried(cx, m, c, None, ps, r))
    && (forall i :: FirstUnloadable(cx.codec, items, at, i) ==> Failed(m, None, PatchNotLoaded(i), r))
  }

  /** With nothing to send the cycle counts as applied from the end of the call. */
  predicate NothingSent(m: Machine, c: Call, r: CallResult) {
    r == CallResult(Machine(Some(UpdateState(c.finish, true)), None, m.entry, m.live),
                    Reply(Success, NothingToApply, 15), None)
  }

  lemma StrategicCall(cx: Context, m: Machine, c: Call)
    requires Proceeds(m, c) && c.nodeRead && FindPatches(cx, m, c).None?
    ensures var r, texts := UpdateMachine(cx, m, c), StrategicPatches(cx.codec, c.desired);
      if texts.Err? then Failed(m, None, BadStrategicPatches(texts.error), r)
      else if texts.value == [] then NothingSent(m, c, r)
      else
        var loaded := LoadAll(cx.codec, texts.value);
        if loaded.Err? then Failed(m, None, PatchNotLoaded(loaded.error), r)
        else Carried(cx, m, c, None, loaded.value, r)
  {
    hide Apply, StrategicPatches, LoadAll, Recover;
  }

  lemma SameInOrder(codec: Codec, items: seq<Json>, at: seq<nat>, ps: seq<Patch>, qs: seq<Patch>)
    requires LoadedInOrder(codec, items, at, ps) && LoadedInOrder(codec, items, at, qs)
    ensures ps == qs
  {
    assert forall i :: 0 <= i < |at| ==> ps[i] == qs[i];
  }

  /** Loading the string elements, in terms of the elements. */
  lemma StringsLoad(codec: Codec, items: seq<Json>) returns (at: seq<nat>)
    ensures TextPositions(items, at) && |at| == |Strings(items)|
    ensures var loaded := LoadAll(codec, Strings(items));
      if loaded.Ok? then
        LoadedInOrder(codec, items, at, loaded.value) && forall i :: !FirstUnloadable(codec, items, at, i)
      else
        && FirstUnloadable(codec, items, at, loaded.error)
        && (forall j :: FirstUnloadable(codec, items, at, j) ==> j == loaded.error)
        && (forall qs :: !LoadedInOrder(codec, items, at, qs))
  {
    at := StringsPositions(items);
    LoadAllElementwise(codec, Strings(items));
    hide Strings, LoadAll;
  }

  lemma TemplateCases(cx: Context, m: Machine, c: Call, items: seq<Json>) returns (at: seq<nat>)
    requires Proceeds(m, c) && c.nodeRead && FindPatches(cx, m, c).None? && ItemsAre(cx.codec, c.desired, items)
    ensures TemplateCarried(cx, m, c, items, at, UpdateMachine(cx, m, c))
  {
    var spec :| SpecIs(cx.codec, c.desired, spec) && Get(spec, "strategicPatches") == Some(Arr(items));
    StrategicPatchesCases(cx.codec, c.desired);
    at := StringsLoad(cx.codec, items);
    StrategicCall(cx, m, c);
    hide UpdateMachine, Carried, FindPatches, Strings, LoadAll, Loads, StrategicPatches, TextPositions, Failed;
    hide FirstUnloadable;
    var loaded := LoadAll(cx.codec, Strings(items));
    if loaded.Ok? {
      forall ps | LoadedInOrder(cx.codec, items, at, ps) ensures ps == loaded.value {
        SameInOrder(cx.codec, items, at, ps, loaded.value);
      }
    }
  }

  /** What the text of the desired object leads to, when there are no other patches. */
  ghost predicate DesiredCarried(cx: Context, m: Machine, c: Call, r: CallResult) {
    var decoded := cx.codec.decode(c.desired);
    if c.desired == "" then NothingSent(m, c, r)
    else if decoded.None? || !(decoded.value.Obj? || decoded.value.Null?) then
      Failed(m, None, BadStrategicPatches(NotAnObject), r)
    else
      && ((forall spec :: !SpecIs(cx.codec, c.desired, spec)) ==> Failed(m, None, BadStrategicPatches(NoSpec), r))
      && (forall spec: map<string, Json> :: SpecIs(cx.codec, c.desired, spec) ==>
            && ("strategicPatches" !in spec ==> NothingSent(m, c, r))
            && ("strategicPatches" in spec && !spec["strategicPatches"].Arr? ==>
                  Failed(m, None, BadStrategicPatches(NotAnArray), r)))
      && (forall items :: ItemsAre(cx.codec, c.desired, items) ==> exists at :: TemplateCarried(cx, m, c, items, at, r))
  }

  lemma StrategicPatchesDecide(cx: Context, m: Machine, c: Call)
    requires Proceeds(m, c) && c.nodeRead
    requires m.patches.None? && forall ps :: !Recovered(cx, m, c, ps)
    ensures DesiredCarried(cx, m, c, UpdateMachine(cx, m, c))
  {
    var r := UpdateMachine(cx, m, c);
    var found := FindPatches(cx, m, c);
    if found.Some? {
      RecoverExactlyWhen(cx, m, c, found.value);
      assert false;
    }
    hide UpdateMachine, TemplateCarried, FindPatches, Carried, LoadAll, StrategicPatches, Failed, NothingSent, Strings;
    forall items | ItemsAre(cx.codec, c.desired, items) ensures exists at :: TemplateCarried(cx, m, c, items, at, r) {
      var at := TemplateCases(cx, m, c, items);
    }
    StrategicPatchesCases(cx.codec, c.desired);
    StrategicCall(cx, m, c);
  }

  // ---------------------------------------------------------------- recordings and restarts

  /**
   A recording keeps the difference of the two configurations in memory, and the current
   text in the cache if its read and write go through; unless both texts carry a
   configuration it does nothing.
   */
  lemma RecordingKeepsDifference(cx: Context, m: Machine, i: Intent)
    ensures var r := StoreDiff(cx, m, i);
      && (forall cur, des :: ConfigIs(cx.codec, i.current, cur) && ConfigIs(cx.codec, i.desired, des) ==>
            && r.patches == Some(DiffList(cur, des)) && r.state == m.state && r.live == m.live
            && r.entry ==
               if cx.hasStore && i.persistRead && i.persistWrite != Refused then Some(i.current) else m.entry)
      && ((forall cur :: !ConfigIs(cx.codec, i.current, cur)) || (forall des :: !ConfigIs(cx.codec, i.desired, des)) ==>
            r == m)
  {
    hide ConfigIs, DiffList;
    var derived := Derive(cx.codec, i.current, i.desired);
    forall cur, des | ConfigIs(cx.codec, i.current, cur) && ConfigIs(cx.codec, i.desired, des)
      ensures derived == Some(DiffList(cur, des))
    {
      DeriveExactlyWhen(cx.codec, i.current, i.desired, DiffList(cur, des));
    }
    if derived.Some? {
      DeriveExactlyWhen(cx.codec, i.current, i.desired, derived.value);
    }
    hide Derive;
  }

  /** A restart loses what is in memory and nothing else. */
  lemma RestartLosesMemory(cx: Context, m: Machine)
    ensures Step(cx, m, Restart) == Machine(None, None, m.entry, m.live)
  {
  }
}
