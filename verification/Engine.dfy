/**
 One machine's in-place update, as a state machine over values.

 A machine's volatile state is an update record and a list of patches, both lost when the
 pod restarts; its durable state is its entry in the config cache and the configuration on
 its node. What the environment decides in a call (clock readings, whether a read
 succeeds, what becomes of a write) is part of the call.
 */
module Engine {
  import opened Wrappers
  import opened ConfigTree
  import opened PatchList
  import opened Bootstrap

  /** Clock readings are in nanoseconds, as in Go's time package. */
  const SECOND: int := 1_000_000_000

  const RETRY_INTERVAL: nat := 15

  const UPDATE_TIMEOUT: int := 5 * 60 * SECOND

  const SETTLE_TIME: int := 30 * SECOND

  const CONTROL_PLANE_LABEL := "cluster.x-k8s.io/control-plane"

  /** What does not change while the extension is deployed. */
  datatype Context = Context(codec: Codec, hasStore: bool)

  datatype UpdateState = UpdateState(startedAt: int, applied: bool)

  datatype Machine = Machine(
    state: Option<UpdateState>,
    patches: Option<seq<Patch>>,
    entry: Option<string>,
    live: Document)

  /** A write may succeed, fail without effect, or take effect although the caller sees an error. */
  datatype WriteOutcome = Written | Refused | ReplyLost

  datatype Mode = Auto | NoReboot

  /** One UpdateMachine request, with everything the environment contributes to it. */
  datatype Call = Call(
    address: string,
    labels: map<string, string>,
    desired: string,
    start: int,
    finish: int,
    nodeRead: bool,
    cacheRead: bool,
    apply: WriteOutcome,
    cleanupRead: bool,
    cleanupWrite: WriteOutcome)

  /** One CanUpdateMachine request that reached the point of recording the change. */
  datatype Intent = Intent(current: string, desired: string, persistRead: bool, persistWrite: WriteOutcome)

  datatype Status = Unset | Success | Failure

  datatype Message =
    | NoAddress
    | TimedOut
    | Complete
    | Settling
    | NodeReadFailed
    | PatchNotApplicable
    | NotEncodable
    | BadStrategicPatches(error: ExtractError)
    | PatchNotLoaded(index: nat)
    | NothingToApply
    | WillRetry
    | Applied

  datatype Reply = Reply(status: Status, message: Message, retryAfter: nat)

  /** One ApplyConfiguration request to the node. */
  datatype Attempt = Attempt(config: Document, mode: Mode, outcome: WriteOutcome, at: int)

  datatype CallResult = CallResult(machine: Machine, reply: Reply, attempt: Option<Attempt>)

  function Fail(m: Machine, message: Message): CallResult {
    CallResult(m, Reply(Failure, message, 0), None)
  }

  predicate IsControlPlane(labels: map<string, string>) {
    CONTROL_PLANE_LABEL in labels
  }

  // ---------------------------------------------------------------- what to push

  datatype Plan = Push(config: Document) | Nothing | Stop(message: Message)

  /** The patches apply to the configuration and the result can be written out. */
  predicate Applicable(cx: Context, live: Document, ps: seq<Patch>) {
    Apply(live, ps).Some? && cx.codec.encodable(Apply(live, ps).value)
  }

  function PatchLive(cx: Context, live: Document, ps: seq<Patch>): Plan {
    var patched := Apply(live, ps);
    if patched.None? then Stop(PatchNotApplicable)
    else if !cx.codec.encodable(patched.value) then Stop(NotEncodable)
    else Push(patched.value)
  }

  /** Path C: the strategic patches of the desired object, on the live configuration. */
  function StrategicPlan(cx: Context, live: Document, desired: string): Plan {
    var texts := StrategicPatches(cx.codec, desired);
    if texts.Err? then Stop(BadStrategicPatches(texts.error))
    else if texts.value == [] then Nothing
    else
      var ps := LoadAll(cx.codec, texts.value);
      if ps.Err? then Stop(PatchNotLoaded(ps.error)) else PatchLive(cx, live, ps.value)
  }

  /** Path B: what the cache entry lets the handler work out again. */
  function Recover(cx: Context, entry: Option<string>, cacheRead: bool, desired: string): Option<seq<Patch>> {
    if cx.hasStore && cacheRead && entry.Some? then Derive(cx.codec, entry.value, desired) else None
  }

  /** The patches in memory after the lookup: kept (path A), recovered (path B) or none (path C). */
  function FindPatches(cx: Context, m: Machine, c: Call): Option<seq<Patch>> {
    if m.patches.Some? then m.patches else Recover(cx, m.entry, c.cacheRead, c.desired)
  }

  function PlanFor(cx: Context, m: Machine, c: Call): Plan {
    var ps := FindPatches(cx, m, c);
    if ps.Some? then PatchLive(cx, m.live, ps.value) else StrategicPlan(cx, m.live, c.desired)
  }

  // ---------------------------------------------------------------- steps

  function Cleaned(cx: Context, entry: Option<string>, c: Call): Option<string> {
    if cx.hasStore && c.cleanupRead && c.cleanupWrite != Refused then None else entry
  }

  /** Sending a configuration: the only step that touches the node. */
  function Send(cx: Context, m: Machine, config: Document, c: Call): CallResult {
    var mode := if IsControlPlane(c.labels) then NoReboot else Auto;
    var sent := Some(Attempt(config, mode, c.apply, c.finish));
    var live := if c.apply == Refused then m.live else config;
    if c.apply == Written then
      CallResult(
        Machine(Some(UpdateState(c.finish, true)), None, Cleaned(cx, m.entry, c), live),
        Reply(Success, Applied, RETRY_INTERVAL), sent)
    else
      CallResult(
        m.(live := live, state := if m.state.Some? then m.state else Some(UpdateState(c.finish, false))),
        Reply(Success, WillRetry, RETRY_INTERVAL), sent)
  }

  function TryToApply(cx: Context, m: Machine, c: Call): CallResult {
    if !c.nodeRead then Fail(m, NodeReadFailed)
    else
      var found := m.(patches := FindPatches(cx, m, c));
      match PlanFor(cx, m, c)
      case Stop(message) => Fail(found, message)
      case Nothing =>
        CallResult(found.(state := Some(UpdateState(c.finish, true))),
                   Reply(Success, NothingToApply, RETRY_INTERVAL), None)
      case Push(config) => Send(cx, found, config, c)
  }

  /** Memory of the machine is dropped: on done, on timeout, and when the pod is replaced. */
  function Forget(m: Machine): Machine {
    m.(state := None, patches := None)
  }

  /** A push was accepted, or there was nothing to push, and the node is given time to settle. */
  predicate CountsAsApplied(m: Machine) {
    m.state.Some? && m.state.value.applied
  }

  function UpdateMachine(cx: Context, m: Machine, c: Call): CallResult {
    if c.address == "" then Fail(m, NoAddress)
    else if m.state.Some? && c.start - m.state.value.startedAt > UPDATE_TIMEOUT then Fail(Forget(m), TimedOut)
    else if m.state.Some? && m.state.value.applied then
      if c.start - m.state.value.startedAt > SETTLE_TIME
      then CallResult(Forget(m), Reply(Success, Complete, 0), None)
      else CallResult(m, Reply(Success, Settling, RETRY_INTERVAL), None)
    else TryToApply(cx, m, c)
  }

  /**
   All that a call can do to a machine's patches, cache entry and node: the node changes
   only by a push of exactly the planned configuration; an entry goes only with a push that
   succeeded, which forgets the patches too; and closing a cycle forgets the patches.
   */
  lemma CallEffect(cx: Context, m: Machine, c: Call)
    ensures var r := UpdateMachine(cx, m, c);
      && (r.attempt.Some? ==>
            && PlanFor(cx, m, c) == Push(r.attempt.value.config)
            && r.attempt.value.outcome == c.apply && r.attempt.value.at == c.finish
            && r.machine.live == (if c.apply == Refused then m.live else r.attempt.value.config))
      && (r.attempt.None? ==> r.machine.live == m.live)
      && (r.machine.patches.Some? ==> r.machine.patches == m.patches || r.machine.patches == FindPatches(cx, m, c))
      && (r.machine.entry == m.entry || (r.machine.entry.None? && r.attempt.Some? && c.apply == Written))
      && (r.attempt.Some? && c.apply == Written ==>
            && r.machine.patches.None?
            && (cx.hasStore && c.cleanupRead && c.cleanupWrite != Refused ==> r.machine.entry.None?))
      && (r.reply.message == TimedOut || r.reply.message == Complete ==> r.machine.patches.None?)
  {
    hide Apply, Derive, StrategicPatches, LoadAll;
  }

  /**
   How a call moves the update record: it opens on the first attempt or when there is
   nothing to send, keeps its start across failed attempts, restarts its clock when a push
   succeeds, and closes on done or on timeout.
   */
  lemma CallMovesState(cx: Context, m: Machine, c: Call)
    ensures var r := UpdateMachine(cx, m, c);
      var s, s' := m.state, r.machine.state;
      && (s'.None? && s.Some? ==> r.reply.message == TimedOut || r.reply.message == Complete)
      && (r.reply.message == TimedOut || r.reply.message == Complete ==> s.Some? && s'.None? && c.address != "")
      && (r.reply.message == TimedOut ==> c.start - s.value.startedAt > 300_000_000_000)
      && (r.reply.message == Complete ==>
            s.value.applied && 30_000_000_000 < c.start - s.value.startedAt <= 300_000_000_000)
      && (r.reply.retryAfter == 0 && r.reply.status == Success <==> r.reply.message == Complete)
      && (r.reply.message == NothingToApply ==> PlanFor(cx, m, c).Nothing?)
      && (r.attempt.Some? || r.reply.message == NothingToApply ==>
            c.address != "" && (s.Some? ==> !s.value.applied && c.start - s.value.startedAt <= 300_000_000_000))
      && (s'.Some? && s'.value.applied ==>
            || (s == s' && r.attempt.None? && r.reply.message != NothingToApply
                && (c.address != "" ==> c.start - s.value.startedAt <= 30_000_000_000))
            || (s'.value.startedAt == c.finish
                && (r.reply.message == NothingToApply || (r.attempt.Some? && c.apply == Written))))
      && (s'.Some? && !s'.value.applied ==>
            || (s == s' && (c.address != "" ==> c.start - s.value.startedAt <= 300_000_000_000))
            || (s.None? && s'.value.startedAt == c.finish && r.attempt.Some?))
      && (r.reply.message == NothingToApply || (r.attempt.Some? && c.apply == Written) ==>
            s' == Some(UpdateState(c.finish, true)))
  {
    hide Apply;
    hide Derive;
    hide StrategicPatches;
    hide LoadAll;
  }

  /** Records the change in memory and, best effort, its starting point in the cache. */
  function StoreDiff(cx: Context, m: Machine, i: Intent): Machine {
    var ps := Derive(cx.codec, i.current, i.desired);
    if ps.None? then m
    else
      m.(patches := ps,
         entry := if cx.hasStore && i.persistRead && i.persistWrite != Refused then Some(i.current) else m.entry)
  }

  // ---------------------------------------------------------------- runs

  datatype Input = CanUpdate(intent: Intent) | Update(call: Call) | Restart

  datatype Event =
    | Recorded(intent: Intent)
    | Called(call: Call, reply: Reply, attempt: Option<Attempt>)
    | PodRestarted

  function Step(cx: Context, m: Machine, i: Input): Machine {
    match i
    case CanUpdate(intent) => StoreDiff(cx, m, intent)
    case Update(call) => UpdateMachine(cx, m, call).machine
    case Restart => Forget(m)
  }

  function EventOf(cx: Context, m: Machine, i: Input): Event {
    match i
    case CanUpdate(intent) => Recorded(intent)
    case Update(call) =>
      var r := UpdateMachine(cx, m, call);
      Called(call, r.reply, r.attempt)
    case Restart => PodRestarted
  }

  function Run(cx: Context, m: Machine, inputs: seq<Input>): Machine {
    if inputs == [] then m
    else Step(cx, Run(cx, m, inputs[..|inputs| - 1]), inputs[|inputs| - 1])
  }

  /** The history of a run, one event for each input. */
  function History(cx: Context, m: Machine, inputs: seq<Input>): (es: seq<Event>)
    ensures |es| == |inputs|
  {
    if inputs == [] then []
    else
      var n := |inputs| - 1;
      History(cx, m, inputs[..n]) + [EventOf(cx, Run(cx, m, inputs[..n]), inputs[n])]
  }

  /** Histories grow at the end: what happened stays as it was. */
  lemma {:induction false} HistoryAt(cx: Context, m: Machine, inputs: seq<Input>, k: nat)
    requires k < |inputs|
    ensures History(cx, m, inputs)[k] == EventOf(cx, Run(cx, m, inputs[..k]), inputs[k])
    decreases |inputs|
  {
    var n := |inputs| - 1;
    if k < n {
      HistoryAt(cx, m, inputs[..n], k);
      assert inputs[..n][..k] == inputs[..k];
    }
  }

  lemma {:induction false} HistoryPrefix(cx: Context, m: Machine, inputs: seq<Input>, k: nat)
    requires k <= |inputs|
    ensures History(cx, m, inputs[..k]) == History(cx, m, inputs)[..k]
    decreases |inputs|
  {
    var n := |inputs| - 1;
    if k == |inputs| {
      assert inputs[..k] == inputs;
    } else {
      HistoryPrefix(cx, m, inputs[..n], k);
      assert inputs[..n][..k] == inputs[..k];
    }
  }

  lemma {:induction false} RunAppend(cx: Context, m: Machine, xs: seq<Input>, ys: seq<Input>)
    ensures Run(cx, m, xs + ys) == Run(cx, Run(cx, m, xs), ys)
    decreases |ys|
  {
    if ys == [] {
      assert xs + ys == xs;
    } else {
      var n := |ys| - 1;
      assert (xs + ys)[..|xs + ys| - 1] == xs + ys[..n];
      RunAppend(cx, m, xs, ys[..n]);
    }
  }

  lemma {:induction false} HistoryAppend(cx: Context, m: Machine, xs: seq<Input>, ys: seq<Input>)
    ensures History(cx, m, xs + ys) == History(cx, m, xs) + History(cx, Run(cx, m, xs), ys)
    decreases |ys|
  {
    if ys == [] {
      assert xs + ys == xs;
    } else {
      var n := |ys| - 1;
      assert (xs + ys)[..|xs + ys| - 1] == xs + ys[..n];
      HistoryAppend(cx, m, xs, ys[..n]);
      RunAppend(cx, m, xs, ys[..n]);
    }
  }

  /** A run and its history, given the machines it goes through. */
  lemma {:induction false} RunThrough(cx: Context, m: Machine, inputs: seq<Input>, states: seq<Machine>)
    requires |states| == |inputs| + 1 && states[0] == m
    requires forall k :: 0 <= k < |inputs| ==> states[k + 1] == Step(cx, states[k], inputs[k])
    ensures Run(cx, m, inputs) == states[|inputs|]
    ensures forall k :: 0 <= k < |inputs| ==> History(cx, m, inputs)[k] == EventOf(cx, states[k], inputs[k])
    decreases |inputs|
  {
    hide Step, EventOf;
    if inputs != [] {
      var n := |inputs| - 1;
      RunThrough(cx, m, inputs[..n], states[..n + 1]);
    }
  }
}
