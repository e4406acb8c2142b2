/**
 Calls that overlap. A request is broken where it uses the shared ConfigMap, so that
 requests for other machines, and the end of the pod, can come in between; each part uses
 the ConfigMap at most once. What one machine sees of all this is still a run of that
 machine alone, in which a conflict on the ConfigMap is a refused write.
 */
module Overlap {
  import opened Wrappers
  import opened ConfigTree
  import opened PatchList
  import opened Bootstrap
  import opened Engine
  import opened ExactlyOnce
  import opened IntentKept
  import opened Fleet
  import opened ConfigCache

  /** What a request in flight is there for, and what its caller will be told. */
  datatype Work = Recording(intent: Intent) | Cleaning(call: Call, result: CallResult)

  /** A request between its first part and its last. */
  datatype Running = Running(work: Work, phase: Phase)

  datatype Process = Process(
    state: map<string, UpdateState>,
    patches: map<string, seq<Patch>>,
    nodes: map<string, Document>,
    server: Option<ConfigMap>,
    running: map<MachineName, Running>)

  /** The requests of one machine do not overlap; one that comes too early is turned away. */
  datatype Action =
    | StartUpdate(machine: MachineName, call: Call)
    | StartRecording(machine: MachineName, intent: Intent)
    | CacheRead(machine: MachineName)
    | CacheWrite(machine: MachineName)
    | Crash

  function View(s: Process): FleetState {
    FleetState(s.state, s.patches, EntriesOf(s.server), s.nodes)
  }

  /** Everything of a fleet but the cache, which only the ConfigMap's own reads and writes change. */
  function Adopt(s: Process, f: FleetState): Process {
    s.(state := f.state, patches := f.patches, nodes := f.nodes)
  }

  // ---------------------------------------------------------------- the parts of a request

  /** The request as it turned out: its write took effect as asked for, or was refused. */
  function Completed(work: Work, took: bool): Input {
    match work
    case Recording(i) => CanUpdate(if took then i else i.(persistWrite := Refused))
    case Cleaning(c, _) => Update(if took then c else c.(cleanupWrite := Refused))
  }

  function ReadSucceeds(work: Work): bool {
    match work
    case Recording(i) => i.persistRead
    case Cleaning(c, _) => c.cleanupRead
  }

  function Reaches(work: Work): bool {
    match work
    case Recording(i) => i.persistWrite != Refused
    case Cleaning(c, _) => c.cleanupWrite != Refused
  }

  function ChangeOf(m: MachineName, work: Work): Change {
    match work
    case Recording(i) => ConfigCache.Put(Sanitize(KeyOf(m)), i.current)
    case Cleaning(c, _) => Drop(Sanitize(KeyOf(m)))
  }

  /** A call up to its push, or to its end when it makes no push that succeeds. */
  function Started(cx: Context, s: Process, m: MachineName, c: Call): Process {
    var uncleaned := c.(cleanupWrite := Refused);
    var r, f := UpdateResult(cx, View(s), m, uncleaned), FleetStep(cx, View(s), UpdateFor(m, uncleaned));
    if cx.hasStore && r.attempt.Some? && c.apply == Written then
      // The cleanup comes next, and the record is stored after it.
      Adopt(s, f.(state := s.state)).(running := s.running[m := Running(Cleaning(c, r), Pending)])
    else Adopt(s, f)
  }

  /** A recording up to the point where the change is in memory. */
  function Remembered(cx: Context, s: Process, m: MachineName, i: Intent): Process {
    var remembered := Adopt(s, FleetStep(cx, View(s), CanUpdateFor(m, i.(persistWrite := Refused))));
    if cx.hasStore && Derive(cx.codec, i.current, i.desired).Some? then
      remembered.(running := s.running[m := Running(Recording(i), Pending)])
    else remembered
  }

  function Concluded(s: Process, m: MachineName, server: Option<ConfigMap>): Process
    requires m in s.running
  {
    var work := s.running[m].work;
    s.(server := server, running := s.running - {m},
       state := if work.Cleaning? then s.state[KeyOf(m) := UpdateState(work.call.finish, true)] else s.state)
  }

  function Act(cx: Context, s: Process, a: Action): Process {
    match a
    case StartUpdate(m, c) => if m in s.running then s else Started(cx, s, m, c)
    case StartRecording(m, i) => if m in s.running then s else Remembered(cx, s, m, i)
    case CacheRead(m) =>
      if m !in s.running || !s.running[m].phase.Pending? then s
      else if ReadSucceeds(s.running[m].work) then
        s.(running := s.running[m := s.running[m].(phase := HasRead(s.server))])
      else Concluded(s, m, s.server)
    case CacheWrite(m) =>
      if m !in s.running || !s.running[m].phase.HasRead? then s
      else
        var r := s.running[m];
        Concluded(s, m, if Reaches(r.work) then WriteBack(s.server, r.phase.seen, ChangeOf(m, r.work)) else s.server)
    case Crash => s.(state := map[], patches := map[], running := map[])
  }

  function Perform(cx: Context, s: Process, actions: seq<Action>): Process {
    if actions == [] then s
    else Act(cx, Perform(cx, s, actions[..|actions| - 1]), actions[|actions| - 1])
  }

  // ---------------------------------------------------------------- what one machine sees

  /** The requests of a machine that an action brings to an end, as they turned out. */
  function Ended(cx: Context, s: Process, a: Action, m: MachineName): seq<Input> {
    var s' := Act(cx, s, a);
    if a.Crash? then (if m in s.running then [Completed(s.running[m].work, false)] else []) + [Restart]
    else if a.machine != m || m in s'.running then []
    else if m in s.running then [Completed(s.running[m].work, s'.server != s.server)]
    else
      match a
      case StartUpdate(_, c) => [Update(c.(cleanupWrite := Refused))]
      case StartRecording(_, i) => [CanUpdate(i.(persistWrite := Refused))]
      case _ => []
  }

  /** The machine's own run. */
  function Lone(cx: Context, s: Process, actions: seq<Action>, m: MachineName): seq<Input> {
    if actions == [] then []
    else
      var n := |actions| - 1;
      Lone(cx, s, actions[..n], m) + Ended(cx, Perform(cx, s, actions[..n]), actions[n], m)
  }

  /** What a request in flight reports when it ends. Its push was sent before; in a crash the answer is lost. */
  function Report(work: Work, took: bool): Event {
    match Completed(work, took)
    case CanUpdate(i) => Recorded(i)
    case Update(c) => Called(c, work.result.reply, work.result.attempt)
  }

  function Reported(cx: Context, s: Process, a: Action, m: MachineName): seq<Event> {
    var s' := Act(cx, s, a);
    if a.Crash? then (if m in s.running then [Report(s.running[m].work, false)] else []) + [PodRestarted]
    else if a.machine != m || m in s'.running then []
    else if m in s.running then [Report(s.running[m].work, s'.server != s.server)]
    else
      match a
      case StartUpdate(_, c) => FleetEvent(cx, View(s), UpdateFor(m, c.(cleanupWrite := Refused)), m)
      case StartRecording(_, i) => [Recorded(i.(persistWrite := Refused))]
      case _ => []
  }

  function Reports(cx: Context, s: Process, actions: seq<Action>, m: MachineName): seq<Event> {
    if actions == [] then []
    else
      var n := |actions| - 1;
      Reports(cx, s, actions[..n], m) + Reported(cx, Perform(cx, s, actions[..n]), actions[n], m)
  }

  // ---------------------------------------------------------------- what every action keeps

  ghost predicate Aimed(actions: seq<Action>, nodeOf: map<MachineName, string>) {
    forall a :: a in actions ==>
      && (!a.Crash? ==> WellFormed(a.machine) && a.machine in nodeOf)
      && (a.StartUpdate? ==> a.call.address == "" || a.call.address == nodeOf[a.machine])
  }

  ghost predicate InOrder(s: Process, nodeOf: map<MachineName, string>) {
    && Assigned(nodeOf, View(s))
    && forall k :: k in s.running ==>
         && WellFormed(k) && k in nodeOf
         && !s.running[k].phase.Finished?
         && (s.running[k].phase.HasRead? ==>
               ReadSucceeds(s.running[k].work) && Honest(s.server, s.running[k].phase.seen))
  }

  /** How far a machine is, given where its own run of the requests that have ended is. */
  predicate Agrees(cx: Context, s: Process, m: MachineName, node: string, own: Machine) {
    var now := Slice(View(s), m, node);
    if m !in s.running then now == own
    else
      cx.hasStore &&
      match s.running[m].work
      case Recording(i) =>
        Derive(cx.codec, i.current, i.desired).Some? && now == Step(cx, own, Completed(s.running[m].work, false))
      case Cleaning(c, r) =>
        && r == UpdateMachine(cx, own, c.(cleanupWrite := Refused)) && r.attempt.Some? && c.apply == Written
        && now == r.machine.(state := own.state)
  }

  lemma CutKeepsEntry(cx: Context, m: Machine, c: Call)
    requires c.cleanupWrite == Refused
    ensures UpdateMachine(cx, m, c).machine.entry == m.entry
  {
    hide PlanFor, FindPatches;
  }

  /** While its write has not been made, a request leaves the cache alone. */
  lemma UpdateKeepsCache(cx: Context, f: FleetState, m: MachineName, c: Call)
    requires c.cleanupWrite == Refused
    ensures FleetStep(cx, f, UpdateFor(m, c)).cache == f.cache
  {
    hide UpdateMachine, Sanitize, KeyOf;
    WithItself(f.cache, Sanitize(KeyOf(m)));
    CutKeepsEntry(cx, Slice(f, m, c.address), Reaching(f, c));
  }

  lemma RecordingKeepsCache(cx: Context, f: FleetState, m: MachineName, i: Intent)
    requires i.persistWrite == Refused
    ensures FleetStep(cx, f, CanUpdateFor(m, i)).cache == f.cache
  {
    WithItself(f.cache, Sanitize(KeyOf(m)));
    hide Derive, Sanitize, KeyOf;
  }

  /** What the fleet looks like once a call has got so far. */
  lemma StartedView(cx: Context, s: Process, k: MachineName, c: Call)
    requires k !in s.running
    ensures var s', f := Started(cx, s, k, c), FleetStep(cx, View(s), UpdateFor(k, c.(cleanupWrite := Refused)));
      && View(s') == (if k in s'.running then f.(state := s.state) else f)
      && s'.server == s.server && s'.running - {k} == s.running
  {
    UpdateKeepsCache(cx, View(s), k, c.(cleanupWrite := Refused));
    hide FleetStep, UpdateResult;
  }

  /** A request that has begun and has not read yet keeps everything in order. */
  lemma BegunInOrder(s: Process, s': Process, k: MachineName, nodeOf: map<MachineName, string>)
    requires InOrder(s, nodeOf) && Assigned(nodeOf, View(s')) && WellFormed(k) && k in nodeOf
    requires s'.server == s.server && k !in s.running && s'.running - {k} == s.running
    requires k in s'.running ==> s'.running[k].phase.Pending?
    ensures InOrder(s', nodeOf)
  {
    hide Honest, Assigned;
    assert forall j :: j in s'.running && j != k ==> j in s.running && s'.running[j] == s.running[j];
  }

  /** A machine's progress is a matter of its share and its own request. */
  lemma SameProgress(cx: Context, s: Process, s': Process, m: MachineName, node: string, own: Machine)
    requires Agrees(cx, s, m, node, own) && Slice(View(s'), m, node) == Slice(View(s), m, node)
    requires m in s'.running <==> m in s.running
    requires m in s.running ==> s'.running[m].work == s.running[m].work
    ensures Agrees(cx, s', m, node, own)
  {
    hide Slice, View, UpdateMachine, Step;
  }

  lemma StartedOwn(cx: Context, s: Process, c: Call, nodeOf: map<MachineName, string>, m: MachineName, own: Machine)
    requires Aimed([StartUpdate(m, c)], nodeOf) && Assigned(nodeOf, View(s)) && WellFormed(m) && m in nodeOf
    requires m !in s.running && own == Slice(View(s), m, nodeOf[m])
    ensures var s', input := Started(cx, s, m, c), Update(c.(cleanupWrite := Refused));
      if m in s'.running then Agrees(cx, s', m, nodeOf[m], own)
      else Agrees(cx, s', m, nodeOf[m], Step(cx, own, input))
           && FleetEvent(cx, View(s), UpdateFor(m, input.call), m) == [EventOf(cx, own, input)]
  {
    var input := UpdateFor(m, c.(cleanupWrite := Refused));
    assert StartUpdate(m, c) in [StartUpdate(m, c)];
    IsolationStep(cx, View(s), input, nodeOf, m);
    StartedView(cx, s, m, c);
    var r := UpdateResult(cx, View(s), m, input.call);
    if c.address == "" {
      NoAddressNoEffect(cx, Slice(View(s), m, ""), Reaching(View(s), input.call));
    } else {
      assert Reaching(View(s), input.call) == input.call;
      assert r == UpdateMachine(cx, own, input.call);
    }
    hide FleetStep, UpdateMachine, UpdateResult, Sanitize, KeyOf;
  }

  lemma StartedOther(cx: Context, s: Process, k: MachineName, c: Call, nodeOf: map<MachineName, string>, m: MachineName)
    requires Assigned(nodeOf, View(s)) && Aimed([StartUpdate(k, c)], nodeOf) && k !in s.running
    requires WellFormed(m) && m in nodeOf && m != k
    ensures var s' := Started(cx, s, k, c);
      && Slice(View(s'), m, nodeOf[m]) == Slice(View(s), m, nodeOf[m])
      && (m in s'.running <==> m in s.running)
      && (m in s.running ==> s'.running[m] == s.running[m])
  {
    hide FleetStep, UpdateResult, Sanitize;
    assert StartUpdate(k, c) in [StartUpdate(k, c)];
    IsolationStep(cx, View(s), UpdateFor(k, c.(cleanupWrite := Refused)), nodeOf, m);
    StartedView(cx, s, k, c);
  }

  lemma StartedInOrder(cx: Context, s: Process, k: MachineName, c: Call, nodeOf: map<MachineName, string>)
    requires InOrder(s, nodeOf) && Aimed([StartUpdate(k, c)], nodeOf) && k !in s.running
    ensures InOrder(Started(cx, s, k, c), nodeOf)
  {
    hide FleetStep, UpdateResult, Honest, Slice;
    var s' := Started(cx, s, k, c);
    assert StartUpdate(k, c) in [StartUpdate(k, c)];
    IsolationStep(cx, View(s), UpdateFor(k, c.(cleanupWrite := Refused)), nodeOf, k);
    StartedView(cx, s, k, c);
    assert k in s'.running ==> s'.running[k].phase.Pending?;
    assert Assigned(nodeOf, View(s'));
    hide Started, View, InOrder, Assigned;
    BegunInOrder(s, s', k, nodeOf);
  }

  lemma StartedStep(cx: Context, s: Process, k: MachineName, c: Call, nodeOf: map<MachineName, string>,
                    m: MachineName, own: Machine)
    requires InOrder(s, nodeOf) && Aimed([StartUpdate(k, c)], nodeOf) && k !in s.running
    requires WellFormed(m) && m in nodeOf && Agrees(cx, s, m, nodeOf[m], own)
    ensures var s', input := Started(cx, s, k, c), c.(cleanupWrite := Refused);
      && InOrder(s', nodeOf)
      && (if k != m || m in s'.running then Agrees(cx, s', m, nodeOf[m], own)
          else Agrees(cx, s', m, nodeOf[m], Step(cx, own, Update(input)))
               && FleetEvent(cx, View(s), UpdateFor(m, input), m) == [EventOf(cx, own, Update(input))])
  {
    assert m !in s.running ==> own == Slice(View(s), m, nodeOf[m]);
    assert Assigned(nodeOf, View(s));
    hide Started, Slice, View, InOrder, Assigned, Agrees, FleetEvent, Step, EventOf, Aimed;
    StartedInOrder(cx, s, k, c, nodeOf);
    if k == m {
      StartedOwn(cx, s, c, nodeOf, m, own);
    } else {
      StartedOther(cx, s, k, c, nodeOf, m);
      SameProgress(cx, s, Started(cx, s, k, c), m, nodeOf[m], own);
    }
  }

  lemma RememberedView(cx: Context, s: Process, k: MachineName, i: Intent)
    requires k !in s.running
    ensures var s' := Remembered(cx, s, k, i);
      && View(s') == FleetStep(cx, View(s), CanUpdateFor(k, i.(persistWrite := Refused)))
      && s'.server == s.server && s'.running - {k} == s.running
      && (k in s'.running ==>
            && cx.hasStore && Derive(cx.codec, i.current, i.desired).Some?
            && s'.running[k] == Running(Recording(i), Pending))
  {
    RecordingKeepsCache(cx, View(s), k, i.(persistWrite := Refused));
    hide FleetStep, Derive;
  }

  lemma RememberedStep(cx: Context, s: Process, k: MachineName, i: Intent, nodeOf: map<MachineName, string>,
                       m: MachineName, own: Machine)
    requires InOrder(s, nodeOf) && Aimed([StartRecording(k, i)], nodeOf) && k !in s.running
    requires WellFormed(m) && m in nodeOf && Agrees(cx, s, m, nodeOf[m], own)
    ensures var s', input := Remembered(cx, s, k, i), i.(persistWrite := Refused);
      && InOrder(s', nodeOf)
      && Agrees(cx, s', m, nodeOf[m], if k != m || m in s'.running then own else Step(cx, own, CanUpdate(input)))
  {
    var s', input := Remembered(cx, s, k, i), CanUpdateFor(k, i.(persistWrite := Refused));
    assert StartRecording(k, i) in [StartRecording(k, i)];
    IsolationStep(cx, View(s), input, nodeOf, m);
    RememberedView(cx, s, k, i);
    hide FleetStep, Derive, Step, Remembered, Slice, View, Assigned, Honest;
    if k != m {
      assert m in s.running ==> m in s'.running - {k};
      hide Agrees, InOrder;
      SameProgress(cx, s, s', m, nodeOf[m], own);
    }
    hide InOrder;
    BegunInOrder(s, s', k, nodeOf);
  }

  /** The cleanup is the last thing a call does, and what it answers does not depend on it. */
  lemma CleanupIsLast(cx: Context, own: Machine, c: Call)
    ensures var cut, whole := UpdateMachine(cx, own, c.(cleanupWrite := Refused)), UpdateMachine(cx, own, c);
      whole ==
        if cx.hasStore && cut.attempt.Some? && c.apply == Written && c.cleanupRead && c.cleanupWrite != Refused
        then cut.(machine := cut.machine.(entry := None))
        else cut
  {
    assert PlanFor(cx, own, c) == PlanFor(cx, own, c.(cleanupWrite := Refused));
    assert FindPatches(cx, own, c) == FindPatches(cx, own, c.(cleanupWrite := Refused));
    hide PlanFor, FindPatches;
  }

  /** And the write to the cache is the last thing a recording does. */
  lemma PersistIsLast(cx: Context, own: Machine, i: Intent)
    ensures var cut, whole := StoreDiff(cx, own, i.(persistWrite := Refused)), StoreDiff(cx, own, i);
      whole ==
        if cx.hasStore && Derive(cx.codec, i.current, i.desired).Some? && i.persistRead && i.persistWrite != Refused
        then cut.(entry := Some(i.current))
        else cut
  {
    hide Derive;
  }

  /** What the end of a request does to the share of one machine: nothing, unless it was its own. */
  lemma ConcludedShare(s: Process, k: MachineName, server: Option<ConfigMap>, m: MachineName, node: string)
    requires k in s.running && WellFormed(k) && WellFormed(m)
    requires server != s.server ==>
      EntriesOf(server) == Changed(EntriesOf(s.server), ChangeOf(k, s.running[k].work))
    ensures var before, after := Slice(View(s), m, node), Slice(View(Concluded(s, k, server)), m, node);
      var work := s.running[k].work;
      after == if k != m then before else before.(
        state := if work.Cleaning? then Some(UpdateState(work.call.finish, true)) else before.state,
        entry := if server == s.server then before.entry
                 else if work.Recording? then Some(work.intent.current) else None)
  {
    if k != m && Sanitize(KeyOf(m)) == Sanitize(KeyOf(k)) {
      SanitizeIsInjective(m, k);
    }
    hide Sanitize;
  }

  /** A push that succeeded opens a record that counts as applied. */
  lemma PushedRecord(cx: Context, own: Machine, c: Call)
    requires UpdateMachine(cx, own, c).attempt.Some? && c.apply == Written
    ensures UpdateMachine(cx, own, c).machine.state == Some(UpdateState(c.finish, true))
  {
    CallMovesState(cx, own, c);
    hide UpdateMachine;
  }

  lemma ConcludedAgrees(cx: Context, s: Process, server: Option<ConfigMap>, m: MachineName, node: string, own: Machine)
    requires m in s.running && WellFormed(m) && Agrees(cx, s, m, node, own)
    requires server != s.server ==>
      && ReadSucceeds(s.running[m].work) && Reaches(s.running[m].work)
      && EntriesOf(server) == Changed(EntriesOf(s.server), ChangeOf(m, s.running[m].work))
    ensures Agrees(cx, Concluded(s, m, server), m, node,
                   Step(cx, own, Completed(s.running[m].work, server != s.server)))
  {
    var work := s.running[m].work;
    ConcludedShare(s, m, server, m, node);
    match work {
      case Recording(i) => PersistIsLast(cx, own, i);
      case Cleaning(c, _) =>
        CleanupIsLast(cx, own, c);
        PushedRecord(cx, own, c.(cleanupWrite := Refused));
    }
    hide Slice, View, UpdateMachine, StoreDiff, Derive, Changed;
  }

  lemma ConcludedInOrder(s: Process, k: MachineName, server: Option<ConfigMap>, nodeOf: map<MachineName, string>)
    requires InOrder(s, nodeOf) && k in s.running
    requires forall other :: Honest(s.server, other) ==> Honest(server, other)
    ensures InOrder(Concluded(s, k, server), nodeOf)
  {
    hide Honest, ReadSucceeds;
  }

  lemma ConcludedStep(cx: Context, s: Process, k: MachineName, server: Option<ConfigMap>,
                     nodeOf: map<MachineName, string>, m: MachineName, own: Machine)
    requires InOrder(s, nodeOf) && k in s.running
    requires WellFormed(m) && m in nodeOf && Agrees(cx, s, m, nodeOf[m], own)
    requires server != s.server ==>
      && ReadSucceeds(s.running[k].work) && Reaches(s.running[k].work)
      && EntriesOf(server) == Changed(EntriesOf(s.server), ChangeOf(k, s.running[k].work))
    requires forall other :: Honest(s.server, other) ==> Honest(server, other)
    ensures var s' := Concluded(s, k, server);
      && InOrder(s', nodeOf)
      && Agrees(cx, s', m, nodeOf[m],
                if k == m then Step(cx, own, Completed(s.running[k].work, server != s.server)) else own)
  {
    ConcludedInOrder(s, k, server, nodeOf);
    if k == m {
      hide Agrees, Honest, Step, Assigned;
      ConcludedAgrees(cx, s, server, m, nodeOf[m], own);
    } else {
      hide Agrees, Honest, Step, Assigned, Slice, View, Changed;
      ConcludedShare(s, k, server, m, nodeOf[m]);
      SameProgress(cx, s, Concluded(s, k, server), m, nodeOf[m], own);
    }
  }

  lemma CrashStep(cx: Context, s: Process, nodeOf: map<MachineName, string>, m: MachineName, own: Machine)
    requires InOrder(s, nodeOf) && WellFormed(m) && m in nodeOf && Agrees(cx, s, m, nodeOf[m], own)
    ensures var s' := Act(cx, s, Crash);
      InOrder(s', nodeOf) && Agrees(cx, s', m, nodeOf[m], Run(cx, own, Ended(cx, s, Crash, m)))
  {
    var lost := Slice(View(Act(cx, s, Crash)), m, nodeOf[m]);
    assert lost == Forget(Slice(View(s), m, nodeOf[m]));
    if m in s.running {
      var cut := Completed(s.running[m].work, false);
      RunThrough(cx, own, [cut, Restart], [own, Step(cx, own, cut), Forget(Step(cx, own, cut))]);
    } else {
      RunThrough(cx, own, [Restart], [own, Forget(own)]);
    }
    hide UpdateMachine, StoreDiff, Derive, Run;
  }

  /** What a call reports does not depend on how its cleanup went. */
  lemma ReportIsEvent(cx: Context, s: Process, m: MachineName, node: string, own: Machine, took: bool)
    requires m in s.running && Agrees(cx, s, m, node, own)
    ensures Report(s.running[m].work, took) == EventOf(cx, own, Completed(s.running[m].work, took))
  {
    var work := s.running[m].work;
    if work.Cleaning? {
      CleanupIsLast(cx, own, work.call);
    }
    hide UpdateMachine;
  }

  /** One input of the machine's own run, or none. */
  lemma OneInput(cx: Context, own: Machine, i: Input)
    ensures Run(cx, own, [i]) == Step(cx, own, i) && History(cx, own, [i]) == [EventOf(cx, own, i)]
    ensures Run(cx, own, []) == own && History(cx, own, []) == []
  {
    RunThrough(cx, own, [i], [own, Step(cx, own, i)]);
    RunThrough(cx, own, [], [own]);
  }

  lemma ReadInOrder(s: Process, k: MachineName, nodeOf: map<MachineName, string>)
    requires InOrder(s, nodeOf) && k in s.running && s.running[k].phase.Pending? && ReadSucceeds(s.running[k].work)
    ensures InOrder(s.(running := s.running[k := s.running[k].(phase := HasRead(s.server))]), nodeOf)
  {
    hide Assigned, ReadSucceeds;
  }

  lemma ReadStep(cx: Context, s: Process, k: MachineName, nodeOf: map<MachineName, string>,
                 m: MachineName, own: Machine)
    requires InOrder(s, nodeOf) && WellFormed(m) && m in nodeOf && Agrees(cx, s, m, nodeOf[m], own)
    ensures var s' := Act(cx, s, CacheRead(k));
      && InOrder(s', nodeOf)
      && Agrees(cx, s', m, nodeOf[m],
                if k == m && m in s.running && m !in s'.running
                then Step(cx, own, Completed(s.running[m].work, false)) else own)
      && s'.server == s.server
  {
    hide InOrder, Agrees, Step, Honest;
    if k in s.running && s.running[k].phase.Pending? {
      if ReadSucceeds(s.running[k].work) {
        ReadInOrder(s, k, nodeOf);
        hide Slice;
        SameProgress(cx, s, Act(cx, s, CacheRead(k)), m, nodeOf[m], own);
      } else {
        ConcludedStep(cx, s, k, s.server, nodeOf, m, own);
      }
    }
  }

  lemma WriteStep(cx: Context, s: Process, k: MachineName, nodeOf: map<MachineName, string>,
                  m: MachineName, own: Machine)
    requires InOrder(s, nodeOf) && WellFormed(m) && m in nodeOf && Agrees(cx, s, m, nodeOf[m], own)
    ensures var s' := Act(cx, s, CacheWrite(k));
      && InOrder(s', nodeOf)
      && Agrees(cx, s', m, nodeOf[m],
                if k == m && m in s.running && m !in s'.running
                then Step(cx, own, Completed(s.running[m].work, s'.server != s.server)) else own)
  {
    if k in s.running && s.running[k].phase.HasRead? {
      var work, seen := s.running[k].work, s.running[k].phase.seen;
      WriteBackIsAtomic(s.server, seen, ChangeOf(k, work));
      hide InOrder, Agrees, Honest, WriteBack, Changed;
      var server := if Reaches(work) then WriteBack(s.server, seen, ChangeOf(k, work)) else s.server;
      ConcludedStep(cx, s, k, server, nodeOf, m, own);
    }
  }

  /** What an action keeps: the order, and that the machine's share and reports are those of its own run. */
  ghost predicate Follows(cx: Context, s: Process, a: Action, nodeOf: map<MachineName, string>,
                          m: MachineName, own: Machine)
    requires m in nodeOf
  {
    && InOrder(Act(cx, s, a), nodeOf)
    && Agrees(cx, Act(cx, s, a), m, nodeOf[m], Run(cx, own, Ended(cx, s, a, m)))
    && Reported(cx, s, a, m) == History(cx, own, Ended(cx, s, a, m))
  }

  lemma StartFollows(cx: Context, s: Process, a: Action, nodeOf: map<MachineName, string>, m: MachineName, own: Machine)
    requires InOrder(s, nodeOf) && Aimed([a], nodeOf) && (a.StartUpdate? || a.StartRecording?)
    requires WellFormed(m) && m in nodeOf && Agrees(cx, s, m, nodeOf[m], own)
    ensures Follows(cx, s, a, nodeOf, m, own)
  {
    match a {
      case StartUpdate(k, c) =>
        OneInput(cx, own, Update(c.(cleanupWrite := Refused)));
        if k !in s.running {
          StartedStep(cx, s, k, c, nodeOf, m, own);
        }
        hide Started, FleetEvent, InOrder, Agrees, Step, EventOf, Run, History;
      case StartRecording(k, i) =>
        OneInput(cx, own, CanUpdate(i.(persistWrite := Refused)));
        if k !in s.running {
          RememberedStep(cx, s, k, i, nodeOf, m, own);
        }
        hide Remembered, InOrder, Agrees, Step, Run, History;
    }
  }

  lemma CacheFollows(cx: Context, s: Process, a: Action, nodeOf: map<MachineName, string>, m: MachineName, own: Machine)
    requires InOrder(s, nodeOf) && (a.CacheRead? || a.CacheWrite?)
    requires WellFormed(m) && m in nodeOf && Agrees(cx, s, m, nodeOf[m], own)
    ensures Follows(cx, s, a, nodeOf, m, own)
  {
    if a.CacheRead? {
      ReadStep(cx, s, a.machine, nodeOf, m, own);
    } else {
      WriteStep(cx, s, a.machine, nodeOf, m, own);
    }
    OneInput(cx, own, Restart);
    if m in s.running {
      var took := Act(cx, s, a).server != s.server;
      ReportIsEvent(cx, s, m, nodeOf[m], own, took);
      OneInput(cx, own, Completed(s.running[m].work, took));
    }
    hide InOrder, Agrees, Step, EventOf, Run, History, Report, Completed, WriteBack, ReadSucceeds;
  }

  lemma CrashFollows(cx: Context, s: Process, nodeOf: map<MachineName, string>, m: MachineName, own: Machine)
    requires InOrder(s, nodeOf) && WellFormed(m) && m in nodeOf && Agrees(cx, s, m, nodeOf[m], own)
    ensures Follows(cx, s, Crash, nodeOf, m, own)
  {
    CrashStep(cx, s, nodeOf, m, own);
    hide InOrder, Agrees, Step;
    if m in s.running {
      ReportIsEvent(cx, s, m, nodeOf[m], own, false);
      var cut := Completed(s.running[m].work, false);
      assert Ended(cx, s, Crash, m) == [cut, Restart];
      RunThrough(cx, own, [cut, Restart], [own, Step(cx, own, cut), Step(cx, Step(cx, own, cut), Restart)]);
    } else {
      OneInput(cx, own, Restart);
      assert Ended(cx, s, Crash, m) == [Restart];
    }
    hide Run, History, Report, Completed;
  }

  lemma ActFollows(cx: Context, s: Process, a: Action, nodeOf: map<MachineName, string>, m: MachineName, own: Machine)
    requires InOrder(s, nodeOf) && Aimed([a], nodeOf)
    requires WellFormed(m) && m in nodeOf && Agrees(cx, s, m, nodeOf[m], own)
    ensures Follows(cx, s, a, nodeOf, m, own)
  {
    hide InOrder, Aimed, Agrees, Follows;
    match a
    case StartUpdate(_, _) => StartFollows(cx, s, a, nodeOf, m, own);
    case StartRecording(_, _) => StartFollows(cx, s, a, nodeOf, m, own);
    case CacheRead(_) => CacheFollows(cx, s, a, nodeOf, m, own);
    case CacheWrite(_) => CacheFollows(cx, s, a, nodeOf, m, own);
    case Crash => CrashFollows(cx, s, nodeOf, m, own);
  }

  lemma BeforeAnything(cx: Context, s: Process, nodeOf: map<MachineName, string>, m: MachineName)
    requires s.running == map[] && Assigned(nodeOf, View(s)) && WellFormed(m) && m in nodeOf
    ensures InOrder(s, nodeOf) && Perform(cx, s, []) == s
    ensures var start := Slice(View(s), m, nodeOf[m]);
      && Agrees(cx, s, m, nodeOf[m], Run(cx, start, Lone(cx, s, [], m)))
      && Reports(cx, s, [], m) == History(cx, start, Lone(cx, s, [], m))
  {
    hide Assigned, Slice, View;
  }

  lemma PerformSnoc(cx: Context, s: Process, actions: seq<Action>, m: MachineName)
    requires actions != []
    ensures var init, a := actions[..|actions| - 1], actions[|actions| - 1];
      var before := Perform(cx, s, init);
      && Perform(cx, s, actions) == Act(cx, before, a)
      && Lone(cx, s, actions, m) == Lone(cx, s, init, m) + Ended(cx, before, a, m)
      && Reports(cx, s, actions, m) == Reports(cx, s, init, m) + Reported(cx, before, a, m)
  {
    hide Act, Ended, Reported;
  }

  lemma AimedParts(actions: seq<Action>, nodeOf: map<MachineName, string>)
    requires actions != [] && Aimed(actions, nodeOf)
    ensures Aimed(actions[..|actions| - 1], nodeOf) && Aimed([actions[|actions| - 1]], nodeOf)
  {
    assert actions[|actions| - 1] in actions;
  }

  /**
   Any schedule of overlapping requests for many machines, with conflicts on the ConfigMap
   and pods that die in the middle of requests, is to one of the machines a run of that
   machine alone: between its requests its share is that run's machine, within a request
   what the part that is done makes of it; and what is pushed and answered is the same.
   */
  lemma {:induction false} OverlapIsAlone(cx: Context, s: Process, actions: seq<Action>,
                                          nodeOf: map<MachineName, string>, m: MachineName)
    requires s.running == map[] && Assigned(nodeOf, View(s)) && Aimed(actions, nodeOf)
    requires WellFormed(m) && m in nodeOf
    ensures InOrder(Perform(cx, s, actions), nodeOf)
    ensures var start := Slice(View(s), m, nodeOf[m]);
      && Agrees(cx, Perform(cx, s, actions), m, nodeOf[m], Run(cx, start, Lone(cx, s, actions, m)))
      && Reports(cx, s, actions, m) == History(cx, start, Lone(cx, s, actions, m))
    decreases |actions|
  {
    var start := Slice(View(s), m, nodeOf[m]);
    hide Act, Ended, Reported, Agrees, Run, History, Slice, Assigned, View, InOrder, Aimed, Perform, Lone, Reports;
    if actions == [] {
      BeforeAnything(cx, s, nodeOf, m);
    } else {
      var init, a := actions[..|actions| - 1], actions[|actions| - 1];
      var before, inputs := Perform(cx, s, init), Lone(cx, s, init, m);
      PerformSnoc(cx, s, actions, m);
      AimedParts(actions, nodeOf);
      OverlapIsAlone(cx, s, init, nodeOf, m);
      ActFollows(cx, before, a, nodeOf, m, Run(cx, start, inputs));
      RunAppend(cx, start, inputs, Ended(cx, before, a, m));
      HistoryAppend(cx, start, inputs, Ended(cx, before, a, m));
    }
  }

  // ---------------------------------------------------------------- requests nothing comes between

  lemma ThreeActions(cx: Context, s: Process, a: Action, b: Action, c: Action)
    ensures Perform(cx, s, [a, b, c]) == Act(cx, Act(cx, Act(cx, s, a), b), c)
  {
    var actions := [a, b, c];
    assert actions[..2][..1][..0] == [];
    assert Perform(cx, s, actions[..2][..1]) == Act(cx, s, a);
    assert Perform(cx, s, actions[..2]) == Act(cx, Perform(cx, s, actions[..2][..1]), b);
    assert Perform(cx, s, actions) == Act(cx, Perform(cx, s, actions[..2]), c);
  }

  /** The rest of a request that nothing else comes between. */
  lemma UnbrokenEnd(cx: Context, s: Process, m: MachineName)
    requires m in s.running && s.running[m].phase.Pending?
    ensures var work, s' := s.running[m].work, Act(cx, Act(cx, s, CacheRead(m)), CacheWrite(m));
      && s'.running == s.running - {m} && s'.patches == s.patches && s'.nodes == s.nodes
      && EntriesOf(s'.server) == (if ReadSucceeds(work) && Reaches(work)
                                  then Changed(EntriesOf(s.server), ChangeOf(m, work)) else EntriesOf(s.server))
      && s'.state == if work.Cleaning? then s.state[KeyOf(m) := UpdateState(work.call.finish, true)] else s.state
  {
    FreshWriteBack(s.server, ChangeOf(m, s.running[m].work));
    hide ReadSucceeds, Reaches, WriteBack, Changed, ChangeOf, KeyOf;
  }

  /** The rest of a call whose push succeeded makes the difference between the cut and the whole call. */
  lemma UnbrokenCleanup(cx: Context, s: Process, m: MachineName, c: Call)
    requires m !in s.running && m in Started(cx, s, m, c).running
    ensures var s' := Act(cx, Act(cx, Started(cx, s, m, c), CacheRead(m)), CacheWrite(m));
      s'.running == s.running && View(s') == FleetStep(cx, View(s), UpdateFor(m, c))
  {
    var own, uncleaned := Slice(View(s), m, c.address), Reaching(View(s), c).(cleanupWrite := Refused);
    var started := Started(cx, s, m, c);
    StartedView(cx, s, m, c);
    UnbrokenEnd(cx, started, m);
    CleanupIsLast(cx, own, Reaching(View(s), c));
    PushedRecord(cx, own, uncleaned);
    assert Reaching(View(s), c.(cleanupWrite := Refused)) == uncleaned;
    var cut := UpdateMachine(cx, own, uncleaned).machine;
    assert FleetStep(cx, View(s), UpdateFor(m, c.(cleanupWrite := Refused))) == WithSlice(View(s), m, c.address, cut);
    assert started.running[m].work.call == c && started.running - {m} == s.running;
    hide UpdateMachine, Act, Sanitize, KeyOf, Started, Slice;
  }

  /** A call left alone is the whole call of the fleet. */
  lemma UnbrokenUpdateIsWhole(cx: Context, s: Process, m: MachineName, c: Call)
    requires m !in s.running
    ensures var s' := Perform(cx, s, [StartUpdate(m, c), CacheRead(m), CacheWrite(m)]);
      s'.running == s.running && View(s') == FleetStep(cx, View(s), UpdateFor(m, c))
  {
    ThreeActions(cx, s, StartUpdate(m, c), CacheRead(m), CacheWrite(m));
    if m in Started(cx, s, m, c).running {
      hide Started, View, FleetStep;
      UnbrokenCleanup(cx, s, m, c);
    } else {
      var own, reaching := Slice(View(s), m, c.address), Reaching(View(s), c);
      StartedView(cx, s, m, c);
      CleanupIsLast(cx, own, reaching);
      assert Reaching(View(s), c.(cleanupWrite := Refused)) == reaching.(cleanupWrite := Refused);
      hide UpdateMachine, WithSlice, View, Slice;
    }
  }

  lemma UnbrokenRecordingIsWhole(cx: Context, s: Process, m: MachineName, i: Intent)
    requires m !in s.running
    ensures var s' := Perform(cx, s, [StartRecording(m, i), CacheRead(m), CacheWrite(m)]);
      s'.running == s.running && View(s') == FleetStep(cx, View(s), CanUpdateFor(m, i))
  {
    ThreeActions(cx, s, StartRecording(m, i), CacheRead(m), CacheWrite(m));
    RememberedView(cx, s, m, i);
    if m in Remembered(cx, s, m, i).running {
      UnbrokenEnd(cx, Remembered(cx, s, m, i), m);
    }
    PersistIsLast(cx, Slice(View(s), m, ""), i);
    hide StoreDiff, Act, Sanitize, Derive;
  }

  // ---------------------------------------------------------------- so overlapping changes nothing

  /** All that is asked for this machine is the one change; on request, its cache reads succeed. */
  ghost predicate OneChangeFor(actions: seq<Action>, m: MachineName, cur: string, des: string, readable: bool) {
    forall a :: a in actions && !a.Crash? && a.machine == m ==>
      && (a.StartRecording? ==> a.intent.current == cur && a.intent.desired == des)
      && (a.StartUpdate? ==> a.call.desired == des && (readable ==> a.call.cacheRead))
  }

  /** The machine's request in flight, if it went no further. */
  function CutShort(s: Process, m: MachineName): seq<Input> {
    if m in s.running then [Completed(s.running[m].work, false)] else []
  }

  /** A request in flight is one that was in flight before, or the one that has just begun. */
  lemma InFlight(cx: Context, s: Process, a: Action, m: MachineName)
    requires m in Act(cx, s, a).running
    ensures !a.Crash?
    ensures var work := Act(cx, s, a).running[m].work;
      if m in s.running then work == s.running[m].work
      else a.machine == m && match a
        case StartUpdate(_, c) => work.Cleaning? && work.call == c
        case StartRecording(_, i) => work == Recording(i)
        case _ => false
  {
    hide View, FleetStep, UpdateResult, WriteBack, ReadSucceeds, Reaches, Derive;
  }

  lemma EndedFits(cx: Context, s: Process, a: Action, m: MachineName, cur: string, des: string, readable: bool)
    requires OneChangeFor([a], m, cur, des, readable)
    requires SameChange(CutShort(s, m), cur, des) && (readable ==> CacheReadsSucceed(CutShort(s, m)))
    ensures SameChange(Ended(cx, s, a, m) + CutShort(Act(cx, s, a), m), cur, des)
    ensures readable ==> CacheReadsSucceed(Ended(cx, s, a, m) + CutShort(Act(cx, s, a), m))
  {
    assert a in [a];
    if m in s.running {
      assert CutShort(s, m)[0] in CutShort(s, m);
    }
    if m in Act(cx, s, a).running {
      InFlight(cx, s, a, m);
    }
    hide Act;
  }

  lemma {:induction false} LoneFits(cx: Context, s: Process, actions: seq<Action>, m: MachineName,
                                    cur: string, des: string, readable: bool)
    requires s.running == map[] && OneChangeFor(actions, m, cur, des, readable)
    ensures var inputs := Lone(cx, s, actions, m) + CutShort(Perform(cx, s, actions), m);
      SameChange(inputs, cur, des) && (readable ==> CacheReadsSucceed(inputs))
    decreases |actions|
  {
    if actions != [] {
      var n := |actions| - 1;
      LoneFits(cx, s, actions[..n], m, cur, des, readable);
      assert actions[n] in actions;
      var before := Perform(cx, s, actions[..n]);
      var lone := Lone(cx, s, actions[..n], m);
      assert forall i :: i in lone || i in CutShort(before, m) ==> i in lone + CutShort(before, m);
      EndedFits(cx, before, actions[n], m, cur, des, readable);
      hide Act, Ended, CutShort;
      var rest := Ended(cx, before, actions[n], m) + CutShort(Act(cx, before, actions[n]), m);
      assert lone + Ended(cx, before, actions[n], m) + CutShort(Act(cx, before, actions[n]), m) == lone + rest;
    }
  }

  /** The node is where the machine's own run leaves it, with the request in flight cut short. */
  lemma NodeOfLoneRun(cx: Context, s: Process, actions: seq<Action>, nodeOf: map<MachineName, string>, m: MachineName)
    requires s.running == map[] && Assigned(nodeOf, View(s)) && Aimed(actions, nodeOf)
    requires WellFormed(m) && m in nodeOf
    ensures var s', start := Perform(cx, s, actions), Slice(View(s), m, nodeOf[m]);
      && nodeOf[m] in s'.nodes
      && s'.nodes[nodeOf[m]] == Run(cx, start, Lone(cx, s, actions, m) + CutShort(s', m)).live
      && Reports(cx, s, actions, m) <= History(cx, start, Lone(cx, s, actions, m) + CutShort(s', m))
  {
    var s', start := Perform(cx, s, actions), Slice(View(s), m, nodeOf[m]);
    var lone, cut := Lone(cx, s, actions, m), CutShort(s', m);
    OverlapIsAlone(cx, s, actions, nodeOf, m);
    RunAppend(cx, start, lone, cut);
    HistoryAppend(cx, start, lone, cut);
    if m in s'.running {
      OneInput(cx, Run(cx, start, lone), cut[0]);
    } else {
      OneInput(cx, Run(cx, start, lone), Restart);
    }
    hide UpdateMachine, StoreDiff, Derive, Run, History, Perform, Lone, Reports, Honest;
  }

  /** At every moment, also in the middle of requests, the node has its own configuration or that with the change. */
  lemma OverlapActsExactlyOnce(cx: Context, s: Process, actions: seq<Action>, nodeOf: map<MachineName, string>,
                               m: MachineName, cur: string, des: string)
    requires s.running == map[] && Assigned(nodeOf, View(s)) && Aimed(actions, nodeOf)
    requires WellFormed(m) && m in nodeOf
    requires OneChangeFor(actions, m, cur, des, false) && OneStyle(cx, cur, des)
    requires OnlyThisChange(cx, Slice(View(s), m, nodeOf[m]), cur, des)
    ensures nodeOf[m] in Perform(cx, s, actions).nodes
    ensures OriginalOrPatched(Perform(cx, s, actions).nodes[nodeOf[m]], s.nodes[nodeOf[m]], Intended(cx, cur, des))
  {
    NodeOfLoneRun(cx, s, actions, nodeOf, m);
    LoneFits(cx, s, actions, m, cur, des, false);
    hide Perform, Lone, CutShort, OneStyle, OnlyThisChange, Intended, OneChangeFor, SameChange, Run, OriginalOrPatched;
    AtLeastOnceActsAsExactlyOnce(cx, Slice(View(s), m, nodeOf[m]),
                                 Lone(cx, s, actions, m) + CutShort(Perform(cx, s, actions), m), cur, des);
  }

  /** And from the first done answer on, it is the one with the change. */
  lemma OverlapDoneMeansPatched(cx: Context, s: Process, actions: seq<Action>, nodeOf: map<MachineName, string>,
                                m: MachineName, cur: string, des: string, j: nat)
    requires s.running == map[] && Assigned(nodeOf, View(s)) && Aimed(actions, nodeOf)
    requires WellFormed(m) && m in nodeOf
    requires OneChangeFor(actions, m, cur, des, true) && OneStyle(cx, cur, des)
    requires OnRecord(cx, Slice(View(s), m, nodeOf[m]), cur, des)
    requires OnlyThisChange(cx, Slice(View(s), m, nodeOf[m]), cur, des)
    requires j < |Reports(cx, s, actions, m)| && IsDone(Reports(cx, s, actions, m)[j])
    ensures nodeOf[m] in Perform(cx, s, actions).nodes
    ensures Some(Perform(cx, s, actions).nodes[nodeOf[m]]) == Apply(s.nodes[nodeOf[m]], Intended(cx, cur, des))
  {
    NodeOfLoneRun(cx, s, actions, nodeOf, m);
    LoneFits(cx, s, actions, m, cur, des, true);
    hide Perform, Lone, CutShort, OneStyle, OnlyThisChange, OnRecord, Intended, OneChangeFor, SameChange, Run,
         CacheReadsSucceed, IsDone, Reports;
    DoneMeansPatched(cx, Slice(View(s), m, nodeOf[m]),
                     Lone(cx, s, actions, m) + CutShort(Perform(cx, s, actions), m), cur, des, j);
  }
}
