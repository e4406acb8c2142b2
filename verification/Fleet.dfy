/**
 Many machines behind one extension: the maps of the running process, the shared cache
 and the nodes, and the fact that each machine is served as if it were alone.
 */
module Fleet {
  import opened Wrappers
  import opened ConfigTree
  import opened PatchList
  import opened Engine
  import opened ExactlyOnce
  import opened IntentKept

  datatype MachineName = MachineName(namespace: string, name: string)

  /** The key of a machine in memory. */
  function KeyOf(m: MachineName): string {
    if m.namespace == "" then m.name else m.namespace + "/" + m.name
  }

  /** The key of a machine in the ConfigMap: slashes become dots. */
  function Sanitize(key: string): string {
    seq(|key|, i requires 0 <= i < |key| => if key[i] == '/' then '.' else key[i])
  }

  /** Kubernetes names: the namespace is a label, and neither part contains a slash. */
  predicate WellFormed(m: MachineName) {
    m.namespace != "" && '.' !in m.namespace && '/' !in m.namespace && '/' !in m.name
  }

  lemma SanitizedKey(m: MachineName)
    requires WellFormed(m)
    ensures KeyOf(m) == m.namespace + "/" + m.name
    ensures Sanitize(KeyOf(m)) == m.namespace + "." + m.name
  {
    var k, s := KeyOf(m), m.namespace + "." + m.name;
    forall i | 0 <= i < |k| ensures Sanitize(k)[i] == s[i] {
      if i < |m.namespace| {
        assert k[i] == m.namespace[i] && m.namespace[i] in m.namespace;
      } else if i > |m.namespace| {
        assert k[i] == m.name[i - |m.namespace| - 1] && k[i] in m.name;
      }
    }
  }

  /** A part without dots ends at the first dot. */
  lemma FirstDot(p: string, q: string, x: string, y: string)
    requires '.' !in p && '.' !in q && p + "." + x == q + "." + y
    ensures p == q && x == y
  {
    var s, t := p + "." + x, q + "." + y;
    assert s[|p|] == '.' && t[|q|] == '.';
    assert forall i :: 0 <= i < |p| ==> s[i] == p[i] && p[i] in p;
    assert forall i :: 0 <= i < |q| ==> t[i] == q[i] && q[i] in q;
    assert s[..|p|] == p && t[..|q|] == q;
    assert s[|p| + 1..] == x && t[|q| + 1..] == y;
  }

  /** Different machines never share a ConfigMap entry, nor a key in memory. */
  lemma SanitizeIsInjective(a: MachineName, b: MachineName)
    requires WellFormed(a) && WellFormed(b)
    requires Sanitize(KeyOf(a)) == Sanitize(KeyOf(b))
    ensures a == b
  {
    hide Sanitize, KeyOf;
    SanitizedKey(a);
    SanitizedKey(b);
    FirstDot(a.namespace, b.namespace, a.name, b.name);
  }

  /** A namespace with a dot would break this. */
  lemma DottedNamespaceCollides() returns (a: MachineName, b: MachineName)
    ensures a != b && KeyOf(a) != KeyOf(b) && Sanitize(KeyOf(a)) == Sanitize(KeyOf(b))
    ensures '/' !in a.namespace + a.name + b.namespace + b.name
  {
    a, b := MachineName("a.b", "c"), MachineName("a", "b.c");
    assert KeyOf(a) == "a.b/c" && KeyOf(b) == "a/b.c";
    assert KeyOf(a)[1] == '.' && KeyOf(b)[1] == '/';
  }

  // ---------------------------------------------------------------- the state of a fleet

  datatype FleetState = FleetState(
    state: map<string, UpdateState>,
    patches: map<string, seq<Patch>>,
    cache: map<string, string>,
    nodes: map<string, Document>)

  function With<V>(m: map<string, V>, k: string, v: Option<V>): map<string, V> {
    if v.Some? then m[k := v.value] else m - {k}
  }

  /** Setting an entry to what it already is changes nothing. */
  lemma WithItself<V>(m: map<string, V>, k: string)
    ensures With(m, k, Get(m, k)) == m
  {
  }

  /** One machine's share of the fleet, on the node at the given address. */
  function Slice(f: FleetState, m: MachineName, address: string): Machine {
    Machine(Get(f.state, KeyOf(m)), Get(f.patches, KeyOf(m)), Get(f.cache, Sanitize(KeyOf(m))),
            if address in f.nodes then f.nodes[address] else map[])
  }

  function WithSlice(f: FleetState, m: MachineName, address: string, s: Machine): FleetState {
    FleetState(With(f.state, KeyOf(m), s.state), With(f.patches, KeyOf(m), s.patches),
          With(f.cache, Sanitize(KeyOf(m)), s.entry),
          if address in f.nodes then f.nodes[address := s.live] else f.nodes)
  }

  /** A node that does not exist cannot be read. */
  function Reaching(f: FleetState, c: Call): Call {
    c.(nodeRead := c.nodeRead && c.address in f.nodes)
  }

  function UpdateResult(cx: Context, f: FleetState, m: MachineName, c: Call): CallResult {
    UpdateMachine(cx, Slice(f, m, c.address), Reaching(f, c))
  }

  datatype FleetInput =
    | CanUpdateFor(machine: MachineName, intent: Intent)
    | UpdateFor(machine: MachineName, call: Call)
    | PodRestart

  function FleetStep(cx: Context, f: FleetState, i: FleetInput): FleetState {
    match i
    case CanUpdateFor(m, intent) => WithSlice(f, m, "", StoreDiff(cx, Slice(f, m, ""), intent))
    case UpdateFor(m, c) => WithSlice(f, m, c.address, UpdateResult(cx, f, m, c).machine)
    case PodRestart => f.(state := map[], patches := map[])
  }

  function FleetRun(cx: Context, f: FleetState, inputs: seq<FleetInput>): FleetState {
    if inputs == [] then f
    else FleetStep(cx, FleetRun(cx, f, inputs[..|inputs| - 1]), inputs[|inputs| - 1])
  }

  /** What a run looks like to one machine. */
  function Project(inputs: seq<FleetInput>, m: MachineName): seq<Input> {
    if inputs == [] then []
    else
      var n := |inputs| - 1;
      var i := inputs[n];
      Project(inputs[..n], m) +
        if i.PodRestart? then [Restart]
        else if i.machine != m then []
        else if i.CanUpdateFor? then [CanUpdate(i.intent)]
        else [Update(i.call)]
  }

  /** What one step means to one machine: at most one event. */
  function FleetEvent(cx: Context, f: FleetState, i: FleetInput, m: MachineName): seq<Event> {
    if i.PodRestart? then [PodRestarted]
    else if i.machine != m then []
    else if i.CanUpdateFor? then [Recorded(i.intent)]
    else
      var r := UpdateResult(cx, f, m, i.call);
      [Called(i.call, r.reply, r.attempt)]
  }

  /** What happened to one machine in a run of the fleet. */
  function FleetHistory(cx: Context, f: FleetState, inputs: seq<FleetInput>, m: MachineName): seq<Event> {
    if inputs == [] then []
    else
      var n := |inputs| - 1;
      FleetHistory(cx, f, inputs[..n], m) + FleetEvent(cx, FleetRun(cx, f, inputs[..n]), inputs[n], m)
  }

  /** Every machine named has a well-formed name, and its calls find its own node or none. */
  ghost predicate Addressed(inputs: seq<FleetInput>, nodeOf: map<MachineName, string>) {
    forall i :: i in inputs ==>
      && (!i.PodRestart? ==> WellFormed(i.machine) && i.machine in nodeOf)
      && (i.UpdateFor? ==> i.call.address == "" || i.call.address == nodeOf[i.machine])
  }

  /** Different machines are different nodes, and every one of them exists. */
  ghost predicate Assigned(nodeOf: map<MachineName, string>, f: FleetState) {
    && (forall a, b :: a in nodeOf && b in nodeOf && nodeOf[a] == nodeOf[b] ==> a == b)
    && (forall a :: a in nodeOf ==> nodeOf[a] != "" && nodeOf[a] in f.nodes)
    && "" !in f.nodes
  }

  lemma WithSliceThenSlice(f: FleetState, m: MachineName, address: string, s: Machine, other: MachineName, at: string)
    requires WellFormed(m) && WellFormed(other)
    ensures address in f.nodes ==> Slice(WithSlice(f, m, address, s), m, address) == s
    ensures address !in f.nodes ==> Slice(WithSlice(f, m, address, s), m, at) == s.(live := Slice(f, m, at).live)
    ensures other != m && at != address ==> Slice(WithSlice(f, m, address, s), other, at) == Slice(f, other, at)
    ensures WithSlice(f, m, address, s).nodes.Keys == f.nodes.Keys
  {
    if other != m {
      if Sanitize(KeyOf(m)) == Sanitize(KeyOf(other)) {
        SanitizeIsInjective(m, other);
      }
    }
  }

  /** A call that finds no address does nothing, whatever the node. */
  lemma NoAddressNoEffect(cx: Context, m: Machine, c: Call)
    requires c.address == ""
    ensures UpdateMachine(cx, m, c) == Fail(m, NoAddress)
  {
  }

  /** Recording an intent does not look at the node. */
  lemma StoreIgnoresNode(cx: Context, m: Machine, i: Intent, live: Document)
    ensures StoreDiff(cx, m.(live := live), i) == StoreDiff(cx, m, i).(live := live)
  {
  }

  lemma IsolationStep(cx: Context, f: FleetState, i: FleetInput, nodeOf: map<MachineName, string>, m: MachineName)
    requires Addressed([i], nodeOf) && Assigned(nodeOf, f) && WellFormed(m) && m in nodeOf
    ensures Assigned(nodeOf, FleetStep(cx, f, i))
    ensures var before, after := Slice(f, m, nodeOf[m]), Slice(FleetStep(cx, f, i), m, nodeOf[m]);
      if i.PodRestart? then after == Step(cx, before, Restart)
      else if i.machine != m then after == before
      else if i.CanUpdateFor? then after == Step(cx, before, CanUpdate(i.intent))
      else after == Step(cx, before, Update(i.call)) && FleetEvent(cx, f, i, m) == [EventOf(cx, before, Update(i.call))]
  {
    assert i in [i];
    hide UpdateMachine;
    hide StoreDiff;
    hide Sanitize;
    match i
    case PodRestart =>
    case CanUpdateFor(k, intent) =>
      WithSliceThenSlice(f, k, "", StoreDiff(cx, Slice(f, k, ""), intent), m, nodeOf[m]);
      WithSliceThenSlice(f, k, "", StoreDiff(cx, Slice(f, k, ""), intent), k, nodeOf[m]);
      StoreIgnoresNode(cx, Slice(f, m, ""), intent, Slice(f, m, nodeOf[m]).live);
    case UpdateFor(k, c) =>
      var r := UpdateResult(cx, f, k, c).machine;
      WithSliceThenSlice(f, k, c.address, r, m, nodeOf[m]);
      if c.address == "" {
        NoAddressNoEffect(cx, Slice(f, k, ""), Reaching(f, c));
        NoAddressNoEffect(cx, Slice(f, k, nodeOf[k]), c);
      }
  }

  /**
   Any interleaved run over many machines, seen by one of them, is a run of that machine
   alone, with the same answers and the same pushes.
   */
  lemma {:induction false} MachineIsolation(cx: Context, f: FleetState, inputs: seq<FleetInput>,
                                            nodeOf: map<MachineName, string>, m: MachineName)
    requires Addressed(inputs, nodeOf) && Assigned(nodeOf, f) && WellFormed(m) && m in nodeOf
    ensures Assigned(nodeOf, FleetRun(cx, f, inputs))
    ensures Slice(FleetRun(cx, f, inputs), m, nodeOf[m]) == Run(cx, Slice(f, m, nodeOf[m]), Project(inputs, m))
    ensures FleetHistory(cx, f, inputs, m) == History(cx, Slice(f, m, nodeOf[m]), Project(inputs, m))
    decreases |inputs|
  {
    if inputs != [] {
      var n := |inputs| - 1;
      var i := inputs[n];
      MachineIsolation(cx, f, inputs[..n], nodeOf, m);
      assert i in inputs;
      IsolationStep(cx, FleetRun(cx, f, inputs[..n]), i, nodeOf, m);
      var own, all := Project(inputs[..n], m), Project(inputs, m);
      hide Step;
      hide Slice;
      hide FleetStep;
      hide Assigned;
      if |all| > |own| {
        assert all[..|all| - 1] == own;
      } else {
        assert all == own;
      }
    }
  }

  /** In a fleet too, each node ends up with its change made at most once. */
  lemma FleetActsExactlyOnce(cx: Context, f: FleetState, inputs: seq<FleetInput>,
                             nodeOf: map<MachineName, string>, m: MachineName, cur: string, des: string)
    requires Addressed(inputs, nodeOf) && Assigned(nodeOf, f) && WellFormed(m) && m in nodeOf
    requires SameChange(Project(inputs, m), cur, des) && OneStyle(cx, cur, des)
    requires OnlyThisChange(cx, Slice(f, m, nodeOf[m]), cur, des)
    ensures nodeOf[m] in FleetRun(cx, f, inputs).nodes
    ensures OriginalOrPatched(FleetRun(cx, f, inputs).nodes[nodeOf[m]], f.nodes[nodeOf[m]], Intended(cx, cur, des))
  {
    MachineIsolation(cx, f, inputs, nodeOf, m);
    AtLeastOnceActsAsExactlyOnce(cx, Slice(f, m, nodeOf[m]), Project(inputs, m), cur, des);
  }

  /** And a machine that is told it is done runs its own configuration with the change made. */
  lemma FleetDoneMeansPatched(cx: Context, f: FleetState, inputs: seq<FleetInput>,
                              nodeOf: map<MachineName, string>, m: MachineName, cur: string, des: string, j: nat)
    requires Addressed(inputs, nodeOf) && Assigned(nodeOf, f) && WellFormed(m) && m in nodeOf
    requires SameChange(Project(inputs, m), cur, des) && CacheReadsSucceed(Project(inputs, m)) && OneStyle(cx, cur, des)
    requires OnRecord(cx, Slice(f, m, nodeOf[m]), cur, des) && OnlyThisChange(cx, Slice(f, m, nodeOf[m]), cur, des)
    requires j < |FleetHistory(cx, f, inputs, m)| && IsDone(FleetHistory(cx, f, inputs, m)[j])
    ensures nodeOf[m] in FleetRun(cx, f, inputs).nodes
    ensures Some(FleetRun(cx, f, inputs).nodes[nodeOf[m]]) == Apply(f.nodes[nodeOf[m]], Intended(cx, cur, des))
  {
    MachineIsolation(cx, f, inputs, nodeOf, m);
    hide Intended, OnRecord, OnlyThisChange, OneStyle, FleetHistory, FleetRun, SameChange;
    DoneMeansPatched(cx, Slice(f, m, nodeOf[m]), Project(inputs, m), cur, des, j);
  }
}
