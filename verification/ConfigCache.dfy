/**
 The shared ConfigMap behind the config cache, and the read-modify-write protocol by
 which concurrent requests for different machines keep their entries in it.
 */
module ConfigCache {
  import opened Wrappers

  type Entries = map<string, string>

  datatype ConfigMap = ConfigMap(data: Entries, version: nat)

  /** One machine's entry is written or dropped. */
  datatype Change = Put(key: string, value: string) | Drop(key: string)

  function Changed(data: Entries, c: Change): Entries {
    match c
    case Put(k, v) => data[k := v]
    case Drop(k) => data - {k}
  }

  function EntriesOf(cm: Option<ConfigMap>): Entries {
    if cm.Some? then cm.value.data else map[]
  }

  // ---------------------------------------------------------------- the API server

  /** Create fails when the object is already there. */
  function CreateOn(server: Option<ConfigMap>, data: Entries): Option<ConfigMap> {
    if server.None? then Some(ConfigMap(data, 1)) else server
  }

  /** Update fails when the object is gone or has moved on since it was read. */
  function UpdateOn(server: Option<ConfigMap>, data: Entries, version: nat): Option<ConfigMap> {
    if server.Some? && server.value.version == version then Some(ConfigMap(data, version + 1)) else server
  }

  // ---------------------------------------------------------------- requests in flight

  datatype Phase = Pending | HasRead(seen: Option<ConfigMap>) | Finished

  datatype Request = Request(change: Change, phase: Phase)

  /** The server, the requests in flight by number, and the writes that took effect so far. */
  datatype System = System(server: Option<ConfigMap>, requests: map<nat, Request>, log: seq<Change>)

  datatype Action =
    | Begin(id: nat, change: Change)
    | Read(id: nat, succeeds: bool)
    | Write(id: nat, reaches: bool)

  /** What a request sends back after reading: nothing when there is nothing to drop. */
  function WriteBack(server: Option<ConfigMap>, seen: Option<ConfigMap>, c: Change): Option<ConfigMap> {
    match (c, seen)
    case (Put(k, v), None) => CreateOn(server, map[k := v])
    case (Put(k, v), Some(cm)) => UpdateOn(server, cm.data[k := v], cm.version)
    case (Drop(k), None) => server
    case (Drop(k), Some(cm)) =>
      if k in cm.data then UpdateOn(server, cm.data - {k}, cm.version) else server
  }

  /** Actions may come in any order and interleaving; one that does not fit is ignored. */
  function Next(s: System, a: Action): System {
    match a
    case Begin(id, change) =>
      if id in s.requests then s else s.(requests := s.requests[id := Request(change, Pending)])
    case Read(id, succeeds) =>
      if id !in s.requests || !s.requests[id].phase.Pending? then s
      else s.(requests := s.requests[id := s.requests[id].(phase := if succeeds then HasRead(s.server) else Finished)])
    case Write(id, reaches) =>
      if id !in s.requests || !s.requests[id].phase.HasRead? then s
      else
        var r := s.requests[id];
        var server' := if reaches then WriteBack(s.server, r.phase.seen, r.change) else s.server;
        System(server', s.requests[id := r.(phase := Finished)],
               if server' == s.server then s.log else s.log + [r.change])
  }

  function Execute(s: System, actions: seq<Action>): System {
    if actions == [] then s
    else Next(Execute(s, actions[..|actions| - 1]), actions[|actions| - 1])
  }

  /** What is sent back at once takes effect, unless there is nothing to change. */
  lemma FreshWriteBack(server: Option<ConfigMap>, c: Change)
    ensures EntriesOf(WriteBack(server, server, c)) == Changed(EntriesOf(server), c)
  {
  }

  /** One request that no other comes between: a read, followed by a write. */
  function Alone(server: Option<ConfigMap>, c: Change, readSucceeds: bool, reaches: bool): Option<ConfigMap> {
    Execute(System(server, map[], []), [Begin(0, c), Read(0, readSucceeds), Write(0, reaches)]).server
  }

  /** It sends back what it has just read with its change, unless one of the two fails. */
  lemma AloneWritesBack(server: Option<ConfigMap>, c: Change, readSucceeds: bool, reaches: bool)
    ensures var server' := Alone(server, c, readSucceeds, reaches);
      && server' == (if readSucceeds && reaches then WriteBack(server, server, c) else server)
      && EntriesOf(server') ==
         if readSucceeds && reaches then Changed(EntriesOf(server), c) else EntriesOf(server)
  {
    FreshWriteBack(server, c);
    var start := System(server, map[], []);
    var actions := [Begin(0, c), Read(0, readSucceeds), Write(0, reaches)];
    assert actions[..2][..1][..0] == [];
    assert Execute(start, actions[..2][..1]) == Next(start, actions[0]);
    assert Execute(start, actions[..2]) == Next(Execute(start, actions[..2][..1]), actions[1]);
    assert Execute(start, actions) == Next(Execute(start, actions[..2]), actions[2]);
  }

  // ---------------------------------------------------------------- linearizability

  /** What was read is never newer than the server, and as new as the server it is the same. */
  predicate Honest(server: Option<ConfigMap>, seen: Option<ConfigMap>) {
    seen.Some? ==>
      && server.Some?
      && seen.value.version <= server.value.version
      && (seen.value.version == server.value.version ==> seen == server)
  }

  ghost predicate ReadsAreHonest(s: System) {
    forall id :: id in s.requests && s.requests[id].phase.HasRead? ==> Honest(s.server, s.requests[id].phase.seen)
  }

  /** What is sent back after an honest read does nothing, or is the one change made to the latest entries. */
  lemma WriteBackIsAtomic(server: Option<ConfigMap>, seen: Option<ConfigMap>, c: Change)
    requires Honest(server, seen)
    ensures var server' := WriteBack(server, seen, c);
      && (server' != server ==> EntriesOf(server') == Changed(EntriesOf(server), c))
      && forall other :: Honest(server, other) ==> Honest(server', other)
  {
  }

  /** Every write that takes effect is its one change made atomically to the latest entries. */
  lemma WriteIsAtomic(s: System, a: Action)
    requires ReadsAreHonest(s)
    ensures ReadsAreHonest(Next(s, a))
    ensures var s' := Next(s, a);
      if s'.log == s.log then s'.server == s.server
      else a.Write? && a.id in s.requests && s'.log == s.log + [s.requests[a.id].change]
           && EntriesOf(s'.server) == Changed(EntriesOf(s.server), s.requests[a.id].change)
  {
    if a.Write? && a.id in s.requests && s.requests[a.id].phase.HasRead? {
      WriteBackIsAtomic(s.server, s.requests[a.id].phase.seen, s.requests[a.id].change);
    }
    hide WriteBack, Changed;
  }

  /** The entries a log of changes leaves behind, one change after the other. */
  function Replay(data: Entries, log: seq<Change>): Entries {
    if log == [] then data else Changed(Replay(data, log[..|log| - 1]), log[|log| - 1])
  }

  /**
   For any interleaving of reads and writes the ConfigMap is what the effective changes,
   made one at a time in the order in which they took effect, leave behind.
   */
  lemma {:induction false} Linearizable(server: Option<ConfigMap>, actions: seq<Action>)
    ensures var s := Execute(System(server, map[], []), actions);
      ReadsAreHonest(s) && EntriesOf(s.server) == Replay(EntriesOf(server), s.log)
    decreases |actions|
  {
    if actions != [] {
      var n := |actions| - 1;
      Linearizable(server, actions[..n]);
      var s := Execute(System(server, map[], []), actions[..n]);
      WriteIsAtomic(s, actions[n]);
      var s' := Next(s, actions[n]);
      assert s'.log != s.log ==> s'.log[..|s'.log| - 1] == s.log;
    }
  }

  /** The last effective change to a key. */
  function LastChange(log: seq<Change>, key: string): Option<Change> {
    if log == [] then None
    else if log[|log| - 1].key == key then Some(log[|log| - 1])
    else LastChange(log[..|log| - 1], key)
  }

  /** Only changes to a key matter to its entry, and the last one decides. */
  lemma {:induction false} EntryIsLastChange(data: Entries, log: seq<Change>, key: string)
    ensures Get(Replay(data, log), key)
         == match LastChange(log, key)
            case None => Get(data, key)
            case Some(Put(_, value)) => Some(value)
            case Some(Drop(_)) => None
    decreases |log|
  {
    if log != [] {
      EntryIsLastChange(data, log[..|log| - 1], key);
    }
  }

  lemma {:induction false} NoChangeToKey(server: Option<ConfigMap>, actions: seq<Action>, key: string)
    requires forall a :: a in actions && a.Begin? ==> a.change.key != key
    ensures var s := Execute(System(server, map[], []), actions);
      && (forall id :: id in s.requests ==> s.requests[id].change.key != key)
      && LastChange(s.log, key) == None
    decreases |actions|
  {
    if actions != [] {
      var n := |actions| - 1;
      NoChangeToKey(server, actions[..n], key);
      var s := Execute(System(server, map[], []), actions[..n]);
      var s' := Next(s, actions[n]);
      assert actions[n] in actions;
      assert s'.log != s.log ==> s'.log[..|s'.log| - 1] == s.log;
    }
  }

  /** So requests for other machines can neither lose nor revive a machine's entry. */
  lemma OthersLeaveEntryAlone(server: Option<ConfigMap>, actions: seq<Action>, key: string)
    requires forall a :: a in actions && a.Begin? ==> a.change.key != key
    ensures Get(EntriesOf(Execute(System(server, map[], []), actions).server), key) == Get(EntriesOf(server), key)
  {
    Linearizable(server, actions);
    NoChangeToKey(server, actions, key);
    EntryIsLastChange(EntriesOf(server), Execute(System(server, map[], []), actions).log, key);
  }
}
