/**
 The extension itself: the process's two maps, the API server and the nodes it talks to,
 and the hooks as they run.
 */
module Handlers {
  import opened Wrappers
  import opened Json
  import opened JsonPatch
  import opened ConfigTree
  import opened PatchList
  import opened Bootstrap
  import opened Engine
  import opened Fleet
  import opened ConfigCache
  import opened Claims

  datatype ReadResult = Found(cm: ConfigMap) | NotFound | ReadFailed

  /** The API server's side of the config cache. */
  class ApiServer {
    var cm: Option<ConfigMap>

    constructor ()
      ensures cm == None
    {
      cm := None;
    }

    method Get(succeeds: bool) returns (r: ReadResult)
      ensures r == if !succeeds then ReadFailed else if cm.None? then NotFound else Found(cm.value)
    {
      r := if !succeeds then ReadFailed else if cm.None? then NotFound else Found(cm.value);
    }

    method Create(data: Entries, outcome: WriteOutcome) returns (ok: bool)
      modifies this
      ensures cm == if outcome == Refused then old(cm) else CreateOn(old(cm), data)
      ensures ok <==> outcome == Written && old(cm).None?
    {
      ok := outcome == Written && cm.None?;
      if outcome != Refused {
        cm := CreateOn(cm, data);
      }
    }

    method Update(data: Entries, version: nat, outcome: WriteOutcome) returns (ok: bool)
      modifies this
      ensures cm == if outcome == Refused then old(cm) else UpdateOn(old(cm), data, version)
      ensures ok <==> outcome == Written && old(cm).Some? && old(cm).value.version == version
    {
      ok := outcome == Written && cm.Some? && cm.value.version == version;
      if outcome != Refused {
        cm := UpdateOn(cm, data, version);
      }
    }
  }

  /** The Talos API of all nodes, by address, with the pushes they were sent. */
  class TalosApi {
    var nodes: map<string, Document>
    var pushes: seq<(string, Attempt)>

    constructor (nodes: map<string, Document>)
      ensures this.nodes == nodes && pushes == []
    {
      this.nodes, pushes := nodes, [];
    }

    method NodeConfigProvider(address: string, succeeds: bool) returns (r: Option<Document>)
      ensures r == if succeeds && address in nodes then Some(nodes[address]) else None
    {
      r := if succeeds && address in nodes then Some(nodes[address]) else None;
    }

    method ApplyConfig(address: string, config: Document, mode: Mode, outcome: WriteOutcome, at: int) returns (ok: bool)
      requires address in nodes
      modifies this
      ensures nodes == if outcome == Refused then old(nodes) else old(nodes)[address := config]
      ensures pushes == old(pushes) + [(address, Attempt(config, mode, outcome, at))]
      ensures ok <==> outcome == Written
    {
      pushes := pushes + [(address, Attempt(config, mode, outcome, at))];
      if outcome != Refused {
        nodes := nodes[address := config];
      }
      ok := outcome == Written;
    }
  }

  class UpdateResponse {
    var status: Status
    var message: Option<Message>
    var retryAfterSeconds: nat

    constructor ()
      ensures IsEmpty()
    {
      status, message, retryAfterSeconds := Unset, None, 0;
    }

    predicate IsEmpty()
      reads this
    {
      status == Unset && message == None && retryAfterSeconds == 0
    }

    predicate Says(r: Reply)
      reads this
    {
      status == r.status && message == Some(r.message) && retryAfterSeconds == r.retryAfter
    }
  }

  class ClaimResponse {
    var status: Status
    var objectPatch: Option<seq<Op>>
    var bootstrapPatch: Option<seq<Op>>
    var infraPatch: Option<seq<Op>>

    constructor ()
      ensures IsEmpty()
    {
      status, objectPatch, bootstrapPatch, infraPatch := Unset, None, None, None;
    }

    predicate IsEmpty()
      reads this
    {
      status == Unset && HasNoPatch()
    }

    predicate HasNoPatch()
      reads this
    {
      objectPatch == None && bootstrapPatch == None && infraPatch == None
    }
  }

  /** One side of a CanUpdate request: the typed object and the two raw ones. */
  datatype Triple = Triple(typed: ApiObject, bootstrap: string, infra: string)

  /** The typed object is a Machine on both sides, or a MachineSet on both. */
  predicate SameKind(a: Triple, b: Triple) {
    a.typed.holder.InMachine? == b.typed.holder.InMachine?
  }

  /** The answer is a failure when the first pair of texts that is not taken cannot be read. */
  predicate Fails(codec: Codec, cur: Triple, des: Triple) {
    || Rejects(codec, cur.bootstrap, des.bootstrap)
    || (!Panics(codec, cur.bootstrap, des.bootstrap) && Rejects(codec, cur.infra, des.infra))
  }

  /** The call panics when the first pair that is not taken has nothing to store the desired spec in. */
  predicate Breaks(codec: Codec, cur: Triple, des: Triple) {
    || Panics(codec, cur.bootstrap, des.bootstrap)
    || (!Rejects(codec, cur.bootstrap, des.bootstrap) && Panics(codec, cur.infra, des.infra))
  }

  /** What the hooks answer: three patches that make exactly the claimed changes, or none. */
  ghost predicate Answers(codec: Codec, cur: Triple, des: Triple, resp: ClaimResponse)
    reads resp
  {
    && (resp.status == Failure <==> Fails(codec, cur, des))
    && (resp.status == Unset <==> Breaks(codec, cur, des))
    && (resp.status != Success ==> resp.HasNoPatch())
    && (resp.status == Success ==>
          && resp.objectPatch.Some? && resp.bootstrapPatch.Some? && resp.infraPatch.Some?
          && ClaimsAreHonoured(codec, cur, des,
                               resp.objectPatch.value, resp.bootstrapPatch.value, resp.infraPatch.value))
  }

  /** The three patches, applied to the current objects, make exactly the claimed changes. */
  ghost predicate ClaimsAreHonoured(codec: Codec, cur: Triple, des: Triple,
                                    typed: seq<Op>, bootstrap: seq<Op>, infra: seq<Op>) {
    && ApplyPatch(Marshal(cur.typed), typed) == Some(Marshal(Claimed(cur.typed, des.typed)))
    && OnlyTwoFieldsTaken(cur.typed, des.typed, ApplyPatch(Marshal(cur.typed), typed).value)
    && SpecTaken(codec, cur.bootstrap, des.bootstrap, bootstrap)
    && SpecTaken(codec, cur.infra, des.infra, infra)
  }

  predicate IsObjectText(codec: Codec, raw: string) {
    raw != "" && codec.decode(raw).Some? && codec.decode(raw).value.Obj?
  }

  /** What the raw text says besides its spec. */
  function OutsideSpec(codec: Codec, raw: string): map<string, Json>
    requires IsObjectText(codec, raw)
  {
    codec.decode(raw).value.fields - {"spec"}
  }

  /**
   For objects whose desired side has a spec, honoured claims take the current triple to
   the desired one exactly when the two agree outside what is claimed.
   */
  lemma ClaimsReachDesiredExactlyWhen(codec: Codec, cur: Triple, des: Triple,
                                      typed: seq<Op>, bootstrap: seq<Op>, infra: seq<Op>)
    requires SameKind(cur, des) && ClaimsAreHonoured(codec, cur, des, typed, bootstrap, infra)
    requires IsObjectText(codec, cur.bootstrap) && IsObjectText(codec, des.bootstrap) && HasSpec(codec, des.bootstrap)
    requires IsObjectText(codec, cur.infra) && IsObjectText(codec, des.infra) && HasSpec(codec, des.infra)
    ensures
      (ApplyPatch(Marshal(cur.typed), typed) == Some(Marshal(des.typed))
       && ApplyPatch(codec.decode(cur.bootstrap).value, bootstrap) == codec.decode(des.bootstrap)
       && ApplyPatch(codec.decode(cur.infra).value, infra) == codec.decode(des.infra))
      <==>
      (cur.typed.holder == des.typed.holder
       && cur.typed.spec.other == des.typed.spec.other
       && OutsideSpec(codec, cur.bootstrap) == OutsideSpec(codec, des.bootstrap)
       && OutsideSpec(codec, cur.infra) == OutsideSpec(codec, des.infra))
  {
    ClaimReachesDesiredExactlyWhen(cur.typed, des.typed);
    SpecClaimIsDesiredExactlyWhen(codec, cur.bootstrap, des.bootstrap, bootstrap);
    SpecClaimIsDesiredExactlyWhen(codec, cur.infra, des.infra, infra);
    hide ApplyPatch, SpecTaken, OnlyTwoFieldsTaken;
  }

  /** A fleet after one machine's step, part by part: what its share keeps, the fleet keeps. */
  lemma WithSliceByParts(f: FleetState, m: MachineName, address: string, s: Machine)
    ensures var f', key := WithSlice(f, m, address, s), KeyOf(m);
      && f'.state == (if s.state == Get(f.state, key) then f.state else With(f.state, key, s.state))
      && f'.patches == (if s.patches == Get(f.patches, key) then f.patches else With(f.patches, key, s.patches))
      && f'.cache == (if s.entry == Get(f.cache, Sanitize(key)) then f.cache else With(f.cache, Sanitize(key), s.entry))
      && f'.nodes == (if address in f.nodes && s.live != f.nodes[address] then f.nodes[address := s.live] else f.nodes)
  {
    WithItself(f.state, KeyOf(m));
    WithItself(f.patches, KeyOf(m));
    WithItself(f.cache, Sanitize(KeyOf(m)));
    if address in f.nodes {
      assert f.nodes[address := f.nodes[address]] == f.nodes;
    }
  }

  /** A push, in the terms of the process's maps. */
  lemma SendByParts(cx: Context, f: FleetState, m: MachineName, c: Call, config: Document)
    requires c.address in f.nodes
    ensures var r, key := Send(cx, Slice(f, m, c.address), config, c), KeyOf(m);
      var nodes := if c.apply == Refused then f.nodes else f.nodes[c.address := config];
      var mode := if IsControlPlane(c.labels) then NoReboot else Auto;
      && r.attempt == Some(Attempt(config, mode, c.apply, c.finish))
      && r.reply == Reply(Success, if c.apply == Written then Applied else WillRetry, RETRY_INTERVAL)
      && WithSlice(f, m, c.address, r.machine) ==
         if c.apply == Written then
           FleetState(f.state[key := UpdateState(c.finish, true)], f.patches - {key},
                      With(f.cache, Sanitize(key), Cleaned(cx, Get(f.cache, Sanitize(key)), c)), nodes)
         else
           FleetState(if key in f.state then f.state else f.state[key := UpdateState(c.finish, false)],
                      f.patches, f.cache, nodes)
  {
    WithItself(f.state, KeyOf(m));
    WithItself(f.patches, KeyOf(m));
    WithItself(f.cache, Sanitize(KeyOf(m)));
    assert f.nodes[c.address := f.nodes[c.address]] == f.nodes;
    hide Cleaned, Sanitize;
  }

  /** The calls the update record answers by itself, in the terms of the process's maps. */
  lemma ProgressByParts(cx: Context, f: FleetState, m: MachineName, c: Call)
    ensures var r, key := UpdateResult(cx, f, m, c), KeyOf(m);
      var after := WithSlice(f, m, c.address, r.machine);
      var closed := f.(state := f.state - {key}, patches := f.patches - {key});
      if c.address == "" then after == f && r.reply == Reply(Failure, NoAddress, 0) && r.attempt.None?
      else if key in f.state && c.start - f.state[key].startedAt > UPDATE_TIMEOUT then
        after == closed && r.reply == Reply(Failure, TimedOut, 0) && r.attempt.None?
      else if key in f.state && f.state[key].applied then
        if c.start - f.state[key].startedAt > SETTLE_TIME
        then after == closed && r.reply == Reply(Success, Complete, 0) && r.attempt.None?
        else after == f && r.reply == Reply(Success, Settling, RETRY_INTERVAL) && r.attempt.None?
      else r == TryToApply(cx, Slice(f, m, c.address), Reaching(f, c))
  {
    OwnSlice(f, m, c.address, Slice(f, m, c.address), Slice(f, m, c.address));
    WithSliceByParts(f, m, c.address, Forget(Slice(f, m, c.address)));
    hide TryToApply, WithSlice, Sanitize;
  }

  /** Opening a machine's update record touches nothing else. */
  lemma WithSliceState(f: FleetState, m: MachineName, address: string, s: Machine, st: UpdateState)
    ensures WithSlice(f, m, address, s.(state := Some(st)))
         == WithSlice(f, m, address, s).(state := WithSlice(f, m, address, s).state[KeyOf(m) := st])
  {
  }

  lemma WithTwice<V>(m: map<string, V>, k: string, first: Option<V>, second: Option<V>)
    ensures With(With(m, k, first), k, second) == With(m, k, second)
    ensures Get(With(m, k, first), k) == first
  {
  }

  /** Two changes of one share are the second, and the share is then what it was set to. */
  lemma OwnSlice(f: FleetState, m: MachineName, address: string, first: Machine, second: Machine)
    ensures WithSlice(WithSlice(f, m, address, first), m, address, second) == WithSlice(f, m, address, second)
    ensures address in f.nodes ==>
      address in WithSlice(f, m, address, first).nodes && Slice(WithSlice(f, m, address, first), m, address) == first
    ensures WithSlice(f, m, address, Slice(f, m, address)) == f
  {
    WithItself(f.state, KeyOf(m));
    WithItself(f.patches, KeyOf(m));
    WithItself(f.cache, Sanitize(KeyOf(m)));
    WithTwice(f.state, KeyOf(m), first.state, second.state);
    WithTwice(f.patches, KeyOf(m), first.patches, second.patches);
    WithTwice(f.cache, Sanitize(KeyOf(m)), first.entry, second.entry);
    hide With;
    if address in f.nodes {
      assert f.nodes[address := f.nodes[address]] == f.nodes;
      assert f.nodes[address := first.live][address := second.live] == f.nodes[address := second.live];
    }
  }

  /** Beyond deciding whether to go on, whether the node can be read plays no part. */
  lemma TryToApplyCases(cx: Context, m: Machine, c: Call, reaching: Call)
    requires reaching == c.(nodeRead := reaching.nodeRead)
    ensures var found, plan := m.(patches := FindPatches(cx, m, c)), PlanFor(cx, m, c);
      TryToApply(cx, m, reaching) ==
        if !reaching.nodeRead then Fail(m, NodeReadFailed)
        else match plan
          case Stop(message) => Fail(found, message)
          case Nothing =>
            CallResult(found.(state := Some(UpdateState(c.finish, true))),
                       Reply(Success, NothingToApply, RETRY_INTERVAL), None)
          case Push(config) => Send(cx, found, config, c)
  {
  }

  class ExtensionHandlers {
    var state: map<string, UpdateState>
    var configPatches: map<string, seq<Patch>>
    const codec: Codec
    const hasStore: bool
    const k8s: ApiServer
    const talos: TalosApi

    constructor (codec: Codec, hasStore: bool, k8s: ApiServer, talos: TalosApi)
      ensures state == map[] && configPatches == map[]
      ensures this.codec == codec && this.hasStore == hasStore && this.k8s == k8s && this.talos == talos
    {
      this.codec, this.hasStore, this.k8s, this.talos := codec, hasStore, k8s, talos;
      state, configPatches := map[], map[];
    }

    function Cx(): Context {
      Context(codec, hasStore)
    }

    function View(): FleetState
      reads this, k8s, talos
    {
      FleetState(state, configPatches, EntriesOf(k8s.cm), talos.nodes)
    }

    // -------------------------------------------------------------- the config cache

    method PersistCurrentConfig(m: MachineName, i: Intent) returns (ok: bool)
      modifies k8s
      ensures k8s.cm == Alone(old(k8s.cm), ConfigCache.Put(Sanitize(KeyOf(m)), i.current),
                              i.persistRead, i.persistWrite != Refused)
      ensures EntriesOf(k8s.cm)
           == if i.persistRead && i.persistWrite != Refused
              then Changed(EntriesOf(old(k8s.cm)), ConfigCache.Put(Sanitize(KeyOf(m)), i.current))
              else EntriesOf(old(k8s.cm))
      ensures ok <==> i.persistRead && i.persistWrite == Written
    {
      var dataKey := Sanitize(KeyOf(m));
      AloneWritesBack(k8s.cm, ConfigCache.Put(dataKey, i.current), i.persistRead, i.persistWrite != Refused);
      hide Alone;
      var got := k8s.Get(i.persistRead);
      match got
      case NotFound => ok := k8s.Create(map[dataKey := i.current], i.persistWrite);
      case ReadFailed => ok := false;
      case Found(cm) => ok := k8s.Update(cm.data[dataKey := i.current], cm.version, i.persistWrite);
    }

    method CleanupConfigCache(m: MachineName, c: Call)
      modifies k8s
      ensures k8s.cm ==
        if hasStore then Alone(old(k8s.cm), Drop(Sanitize(KeyOf(m))), c.cleanupRead, c.cleanupWrite != Refused)
        else old(k8s.cm)
      ensures EntriesOf(k8s.cm)
           == With(EntriesOf(old(k8s.cm)), Sanitize(KeyOf(m)),
                   Cleaned(Cx(), Get(EntriesOf(old(k8s.cm)), Sanitize(KeyOf(m))), c))
    {
      WithItself(EntriesOf(k8s.cm), Sanitize(KeyOf(m)));
      AloneWritesBack(k8s.cm, Drop(Sanitize(KeyOf(m))), c.cleanupRead, c.cleanupWrite != Refused);
      hide Alone;
      if !hasStore {
        return;
      }
      var got := k8s.Get(c.cleanupRead);
      if !got.Found? {
        return;
      }
      var dataKey := Sanitize(KeyOf(m));
      if dataKey !in got.cm.data {
        return;
      }
      var _ := k8s.Update(got.cm.data - {dataKey}, got.cm.version, c.cleanupWrite);
    }

    method RecoverPatchesFromConfigMap(m: MachineName, c: Call) returns (ps: Option<seq<Patch>>)
      modifies this
      ensures ps == Recover(Cx(), Get(EntriesOf(k8s.cm), Sanitize(KeyOf(m))), c.cacheRead, c.desired)
      ensures state == old(state)
      ensures configPatches == if ps.Some? then old(configPatches)[KeyOf(m) := ps.value] else old(configPatches)
    {
      if !hasStore {
        return None;
      }
      var got := k8s.Get(c.cacheRead);
      if !got.Found? || Sanitize(KeyOf(m)) !in got.cm.data {
        return None;
      }
      var current := ParsedConfig(codec, got.cm.data[Sanitize(KeyOf(m))]);
      var desired := ParsedConfig(codec, c.desired);
      if current.None? || desired.None? {
        return None;
      }
      var patches := DiffList(current.value, desired.value);
      configPatches := configPatches[KeyOf(m) := patches];
      return Some(patches);
    }

    method StoreBootstrapConfigDiff(m: MachineName, i: Intent)
      modifies this, k8s
      ensures View() == FleetStep(Cx(), old(View()), CanUpdateFor(m, i))
    {
      WithSliceByParts(View(), m, "", StoreDiff(Cx(), Slice(View(), m, ""), i));
      hide WithSlice, Sanitize, ParsedConfig, DiffList;
      var current := ParsedConfig(codec, i.current);
      var desired := ParsedConfig(codec, i.desired);
      if current.None? || desired.None? {
        return;
      }
      configPatches := configPatches[KeyOf(m) := DiffList(current.value, desired.value)];
      if hasStore {
        var _ := PersistCurrentConfig(m, i);
      }
    }

    // -------------------------------------------------------------- CanUpdateMachine, CanUpdateMachineSet

    /** The part the two hooks share: the three patches, or a refusal that leaves none. */
    method AnswerClaims(cur: Triple, des: Triple, resp: ClaimResponse)
      requires resp.IsEmpty()
      modifies resp
      ensures Answers(codec, cur, des, resp)
    {
      var objectPatch := CreateObjectPatch(cur.typed, des.typed);
      var bootstrapPatch := CreateSpecPatch(codec, cur.bootstrap, des.bootstrap);
      if bootstrapPatch.Err? {
        // An assignment to a nil map panics; the response stays as it was.
        resp.status := if bootstrapPatch.error.NilMapAssignment? then Unset else Failure;
        return;
      }
      var infraPatch := CreateSpecPatch(codec, cur.infra, des.infra);
      if infraPatch.Err? {
        resp.status := if infraPatch.error.NilMapAssignment? then Unset else Failure;
        return;
      }
      resp.objectPatch := Some(objectPatch);
      resp.bootstrapPatch := Some(bootstrapPatch.value);
      resp.infraPatch := Some(infraPatch.value);
      resp.status := Success;
    }

    method DoCanUpdateMachine(m: MachineName, cur: Triple, des: Triple,
                              persistRead: bool, persistWrite: WriteOutcome, resp: ClaimResponse)
      requires resp.IsEmpty()
      modifies this, k8s, resp
      ensures Answers(codec, cur, des, resp)
      ensures var intent := Intent(cur.bootstrap, des.bootstrap, persistRead, persistWrite);
        View() ==
        if resp.status == Success then FleetStep(Cx(), old(View()), CanUpdateFor(m, intent))
        else old(View())
    {
      AnswerClaims(cur, des, resp);
      if resp.status == Success {
        StoreBootstrapConfigDiff(m, Intent(cur.bootstrap, des.bootstrap, persistRead, persistWrite));
      }
    }

    method DoCanUpdateMachineSet(cur: Triple, des: Triple, resp: ClaimResponse)
      requires resp.IsEmpty()
      modifies resp
      ensures Answers(codec, cur, des, resp)
    {
      AnswerClaims(cur, des, resp);
    }

    // -------------------------------------------------------------- UpdateMachine

    /** The configuration to push, or why there is none. May fill the machine's patches in memory. */
    method ComputeConfig(m: MachineName, c: Call, live: Document) returns (plan: Plan)
      requires c.address in talos.nodes && live == talos.nodes[c.address]
      modifies this
      ensures plan == PlanFor(Cx(), Slice(old(View()), m, c.address), c)
      ensures var own := Slice(old(View()), m, c.address);
        View() == WithSlice(old(View()), m, c.address, own.(patches := FindPatches(Cx(), own, c)))
    {
      WithSliceByParts(View(), m, c.address,
                       Slice(View(), m, c.address).(patches := FindPatches(Cx(), Slice(View(), m, c.address), c)));
      hide WithSlice;
      var patches := Get(configPatches, KeyOf(m));
      if patches.None? {
        patches := RecoverPatchesFromConfigMap(m, c);
      }
      if patches.Some? {
        return PatchLive(Cx(), live, patches.value);
      }
      var texts := ExtractStrategicPatches(codec, c.desired);
      if texts.Err? {
        return Stop(BadStrategicPatches(texts.error));
      }
      if |texts.value| == 0 {
        return Nothing;
      }
      var all := LoadPatches(codec, texts.value);
      if all.Err? {
        return Stop(PatchNotLoaded(all.error));
      }
      return PatchLive(Cx(), live, all.value);
    }

    /** What a call leaves behind: the machine's new share, the answer, and at most one push. */
    twostate predicate Performed(m: MachineName, address: string, r: CallResult, resp: UpdateResponse)
      reads this, k8s, talos, resp
    {
      && View() == WithSlice(old(View()), m, address, r.machine)
      && resp.Says(r.reply)
      && talos.pushes == old(talos.pushes) + if r.attempt.Some? then [(address, r.attempt.value)] else []
    }

    /** Answers from the update record alone, when that is possible. */
    method CheckProgress(m: MachineName, c: Call, resp: UpdateResponse) returns (answered: bool)
      requires resp.IsEmpty()
      modifies this, resp
      ensures answered ==> Performed(m, c.address, UpdateResult(Cx(), old(View()), m, c), resp)
      ensures !answered ==>
        && View() == old(View()) && resp.IsEmpty()
        && UpdateResult(Cx(), View(), m, c) == TryToApply(Cx(), Slice(View(), m, c.address), Reaching(View(), c))
    {
      ProgressByParts(Cx(), View(), m, c);
      hide TryToApply, UpdateMachine, UpdateResult, Slice, WithSlice, Sanitize, Reaching;
      var key := KeyOf(m);
      if c.address == "" {
        resp.status, resp.message := Failure, Some(NoAddress);
        return true;
      }
      if key !in state {
        return false;
      }
      if c.start - state[key].startedAt > UPDATE_TIMEOUT {
        state := state - {key};
        configPatches := configPatches - {key};
        resp.status, resp.message := Failure, Some(TimedOut);
        return true;
      }
      if !state[key].applied {
        return false;
      }
      if c.start - state[key].startedAt > SETTLE_TIME {
        state := state - {key};
        configPatches := configPatches - {key};
        resp.status, resp.message, resp.retryAfterSeconds := Success, Some(Complete), 0;
        return true;
      }
      resp.status, resp.message, resp.retryAfterSeconds := Success, Some(Settling), RETRY_INTERVAL;
      return true;
    }

    /** Pushes a configuration, in the mode the machine's role calls for, and records how it went. */
    method SendConfig(m: MachineName, c: Call, config: Document, resp: UpdateResponse)
      requires resp.IsEmpty() && c.address in talos.nodes
      modifies this, k8s, talos, resp
      ensures Performed(m, c.address, Send(Cx(), Slice(old(View()), m, c.address), config, c), resp)
    {
      SendByParts(Cx(), View(), m, c, config);
      hide Send, WithSlice, Slice, With, Cleaned, Sanitize, IsControlPlane;
      var key := KeyOf(m);
      var mode := if IsControlPlane(c.labels) then NoReboot else Auto;
      var ok := talos.ApplyConfig(c.address, config, mode, c.apply, c.finish);
      if !ok {
        if key !in state {
          state := state[key := UpdateState(c.finish, false)];
        }
        resp.status, resp.message, resp.retryAfterSeconds := Success, Some(WillRetry), RETRY_INTERVAL;
        return;
      }
      configPatches := configPatches - {key};
      CleanupConfigCache(m, c);
      state := state[key := UpdateState(c.finish, true)];
      resp.status, resp.message, resp.retryAfterSeconds := Success, Some(Applied), RETRY_INTERVAL;
    }

    method TryToApplyConfig(m: MachineName, c: Call, resp: UpdateResponse)
      requires resp.IsEmpty()
      modifies this, k8s, talos, resp
      ensures var own, reaching := Slice(old(View()), m, c.address), Reaching(old(View()), c);
        Performed(m, c.address, TryToApply(Cx(), own, reaching), resp)
    {
      hide TryToApply, PlanFor, FindPatches, Send, WithSlice, Slice, Sanitize;
      ghost var before := View();
      ghost var own := Slice(before, m, c.address);
      ghost var r := TryToApply(Cx(), own, Reaching(before, c));
      TryToApplyCases(Cx(), own, c, Reaching(before, c));
      OwnSlice(before, m, c.address, own.(patches := FindPatches(Cx(), own, c)), r.machine);
      var live := talos.NodeConfigProvider(c.address, c.nodeRead);
      if live.None? {
        resp.status, resp.message := Failure, Some(NodeReadFailed);
        return;
      }
      var plan := ComputeConfig(m, c, live.value);
      match plan
      case Stop(message) =>
        resp.status, resp.message := Failure, Some(message);
      case Nothing =>
        WithSliceState(before, m, c.address, own.(patches := FindPatches(Cx(), own, c)), UpdateState(c.finish, true));
        state := state[KeyOf(m) := UpdateState(c.finish, true)];
        resp.status, resp.message, resp.retryAfterSeconds := Success, Some(NothingToApply), RETRY_INTERVAL;
      case Push(config) =>
        SendConfig(m, c, config, resp);
    }

    method DoUpdateMachine(m: MachineName, c: Call, resp: UpdateResponse)
      requires resp.IsEmpty()
      modifies this, k8s, talos, resp
      ensures View() == FleetStep(Cx(), old(View()), UpdateFor(m, c))
      ensures Performed(m, c.address, UpdateResult(Cx(), old(View()), m, c), resp)
    {
      hide TryToApply, UpdateMachine, WithSlice, Slice;
      var answered := CheckProgress(m, c, resp);
      if !answered {
        TryToApplyConfig(m, c, resp);
      }
    }
  }
}
