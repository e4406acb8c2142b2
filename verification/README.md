# In-place update engine: a verified model

This project models the in-place update engine of the Talos fleet controller, the Runtime
SDK extension in `internal/handlers`, and proves what it promises. `CanUpdateMachine`
records an intended configuration change as a diff, in memory and in a shared ConfigMap.
`UpdateMachine` is then polled: it replays the diff on the node's live configuration, pushes
the result through the Talos API and reports done once the node has settled. Calls are
repeated, replies are lost, the pod restarts and loses its memory.

`dafny verify dfyconfig.toml` checks everything.

## How the model is laid out

- `ConfigTree.dfy`, `PatchList.dfy`: configurations and strategic merge patches as trees.
- `Bootstrap.dfy`: reading bootstrap objects, deriving and loading patches.
- `Engine.dfy`: one machine as a state machine over values, and its runs and histories.
- `Outcomes.dfy`: what one call does, case by case, in terms of the request, the record, the
  decoded texts and the live configuration.
- `ExactlyOnce.dfy`, `IntentKept.dfy`, `Justified.dfy`, `Timing.dfy`, `Progress.dfy`,
  `Pushes.dfy`: theorems over all runs of one machine.
- `Fleet.dfy`: many machines behind one process, and the projection to one of them.
- `ConfigCache.dfy`: the ConfigMap's read-modify-write protocol under concurrency.
- `Overlap.dfy`: requests of different machines that overlap, broken into their uses of the
  ConfigMap, and what one machine sees of them.
- `JsonPatch.dfy`, `Claims.dfy`: JSON Patch, its differ, and what the hooks claim.
- `Handlers.dfy`: the extension as classes with mutable maps. Every hook is proved against
  the value-level step of `Fleet.dfy`, so the theorems about runs hold of the code's form.
- `Wrappers.dfy`: `Option`, `Result` and map lookup.

## Assumptions

- The diff and merge engine is a Talos library. It is defined as a tree merge in the style
  of RFC 7396, section 2, with explicit removal nodes; lists are opaque leaves; a patch that
  would leave no mapping at the root does not apply.
- The JSON Patch differ is a library. Its algorithm is written out, with Go's arbitrary map
  order as a free choice in each loop. JSON decoding undoes encoding, numbers are reals and
  pointer segments are not escaped.
- Decoding, parsing, loading and whether a result can be written out are parameters
  (`Bootstrap.Codec`): any deterministic partial functions.
- The environment is part of each call: the address found, the clock at its checks and at
  its last store, whether reads succeed, and for each write whether it is done, refused or
  done with the reply lost. In runs of one machine a version conflict on the ConfigMap is a
  refused write, and a pod that dies in the middle of a call is a call followed by a
  restart; `Overlap.OverlapIsAlone` derives both from overlapping requests.
- Calls for one machine do not overlap. Calls for different machines interleave freely, also
  in their middle: a request is broken at each use of the ConfigMap, and between two uses it
  touches only its own machine's share of the maps and its own node.
- Namespaces are not empty and contain no dot, names contain no slash, as Kubernetes demands.

## Where code and comments differ

The model follows the code.

- `canUpdateTalosMachineSpec` claims version and failure domain only, not every Machine
  field as the comments at `internal/handlers/canupdatemachine.go:46-57` say.
- Missing patches do not make UpdateMachine fail, as `internal/handlers/canupdatemachine.go:116-119` says; the call goes on to
  the strategic patches (`internal/handlers/updatemachine.go:184-225`). When the desired object has none, the call answers
  that there is nothing to apply and later done: `IntentKept.DoneMeansAppliedExactlyWhen`
  says exactly when this can happen.
- `extractBootstrapData` looks at `talosConfig` before `data`; its comment names `data` first.
- An update record does not say which desired configuration it was for
  (`internal/handlers/updatemachine.go:59-62`). A change recorded while an earlier push still
  counts as applied is therefore reported done without being sent
  (`IntentKept.SecondChangeReportedDone`), and theorems that span recording and update speak
  of one change: all requests of the run carry the same current and desired objects.

## Model

| member | source | states |
|---|---|---|
| ConfigTree.ThreeWayMerge | internal/handlers/updatemachine.go:141-155 | Replaying diff(current, desired) on a live document it was not computed from, at every path: at and below a desired leaf or absence that differs from current, exactly what is desired; elsewhere, where the two template sides agree, the live value, also below a mapping the template creates; where they differ, a mapping. |
| ConfigTree.KeepsIdentityExactlyWhen | internal/handlers/updatemachine.go:141-155 | These outcomes at all paths hold of one document only, the merge of the diff into the live document (an equivalence). |
| ConfigTree.DiffThenMerge | internal/handlers/canupdatemachine.go:146-159 | Merging diff(a, b) into a gives b, for all configuration trees. |
| ConfigTree.SelfDiffIsIdentity | internal/handlers/updatemachine.go:548-557 | The diff of a document with itself changes no document at all. |
| ConfigTree.LookupBelowLeaf | internal/handlers/updatemachine.go:200-206 | A path that goes on below a scalar or a list finds nothing, so that a mapping merged over one keeps nothing of it. |
| PatchList.FoldTwice | internal/handlers/updatemachine.go:242-254 | Folding any list of patches over any value a second time gives what folding it once gave, even when later patches overwrite, remove or nest under earlier ones. |
| PatchList.ApplyTwice | internal/handlers/updatemachine.go:197-206 | The same for whole documents with error cases: a list that applies to a document applies again to its result and changes nothing. |
| PatchList.ApplyInOrder | internal/handlers/updatemachine.go:242-254 | A list of patches is applied front to back: one patch is its merge, and a longer list its first part and then the rest, on whatever that leaves. |
| PatchList.DiffListRoundTrip | internal/handlers/updatemachine.go:557-565 | The derived patch list takes the current document to the desired one, and leaves the desired one where it is. |
| PatchList.DiffListOnLive | internal/handlers/updatemachine.go:200-206 | A derived patch list applies to every live document, and its effect is the three-way merge. |
| Bootstrap.ExtractConfigExactlyWhen | internal/handlers/updatemachine.go:402-443 | For all raw text, exactly this text is found: with `spec` an object in the decoded object, whatever else that holds, the first non-empty text of talosConfig, data and machineConfig; only without any, and with a `machine` field, the spec written out; otherwise none. |
| Bootstrap.DeriveExactlyWhen | internal/handlers/updatemachine.go:541-560 | A change is derived exactly when both texts carry a configuration, found as above and parsed, and then it is the difference of the two, also when they are equal. |
| Bootstrap.StrategicPatchesCases | internal/handlers/updatemachine.go:457-486 | From the decoded text alone: nothing for an empty text and for a spec without the field, the three errors for text that is no object, for no object `spec` and for a field that is no array, and otherwise the string elements, whatever else the object holds. |
| Bootstrap.ExtractStrategicPatches | internal/handlers/updatemachine.go:457-486 | The loop with its early returns computes what is read from the text, for which the previous row gives all cases. |
| Bootstrap.StringsPositions | internal/handlers/updatemachine.go:477-484 | What that loop collects: there is a strictly increasing list of positions that holds every string element and nothing else. |
| Bootstrap.LoadPatches | internal/handlers/updatemachine.go:242-252 | The loading loop returns all patches in order or the position of the first text that does not load. |
| Bootstrap.LoadAllElementwise | internal/handlers/updatemachine.go:242-252 | A list loads exactly when every element does, element by element; an error names the first element that does not. |
| Engine.CallEffect | internal/handlers/updatemachine.go:184-303 | In any state the node changes only by a push of exactly the planned configuration; memory only keeps, forgets or recovers patches; the cache entry goes only with a push that succeeded, and such a push, done and timeout forget the patches. |
| Engine.CallMovesState | internal/handlers/updatemachine.go:108-139 | How one call moves the update record: when it opens, closes, keeps its start time across failures and restarts its clock, with the strict thresholds of 30 s and 5 min. |
| Outcomes.ClockDecides | internal/handlers/updatemachine.go:109-139 | For an open cycle and every call with an address, in nanoseconds: timed out exactly after more than 300 s; done with retry 0 exactly when applied and after more than 30 s and at most 300 s; settling with retry 15 exactly when applied and up to 30 s. With the whole new state in each case. |
| Outcomes.NoAddressIsFailure | internal/handlers/updatemachine.go:100-105 | A call fails for want of an address exactly when none was found, whatever the record says, and changes nothing. |
| Outcomes.UnreadableNodeIsFailure | internal/handlers/updatemachine.go:166-171 | A call that goes on and cannot read the node fails and changes nothing. |
| Outcomes.PatchesInMemoryDecide | internal/handlers/updatemachine.go:184-303 | Patches in memory decide whatever cache and desired object say: a result that can be written out is sent, in no-reboot mode exactly with the control-plane label, with record, memory, entry, node and answer for each way the node responds; patches that do not apply and a result that cannot be written out fail with nothing sent. |
| Outcomes.RecoveredPatchesDecide | internal/handlers/updatemachine.go:184-216 | Without patches in memory, the difference between a readable cache entry and the desired object, both carrying a configuration, decides in the same way and is kept in memory until a push succeeds. |
| Outcomes.StrategicPatchesDecide | internal/handlers/updatemachine.go:217-271 | Without either, the desired text decides: no text, no field or no string element is nothing to apply, and the cycle counts as applied from then on; the errors fail; the first string element that does not load fails with its number; otherwise all of them in array order decide as above. |
| Outcomes.RecordingKeepsDifference | internal/handlers/canupdatemachine.go:135-175 | A recording with a configuration on both sides keeps their difference in memory and, when its read and write go through, the current text in the cache; without one it does nothing. |
| Outcomes.RestartLosesMemory | internal/handlers/canupdatemachine.go:130-134 | A restart of the pod loses the record and the patches, and nothing of the cache or the node. |
| ExactlyOnce.AtLeastOnceActsAsExactlyOnce | internal/handlers/updatemachine.go:82-303 | Over any run of retries, lost replies, duplicate calls, recordings and pod restarts about one change in one style, the node holds its original configuration or the original with the change applied exactly once. |
| ExactlyOnce.PatchedStaysPatched | internal/handlers/updatemachine.go:296-299 | Once the change is on the node, no continuation of the run takes it off or alters it. |
| ExactlyOnce.ExactlyOnceExactlyWhen | internal/handlers/updatemachine.go:197-271 | For any machine, with or without an open cycle, any memory and cache entry, also of another change, and any style: all runs about a change leave the original or the patched configuration if and only if the patches in memory planned on the original (unless the record counts as applied, which drops them), and the cache entry and the strategic patches planned on both, lead nowhere else. |
| ExactlyOnce.RecordingTakesOver | internal/handlers/canupdatemachine.go:160-172 | A recording that reaches the cache makes its change the only one whatever was there before, so that for a change in one style the condition holds. |
| ExactlyOnce.OlderEntryIsPushed | internal/handlers/updatemachine.go:184-206 | One whose write is refused leaves the older entry: after a restart the next call pushes the difference between that entry and the desired object, if it applies and can be written out, and nothing otherwise. |
| ExactlyOnce.BothStylesPushTwoChanges | internal/handlers/updatemachine.go:184-254 | A concrete desired object in both styles and a run of four steps after which the node has a third configuration. |
| IntentKept.EntryOutlivesFailures | internal/handlers/updatemachine.go:297-299 | In any run a cache entry stays until a push for that machine succeeds; only a new recording changes what it says. |
| IntentKept.IntentIsNeverLost | internal/handlers/updatemachine.go:184-195 | With the change on record, no earlier push still counting as applied at the start, a stable desired configuration and cache reads that succeed, every done answer is preceded by a successful apply, across any number of restarts and timeouts; until then the record stays. |
| IntentKept.SecondChangeReportedDone | internal/handlers/updatemachine.go:121-132 | A change recorded while the record of an earlier push settles: memory and cache hold it, yet a call more than 30 s after that push answers done, sends nothing, leaves the node alone and drops the new patches from memory. |
| IntentKept.RecordedIntentKeptExactlyWhen | internal/handlers/updatemachine.go:121-132 | For a change on record: in every run about it whose cache reads succeed, done comes after a successful apply, if and only if no earlier push counts as applied at the start. |
| IntentKept.DoneMeansAppliedExactlyWhen | internal/handlers/updatemachine.go:225-240 | With no assumption on failures: done implies a successful apply in every run if and only if the desired object's strategic patches are not a readable empty list. |
| IntentKept.DoneMeansPatched | internal/handlers/updatemachine.go:121-132 | From the recording, with no earlier push still counting as applied and cache reads that succeed, to the done answer: the node then has its original configuration with the change applied exactly once. |
| Justified.AppliedHasCause | internal/handlers/updatemachine.go:235-299 | In every reachable state a record marked applied has, at exactly its start time, a successful push or a nothing-to-apply finding in the history, with no push attempt and no closing of the cycle since. |
| Justified.DoneIsJustified | internal/handlers/updatemachine.go:113-132 | Done is answered only more than 30 s and at most 5 min after such a cause, with no push in between. |
| Justified.AtMostOneSuccessPerCycle | internal/handlers/updatemachine.go:108-139 | Between a successful push and the next attempt the cycle was closed by done, timeout or restart. |
| Justified.PatchesComeFromRequests | internal/handlers/canupdatemachine.go:135-175 | In every reachable state the patches in memory are the difference between a recorded current configuration and a requested desired one, and the cache entry is a recorded current configuration. |
| Justified.RecoveryRefinesMemory | internal/handlers/updatemachine.go:515-566 | After a recording that reached the cache, and while the desired configuration is the same, whatever patches are in memory are the ones the cache gives back. |
| Justified.RestartBeforeCallIsInvisible | internal/handlers/updatemachine.go:184-195 | In such a run, losing the memory just before a call changes neither the push, nor the answer, nor the node. |
| Timing.CycleIsBounded | internal/handlers/updatemachine.go:42-50 | Without restarts a cycle ends: with calls at least 15 s after the previous answer it stays open for at most 23 calls, of which at most 21 push; with starts at least 15 s apart and calls that do not overlap, 25 and 22. |
| Timing.SettlesWithinThreeCalls | internal/handlers/updatemachine.go:121-138 | After the step that marks a cycle applied, at most two calls paced by the answers leave it open, or three paced by the starts; the next one closes it. |
| Timing.BoundsAreReached | internal/handlers/updatemachine.go:113-138 | All four bounds are tight: from any machine that can push there is a run with 21 (22) attempts that is still open after 23 (25) calls. |
| Timing.NoSpuriousTimeoutExactlyWhen | internal/handlers/updatemachine.go:113-132 | A cycle marked applied can only be closed by a done answer if and only if calls are at most 270 s (5 min minus 30 s) apart. |
| Progress.RecordedChangeGetsThrough | internal/handlers/updatemachine.go:82-303 | With the change on record, applying to the live configuration and giving one that can be written out, after any run about it of refused pushes, lost replies, failures, restarts and timeouts in which the cache can be read and no push is accepted: the next call whose reads and push go through, in an open or a new cycle, is accepted; if then calls are paced and at most 270 s apart, without a restart, one of the next three (four when paced by the starts) is answered done, and the node then has its original configuration with the change made once. |
| Pushes.DiffListKeepsIdentity | internal/handlers/updatemachine.go:154-155 | A derived patch list applies to any live document, its result has these outcomes at every path, so that whatever the template change does not replace keeps its live value, and no other document has them. |
| Pushes.PushKeepsIdentity | internal/handlers/updatemachine.go:197-206 | Every configuration pushed on the in-memory or the recovered path has these outcomes at every path with respect to the live configuration of the call. |
| Pushes.UpdateKeepsIdentity | internal/handlers/updatemachine.go:66-81 | The same for the node's final configuration over a whole run that answers done, when no earlier push still counted as applied at its start and its cache reads succeed. |
| Pushes.EveryPushWasAskedFor | internal/handlers/updatemachine.go:174-271 | In every run each push is the node's configuration of that moment changed by the first of: the patches in memory, which are the difference of a recorded current and a requested desired configuration; the difference between the entry, which was recorded, and the desired object; exactly the string elements of the call's strategic patches. |
| Pushes.SuccessForgetsChange | internal/handlers/updatemachine.go:296-299 | After a successful push whose cleanup worked, memory and cache stay empty for the machine until the next recording. |
| Pushes.PathCIsAllOrNothing | internal/handlers/updatemachine.go:217-271 | Without patches in memory or to recover, a configuration is pushed exactly when there is a string element in `strategicPatches`, all of them load, and in array order they apply to one that can be written out, which is what is pushed; otherwise nothing is, and but for an array without string elements the call fails and the machine is unchanged. |
| Pushes.ResponseDiscipline | internal/handlers/updatemachine.go:101-119 | In every run: an attempted push answers success with retry 15 and uses no-reboot mode exactly for control-plane labels; a failure leaves record, node and entry alone, except the timeout, which clears both maps. |
| Fleet.SanitizeIsInjective | internal/handlers/updatemachine.go:568-572 | Replacing slashes by dots keeps the keys of well-named machines apart. |
| Fleet.DottedNamespaceCollides | internal/handlers/updatemachine.go:570-572 | Two names that do collide when a namespace may contain a dot. |
| Fleet.MachineIsolation | internal/handlers/updatemachine.go:93-117 | Any run of whole requests for many machines in any order, projected to one of them, is a run of that machine alone with the same state, answers and pushes. |
| Fleet.FleetActsExactlyOnce | internal/handlers/updatemachine.go:82-303 | Exactly-once for each node of a fleet, whatever requests other machines make in between. |
| Fleet.FleetDoneMeansPatched | internal/handlers/updatemachine.go:121-132 | In a fleet, a machine with its change on record and no earlier push counting as applied at the start, whose cache reads succeed, has its original configuration with the change applied exactly once when it is told done. |
| Overlap.OverlapIsAlone | internal/handlers/updatemachine.go:82-303 | Any schedule of overlapping requests for many machines, with version conflicts and pods that die in the middle, is to one machine a run of that machine alone in which a write that did not take effect is refused: the same answers and pushes, between requests the same share of maps, cache and node, and within a request the share as far as the request has got. |
| Overlap.OverlapActsExactlyOnce | internal/handlers/updatemachine.go:82-303 | Under every such schedule, at every moment, also in the middle of requests, each node has its original configuration or that with its change applied exactly once. |
| Overlap.OverlapDoneMeansPatched | internal/handlers/updatemachine.go:121-132 | Under every such schedule, and the conditions of the fleet's theorem, a node whose machine was told done has the change. |
| Overlap.UnbrokenUpdateIsWhole | internal/handlers/updatemachine.go:489-509 | A call nothing comes between is the whole call of the fleet, and so of the hook. |
| Overlap.UnbrokenRecordingIsWhole | internal/handlers/canupdatemachine.go:160-215 | The same for a recording. |
| ConfigCache.WriteIsAtomic | internal/handlers/canupdatemachine.go:182-214 | Under any interleaving a write that takes effect is its one-entry change made to the latest ConfigMap. |
| ConfigCache.AloneWritesBack | internal/handlers/canupdatemachine.go:179-215 | A read followed by its write, with no other request in between, makes exactly its one change, unless one of the two fails. |
| ConfigCache.Linearizable | internal/handlers/updatemachine.go:494-508 | After any interleaving of reads and writes the ConfigMap is the sequential result of the effective changes in the order in which they took effect. |
| ConfigCache.EntryIsLastChange | internal/handlers/canupdatemachine.go:209-214 | A key's entry is decided by the last effective change to that key alone. |
| ConfigCache.OthersLeaveEntryAlone | internal/handlers/updatemachine.go:501-508 | Requests for other machines can neither lose nor revive a machine's entry. |
| JsonPatch.CreatePatch | internal/handlers/handlers.go:83-91 | For all JSON values and every enumeration order of keys, applying the produced operations in order (RFC 6902, section 4) succeeds and yields the second value; equal values give no operations; between objects every operation lies under a key that differs. |
| JsonPatch.DiffObjects | internal/handlers/handlers.go:83-91 | The same for objects, with keys taken in an arbitrary order. |
| JsonPatch.DiffArrays | internal/handlers/handlers.go:83-91 | The same for arrays: surplus elements removed from the end, missing ones appended, the rest compared in place. |
| JsonPatch.NestUnderKey | internal/handlers/handlers.go:83-91 | A patch of a member, addressed from the object above, changes that member and nothing else. |
| JsonPatch.OpOnMember | internal/handlers/handlers.go:83-91 | Add, replace and remove on a member of an object (RFC 6902, section 4), with the cases in which they fail. |
| JsonPatch.OpOnElement | internal/handlers/handlers.go:83-91 | The same on an element of an array: an addition moves what follows up, a removal moves it down. |
| JsonPatch.OpBelowMember | internal/handlers/handlers.go:83-91 | A longer path acts inside the one member it names and fails when it is not there. |
| JsonPatch.OpBelowElement | internal/handlers/handlers.go:83-91 | The same for an element. |
| Claims.CanUpdateTalosMachineSpec | internal/handlers/canupdatemachine.go:287-296 | Edits the copy in place: version and failure domain become the desired ones, every other field stays. |
| Claims.CreateObjectPatch | internal/handlers/handlers.go:72-81 | After the typed patch, for any current and desired object, the JSON at and below `version` and `failureDomain` of the machine spec is as in the desired JSON and at every other path as in the current one. |
| Claims.ClaimedTakesTwoFields | internal/handlers/canupdatemachine.go:287-296 | The same of the claimed object, path by path: under `spec` of a Machine and `spec.template.spec` of a MachineSet. |
| Claims.SpecFieldsInJson | internal/handlers/handlers.go:72-81 | The two fields stand in the JSON of a machine spec under their names, and not at all when empty; all others as they are. |
| Claims.SpecRoundTrip | internal/handlers/canupdatemachine.go:61-67 | Reading back a written machine spec gives the same spec, empty fields included. |
| Claims.ClaimReachesDesiredExactlyWhen | internal/handlers/canupdatemachine.go:54-67 | The claimed object is the desired one exactly when the two agree outside version and failure domain. |
| Claims.CreateSpecPatch | internal/handlers/canupdatemachine.go:301-327 | From the decoded raw objects, whatever they hold besides: the whole desired `spec` is taken over and nothing else; no operations when a side is empty or there is no desired spec; an error exactly for text that is no map; and the panic exactly for a current `null` with a desired spec. |
| Claims.SpecClaimIsDesiredExactlyWhen | internal/handlers/canupdatemachine.go:332-355 | For a desired object with a spec, the patched current object is the desired one exactly when the two agree outside `spec`. |
| Handlers.ClaimsReachDesiredExactlyWhen | internal/handlers/canupdatemachine.go:96-108 | The three patches take the current triple to the desired one exactly when the triples agree outside what is claimed. |
| Handlers.ExtensionHandlers.constructor | internal/handlers/handlers.go:64-70 | A new handler starts with both maps empty. |
| Handlers.ExtensionHandlers.AnswerClaims | internal/handlers/canupdatemachine.go:57-108 | Failure exactly when the first pair of raw texts that is not taken cannot be read, no status exactly when it panics, both without patches; otherwise success with three patches that make exactly the claimed changes. |
| Handlers.ExtensionHandlers.DoCanUpdateMachine | internal/handlers/canupdatemachine.go:50-128 | The hook's answer as above; on success the fleet takes the recording step for this machine, otherwise nothing changes. |
| Handlers.ExtensionHandlers.DoCanUpdateMachineSet | internal/handlers/canupdatemachine.go:219-281 | The same answer contract on templates; no state changes. |
| Handlers.ExtensionHandlers.StoreBootstrapConfigDiff | internal/handlers/canupdatemachine.go:135-175 | The process's maps, the cache and the nodes move by exactly the recording step of the machine. |
| Handlers.ExtensionHandlers.PersistCurrentConfig | internal/handlers/canupdatemachine.go:179-215 | A read followed by a write of the ConfigMap's protocol, after which exactly one entry is written, or none when the read or the write fails. |
| Handlers.ExtensionHandlers.CleanupConfigCache | internal/handlers/updatemachine.go:489-509 | With a store, a read followed by a write of the protocol; removes exactly the machine's entry, or nothing when there is no store, no entry or a failure. |
| Handlers.ExtensionHandlers.RecoverPatchesFromConfigMap | internal/handlers/updatemachine.go:515-566 | Returns what the entry and the desired object give back, and stores it in memory exactly when there is something. |
| Handlers.ExtensionHandlers.ComputeConfig | internal/handlers/updatemachine.go:184-271 | Chooses memory, cache or strategic patches, and refills memory from the cache, as the machine-level plan says. |
| Handlers.ExtensionHandlers.CheckProgress | internal/handlers/updatemachine.go:100-139 | Missing address, timeout, done and settling, answered from the update record; otherwise nothing is touched. |
| Handlers.ExtensionHandlers.SendConfig | internal/handlers/updatemachine.go:273-303 | One push in the mode of the machine's role, and the record, cleanup and answer that go with its outcome. |
| Handlers.ExtensionHandlers.DoUpdateMachine | internal/handlers/updatemachine.go:82-303 | The whole hook on the mutable maps, the ConfigMap and the nodes: the new state of the process is the machine's step in the fleet and nothing else, the response is that step's answer, and at most its one push is sent. |

## Left out

- ExactlyOnce.AtLeastOnceActsAsExactlyOnce: does not cover desired objects in both styles, nor memory or a cache entry of another change, for which it can be false (`BothStylesPushTwoChanges`, `OlderEntryIsPushed`); `ExactlyOnceExactlyWhen` gives the exact condition.
- IntentKept.IntentIsNeverLost: does not cover a change recorded while an earlier push still counts as applied, for which it is false (`SecondChangeReportedDone`; exact condition: `RecordedIntentKeptExactlyWhen`), nor ConfigMap reads that fail, for which it can be false (exact condition: `DoneMeansAppliedExactlyWhen`). `DoneMeansPatched`, `UpdateKeepsIdentity`, `FleetDoneMeansPatched` and `OverlapDoneMeansPatched` carry the same two conditions.
- Progress.RecordedChangeGetsThrough: does not cover faults without end, nor a cache that cannot be read before the push (see `DoneMeansAppliedExactlyWhen`) or a restart between the accepted push and done.
- Fleet.MachineIsolation: whole requests only, as the hooks are proved against them; `Overlap.OverlapIsAlone` covers requests that overlap.
- Fleet.FleetActsExactlyOnce: whole requests only; `Overlap.OverlapActsExactlyOnce` covers requests that overlap.
- Fleet.FleetDoneMeansPatched: whole requests only; `Overlap.OverlapDoneMeansPatched` covers requests that overlap.
- Timing.CycleIsBounded: does not bound a cycle across pod restarts, which start a new one.
- `createInfraMachinePatch` has the body of `createBootstrapConfigPatch`; both are `Claims.CreateSpecPatch`.
- Marshalling errors of typed objects and errors of the differ: they cannot occur for the values modelled.
- A panic on a raw current object `null` is modelled as a response left unset.
- IP lookup: simple first-match loops; its result is an input of each call.
- The Talos gRPC client, TLS and per-call timeouts: only reading and applying a configuration are kept.
- Text of YAML and JSON, comments, logging, and error messages beyond their kind.
- Talos list-merge rules and multi-document configurations.
- Overlapping calls for one machine and several replicas of the extension.
- Deletion of the ConfigMap by others.
- Writes that reach the API server only after the pod that sent them has died.
- Start-up, charts, manifests and the FleetNodeSet resource, for which there is no reconciler in the code.
