# Cilion in Dafny

Cilion steers the traffic of Kubernetes pods over SCION paths. A controller turns a user's
`ScionPathPolicy` into one `ScionComputedPath` per remote cluster; a loader puts paths into two kernel
maps; a TC program wraps the packets of a pod into the path chosen for it, and an XDP program checks and
unwraps them at the other end. This project models those four parts and proves what they promise.

Check it with `dafny verify --resource-limit 2000000 dfyconfig.toml`.

## The four parts

**The policy reconciler** (`Naming`, `Kube`, `Reconciling`, `Controller`, `Protocol` and what builds on
them). The API server is a value with optimistic concurrency on resource versions, finalizer-guarded
deletion and controller references. The reconciler appears in three forms, tied together by proof:

- `Controller` has the program's own form, classes whose methods change the server, with the peer loop as a
  loop; its methods are proved equal to
- `Reconciling.Reconcile`, one whole run as a function of the cluster and of a `World` that holds the control
  service's answers and the fault each API call meets; and `Alone` proves that this function describes a
  behaviour of
- `Protocol`, in which any number of runs are in flight at once, every API call is a step of its own that may
  fail, be lost or lose its reply, cached reads may answer with nothing or with any version there ever was,
  and users, peers, foreign controllers and the garbage collector act in between. `Serial` proves the
  converse: whatever an undisturbed run of the protocol does, wherever it breaks off, is what the run
  function does in some world, so results about whole runs hold of protocol steps.

Over the protocol, `Safety` has the invariant of all reachable states, `Finalizers` what the finalizer buys,
`Draining` how the cluster comes to rest, `ActiveSoundness` and `ActiveLimits` what the Active condition
means when it is written, and `ActiveAfterwards` what becomes of it. Over whole runs, `Plans` and `Retries`
have retry transparency, idempotence, independence of the listing order, last known good and bounded
progress, `Reachable` joins the two, and `RunFacts` says what runs store and what their outcomes mean in
fields, names and literals only. `PodWatch` has the event filter and the mappers.

**The datapath pair** (`Layout`, `ScionMac`, `Egress`, `Ingress`, `RoundTrip`, `PacketFacts`). Packets are
byte buffers and both programs work on them in place; each is proved equal to a function of the frame, and
the round trip is proved about the two functions. `PacketFacts` writes both functions out once more, in
bytes, offsets and numbers, and proves them equal.

**The map layer** (`Codec`, `Routing`, `TableFacts`). Two bounded hash maps, keyed by what a native load makes
of an address and filled with serialised entries, implement one table from pod to path on hosts of either byte
order. Each of the two programs has an instance of them of its own, and the loader fills those of the TC
program. `TableFacts` says what egress selects in terms of the operations alone.

**Paths** (`Printing`, `Paths`). The two texts of a path can be read back, sorting leaves one possible
order, and the cache answers with the last good result.

## Decisions

- `tc_egress.c:117-122` leaves the copy of the SCION headers open and uses `scion` and `meta` without
  declaring them. The model follows the stated intent: `hop_fields[0..path_len]` is copied behind the common
  and address headers, `meta` is the path meta header in the packet, `hf` is hop field 0 behind the info
  fields it announces. The common and address headers and the extension keep what the opened room held.
- `path_len` must count the path meta header, because both programs step over one. The comment at
  `maps.h:12` speaks of info and hop fields only; the code decides. `RoundTrip.LengthsAgreeIff` proves that
  this is exactly when both sides mean the same length.
- Struct sizes follow the bit-field rules of the System V ABI: common header 12, address header 24, meta
  header 7, info field 8, hop field 16 with its MAC at offset 8, extension 8. `cur_hf` is the upper six bits
  of its byte, as on a little-endian target.
- The MAC, the FNV-1a hash and the control service are function parameters about which nothing is assumed.
  The MAC function may fail; that the stub returns zeros is not used.
- A C access outside the packet is a verdict of its own, `Trap`. Egress is proved never to trap on a
  well-formed entry, and ingress never at all.
- SetControllerReference compares kind and name of the present controller and not its uid, so a policy
  recreated under its old name takes its predecessor's paths over (`Safety.RecreatedPolicyTakesOver`).
- A nil `Preference` is not assumed away: dereferencing it ends the run with the outcome
  `Failed(NilPreference)`, and `Retries.NilPreferenceIff` says exactly when.
- Peers are listed in every namespace, but object names use the peer's name only. What happens to peers that
  share a name is proved (`Plans.DesiredAt`, `Retries.AllServedIff`), not excluded.
- Foreign writers may create, change and delete objects of any name, but do not edit a path while a policy
  controls it, and do not forge a policy's controller reference; they may delete such a path. Without that no
  ownership invariant can hold of any controller.
- A cached List may answer with any peers whose names were once seen, which is more than a cache would.
- A request meets one of three faults: none, refused before it took effect, or its reply lost afterwards.
- The sort is written as the insertion sort that `sort.Slice` uses for short slices. The uniqueness lemmas
  make the choice irrelevant for the texts in any case, and for the paths when their texts differ.

## What does not hold

- *The computed paths are those of the present peers.* Nothing deletes a removed peer's path; only the
  superset holds, for the cluster and for one policy, and `Retries.PathsMatchPeersIff` gives the exact
  condition. `Reachable.RemovedPeerLeavesPath` has the failing state from the start.
- *Packets of one node come through to another.* The ELF objects are loaded without shared or pinned maps, so
  the XDP program's `scion_path_cache` is never filled, ingress has no key, and it drops all SCION traffic
  (`RoundTrip.IngressHasNoKey`, `RoundTrip.EncapsulatedFramesAreDropped`). The comment at
  `loader.go:27-28`, by which the XDP program reads the same logical maps, does not hold of the code; the TODO
  below it says what is missing. `RoundTrip.EndToEndIff` has the condition on the ingress maps, and
  `RoundTrip.EndToEndWhenShared` the end-to-end result for shared maps.
- *Active means that every path is there.* In the state in which Active is written it does under three
  conditions: the listed peers have distinct names, nobody else touches the policy's paths during the run, and
  no probe of the run, which is a cached read, shows just what the run wants although that is not stored
  (`ActiveSoundness.ActiveIsSound`). Any other stale probe leads to a write, which the version check catches;
  given the first two conditions the third is exact (`ActiveSoundness.ActiveIsSoundIff`), and none of the three
  can be spared (`ActiveLimits.SharedNameMisleads`, `ActiveLimits.OtherHandsMislead`,
  `ActiveLimits.StaleProbeMisleads`). Afterwards Active is never cleared
  (`ActiveAfterwards.ActiveIsNeverCleared`), while any path may be deleted under it
  (`ActiveAfterwards.ActiveOutlivesPath`); the paths stay exactly as long as nobody deletes and nothing
  collects them (`ActiveAfterwards.PathLastsIff`).
- *Every listed peer gets its path.* If and only if ready peers of one name want the same path
  (`Retries.AllServedIff`).
- *Different policies never share an object name.* `Naming.CollisionLaw` gives all the collisions, and
  `Naming.UnambiguousIffNoCollision` the names that are free of them whatever the others are called;
  `Naming.AdmittedNamesCollideIff` is exact among the names Kubernetes admits.
- *The finalizer keeps paths from outliving their policy.* It does with fresh reads, runs of one policy one at
  a time, and nobody else touching the finalizer (`Finalizers.NoPathForADeadPolicy`). Each of the three is
  needed: with the other two in force a run can leave an orphan (`Finalizers.StaleReadLeavesOrphan`,
  `Finalizers.OverlapLeavesOrphan`, `Finalizers.ForeignFinalizerLeavesOrphan`), which the garbage collector
  can always remove.
- *Every peer can have a path.* The server refuses object names of more than 253 characters, so a new path is
  refused in every run when the names of policy and peer have more than 249 together
  (`Retries.CreateOrUpdateFailsIff`, `Naming.NameIsAdmittedIff`).
- *The outer length fields hold the packet's length.* Up to 65535 bytes; beyond that they wrap around
  (`RoundTrip.OuterLengths`).
- *Any well-formed entry survives the round trip.* Egress stamps hop field 0, ingress checks the current one,
  which may even lie behind the path; `RoundTrip.RoundTripsIff` has the condition on the stored entry.

## Model

| member | source | states |
|---|---|---|
| `Naming.NamesOfOnePolicyAreInjective` | internal/controller/scionpathpolicy_controller.go:111 | computed path names determine the peer among policy names of one length, so the peers of one policy never collide unless their names are equal |
| `Naming.CollisionLaw` | internal/controller/scionpathpolicy_controller.go:111 | the names of a shorter and a longer policy collide if and only if the longer one is the shorter one with "-to" behind it, or with "-to-" and more, and the peers' names fit |
| `Naming.UnambiguousNamesNeverCollide` | internal/controller/scionpathpolicy_controller.go:111 | naming is injective on policies in whose name followed by "-" the separator does not occur, whatever the peers are called |
| `Naming.UnambiguousIffNoCollision` | internal/controller/scionpathpolicy_controller.go:111 | that condition is exact over all texts: a policy name meets it if and only if no shorter text ever gives one of its object names |
| `Naming.AdmittedNamesCollideIff` | internal/controller/scionpathpolicy_controller.go:111 | among the names Kubernetes admits, the limit on their length included, a policy shares an object name with a shorter one if and only if its name leaves room for the separator and a peer, and in its name followed by "-" the separator stands behind a valid name and in front of another one or the end |
| `Naming.NameIsAdmittedIff` | internal/controller/scionpathpolicy_controller.go:111 | the object name of admitted policy and peer names is admitted if and only if the two leave room for the separator under the limit of 253 |
| `Kube.UpsertIdempotent` | internal/controller/scionpathpolicy_controller.go:123-125 | setting the controller reference twice is setting it once |
| `Kube.UpsertStaysOwned` | internal/controller/scionpathpolicy_controller.go:123-125 | after the reference is set there is a controller, and it is the policy unless another object controlled the path |
| `Kube.UpsertMakesController` | internal/controller/scionpathpolicy_controller.go:123-125 | a list the server admits, with at most one controller, has the policy's reference as its only controller once that is set |
| `Kube.UpsertAddsNoController` | internal/controller/scionpathpolicy_controller.go:123-125 | setting the reference gives a path no second controller, if the policy was among its owners as controller only and nobody else controlled it |
| `Controller.ApiServer.UpdatePolicy` | internal/controller/scionpathpolicy_controller.go:70-80 | succeeds if and only if the version is current and no fault is met; a stale version or a refused request changes nothing; otherwise, reply lost or not, a policy under deletion goes with its last finalizer, and any other is stored as sent but for its conditions, which stay; no path is touched |
| `Controller.ApiServer.UpdateStatus` | internal/controller/scionpathpolicy_controller.go:154 | succeeds if and only if the version is current and no fault is met; stores the conditions sent and nothing else of the policy, reply lost or not; a stale version or a refused request changes nothing |
| `Controller.ApiServer.StorePath` | internal/controller/scionpathpolicy_controller.go:121 | succeeds if and only if no fault is met, there is one controller at most, and the object is new where none was read and its name not too long, or still in the version that was read; stores it under a new version, reply lost or not, and otherwise changes nothing |
| `Controller.Reconciler.CreateOrUpdate` | internal/controller/scionpathpolicy_controller.go:110-136 | reads, mutates, and writes only a changed object: the new server state and the error are those of the run function; without an error the path named after the policy, "-to-" and the peer refers to the policy and holds the peer's CIDR as destination, the answer's next hop and its hop bytes, each in its field, and no other object changed |
| `Controller.Reconciler.Reconcile` | internal/controller/scionpathpolicy_controller.go:55-159 | the method in the program's form leaves the server in the state, and returns the outcome, of the run function, for every cluster and every world |
| `Controller.Reconciler.ComputePaths` | internal/controller/scionpathpolicy_controller.go:94-158 | the peer loop with its mutable flag, requeue and status update computes the recursive peer loop |
| `RunFacts.CreateOrUpdateStores` | internal/controller/scionpathpolicy_controller.go:110-131 | field by field what CreateOrUpdate stores, and under which owners: the first reference of the policy's kind and name replaced or a new one at the end, all other owners kept in place; nothing else in the cluster changes |
| `RunFacts.AlreadyOwnedIff` | internal/controller/scionpathpolicy_controller.go:123-125 | it stops for another controller exactly when the stored path has one of another kind or name, and any other error is one of the API |
| `RunFacts.AcceptedWriteStores` | internal/controller/scionpathpolicy_controller.go:121-131 | the same fields for every write of the protocol that the server accepts |
| `RunFacts.EarlyEndFacts` | internal/controller/scionpathpolicy_controller.go:58-91 | for every fault, what a run does that does not get to the peers: no policy, a policy under deletion with and without the finalizer, one without it, a failed Get or List |
| `RunFacts.LoopFacts` | internal/controller/scionpathpolicy_controller.go:96-158 | whatever fails and whatever is answered, the loop deals with the peers in order up to some one and ends there for just the reason its outcome tells; before that no answer was an error and, for distinct names, each ready peer's path holds its fields; no path of another name changes |
| `RunFacts.PeersRunFacts` | internal/controller/scionpathpolicy_controller.go:86-158 | the same of every run that gets to the peers |
| `RunFacts.DoneMeansServed` | internal/controller/scionpathpolicy_controller.go:86-158 | a run past the finalizer that reports success found every peer ready, made the policy Active with reason "PathsComputed", the number of peers and the generation read and, for distinct names, stored each peer's fields |
| `RunFacts.RequeueMeansPartlyServed` | internal/controller/scionpathpolicy_controller.go:104-144 | a run that asks to be repeated met no error and some peer that was not ready, stored the fields of every ready peer, for distinct names, and left the policy alone |
| `Alone.LoopAlone` | internal/controller/scionpathpolicy_controller.go:96-158 | the peer loop of the run function is a sequence of protocol steps of one run |
| `Alone.RunAlone` | internal/controller/scionpathpolicy_controller.go:55-159 | refinement: for every cluster, policy and world there are protocol steps of one run that end in exactly the cluster and outcome of the run function |
| `Serial.LoopIsRun` | internal/controller/scionpathpolicy_controller.go:96-158 | the steps a run takes undisturbed in the peer loop, broken off anywhere, are the loop of the run function in some world |
| `Serial.EveryRunIsOne` | internal/controller/scionpathpolicy_controller.go:55-159 | the converse refinement: every undisturbed run of the protocol ends in the cluster, and with the outcome up to the kind of failure, of the run function in some world with the same answers |
| `Serial.HistoryIsRuns` | internal/controller/scionpathpolicy_controller.go:55-159 | and every history of such runs, one after the other, in that of a sequence of run functions |
| `Serial.BrokenRunsLeaveNoTrace` | internal/controller/scionpathpolicy_controller.go:78-158 | retry transparency over protocol steps: runs broken off at any call, with requests refused or replies lost, are made good by two runs, or one if the finalizer is there |
| `Safety.BaseIsCurrent` | internal/controller/scionpathpolicy_controller.go:121 | a resource version names one object version: a path update that passes the version check overwrites just what was read |
| `Safety.SnapIsCurrent` | internal/controller/scionpathpolicy_controller.go:154 | a policy update that passes the version check acts on just the policy that was read |
| `Safety.WrittenIsWellOwned` | internal/controller/scionpathpolicy_controller.go:111-131 | any path a run is about to store has the policy as its one controller, mentions it, and bears its name and a peer's |
| `Safety.StepKeeps` | internal/controller/scionpathpolicy_controller.go:55-159 | every step of every run, user, peer, foreign controller or garbage collector, however stale or faulty, keeps the invariant |
| `Safety.BehaviourKeeps` | internal/controller/scionpathpolicy_controller.go:55-159 | so does every finite interleaving |
| `Safety.ReachablePathsAreWellOwned` | internal/controller/scionpathpolicy_controller.go:96-137 | in every reachable state a path under a policy's control has exactly one controlling owner, a policy issued that uid in the path's namespace, which the spec names; the object's name is that policy's, the separator, and a peer of some time |
| `Safety.RunsKeepToTheirOwn` | internal/controller/scionpathpolicy_controller.go:96-137 | no step of any run removes a path, and the one path a write may change is that of its own policy and current peer, which no other owner controlled at that moment |
| `Safety.WriteIsOverItsOwn` | internal/controller/scionpathpolicy_controller.go:121-131 | an accepted write stores exactly the peer's CIDR, the answer's next hop and its hop bytes, each in its field, under the policy's sole control, over a path no other owner controls |
| `Safety.RecreatedPolicyTakesOver` | internal/controller/scionpathpolicy_controller.go:121-131 | a run of a policy recreated under its old name that finds a path controlled by the old uid writes it, and then the new uid is its only controller and the old one owns it no more |
| `Safety.UnambiguousPoliciesNeverConflict` | internal/controller/scionpathpolicy_controller.go:111-125 | where all policy names ever used are unambiguous, no policy's path is ever in another policy's way |
| `Finalizers.HoldStepKeeps` | internal/controller/scionpathpolicy_controller.go:65-84 | under fresh reads, non-overlapping runs and an untouched finalizer, every run past its finalizer phases works for a policy that exists under that uid and is held by the finalizer |
| `Finalizers.DisciplineHolds` | internal/controller/scionpathpolicy_controller.go:65-84 | that invariant and the one of Safety hold after every disciplined history |
| `Finalizers.NoPathForADeadPolicy` | internal/controller/scionpathpolicy_controller.go:65-131 | after any disciplined history, whatever path the next step of a run creates or changes is controlled by a policy alive under that very uid before and after |
| `Finalizers.RunGetsToWrite` | internal/controller/scionpathpolicy_controller.go:60-131 | a run that reads any version of a policy with its finalizer gets as far as writing a path for it, and nothing stored changes on the way |
| `Finalizers.ExposedIsReachable` | internal/controller/scionpathpolicy_controller.go:78-84 | the ordinary state the three results below start from is reached from the empty cluster by a history that keeps all the rules |
| `Finalizers.StaleReadLeavesOrphan` | internal/controller/scionpathpolicy_controller.go:60-131 | fresh reads are needed: from every state with an ordinary policy, a history that keeps the other two rules ends in a write that makes an orphan |
| `Finalizers.OverlapLeavesOrphan` | internal/controller/scionpathpolicy_controller.go:60-131 | so is one run at a time: from every such state, with fresh reads and the finalizer left alone, a second run releases the policy while the first is about to write |
| `Finalizers.ForeignFinalizerLeavesOrphan` | internal/controller/scionpathpolicy_controller.go:65-84 | so is leaving the finalizer to the controller: from every such state, with fresh reads and one run at a time, somebody else takes it off while the run is about to write |
| `Draining.RunStepWorks` | internal/controller/scionpathpolicy_controller.go:58-158 | each step of a run lowers its outstanding calls by more than the paths it adds |
| `Draining.DrainStepCalms` | internal/controller/scionpathpolicy_controller.go:65-131 | a measure of stored paths and outstanding calls falls with every step of a run in flight and with every collection, whatever is stale or fails |
| `Draining.DrainsEnd` | internal/controller/scionpathpolicy_controller.go:65-131 | left alone, the cluster takes at most as many steps to rest as that measure says |
| `Draining.AtRestIffClean` | internal/controller/scionpathpolicy_controller.go:67-68 | no step is left exactly when no run is in flight and no orphan is stored |
| `ActiveSoundness.CalmKeepsProgress` | internal/controller/scionpathpolicy_controller.go:96-138 | through any interleaving in which others keep off a policy's paths and its run makes no false probe, the peers the run has dealt with have the paths it was told about |
| `ActiveSoundness.ActiveIsSound` | internal/controller/scionpathpolicy_controller.go:94-156 | provided nobody else touches the policy's paths during the run, peers have distinct names, and no probe of the run shows what it wants although that is not stored: whenever a status write of Active is stored, its reply lost or not, every peer the run listed has a path under its name that holds its CIDR and the next hop and hop bytes answered in that run, each in its field, and the observed generation is the policy's current one, whose spec is the one read |
| `ActiveSoundness.ActiveIsSoundIff` | internal/controller/scionpathpolicy_controller.go:94-156 | the third condition is exact: with distinct names and nobody else at the policy's paths, a run that has Active stored served every peer it listed if and only if it made no such false probe; the observed generation is current either way |
| `ActiveSoundness.FreshProbesAreTrue` | internal/controller/scionpathpolicy_controller.go:121 | a probe that returns what is stored is never false |
| `ActiveSoundness.ReportSaves` | internal/controller/scionpathpolicy_controller.go:147-156 | a status write of Active that the version check accepts always makes the unedited policy Active for its current generation and leaves all paths |
| `ActiveLimits.StaleProbeMisleads` | internal/controller/scionpathpolicy_controller.go:121-131 | with one peer and nobody else at the paths, a stale probe that returns an earlier path with just what the run wants has Active stored with that peer not served |
| `ActiveLimits.StaleProbeComesAbout` | internal/controller/scionpathpolicy_controller.go:121-131 | and the state for it comes about from every ordinary policy: two runs store different answers, and the control service goes back to the first |
| `ActiveLimits.OtherHandsMislead` | internal/controller/scionpathpolicy_controller.go:121-156 | with one peer and fresh probes, a deletion between the run's write and its report has Active stored with the path missing |
| `ActiveLimits.SharedNameMisleads` | internal/controller/scionpathpolicy_controller.go:88-156 | with fresh probes and nobody else at the paths, two peers of one name that want different paths have Active stored with the first not served |
| `ActiveAfterwards.ActiveIsNeverCleared` | internal/controller/scionpathpolicy_controller.go:141-156 | once Active, a policy stays Active in every later state in which it exists, whatever happens to its spec, peers and paths |
| `ActiveAfterwards.ActiveOutlivesPath` | internal/controller/scionpathpolicy_controller.go:141-156 | wherever an active policy serves a peer, the collector may not take the peer's path but anybody may delete it, and then the path is missing and the policy Active as before |
| `ActiveAfterwards.PathGoesIffRemoved` | internal/controller/scionpathpolicy_controller.go:96-138 | a single step of anybody takes a stored path away if and only if it deletes or collects that path |
| `ActiveAfterwards.PathLastsIff` | internal/controller/scionpathpolicy_controller.go:96-138 | through any interleaving a stored path stays if and only if nobody deletes and nothing collects it |
| `Plans.LastWriterIsLast` | internal/controller/scionpathpolicy_controller.go:96-111 | the loop's decisive peer for an object name is the last ready one listed |
| `Plans.DesiredAt` | internal/controller/scionpathpolicy_controller.go:96-131 | what the loop leaves at each key: what was there, or the last ready peer's path under the policy's control |
| `Plans.DesiredForgets` | internal/controller/scionpathpolicy_controller.go:119-131 | a full loop leaves the same paths from whatever partial runs left behind |
| `Plans.DesiredIgnoresOrder` | internal/controller/scionpathpolicy_controller.go:87-96 | with distinct peer names the resulting paths do not depend on the order of the list |
| `Retries.CreateOrUpdateWrites` | internal/controller/scionpathpolicy_controller.go:121-136 | CreateOrUpdate leaves all paths alone or writes the one it is about, and without an error has written it |
| `Retries.CreateOrUpdateFailsIff` | internal/controller/scionpathpolicy_controller.go:111-136 | when no call fails on its way, CreateOrUpdate fails if and only if another object controls the path, or it would have two controllers, or it is new and its name of more than 253 characters |
| `Retries.LoopTouches` | internal/controller/scionpathpolicy_controller.go:96-158 | however a loop ends, paths change only at ready peers' names, where the policy took control, and the policy changes only by becoming Active, when all are ready |
| `Retries.CleanLoopSettles` | internal/controller/scionpathpolicy_controller.go:96-158 | a loop in which nothing fails leaves exactly the fold over its peers, requeues if one is not ready and sets Active if none is |
| `Retries.RunsEvolve` | internal/controller/scionpathpolicy_controller.go:55-159 | any sequence of runs, each aborted anywhere or not, leaves the policy with at most the finalizer and Active more, and nothing else of the cluster changed but ready peers' paths |
| `Retries.FullRunSettles` | internal/controller/scionpathpolicy_controller.go:86-158 | one full run from any such state leaves exactly the desired paths and status |
| `Retries.FirstRunAddsFinalizer` | internal/controller/scionpathpolicy_controller.go:78-84 | a run that finds no finalizer adds it, succeeds, and changes nothing else of the cluster, no path in particular |
| `Retries.RetryTransparent` | internal/controller/scionpathpolicy_controller.go:78-158 | after any sequence of aborted runs, two runs, or one if the finalizer is there, leave the cluster as uninterrupted runs do, but for resource versions |
| `Retries.TwoRunsReachActive` | internal/controller/scionpathpolicy_controller.go:78-156 | if every peer is ready, the server accepts the writes and no call fails, at most two runs make a policy Active for its current generation, with a path stored for every peer |
| `Retries.FullRunIdempotent` | internal/controller/scionpathpolicy_controller_test.go:113-133 | a second full run changes nothing but resource versions and has the same outcome, duplicate peer names or not |
| `Retries.SecondRunWritesNothing` | internal/controller/scionpathpolicy_controller_test.go:113-133 | with distinct peer names the second run writes nothing at all |
| `Retries.ListingOrderIrrelevant` | internal/controller/scionpathpolicy_controller.go:87-158 | with distinct peer names a full run has the same outcome and effect for every order of the list |
| `Retries.LastKnownGood` | internal/controller/scionpathpolicy_controller.go:104-108 | whatever fails, a run removes no path, changes none but ready peers', and leaves the path of a peer that is not ready as it was |
| `Retries.PathsMatchPeersIff` | internal/controller/scionpathpolicy_controller.go:96-138 | after a full run the stored paths are the earlier ones and the ready peers', and so are those the policy controls; these are the ready peers' only, if and only if the policy controlled no other before |
| `Retries.AllServedIff` | internal/controller/scionpathpolicy_controller.go:88-131 | a full run stores every ready peer's CIDR, next hop and hop bytes, each in its field, if and only if ready peers of one name have the same CIDR and answer |
| `Retries.DeletionRunReleases` | internal/controller/scionpathpolicy_controller.go:64-75 | a run for a policy under deletion gives up its finalizer, which removes the policy exactly when it was the last, and touches no path |
| `Retries.NilPreferenceIff` | internal/controller/scionpathpolicy_controller.go:98 | a run trips over a nil preference if and only if it gets as far as a first peer of a policy without one |
| `Reachable.UnambiguousIsAcceptable` | internal/controller/scionpathpolicy_controller.go:111-125 | in reachable states with unambiguous names, no foreign control at the ready peers' names, and the policy an owner there as controller only, the server accepts every write of a run if and only if the names fit the limit |
| `Reachable.CollisionFreeRunsReachActive` | internal/controller/scionpathpolicy_controller.go:78-156 | from every such reachable state in which the names fit, two runs in which nothing fails and every peer is ready make the policy Active |
| `Reachable.ActiveIsReached` | internal/controller/scionpathpolicy_controller.go:78-156 | in the protocol itself, every reachable state in which all peers are ready and the writes acceptable can go on to one in which the policy is Active for its generation |
| `Reachable.RemovedPeerLeavesPath` | internal/controller/scionpathpolicy_controller.go:96-138 | from the empty cluster, a policy, a peer, two runs and the removal of the peer lead to a state in which the policy owns a path that is no peer's |
| `PodWatch.IPIsAnnouncedOnce` | internal/controller/scionpathpolicy_controller.go:165-179 | over any history of one pod, whenever it has an IP exactly one event has passed the filter since it last had none |
| `PodWatch.PassesIff` | internal/controller/scionpathpolicy_controller.go:165-179 | over any history, just those events pass after which the pod is gone, and those that give it an IP when it had none or was not there |
| `PodWatch.Matching` | internal/controller/scionpathpolicy_controller.go:197-211 | the listed policies with a selector that converts, keys and values well formed, and that matches the pod, and no others |
| `PodWatch.PodToPolicies` | internal/controller/scionpathpolicy_controller.go:183-221 | the requests are exactly the policies of the pod's namespace whose selector converts and matches, in list order, or, when there are none or the List failed, exactly `kube-system/default-scion-policy`; never empty |
| `PodWatch.PodsWithIPsAreServed` | internal/controller/scionpathpolicy_controller.go:165-231 | filter and mapper together, over any history of one pod: whenever it has an IP, just one event announced that, and it enqueued every policy of the namespace that selects the pod as it then was, or the default policy if there is none, and nothing that the pod just before or just after the event does not ask for |
| `Selectors.OperatorsMean` | internal/controller/scionpathpolicy_controller.go:198-205 | Exists is about the key, In about a key with one of the values, NotIn and DoesNotExist are their opposites |
| `Selectors.RequirementsNarrow` | internal/controller/scionpathpolicy_controller.go:198-205 | a label that must match is an In requirement with one value, every requirement narrows the selection, and the empty selector selects every pod |
| `Selectors.InvalidIff` | internal/controller/scionpathpolicy_controller.go:199-202 | which selectors the mapper skips: malformed keys or values, unknown operators, In and NotIn without values, Exists and DoesNotExist with some |
| `PodWatch.PeerToPolicies` | internal/controller/scionpathpolicy_controller.go:235-247 | a changed peer enqueues exactly the policies of all namespaces, in list order, or none when the List fails |
| `ScionMac.StampedHop` | bpf/scion_mac.h:12-32 | the MAC is not among its own inputs: writing it into a hop field changes nothing it is computed from |
| `ScionMac.CalculateScionMac` | bpf/scion_mac.h:18-32 | writes exactly the MAC's six bytes, computed from the info field and the first eight and last two bytes of the hop field, or fails and writes nothing |
| `ScionMac.VerifyScionMac` | bpf/scion_mac.h:38-63 | zero if and only if bytes 8 to 13 of the hop field are the MAC computed from the info field and the other ten bytes; -1 if and only if the computation failed |
| `Codec.KeyBytesAreAddressBytes` | internal/bpf/types.go:27-40 | on hosts of either byte order the stored key has the address's own bytes, which is what the datapath looks up |
| `Codec.KeysAreDistinct` | internal/bpf/types.go:34-40 | different addresses have different keys |
| `Codec.KeyIsPositional` | internal/bpf/types.go:34-39 | a key is the address's bytes as a number, the first byte lowest on little-endian hosts and highest on big-endian ones |
| `Codec.KeyRoundTrip` | internal/bpf/types.go:34-47 | IPToKey and IPFromKey are inverse on IPv4 addresses in four- and sixteen-byte form, and IPToKey fails on exactly the others |
| `Codec.EntryRoundTrip` | internal/bpf/types.go:9-25 | the 284 bytes the Go struct is serialised to, read through the C struct, give the same entry |
| `Codec.EntryLayout` | internal/bpf/types.go:9-25 | where each field lies in the 284 serialised bytes, the path length in the host's byte order |
| `Routing.DoRefines` | internal/bpf/loader.go:139-169 | each loader operation gives the same result on the bounded kernel maps and on the table, full maps, missing keys and bad addresses included, and the maps still implement the table |
| `Routing.SelectRefines` | bpf/tc_egress.c:157-166 | the two lookups of egress find just the table's path for the source address |
| `Routing.HistoryRefines` | internal/bpf/loader.go:139-169 | so after any sequence of operations, on hosts of either byte order |
| `Routing.OperationsMissIngress` | internal/bpf/loader.go:25-52 | after any sequence of operations the TC program's maps are what the operations make of them, and the XDP program's own instances are still empty |
| `TableFacts.SelectedIsServed` | internal/bpf/loader.go:139-169 | after any operations, accepted or not, egress selects for an address an entry if and only if the last accepted word about that pod is an update to some id and the last accepted word about that id is an update to that entry |
| `TableFacts.ResultsAreExact` | internal/bpf/loader.go:139-169 | the result of every operation after any history, by the pods and ids of which an update stands: bad address, full map, missing key, success |
| `TableFacts.EgressGoesBySource` | bpf/tc_egress.c:157-166 | for a frame built of its fields, egress chooses an entry if and only if it serves the source address, whatever the destination |
| `TableFacts.UnservedFramesPass` | bpf/tc_egress.c:160-166 | a frame of a source address that nothing serves leaves as it came |
| `TableFacts.OtherFramesPass` | bpf/tc_egress.c:146-155 | so does every frame that is too short, not of type 0x0800, or shorter than its IPv4 header announces |
| `TableFacts.SharedKeyIsOfPathZero` | bpf/xdp_ingress.c:120-123 | were the maps shared, the local key would be that of the last accepted update of id 0, if not deleted since |
| `Routing.Loader.UpdatePodPolicy` | internal/bpf/loader.go:140-146 | the pod's id is replaced or stored, on the TC program's maps only; refused exactly for an address that is not IPv4, or a new pod when 10000 are there, and then nothing changes; performs the table's operation |
| `Routing.Loader.DeletePodPolicy` | internal/bpf/loader.go:149-155 | the pod's id is removed, on the TC program's maps only; refused exactly for an address that is not IPv4 or a pod that is not there, and then nothing changes; performs the table's operation |
| `Routing.Loader.UpdateScionPath` | internal/bpf/loader.go:162-164 | the id's entry is replaced or stored, on the TC program's maps only; refused exactly for a new id when 1024 are there, and then nothing changes; performs the table's operation |
| `Routing.Loader.DeleteScionPath` | internal/bpf/loader.go:167-169 | the id's entry is removed, on the TC program's maps only; refused exactly for an id that is not there, and then nothing changes; performs the table's operation |
| `Egress.Parse` | bpf/tc_egress.c:31-51 | accepts exactly the frames that are IPv4 and hold the header their own IHL announces, and reads only inside the frame |
| `Egress.WriteHeaders` | bpf/tc_egress.c:69-122 | the in-place writes turn the frame with its opened room into the encapsulated frame: next hop and own MAC address, outer headers, path, and the inner packet untouched |
| `Egress.StampHop` | bpf/tc_egress.c:120-132 | puts the MAC into hop field 0 of the frame and changes nothing else, or reports the failure |
| `Egress.TcEgress` | bpf/tc_egress.c:139-200 | verdict and frame, for every frame and every content of the maps, are those of the egress function; a frame for whose source address, bytes 26 to 29, the two lookups find nothing is left untouched |
| `PacketFacts.EgressInBytes` | bpf/tc_egress.c:69-200 | egress byte by byte, in offsets and numbers: which frames leave as they came or are dropped, every byte of the new headers, where the path goes, and what the MAC is computed from and where it is written |
| `Ingress.ParsePathMeta` | bpf/xdp_ingress.c:28-36 | the meta header's offset if and only if it lies inside the packet |
| `Ingress.CurrentHopField` | bpf/xdp_ingress.c:38-47 | the current hop field's offset if and only if it lies inside the packet, in int arithmetic that does not overflow |
| `Ingress.FilterScion` | bpf/xdp_ingress.c:59-82 | lets pass exactly the frames that are too short, not of type 0x0800, not UDP, or not to port 30041 behind the outer header they announce, and finds that header's length in the others |
| `Ingress.Locate` | bpf/xdp_ingress.c:84-115 | finds the fields and the length to strip in any SCION packet, or finds it malformed, with no access outside it and no overflow |
| `Ingress.ParsedFits` | bpf/xdp_ingress.c:101-115 | every length and offset computed from any packet stays below 8192, and what is used later lies inside the packet |
| `Ingress.Decapsulate` | bpf/xdp_ingress.c:136-168 | moves the head and rewrites the Ethernet header in front of the inner packet, all accesses inside the buffer after the move as before |
| `Ingress.XdpIngress` | bpf/xdp_ingress.c:53-169 | verdict and frame, for packets of any length and content, are those of the ingress function |
| `PacketFacts.OtherTrafficPasses` | bpf/xdp_ingress.c:59-82 | a frame that is too short, not IPv4, not UDP, or not to port 30041, behind an outer header of any length, passes untouched, whatever key and MAC |
| `PacketFacts.ScionTrafficNeedsKey` | bpf/xdp_ingress.c:80-123 | and one that is, without a local key, is dropped as it came |
| `PacketFacts.IngressInBytes` | bpf/xdp_ingress.c:53-169 | ingress byte by byte: a SCION packet passes, without what lies between its Ethernet header and the inner packet, if and only if it holds all it announces, there is a key, the current hop field carries its MAC and an IPv4 header fits into the rest |
| `RoundTrip.LengthsAgreeIff` | bpf/xdp_ingress.c:103-109 | for every stored path length, ingress strips what egress opened if and only if it is the meta, info and hop sizes that `num_inf` and `num_hf` imply |
| `RoundTrip.OuterLengths` | bpf/tc_egress.c:96-114 | the outer IPv4 and UDP lengths are the true ones if and only if they fit 16 bits, and wrap around otherwise |
| `RoundTrip.MacInRoomIff` | bpf/tc_egress.c:120-127 | for every stored path length, the MAC is written inside the opened room, and not into the inner packet, if and only if the info fields the frame announces leave room for it; the exact condition of an access outside the packet |
| `RoundTrip.EgressOfWellFormed` | bpf/tc_egress.c:168-195 | for well-formed entries egress never accesses anything outside the packet, passes if and only if room was granted and the MAC of the stored hop 0 could be computed, and then the frame is the stored path with that MAC in hop 0, the extension's room, and the inner packet |
| `RoundTrip.IngressOfCarrier` | bpf/xdp_ingress.c:84-168 | ingress passes such a frame if and only if the current hop field lies inside it and verifies under the local key, and then gives back the inner packet |
| `RoundTrip.RoundTrips` | bpf/tc_egress.c:140-200 | encapsulate, then decapsulate: every byte behind the destination MAC address comes out as it went in, when the current hop is hop 0 and ingress is given the same key |
| `RoundTrip.RoundTripsIff` | bpf/xdp_ingress.c:38-130 | for any well-formed entry, current hop and key the frame comes through if and only if: at hop 0, both keys give the stored hop the same MAC; at a later hop, the stored hop field verifies; past the path, the bytes there suffice and happen to verify |
| `RoundTrip.EgressFollowsTable` | bpf/tc_egress.c:157-171 | after any control-plane history egress acts on every IPv4 frame by the table's path for its bytes 26 to 29 alone, and leaves frames without a path untouched |
| `RoundTrip.IngressHasNoKey` | internal/bpf/loader.go:25-52 | as the program is, ingress finds no local key after any history, drops all SCION traffic and passes everything else |
| `RoundTrip.EncapsulatedFramesAreDropped` | bpf/xdp_ingress.c:120-123 | so whatever two nodes' histories, each frame the first one encapsulates is dropped by the second |
| `RoundTrip.EndToEndIff` | bpf/xdp_ingress.c:54-169 | the exact condition, for any content of the ingress maps: a pod's frame comes through unchanged if and only if they hold a local key and the frame is accepted under it |
| `RoundTrip.LocalKeyWhenShared` | internal/bpf/loader.go:25-31 | under the hypothesis that both programs share one instance of the maps, which the code leaves to do, ingress finds the key of the table's path 0 |
| `RoundTrip.EndToEndWhenShared` | internal/bpf/loader.go:25-31 | under the same hypothesis, two nodes of any byte order and history: a pod's frame that the first lets out by a path from hop 0, the second gives back unchanged if its path 0 has the key |
| `Printing.DecimalRoundTrip` | pkg/scion/paths.go:43 | a printed interface id has digits only and reads back as itself |
| `Printing.DecimalIsPositional` | pkg/scion/paths.go:43 | a digit more is a decimal place more |
| `Printing.IdFromSnetPath` | pkg/scion/paths.go:40-49 | the loop builds the interfaces' texts joined by "-" |
| `Printing.InterfacesToIds` | pkg/scion/paths.go:136-143 | the loop builds the interfaces' texts with "#" replaced by "-" |
| `Printing.PathTextDecodes` | pkg/scion/paths.go:40-49 | a parser recovers every list of interfaces, the empty one included, from the text that identifies its path |
| `Printing.SorterTextDecodes` | pkg/scion/paths.go:112-143 | a parser recovers it from the text paths are sorted by, too |
| `Printing.TextsIdentify` | pkg/scion/paths.go:40-49 | equal texts of either kind mean equal interfaces |
| `Paths.LessIsStrictTotalOrder` | pkg/scion/paths.go:147-156 | the comparison is irreflexive, transitive and total on different texts |
| `Paths.NotLessMeans` | pkg/scion/paths.go:147-156 | what the order is: a text that need not go behind another is shorter, equal, or smaller at the first difference |
| `Paths.SortedIsUnique` | pkg/scion/paths.go:147-156 | any sorting by it, stable or not, leaves one possible sequence of texts |
| `Paths.SortedPathsUnique` | pkg/scion/paths.go:147-156 | and one possible sequence of paths, when the texts tell them apart |
| `Paths.SortPartsPaths` | pkg/scion/paths.go:147-156 | sorts in place, a permutation: shorter texts first, and of two different texts of one length the one with the smaller character where they first differ |
| `Paths.QueryPaths` | pkg/scion/paths.go:89-134 | returns the daemon's failure, or its paths in that order, every field read off the daemon's path: texts, hash, MTU, payload of 1200 bytes, half the number of interfaces as hops, inactive |
| `Paths.AnswerMeans` | pkg/scion/paths.go:89-134 | and each of the daemon's paths is there, as often as the daemon returned it |
| `Paths.QueryIgnoresDaemonOrder` | pkg/scion/paths.go:89-134 | the result does not depend on the order of the daemon's answer when interfaces tell its paths apart |
| `Paths.GoodQueryReflected` | pkg/scion/path_cache.go:19-27 | storing a good result keeps the cache at the last good result of every remote |
| `Paths.FailedQueryReflected` | pkg/scion/path_cache.go:21-23 | so does ignoring a failed query |
| `Paths.PathCache.Refresh` | pkg/scion/path_cache.go:19-27 | after any history the cache holds each remote's last good result; other remotes are not touched |
| `Paths.PathCache.Get` | pkg/scion/path_cache.go:29-36 | answers with the last good result for the remote, this query's own if it succeeded, and with nothing if there never was one |

## Left out

- Attaching and detaching programs, ELF loading, netlink and `Close` in `internal/bpf/loader.go`: kernel and library input and output.
- AES-CMAC and FNV-1a: function parameters. No claim is made about collisions of the hashed path id.
- Checksums, the outer source address and the extension's contents, which egress never writes, and the empty `clamp_tcp_mss`.
- Packets whose data is not linear: a frame is one buffer, so `skb->len` is its length.
- Big-endian layout of `cur_hf`: both byte orders are covered for keys and entries, but bit-fields follow the little-endian rules.
- The content of the Active condition's message beyond its number of destinations, and `LastTransitionTime`.
- Watches, work queue, event delivery, timing and requeue delays: runs start at any time, and no claim is made about wall-clock time.
- API conversions: admission, defaulting and labels of objects other than what the reconciler reads and writes.
- The unset `Pref` field of a path, `GetFirstHop`, `QueryRawPaths` and `SortPartsPathsP`, which repeats `SortPartsPaths`.
- `pkg/scion/host.go`: the daemon is a parameter that gives any list of paths or fails.
- The reconcilers of peers and computed paths, whose bodies are empty, and `cmd/main.go`, manifests, generated code and scripts.
- Designs found in the Markdown files only: shared paths with reference counts, a three-map lookup, expiry, annotations.
- Routing.Loader.UpdatePodPolicy: `Put`, like the other three operations, has the errors shown (bad address, full map, missing key); other errors of the system call are not modelled.
- Paths.SortPartsPaths: is an insertion sort, which `sort.Slice` is for short slices; for longer ones the library's algorithm is not modelled.
