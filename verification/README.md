# Verification of the ZFS storage appliance CSI driver

This Dafny project models the parts of the driver that are hardest to get right, and proves what they
guarantee. Check it with `dafny verify dfyconfig.toml`.

- **Access control of volumes and snapshots** (`access_*.dfy`). The driver keeps a cache of volumes and
  one of snapshots, each a map under a reader/writer lock; each object has a reference count, a state
  and a bolt. The model is a transition system over any number of concurrent requests. One step is one
  access to shared state: a mutex taken or left, an object held, counted down, locked, unlocked, added or
  removed, or a call to the appliance. `AccessModel.Act` says what a request does next, method by method.
  The appliance is an abstract state of volumes, snapshots, clones and initiator groups that refuses
  nothing by itself, and whose calls may fail, or take effect while the answer is lost. The files build on
  each other: the model (`access_model`), what one request's variables say at each program point
  (`access_program`), the invariants with their preservation (`access_volumes`, `access_snapshots`, and
  the `_steps` files), runs (`access_runs`), and then the results: over reachable states
  (`access_theorems`), over histories (`access_histories`), on what each call does and what the appliance
  holds (`access_effects`), on requests served by themselves (`access_service`), on what the driver believes
  of the appliance (`access_beliefs`), on deadlock (`access_deadlock`, `access_cycle`), and on when the
  driver panics (`access_panics`, with the continuations of runs in `access_drain`, `access_solo` and
  `access_deletion`, and complete runs in `access_witnesses`). `access_driver.dfy` is the driver in memory:
  volume and snapshot objects with their state, count and bolt, and maps and pointers that refer to them. It
  decides and updates on these objects, is proved to take the steps of the transition system, and stays in
  reachable states under any schedule.
- **The bolt** (`bolt.dfy`): the condition-variable lock, and that it implements the atomic lock of the
  protocol.
- **The session token** (`token.dfy`): single-flight creation with waiters, expiry reports and the retry.
- **Identifiers** (`identifiers.dfy`): printing and parsing of volume and snapshot IDs, and hrefs.
- **Paging** (`paging.dfy`), **capacity and capabilities** (`capacity.dfy`), **filesystem creation and
  expansion** (`filesystem.dfy`), **creation and publishing of LUNs** (`block.dfy`).

## Hypotheses

The model rests on these; where only some results need one, it names them.

- Request contexts are non-nil and distinct. `Bolts.ExclusionExactly` shows that exclusion needs both;
  start-up refreshes the volume list with a nil context (pkg/service/service.go:293), and every refresh
  runs two goroutines with one context (pkg/service/volumes.go:418-419), one for filesystems and one for
  LUNs; that is harmless only because, and as long as, their volumes have different names.
- Volume names are unique across pools, projects and kinds, and a volume's name stands for its whole ID
  when source IDs are compared. The caches are keyed by name only.
- Only the driver changes the appliance. A refresh takes up what was on the appliance when its list was
  fetched, whatever happened since; in the model each entry of the list is a request that arrives with the
  fetch.
- A call to the appliance is executed and answered, fails without effect, or takes effect while its answer
  is lost or not understood. Everything in `AccessRuns`, `AccessTheorems`, `AccessHistories` and
  `AccessDeadlock`, and `AccessBeliefs.PhantomsExactly`, holds for every such behaviour of the appliance and
  for lists that are out of date, with one exception:
- `AccessTheorems.ReferentialIntegrity` needs that no deletion of a LUN goes ahead on a list of snapshots
  of which no entry was understood. The list of a LUN skips entries whose href or date cannot be parsed
  (pkg/service/snapshots.go:198-210), and the deletion of a LUN checks nothing more. A list with some
  understood entry stops the deletion like any other. `AccessTheorems.BlindDeletionExactly` says when
  going ahead does harm.
- `AccessBeliefs.PanicsOnSourceExactly` and `AccessBeliefs.NoPanic` are about tame runs
  (`AccessBeliefs.TameStep`), in which four things do not happen. Each of them can make the driver panic, in
  ordinary runs (`AccessWitnesses`), and theorems say when. A creation request for an existing volume with a
  cached snapshot is answered other than by success or 409, whereupon the driver marks the volume as deleted
  (`AccessPanics.FailedCreationPanicsExactly`). A LUN with a cached snapshot is deleted on a list of which no
  entry was understood (`AccessPanics.BlindDeletionPanicsExactly`). The deletion of a snapshot takes effect
  while its answer is lost (`AccessPanics.LostDeletionPanicsExactly`). A refresh takes up a snapshot that was
  deleted since its list was fetched (`AccessPanics.LateRefreshPanicsExactly`). The last two are exact as long
  as no other snapshot of the volume has a clone, and harmless for a volume with a snapshot that no request
  names.
- A snapshot name determines its source volume, for `AccessBeliefs.NoPanic` and the exact conditions in
  `AccessPanics` only. `AccessWitnesses.SourcesDisagreeExactly` says that it is needed,
  `AccessBeliefs.PanicsOnSourceExactly` at which step its failure shows.
- Deadlock freedom needs the clones in flight to be acyclic, and no refresh to have leaked.
  `AccessCycle.CycleDeadlocks` and `AccessHistories.LeakStarves` show both are needed.
- Node names differ from the mask, and the appliance issues a fresh session each time it creates one.
- The token is not reset outside its mutex. `Tokens.ResetBreaksExactly` says when a reset does harm.

## Where the code and its documentation differ

- The CSI specification lets a client page until the next token is empty. The driver marks the last page
  by the token "0", which it accepts as a starting token (`Paging.LastTokenStartsOver`).
- The CSI specification asks for idempotent creation. It holds for filesystems that are cached in
  stateCreated (`Filesystems.CreateIsIdempotent`), and fails for every conflict on a placeholder
  (`Filesystems.PlaceholderConflict`, `Filesystems.LostCreationBlocksRetries`). It never holds for LUNs,
  whose access modes are never filled in (`Blocks.ConflictExactly`, `Blocks.CreationIsNotIdempotent`).
- The comment at pkg/service/controller_block.go:92-93 has a conflict checked for compatibility. A request
  that passes the checks, which only one without capabilities does, reads the answer of the failed creation,
  which is nil, and crashes (`Blocks.ConflictExactly`); validation keeps such requests out.
- An expansion compares with the capacity the driver knows, so that after a lost answer it can take quota
  away (`Filesystems.LowersExactly`).

## Model

| member | source | states |
|---|---|---|
| `AccessTheorems.ExclusiveAccess` | pkg/service/volumes.go:34-44 | in every reachable state at most one request, through one of its slots, stands between a successful newVolume or lookupVolume of a name and the bolt unlock of its releaseVolume |
| `AccessTheorems.OneObjectPerName` | pkg/service/volumes.go:137-154 | every request that refers to a volume name refers to the one object cached under it, whose reference count is the number of requests between hold and release |
| `AccessTheorems.RemovalIsSafe` | pkg/service/volumes.go:215-231 | the delete-by-name after the gap between the read lock and the write lock removes the object being released, and no other request refers to that object |
| `AccessTheorems.NestedLocking` | pkg/service/volumes.go:54-58 | a request waiting for or owning a snapshot's bolt owns the bolt of the volume cached for the snapshot's source, and no other request is concerned with the snapshot |
| `AccessTheorems.SnapshotBoltFree` | pkg/service/volumes.go:259-267 | the wait for a snapshot's bolt never blocks, so adding a snapshot to the cache before locking it is harmless |
| `AccessTheorems.SnapshotNeverBusy` | pkg/service/volumes.go:328-336 | a snapshot found in the cache is in stateCreated once it is locked: neither "snapshot busy" branch is ever taken |
| `AccessTheorems.UnlockByOwner` | pkg/service/volumes.go:368-386 | in every reachable state a request about to unlock the bolt of a volume or a snapshot owns it, except exactly when releaseSnapshot made it release a volume object other than the one it looked up, whose bolt then is free |
| `AccessTheorems.PanicExactly` | pkg/service/volumes.go:319-327 | in every reachable state a step panics if and only if lookupSnapshot finds a snapshot that points at another volume object than the one just looked up, or the volume to be unlocked was taken from such a snapshot |
| `AccessTheorems.QuiescentCleanliness` | pkg/service/volumes.go:195-231 | whenever no request is at work, every cached volume and snapshot is in stateCreated with reference count 0 and a free bolt |
| `AccessTheorems.ReferentialIntegrity` | pkg/service/controller.go:203-223 | every snapshot on the appliance has its source volume and every clone its origin snapshot, although the modelled appliance refuses no deletion and any answer may be lost; no deletion of a LUN may go ahead on a list of snapshots of which no entry was understood |
| `AccessTheorems.BlindDeletionExactly` | pkg/service/snapshots.go:198-210 | when a LUN is about to be deleted and no entry of the list of its snapshots is understood, the appliance can become inconsistent if and only if the LUN has a snapshot |
| `AccessBeliefs.PhantomsExactly` | pkg/service/volumes.go:442-453 | in every state of every run a volume is cached in stateCreated and missing on the appliance if and only if a deletion of it took effect with its answer lost, or a refresh took it up from a list fetched before it was deleted, and since then no creation of it came to an end, no clone became it and no deletion of it succeeded |
| `AccessBeliefs.NoPanic` | pkg/service/volumes.go:313-345 | if requests name one source for each snapshot name, no tame run panics |
| `AccessBeliefs.PanicsOnSourceExactly` | pkg/service/volumes.go:319-327 | in every state of a tame run, whatever sources requests name, a step panics if and only if lookupSnapshot finds the snapshot cached with another source than the one named; cached snapshots point at the objects cached for their sources, which are in stateCreated, and exist on the appliance if they are in stateCreated themselves and their source can be deleted |
| `AccessPanics.FailedCreationPanicsExactly` | pkg/service/controller_fs.go:72-78 | when a tame run comes to a creation request for a cached, existing volume that is answered other than by success or 409, tame steps can lead to a panic afterwards if and only if a snapshot of the volume is cached; both panics can follow if nobody is inside a cache mutex |
| `AccessPanics.DriftPanicsExactly` | pkg/service/volumes.go:541-552 | when a tame run comes to the call that deletes a snapshot, or to taking up a snapshot from a list, tame steps can lead to a panic afterwards only if the driver goes on to cache a snapshot that is gone and requests may name all other snapshots of the volume; and then they can, if none of these has a clone, even if the volume is gone |
| `AccessPanics.LostDeletionPanicsExactly` | pkg/service/snapshots.go:104-111 | so for the deletion of a snapshot, if no other snapshot of the volume has a clone: a panic can follow if and only if it takes effect, its answer is lost, and requests may name all other snapshots of the volume |
| `AccessPanics.LateRefreshPanicsExactly` | pkg/service/volumes.go:527-552 | and for a refresh that takes up a snapshot: a panic can follow if and only if the snapshot was deleted since the list was fetched, its entry is understood, and requests may name all other snapshots of the volume |
| `AccessPanics.BlindDeletionPanicsExactly` | pkg/service/controller_block.go:139-152 | when a tame run comes to the deletion of a LUN and no entry of the list of its snapshots is understood, tame steps can lead to a panic afterwards if and only if the LUN exists and a snapshot of it is cached |
| `AccessPanics.DyingPanics` | pkg/service/volumes.go:368-386 | from any state, whatever the other requests are doing, in which a request is about to release the deleted volume object that a cached snapshot points at, a panic can be reached |
| `AccessWitnesses.FailedRetryPanics` | pkg/service/controller_fs.go:72-78 | a run of ordinary requests gets to such a creation request, for any volume and snapshot, and both panics can follow its failure |
| `AccessWitnesses.LostDeletionPanics` | pkg/service/snapshots.go:104-111 | a run of ordinary requests gets to the deletion of the only snapshot of a volume, and both panics can follow when its answer is lost |
| `AccessWitnesses.UnreadListPanics` | pkg/service/controller_block.go:139-152 | a run of ordinary requests gets to the deletion of a LUN with a cached snapshot, and both panics can follow when no entry of the list is understood |
| `AccessWitnesses.LateRefreshPanics` | pkg/service/volumes.go:527-552 | a run of ordinary requests gets to a snapshot that is listed, deleted, and then taken up from the list; both panics can follow although no call fails and no answer is lost |
| `AccessWitnesses.SourcesDisagreeExactly` | pkg/service/volumes.go:319-327 | for any set of snapshots that requests may name, some tame run panics if and only if two of them have the same name and different sources |
| `AccessRuns.StepKeepsInv` | pkg/service/volumes.go:124-386 | the invariant behind these results is kept by every step of every request, and by arrivals |
| `AccessRuns.RunInv` | pkg/service/volumes.go:124-386 | and so it holds in every state of every run, for any number of requests and any interleaving |
| `AccessHistories.StepAges` | pkg/service/controller_fs.go:74-77 | only a step of the bolt's owner changes the state of an object, and never backwards |
| `AccessHistories.LifeMovesForwards` | pkg/service/volumes.go:63-67 | over any run the state of a volume object moves from stateCreating over stateCreated to stateDeleted; a deleted object stays deleted |
| `AccessHistories.SnapshotsMoveForwards` | pkg/service/snapshots.go:104-111 | the same for snapshot objects, which keep their name, source and volume object |
| `AccessHistories.HandedOutVolumes` | pkg/service/volumes.go:195-211 | while a handler works on a volume it looked up, the volume is in stateCreated and the request owns it; a volume under creation is in stateCreated or stateCreating and owned |
| `AccessHistories.GroupIsLastPublished` | pkg/service/controller_block.go:198-204 | from a publish that takes effect until the LUN is unpublished or created anew its initiator group is the node of that publish, whatever else happens in between and whichever answers are lost |
| `AccessHistories.PublishExclusive` | pkg/service/controller_block.go:181-196 | two publishes of one LUN that take effect have an unpublish or a re-creation of it between them, although reading and writing the group are separate steps |
| `AccessHistories.LeakIsForever` | pkg/service/volumes.go:547-551 | after a refresh that skips the release, the snapshot's and the source volume's bolts stay taken in every later state |
| `AccessHistories.LeakStarves` | pkg/service/volumes.go:547-551 | and no request that needs the leaked volume first ever finishes, whether it is on its way already or arrives later |
| `AccessEffects.CreateEffect` | pkg/service/controller_fs.go:72-83 | the step of a creation puts a masked volume on the appliance unless it fails or one of that name is there; the object is deleted on any failure, kept on a conflict and in stateCreated otherwise |
| `AccessEffects.DetailsEffect` | pkg/service/volumes.go:195-205 | a placeholder becomes stateCreated, and the handler gets it, if and only if the appliance has the volume and says so |
| `AccessEffects.DelListEffect` | pkg/service/controller.go:216-223 | a deletion goes ahead if and only if the volume exists and the list of its snapshots is empty, or is of a LUN and has no entry that is understood |
| `AccessEffects.DeleteEffect` | pkg/service/controller_block.go:139-152 | the step of a deletion removes the volume and nothing else, unless it fails; the object is deleted if and only if the answer arrives |
| `AccessEffects.PublishReadEffect` | pkg/service/controller_block.go:175-196 | a publish goes on to set the group if and only if the LUN exists, is masked, and the appliance says so |
| `AccessEffects.PublishEffect` | pkg/service/controller_block.go:198-204 | setting the group gives a LUN that is still masked to the node, unless it fails |
| `AccessEffects.UnpublishEffect` | pkg/service/controller_block.go:209-228 | an unpublish masks the LUN, unless it fails |
| `AccessEffects.CloneEffect` | pkg/service/controller_block.go:113-137 | a clone appears masked and with its origin if and only if its name is free, the snapshot exists and the call does not fail; only then, and if the answer arrives, its object is in stateCreated |
| `AccessEffects.SnapCreateEffect` | pkg/service/snapshots.go:43-83 | a creation puts the snapshot on the appliance if and only if its source is there and the call does not fail; the object is kept on a conflict, in stateCreated for a new snapshot, deleted otherwise |
| `AccessEffects.SnapRefreshEffect` | pkg/service/volumes.go:541-552 | a refresh puts the object into stateCreated, or is not understood and leaks |
| `AccessEffects.SnapDetailsEffect` | pkg/service/volumes.go:348-355 | a snapshot placeholder becomes stateCreated if and only if the appliance has the snapshot and says so |
| `AccessEffects.SnapDelInfoEffect` | pkg/service/snapshots.go:90-102 | a deletion goes ahead if and only if the snapshot exists, has no clone, and the appliance says so; a missing snapshot's object is deleted |
| `AccessEffects.SnapDeleteEffect` | pkg/service/snapshots.go:104-111 | the step of a deletion removes the snapshot and nothing else, unless it fails; the object is deleted if and only if the answer arrives |
| `AccessEffects.Dispatch` | pkg/service/controller.go:38-224 | in every reachable state a request about to make a call is the one the call is for |
| `AccessEffects.OnlyCallsChange` | pkg/service/volumes.go:124-386 | no other step changes the appliance |
| `AccessEffects.VolumesExactly` | pkg/service/controller.go:203-223 | in every state of every run the appliance has a volume if and only if it was there from the start, or was created or cloned, and no deletion of it has taken effect since |
| `AccessEffects.SnapshotsExactly` | pkg/service/snapshots.go:43-111 | the same for snapshots |
| `AccessEffects.OutdatedExactly` | pkg/service/volumes.go:390-453 | at any time after the list was fetched, what a refresh is to take up is gone from the appliance if and only if it was deleted since the fetch and not made again |
| `AccessEffects.GroupExactly` | pkg/service/controller_block.go:166-228 | in every state of every run the group of a LUN is the one given by the last publish, unpublish or creation that took effect, or the one it had from the start |
| `AccessEffects.MaskedUntilPublished` | pkg/service/controller_block.go:209-228 | a LUN that was unpublished, created or cloned is masked until a publish takes effect |
| `AccessService.PublishServed` | pkg/service/controller_block.go:166-207 | a publish of a masked, available LUN that is served by itself, no call failing, ends with the node as the group and everything else as it was |
| `AccessService.UnpublishServed` | pkg/service/controller_block.go:209-228 | an unpublish served by itself ends with the LUN masked |
| `AccessService.CreateServed` | pkg/service/controller_fs.go:54-122 | a creation served by itself ends with the volume on the appliance and in the cache |
| `AccessService.DeleteServed` | pkg/service/controller.go:160-223 | a deletion of a volume without snapshots served by itself ends without the volume |
| `AccessService.SnapshotServed` | pkg/service/snapshots.go:43-83 | a creation of a snapshot served by itself ends with the snapshot on the appliance |
| `AccessService.SnapshotDeletionServed` | pkg/service/snapshots.go:85-111 | a deletion of a snapshot without clones served by itself ends without the snapshot, whether it was cached or not |
| `AccessService.CloneServed` | pkg/service/controller_block.go:113-137 | a clone served by itself ends with the new volume on the appliance, with its origin |
| `AccessDeadlock.WaitsDescend` | pkg/service/volumes.go:215-231 | every wait, for a bolt or for a cache mutex with waiting writers ahead of readers, is for an unfinished request of a strictly lower level: the waits-for relation is acyclic |
| `AccessDeadlock.NoDeadlock` | pkg/service/volumes.go:314-345 | if the clones in flight can be ordered with sources before targets and nothing has leaked, every unfinished request can go on or waits along a path for one that can |
| `AccessDeadlock.StuckForever` | pkg/utils/sync.go:25-32 | a group of requests that wait for bolts of each other waits in every later state of the run |
| `AccessCycle.CycleDeadlocks` | pkg/service/controller.go:59-77 | for every cycle of clones, down to a volume cloned from its own snapshot, a reachable state has all of them deadlocked |
| `AccessDriver.Driver.Decide` | pkg/service/volumes.go:137-386 | the next operation of any request, decided by looking into the caches, at the objects they refer to, and at the volume object a snapshot refers to, is the one of the transition system |
| `AccessDriver.Driver.Execute` | pkg/service/volumes.go:597-640 | performing an operation on the objects and caches in memory changes what they stand for as in the transition system: no other object changes, references stay in place, objects are only added |
| `AccessDriver.Driver.Go` | pkg/service/volumes.go:124-386 | one step of any request on the objects and caches in memory is the step of the transition system |
| `AccessDriver.Driver.Serve` | pkg/service/volumes.go:124-386 | whatever schedule of requests and answers the driver serves, it stays in reachable states, so every result about reachable states holds of it |
| `AccessDriver.Driver.OneOwnerPerObject` | pkg/service/volumes.go:34-44 | two requests that own the bolt of one and the same volume object in memory are one and the same, through one slot |
| `Bolts.ExclusionExactly` | pkg/utils/sync.go:25-42 | whatever calls are made, right or wrong, at most one thread is ever inside if and only if all contexts are non-nil and distinct |
| `Bolts.NilBreaksExclusion` | pkg/utils/sync.go:27-30 | after Lock(nil) any other thread can lock the bolt too |
| `Bolts.SharedContextBreaksExclusion` | pkg/utils/sync.go:36-40 | with a shared context one thread can unlock and take another's bolt |
| `Bolts.NoLostWakeUp` | pkg/utils/sync.go:27-40 | a free bolt with sleepers always has a signalled thread on its way, although Unlock signals only one and newcomers may overtake it |
| `Bolts.PanicExactly` | pkg/utils/sync.go:36-38 | Unlock panics if and only if its caller is not inside |
| `Bolts.RefinesAtomicLock` | pkg/utils/sync.go:25-42 | every step of the wait loop is an atomic acquire of an ownerless bolt, an atomic release, or nothing |
| `Bolts.Bolt.Lock` | pkg/utils/sync.go:25-32 | one pass of the wait loop takes the bolt or sleeps |
| `Bolts.Bolt.Unlock` | pkg/utils/sync.go:34-42 | the owner check, the release and the signal of one sleeper |
| `Tokens.SingleFlight` | pkg/zfssarest/zfssa_rest.go:197-220 | at most one thread is creating a session, and the token is in the creating state while it does |
| `Tokens.WaitersHaveACreator` | pkg/zfssarest/zfssa_rest.go:217-220 | no thread waits unless another one is creating a session |
| `Tokens.OnlyCreatorTouchesSession` | pkg/zfssarest/zfssa_rest.go:204-205 | while a session is created no other thread changes the session fields, which are accessed outside the mutex |
| `Tokens.CreatorReturnsItsSession` | pkg/zfssarest/zfssa_rest.go:204-215 | the session read back after the creation is the one created, and still good |
| `Tokens.CreationsAreBounded` | pkg/zfssarest/zfssa_rest.go:192-237 | over any run the sessions created number at most one more than the distinct sessions reported as expired |
| `Tokens.NeverReturnsPrevious` | pkg/zfssarest/zfssa_rest.go:222-231 | getToken given a previous session never successfully returns it: what it returns was issued, was never dropped and is the current session |
| `Tokens.RetryMakesProgress` | pkg/zfssarest/zfssa_rest.go:277-297 | MakeRequest sends at most two requests, and the second never carries the session the first was refused with |
| `Tokens.RefusedRequestIsRepeated` | pkg/zfssarest/zfssa_rest.go:277-285 | when getToken successfully returns, a request that was refused once is made again, a request not yet sent is sent with the session returned, and a request refused twice is given up |
| `Tokens.FinishedExactly` | pkg/zfssarest/zfssa_rest.go:277-285 | a request is finished if and only if it is outside getToken and its last send was answered, or two were refused, or a session was asked for in vain |
| `Tokens.GetTokenStep` | pkg/zfssarest/zfssa_rest.go:192-237 | getToken waits if and only if a session is being created, and asks for one if and only if there is none or the caller reported the one there is, which it drops |
| `Tokens.NoSessionOnFailure` | pkg/zfssarest/zfssa_rest.go:204-215 | a creation that fails leaves no session behind and returns none |
| `Tokens.SendingIsRecorded` | pkg/zfssarest/zfssa_rest.go:313-366 | a request is sent with the session getToken returned, and its refusal is reported before anything else is done |
| `Tokens.ServedAtOnce` | pkg/zfssarest/zfssa_rest.go:222-228 | with a valid token a request is sent once, with its session |
| `Tokens.RenewedAndServed` | pkg/zfssarest/zfssa_rest.go:192-285 | a refused request that is alone renews the session and is sent again with the new one |
| `Tokens.ResetBreaksExactly` | pkg/zfssarest/zfssa_rest.go:321-327 | after a reset outside the mutex two threads can come to create sessions at once if and only if one was being created at that moment |
| `Tokens.Token.GetToken` | pkg/zfssarest/zfssa_rest.go:192-237 | the loop over the token's state under the mutex, until it waits, dials or returns |
| `Tokens.Token.CreateSession` | pkg/zfssarest/zfssa_rest.go:203-205 | the answer is written to the session fields outside the mutex |
| `Tokens.Token.ReadSession` | pkg/zfssarest/zfssa_rest.go:205-205 | and read back outside the mutex |
| `Tokens.Token.FinishCreation` | pkg/zfssarest/zfssa_rest.go:207-215 | the state is set and every waiter woken |
| `Tokens.Token.SendRequest` | pkg/zfssarest/zfssa_rest.go:313-366 | a request is sent with the session; a refusal is reported to getToken |
| `Tokens.TokenList.LookUpToken` | pkg/zfssarest/zfssa_rest.go:151-174 | one token per user: a known user gets the same token, whose password follows the last non-empty one |
| `Identifiers.VolumeRoundTrip` | pkg/utils/volume_id.go:84-136 | parsing a printed volume ID returns it if and only if its type and appliance are slash-free, its type is not a legacy one and its three names are valid |
| `Identifiers.LegacyHandleIsOneWay` | pkg/utils/volume_id.go:95-102 | what a legacy handle parses to is rejected when printed and parsed again |
| `Identifiers.LegacyHandle` | pkg/utils/volume_id.go:95-126 | a legacy handle is parsed by its components 1, 2, 4, 6 and 7, and rejected if and only if one of its names is invalid |
| `Identifiers.ShortHandle` | pkg/utils/volume_id.go:86-109 | an ID is not found if and only if it has fewer than 6 components, or 8 for a legacy kind, and at least 2 |
| `Identifiers.VolumeFormat` | pkg/utils/volume_id.go:134-136 | a volume ID is printed as /type/appliance/pool/project/name |
| `Identifiers.VolumeStringInjective` | pkg/utils/volume_id.go:134-136 | printing is injective on slash-free components |
| `Identifiers.SnapshotRoundTrip` | pkg/utils/volume_id.go:163-179 | parsing a printed snapshot ID returns it if and only if no component contains a slash |
| `Identifiers.SnapshotParsed` | pkg/utils/volume_id.go:163-179 | a string is parsed as a snapshot ID if and only if it has at least seven components, and is not found otherwise |
| `Identifiers.SnapshotStringNamesSource` | pkg/utils/volume_id.go:242-250 | read as a volume ID, a printed snapshot ID denotes its source volume |
| `Identifiers.HrefConvertersAgree` | pkg/utils/volume_id.go:59-82 | for every href the snapshot string converter succeeds exactly when the structured one does and prints its result, and the volume converter prints its source volume |
| `Identifiers.ApplianceHrefs` | pkg/utils/volume_id.go:59-240 | the appliance's href of a filesystem, a LUN or a snapshot of one, printed from its parts, converts to the ID with type mnt or lun and those parts |
| `Identifiers.SnapshotHrefConverts` | pkg/utils/volume_id.go:181-210 | an href with the pool, project, collection, share and snapshot as components 5, 7, 8, 9 and 11 converts to their snapshot ID |
| `Identifiers.HrefsExactly` | pkg/utils/volume_id.go:59-240 | an href converts if and only if it is of that form |
| `Identifiers.HrefRoundTrip` | pkg/utils/volume_id.go:181-240 | what an href converts to survives printing and parsing if and only if the appliance's name is slash-free |
| `Identifiers.SplitJoin` | pkg/utils/volume_id.go:85-85 | splitting undoes joining for slash-free components |
| `Identifiers.ValidNamesExactly` | pkg/utils/volume_id.go:281-288 | a resource name is made of 1 to 64 letters, digits, dots, dashes, colons and underscores |
| `Identifiers.ValidIsSlashFree` | pkg/utils/volume_id.go:281-288 | valid resource names contain no slash |
| `Paging.AtoiItoa` | pkg/service/controller.go:350-350 | a printed number parses back if and only if it fits into 64 bits |
| `Paging.AtoiExactly` | pkg/service/controller.go:350-350 | a starting token is a number if and only if it is made of digits, after at most one sign, and the number fits into 64 bits |
| `Paging.List` | pkg/service/controller.go:347-388 | the computation of one page, with its error cases, wrap-around and slice bounds |
| `Paging.ErrorsExactly` | pkg/service/controller.go:347-369 | a request is answered Aborted if and only if its token is not a number, and InvalidArgument if and only if max_entries is negative and the token is in order |
| `Paging.CrashesExactly` | pkg/service/controller.go:554-573 | for a list of any length a request crashes if and only if its token is a number below the length of the list that is negative, or above 2^31 - 1 without max_entries, or wraps around when max_entries is added |
| `Paging.ZeroMeansAll` | pkg/service/controller.go:571-573 | without max_entries the whole list comes in one page if and only if it has fewer than 2^31 entries |
| `Paging.PageAt` | pkg/service/controller.go:620-633 | the i-th page reached by following next tokens holds the i-th stretch of entries, and is marked as the last exactly at the end of the list |
| `Paging.PagesPartition` | pkg/service/controller.go:620-633 | the pages read so far concatenate to a beginning of the list, and to all of it if and only if the last one read has token "0" |
| `Paging.PagesEnd` | pkg/service/controller.go:620-633 | following the tokens ends after the full pages and at most one more; and, unless the length of the list and max_entries exceed 64 bits together, a page has a successor if and only if its token is not "0" |
| `Paging.LastTokenStartsOver` | pkg/service/controller.go:377-384 | the token "0" of the last page is itself accepted and lists the first page again |
| `Capacity.GetVolumeSize` | pkg/service/controller.go:93-103 | the least allowed size if the range asks for a minimum, and otherwise the allowed size nearest to 50 GiB; for a range that allows none, the minimum asked for or 50 GiB |
| `Capacity.ChosenSizeIsUnique` | pkg/service/controller.go:93-103 | that description fits one size only |
| `Capacity.ChosenSizeAllowed` | pkg/service/volumes.go:558-568 | the size chosen for a range lies in the range if and only if the range is well-formed |
| `Capacity.WellFormedMeansSatisfiable` | pkg/service/volumes.go:558-568 | some positive capacity lies in a range if and only if the range is well-formed |
| `Capacity.HasSupport` | pkg/service/volumes.go:572-580 | a capability is supported if and only if its kind is the volume's and its mode is listed |
| `Capacity.CompareCapabilities` | pkg/service/volumes.go:582-589 | all capabilities are supported |
| `Capacity.IsBlock` | pkg/service/controller.go:109-116 | a volume is a block volume if and only if every capability is one |
| `Capacity.SupportedMeansOneKind` | pkg/service/volumes.go:570-590 | a request that mixes block and mount capabilities is supported by no volume |
| `Filesystems.Filesystem.Create` | pkg/service/controller_fs.go:54-122 | creation with its conflict path, as a function of the old state and the appliance's answers |
| `Filesystems.Filesystem.Expand` | pkg/service/controller_fs.go:221-247 | expansion, likewise |
| `Filesystems.Filesystem.SetInfo` | pkg/service/controller_fs.go:300-316 | capacity, mount point and access modes follow the appliance; the state becomes stateCreated |
| `Filesystems.ModesExactly` | pkg/service/controller_fs.go:307-311 | a read-only filesystem supports the two reading modes, any other one the two writing modes besides |
| `Filesystems.CreationOutcome` | pkg/service/controller_fs.go:72-83 | a creation that meets no filesystem of its name succeeds if and only if its answer arrives; the filesystem is then there, writable, with the size that is chosen for the range, and the object knows it |
| `Filesystems.ConflictOutcome` | pkg/service/controller_fs.go:84-122 | a creation that meets a known filesystem changes nothing on the appliance, and succeeds if and only if call and enquiry are answered and the filesystem fits the request |
| `Filesystems.ExpansionOutcome` | pkg/service/controller_fs.go:221-247 | an expansion makes no call if the known capacity suffices, sets the quota otherwise unless the call fails, and succeeds if and only if it is answered |
| `Filesystems.CreateIsIdempotent` | pkg/service/controller_fs.go:54-122 | repeating a request that created a filesystem gives the same response if and only if its range is well-formed and its capabilities are supported; another range succeeds exactly when it contains the capacity |
| `Filesystems.PlaceholderConflict` | pkg/service/controller_fs.go:95-110 | a conflict on a placeholder is turned down for every request with a capability |
| `Filesystems.LostCreationBlocksRetries` | pkg/service/controller_fs.go:74-78 | when the answer to a creation is lost no retry succeeds, on the same object or on a new placeholder |
| `Filesystems.ExpandThenCreate` | pkg/service/controller_fs.go:226-246 | a successful expansion reports the larger of the capacity the driver knows and the one asked for; a later creation request gets the same response if and only if its range and capabilities fit and, if no call was made, the driver's capacity is that of the appliance |
| `Filesystems.LowersExactly` | pkg/service/controller_fs.go:226-241 | an operation takes quota away from a filesystem if and only if it is an expansion that takes effect, to a capacity above the one the driver knows and below the one the filesystem has |
| `Filesystems.ExpansionCanLower` | pkg/service/controller_fs.go:226-241 | it happens: 10, then 100 with the answer lost, then 50 |
| `Filesystems.QuotaNeverShrinks` | pkg/service/controller_fs.go:54-247 | over any sequence of creations and expansions without a lost expansion, no operation takes quota away |
| `Filesystems.CapacityNeverShrinks` | pkg/service/controller_fs.go:54-247 | over any sequence of creations and expansions with any failures, successful responses carry one ID and non-decreasing capacities |
| `Filesystems.CreationsAgree` | pkg/service/controller_fs.go:54-122 | over any sequence of creation requests for one name all successful responses are equal |
| `Blocks.Lun.Publish` | pkg/service/controller_block.go:166-207 | the two calls of a publish with their error cases |
| `Blocks.Lun.Unpublish` | pkg/service/controller_block.go:209-228 | masking, where a missing LUN counts as success |
| `Blocks.Lun.Create` | pkg/service/controller_block.go:53-111 | creation with its conflict path, and the crash of logging an answer that is not there, as a function of the old state and the appliance's answers |
| `Blocks.Lun.Delete` | pkg/service/controller_block.go:139-152 | deletion of a LUN known to exist, where a missing LUN counts as success |
| `Blocks.Lun.SetInfo` | pkg/service/controller_block.go:310-321 | capacity, href and groups follow the appliance; the access modes are left as they are |
| `Blocks.CreationOutcome` | pkg/service/controller_block.go:60-111 | a creation that meets no LUN of its name succeeds if and only if its answer arrives with an assigned number; the LUN is then there, masked, with the size that is chosen for the range, and the object knows it |
| `Blocks.DeletionOutcome` | pkg/service/controller_block.go:139-152 | a deletion succeeds if and only if its call is answered, or the LUN is not known to exist and no call is made; a call that does not fail removes the LUN and nothing else |
| `Blocks.DetailsOutcome` | pkg/service/controller_block.go:279-286 | an enquiry succeeds if and only if the LUN is there and the call does, and the object then knows the LUN |
| `Blocks.ConflictExactly` | pkg/service/controller_block.go:60-104 | over any sequence of operations on a LUN object, a creation request that meets an existing LUN never succeeds: it crashes if and only if it asks for no capability, its range contains the capacity and no enquiry fails, and is turned down otherwise |
| `Blocks.CreationIsNotIdempotent` | pkg/service/controller_block.go:53-111 | over any sequence of operations, two creation requests that succeed have a deletion of the LUN between them |
| `Blocks.GroupIsMaskOrLastNode` | pkg/service/controller_block.go:166-228 | over any sequence of operations with any failures and lost answers, starting without the LUN or with a masked one, its group is the node of the last publish that took effect if nothing bore on the group since, and the mask otherwise |
| `Blocks.PublishNeverCrashes` | pkg/service/controller_block.go:187-196 | in such a sequence logging the head of the list of groups before checking its length never crashes a publish |
| `Blocks.PublishOutcome` | pkg/service/controller_block.go:175-206 | a publish succeeds if and only if the LUN is there and masked and no call fails, and the group then is the node; it is turned down if and only if the group is another one, and crashes if and only if there is none |
| `Blocks.UnpublishOutcome` | pkg/service/controller_block.go:209-228 | an unpublish succeeds if and only if its call is answered, and the LUN is then masked if it is there |
| `Blocks.PublishesAlternate` | pkg/service/controller_block.go:188-204 | between two publishes that are answered with success the LUN is unpublished or removed |
| `Blocks.PublishAfterUnpublish` | pkg/service/controller_block.go:188-228 | after a successful unpublish the next publish of the LUN succeeds, if its calls do |

## Left out

- The order of assignments inside one step: in `access_driver.dfy` a step is atomic, as it is under the
  mutex or the bolt in the code; where a request stands is kept in the driver, with object numbers standing
  for the references it holds.
- AccessPanics.LostDeletionPanicsExactly, AccessPanics.LateRefreshPanicsExactly: when another snapshot of the
  volume has a clone, the lemmas leave open whether a panic can follow, though not that it needs all other
  snapshots of the volume to be named (`AccessPanics.DriftPanicsExactly`); the clones, and their snapshots and
  clones, would have to be deleted first.
- AccessTheorems.PanicExactly: source volumes are compared by object, as lookupSnapshot does. The comparison of ID strings in newSnapshot is modelled as one of volume names.
- Source IDs in a form other than the printed one: newSnapshot compares ID strings, and a legacy handle or an ID with extra components would be taken for another source.
- The second check for snapshots inside the deletion of a filesystem: it is folded into the first one.
- Publishing a filesystem: it always succeeds without a call, and the initiator group is modelled for every volume.
- A volume whose deletion takes effect while the answer is lost stays cached in stateCreated. A retried
  DeleteVolume first lists its snapshots and returns that call's error (pkg/service/controller.go:216-219),
  so that, if the appliance answers 404 there, no retry ever marks the volume as deleted. The model does the
  same, and `AccessBeliefs.PhantomsExactly` says what puts such an entry right.
- The 32-bit width of reference counts, which would overflow only with 2^31 requests on one object.
- Fairness: a waiting thread is never forgotten, but newcomers may overtake it for ever, in the code as in the model.
- resetHttpTlsClient's replacement of the token list, which makes the next lookup of a user create a second token.
- HTTP, TLS, JSON and the thin REST wrappers: the appliance is an abstract state with nondeterministic answers.
- Node service, mounting, iSCSI, Kubernetes lookups, gRPC server, configuration, credentials and logging.
- DateToUnix: it rests on the local time zone; its failure is an answer that is not understood.
- The content of ListVolumes: its entries start with one nil per cached snapshot and follow map order. Paging is proved over a given list.
- Success of DeleteSnapshot as evidence of deletion: any lookup error is reported as success.
- Validation of requests before a volume is acquired, other than the demand for at least one capability.
- Creation parameters such as restrictChown and the volume context of responses.
- The log line after the creation of a LUN within the transition system; `Blocks.Lun.Create` has it.
- Unimplemented methods, capability listing, sums in GetCapacity, and the Helm charts.
