# A verified model of nhctl's stateful core

nhctl puts Kubernetes workloads into development mode. Most of it talks to a cluster; inside it are
small state machines, text codecs, caches and object rewriters that have to be right. This project
models them in Dafny and proves what they promise. The cluster, the key-value store and the sudo
daemon are abstract state. Whether a request to the cluster succeeds is a parameter of the operation
that sends it; commands to the sudo daemon and accesses to the key-value store are taken to be
delivered, and the daemon's own refusals are modelled.

| module | what it models |
|---|---|
| `DevMeta` | the dev-mode table of an application, its deep copy, and the event diff of two tables |
| `SecretWatcher` | watchers that store tables and push diffs into one shared FIFO queue, as a state machine whose pushes and pops interleave |
| `DevMode` | starting, completing and ending dev mode; replace and duplicate slots |
| `Lifecycle` | installing, uninstalling and the ten-second back-off |
| `VpnControl` | informer callbacks, the closure queue and the sudo daemon's single connection |
| `ReverseInfo` | merging a snapshot into the live picture of reversed resources |
| `VpnText` | the config-map text of both lists, through the JSON string of the merge patch |
| `PackKey`, `DevDir` | the key codec, the directory index, its inverse map, default packs and cache |
| `PodSpec` | building the development pod, through a pointer into the container slice |
| `Rollback` | the recorded definition, dev start and dev end |
| `Upgrade` | reconciling two manifests |
| `OwnerLookup` | application lookup through owner references, filters, sorting |
| `AppCache` | the cache of application names by namespace and resource |
| `GoStrings`, `Common` | `strings.Index`, `Split`, `Join` and their laws; options and map lookups |

Code that updates state is a class or a method with loops, tied by its `ensures` to a specification
function or relation; the theorems are about whole runs of those specifications. A Go map visited by
`range` is visited in an arbitrary order, chosen with `:|`.

Where a promise turns out false of the code, the code is modelled as it is. A lemma shows a failing
input, and another says exactly when the promise holds:

- Workloads of a custom type that is configured without a pod-template path can be started but not ended:
  the template's annotations then are the workload's own and the patch overwrites the record
  (`CustomTypeCannotEnd`, `EndRestoresExactly`). If the apply fails after the delete, workload and record
  are lost (`EndOutcomes`).
- A watcher discarded because a later secret could not be decoded has already told its listeners what its
  successor tells them again (`DiscardedWatcherTellsTwice`, `StoryLegalExactly`).
- Handlers of one resource name share cache entries, so a deletion seen by a handler of one namespace
  empties the cached applications of another (`DeletionEmptiesOtherNamespace`, `AlwaysExactExactly`,
  `DeleteNeedsScope`); after a throttled refresh a deletion leaves an inhabited namespace out even for a
  lone handler (`ThrottledNamespaceIsMissed`, `DeleteIsExactExactly`).
- Manifest upgrade recognises a resource by kind, version and name. One that moves to another namespace
  stays behind (`MovedResourceStays`); one whose API version changes is deleted and created anew
  (`ChangedVersionIsRecreated`, `DeletesWhatItAppliesExactly`); of two versions the one known before wins
  (`OldVersionWins`); `UpgradeExactly` says when the result is the expected one.
- An object that only its owners place in an application is listed under it but not found by name
  (`OwnedIsNotFoundByName`, `ByNameAgreesExactly`).
- Updates of the shared text by two machines at once can lose an edit (`SecondStoreUndoesFirst`,
  `NothingLostExactly`).
- A persistent directory whose path is only a textual prefix of the work dir takes the work dir's
  volume away (`PrefixIsNotParent`), and a mount of the container in between hides a persistent directory
  that does contain it (`OwnMountHidesParent`); `WorkDirSharedExactly` says when both containers see the
  same.
- A second container of the same name is overwritten by the dev container if the dev container gets
  another name (`NamesakeIsOverwritten`, `OnlyDevContainerChanges`); Kubernetes refuses two containers of one
  name in its own workloads, so this can meet custom types only.
- The cached directory lookup misses packs known by a legacy key only (`LegacyOnlyIsMissed`,
  `CacheAgreesExactly`).
- Associating a pack without the default flag can replace the directory's default
  (`MovedPackTakesDefault`, `DefaultStaysExactly`).
- Associating a directory without a readable kubeconfig only forgets the old association
  (`Store.Associate`); the prefix loop never reaches keys with a container
  (`UncontainedCovers`).
- A config map deleted and created anew while its disconnect is queued strands a VPN connection, which
  then no request can move (`RecreatedMapStrandsConnection`, `StuckNeverConverges`), and a restarted
  controller does not release what the daemon holds (`RestartKeepsOldConnection`); `ConvergesExactly` and
  `AskedIsReachedExactly` say when the daemon converges.
- Dev starts are accepted on an uninstalled application (`StartsWhileUninstalled`, `NoStatusExactly`).
- A machine with an empty resource set does not survive the text form (`EmptySetIsLost`,
  `ReverseRoundTrip`); parsing and editing never produce one.
- Duplicate-mode slots of two developers can coincide when identifiers lack their leading letter
  (`UnprefixedIdentifiersCollide`, `DuplicateCollisions`), and a workload named like a slot can be blocked
  across modes (`NamedLikeSlotIsBlocked`, `SlotsCoincideExactly`, `ReplaceIsolationExactly`).
- A workload named like a starting mark is confused with one (`SuffixedNameIsBoth`, `BothExactly`);
  Kubernetes does not allow such names.

## Model

| member | source | states |
|---|---|---|
| DevMeta.Copy | internal/nhctl/appmeta/application_dev_meta.go:36-46 | The copy has the same contents in fresh inner maps, none shared between types. |
| DevMeta.Events | internal/nhctl/appmeta/application_dev_meta.go:48-117 | For every workload the result holds exactly the events its change is worth: END of the old holder, then STA of the new one, nothing if unchanged. No inner map of the caller is modified. |
| DevMeta.FirstPass | internal/nhctl/appmeta/application_dev_meta.go:66-104 | After the pass over the old table every workload that had a holder is settled and gone from the working copy; all others are untouched. |
| DevMeta.EventsOfType | internal/nhctl/appmeta/application_dev_meta.go:67-103 | The inner loop settles every name of one type and touches no other inner map. |
| DevMeta.RemainingStarts | internal/nhctl/appmeta/application_dev_meta.go:106-114 | What is left in the working copy are exactly the starts still missing from the exact diff. |
| DevMeta.CompareAt | internal/nhctl/appmeta/application_dev_meta.go:69-102 | The events the body emits for one name are what the change of that workload is worth, and nothing for any other workload. |
| DevMeta.DiffReplays | internal/nhctl/appmeta/application_dev_meta.go:48-117 | Any exact diff, replayed on the old table, gives the new one; empty inner maps do not matter. |
| DevMeta.DiffMinimal | internal/nhctl/appmeta/application_dev_meta.go:48-117 | No log that is legal for every workload and leads from the old to the new table is shorter. |
| DevMeta.DiffLegal | internal/nhctl/appmeta/application_dev_meta.go:48-117 | The diff starts only what nobody holds and ends only what its holder holds. |
| DevMeta.LegalReplay | internal/nhctl/appmeta/application_dev_meta.go:48-117 | A log that is legal workload by workload replays to the table it ends with. |
| SecretWatcher.EveryRunReplays | internal/nhctl/appmeta_manager/application_secret_watcher.go:64-122 | In every run of any number of watchers, some discarded and replaced, popped then queued is the pushed sequence, and whenever a watcher's lock is free the events it pushed itself for an application, replayed from nothing, give the table it stores. |
| SecretWatcher.StoryLegalExactly | internal/nhctl/appmeta_manager/application_secret_boss.go:176-183 | In every run, all that was said about an application of a namespace and kubeconfig, by the present watcher and those before it, is legal for every workload and ends with the stored table iff every discarded watcher held nothing of it when it was discarded. |
| SecretWatcher.WholeLogReplays | internal/nhctl/appmeta_manager/application_secret_boss.go:176-183 | In that case the whole log, replayed from nothing, gives the stored table. |
| SecretWatcher.DiscardedWatcherTellsTwice | internal/nhctl/appmeta_manager/application_secret_watcher.go:191-197 | Counterexample: two requests, between which a secret that cannot be decoded makes the first watcher go; listeners are told the same start twice. |
| SecretWatcher.ListenersSeeLegalStories | internal/nhctl/appmeta_manager/application_secret_event.go:71-90 | At every moment of every run what listeners popped about a workload is a legal story (no start of a held workload, no end by anyone but the holder), as long as no watcher was discarded while the workload was held. |
| SecretWatcher.RunInv | internal/nhctl/appmeta_manager/application_secret_watcher.go:64-122 | The invariant (history of the queue, legal story of every workload up to the stored table) holds in every state of every run. |
| SecretWatcher.NextInv | internal/nhctl/appmeta_manager/application_secret_watcher.go:64-122 | Every kind of step (join, left, query, one push, one pop, discard) keeps the invariant. |
| SecretWatcher.DiscardInv | internal/nhctl/appmeta_manager/application_secret_boss.go:176-183 | Replacing a watcher by an empty one keeps the invariant: the story so far is closed exactly when the discarded one held nothing. |
| SecretWatcher.ReplaceInv | internal/nhctl/appmeta_manager/application_secret_watcher.go:64-122 | Replacing or dropping one stored table and taking its diff as pending keeps the invariant. |
| SecretWatcher.PushInv | internal/nhctl/appmeta_manager/application_secret_event.go:71-78 | Pushing one pending event, while others push and pop, keeps the invariant. |
| SecretWatcher.QueryInv | internal/nhctl/appmeta/application_meta.go:710-732 | A status query on a stored meta, which adds an empty inner map, keeps the invariant. |
| SecretWatcher.EventQueue.EventPush | internal/nhctl/appmeta_manager/application_secret_event.go:71-78 | The event goes to the end of the queue and of the pushed history. |
| SecretWatcher.EventQueue.EventPop | internal/nhctl/appmeta_manager/application_secret_event.go:80-90 | On an empty queue the call waits and changes nothing; otherwise the oldest event comes out, and popped then queued stays the pushed history. |
| SecretWatcher.ApplicationSecretWatcher.JoinSecret | internal/nhctl/appmeta_manager/application_secret_watcher.go:64-96 | An undecodable secret changes nothing; otherwise the table is stored and exactly the diff of old and new is pushed in order. |
| SecretWatcher.ApplicationSecretWatcher.Prepare | internal/nhctl/appmeta_manager/application_secret_watcher.go:191-199 | The first listing joins the secrets up to the first that cannot be decoded, and fails iff there is one. Either way only this watcher pushed, and for every application what it pushed is legal and, replayed on the table stored before, gives the table stored now. |
| SecretWatcher.ApplicationSecretWatcher.LeftApp | internal/nhctl/appmeta_manager/application_secret_watcher.go:98-122 | The table is forgotten and exactly the ends of what it held are pushed. |
| DevMode.ApplicationMeta.SvcDevStarting | internal/nhctl/appmeta/application_meta.go:626-650 | Refused iff the slot is started or starting; otherwise the slot is marked, also if the secret cannot be written. |
| DevMode.ApplicationMeta.SvcDevStartComplete | internal/nhctl/appmeta/application_meta.go:667-688 | Refused iff the slot is started; otherwise the mark is replaced by the entry of the identifier. |
| DevMode.ApplicationMeta.SvcDevEnd | internal/nhctl/appmeta/application_meta.go:690-708 | Entry and mark of the slot are gone, nothing else changes. |
| DevMode.ApplicationMeta.CheckIfSvcDeveloping | internal/nhctl/appmeta/application_meta.go:710-732 | The status of the slot; the table gains at most an empty inner map. |
| DevMode.ApplicationMeta.SvcDevModePossessor | internal/nhctl/appmeta/application_meta.go:609-622 | Whether the identifier, not empty, holds the started slot. |
| DevMode.RunNeverBoth | internal/nhctl/appmeta/application_meta.go:626-708 | In every run from an empty table no workload is both starting and started. |
| DevMode.BothExactly | internal/nhctl/appmeta/application_meta.go:626-708 | An operation makes a workload both iff it is an accepted completion of a workload named like the first one's starting mark while that one is started. |
| DevMode.SuffixedNameIsBoth | internal/nhctl/appmeta/application_meta.go:626-708 | Counterexample for a workload named like a starting mark. |
| DevMode.StartExcludesStarts | internal/nhctl/appmeta/application_meta.go:626-708 | Once a start is accepted every start of that slot is refused until the slot is ended, whatever happens in between. |
| DevMode.ReplaceSlotsAreWorkloads | internal/nhctl/appmeta/application_meta.go:660-665 | In replace mode slots coincide iff name and type do, where only "deployment" and "D" are two names of one type; so the exclusion holds between developers. |
| DevMode.SlotsAreNamed | internal/nhctl/appmeta/application_meta.go:656-665 | How slots and starting marks are named in each mode. |
| DevMode.StepMeans | internal/nhctl/appmeta/application_meta.go:626-732 | What each operation answers in terms of the slot's status and the write, and the status and the identifier it leaves in the slot. |
| DevMode.RefusedChangesNothing | internal/nhctl/appmeta/application_meta.go:626-688 | A refused operation changes nobody's entry. |
| DevMode.CompleterPossesses | internal/nhctl/appmeta/application_meta.go:609-708 | In either mode: after an accepted completion the slot is started, and the completing identifier, and no other, possesses it until it is ended. |
| DevMode.EndReleases | internal/nhctl/appmeta/application_meta.go:690-708 | After an end the slot is free, nobody possesses it, and a start of it is accepted. |
| DevMode.DuplicateCollisions | internal/nhctl/appmeta/application_meta.go:660-665 | For all names and identifiers, two duplicate-mode slots coincide iff workload and identifier do or the infix can be read in two ways: overlapping itself, or inside the identifier. |
| DevMode.DuplicateInjective | internal/nhctl/profile/profile_v2.go:178-191 | With generated identifiers duplicate-mode slots are injective for all workload names. |
| DevMode.SlotsCoincideExactly | internal/nhctl/appmeta/application_meta.go:660-665 | For generated identifiers and all names: slots coincide iff the names do (replace mode), name and identifier do (duplicate mode), or the replace-mode workload is named like the other's slot. |
| DevMode.NamedLikeSlotIsBlocked | internal/nhctl/appmeta/application_meta.go:626-665 | Counterexample across modes: a duplicate-mode start blocks another developer's replace-mode start of a workload named like the slot. |
| DevMode.UnprefixedIdentifiersCollide | internal/nhctl/profile/profile_v2.go:178-191 | Counterexample for identifiers without the leading letter. |
| DevMode.OtherSlotsRun | internal/nhctl/appmeta/application_meta.go:609-732 | No run of operations on other slots changes a slot's status or possession. |
| DevMode.DuplicateIsolation | internal/nhctl/appmeta/application_meta.go:609-732 | No run of one developer's duplicate-mode operations on any workloads changes another developer's duplicate-mode view of any workload. |
| DevMode.ReplaceIsolationExactly | internal/nhctl/appmeta/application_meta.go:609-732 | No run of one developer's duplicate-mode operations changes a workload's replace-mode status, from any table, iff the workload is not named like a slot of that developer. |
| DevMode.ReplaceDoesNotExcludeDuplicate | internal/nhctl/appmeta/application_meta.go:626-665 | No run of replace-mode operations changes whether a duplicate-mode start is accepted, unless one is on a workload named like the slot. |
| Lifecycle.ApplicationMeta.Delete | internal/nhctl/appmeta/application_meta.go:944-960 | Uninstalled, empty dev table and back-off of ten seconds, in memory and, if the write succeeds, in the secret. |
| Lifecycle.ApplicationMeta.Initial | internal/nhctl/appmeta/application_meta.go:471-589 | The two initialisations: fresh secret, protected secret, forced, and every failing request, with the state each leaves. |
| Lifecycle.ApplicationMeta.Update | internal/nhctl/appmeta/application_meta.go:735-767 | All fields go into the stored secret, or nothing if it is missing or the write fails. |
| Lifecycle.ApplicationMeta.ReAssignmentBySecret | internal/nhctl/appmeta/application_meta.go:243-336 | State, back-off and dev table are read back; what the secret lacks keeps its old value. |
| Lifecycle.UninstalledStaysGone | internal/nhctl/appmeta/application_meta.go:503-589 | In every history with a monotone clock, after a successful delete at t and before t+10s, whatever deletes, dev operations and unforced initialisations happen, no initialisation succeeds and meta and secret stay uninstalled. |
| Lifecycle.InitAfterDelete | internal/nhctl/appmeta/application_meta.go:471-589 | An initialisation right after a delete succeeds iff its requests succeed and it is forced or ten seconds are over. |
| Lifecycle.InitExactly | internal/nhctl/appmeta/application_meta.go:471-589 | Any initialisation, first installations included: when it succeeds, and the state, back-off and dev table it leaves in the secret; a failing one leaves the secret alone. |
| Lifecycle.StatusFollows | internal/nhctl/appmeta/application_meta.go:609-732 | In every such history, also with failing requests, each slot is starting or started in memory and in the secret exactly as tracked from the starts, completions, ends, deletes, successful writes and re-reads since. |
| Lifecycle.NoStatusExactly | internal/nhctl/appmeta/application_meta.go:609-732 | When no write fails, a slot's status is none iff no start or completion of it came after the last delete and its last end. |
| Lifecycle.StartsWhileUninstalled | internal/nhctl/appmeta/application_meta.go:626-650 | Counterexample: right after a delete a dev start is accepted and the workload is starting while the application is uninstalled. |
| Lifecycle.GoneStep | internal/nhctl/appmeta/application_meta.go:503-589 | Every operation but a forced initialisation keeps the application uninstalled, and initialisations fail. |
| VpnControl.VpnController.OnAdd | internal/nhctl/daemon_handler/vpnconfigmapwatcher.go:247-275 | The handler learns its uid; if this machine is listed the connection is wanted and a closure with the previous wish is queued. |
| VpnControl.VpnController.OnUpdate | internal/nhctl/daemon_handler/vpnconfigmapwatcher.go:277-315 | Wanted when listed; dropped when just unlisted and it is the wanted connection; otherwise unchanged. |
| VpnControl.VpnController.OnDelete | internal/nhctl/daemon_handler/vpnconfigmapwatcher.go:318-332 | Dropped iff it was listed and is the wanted connection. |
| VpnControl.VpnController.NotifySudoDaemonToConnect | internal/nhctl/daemon_handler/vpnconfigmapwatcher.go:384-416 | The daemon ends where the command sequence for its current state leads: keep, connect, or disconnect first. |
| VpnControl.VpnController.NotifySudoDaemonToDisConnect | internal/nhctl/daemon_handler/vpnconfigmapwatcher.go:419-443 | Disconnects only a connection with the given uid. |
| VpnControl.VpnController.SendConnect | internal/nhctl/daemon_handler/sudovpnhandler.go:52-112 | A connect leaves an open connection alone. |
| VpnControl.VpnController.SendDisConnect | internal/nhctl/daemon_handler/sudovpnhandler.go:113-132 | A disconnect succeeds iff nothing is connected or the uid at the place is the connected one. |
| VpnControl.VpnController.RunNext | internal/nhctl/daemon_handler/vpnconfigmapwatcher.go:550-556 | The oldest closure runs, with its handler's uid as it is now. |
| VpnControl.ConvergesExactly | internal/nhctl/daemon_handler/vpnconfigmapwatcher.go:247-332 | For every run of events from any daemon state, once handlers know the current uids: draining the queue leaves the daemon at the wanted uid iff both agreed at the start, or a connection was asked for, or nothing was connected and the wanted connection was dropped; from a stuck connection iff it was wanted and nothing was asked for. |
| VpnControl.ConnectExactly | internal/nhctl/daemon_handler/vpnconfigmapwatcher.go:384-416 | For any uids: a connect closure reaches its handler's cluster iff the daemon is there already, or the handler's uid is current and so is the connection in its way. |
| VpnControl.DisconnectExactly | internal/nhctl/daemon_handler/vpnconfigmapwatcher.go:419-443 | For any uids: a disconnect closure ends the connection iff it is its handler's and current, and otherwise leaves it alone. |
| VpnControl.HeldIsKept | internal/nhctl/daemon_handler/vpnconfigmapwatcher.go:384-416 | A connection that is there already is kept without any command. |
| VpnControl.WishesNamePlaces | internal/nhctl/daemon_handler/vpnconfigmapwatcher.go:247-332 | In every run the wanted connection, and every wish kept in the queue to be released later, names the place whose uid it has. |
| VpnControl.AskedIsReachedExactly | internal/nhctl/daemon_handler/vpnconfigmapwatcher.go:247-315 | In any state and with any uids: a connection just asked for is reached when the queue has run out iff it is held already, or its uid and that of the one in its way are current. |
| VpnControl.AfterStuck | internal/nhctl/daemon_handler/sudovpnhandler.go:113-132 | No closure moves a connection whose uid no place has any more. |
| VpnControl.StuckForever | internal/nhctl/daemon_handler/sudovpnhandler.go:51-132 | In every run with changing uids such a connection stays, unless its uid comes back. |
| VpnControl.StuckNeverConverges | internal/nhctl/daemon_handler/sudovpnhandler.go:51-132 | In such runs the daemon never reaches a connection asked for after the change. |
| VpnControl.RestartKeepsOldConnection | internal/nhctl/daemon_handler/vpnconfigmapwatcher.go:384-443 | Counterexample with fixed uids: a restarted controller and a daemon that is still connected do not converge. |
| VpnControl.FreshRunConverges | internal/nhctl/daemon_handler/vpnconfigmapwatcher.go:247-332 | Every run of a freshly started controller converges. |
| VpnControl.RunAccount | internal/nhctl/daemon_handler/vpnconfigmapwatcher.go:247-332 | What draining the queue gives, for every run, in terms of the start and whether a connection was asked for or dropped. |
| VpnControl.HandleAccount | internal/nhctl/daemon_handler/vpnconfigmapwatcher.go:247-332 | Every single event keeps that account. |
| VpnControl.AfterConnect | internal/nhctl/daemon_handler/vpnconfigmapwatcher.go:384-443 | A connect closure always ends connected to its handler; a disconnect closure ends only its handler's connection. |
| VpnControl.ThroughDisconnected | internal/nhctl/daemon_handler/sudovpnhandler.go:51-132 | Between two commands of a closure the daemon never goes straight from one cluster to another. |
| VpnControl.RecreatedMapStrandsConnection | internal/nhctl/daemon_handler/vpnconfigmapwatcher.go:318-332 | Counterexample when a config map's uid changes while its disconnect is queued. |
| ReverseInfo.ReverseTotal.ModifyReverseInfo | internal/nhctl/daemon_handler/vpnconfigmapwatcher.go:344-382 | The live map has exactly the snapshot's machines and resources, surviving entries are the same objects (so keep their health), new ones bear their key's name and are unhealthy. |
| ReverseInfo.AddAll | internal/nhctl/daemon_handler/vpnconfigmapwatcher.go:356-368 | The first pass: union of both, local entries kept, new ones unhealthy. |
| ReverseInfo.RemoveAll | internal/nhctl/daemon_handler/vpnconfigmapwatcher.go:371-381 | The second pass: exactly what the snapshot lacks is removed. |
| VpnText.FromStringToReverseTotal | internal/nhctl/daemon_handler/vpnstatushandler.go:141-154 | The loop computes the parse that the round trip is about. |
| VpnText.ToString | internal/nhctl/daemon_handler/vpnstatushandler.go:156-163 | The text is the printing of rows that enumerate the record, each machine once, in some order. |
| VpnText.KeySet | internal/nhctl/daemon_handler/set.go:90-96 | A list of the set's elements, each once. |
| VpnText.ReverseRoundTrip | internal/nhctl/daemon_handler/vpnstatushandler.go:141-163 | Whatever the iteration order, printing a record free of the text's signs, decoding the patch string and parsing gives the record back iff no machine has an empty set. |
| VpnText.PrintedIsFilled | internal/nhctl/daemon_handler/vpnstatushandler.go:141-163 | In general what comes back is the record with the empty name in place of every empty set. |
| VpnText.LinesRoundTrip | internal/nhctl/daemon_handler/vpnstatushandler.go:79-88 | Lines printed with escaped newlines decode and split into themselves and two empty lines. |
| VpnText.ParsedWellFormed | internal/nhctl/daemon_handler/vpnstatushandler.go:141-154 | Every parsed record is well formed; in particular no machine has an empty set. |
| VpnText.ParsedExactly | internal/nhctl/daemon_handler/vpnstatushandler.go:141-154 | A text says that a machine reverses a resource iff some line consists of the machine, one "#", and a comma-separated list with the resource. |
| VpnText.AddedMembers | internal/nhctl/daemon_handler/vpnstatushandler.go:99-108 | After an addition a resource is under a machine iff it was or both are named. |
| VpnText.RemovedMembers | internal/nhctl/daemon_handler/vpnstatushandler.go:110-120 | After a removal a resource is under a machine iff it was and not both are named. |
| VpnText.AddKeepsWellFormed | internal/nhctl/daemon_handler/vpnstatushandler.go:99-108 | Adding keeps the record well formed. |
| VpnText.RemoveKeepsWellFormed | internal/nhctl/daemon_handler/vpnstatushandler.go:110-120 | Removing keeps the record well formed: a machine left without resources goes. |
| VpnText.EmptySetIsLost | internal/nhctl/daemon_handler/vpnstatushandler.go:156-163 | Counterexample: a machine with an empty set comes back, after print, patch and parse, with the empty name. |
| VpnText.UpdateReverseConfigMap | internal/nhctl/daemon_handler/vpnhandler.go:164-187 | After parse, edit, print and patch, what readers parse is the edit of what they parsed before. |
| VpnText.UpdateMembers | internal/nhctl/daemon_handler/vpnhandler.go:164-187 | Resource by resource: readers see what they saw before, with the named resources added to, or removed from, the named machine. |
| VpnText.TextTracksEdits | internal/nhctl/daemon_handler/vpnhandler.go:164-187 | After any sequence of such updates the text parses to all edits applied in order. |
| VpnText.SharedTextShows | internal/nhctl/daemon_handler/vpnhandler.go:164-187 | However fetches and stores of several machines interleave, the text parses to exactly the edits that the last store followed from. |
| VpnText.NothingLostExactly | internal/nhctl/daemon_handler/vpnhandler.go:164-187 | The text has all edits in the order of the stores iff nobody stored between any machine's fetch and its store. |
| VpnText.SecondStoreUndoesFirst | internal/nhctl/daemon_handler/vpnhandler.go:164-187 | Two machines that fetched the same text: the second store undoes the first edit iff that changed anything. |
| VpnText.FromStringToConnectInfo | internal/nhctl/daemon_handler/vpnstatushandler.go:69-77 | The loop computes the set of machines in the text. |
| VpnText.ConnectToString | internal/nhctl/daemon_handler/vpnstatushandler.go:79-88 | The text that the round trip is about. |
| VpnText.ConnectRoundTrip | internal/nhctl/daemon_handler/vpnstatushandler.go:69-88 | Printing the connect list, decoding and parsing gives the same set. |
| VpnText.UpdateConnectConfigMap | internal/nhctl/daemon_handler/vpnhandler.go:193-208 | After an update readers parse the old set with the machine inserted or removed. |
| PackKey.KeyRoundTrip | internal/nhctl/dev_dir/dev_dir_mapping_db.go:191-243 | The key of a slash-free pack decodes to the pack, also with empty container or nid. |
| PackKey.KeyText | internal/nhctl/dev_dir/dev_dir_mapping_db.go:216-243 | The six fields in their order, with "-/-" between them. |
| PackKey.KeyInjective | internal/nhctl/dev_dir/dev_dir_mapping_db.go:191-243 | Two keys coincide iff the packs do. |
| PackKey.WithoutNidIsLegacy | internal/nhctl/dev_dir/dev_dir_mapping_db.go:191-243 | Dropping the nid gives five fields, decodes to the pack without nid, and is idempotent. |
| PackKey.LegacyIsNotFull | internal/nhctl/dev_dir/dev_dir_mapping_db.go:191-243 | No legacy key equals a full key. |
| PackKey.KeyPrefix | internal/nhctl/dev_dir/dev_dir_mapping.go:215-222 | One key is a prefix of another iff the packs differ at most by a longer nid. |
| DevDir.GenPathToPackMap | internal/nhctl/dev_dir/dev_dir_mapping_db.go:133-149 | The loop groups the stored keys, visited once each in some order. |
| DevDir.GroupConserves | internal/nhctl/dev_dir/dev_dir_mapping_db.go:133-149 | A pack occurs under a path as often as stored entries say so. |
| DevDir.GroupIsInverse | internal/nhctl/dev_dir/dev_dir_mapping_db.go:133-149 | On six-field keys the derived map is the exact inverse: each pack once, under its own path, nothing else. |
| DevDir.Store.FlushCache | internal/nhctl/dev_dir/dev_dir_mapping.go:38-49 | The cache becomes a copy of the stored mapping. |
| DevDir.Store.GetAssociatePathCache | internal/nhctl/dev_dir/dev_dir_mapping.go:51-71 | The cached lookup: full key, then the key without container. |
| DevDir.Store.GetAssociatePath | internal/nhctl/dev_dir/dev_dir_mapping.go:75-109 | The four lookups in order; a result that is not empty is stored under one of the four forms of the pack. |
| DevDir.Store.UnAssociatePath | internal/nhctl/dev_dir/dev_dir_mapping.go:145-162 | Exactly the four forms of the pack are removed. |
| DevDir.Store.Associate | internal/nhctl/dev_dir/dev_dir_mapping.go:187-236 | The whole stored mapping after an association (directories, kubeconfig contents, servers and default packs), for every combination of container, kubeconfig and default flag; refused iff one of four fields is empty; with an unreadable kubeconfig the call succeeds and the pack's own key is only forgotten. |
| DevDir.AssociatedKubeconfig | internal/nhctl/dev_dir/dev_dir_mapping.go:206-228 | Content and server of the kubeconfig go with exactly the keys that get the directory. |
| DevDir.DefaultStaysExactly | internal/nhctl/dev_dir/dev_dir_mapping.go:182-236 | Without the flag an existing default of the directory stays iff the pack was not alone where it was, or is that default and recorded again; and was not the default of this directory with others in it. |
| DevDir.LonePackTakesDefault | internal/nhctl/dev_dir/dev_dir_mapping.go:285-286 | A pack that was alone in its directory becomes the default of the one it is associated with, flag or not. |
| DevDir.MovedPackTakesDefault | internal/nhctl/dev_dir/dev_dir_mapping.go:285-286 | Counterexample: two packs, each alone; associating the first with the second's directory without the flag takes that directory's default. |
| DevDir.Store.RemovePack | internal/nhctl/dev_dir/dev_dir_mapping.go:260-313 | The key goes, and the default packs become what the removal rule allows. |
| DevDir.Store.ReplaceDefault | internal/nhctl/dev_dir/dev_dir_mapping.go:283-300 | The loop chooses some other pack of the directory as default, if there is one. |
| DevDir.Store.CoverPrefix | internal/nhctl/dev_dir/dev_dir_mapping.go:215-222 | Exactly the stored keys that begin with the key get the directory. |
| DevDir.Store.GetDefaultPack | internal/nhctl/dev_dir/dev_dir_mapping.go:321-343 | The pack under the default key, else one with a container, else none. |
| DevDir.DefaultPackExactly | internal/nhctl/dev_dir/dev_dir_mapping.go:321-343 | The answer is a pack stored in that directory, the default one or one with a container; the default one if it is stored there, and some answer if any there has a container. |
| DevDir.AssociatedIsFound | internal/nhctl/dev_dir/dev_dir_mapping.go:187-236 | After associating with a container and a readable kubeconfig, lookups with and without container return the directory and every other key keeps its path. |
| DevDir.AssociatedIsDefault | internal/nhctl/dev_dir/dev_dir_mapping.go:187-236 | After an association with the default flag, of a pack with or without container, asking for the directory's default returns that pack. |
| DevDir.UncontainedCovers | internal/nhctl/dev_dir/dev_dir_mapping.go:215-222 | Associating without container redirects exactly the stored packs that differ by a longer nid, never one with a container. |
| DevDir.UnAssociatedIsGone | internal/nhctl/dev_dir/dev_dir_mapping.go:145-162 | Afterwards no lookup finds the pack, full or legacy, with or without container, and every other key is as it was. |
| DevDir.RemovedDefaultIsReplaced | internal/nhctl/dev_dir/dev_dir_mapping.go:283-300 | Removing the default pack of a directory with others makes one still stored there the default. |
| DevDir.CacheAgreesExactly | internal/nhctl/dev_dir/dev_dir_mapping.go:38-109 | Just after a flush, cached and stored lookup agree iff the pack is stored under a full key or its legacy keys lead nowhere. |
| DevDir.LegacyOnlyIsMissed | internal/nhctl/dev_dir/dev_dir_mapping.go:38-109 | Counterexample: a pack stored under its legacy key only. |
| DevDir.CacheAgreesWithoutLegacy | internal/nhctl/dev_dir/dev_dir_mapping.go:38-109 | They agree for every pack when no legacy key is stored. |
| PodSpec.GenWorkDirAndPVAndMounts | internal/nhctl/controller/dev_start.go:169-294 | The loop with its flags computes the volumes and mounts of the persistent dirs, and the work dir's when it needs one; a claim that cannot be created fails it. |
| PodSpec.FindDevContainer | internal/nhctl/controller/raw_pod_controller.go:114-139 | The first container of the name, or the only one without a name; otherwise none. |
| PodSpec.FindMountAt | internal/nhctl/controller/dev_start.go:626-632 | The last mount at the path. |
| PodSpec.GenContainersAndVolumes | internal/nhctl/controller/dev_start.go:610-712 | The dev container is rewritten inside the slice, every other element stays, and sidecar and volumes are described; on failure nothing changes. |
| PodSpec.ReplaceNamed | internal/nhctl/controller/dev_start.go:716-725 | The container found by name at this moment, after the renaming, becomes what the pointer points to. |
| PodSpec.PatchDevContainer | internal/nhctl/controller/dev_start.go:714-741 | Replaced container, cleared probes, appended sidecar and volumes. |
| PodSpec.EnterDevMode | internal/nhctl/controller/dev_start.go:610-741 | Both steps on one pod; a failure leaves it unchanged. |
| PodSpec.DevPodIs | internal/nhctl/controller/dev_start.go:610-741 | From pod to pod, field by field: image, name, work dir, pull policy, command, env, mounts, resources and probes of the dev container, all fields of the sidecar, the mounts both get, and everything but probes of the others. |
| PodSpec.EntersExactly | internal/nhctl/controller/dev_start.go:610-650 | Dev mode is entered iff a container is found (the first of the name, or the only one) and no claim that is needed fails to be created. |
| PodSpec.VolumesAre | internal/nhctl/controller/dev_start.go:169-294 | What backs every added mount: an empty directory and the secret for syncthing, the claim of a persistent directory, the claim of the work dir's path or else an empty directory. |
| PodSpec.WorkClaimIs | internal/nhctl/controller/dev_start.go:240-250 | The work dir's claim is that of the last directory of its path whose claim was found or created. |
| PodSpec.DirsMountedExactly | internal/nhctl/controller/dev_start.go:179-270 | A path is mounted on its own iff it is not empty, not the work dir, and a directory of that path has a claim that was found or created. |
| PodSpec.ResidesExactly | internal/nhctl/controller/dev_start.go:251-255 | The work dir counts as residing in a persistent directory iff such a one, before any of the work dir's own, is a textual prefix. |
| PodSpec.OnlyDevContainerChanges | internal/nhctl/controller/dev_start.go:610-741 | One sidecar is appended and the dev container is rewritten; all others keep everything but probes iff no second container bears the name asked for or the name is kept. |
| PodSpec.NamesakeIsOverwritten | internal/nhctl/controller/dev_start.go:716-725 | Counterexample: two containers of one name. |
| PodSpec.StaysWellFormed | internal/nhctl/controller/dev_start.go:610-741 | If every mount named a declared volume before, every mount does after. |
| PodSpec.VolumesStayDistinct | internal/nhctl/controller/dev_start.go:169-294 | Volume names are distinct afterwards iff they were before and the pod had none of the generated ones. |
| PodSpec.ContainersStayDistinct | internal/nhctl/controller/dev_start.go:714-741 | Distinct container names stay distinct iff no other container has the dev container's new name or the sidecar's, and these differ. |
| PodSpec.MountPathsStayDistinct | internal/nhctl/controller/dev_start.go:169-294 | Mount paths of dev container and sidecar are distinct iff the container's own were, the common ones are, none of its own is at a common path, and syncthing does not mount at a mounted work dir. |
| PodSpec.CommonPathsDistinct | internal/nhctl/controller/dev_start.go:169-294 | The common mounts have distinct paths iff the mounted persistent directories have and none is where syncthing mounts. |
| PodSpec.WorkDirSharedExactly | internal/nhctl/controller/dev_start.go:169-294 | Dev container and sidecar see the work dir through the same deepest mount iff it was mounted before (and not where syncthing mounts), or is mounted now, or a common mount really contains it and no mount of the container itself is deeper. |
| PodSpec.OwnMountHidesParent | internal/nhctl/controller/dev_start.go:251-255 | Counterexample: a mount of the container between the persistent directory and the work dir. |
| PodSpec.PrefixIsNotParent | internal/nhctl/controller/dev_start.go:251-255 | Counterexample: a textual prefix that is no parent directory. |
| Rollback.Workload.PatchDevModeManifest | internal/nhctl/controller/service.go:271-377 | Refused when the template cannot be read or has a sidecar; otherwise the cleaned definition is recorded and the scale patches, the strategy, the pod spec, the template's annotations and the user's patches are applied in order, up to the first failure that counts. |
| Rollback.Workload.RollbackFromAnnotation | internal/nhctl/controller/unstructured.go:149-239 | Recreated from the record, or the legacy one, with three annotations; unchanged when there is none, it cannot be decoded or the delete fails; gone when the apply fails after the delete. |
| Rollback.EndRestoresExactly | internal/nhctl/controller/service.go:271-377 | Once recorded, whatever patches that leave the record alone did and however far the start got, ending restores the cleaned original plus three annotations iff the template's annotations were not patched at an empty path. |
| Rollback.RestoredMeans | internal/nhctl/controller/unstructured.go:149-239 | What restored means: at every place but the status, five server fields and the annotations, the spec included, the workload is as it was; the three annotations have their values, and every other one that is no record is as it was. |
| Rollback.CleanAt | internal/nhctl/controller/unstructured.go:343-364 | Cleaning keeps every such place and every annotation but three, and removes the rest. |
| Rollback.StartSucceedsExactly | internal/nhctl/controller/service.go:271-375 | A start succeeds iff the template is readable and has no sidecar, the record is written, every scale patch succeeds in its turn, a spec is generated, and spec and annotations of the template are there to be replaced. |
| Rollback.StartedHasSpec | internal/nhctl/controller/service.go:341-358 | A started workload has the generated pod spec at the template's place, unless the user's own patches change it. |
| Rollback.AnnotatedHasSpec | internal/nhctl/controller/service.go:341-375 | After the template patches the spec is the generated one, and the annotations are the template's with the dev container's name. |
| Rollback.ReadyHasStrategy | internal/nhctl/controller/service.go:321-342 | The strategy is replaced where there is one. |
| Rollback.OneMoreUserPatch | internal/nhctl/controller/service.go:248-256 | One more user patch works on what the start leaves without it, and is left out if it fails. |
| Rollback.SecondStartHarmless | internal/nhctl/controller/service.go:286-297 | Starting again what is in dev mode fails, and ending still restores the original. |
| Rollback.LegacyRecordRestores | internal/nhctl/controller/unstructured.go:181-203 | A workload with only the older record is restored from that. |
| Rollback.StartedEndsExactly | internal/nhctl/controller/service.go:360-375 | A start that succeeded can be ended, and then restores, iff the template path is not empty; otherwise ending changes nothing. |
| Rollback.TemplatePlaces | internal/nhctl/controller/service.go:341-361 | Where the concatenated pointers lead, for every template path: the pod spec never to the record or above it, the annotations to it iff the path is empty. |
| Rollback.AnnotatedHolds | internal/nhctl/controller/service.go:360-375 | The annotations patch keeps the record if the path is not empty, and otherwise removes it and the legacy record. |
| Rollback.EndOutcomes | internal/nhctl/controller/unstructured.go:210-238 | Restored iff delete and apply succeed; after a failing delete everything is unchanged and ending again restores; after a failing apply the workload and its record are lost. |
| Rollback.CyclesRestore | internal/nhctl/controller/service.go:271-377 | Any number of further cycles, with any plans, gives the same definition. |
| Rollback.CyclesKeepPlaces | internal/nhctl/controller/service.go:271-377 | After any number of cycles every place of the user's, the spec included, is as at the beginning. |
| Rollback.RecordNeverNests | internal/nhctl/controller/unstructured.go:343-364 | The record decodes to the cleaned original, which holds no record. |
| Rollback.MarkedClean | internal/nhctl/controller/unstructured.go:343-364 | Adding the three annotations to a cleaned object keeps it clean and is idempotent. |
| Rollback.CustomTypeCannotEnd | internal/nhctl/nocalhost/svc_type.go:70-80 | Counterexample: a workload of a custom type without template path, with one container, whose generated spec has dev container and sidecar, is started and cannot be ended. |
| Upgrade.IsContainsInfo | internal/nhctl/app/upgrade.go:210-221 | True iff some resource of the list has the same kind, version and name. |
| Upgrade.Cluster.UpgradeInfos | internal/nhctl/app/upgrade.go:151-208 | The cluster after the three loops for any failing requests, and success iff errors are tolerated or no request sent fails. |
| Upgrade.Cluster.DeleteEach | internal/nhctl/app/upgrade.go:174-183 | The deletions that take effect, up to the first failure that counts. |
| Upgrade.Cluster.ApplyEach | internal/nhctl/app/upgrade.go:185-205 | The applications that take effect, up to the first failure that counts. |
| Upgrade.PerformedExactly | internal/nhctl/app/upgrade.go:174-205 | A request takes effect iff it does not fail and, unless errors are tolerated, no earlier one of its loop does. |
| Upgrade.UpgradeAt | internal/nhctl/app/upgrade.go:151-221 | What every cluster object (group, kind, namespace, name) becomes: if the new list has it, the last definition the old list recognises, or else the last; if not, gone if the old list has a definition the new one does not recognise, else untouched. |
| Upgrade.DeletesWhatItAppliesExactly | internal/nhctl/app/upgrade.go:151-221 | An object is deleted and then created or updated iff both lists have it and the old list has a definition of it that the new one does not recognise. |
| Upgrade.SameVersionsNeverDeleted | internal/nhctl/app/upgrade.go:210-221 | That never happens to an object that keeps its version. |
| Upgrade.ChangedVersionIsRecreated | internal/nhctl/app/upgrade.go:210-221 | Counterexample, for every object and every change of version: it is deleted and created anew, and gone if creating it fails. |
| Upgrade.UpgradeExactly | internal/nhctl/app/upgrade.go:151-221 | The result is the cluster minus the old list overlaid with the new one, last definition winning, iff no stored object of the old list is merely recognised elsewhere and no definition is overruled by an earlier one in a version known before. |
| Upgrade.OneNamespaceUpgrade | internal/nhctl/app/upgrade.go:151-221 | Within one namespace it is iff no definition is overruled. |
| Upgrade.OneVersionIsNotOverruled | internal/nhctl/app/upgrade.go:151-221 | None is if the new list gives the object one version. |
| Upgrade.OldVersionWins | internal/nhctl/app/upgrade.go:151-221 | Counterexample: two versions of one object in the new list. |
| Upgrade.MovedResourceStays | internal/nhctl/app/upgrade.go:210-221 | Counterexample: the old copy of a moved resource stays. |
| OwnerLookup.EndsExactly | internal/nhctl/resouce_cache/search.go:791-815 | The recursion ends iff following owners never repeats one, and then its result is the one computed with the visited owners. |
| OwnerLookup.AcyclicEnds | internal/nhctl/resouce_cache/search.go:791-815 | On acyclic owners it ends, with a bound on its calls. |
| OwnerLookup.LookupIsNearest | internal/nhctl/resouce_cache/search.go:791-815 | It returns an application iff a chain of stored controllers, each being deleted or with neither annotation, leads to the first object that is alive and names it (by this program's annotation, else by Helm's), or to one without owner for the default application. |
| OwnerLookup.AppNameIs | internal/nhctl/resouce_cache/search.go:498-505 | The application an object counts under by itself, in terms of its deletion mark and its annotations. |
| OwnerLookup.DeletedNamesDoNotCount | internal/nhctl/resouce_cache/search.go:530-547 | What objects that are being deleted have for annotations never changes any lookup. |
| OwnerLookup.AppOf | internal/nhctl/resouce_cache/search.go:791-815 | On acyclic owners every object has an application with a non-empty name. |
| OwnerLookup.Filter.KeepMatching | internal/nhctl/resouce_cache/search.go:763-775 | The loop shared by the filters keeps the accepted objects in order. |
| OwnerLookup.Filter.Namespace | internal/nhctl/resouce_cache/search.go:763-775 | Keeps the namespace; an empty one keeps all. |
| OwnerLookup.Filter.AppName | internal/nhctl/resouce_cache/search.go:777-789 | Keeps the application; an empty one keeps all. |
| OwnerLookup.Filter.Label | internal/nhctl/resouce_cache/search.go:819-846 | Keeps objects all of whose asked labels are equal, or all different. |
| OwnerLookup.KeepCounts | internal/nhctl/resouce_cache/search.go:755-859 | A filter keeps every occurrence of what it accepts and nothing else. |
| OwnerLookup.PartsAreWhole | internal/nhctl/resouce_cache/search.go:777-789 | Filtering by each application splits the list into disjoint parts that together are the list, counting repetitions. |
| OwnerLookup.QueryExactly | internal/nhctl/resouce_cache/search.go:740-752 | A query keeps every occurrence of an object iff it is in the namespace, belongs to the application, has all labels asked for and is not hidden. |
| OwnerLookup.LabelsExactly | internal/nhctl/resouce_cache/search.go:806-846 | The two label filters: all labels as asked for, or none of them. |
| OwnerLookup.QueryByApp | internal/nhctl/resouce_cache/search.go:745-751 | Before sorting, a query for one application is, in order, the part of the query for all applications that belongs to it: the filters commute. |
| OwnerLookup.StableSortPermutes | internal/nhctl/resouce_cache/search.go:848-855 | Every stable sort by name only rearranges the list, repetitions included. |
| OwnerLookup.SortedIsStableSort | internal/nhctl/resouce_cache/search.go:848-855 | There is one: names in order, objects of one name in the order they had. |
| OwnerLookup.LessExactly | internal/nhctl/resouce_cache/search.go:848-855 | Names are in order iff the first is a proper beginning of the second or has the smaller character where they first differ. |
| OwnerLookup.StableSortUnique | internal/nhctl/resouce_cache/search.go:848-855 | Two lists in order that agree on every name's objects are equal, so all stable sorts of a list are. |
| OwnerLookup.SortThenKeep | internal/nhctl/resouce_cache/search.go:755-859 | Sorting and filtering may change places. |
| OwnerLookup.SortedQueryByApp | internal/nhctl/resouce_cache/search.go:740-752 | Whatever stable sort is used, the sorted answer for one application is, in order, what the sorted answer for all applications has of it. |
| OwnerLookup.ByNameAgreesExactly | internal/nhctl/resouce_cache/search.go:719-738 | Asking for an object by name finds it under the same applications as listing does iff it names its application itself or its owners lead to the default one. |
| OwnerLookup.OwnedIsNotFoundByName | internal/nhctl/resouce_cache/search.go:719-738 | Counterexample: a pod whose deployment names the application. |
| AppCache.Handler.HandleAddOrUpdate | internal/nhctl/resouce_cache/appcache.go:90-116 | Every inhabited namespace's entry becomes the names recomputed from the store; other entries stay. |
| AppCache.Handler.OnAddOrUpdate | internal/nhctl/resouce_cache/appcache.go:82-124 | Nothing while throttled; otherwise refreshed, and throttled for five seconds. |
| AppCache.Handler.OnDelete | internal/nhctl/resouce_cache/appcache.go:126-162 | Every existing entry of the resource name, whosever it is, is recomputed from this handler's store: to empty for other kubeconfigs and where nothing is left. |
| AppCache.GroupByNamespace | internal/nhctl/resouce_cache/appcache.go:90-101 | The loop computes the names of each inhabited namespace and of no other. |
| AppCache.OpenRunIsExactExactly | internal/nhctl/resouce_cache/appcache.go:82-162 | With the throttle open, after every event of every run of any handlers (any kubeconfigs, scopes and kinds): an entry equals the names of all handlers together iff its last writer has every name that any handler has there. |
| AppCache.OpenRunWritten | internal/nhctl/resouce_cache/appcache.go:82-162 | In every such run each entry is what its last writer would recompute now, and every slot with objects has an entry. |
| AppCache.AlwaysExactExactly | internal/nhctl/resouce_cache/search.go:396-433 | For every set of handlers: with the throttle open all runs are exact for a resource name iff at most one handler writes under that name. |
| AppCache.OpenRunIsExact | internal/nhctl/resouce_cache/appcache.go:82-162 | The handler that is alone with its resource name keeps it exact after every event of every run. |
| AppCache.ClusterAdminIsExact | internal/nhctl/resouce_cache/search.go:396-433 | One searcher of a cluster administrator, with distinct resource names, keeps the whole cache exact. |
| AppCache.SharedNameIsEmptied | internal/nhctl/resouce_cache/appcache.go:142-161 | Any two handlers of one resource name have a run in which one's deletion makes the other's names disappear. |
| AppCache.DeletionEmptiesOtherNamespace | internal/nhctl/resouce_cache/search.go:403-405 | Counterexample: one user, two namespaces, one kind. |
| AppCache.DeleteIsExactExactly | internal/nhctl/resouce_cache/appcache.go:126-162 | In any state: after a deletion the cache is exact for the resource name iff every name any handler has for it the deleting handler has too, in slots that had entries. |
| AppCache.DeleteNeedsScope | internal/nhctl/resouce_cache/appcache.go:142-161 | With stores that are consistent views and complete entries: iff all objects of the resource name are of the deleting handler's kind and kubeconfig and in the namespaces it sees. |
| AppCache.RefreshIsExactExactly | internal/nhctl/resouce_cache/appcache.go:90-116 | After a refresh a slot its handler lives in is exact iff the handler has every name any handler has there. |
| AppCache.OpenHandlerIsExact | internal/nhctl/resouce_cache/appcache.go:82-124 | With any clock, whatever was skipped, a refresh of a handler alone with its resource name makes it exact, emptied namespaces included. |
| AppCache.ThrottledNamespaceIsMissed | internal/nhctl/resouce_cache/appcache.go:82-88 | Counterexample: a run of a lone handler in which a deletion leaves out a namespace that got its first object while throttled. |
| AppCache.RunKeepsEmpty | internal/nhctl/resouce_cache/appcache.go:82-162 | In every run of any handlers with any clock, slots in which nobody has objects have no names cached. |
| AppCache.GetAllAppNameByNamespace | internal/nhctl/resouce_cache/appcache.go:37-48 | The union over all resources of the cached names of a kubeconfig and namespace. |

## Left out

- Commands, terminal UI, logging, transport between the daemons, Helm and git subprocesses, syncthing and port forwarding: no state to reason about here, or input and output only.
- Kubernetes, LevelDB, YAML, JSON and xz themselves: encoding and decoding are taken to be inverse. Of JSON strings the two-character escapes are modelled; `\u` escapes are treated as undecodable, and the printers never emit them.
- Lifecycle.ApplicationMeta.Update: the conflict retry as a protocol between clients; the last writer wins, so nothing about exclusion between clients follows from it.
- Lifecycle.ApplicationMeta.ReAssignmentBySecret: only state, back-off and dev table; the other fields of the secret are copied, and the dependency config name is written but not read back.
- Retries and listeners of `consume` in application_secret_event.go.
- SecretWatcher.EventQueue.EventPop: several consumers waiting at once; the program starts one.
- SecretWatcher.EveryRunReplays: stored tables are taken to change only by join, left and status queries; asking for an application that is not installed can also initialise the stored meta itself and replace its dev table without events.
- VpnControl.VpnController.RunNext: commands that fail to reach the sudo daemon, the capacity of the closure channel, direct user commands of the VPN handler, and the reconnect goroutine are not modelled.
- ReverseInfo.ReverseTotal.ModifyReverseInfo: entries are heap objects but the sets holding them are values, so sharing of a set object with the snapshot is not captured.
- DevDir.Store.Associate: reading the kubeconfig file; its content and server are parameters. The repository's tests expect one pack per association; the code also records the key without container, and the code is followed.
- The mesh sidecar, the dev-mode counter and sub-paths of mounts.
- Rollback.EndRestoresExactly: for workloads that are not created anew for development; creating an object is taken to add only the cluster's own fields and the record of the apply, and the pod template not to lie in the workload's own annotations. Merging the legacy spec record is a parameter, escapes in JSON pointers are not modelled, and a path without leading slash is no pointer.
- OwnerLookup.StableSortPermutes: about every stable sort; the library's algorithm is not modelled.
- AppCache.Handler.OnDelete: the VPN disconnect that it starts beside; keys are pairs of kubeconfig and namespace, not their hash.
- Config parsing heuristics, v1 to v2 conversion, and the application sort of the daemon, whose comparator is not a strict order.
