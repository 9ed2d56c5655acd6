# EVPN for OVN: a verified model

This project models the parts of EVPN for OVN that own external state, and proves what they
keep through failures, crashes and restarts. The common idea of the system is a write-ahead
ownership journal: an intent is made durable, the outside world is changed, the result is read
back, and only then is it acknowledged. Anything in doubt blocks.

| files | what they model |
|---|---|
| `Journal.dfy` | the ownership journal, its disk and every history the disk can have |
| `Endpoints.dfy`, `Reconciler.dfy` | the Type-2 route reconciler: plan, apply, resynchronize |
| `Speaker.dfy`, `ExportReceipts.dfy`, `ExportRecovery.dfy`, `Exporter.dfy` | durable export receipts against a BGP speaker, and the exporter on top |
| `RemoteRoutes.dfy`, `RemoteBindings.dfy`, `RemotePoll.dfy` | reading the remote RIB into a normalised, twice-confirmed snapshot |
| `NetlinkReceipts.dfy`, `NetlinkKernel.dfy`, `NetlinkBackend.dfy`, `NetlinkRecovery.dfy`, `NetlinkDesired.dfy`, `NetlinkImport.dfy` | the journalled kernel writer, its recovery, and installing snapshots |
| `CNIAcks.dfy`, `CNIContinuity.dfy` | CNI endpoint acknowledgements and the export gate |
| `Model1Tunnels.dfy`, `Model1Handler.dfy`, `BridgeMappings.dfy` | the OVSDB-programmed handler and `ovn-bridge-mappings` |
| `Basics.dfy` | strings, ordering, sorting |

Objects whose methods update fields are classes; the disk, the speaker, the kernel and the
databases are separate objects that outlive the process. Their answers are arbitrary values, so
a method contract covers every outcome of every call: a failed write may or may not have
landed, a failed kernel or speaker request may or may not have taken effect. A crash is an early
return after any of these, followed by opening again from what survived. The methods named
`Any...Run` are most general clients: their contracts hold for every sequence of calls, failures
and restarts. Parsers, serializers and digests are arbitrary functions held in records.

What the environment is taken to be: no one but the exporter removes local paths of its speaker,
a restarted speaker has an incarnation not used before, and `AddPath` never returns a UUID twice;
`remoteHash` has no collisions on the keys it is used for; interface indexes are unique per name;
Linux derives a nonzero type for every neighbor. The kernel model has a switch `foreign` for
other writers: exact results are proved with it off, the one-sided ones in both cases. A disk
has a switch `reliable` on which only the exact progress clauses of the journal and the reachability
witness `StuckRun` depend; the answers of the OVSDB databases come from an arbitrary oracle, fixed
only in the witness `LeftBehind`. What a CNI server sees is kept by kind: the Pod checks of ADD, the
checks of running workloads, matching and absent resources, and the verdicts of the verification
loop. What a speaker's RIB showed is kept as readings, each with the last record on disk at that time.

Results about the code that a caller may not expect:

- A neighbor that reads back with type zero would be confirmed and then refused at every restart;
  `FirstReadback` gives the exact condition, `UntypedReadback` an instance.
- `Resync` adopts exactly when there is an adoption in which each receipt's path is the first local
  path with its UUID (`AdoptPaths`). So two local paths under one receipt's UUID make it depend on
  their order (`SharedUUIDOrderMatters`); without such a pair it fails only where nothing can be
  adopted (`UnsharedSuffices`).
- The activation stamp of a CNI endpoint is a clock reading of its own, so a verdict in time can be
  stamped late. `LateActivation` gives such a run; `Recover` refuses it, and a restart accepts a
  stored endpoint exactly when that stamp is inside its window (`RecoverableIffInTime`).
- An active route that never got a receipt cannot be withdrawn. A snapshot succeeds only if the route
  is not retiring and the snapshot still has its endpoint, unchanged and on the same devices; after a
  failure for that reason it is retiring, and in that process no snapshot succeeds any more
  (`RemoteImporter.Install`). `StuckRun` reaches this by one cancellation.
- A quarantined kernel writer can still report success, only when there is nothing to withdraw and
  nothing to apply; then it has no entry in the kernel.
- An OVSDB tunnel whose creation failed after taking effect is installed without being active. It
  stays so until a snapshot that can be accepted asks for it (`AnyHandlerRun`), and a success leaves
  only the active tunnel installed exactly when no other tunnel was left over
  (`Handler.Reconcile`). `LeftBehind` reaches such a success.

## Model

| member | source | states |
|---|---|---|
| `OwnershipJournal.Disk.Replace` | pkg/ownership/journal.go:330-400 | one durable write of a legal successor: success means it is the record, failure leaves the old record or the new one |
| `OwnershipJournal.Journal.Open` | pkg/ownership/journal.go:96-183 | a journal this code wrote is opened exactly when its domain matches; missing metadata never becomes fresh ownership; an existing record is not changed |
| `OwnershipJournal.Journal.Check` | pkg/ownership/journal.go:269-281 | once blocked, blocked for good; success implies neither blocked nor closed |
| `OwnershipJournal.Journal.Snapshot` | pkg/ownership/journal.go:200-213 | what is read is the record on disk |
| `OwnershipJournal.Journal.Begin` | pkg/ownership/journal.go:215-245 | success makes exactly one intent with the next sequence number durable; failure leaves memory alone and the disk at the old record or, blocked, at the one attempted successor |
| `OwnershipJournal.Journal.Commit` | pkg/ownership/journal.go:247-267 | success acknowledges exactly the pending sequence with the given state; failure as for Begin |
| `OwnershipJournal.HistoryShape` | pkg/ownership/journal.go:215-267 | in every history of the disk begins and commits alternate, the sequence number counts the begins and a pending intent carries it |
| `OwnershipJournal.BeginsIncreaseAndCommitsAreUnique` | pkg/ownership/journal.go:215-267 | across failures and restarts later begins have larger numbers and no number is committed twice |
| `OwnershipJournal.AnyRun` | pkg/ownership/journal.go:96-417 | any calls, failures, crashes and reopens: the disk history only grows legally and the numbers handed out strictly increase |
| `Endpoints.EqualStringSet` | pkg/evpn/type2.go:301-315 | sorting copies and comparing decides equality as multisets |
| `Endpoints.EquivalentIffSameExport` | pkg/evpn/type2.go:80-91 | endpoints are equivalent exactly when network, endpoint, incarnation, distinguisher, MAC, VNI, VTEP and kind are equal, they have one first parsing address (or none), and every route target equally often |
| `Endpoints.PrimaryIsFirst` | pkg/evpn/type2.go:142-159 | the address compared is the first that parses, or the empty string where none does |
| `RouteReconciliation.BuildDesired` | pkg/evpn/type2.go:239-256 | planning accepts a desired list exactly when every advertised endpoint builds, none is on a foreign key and equal wire keys mean equivalence |
| `RouteReconciliation.PlanConverges` | pkg/evpn/type2.go:235-299 | executing a whole plan in order makes applied export what is desired, key for key |
| `RouteReconciliation.PlanIsOk` | pkg/evpn/type2.go:235-299 | a plan, delta by delta: a withdrawal names an applied key with its endpoint and UUID, an advertisement a desired endpoint under its own key without UUID; withdrawals come first, each group strictly by key; withdrawn are exactly the applied keys that no desired endpoint wants as they are, advertised exactly the wanted keys that are not applied so |
| `RouteReconciliation.ReplanYieldsSuffix` | pkg/evpn/type2.go:235-299 | after any executed prefix, planning again gives exactly the remaining suffix |
| `RouteReconciliation.PlanEmptyIffAgreed` | pkg/evpn/type2.go:235-299 | the plan is empty exactly when applied and desired already agree |
| `RouteReconciliation.PlanAvoidsForeign` | pkg/evpn/type2.go:235-299 | no plan advertises a key held by an unclaimed local path |
| `RouteReconciliation.HeadIsRequested` | pkg/evpn/type2.go:235-299 | on a synchronized reconciler the next operation of its plan is always a request: to delete the applied route, endpoint and UUID, or to add the desired endpoint |
| `RouteReconciliation.Converge` | pkg/evpn/type2_lifecycle.go:60-111 | with every answer an acknowledgement, every operation of a new plan is requested as it says, in order, none is refused, and afterwards a key is applied exactly when a desired endpoint wants it, exported as that endpoint |
| `RouteReconciliation.RouteReconciler.Reconcile` | pkg/evpn/type2.go:235-299 | a new plan of fresh operations, as stated by `PlanIsOk`, replaces every pending one; a failed plan leaves none |
| `RouteReconciliation.RouteReconciler.Apply` | pkg/evpn/type2_lifecycle.go:60-111 | succeeds exactly when the operation is current, its precondition on the applied set holds and the applier acknowledges; success executes exactly that delta once; an Add without UUID desynchronizes |
| `RouteReconciliation.ClaimReceipts` | pkg/evpn/type2_lifecycle.go:150-162 | receipts are indexed by UUID exactly when each has one, builds, and no two share one |
| `RouteReconciliation.AdoptPaths` | pkg/evpn/type2_lifecycle.go:163-197 | what is adopted: each receipt on exactly one matching local path, every other local path foreign; succeeds exactly when there is such an adoption with each receipt on the first local path that carries its UUID |
| `RouteReconciliation.AdoptionFound` | pkg/evpn/type2_lifecycle.go:163-197 | an adoption by first carriers is unique and is what the scan of the RIB computes |
| `RouteReconciliation.SharedUUIDOrderMatters` | pkg/evpn/type2_lifecycle.go:163-187 | two local paths with one UUID, one matching the receipt and one not: with the matching one first the receipt can be adopted, in the other order the same adoption describes the paths and is refused |
| `RouteReconciliation.UnsharedSuffices` | pkg/evpn/type2_lifecycle.go:163-187 | where no two local paths carry one receipt's UUID, any adoption at all is enough |
| `RouteReconciliation.ClaimDurable` | pkg/evpn/type2_lifecycle.go:210-221 | durable receipts are indexed by wire key exactly when all build, have a UUID and differ in key |
| `RouteReconciliation.AdoptDurable` | pkg/evpn/type2_lifecycle.go:222-248 | the durable readback adopts exactly the receipts, or nothing can be adopted |
| `RouteReconciliation.RouteReconciler.Resync` | pkg/evpn/type2_lifecycle.go:134-198 | succeeds exactly when the snapshot is there, not cancelled, the receipts can be indexed and can be adopted; success installs the adoption and clears the plan; failure changes nothing applied and desynchronizes |
| `RouteReconciliation.RouteReconciler.ResyncDurable` | pkg/evpn/type2_lifecycle.go:202-249 | the same for durable receipts; a cancellation is reported after the view is installed |
| `RouteReconciliation.DeleteUsesUndeletedUUID` | pkg/evpn/type2_lifecycle.go:60-198 | in every log each Delete carries the UUID of the latest Add or resync receipt of its key, not deleted since |
| `RouteReconciliation.LiveHasOrigin` | pkg/evpn/type2_lifecycle.go:60-198 | every UUID that counts as live has such an origin |
| `RouteReconciliation.AnyReconcilerRun` | pkg/evpn/type2_lifecycle.go:60-249 | any interleaving of planning, applying (also stale operations) and resyncing: each operation runs at most once and only in the epoch that issued it; the log stays legal and only grows, and the Adds and Deletes it gains are exactly the acknowledgements of the executed operations, in order |
| `SpeakerEnvironment.Speaker.AddPath` | pkg/evpn/export_recovery.go:348-364 | the speaker as met by Add: an acknowledged UUID is new and names exactly the sent NLRI |
| `SpeakerEnvironment.Speaker.DeletePath` | pkg/evpn/export_recovery.go:401-410 | a deletion removes at most the path its UUID was returned for |
| `ExportReceipts.Validate` | pkg/evpn/export_recovery.go:116-137 | accepts exactly the states with unique UUIDs, unique NLRI bytes, one incarnation and rebuildable receipts |
| `ExportReceipts.ValidReceiptIff` | pkg/evpn/export_recovery.go:96-137 | a receipt validates exactly when its UUID parses, its incarnation is that of the state, and its endpoint builds into its NLRI bytes and attributes |
| `ExportReceipts.RetainSound` | pkg/evpn/export_recovery.go:205-216 | receipts are retained exactly when each one with a path is confirmed by it: one path, unchanged, under its UUID, in its incarnation; then exactly those survive, in order |
| `ExportReceipts.ConfirmsIff` | pkg/evpn/export_recovery.go:181-216 | a receipt is confirmed exactly when, in its incarnation, one path alone is local with its NLRI bytes, carries the bytes and attributes of its endpoint, and has its UUID or none |
| `ExportReceipts.EveryStateValid` | pkg/evpn/export_recovery.go:116-137 | every state any legal history of the journal holds passes validation |
| `ExportReceipts.FirstOperationIsCheckpoint` | pkg/evpn/export_recovery.go:283-294 | the first journalled operation is a checkpoint |
| `ExportReceipts.ReceiptProvenance` | pkg/evpn/export_recovery.go:324-376 | every receipt comes from an Add whose commit reached the disk in the receipt's own incarnation, and was held ever since |
| `ExportReceipts.GainProvenance` | pkg/evpn/export_recovery.go:324-376 | every receipt was confirmed, in its own incarnation, by a reading of the RIB taken after its intent was durable |
| `ExportReceipts.DropProvenance` | pkg/evpn/export_recovery.go:192-294 | the dual: a receipt once held and no longer held was dropped by one step, and a reading taken while it was still held on disk lacks its path, in its incarnation or a later one |
| `ExportRecoveryModel.ExportRecovery.Open` | pkg/evpn/export_recovery.go:60-82 | opening never rejects the contents of its own journal |
| `ExportRecoveryModel.ExportRecovery.Add` | pkg/evpn/export_recovery.go:324-376 | success appends exactly the acknowledged receipt, in memory and on disk, after a reading that shows its one path unchanged under the UUID; failure leaves the receipts alone, and a UUID whose acknowledgement was lost never becomes one |
| `ExportRecoveryModel.ExportRecovery.Delete` | pkg/evpn/export_recovery.go:378-418 | success removes exactly the receipt of the given UUID, in memory and on disk, after a reading of its incarnation that lacks its path; failure removes none |
| `ExportRecoveryModel.ExportRecovery.Recover` | pkg/evpn/export_recovery.go:194-294 | success keeps exactly the receipts whose path was observed, each confirmed by it, without the one whose deletion was interrupted and whose path was read as absent, and resolves an interrupted Add only by absence; the set only shrinks, and what is returned is what is on disk with nothing pending |
| `ExportRecoveryModel.AnyExportRun` | pkg/evpn/export_recovery.go:60-418 | any calls with crashes and reopens: the history stays legal, every receipt ever held was confirmed by a reading, every receipt ever dropped was missed by one, and no lost UUID is ever a receipt |
| `EndpointExport.EndpointExporter.ApplyPlan` | pkg/evpn/exporter.go:291-322 | success: the steps taken are exactly, delta by delta, the passed checks and the request, and nothing of the plan is left; failure: the requests sent are a prefix of the plan |
| `EndpointExport.EndpointExporter.Reconcile` | pkg/evpn/exporter.go:198-323 | success: a key is applied exactly when an observed endpoint wants it, exported as that endpoint, and in recovery mode the applied routes are the receipts on disk with nothing pending; the steps of the pass are exactly its checks, a reading that shows every applied route, and every delta of a correct plan, each right after the checks; a failed pass sent nothing or a prefix of such a plan; a fenced exporter does nothing |
| `EndpointExport.EndpointExporter.Clearance` | pkg/evpn/exporter.go:296-314 | before a request: without durable recovery a closed gate without confirmed continuity, or lost continuity, fences, and nothing else does |
| `EndpointExport.EndpointExporter.SpeakerReady` | pkg/evpn/exporter.go:235-258 | before planning: without durable recovery a failed re-attestation of an initialized exporter fences, and a closed gate without confirmed continuity exactly when routes are applied |
| `EndpointExport.EndpointExporter.PathsPresent` | pkg/evpn/exporter.go:276-289 | the exporter is fenced exactly when an applied route has no local path in the reading |
| `EndpointExport.MissedPassSentNothing` | pkg/evpn/exporter.go:276-322 | a pass that misses an applied route has sent no request |
| `EndpointExport.AnyExporterRun` | pkg/evpn/exporter.go:198-323 | over any passes: every request follows the checks in a pass that found every applied route; the exporter is fenced exactly when its last step is one of five (a missing route; and without durable recovery a failed re-attestation, a closed gate without confirmed continuity before planning with routes applied or before a request, lost continuity before a request), and then nothing is checked, read or sent any more |
| `EndpointExport.EndpointExporter.DrainNetworks` | pkg/evpn/exporter.go:184-196 | what is kept is exactly the applied endpoints of other networks; afterwards a key is applied exactly when a kept endpoint wants it, exported as that endpoint |
| `RemoteRoutes.PolicyIff` | pkg/evpn/remote_type2.go:312-347 | the first-match search accepts a route exactly when it is eligible and some network permits its VNI, next hop and route targets, and then under that network |
| `RemoteBindings.BindCorrect` | pkg/evpn/remote_type2.go:481-525 | recording a route succeeds exactly while all accepted routes are consistent, and then represents exactly them |
| `RemoteBindings.SupportedIff` | pkg/evpn/remote_netlink_import.go:69-83 | an endpoint is supported exactly when its network permits each of its routes, with its MAC, next hop and, if any, IP, and its IP, if any, is that of one of them |
| `RemotePolling.Read` | pkg/evpn/remote_type2.go:435-558 | a reading is accepted exactly when it is complete, each network MAC has one next hop and at most one IP, each network IP one MAC, and no rejected route has the MAC or the non-empty IP of a validated route or confirmed endpoint in a network whose VNI is its first label; what is accepted is the normal form; a reading refused only for such an overlap reports exactly the rejected routes, and any other reports the path it stopped at exactly when that does not decode |
| `RemotePolling.NormalFormUnique` | pkg/evpn/remote_type2.go:548-558 | a set of accepted paths has one normalised snapshot |
| `RemotePolling.OrderIndependent` | pkg/evpn/remote_type2.go:435-558 | any reordering or repetition of the same paths is uncertain alike or gives the same snapshot |
| `RemotePolling.PublishIffTwoEqualReadings` | pkg/evpn/remote_type2.go:559-575 | over every sequence of polls and rebinds a poll is authoritative exactly when it is complete, free of conflicts and repeats the event right before it; what is confirmed is its content |
| `RemotePolling.GenerationsCountChanges` | pkg/evpn/remote_type2.go:559-575 | generations never decrease and rise by one exactly when confirmed content changes |
| `RemotePolling.GenerationZeroIsEmpty` | pkg/evpn/remote_type2.go:559-575 | generation zero means nothing but the empty content was ever confirmed |
| `RemotePolling.ReadOnlyImporter.PollOnce` | pkg/evpn/remote_type2.go:435-576 | one poll is one step of that machine; a result that is not authoritative carries the last confirmed endpoints, and an uncertain one the confirmed issues followed by those of the reading |
| `RemotePolling.ReadOnlyImporter.RebindSource` | pkg/evpn/remote_type2.go:409-418 | rebinding forgets the pending reading and keeps the confirmed one |
| `RemotePolling.RestoredNeedsTwoReadings` | pkg/evpn/remote_recovery.go:319-327 | after a restart with a recovered snapshot, whatever polls and rebinds follow, an authoritative result was read twice in a row since; generations go on from the recovered one, which still names the recovered content |
| `NetlinkReceipts.HeldAfterConfirm` | pkg/evpn/owned_netlink.go:578-590 | confirming an object adds exactly its observed entry to what is claimed |
| `NetlinkReceipts.HeldAfterRelease` | pkg/evpn/owned_netlink.go:638-649 | releasing one removes exactly its entry, because no other receipt claims it |
| `NetlinkReceipts.HeldSlotsUnique` | pkg/evpn/remote_recovery.go:138-178 | settled receipts never claim two entries of one slot |
| `NetlinkReceipts.SettledIsValid` | pkg/evpn/remote_recovery.go:128-199 | every settled state passes receipt validation |
| `NetlinkReceipts.TrustedIff` | pkg/evpn/remote_recovery.go:128-199 | receipt validation field by field: identity, stage, network and devices, the two requests bit by bit, and the evidence of each object |
| `NetlinkKernel.Kernel.Add` | pkg/evpn/owned_netlink.go:566-577 | the kernel as met by creation: an entry in the requested slot, none on a definitive rejection, either on an unknown outcome |
| `NetlinkKernel.Kernel.Delete` | pkg/evpn/owned_netlink.go:626-637 | the same for deletion of one tuple |
| `NetlinkBackend.FirstReadback` | pkg/evpn/owned_netlink.go:493-521 | a first readback that confirms an object is one recovery accepts exactly when the kernel derived a type |
| `NetlinkBackend.UntypedReadback` | pkg/evpn/owned_netlink.go:493-521 | an instance that confirms and is refused |
| `NetlinkBackend.DistinctSlots` | pkg/evpn/remote_recovery.go:138-178 | the single pass with a set of used slots decides whether any two objects share a slot |
| `NetlinkBackend.ValidateReceipts` | pkg/evpn/remote_recovery.go:128-199 | accepts exactly the states with valid topology, identity, stage, mapping, evidence and distinct slots |
| `NetlinkBackend.Backend.Checkpoint` | pkg/evpn/remote_recovery.go:286-296 | success makes memory durable; a pending intent is never overwritten; failure blocks |
| `NetlinkBackend.Backend.Quarantine` | pkg/evpn/remote_recovery.go:298-307 | blocking is recorded durably unless an intent is already pending, which stays |
| `NetlinkBackend.Backend.Check` | pkg/evpn/owned_netlink.go:366-433 | success means nothing is blocked and nothing changed |
| `NetlinkBackend.Backend.Slot` | pkg/evpn/owned_netlink.go:474-491 | what is found is exactly the visible content of the slot |
| `NetlinkBackend.Backend.Confirm` | pkg/evpn/owned_netlink.go:493-521 | presence is confirmed only as the expected entry alone in its slot, absence only as an empty slot; anything else is a conflict that blocks |
| `NetlinkBackend.Backend.Attempt` | pkg/evpn/owned_netlink.go:557-577 | whatever a creation answers, no slot gets two owners |
| `NetlinkBackend.Backend.ApplyObject` | pkg/evpn/owned_netlink.go:536-590 | success: the object is confirmed and alone in its slot; other receipts and other owners' entries are untouched in every case |
| `NetlinkBackend.Backend.WithdrawObject` | pkg/evpn/owned_netlink.go:592-649 | success: the object is confirmed absent; only an entry with a confirmed receipt is ever deleted |
| `NetlinkBackend.Backend.Apply` | pkg/evpn/owned_netlink.go:673-709 | success: the route has a complete receipt of its own incarnation; stale incarnations and foreign receipts are refused; other receipts are untouched |
| `NetlinkBackend.Backend.Withdraw` | pkg/evpn/owned_netlink.go:731-767 | success removes exactly the route's own receipt; without a receipt it fails; a partial withdrawal keeps the claim |
| `NetlinkBackend.Backend.RecoverObject` | pkg/evpn/remote_recovery.go:225-249 | a recovered object either matches its slot, is given up because the slot is empty, or blocks |
| `NetlinkBackend.Backend.VerifyRecovered` | pkg/evpn/remote_recovery.go:220-252 | success: every confirmed object is exactly the one entry of its slot and every other object's slot is empty |
| `NetlinkBackend.Backend.Observe` | pkg/evpn/owned_netlink.go:219-238 | startup never adopts: every remote-looking entry in a managed table is claimed |
| `NetlinkRecovery.Open` | pkg/evpn/owned_netlink.go:153-265 | a pending intent or quarantine refuses; otherwise the claims are those of the last durable state and, without foreign writers, every slot is as recorded and no remote-looking entry is unclaimed |
| `NetlinkRecovery.BlockedOrValid` | pkg/evpn/remote_recovery.go:45-106 | every disk state a crash can leave blocks on reopening or passes receipt validation |
| `NetlinkRecovery.Conservation` | pkg/evpn/owned_netlink.go:536-649 | without foreign writers, whenever no intent is pending, blocked or not, the entries created and not deleted are exactly the observed tuples of the confirmed receipts in memory; each of them is alone in its slot at all times |
| `NetlinkRecovery.DurableConservation` | pkg/evpn/owned_netlink.go:536-649 | the same for every record a crash can leave on disk without a pending intent, quarantined or not |
| `NetlinkDesired.BuildDesired` | pkg/evpn/remote_netlink_import.go:62-109 | refuses exactly the snapshots with an invalid endpoint, unsupported evidence, an unmapped network or a shared slot; otherwise one route per endpoint |
| `NetlinkImport.InstallableIff` | pkg/evpn/remote_netlink_import.go:62-109 | a snapshot can be installed exactly when every endpoint is validated, numbered, keyed, supported and has devices, and no two share a MAC on one tunnel device or an IP on one bridge |
| `NetlinkImport.RemoteImporter.Restore` | pkg/evpn/remote_recovery.go:319-358 | the importer starts exactly when the policy still supports every recovered receipt, with the receipts as active routes |
| `NetlinkImport.RemoteImporter.WithdrawStale` | pkg/evpn/remote_netlink_import.go:119-137 | after the withdrawals every active route is wanted as it is; one that had no receipt was not retiring and is still wanted; a retiring one without a receipt makes it fail and stays |
| `NetlinkImport.RemoteImporter.Install` | pkg/evpn/remote_netlink_import.go:53-166 | success leaves the kernel with everyone else's entries unchanged plus exactly one entry per endpoint on the tunnel device of its network (family bridge, its MAC behind its VTEP, permanent, no ARP, on the device itself, externally learned) and one per endpoint with an IP on the bridge (its IP at its MAC, no ARP, externally learned), and every active route that had no receipt was not retiring and is still wanted; a retiring route without a receipt makes every call fail and stays; refused snapshots change nothing; generations never go back |
| `NetlinkImport.StuckRun` | pkg/evpn/remote_netlink_import.go:119-160 | one cancelled installation and a snapshot without its endpoints leave such a route; no later snapshot succeeds |
| `NetlinkImport.ReconcileValidated` | pkg/evpn/remote_netlink_import.go:39-51 | success means the RIB was read twice with equal content and the kernel holds exactly the normal form of the paths just read; any other poll freezes the kernel; a reader in step with the writer stays so, and then the writer takes over an authoritative snapshot exactly when every endpoint has devices and every route a source |
| `NetlinkImport.ConfirmedIsInstallable` | pkg/evpn/remote_netlink_import.go:62-109 | under a configuration with devices of its own for every network, a snapshot that polling confirms passes all installation checks exactly when every endpoint's network has devices, its routes name their sources and the generation is not zero |
| `NetlinkImport.PublishedIsAccepted` | pkg/evpn/remote_netlink_import.go:53-110 | what a reader in step publishes is never stale for the writer and has a generation whenever it has endpoints, so only a missing device mapping or an unnamed source refuses it |
| `NetlinkImport.AnyImportRun` | pkg/evpn/remote_netlink_import.go:53-166 | any polls, rebinds, cancellations, kernel answers, failed writes, crashes and restarts: the durable record always fits the kernel, no one else's entry ever changes, ours change only in a poll that repeats the reading of the poll right before it, so not before two equal readings after a restart, and an authoritative poll is refused only for an endpoint without devices or a route without a source |
| `CNIAcks.EveryAckSound` | pkg/nodeagent/cni_continuity.go:171-223 | in every history each acknowledgement passes validation apart from the time of activation |
| `CNIAcks.ValidatesIff` | pkg/nodeagent/cni_continuity.go:171-223 | validation accepts an acknowledgement exactly when key, spec and receipt agree, an admission is for the receipt's namespace, a pending one has a window of at most two minutes and an activation under an admission was stamped inside it |
| `CNIAcks.RecoverableIffInTime` | pkg/nodeagent/cni_continuity.go:171-223 | a stored acknowledgement is accepted by a restart exactly when an activation was stamped inside its window |
| `CNIAcks.LateActivation` | pkg/nodeagent/cni_activation.go:63-90 | a legal run whose activation rests on a verdict in time and is stamped after the deadline, leaving an acknowledgement that validation refuses |
| `CNIAcks.CrashedDecisionIsDroppable` | pkg/nodeagent/cni_continuity.go:116-133 | a crash inside a verification never blocks recovery |
| `CNIAcks.LifeCycle` | pkg/nodeagent/cni_continuity.go:266-486 | every durable step moves each endpoint only along creation, decision and deletion |
| `CNIAcks.QuarantineLeadsOnlyToDeletion` | pkg/nodeagent/cni_activation.go:46-90 | over any run a quarantined endpoint stays exactly as it is until it is deleted |
| `CNIAcks.ActivationHasOrigin` | pkg/nodeagent/cni_activation.go:46-90 | an endpoint created under an authority is active only after a decision on exactly its pending form |
| `CNIAcks.ActivationHasVerdict` | pkg/nodeagent/cni_activation.go:46-90 | every such activation rests on a verdict reached while that pending form was on disk |
| `CNIAcks.CreationHasAbsence` | pkg/nodeagent/cni_continuity.go:348-359 | every acknowledgement was created under an intent begun only after its resources and attachment were seen absent |
| `CNIAcks.DeletionHasAbsence` | pkg/nodeagent/cni_continuity.go:448-482 | every deleted acknowledgement rests on the absence of its resources and attachment, seen while its deletion was already intended on disk |
| `CNIContinuity.Server.Ready` | pkg/nodeagent/cni_continuity.go:225-234 | success means memory is the durable state and every record belongs to an active or pending acknowledgement |
| `CNIContinuity.Server.Add` | pkg/nodeagent/cni_continuity.go:266-420 | creates only what was seen absent and is not acknowledged, replays only what is acknowledged with the same spec, refuses quarantined endpoints, any uncertain state and a draining process; the Pod was seen before anything else and once more after a creation, the authority admitted the acknowledged namespace both times, the switch of an earlier acknowledgement is unchanged, the resources were seen as acknowledged, and a replayed active endpoint was seen running |
| `CNIContinuity.Server.Del` | pkg/nodeagent/cni_continuity.go:431-486 | removal marks exactly the acknowledged endpoint deleted, durably, after its resources were seen as acknowledged and then, with the intent on disk, seen absent; unknown and stale requests change nothing |
| `CNIContinuity.Server.Decide` | pkg/nodeagent/cni_activation.go:50-71 | activation and a verdict exactly for a workload seen running with matching resources in this pass, before the deadline at both readings; only an unclear workload before the deadline decides nothing |
| `CNIContinuity.Server.VerifyPending` | pkg/nodeagent/cni_activation.go:36-91 | success leaves nothing pending and every other endpoint untouched, and each activated endpoint has a verdict of this call on its pending form; a draining process changes nothing |
| `CNIContinuity.Server.CheckEndpoint` | pkg/nodeagent/cni_continuity.go:248-264 | success only for an active durable endpoint seen alive and matching |
| `CNIContinuity.Server.ValidateContinuity` | pkg/nodeagent/cni_continuity_export.go:22-50 | passes only with nothing pending or quarantined; records are dropped only for Pods seen deleted, the rest were seen alive and matching |
| `CNIContinuity.Server.FindBacking` | pkg/nodeagent/cni_continuity_export.go:73-112 | success exhibits an acknowledgement with a record that names the endpoint and has its incarnation, MAC and addresses; failure means none names it, or one that does lacks its record or differs |
| `CNIContinuity.Server.Gate` | pkg/nodeagent/cni_continuity_export.go:63-114 | every endpoint let through has an active durable acknowledgement of its network, by its ID in the same incarnation or by its port UUID, with a live record and an equal MAC; it is MAC-only without IPs, or its IPs are the acknowledged addresses one by one; and nothing is pending or quarantined |
| `CNIContinuity.Server.ExportAdd` | pkg/nodeagent/export_continuity.go:36-46 | the applier receives an Add only while nothing is pending or quarantined on disk and such an acknowledgement, seen running and matching in this very call, stands behind the endpoint |
| `CNIContinuity.Server.ExportDelete` | pkg/nodeagent/export_continuity.go:48-51 | a withdrawal is passed on whatever the state of the endpoints |
| `CNIContinuity.Recover` | pkg/nodeagent/cni_continuity.go:94-169 | a crash inside ADD or DEL and any acknowledgement validation refuses make every restart fail; otherwise memory is the durable state before any interrupted verification, with records exactly for pending and live active endpoints |
| `CNIContinuity.EveryActivationFounded` | pkg/nodeagent/cni_activation.go:46-90 | for every record ever on disk: an endpoint active under an authority was pending at an earlier record, and a verification of exactly that acknowledgement saw the workload running and the resources matching in one pass, before the deadline at both readings |
| `CNIContinuity.EveryChangeVacated` | pkg/nodeagent/cni_continuity.go:348-482 | for every record ever on disk: an acknowledged endpoint was seen absent before its creation was intended, and a deleted one again after its deletion was intended |
| `CNIContinuity.AnyCNIRun` | pkg/nodeagent/cni_continuity.go:94-486 | any calls, observations, failed writes, drains, crashes and restarts: the history stays legal, every activation ever on disk rests on a verdict, every creation and deletion on an absence, and for every Add the applier ever received an acknowledgement as required by the gate was on disk at that moment |
| `Model1Tunnels.Compact` | pkg/evpn/ovsdb_programmer.go:295-306 | on a sorted list leaves each value once, in order |
| `Model1Tunnels.EndpointOkIff` | pkg/evpn/ovsdb_programmer.go:175-199 | an endpoint passes exactly when it is validated, of the one network and VNI, keyed, addressed and supported by the policy |
| `Model1Tunnels.BuildTunnels` | pkg/evpn/ovsdb_programmer.go:169-248 | refuses exactly the snapshots with an invalid endpoint, a MAC or IP conflict or several VTEPs; otherwise one tunnel that lists "MAC IP" for each endpoint with an IP and "MAC" for the others, sorted and once |
| `Model1Tunnels.TunnelUnique` | pkg/evpn/ovsdb_programmer.go:169-248 | the tunnel does not depend on the order of the endpoints |
| `Model1Handler.Handler.Reconcile` | pkg/evpn/ovsdb_programmer.go:157-283 | succeeds exactly when the snapshot is current and programmable and every call works; whatever fails in between, at most one tunnel is active and an active tunnel has its network; success leaves the snapshot's tunnel active, and installed alone exactly when no other tunnel was installed without being active; refused snapshots change nothing |
| `Model1Handler.AnyHandlerRun` | pkg/evpn/ovsdb_programmer.go:157-283 | over any snapshots and failures that stays so, accepted generations never decrease, and a tunnel installed without being active stays so until a snapshot that can be accepted asks for it |
| `Model1Handler.LeftBehind` | pkg/evpn/ovsdb_programmer.go:157-283 | a creation that takes effect with an error, then an empty snapshot: the second call succeeds with no tunnel active and the first one installed |
| `BridgeMappings.AcceptedIff` | pkg/evpn/ovsdb_provider_bridge.go:656-672 | entries are accepted exactly when all are valid and no two name one physical network |
| `BridgeMappings.CollectNames` | pkg/evpn/ovsdb_provider_bridge.go:656-672 | the result maps exactly what the entries name |
| `BridgeMappings.EntryIff` | pkg/evpn/ovsdb_provider_bridge.go:26-40 | an entry parses exactly when it is a network, a colon and a bridge, neither blank, without separators or white space, the bridge of at most 15 characters and none of `.`, `..` and `br-int` |
| `BridgeMappings.Parse` | pkg/evpn/ovsdb_provider_bridge.go:656-672 | the loop computes the specified parse |
| `BridgeMappings.Format` | pkg/evpn/ovsdb_provider_bridge.go:674-685 | the loop computes the specified text, in key order |
| `BridgeMappings.RoundTrip` | pkg/evpn/ovsdb_provider_bridge.go:656-685 | parsing the printed form of any valid mappings gives them back |
| `BridgeMappings.ReprintKeepsMeaning` | pkg/evpn/ovsdb_provider_bridge.go:656-685 | printing a parsed value again keeps its meaning |
| `BridgeMappings.EnsureRefusedIff` | pkg/evpn/ovsdb_provider_bridge.go:387-446 | ensuring is refused exactly when the stored value does not parse, the network has another bridge, the bridge another network, or the mapping another owner |
| `BridgeMappings.EnsureMeaning` | pkg/evpn/ovsdb_provider_bridge.go:387-414 | ensuring adds exactly the configured mapping and records ownership only when it added it |
| `BridgeMappings.DeleteRefusedIff` | pkg/evpn/ovsdb_provider_bridge.go:448-469 | deleting is refused exactly when the mapping has another owner, or is ours and the stored value does not parse or maps the network to another bridge |
| `BridgeMappings.DeleteMeaning` | pkg/evpn/ovsdb_provider_bridge.go:448-483 | deleting touches nothing without recorded ownership, otherwise removes exactly the mapping and the record |
| `BridgeMappings.EnsureThenDelete` | pkg/evpn/ovsdb_provider_bridge.go:362-483 | every other mapping stays; the configured one survives exactly when it was there before without our ownership |
| `BridgeMappings.RootRow.EnsureMapping` | pkg/evpn/ovsdb_provider_bridge.go:362-414 | the row is unchanged or exactly as ensured; success means the latter, a refusal the former |
| `BridgeMappings.RootRow.DeleteMapping` | pkg/evpn/ovsdb_provider_bridge.go:448-483 | the row is unchanged or exactly as deleted; success means the latter, a refusal the former |

## Left out

- File, lock, inode, permission, checksum and JSON details of the journal: only old-or-new on disk and the permanent block remain.
- BGP encoding and decoding, GoBGP attribute types and `DecodeRemoteType2`: decoded routes and arbitrary codec functions are inputs.
- Netlink sockets, link event channels, OVSDB transactions beyond one row, gRPC, Kubernetes and container runtimes: environment objects with arbitrary answers.
- The kernel writer without a journal and the legacy importer: only the journalled mode is modelled.
- The importer's marker file: a check that may fail, without its contents; the retirement log of the last 64 withdrawals is not kept.
- Device identity beyond name, index, kind, master and VNI, and link events: any change is a failing check.
- NetlinkBackend.Backend.Apply: that no other receipt claims the route's slots, that the key is the digest of the endpoint and that the route is not newer than the snapshot are required of the caller; the fields that carry a route's proof are private to the package and only the importer fills them in, which is where `RemoteImporter.Install` establishes all three.
- NetlinkRecovery.Open: devices are looked up before the tables are listed instead of network by network, which only affects which refusal comes first.
- Kernel slot names of the importer are tuples of device, kind and address rather than strings joined by slashes.
- Wrap-around of 64-bit generations; sequence numbers and incarnations stop at the largest value as in the code.
- Wall clocks are arbitrary readings; nothing orders two readings.
- ExportRecoveryModel.ExportRecovery.Recover: the order of the returned routes is that of the receipts, not sorted by UUID.
- Serialization failures of an NLRI are folded into missing bytes.
- Liveness: apart from the exact success conditions and `Converge` above, nothing says that a call succeeds when the environment cooperates.
- CNIContinuity.Server.Add: request decoding, node claims and the tests of spec against request are one arbitrary predicate on key, spec and receipt; which of the Pod check, the creation check and the running check is made without an authority depends on the verifier; all are one kind of sighting.
- Bridge names are measured in characters, the code counts bytes.
- The localnet port, provider bridge creation and the remaining OVSDB rows of the handler: one flag for the network and one map of tunnels.
- `pkg/attachment`, the operator controller, the CNI plugin binary, attestation of callers and speakers, and the local OVN observer: they keep none of the ownership state modelled here.
