# BBSim: a verified model of the emulated OLT

BBSim emulates a PON access device, an OLT with PON ports, ONUs, UNIs and services, for
VOLTHA.  This project models its state machines and resource tables in Dafny and proves
what holds of them over every run.

`dafny verify dfyconfig.toml` checks the whole project.

## How it is built

The specification is a state machine over values.  `FlowTables` has the five-level GEM port
and alloc id tables of the OLT with the loops that fill, search and prune them; a table is
read through its flattening, the relation of its (PON, ONU, port, id, flow) entries.
`OnuModel` has one ONU with the tables of its PON port: life cycle with enter callbacks,
message channel, OMCI requests.  `DeviceModel` puts PON ports and the OLT around it; its
`Step` takes one call of any entry point, and `Trace` holds of the states along a sequence of
calls.

On this machine stand the run theorems: `ResourceRuns` (exclusivity, reference counting,
registration), `FlowIndex` (flow keys against stored flows), `ChannelProtocol` (closing of
ONU channels), `OnuIds` (ONU-ID table against ONU states), `PonTableRuns` (the other tables of
a PON against ONU states) and `PonRoundTrip`.  `FlowOutcomes`, `Registrations`, `OnuLifecycle`
and `PonOwners` say what the calls come to without the functions of the machine, by the fields of
a call, tables of states and the entries of tables, and from that which entries, ids and owners
any run has left.  `OmciRuns`
has the response rate, MIB data sync and software download of one ONU over its own requests;
`ImageRuns` says how each request is answered and what a whole software upgrade leaves;
`DeviceOmci` shows that every ONU of a device goes through such a run and restates the
theorems for devices.  `DeviceUnis` does the same for the UNI ports and services of
`UniServices`.  `RunTheorems` puts the run theorems together.  `Scenarios` has runs
of a created device in which a promise fails.

`OnuDevices` and `OltDevices` are the program's objects, with fields updated in place and
the program's loops.  Every method equates the value of the objects afterwards with the
step of the model applied to their value before.  `Replay` says this for whole sequences of
calls and concludes everything in `RunTheorems` of the objects.

`TransactionIds`, `PonsConfig`, `VlanTags`, `Identity`, `UniServices` with `ServiceRuns`, and
`DmiInventory` are separate parts: transaction ids, PON range configuration, tag allocation,
identities and look-ups, UNI and service state machines, and the device management inventory.

## What is assumed

- FlowAdd is one step.  The code validates and stores under separate locks, so two
  interleaved calls could both pass the validation.
- A serial number object stands for the position of its ONU on the PON.
- What would stop the process is recorded instead: a nil map write or nil dereference, a
  send on or close of a closed channel (the status reports of ports apart from all others), a
  slice past the image data.  A send on a nil channel blocks for ever and delivers nothing.
- Response building, parsing and the checksum of OMCI are inputs: a request carries whether
  its response can be built and whether its body parses, and the checksum, in network
  byte order, is a parameter.
- Name based UUIDs of different names differ.
- Slicing the image data past its length is taken to fail; Go looks at the capacity.

Where code and documentation disagree, the model follows the code.  The comment of
validateFlow promises exclusivity per UNI, the code gives it per ONU
(`PutKeepsPortExclusiveIff`); section 9.1.3 of ITU-T G.988 wraps the MIB data sync from 255
to 1, the code to 0 (`SkipsZeroIff`).

## Model

| member | source | states |
|---|---|---|
| `FlowTables.FreeInTable` | internal/bbsim/devices/olt.go:1940-1980 | the nested loops that delete while they iterate drop exactly the (PON, ONU, port, id, flow) entries of the flow id, for every iteration order |
| `FlowTables.FreeInId` | internal/bbsim/devices/olt.go:1863-1872 | visiting the flows of one id in any order while deleting removes the id exactly when the flow was its only reference |
| `FlowTables.StoreGems` | internal/bbsim/devices/olt.go:1912-1938 | all GEM ports of a flow are stored, or none: it fails exactly for an unregistered ONU and a flow with at least one GEM port |
| `FlowTables.StorePbits` | internal/bbsim/devices/olt.go:1923-1929 | the loop over the p-bit map stores every GEM port of a replicated flow, in any order |
| `FlowTables.StoreId` | internal/bbsim/devices/olt.go:1878-1910 | storing one id creates the missing levels and adds one reference, nothing else |
| `FlowTables.FindConflict` | internal/bbsim/devices/olt.go:1985-2026 | the validation loops find a conflict exactly when another ONU id of the same PON lists one of the ids |
| `FlowTables.PutLists` | internal/bbsim/devices/olt.go:1878-1910 | exactly which ids are in use and which entries are held after a store |
| `FlowTables.FreeUndoesPut` | internal/bbsim/devices/olt.go:1940-1980 | removing a flow id the table did not know restores the flattened table after any store under it |
| `FlowTables.ListedIffReferenced` | internal/bbsim/devices/olt.go:1970-1973 | an id is in use exactly when a live flow references it |
| `FlowTables.FreeKeepsCounted` | internal/bbsim/devices/olt.go:1970-1973 | freeing never leaves an id with an empty flow set |
| `FlowTables.PutKeepsExclusiveIff` | internal/bbsim/devices/olt.go:1985-2026 | storing ids keeps a table exclusive per ONU if and only if the validation finds no conflict |
| `FlowTables.PutKeepsPortExclusiveIff` | internal/bbsim/devices/olt.go:1982-1992 | exclusivity per port, which the comment of validateFlow promises, is kept if and only if no other port of the PON lists an id, also on the own ONU |
| `ResourceRuns.RunKeepsGoodTables` | internal/bbsim/devices/olt.go:1985-2046 | in every state of every run of all entry points: no GEM port and no alloc id under two ONU ids of a PON, every id in use referenced by a flow, both tables register the same ONUs and every PON unless a reboot is under way |
| `ResourceRuns.NewOltGoodTables` | internal/bbsim/devices/olt.go:229-235 | the created device has good tables |
| `ResourceRuns.ReachableExclusive` | internal/bbsim/devices/olt.go:1985-2026 | in no reachable state do two entries of a PON share an id on different ONUs |
| `ResourceRuns.StepKeepsGoodTables` | internal/bbsim/devices/olt.go:1112-1336 | every single entry point keeps exclusivity, reference counting and registration agreement |
| `ResourceRuns.RebootRestoresTables` | internal/bbsim/devices/olt.go:2030-2046 | delete followed by initialize gives the freshly created tables and empties the tables of every PON |
| `ResourceRuns.AddFaultsIff` | internal/bbsim/devices/olt.go:1112-1224 | FlowAdd panics in a reachable state exactly for a flow of an ONU that names a missing PON, or that is replicated without GEM ports for an ONU that is not switched off and was never activated, when its alloc id is free |
| `FlowTables.GemsAreNamed` | internal/bbsim/devices/olt.go:1920-1936 | the GEM ports of a flow are the values of its p-bit map, as int32, when it is replicated, and else its one GEM port |
| `FlowOutcomes.AddOutcome` | internal/bbsim/devices/olt.go:1112-1222 | FlowAdd in a reachable state, by the fields of the flow: it is accepted exactly when its ONU is found, takes flows and is registered and no other ONU of the PON uses an id it names; then its entries are those it names and its ONU alone hears of it, else the tables stay |
| `FlowOutcomes.RefusedWhileInUse` | internal/bbsim/devices/olt.go:1985-2026 | while an id is in use a flow of another ONU of the PON that names it changes no table and reaches no ONU |
| `FlowOutcomes.RemoveOutcome` | internal/bbsim/devices/olt.go:1226-1316 | FlowRemove: exactly the entries of the flow id go; the flow is forgotten and its key dropped once exactly when it is one of the device or its ONU is found; the first ONU that took it up hears of it, always in performance mode and else when it is forgotten |
| `FlowOutcomes.HeldIff` | internal/bbsim/devices/olt.go:1878-1980 | in every state of every run a GEM port or alloc id entry is there exactly when an accepted flow named it and since then the flow was not removed, its ONU id not activated again and the device not rebooted |
| `FlowOutcomes.StepEntries` | internal/bbsim/devices/olt.go:1112-1336 | which step puts an entry into a table and which takes it out |
| `FlowOutcomes.RemoveFirstIs` | internal/bbsim/devices/onu.go:1481-1490 | the loop that drops a flow drops its first occurrence only |
| `Registrations.ActivateRegisters` | internal/bbsim/devices/olt.go:934-940 | activating an ONU id registers it without entries in both tables and leaves every other id as it was |
| `Registrations.RegisteredIff` | internal/bbsim/devices/olt.go:934-940 | in every state of every run both tables register exactly the ONU ids activated since they were last cleared |
| `Registrations.StepIds` | internal/bbsim/devices/olt.go:950 | the id of an ONU is the one it was last activated with; no other call changes it |
| `Registrations.EnabledWasActivated` | internal/bbsim/devices/olt.go:952 | an ONU that is past discovery was activated before |
| `Registrations.EnabledIsRegistered` | internal/bbsim/devices/olt.go:934-952 | an ONU that was ever enabled has its present id registered in both tables, unless the device was rebooted after an activation, so that its flows are refused only for an id in use |
| `ResourceRuns.AddIsAllOrNothing` | internal/bbsim/devices/olt.go:1194-1209 | a flow is either stored with all its GEM ports and its alloc id, or leaves both tables untouched |
| `ResourceRuns.RemoveUndoesAdd` | internal/bbsim/devices/olt.go:1112-1315 | FlowAdd then FlowRemove of an unknown flow id restores both flattened tables |
| `FlowIndex.RunKeepsIndexed` | internal/bbsim/devices/olt.go:1125-1188 | over every run with fresh flow ids and no renaming of ONUs that hold flows, every key an ONU holds is stored, held once, and its flow leads back to that ONU |
| `FlowIndex.NewOltIndexed` | internal/bbsim/devices/olt.go:207-256 | the created device is indexed |
| `FlowIndex.KeysAreUnique` | internal/bbsim/devices/olt.go:1186-1187 | no flow key is held by two ONUs |
| `FlowIndex.GetFlows` | internal/bbsim/api/onus_handler.go:590-595 | the listing panics exactly when a key has no flow, never on an indexed device, and FlowCount is the length of the list |
| `FlowIndex.AddKeepsIndexedIff` | internal/bbsim/devices/olt.go:1125-1188 | an accepted FlowAdd keeps the agreement if and only if its flow id is fresh |
| `FlowIndex.ActivateKeepsIndexedIff` | internal/bbsim/devices/olt.go:927-959 | ActivateOnu keeps the agreement if and only if the ONU keeps its id, or holds no flows and takes the id from no later ONU that does |
| `FlowIndex.RemoveForgetsIff` | internal/bbsim/devices/olt.go:1245-1283 | exactly when FlowRemove leaves the stored flow behind |
| `ChannelProtocol.RunKeepsProper` | internal/bbsim/devices/onu.go:313-318 | two rules: no flow addition is pending when an ONU is switched off, and no flow is removed while a removal of it is pending.  In every state of every run that respects them, no ONU channel has been closed twice or sent on after closing by a flow or life cycle operation; closed implies disabled without flow ids; pending removals are distinct and among the flow ids.  With a third rule, no port unlock pending at a switch-off, no port has reported on a closed channel either |
| `ChannelProtocol.NoChannelPanics` | internal/bbsim/devices/onu.go:313-318 | the same said of the recorded panics, from creation |
| `ChannelProtocol.NewOltProper` | internal/bbsim/devices/onu.go:152-180 | the created device respects the protocol |
| `ChannelProtocol.StepKeepsProper` | internal/bbsim/devices/onu.go:1472-1502 | every single entry point keeps the channel protocol |
| `ChannelProtocol.ActFaultsPortIff` | internal/bbsim/devices/uni_port.go:94-124 | under the two rules a port reports on a closed channel exactly when a closed ONU handles a port request that changes the state of a port |
| `ChannelProtocol.StepFaultsPortIff` | internal/bbsim/devices/uni_port.go:94-124 | of all the steps of a device under the two rules, a port of an ONU reports on a closed channel exactly in the one in which that ONU, closed, handles a port request that changes the state of a port |
| `ChannelProtocol.RunFaultsPortIff` | internal/bbsim/devices/uni_port.go:94-124 | along every run under the two rules an ONU has a port that reported on a closed channel exactly when such a step came before |
| `ChannelProtocol.DrainSettles` | internal/bbsim/devices/onu.go:420-460 | what a disabled ONU makes of its pending messages, whatever they are: its flows, its channel, its ports and its request counter |
| `ChannelProtocol.LateAdditionFaultsIff` | internal/bbsim/devices/onu.go:1417 | why the first rule: a closed ONU closes its channel again exactly when one of its pending removals leaves no flow, and the next removal panics exactly for the flows it then has |
| `ChannelProtocol.FlowsWithoutRemovals` | internal/bbsim/devices/onu.go:1417 | without pending removals those flows are the ones it had and all that were pending |
| `ChannelProtocol.SecondRemovalFaultsIff` | internal/bbsim/devices/onu.go:1481-1501 | why the second rule: a disabled ONU with a removal pending that gets a second one for the same flow closes its channel twice exactly when its pending removals are as many as its flows |
| `ChannelProtocol.DrainFaultsPortIff` | internal/bbsim/devices/uni_port.go:94-124 | draining a disabled ONU makes a port report on a closed channel exactly when some message, in its turn, finds the channel closed and changes a port |
| `ChannelProtocol.LateUnlockFaultsIff` | internal/bbsim/devices/onu.go:873-900 | why the third rule: an ONU closed with its ports down makes a port report exactly when it still has an unlock of an existing port that the response rate does not skip |
| `Scenarios.PendingUnlockFaults` | internal/bbsim/devices/uni_port.go:94-108 | a run of a created device that respects the two rules and ends with a port reporting on a closed channel |
| `Scenarios.PendingAdditionFaults` | internal/bbsim/devices/onu.go:1417 | a run of a created device that ends in a panic and breaks the first rule only: an addition is pending when the ONU is switched off |
| `Scenarios.SecondRemovalFaults` | internal/bbsim/devices/onu.go:1481-1501 | a run of a created device that ends in a panic and breaks the second rule only: a flow is removed, added and removed again while its ONU is off |
| `Scenarios.BareFlowFaults` | internal/bbsim/devices/olt.go:1206-1209 | adding a replicated flow without GEM ports to a created device panics |
| `Scenarios.LateCreateStays` | internal/bbsim/devices/onu.go:1001-1014 | a run of a created device that respects the two rules and ends with a GEM port that belongs to a disabled ONU |
| `Scenarios.PortExclusivityFails` | internal/bbsim/devices/olt.go:1990-1992 | a run of a created device in which two flows of one ONU on different ports get the same GEM port |
| `Scenarios.WrapsToZero` | internal/bbsim/devices/onu.go:982-984 | a run of a created device whose MIB data sync goes from 255 to 0 |
| `PonTableRuns.RunTidyIff` | internal/bbsim/devices/onu.go:394-400 | along every run, all GEM ports and alloc ids of all PONs belonged at all times to ONUs that were not switched off, exactly when no switched off ONU handled a request that takes a free GEM port or alloc id |
| `PonTableRuns.StepTidyIff` | internal/bbsim/devices/pon.go:269-345 | a single step leaves such tables tidy exactly when it does not let a switched off ONU handle such a request |
| `PonTableRuns.FireKeepsTidy` | internal/bbsim/devices/onu.go:394-400 | no event of an ONU gives it or another ONU an entry, and an ONU that is switched off has none left |
| `PonTableRuns.AnswerNames` | internal/bbsim/devices/onu.go:938-1042 | after a Create of a free GEM port or a Set of a free T-CONT the ONU has an entry; any other request gives no ONU one, and no request gives another ONU one |
| `PonTableRuns.NewOltTidy` | internal/bbsim/devices/pon.go:69-100 | the tables of a created device are tidy |
| `OnuLifecycle.NewOltIs` | internal/bbsim/devices/olt.go:127-256 | the created device: ONU ids from 1 in order, all ports down, no channels, empty tables, and the image versions |
| `OnuLifecycle.StepStates` | internal/bbsim/devices/onu.go:192-208 | every call on the device moves every ONU as tables of source and target states say: activation, both PON cascades by mode, switch-off, power-on, re-discovery and the image requests |
| `OnuLifecycle.StepPonStates` | internal/bbsim/devices/pon.go:89-93 | every call moves every PON port and the OLT as their tables say |
| `OnuLifecycle.RaiseState` | internal/bbsim/devices/pon.go:95-169 | what enabling a PON does to an ONU, by its state, the mode and whether it is the first time |
| `OnuLifecycle.RaiseCarries` | internal/bbsim/devices/pon.go:95-169 | enabling a PON announces once each ONU it discovers, and each it enables whose id is not in the table, on a new channel where it initializes it |
| `OnuLifecycle.PowerOnCarries` | internal/bbsim/devices/onu.go:710-790 | how many announcements powering an ONU on sends, by its state, and whether on a new channel |
| `OnuLifecycle.RediscoverCarries` | internal/bbsim/devices/onu.go:1850-1885 | the same for re-discovery |
| `OnuLifecycle.EnableOutcome` | internal/bbsim/devices/onu.go:243-265 | enabling records and announces an ONU, unless its id is recorded already |
| `OnuLifecycle.DisableOutcome` | internal/bbsim/devices/onu.go:266-319 | switching an ONU off clears its entries in all three tables and its flows, announces it and each port that was up, takes all ports down, and closes the channel exactly when no flow is left |
| `OnuLifecycle.PonDisableOutcome` | internal/bbsim/devices/onu.go:320-323 | losing the PON clears the entries and flows and leaves ports and channel alone |
| `OnuLifecycle.MessagesOutcome` | internal/bbsim/devices/olt.go:1400-1458 | what OMCI requests, packets and shutdowns put on the channel of an ONU, and when they do not |
| `OnuLifecycle.ProcessOutcome` | internal/bbsim/devices/onu.go:420-460 | messages are handled in the order sent, and what each does to the flows of the ONU |
| `PonOwners.OwnedIff` | internal/bbsim/devices/onu.go:937-1042 | in every state of every run a GEM port or T-CONT belongs to an ONU exactly when the ONU took it with a request that found it free and since then no request gave it back, the ONU was not reset, switched off or cut off with its PON, and the device was not rebooted |
| `PonOwners.StepOwns` | internal/bbsim/devices/pon.go:269-345 | which step makes an ONU the owner of a GEM port or T-CONT and which ends that |
| `PonOwners.DeleteFrees` | internal/bbsim/devices/onu.go:1030-1039 | a Delete that is handled frees the GEM port whoever owns it and nothing else, and a Create of it is not refused then |
| `OnuIds.RunKeepsSound` | internal/bbsim/devices/onu.go:243-268 | in every run that renames no ONU with an entry, each ONU-ID entry names an ONU of the PON with that id that is enabled or in an image state; without reboot and shared live ids every such ONU has its entry |
| `OnuIds.NewOltSound` | internal/bbsim/devices/pon.go:75-86 | the created device has empty tables and no active ONU |
| `OnuIds.InactiveKeepsEntry` | internal/bbsim/devices/olt.go:942-957 | an ActivateOnu call on an ONU that is not enabled or in an image state never renames an ONU with an entry |
| `OnuIds.TableIsActiveOnus` | internal/bbsim/devices/pon.go:239-267 | in those runs an ONU is enabled or in an image state exactly when the ONU-ID table has an entry for it |
| `OnuIds.ActivateLeavesNoStaleIff` | internal/bbsim/devices/olt.go:949-957 | ActivateOnu leaves a stale entry exactly when it renames an ONU that has one |
| `OnuIds.ClearKeepsCompleteIff` | internal/bbsim/devices/olt.go:2041-2045 | clearing the tables in a reboot keeps them complete exactly when no ONU is active |
| `PonRoundTrip.DisableThenEnable` | internal/bbsim/devices/pon.go:94-182 | with all ONUs enabled under distinct recorded ids, disabling moves each to pon_disabled and empties the ONU-ID table and their GEM and T-CONT entries; enabling in Default or OnlyPON mode restores every state and the same ONU-ID table |
| `PonRoundTrip.ControlledModeDoesNotRestore` | internal/bbsim/devices/pon.go:112-125 | in the other two modes the ONUs come back initialized and unrecorded |
| `OmciRuns.ResponseRate` | internal/bbsim/devices/onu.go:830-843 | under any interleaving, n requests of a new ONU give n/10*min(rate,10)+min(n mod 10, rate) processed ones, and any ten consecutive ones exactly min(rate,10) |
| `OmciRuns.SkippedOnlyCounts` | internal/bbsim/devices/onu.go:830-843 | a skipped request changes nothing but the counter and is not answered |
| `OmciRuns.MdsCountsAcks` | internal/bbsim/devices/onu.go:846-1255 | over any whole run of a new ONU the MIB data sync is what its last reset or invalidation set it to, or 0 without one, plus the changes acknowledged since, modulo 256; a reset sets 0, an invalidation something else |
| `OmciRuns.MdsIsAByte` | internal/bbsim/devices/onu.go:1987-1998 | the counter stays below 256 over any run |
| `OmciRuns.SkipsZeroIff` | internal/bbsim/devices/onu.go:982-984 | an acknowledged change avoids 0, as section 9.1.3 of ITU-T G.988 asks, exactly when the counter is not 255 |
| `OmciRuns.CreateRefusedIff` | internal/bbsim/devices/onu.go:988-1027 | a processed GEM create is refused exactly when the port is taken and not the multicast one; a refusal changes neither the counter nor the tables |
| `OmciRuns.TContRefusedIff` | internal/bbsim/devices/onu.go:935-969 | a processed T-CONT set is refused exactly when it allocates and that T-CONT of the ONU has an alloc id; a refusal changes nothing |
| `OmciRuns.GemPortStays` | internal/bbsim/devices/pon.go:270-308 | a GEM port stays with its ONU under every request but its delete and the MIB reset of that ONU |
| `OmciRuns.DownloadCollects` | internal/bbsim/devices/onu.go:1091-1166 | from start until the next start or abort the image data are the accepted sections in order and the received count is their number modulo 2^32 |
| `OmciRuns.FirstSectionNames` | internal/bbsim/devices/onu.go:1125-1128 | the first counted section names the image exactly when it asks for no acknowledgement |
| `OmciRuns.NameIsFixed` | internal/bbsim/devices/onu.go:1125-1128 | the name does not change once a section has been counted |
| `OmciRuns.EndInstallsIff` | internal/bbsim/devices/onu.go:1526-1598 | a processed end of download changes the standby version exactly when it is verified |
| `OmciRuns.VerifiedIff` | internal/bbsim/devices/onu.go:1541-1588 | a whole download is verified exactly when the end does not abort, all announced sections were counted and the checksum of the announced prefix matches |
| `ImageRuns.ReplyIs` | internal/bbsim/devices/onu.go:820-1290 | how each request is answered, by its fields, the tables and the state of the download |
| `ImageRuns.DownloadEnds` | internal/bbsim/devices/onu.go:1164-1200 | the end of a whole download is acknowledged exactly when it stops a running one, or as many sections as announced were counted and the checksum of the announced part of the collected data matches; refused exactly when it cannot be read, sections are missing or the checksum differs; the state that follows, and the standby version |
| `ImageRuns.VersionsOutcome` | internal/bbsim/devices/onu.go:1204-1257 | activate exchanges the active and standby versions, commit makes the committed one standby and the active one committed, a complete download becomes standby, and nothing else changes a version or an image id |
| `ImageRuns.UpgradeCompletes` | internal/bbsim/devices/onu.go:1204-1257 | a complete download, an activation and a commit, with no other such request between them, leave the downloaded version active and committed and the old committed one standby |
| `ImageRuns.UpgradeInstallsName` | internal/bbsim/devices/onu.go:1123-1257 | a whole upgrade from start to commit leaves the first fourteen bytes of the first section as active and committed version |
| `ImageRuns.DownloadIsNamed` | internal/bbsim/devices/onu.go:1123-1126 | the first counted section after a start names the image until the end of the download |
| `ImageRuns.StartOutcome` | internal/bbsim/devices/onu.go:1093-1095 | a start empties the download and fixes the expected sections |
| `ImageRuns.StopOutcome` | internal/bbsim/devices/onu.go:1548-1556 | stopping a download sets the count back and nothing else |
| `ImageRuns.LockOutcome` | internal/bbsim/devices/onu.go:928-935 | the administrative lock is the one of the last Set |
| `ImageRuns.SpoilOutcome` | internal/bbsim/devices/onu.go:1987-1998 | an invalidation moves the MIB data sync on by one to ten, past 0 |
| `OmciRuns.PresentKeptIff` | internal/bbsim/devices/onu.go:1202-1255 | an input keeps the committed image active or standby exactly unless it installs over it between Activate and Commit |
| `OmciRuns.RunKeepsPresent` | internal/bbsim/devices/onu.go:1202-1255 | in every run that installs downloads only while the active image is committed, the committed version is always active or standby |
| `OnuModel.OmciKeeps` | internal/bbsim/devices/onu.go:820-1313 | no OMCI request changes the id, the flows or the ONU-ID entry of an ONU, nor moves it out of the active states |
| `DeviceOmci.OnuGoesThrough` | internal/bbsim/devices/onu.go:420-460 | along every run of a device each ONU goes through a run of requests and other inputs, so what is proved of those holds of it |
| `DeviceOmci.StepKeepsOmci` | internal/bbsim/devices/onu.go:820-1313 | no step of the device touches the OMCI state of an ONU but its own requests and the invalidation of its counter |
| `DeviceOmci.DeviceResponseRate` | internal/bbsim/devices/onu.go:830-843 | the response rate for every ONU of a created device, whatever the device does in between |
| `DeviceOmci.DeviceMds` | internal/bbsim/devices/onu.go:846-1255 | the MIB data sync of every ONU after every run of a created device |
| `DeviceOmci.DeviceKeepsPresent` | internal/bbsim/devices/onu.go:1202-1255 | no ONU of a created device loses its committed image while downloads are installed only with the active image committed |
| `TransactionIds.Generator.Next` | internal/bbsim/devices/onu.go:1625-1641 | one call returns the current id of its class and advances only that class, with uint16 wrap-around |
| `TransactionIds.ClosedForm` | internal/bbsim/devices/onu.go:1625-1641 | under any interleaving the k-th normal id is 1 + k mod 32767 and the k-th high priority id 0x8000 + k mod 32768 |
| `TransactionIds.IdsRepeatIff` | internal/bbsim/devices/onu.go:1625-1641 | ids stay in the range of their class and two are equal exactly a multiple of the full period apart (section 11.2.1 of ITU-T G.988) |
| `PonsConfig.Validate` | internal/common/options.go:552-600 | accepted if and only if there are PON ports, technologies and limits are valid, and the ranges partition 0..number-1 |
| `PonsConfig.MarkPorts` | internal/common/options.go:569-578 | the uint32 loop over a range ends also for the end id 2^32-1 and counts each port |
| `PonsConfig.GetPonConfigById` | internal/common/options.go:153-165 | the first covering range; after a successful validation it is found exactly for ids below number, and is the only one |
| `PonsConfig.DeviceInfoRanges` | internal/bbsim/devices/olt.go:1351-1355 | with a valid configuration the loops end and list each PON id exactly once |
| `PonsConfig.DefaultValidIff` | internal/common/options.go:474-500 | the default configuration is valid exactly when the counts are positive and neither id range wraps below its start |
| `PonsConfig.DefaultRanges` | internal/common/options.go:474-500 | the default ranges where nothing overflows |
| `PonsConfig.DefaultValidWithoutOverflow` | internal/common/options.go:474-500 | positive counts whose products fit give a valid default |
| `VlanTags.CreateTags` | internal/bbsim/devices/olt.go:207-256 | the creation loops succeed exactly when every incremented tag stays at most 4096 and no ONU has more than four UNIs; the tags are the closed form, also where services share a name |
| `VlanTags.Allocator.NewUni` | internal/bbsim/devices/uni_port.go:69-194 | one UNI: error cases, tags of all its services and the maps handed to the next UNI |
| `VlanTags.Allocator.NewOnu` | internal/bbsim/devices/onu.go:347-358 | the loop over the UNIs of an ONU continues the numbering |
| `VlanTags.NextTag` | internal/bbsim/devices/uni_port.go:133-174 | one tag: fatal exactly when an incremented unique tag exceeds 4096; a configured base is never checked |
| `VlanTags.TagClosedForm` | internal/bbsim/devices/uni_port.go:133-174 | with distinct names a unique tag is base plus the number of the UNI, a shared one the base |
| `VlanTags.CreatedTags` | internal/bbsim/devices/uni_port.go:133-174 | with distinct names a service of a UNI has its configured tags, plus the number of the UNI where the allocation is unique |
| `VlanTags.UniqueTagsDiffer` | internal/bbsim/devices/uni_port.go:133-174 | a unique tag of a service differs between any two UNIs of the OLT |
| `VlanTags.CreationSucceedsIff` | internal/bbsim/devices/uni_port.go:133-174 | with distinct names the whole OLT is created exactly when there are at most four UNIs per ONU and the last UNI fits |
| `Identity.OnuSnToString` | internal/common/helpers.go:26-32 | the loop renders the vendor id followed by two hexadecimal digits per byte |
| `Identity.HexInjective` | internal/common/helpers.go:26-32 | the rendering is injective |
| `Identity.SerialReadsBack` | internal/bbsim/devices/onu.go:599-604 | reading the digits of a serial number gives OLT, PON and ONU back, each modulo 256 |
| `Identity.MacReadsBack` | internal/bbsim/devices/uni_port.go:176 | reading the digits of a hardware address gives OLT, PON, ONU, UNI and service back |
| `Identity.SerialsDifferIff` | internal/bbsim/devices/onu.go:599-604 | serial numbers tell all ONUs apart if and only if there are at most 256 PONs and 256 ONUs per PON |
| `Identity.MacsDifferIff` | internal/bbsim/devices/uni_port.go:176 | MAC addresses tell all services apart if and only if no count exceeds 256 |
| `Identity.CreateOlt` | internal/bbsim/devices/olt.go:207-256 | serial numbers and MAC addresses are fixed by the creation loops from the initial ids |
| `Identity.Olt.FindOnuBySn` | internal/bbsim/devices/olt.go:880-892 | finds exactly the ONU created with the serial number, whatever ids the ONUs have now |
| `Identity.Olt.FindServiceByMacAddress` | internal/bbsim/devices/olt.go:911-924 | finds exactly the service created with the MAC address |
| `Identity.Olt.GetOnuBySn` | internal/bbsim/devices/pon.go:208-215 | the search of one PON by vendor specific bytes is exact with at most 256 ONUs |
| `Identity.Onu.FindService` | internal/bbsim/devices/onu.go:1894-1906 | a service of the ONU with the MAC address is found if there is one |
| `Identity.Onu.FindInUni` | internal/bbsim/devices/uni_port.go:306-314 | the first service of the UNI with the MAC address |
| `DeviceUnis.StepPorts` | internal/bbsim/devices/onu.go:289-312 | a step of the device changes a port exactly by the calls it makes on it: a switch-off disables every port, a handled port request enables or disables its port, nothing else does |
| `DeviceUnis.PortFollows` | internal/bbsim/devices/onu.go:869-899 | along every run of the device each of its ports is up exactly when the UNI is that goes through these calls, with any operations on its services in between |
| `DeviceUnis.DeviceLockstep` | internal/bbsim/devices/uni_port.go:87-131 | after every run of a created device a service is initialized and has both channels exactly when its port of the device is up |
| `DeviceUnis.OffServices` | internal/bbsim/devices/onu.go:289-299 | while an ONU is disabled none of its services is initialized, has a channel or is in the middle of DHCP or authentication, in every run in which no port unlock is pending at a switch-off |
| `UniServices.RunKeepsLockstep` | internal/bbsim/devices/uni_port.go:87-131 | in every run of UNI and service operations each service is initialized, and has both channels, exactly when its UNI is up; no nil channel is ever closed |
| `UniServices.UpIffAllInitialized` | internal/bbsim/devices/uni_port.go:213-222 | a UNI with services is up exactly when all of them are initialized |
| `UniServices.StuckIff` | internal/bbsim/devices/services.go:331-430 | after any run, an action sends on a missing channel exactly when it is a matching trap flow for a UNI that is down |
| `UniServices.RestartStarts` | internal/bbsim/api/onus_handler.go:499-507 | RestartDhcp never sends on a missing channel and starts DHCP on exactly the services that need it and can start |
| `UniServices.DisableForgets` | internal/bbsim/devices/services.go:150-164 | disabling resets a service to its created state; enabling again makes it as good as new |
| `ServiceRuns.TrapDhcpStarts` | internal/bbsim/devices/services.go:369-440 | a DHCP trap flow starts DHCP on exactly the services with its tag, outer for the management service and else inner, and its priority that need DHCP and are not in the middle of it; on a UNI that is down the start blocks |
| `ServiceRuns.TrapEapolStarts` | internal/bbsim/devices/services.go:340-367 | the same for the authentication trap flow |
| `ServiceRuns.GemIsLast` | internal/bbsim/devices/uni_port.go:270-289 | after every run a service has the GEM port of the last flow that was for it, or 0 when there was none since its UNI was disabled |
| `ServiceRuns.RankStep` | internal/bbsim/devices/services.go:171-232 | an exchange goes on exactly by its next message, ends by its timeout or with the UNI, and begins only by a trap flow or restart on a UNI that is up |
| `ServiceRuns.ExchangeInOrder` | internal/bbsim/devices/services.go:171-232 | after every run a service has gone through the messages of DHCP and of authentication in their order as far as its state says, since the exchange last began |
| `UniServices.GroupAddressIff` | internal/bbsim/devices/services.go:682-694 | after every run a service has a group address with a tag exactly when the last operation on that address, or disabling of its UNI, was a join with that tag |
| `UniServices.ReportsAlternate` | internal/bbsim/devices/uni_port.go:94-125 | a UNI reports unlocked and locked in turn, beginning with unlocked, and last what it is now |
| `UniServices.UniPort.Enable` | internal/bbsim/devices/uni_port.go:213-215 | the event and the loop that initializes the services |
| `UniServices.UniPort.Disable` | internal/bbsim/devices/uni_port.go:217-222 | the event and the loop that disables the services; already down is no error |
| `UniServices.UniPort.HandleDhcpFlow` | internal/bbsim/devices/uni_port.go:264-268 | the loop over the services for a DHCP trap flow |
| `UniServices.UniPort.HandleAuthFlow` | internal/bbsim/devices/uni_port.go:258-262 | the loop over the services for an EAPOL trap flow |
| `UniServices.UniPort.AddGemPortToService` | internal/bbsim/devices/uni_port.go:270-304 | which services take over the GEM port of a flow |
| `UniServices.UniPort.RestartDhcpHere` | internal/bbsim/api/onus_handler.go:499-507 | one round of the loop over the UNIs |
| `UniServices.Service.DoHandleDhcp` | internal/bbsim/devices/services.go:369-430 | which DHCP trap flows start DHCP on a service |
| `UniServices.Service.DoDisable` | internal/bbsim/devices/services.go:150-164 | the disable callback of a service |
| `DmiInventory.RunKeepsAgree` | internal/bbsim/dmiserver/dmi_hw_mgmt.go:390-529 | through any run of start, stop, plug-in and plug-out the managed tree equals the one rebuilt from the current flags |
| `DmiInventory.NewAgrees` | internal/bbsim/dmiserver/dmi_api_server.go:63-68 | the server as started agrees |
| `DmiInventory.PluggedIffInCage` | internal/bbsim/dmiserver/dmi_hw_mgmt.go:115-140 | after any run a transceiver is plugged in exactly when its cage holds exactly one component with its UUID |
| `DmiInventory.TreeIs` | internal/bbsim/dmiserver/dmi_hw_mgmt.go:105-189 | after any run the tree has the cage of every transceiver in order, each with its transceiver and ports exactly when it is plugged in, and then the seven fixed components |
| `DmiInventory.TechnologyIs` | internal/bbsim/dmiserver/dmi_hw_mgmt.go:191-274 | after any run a managed device has recorded the technology of every plugged in transceiver |
| `DmiInventory.ChildFollows` | internal/bbsim/dmiserver/dmi_hw_mgmt.go:606-616 | in the order of the search the first child of a component comes right after it |
| `DmiInventory.FoundFirst` | internal/bbsim/dmiserver/dmi_hw_mgmt.go:582-598 | the search finds the first component with the UUID |
| `DmiInventory.TransceiverCount` | internal/bbsim/dmiserver/dmi_hw_mgmt.go:600-616 | the transceivers found in the tree are as many as are plugged in |
| `DmiInventory.OutThenIn` | internal/bbsim/dmiserver/dmi_hw_mgmt.go:390-497 | plugging out and in again succeeds and restores flags and tree |
| `DmiInventory.PlugOutKeepsAgree` | internal/bbsim/dmiserver/dmi_hw_mgmt.go:390-445 | every answer of plug-out, and that the tree keeps agreeing |
| `DmiInventory.PlugInKeepsAgree` | internal/bbsim/dmiserver/dmi_hw_mgmt.go:447-497 | every answer of plug-in, and that the tree keeps agreeing |
| `DmiInventory.FindComponents` | internal/bbsim/dmiserver/dmi_hw_mgmt.go:606-616 | appends the pre-order filter of the forest to the collector |
| `DmiInventory.FindComponentsOfType` | internal/bbsim/dmiserver/dmi_hw_mgmt.go:600-604 | the pre-order filter of the forest |
| `DmiInventory.FindComponent` | internal/bbsim/dmiserver/dmi_hw_mgmt.go:582-598 | the first component with the UUID in pre-order |
| `DmiInventory.Server.StartManagingDevice` | internal/bbsim/dmiserver/dmi_hw_mgmt.go:86-189 | builds one cage per transceiver and the fixed components |
| `DmiInventory.Server.StopManagingDevice` | internal/bbsim/dmiserver/dmi_hw_mgmt.go:500-529 | drops the tree and keeps the transceivers |
| `DmiInventory.Server.PlugoutTransceiver` | internal/bbsim/dmiserver/dmi_hw_mgmt.go:390-445 | the guards, the labelled search loops and the removal |
| `DmiInventory.Server.PluginTransceiver` | internal/bbsim/dmiserver/dmi_hw_mgmt.go:447-497 | the guards, the search and the insertion |
| `DmiInventory.Server.GetTransceiverWithId` | internal/bbsim/dmiserver/dmi_transceiver.go:62-70 | the first transceiver with the id |
| `DmiInventory.Server.constructor` | internal/bbsim/dmiserver/dmi_api_server.go:63-68 | one plugged-in transceiver per PON |
| `DmiInventory.Transceiver.constructor` | internal/bbsim/dmiserver/dmi_transceiver.go:51-60 | a new transceiver is plugged in |
| `DmiInventory.Transceiver.CreateComponent` | internal/bbsim/dmiserver/dmi_hw_mgmt.go:191-274 | the component with its ports, the technology, and failure without PONs |
| `RunTheorems.RunKeeps` | internal/bbsim/devices/olt.go:127-271 | all run theorems for the last state of a run of a created device, each under its own condition on the run |
| `OltDevices.Replay` | internal/bbsim/devices/olt.go:127-271 | a device object on which any sequence of calls is made goes through the states of the model, so all run theorems hold of it |
| `OltDevices.OltDevice.Perform` | internal/bbsim/devices/olt.go:927-1459 | every entry point on the objects is the step of the model |
| `OltDevices.OltDevice.FlowAdd` | internal/bbsim/devices/olt.go:1112-1224 | the flow maps, the validation, both stores and the message to the ONU |
| `OltDevices.OltDevice.ReserveIds` | internal/bbsim/devices/olt.go:1194-1209 | validation and stores on the two tables: conflict, unknown ONU, missing alloc map or success |
| `OltDevices.OltDevice.FlowRemove` | internal/bbsim/devices/olt.go:1226-1315 | frees both tables, forgets the flow unless its PON or ONU is gone, and tells the ONU that handled it |
| `OltDevices.OltDevice.GetOnuByFlowId` | internal/bbsim/devices/olt.go:1325-1336 | the nested loops find the first ONU with the flow id |
| `OltDevices.OltDevice.ActivateOnu` | internal/bbsim/devices/olt.go:927-959 | registers the ONU id in both tables, renames and enables the ONU |
| `OltDevices.OltDevice.ClearPons` | internal/bbsim/devices/olt.go:2041-2045 | empties the three tables of every PON port |
| `OltDevices.OltDevice.ResetTables` | internal/bbsim/devices/olt.go:293-301 | an empty map for every PON port |
| `OltDevices.OltDevice.FireOltEvent` | internal/bbsim/devices/olt.go:176-196 | the OLT state machine with its resource callbacks |
| `OltDevices.OltDevice.GetPonById` | internal/bbsim/devices/olt.go:650-657 | the PON port with the id |
| `OltDevices.OltDevice.EnablePonPort` | internal/bbsim/devices/olt.go:1083-1110 | the cascade of enabling one PON port leaves all others alone |
| `OltDevices.OltDevice.DisablePonPort` | internal/bbsim/devices/olt.go:1048-1075 | the cascade of disabling one PON port leaves all others alone |
| `OltDevices.OltDevice.constructor` | internal/bbsim/devices/olt.go:207-256 | the creation loops |
| `OnuDevices.PonPort.Enable` | internal/bbsim/devices/pon.go:95-170 | the enable callback: the loop over the ONUs by mode and source state |
| `OnuDevices.PonPort.Disable` | internal/bbsim/devices/pon.go:171-180 | the disable callback: the loop over the ONUs |
| `OnuDevices.PonPort.GetOnuById` | internal/bbsim/devices/pon.go:217-224 | the first ONU with the id |
| `OnuDevices.PonPort.RemoveGemPortBySn` | internal/bbsim/devices/pon.go:283-291 | drops exactly the GEM ports of the serial number, deleting while iterating |
| `OnuDevices.PonPort.RemoveAllocIdsForOnuSn` | internal/bbsim/devices/pon.go:326-334 | drops exactly the alloc ids of the serial number |
| `OnuDevices.OnuDevice.FireEvent` | internal/bbsim/devices/onu.go:189-323 | the ONU state machine with its enter callbacks |
| `OnuDevices.OnuDevice.EnterDisabled` | internal/bbsim/devices/onu.go:266-319 | clean-up, indication, ports down, and the channel closed when no flow is left |
| `OnuDevices.OnuDevice.CleanupOnuState` | internal/bbsim/devices/onu.go:395-405 | clears the flow keys and the entries of the ONU in the three tables |
| `OnuDevices.OnuDevice.HandleOmciRequest` | internal/bbsim/devices/onu.go:820-1313 | the response rate and the dispatch of a request |
| `OnuDevices.OnuDevice.CheckEndDownload` | internal/bbsim/devices/onu.go:1526-1598 | abort, missing sections, overrun, bad checksum or installation |
| `OnuDevices.OnuDevice.HandleFlowRemove` | internal/bbsim/devices/onu.go:1472-1502 | drops the first occurrence and closes the channel of a disabled ONU without flows |
| `OnuDevices.OnuDevice.ProcessMessage` | internal/bbsim/devices/onu.go:420-460 | one round of the message loop |

## Left out

- gRPC and REST servers, streams, Kafka events, logging, YAML and flag merging, metrics: input and output.
- Timers, delays and the retry goroutines of EAPOL and DHCP: wall-clock behaviour.
- The EAPOL, DHCP and IGMP packet exchanges and the VLAN push and pop of packets: the packet library is not part of this model.
- The IGMP state machine of a service: only its group addresses are kept.
- The send of alarms on the ONU channel from SetAlarm and from transceiver plug events: they do not look at the channel state.
- The PON cascades and alarms of the transceiver handlers: the cascades are those of `OnuDevices.PonPort.Enable` and `OnuDevices.PonPort.Disable`.
- OnuPacketOut: that it passes a packet on to an enabled ONU only is a step; its look-ups, its parsing and its loop over all ONUs for the multicast GEM port are not.
- The capacity of 2048 messages of an ONU channel: a full channel would block its sender.
- RestartOLT: modelled as separate steps for delete, the disabling of each ONU and initialize, so other calls may come in between; its waiting is left out.
- handleFlowAdd beyond the flow ids: which UNI a flow concerns, and the panic for an unknown one, are not part of the ONU model; `UniServices` has what the UNI does.
- POTS ports: merged with the Ethernet UNIs of an ONU, which they follow.
- BBR, the mock OLT, traffic schedulers, port statistics and the alarm indication builder: they read no state modelled here and have no property beyond one branch each.
- The other fatal errors of CreateOLT, a missing PON range and an ONU range that is too small: each is one comparison with the configuration.
- UniServices: what happens to a state machine whose event never returns is not modelled, only that the send blocks.
- UniServices.UniPort.RestartDhcpHere: the lists of errors and of restarted services in the reply are not modelled.
- DmiInventory.Server.StartManagingDevice: the metric and event generators, the reply and the descriptive attributes of components are not modelled.
- DmiInventory.Server.StopManagingDevice: the clean-up of publisher and endpoints is not modelled.
- DmiInventory.Transceiver.CreateComponent: names, wavelengths and other descriptive attributes are not modelled.
- OltDevices.OltDevice.FireOltEvent: the gRPC server, the OLT channel and the NNI state of InitOlt are not modelled.
- OltDevices.OltDevice.EnablePonPort: the message on the OLT channel and the indication to VOLTHA are not modelled.
- OltDevices.OltDevice.DisablePonPort: the message on the OLT channel and the indication to VOLTHA are not modelled.
- OltDevices.OltDevice.constructor: NNI ports are not modelled, and the initialize event at its end is a step of its own.
- OnuDevices.OnuDevice.FireEvent: the OperState machine is not modelled, and the message goroutine it starts is the step `OnuDevices.OnuDevice.ProcessMessage`.
- OnuDevices.OnuDevice.CleanupOnuState: the table of alarm sequence numbers is not modelled.
- OnuDevices.OnuDevice.HandleOmciRequest: reboot, test and alarm requests change no OMCI state and are all `Read`; the shutdown and power-on that a reboot or an activation starts are steps of their own.
- OnuDevices.OnuDevice.ProcessMessage: packet messages, and what a flow does to its UNI, are not modelled.
