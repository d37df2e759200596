# GoNavi: a verified model

A Dafny model of the stateful parts of GoNavi, a desktop database client, with proofs of what they
promise. `dafny verify dfyconfig.toml` checks all of it.

**Sidebar forest** (`frontend/src/store.ts`). Saved connections live in nested groups. The state is a
flat list of groups with parent pointers, the connections each group owns, one mixed order list per
group, and a root order list. Persisted state is untrusted: parents may be missing or form cycles,
connections may have several owners, orders may be stale. The model has the repair that every edit
goes through, as loops that change the lists and as the phases they compute, and the edits themselves.
Identifiers are an abstract type; connection ids need not be unique. Main results: any persisted state
is repaired into one ordered forest in which every group and every live connection is shown exactly
once, and what the repair makes of it is said by the persisted list alone; each edit has its exact outcome; whole runs of edits keep this, the edits that do not repair
included, because the root order is resolved whenever it is read.

**Edge publication** (`tools/edge-release-transaction.py`, with the payload builder and the retention
tool). A release is published on a download edge in two phases on a file tree. Single-file copy,
replace and unlink and the move of a directory are steps; before each step the environment decides
whether it goes through, fails or the process is gone. Rollback turns out to give back what stood
before the latest promotion for every way that promotion may stop *if and only if* no older backup or
absence mark of the same generation disagrees with the destinations, because that promotion removes
older backups first (line 403) and may be stopped between them. Such leftovers are real: an undisturbed
promotion of anything new makes them, and a finalize that ignores an error while removing them is open to
a later rollback. With pruning runs in between, what a channel state names holds the files it was
published with *if and only if* every finalize finds that of its ready manifest; a pruning run that was
cut short and an app-only publication that inherits what it left are a way to fail it. Hashes are a
function on contents.

**Driver agent** (`cmd/optional-driver-agent`). A reader and one worker share a queue, a register of
the request that can be cancelled, and the output. They are modelled as interleaved steps; a cancel
notice takes a context in one step and fires it in a later one. The row batcher with its halving loop
and the session table are modelled beside them.

**Keep-alive** (`internal/app/app_keepalive.go`). Probes run without the lock; the result may come
after the entry was changed, replaced or deleted. Every lock-protected part is a method; any number of
ticks interleave with policy changes (`internal/app/app.go`), insertions, deletions and pings. A connection
has at most one outstanding probe for each time that it was on, not one in all, because switching it off
clears the mark.

**Small ones.** The file tree derived from archive entries (`assets_prod.go`) and the memoised
projection of persisted state (`store.ts`).

Where a module has a class, its methods change fields step by step as the source does, and each is
proved to compute a function of the old state; the properties are proved about those functions.

## Files

| files | contents |
|---|---|
| `Options`, `Seqs`, `PathText` | optional values, sequences without repetitions, lines and paths as text |
| `ParentChain`, `OrderedForest` | chains of parent pointers and cycles; depth-first walks of ordered forests |
| `SidebarTags` to `SidebarToRoot` | the sidebar: data, repair, what it makes of persisted lists (`SidebarStored`), placement, one file per edit, their outcomes together, runs |
| `EdgeDisk`, `EdgeMutable`, `EdgeChecksums`, `EdgeCommands`, `EdgeLive`, `EdgeRetention`, `EdgeRuns`, `EdgeWhole`, `EdgeAftermath`, `EdgeCompletes`, `EdgeNode` | the edge: file tree, mutable phase, checksum list, commands, what they keep, pruning, runs, contents over runs, rollbacks after the end, when commands complete, the node as an object |
| `AgentQueue`, `AgentDispatch`, `AgentStream`, `AgentStreamRows`, `AgentSessions` | the driver agent |
| `KeepAlive`, `KeepAliveRuns` | keep-alive probes |
| `ZipAssets`, `PersistMemo` | the two small ones |

## Model

| member | source | states |
|---|---|---|
| SidebarRepair.NormalizeConnectionTagTree | frontend/src/store.ts:1182-1276 | the repair, loop by loop, computes the five phases of the specification, and its result is consistent: distinct ids, known and acyclic parents, one owner per connection, complete order lists, owner lists in display order; it has the ids it was given |
| SidebarRepair.FollowParents | frontend/src/store.ts:1234-1251 | the walk up from one tag never repeats a tag, so it ends, either at a tag without a parent or where it met its own path |
| SidebarRepair.BreakParentCycles | frontend/src/store.ts:1231-1252 | after all walks precisely the tags on a parent cycle have lost their parent, whatever order the cuts were made in |
| SidebarNormal.CutCyclesExact | frontend/src/store.ts:1231-1252 | a parent pointer survives if and only if its tag is not on a cycle, tags hanging off a cycle keep theirs unchanged, and no cycle is left |
| SidebarRepair.AssignOwners | frontend/src/store.ts:1254-1263 | each connection stays with the first tag that lists it and leaves every later one |
| SidebarRepair.ResolveOrder | frontend/src/store.ts:1333-1348 | a stored order without stale and repeated tokens, then what it lacks |
| SidebarStored.RepairedEntries | frontend/src/store.ts:1185-1218 | of each id the first entry of the persisted list counts: the repaired list has the ids in the order of their first entries, with their names and settings |
| SidebarStored.RepairedParents | frontend/src/store.ts:1220-1252 | which parents survive in any persisted list: those that first entries give, if they are other ids of the list and no cycle of such pointers goes through the tag; every other tag is at the root |
| SidebarStored.RepairedOwners | frontend/src/store.ts:1254-1263 | a connection belongs to the first tag whose entry lists it, and to no other |
| SidebarStored.RepairedOrders | frontend/src/store.ts:1265-1275 | the order of a tag is its stored one as far as that names its children, then its missing connections as its entry lists them, then its missing subgroups in list order; its owner list is the connections of that order |
| SidebarStored.RepairedRoot | frontend/src/store.ts:1333-1348 | the root order is the stored one as far as it names root groups and ungrouped connections, then the missing ones in their order |
| SidebarNormal.ResolveParts | frontend/src/store.ts:1318-1348 | what resolving an order means: its valid tokens in their order, then the missing ones in default order |
| SidebarNormal.NormalizeIsNormal | frontend/src/store.ts:1601-1615 | any tags, order and connections whatsoever come out normal |
| SidebarNormal.NormalizeIdempotent | frontend/src/store.ts:1601-1615 | repairing twice is repairing once: no field and no order changes |
| SidebarNormal.NormalIsFixed | frontend/src/store.ts:1601-1615 | a normal layout is returned exactly as it was |
| SidebarForest.LayoutIsForest | frontend/src/store.ts:1601-1615 | parent pointers, owner lists, order lists and root order of a normal layout describe one ordered forest |
| SidebarForest.RepairedShowsEverythingOnce | frontend/src/store.ts:1372-1402 | after the repair a depth-first walk of the root order ends and meets every tag and every connection exactly once |
| SidebarForest.NormalShowsEverythingOnce | frontend/src/store.ts:1372-1402 | the same of any normal layout |
| OrderedForest.ForestWalk | frontend/src/store.ts:1318-1402 | the walk of an ordered forest visits each of its nodes exactly once and nothing else |
| SidebarRepair.IsSelfOrDescendant | frontend/src/store.ts:1585-1599 | true exactly if the candidate is the tag or below it, on any parent pointers, cyclic or not |
| SidebarPlacement.PlaceInMembers | frontend/src/store.ts:1513-1532 | placing adds the token once and leaves the relative order of all others |
| SidebarPlacement.PlaceInBeside | frontend/src/store.ts:1513-1532 | the token lands directly before or after its target, or last without one |
| SidebarPlacement.ReplaceSplices | frontend/src/store.ts:1534-1561 | replacing a token puts the replacements in its place, with what is around it unchanged |
| SidebarMoveTag.MoveTagExact | frontend/src/store.ts:1713-1787 | a group move is refused exactly when the tag or the new parent is missing or the parent is the tag or below it; otherwise the outcome of detaching, repairing, placing and repairing again is one changed parent and one moved token |
| SidebarMoveTag.MoveTagKeepsTheRest | frontend/src/store.ts:1713-1787 | after a group move all owners and other parents are as before, all other tokens keep their relative order in every list, and the token is directly beside another sibling named as target, else last |
| SidebarMoveConn.MoveConnExact | frontend/src/store.ts:1789-1876 | a connection move is refused exactly when the connection is not live or the group is missing; otherwise the connection leaves its list and owner and lands in the one new place, at the root after the root group it came from |
| SidebarToRoot.MoveToRootLands | frontend/src/store.ts:1569-1583 | moved out of a group to the root without a target, a connection stands directly after the root group above its owner, and nothing else moves there |
| SidebarToRoot.MoveWithinRootLands | frontend/src/store.ts:1860-1867 | one that is at the root already goes to its end |
| SidebarRemove.RemoveGroupExact | frontend/src/store.ts:4231-4291 | removing a group: the exact repaired outcome, in every list the group gives way to its children |
| SidebarRemove.RemoveGroupKeepsSequence | frontend/src/store.ts:4231-4291 | removing a group, nested or not, takes its own line out of what is shown and nothing else, except connections of a root group that no longer exist |
| SidebarRemoveTree.CollectSubtree | frontend/src/store.ts:4299-4308 | the worklist collects exactly the tag and everything below it, and ends |
| SidebarRemoveTree.RemoveTreeExact | frontend/src/store.ts:4292-4316 | removing a group with its subgroups: exactly those tags go, other lists lose only their tokens, the live connections they held come last at the root in the order of the connection list |
| SidebarBatch.BatchIntoGroup | frontend/src/store.ts:4052-4077 | a batch into a group: its order ends with the chosen connections in request order, and nothing else moves |
| SidebarBatch.BatchToRoot | frontend/src/store.ts:4052-4077 | a batch to the root: what came from one root group stands directly after that group in request order, what was at the root already goes to the end reversed |
| SidebarToRoot.BatchLandsAfterGroup | frontend/src/store.ts:4052-4077 | after a batch to the root every root group is followed directly by the chosen connections that it and the groups below it held, in request order |
| SidebarToRoot.BatchUngroupedLast | frontend/src/store.ts:4052-4077 | those that were at the root already stand at its end, the first one asked for last; what was not chosen keeps its order, and nothing stands there twice |
| SidebarRuns.FrozenGroupExact | frontend/src/store.ts:1659-1691 | freezing a displayed order, of any layout: the group shows exactly that order, its connections filling the places where they stood among its subgroups; no other tag and nothing at the root changes, and the tag list stays repaired |
| SidebarRuns.FrozenRootExact | frontend/src/store.ts:1693-1711 | freezing the order of the ungrouped connections permutes them among their own places, leaves every group where it stood and keeps the layout normal |
| SidebarRegroup.AddGroupExact | frontend/src/store.ts:4079-4155 | adding a group changes nothing if its id or name is taken; otherwise it stands last under its parent, or before the first connection of the root if there is no such parent; it has the connections asked for, in the order asked for as far as that names them; every other list loses these connections and nothing else |
| SidebarRegroup.UpdateGroupExact | frontend/src/store.ts:4156-4230 | changing a group: it has what was asked for, every other list loses that, what it held before goes to the end of the root in connection order, and it is moved under the new parent exactly when that exists and is not below it |
| SidebarGroups.ReorderGroupsExact | frontend/src/store.ts:4434-4469 | reordering groups puts the requested root groups first, each once in request order, then the other groups and then the connections as they stood, and changes nothing else |
| SidebarGroups.ReorderRootExact | frontend/src/store.ts:4470-4489 | moving an item of the root list moves that item only, directly to the asked side of its target; an item that is not there, or its own target, changes nothing |
| SidebarRuns.Apply | frontend/src/store.ts:3886-4489 | for each of the seventeen edits: it keeps the tag list repaired, and it leaves exactly the layout and the list of connections that its own rows here say |
| SidebarOutcomes.RemoveConnectionDoes | frontend/src/store.ts:3912-3948 | removing a connection takes it out of its group and out of the root and moves nothing else |
| SidebarOutcomes.RemovedInListOrder | frontend/src/store.ts:4231-4316 | after removing a group, alone or with everything below it, precisely the other groups are left, in list order |
| SidebarRuns.RunShowsEverythingOnce | frontend/src/store.ts:1372-1402 | from any loaded state, after any run of edits, what is drawn is one forest that shows every tag and every live connection exactly once |
| EdgeMutable.RollbackExactIff | tools/edge-release-transaction.py:385-423 | over every stopping point, every pattern of faults and any number of interrupted rollbacks in between, the last rollback gives every destination its content or absence from before the promotion, if and only if no leftover backup or absence mark of the generation disagrees with it |
| EdgeMutable.WipedGivesBack | tools/edge-release-transaction.py:400-423 | without any condition on leftovers: once the removal of older backups has gone through, the rollback is exact wherever the promotion stops |
| EdgeMutable.HarmDefeats | tools/edge-release-transaction.py:403 | for every disagreeing leftover there is a stopping point and an order of removal after which the rollback gives back something else |
| EdgeMutable.RestoreGivesBack | tools/edge-release-transaction.py:385-398 | a rollback that is itself stopped leaves everything recoverable; one that finishes has given everything back and withdrawn the mark |
| EdgeMutable.FailedReplaceUndone | tools/edge-release-transaction.py:412-422 | an operating system error while files are replaced is still reported, and undone on the spot if and only if no backup of an earlier run outlived its removal for a destination that does not exist |
| EdgeMutable.FailedReplaceUndoneAfterWipe | tools/edge-release-transaction.py:403-422 | in particular whenever the removal of older backups went through, whatever these said |
| EdgeMutable.PromotePublishes | tools/edge-release-transaction.py:400-423 | a promotion that completes has published the staged file of every kind it was called for, and set the mark |
| EdgeMutable.PromoteOnlyTouches | tools/edge-release-transaction.py:400-423 | however it ends, promotion writes only its own channel's latest files and its own generation's records |
| EdgeMutable.RollbackIdempotent | tools/edge-release-transaction.py:385-398 | rolling back twice is rolling back once |
| EdgeNode.Node.PromoteMutably | tools/edge-release-transaction.py:400-423 | the step-by-step promotion computes its specification under every script of faults |
| EdgeNode.Node.RestoreMutable | tools/edge-release-transaction.py:385-398 | the step-by-step rollback computes its specification under every script of faults |
| EdgeNode.Node.PromoteImmutably | tools/edge-release-transaction.py:330-364 | the step-by-step immutable promotion computes its specification under every script of faults |
| EdgeNode.Node.FinalizePublication | tools/edge-release-transaction.py:425-457 | the step-by-step finalize computes its specification under every script of faults |
| EdgeNode.PromoteThenRollBack | tools/edge-release-transaction.py:385-423 | on a node without disagreeing leftovers, a promotion stopped anywhere and then a rollback leave every destination as it was and no mark |
| EdgeLive.PromoteImmutableReady | tools/edge-release-transaction.py:319-364 | an immutable promotion that completes was of an accepted payload; it leaves the ready manifest of that payload with the given or inherited driver tag, releases that exist and hold exactly the staged files, and a probe file with the announced size and hash |
| EdgeLive.PromoteImmutableKeeps | tools/edge-release-transaction.py:319-364 | however it ends, no existing version changes, and the ready manifest is written only by a run that completes |
| EdgeCompletes.PromoteImmutableCompletesIff | tools/edge-release-transaction.py:319-364 | an undisturbed immutable promotion completes if and only if the staged payload is accepted, a driver tag is given or can be inherited, each release to be promoted has staged files and is new or there already with the same names, sizes and hashes, and the announced probe is among what is staged for them or in a release that is there |
| EdgeCompletes.PromoteImmutableLeaves | tools/edge-release-transaction.py:319-364 | what it leaves then: the promoted releases, new ones with exactly the files staged for them; all other releases and files as they were, but the staged copies gone and the ready manifest written |
| EdgeCompletes.BuildPromotesIff | tools/prepare-vps-release-payload.py:315-339 | from the builder to the node: a build with a non-empty asset, staged as it was built, is promoted if and only if no path in it contains a line break, a driver tag is given or can be inherited, and its releases are new or there already with the same files; its announced probe is always found |
| EdgeCompletes.PromoteCompletesIff | tools/edge-release-transaction.py:400-423 | an undisturbed mutable promotion completes if and only if the ready manifest and every staged file are there; else it is refused and no destination has changed |
| EdgeCompletes.FinalizeCompletesIff | tools/edge-release-transaction.py:425-430 | an undisturbed finalize completes if and only if the promotion is marked and the ready manifest can be read; else nothing has changed |
| EdgeLive.FinalizeKeeps | tools/edge-release-transaction.py:425-457 | however it ends, finalize leaves channel states that name existing releases, if its ready manifest did |
| EdgeRuns.CommandsKeep | tools/edge-release-transaction.py:319-461 | over any commands of any generations, each stopped anywhere, existing version directories never change and every channel state names existing app and driver releases |
| EdgeRuns.DisciplinedRunsStayLive | tools/edge-release-retention.py:50-107 | with pruning runs in between, none of them between a publication's immutable promotion and its finalize, every channel state still names existing releases |
| EdgeRuns.FinalizeLiveIff | tools/edge-release-transaction.py:425-430 | an undisturbed finalize leaves the channel state right exactly when the releases named by its ready manifest still exist |
| EdgeRuns.PruneBetweenLiveIff | tools/edge-release-retention.py:50-107 | the run of both promotions, a pruning run and the finalize, from any disk on which the promotions complete: it ends with channel states that name existing releases if and only if the pruning run selects nothing that the ready manifest names; it does select the new app release exactly when all records can be read, the channel's state is of another app release and the directory is old enough |
| EdgeWhole.AlwaysWholeIff | tools/edge-release-retention.py:135-139 | contents, over all commands and pruning runs, each stopped anywhere: at every point the releases that channel states name hold exactly the files they were published with, if and only if every finalize that writes a channel state finds a ready manifest whose releases do |
| EdgeWhole.PromoteWholeIff | tools/edge-release-transaction.py:319-364 | an immutable promotion that completes leaves such a ready manifest if and only if the releases it names that existed before, the inherited driver release included, held what they were published with |
| EdgeWhole.PublicationWholeIff | tools/edge-release-transaction.py:319-457 | the same of a whole undisturbed publication and the channel state it leaves; that no pruning run falls into it is not enough |
| EdgeWhole.DisciplinedRunsStayWhole | tools/edge-release-retention.py:50-139 | a discipline that is enough: no pruning run between a publication's immutable promotion and its finalize, and immutable promotions that use existing releases only when these hold what they were published with |
| EdgeWhole.UncutRunsStayWhole | tools/edge-release-retention.py:135-139 | when no pruning run is cut short the first half of it is enough |
| EdgeWhole.CutPruneHalves | tools/edge-release-retention.py:135-139 | a pruning run stopped after its first file leaves a directory that is there and has lost files |
| EdgeWhole.InheritanceIgnoresContents | tools/edge-release-transaction.py:198-237 | which driver release is inherited depends on which releases exist, not on what they hold |
| EdgeMutable.PromoteLeavesHarmlessIff | tools/edge-release-transaction.py:400-423 | an undisturbed promotion leaves leftovers that agree with the destinations if and only if every destination already held what was staged for it: a promotion of anything new makes the other half of the rollback result real |
| EdgeMutable.PromoteTwiceGoesTooFar | tools/edge-release-transaction.py:385-423 | a whole run: promote, promote again and stop at once, roll back; the destination is back at what it held before the first promotion, not before the second |
| EdgeMutable.RollbackUnnoticedIff | tools/edge-release-transaction.py:385-398 | rollbacks leave the destinations alone, whatever their faults, if and only if the leftovers of the generation agree with them; an undisturbed one changes nothing at all if and only if moreover there is no mark and no half-made copy |
| EdgeAftermath.RollbackBlocksFinalize | tools/edge-release-transaction.py:397-427 | after a rollback a finalize is refused and changes nothing |
| EdgeAftermath.NothingAfterFinishing | tools/edge-release-transaction.py:425-457 | however a finalize ends, completed with errors ignored or stopped, from its first step on the channel state is written; a rollback after it changes nothing exactly when the mark is gone and the records left behind agree with the destinations, and no rollback touches a destination exactly when they agree |
| EdgeAftermath.NothingAfterAborting | tools/edge-release-transaction.py:459-461 | the same of an abort, however it ends |
| EdgeAftermath.FinishedSafeIff | tools/edge-release-transaction.py:425-457 | every finalize that completes, whatever errors it ignored while removing the records, is safe from a later rollback of its generation if and only if the records it started from agree with the destinations |
| EdgeAftermath.AbortedSafeIff | tools/edge-release-transaction.py:459-461 | the same of every abort that completes |
| EdgeAftermath.PublishedSafeIff | tools/edge-release-transaction.py:400-457 | for the finalize after an undisturbed promotion that means: if and only if the promotion had nothing new to publish |
| EdgeAftermath.CleanFinish | tools/edge-release-transaction.py:425-457 | a finalize without faults makes the ready manifest the channel's state, rewrites the health file, removes the records of the transaction and the whole stage, and changes nothing else; a rollback after it does nothing |
| EdgeAftermath.CleanAbort | tools/edge-release-transaction.py:459-461 | an abort without faults removes the records of the transaction and the whole stage and changes nothing else; a rollback after it does nothing |
| EdgeNode.Node.AbortPublication | tools/edge-release-transaction.py:459-461 | the step-by-step abort computes its specification under every script of faults |
| EdgeRetention.LoadReferences | tools/edge-release-retention.py:50-72 | the tags each channel with a record refers to, or a stop when any record cannot be read |
| EdgeRetention.SelectPrunable | tools/edge-release-retention.py:75-107 | selects exactly the unreferenced, old enough directories of recorded channels, without the newest unreferenced driver release of each root |
| EdgeRetention.SelectedExactly | tools/edge-release-retention.py:36-107 | read off the disk: nothing is selected if any record or driver index cannot be read; else the directories of recorded channels that are old enough and that neither the record nor, for drivers, the current index names, and of the driver releases only those with a newer one of that kind |
| EdgeRetention.PruneRemovesExactly | tools/edge-release-retention.py:135-139 | a pruning run that is not disturbed removes exactly the selected directories |
| EdgeRetention.PruneKeepsNamed | tools/edge-release-retention.py:135-139 | however a pruning run ends, the contents of the releases that channel states name are untouched |
| EdgeChecksums.WriteChecksums | tools/prepare-vps-release-payload.py:247-257 | the list, the count and the total size of a payload; none when a path does not fit the encoding |
| EdgeChecksums.ChecksumEntries | tools/edge-release-transaction.py:241-273 | the entries of a list that can be read and names exactly the files that are there |
| EdgeChecksums.Verify | tools/edge-release-transaction.py:164-303 | accepts exactly when metadata, probe, count, hashes and size all agree |
| EdgeChecksums.AcceptsIff | tools/edge-release-transaction.py:164-303 | for any metadata, list and payload: accepted if and only if the metadata is of the release called for and its probe is sound, and the text is a list, line by line, of distinct paths that are exactly the files there, with their hashes, their number and their total size |
| EdgeChecksums.LineSaysIff | tools/edge-release-transaction.py:248-258 | what a line says: 64 lower-case hexadecimal digits, two spaces, a relative path without parent steps; any other line is unreadable |
| EdgeChecksums.TotalSizeWithout | tools/edge-release-transaction.py:293-300 | in the total each listed file counts with its size, wherever it stands in the list |
| PathText.SplitLinesAt | tools/edge-release-transaction.py:248 | any ASCII line break ends a line, a carriage return and the newline after it end one line together |
| PathText.PosixPartsAt | tools/edge-release-transaction.py:250 | a path falls into components at its slashes, empty ones and single dots left out |
| PathText.PathRoundTrip | tools/prepare-vps-release-payload.py:252 | a clean path printed with slashes is read back component by component |
| EdgeChecksums.PrintParse | tools/prepare-vps-release-payload.py:247-257 | the parser recovers exactly the entries that were printed, for all digests and all clean paths without line breaks |
| EdgeChecksums.BuiltAcceptedIff | tools/prepare-vps-release-payload.py:315-339 | a build with a non-empty asset is accepted as it was built if and only if no path contains a line break |
| EdgeChecksums.AcceptsExactly | tools/edge-release-transaction.py:289-303 | beside the list of a build, a staged payload is accepted if and only if the call is for the same release, some app asset is not empty, and the files, their hashes and the total size are those of the build |
| EdgeChecksums.TamperedRejected | tools/edge-release-transaction.py:266-303 | any file added, removed or altered is rejected, as far as the hash tells contents apart |
| AgentQueue.BusinessQueue.Push | cmd/optional-driver-agent/request_dispatch.go:110-118 | a request joins the end of an open queue |
| AgentQueue.BusinessQueue.Next | cmd/optional-driver-agent/request_dispatch.go:128-144 | the worker's turn: the oldest request, or wait, or quit once the queue is closed and empty |
| AgentQueue.Canceller.Register | cmd/optional-driver-agent/in_flight_cancel.go:29-37 | the register points at the new request under a new generation |
| AgentQueue.Canceller.Unregister | cmd/optional-driver-agent/in_flight_cancel.go:39-47 | clears the register only if it still holds that request and generation |
| AgentQueue.Canceller.Take | cmd/optional-driver-agent/in_flight_cancel.go:53-63 | the context of the named request, if it is the registered one and its id is positive |
| AgentQueue.QueueProtocol | cmd/optional-driver-agent/request_dispatch.go:110-144 | the queue gives requests out in the order in which they came; a closed one takes no more, gives out what it has and then tells the worker to quit |
| AgentQueue.RegistrationProtocol | cmd/optional-driver-agent/in_flight_cancel.go:29-67 | a notice takes the context of the registered request if it names it; unregistering under another generation, even of the same id, leaves the registration alone, under its own it leaves nothing to take |
| AgentDispatch.HandledOnceInOrder | cmd/optional-driver-agent/request_dispatch.go:31-151 | in every interleaving requests are started in arrival order one at a time, all are finished exactly once before the agent returns, each is answered with at least one frame and the frames follow request order; each line the reader answers itself, the over-long one that ends the reading included, is answered once, in order |
| AgentDispatch.CancelsOnlyNamed | cmd/optional-driver-agent/in_flight_cancel.go:53-67 | in every interleaving, with distinct ids, whatever a cancel notice fires and however late is the context of the one request it named |
| AgentDispatch.CancelTakesIffRunning | cmd/optional-driver-agent/request_dispatch.go:202-207 | a cancel notice takes hold of a context exactly when the request it names is the one running |
| AgentDispatch.CancelsConserved | cmd/optional-driver-agent/in_flight_cancel.go:53-67 | in every interleaving no cancel is lost and none made up: what was fired, and after it what the reader has in hand, is one shot for each notice that named the request running when it was read, in order, with that request's context; when the reading is over all have been fired |
| AgentDispatch.NeverStuck | cmd/optional-driver-agent/request_dispatch.go:45-91 | until the agent has returned some thread can move |
| AgentDispatch.StepsEnd | cmd/optional-driver-agent/request_dispatch.go:45-144 | every step other than one more frame for an answered request brings the return closer |
| AgentStream.StreamWriter.WriteBatch | cmd/optional-driver-agent/main.go:651-666 | the halving loop ends and computes its specification for every frame limit |
| AgentStream.StreamWriter.FlushRows | cmd/optional-driver-agent/main.go:644-670 | the nested flush loops end and compute their specification |
| AgentStream.HandleStream | cmd/optional-driver-agent/main.go:676-712 | a whole streaming response as the driver feeds it |
| AgentStreamRows.FlushSent | cmd/optional-driver-agent/main.go:644-670 | a flush sends a beginning of its rows in non-empty batches that fit; it stops for size only at a row that is too large alone |
| AgentStreamRows.FirstHalfThatFits | cmd/optional-driver-agent/main.go:651-666 | how a batch is cut: of the pending rows, half of them, a quarter and so on, the first part that is not too large goes out; a single row is not cut |
| AgentStreamRows.FullBatches | cmd/optional-driver-agent/main.go:634-642 | when nothing is too large every batch but the last carries 64 rows |
| AgentStreamRows.StreamConserves | cmd/optional-driver-agent/main.go:613-712 | for any frame limit and wherever the pipe breaks: after the columns come non-empty batches of at most 64 rows, together the rows of the first calls in order, named rows cell by cell by column name and null where a name is missing; a response that ends with the closing frame has sent all of them, and if only rows are rejected every other one ends with the report of a failure |
| AgentStreamRows.EverythingDelivered | cmd/optional-driver-agent/main.go:644-712 | with any limit that every single row meets, the row of every call is delivered, cell by cell, and then the end of the query, good or bad |
| AgentStreamRows.NoColumnsNoRows | cmd/optional-driver-agent/main.go:613-621 | a response whose columns could not be sent carries no rows |
| AgentStreamRows.NotOpenFails | cmd/optional-driver-agent/main.go:676-686 | without a connection, or for a session that is not there, the response is the report of the failure alone |
| AgentSessions.AgentRuntime.CloseEverything | cmd/optional-driver-agent/main.go:749-767 | whatever order the map gives, every session and the connection are closed and forgotten |
| AgentSessions.AgentRuntime.ServeCall | cmd/optional-driver-agent/main.go:186-271 | the connect, close, open and close-session branches; an id is given back exactly for an open that succeeds, it is the one newly issued, and it leads to the object opened |
| AgentSessions.ClosedExactlyOnce | cmd/optional-driver-agent/main.go:152-157 | over any requests and the close at exit nothing is held, and every opened session and connected instance has been closed exactly once if and only if no open gave out an id under which a session was still held |
| AgentSessions.FewRequestsNeverDisplace | cmd/optional-driver-agent/main.go:714-718 | that never happens in 2^64 requests |
| AgentSessions.CounterRoundLosesSession | cmd/optional-driver-agent/main.go:227-265 | and it can happen in more: with the first session still open the counter goes all the way round, the next open takes its id, and the first session is never closed |
| AgentSessions.NoSessionWithoutConnection | cmd/optional-driver-agent/main.go:749-767 | at any time: no session without a connection, nothing closed twice or while it is held |
| AgentSessions.ConnectionHeldIff | cmd/optional-driver-agent/main.go:187-219 | there is a connection exactly if the last connect with a configuration succeeded and no close came after it: a connect that fails gives up the connection there was |
| AgentSessions.IdsReusedOnlyByWrapAround | cmd/optional-driver-agent/main.go:714-718 | two session ids of one run, reconnects included, are equal if and only if a multiple of 2^64 sessions was opened between them |
| AgentSessions.SessionReachable | cmd/optional-driver-agent/main.go:720-731 | until it is closed or its connection goes, an opened session is reached by its id exactly as long as that id is not given out again |
| AgentSessions.StaleIdsRejected | cmd/optional-driver-agent/main.go:720-731 | a session id from before a close or a reconnect reaches nothing; if it is given out again, it reaches only a session opened since |
| KeepAlive.ConnectionCache.CollectDue | internal/app/app_keepalive.go:276-307 | marks the due entries and returns a target for each |
| KeepAlive.ConnectionCache.IsTargetCurrent | internal/app/app_keepalive.go:236-256 | whether a target is current; one that is not gives its mark back |
| KeepAlive.ConnectionCache.MarkSuccess | internal/app/app_keepalive.go:309-334 | a success as the specification of results says |
| KeepAlive.ConnectionCache.MarkSkipped | internal/app/app_keepalive.go:336-361 | a skip as the specification of results says, and whether it was recorded |
| KeepAlive.ConnectionCache.EvictAfterFailure | internal/app/app_keepalive.go:363-393 | a failure as the specification of results says, and the instance to close |
| KeepAlive.ConnectionCache.ReleaseTargets | internal/app/app_keepalive.go:258-274 | releases targets one by one |
| KeepAliveRuns.CheckExactly | internal/app/app_keepalive.go:222-256 | a target is current if its mark is there and revision, statement and type are those of an entry that is on; one that is not gives its mark back, and nothing else changes |
| KeepAliveRuns.PolicyChangeSchedules | internal/app/app.go:98-121 | what a change of the policy does to the schedule: switching off takes the mark away, switching on counts the interval from now, any other change counts the new interval from the last probe and leaves the mark |
| KeepAliveRuns.OtherSteps | internal/app/app.go:1748-1758 | deleting, pinging and inserting an entry change that entry only, and an inserted one has a connection that no entry and no probe has |
| KeepAliveRuns.ReleaseAllExactly | internal/app/app_keepalive.go:258-274 | released in any order, exactly the marks that are of a target's connection and revision are taken back |
| KeepAliveRuns.CollectsExactlyDue | internal/app/app_keepalive.go:276-307 | collecting marks exactly the entries that are on, not marked and past their interval, with their revision, gives one target for each with its connection, statement, type and revision, and changes nothing else |
| KeepAliveRuns.StartCollects | internal/app/app_keepalive.go:276-307 | the step that starts a tick does to the cache what collecting does, and its probes are the targets collected |
| KeepAliveRuns.CancelReleases | internal/app/app_keepalive.go:185-187 | the step that cancels a tick does to the cache what releasing its outstanding targets does, in any order |
| KeepAliveRuns.ShortRunsStayTame | internal/app/app_keepalive.go:40-46 | runs with fewer than 2^64 - 1 steps meet the condition that some results below put on one connection: it has never been switched off, or none of its outstanding probes is 2^64 - 1 policy changes old |
| KeepAliveRuns.MarksNeverLeak | internal/app/app_keepalive.go:176-256 | in every run every mark is owned by an outstanding probe |
| KeepAliveRuns.MarksHaveOneOwner | internal/app/app_keepalive.go:222-256 | by only one, if the connection meets the condition |
| KeepAliveRuns.FinishedTickOwnsNothing | internal/app/app_keepalive.go:176-220 | in every run a tick without outstanding probes owns no mark |
| KeepAliveRuns.TickProbesDistinct | internal/app/app_keepalive.go:276-307 | in every run the outstanding probes of one tick are of different keys |
| KeepAliveRuns.OneProbePerConnection | internal/app/app_keepalive.go:276-307 | in every run a connection whose policy has not been switched off has at most one outstanding probe, however often its policy was changed |
| KeepAliveRuns.CurrentIff | internal/app/app_keepalive.go:222-234 | in every run, exactly when a probe is current while its connection is the entry's: the number of policy changes since is a multiple of 2^64 - 1, the mark carries its revision, and the policy is on with the statement and the type that were collected |
| KeepAliveRuns.CurrentIffUnchanged | internal/app/app_keepalive.go:222-234 | for a connection that meets the condition, with no outstanding probe that old at the end, that means: if and only if the policy has not been changed since the probe was collected |
| KeepAliveRuns.LateResultHarmless | internal/app/app_keepalive.go:309-393 | in every run, a result that comes after its connection was replaced, or after a number of policy changes that is no multiple of 2^64 - 1, changes no time, evicts nothing and touches no other entry |
| KeepAliveRuns.CurrentResultRecorded | internal/app/app_keepalive.go:309-393 | in any state, a result of a probe that is current gives the mark back and postpones the next probe by the interval, or evicts the entry, and changes nothing else |
| KeepAliveRuns.ProbesDistinct | internal/app/app.go:98-121 | two outstanding probes of a connection that meets the condition have a switching off between them: there is at most one for each time that it was on |
| KeepAliveRuns.OffAndOnLetsInASecond | internal/app/app.go:112-115 | and there can be one for each time: switching off clears the mark, so that after off and on the next tick collects the connection again while the first probe is still out |
| KeepAliveRuns.OldProbeMistaken | internal/app/app_keepalive.go:40-46 | a run in which the revision goes all the way round while a probe is out, and the probe is taken for current although the policy has been changed |
| KeepAliveRuns.OldProbeLetsInASecond | internal/app/app_keepalive.go:222-256 | a run outside the condition in which two probes are out with no switching off between them: an older probe of the same revision has given back the first one's mark |
| ZipAssets.ZipAssetFS.constructor | assets_prod.go:49-85 | the tables of any entry list: the last file of each name, and exactly the directories and names on the way to files |
| ZipAssets.WalkOpen | assets_prod.go:105-127 | a walk from any directory visits exactly the files with no other file in between, each once |
| ZipAssets.WalkReachesAllIff | assets_prod.go:49-127 | on the tables derived from any files, the walk from the root reaches every file, each once, if and only if no file path is a proper beginning of another |
| ZipAssets.WalkArchive | assets_prod.go:49-127 | from an entry list to the walk of its tree: it visits exactly the files with no other file on the way, each once, and all of them if and only if no file path is a proper beginning of another |
| ZipAssets.ZipAssetDir.ReadDir | assets_prod.go:139-161 | one call returns the next page and moves the offset past it |
| ZipAssets.PageExactly | assets_prod.go:139-161 | asking for a positive number gives that many names or what is left, and reports the end only when nothing is left; asking for none gives all that is left |
| ZipAssets.PagesConcatenate | assets_prod.go:139-161 | pages of any sizes put together are the listing as far as it was read |
| ZipAssets.PagesReachEnd | assets_prod.go:139-161 | asking for at least one name often enough reads everything, and the end is reported only then |
| PersistMemo.MemoizedProjection.Call | frontend/src/store.ts:3736-3783 | one call of the memo: remembered, patched or rebuilt |
| PersistMemo.MemoIsRebuild | frontend/src/store.ts:3736-3783 | for every sequence of states each answer is the projection of that state alone, tab switches included: the tabs, the other fields, and as active tab the one asked for if there is such a tab, else the first |

## Left out

- Trimming, length caps and the numbering of missing ids: folded into the abstract identifiers of the sidebar.
- Group names, creation times and display modes are carried along and never interpreted; uniqueness of names among siblings is not stated, and moves do not check it.
- SidebarRegroup.AddGroupExact: whether a sibling has the name already is an input, here and when a group is changed. `duplicateConnectionTag`, which does not repair, appears only as a replaced layout.
- SidebarRuns.FrozenRootExact: the sorter is any permutation, because the comparator at frontend/src/store.ts:1625-1637 mixes keys and is not transitive. Connections that share an id may make it return more ids than there are places; in runs nothing is asked of it, since the root order is resolved when it is read.
- Sortedness of displayed connections, for the same reason.
- The sidebar edits are values that return new layouts, as in the source; only the repair loops, the worklist and the ancestor check are methods.
- SidebarRemove.RemoveGroupKeepsSequence: connections that a removed root group held but that are no longer in the connection list disappear, as in the code.
- The deployment lock, its clock, and commands running at the same time: commands and pruning runs follow each other, each stopped anywhere.
- Torn single-file copies, making parent directories, ownership and mode changes, symbolic links, and the contents of the health file.
- Empty directories: a staged directory exists if a file is below it.
- A probe path outside the version directories is refused by the model; builds never have one.
- EdgeRuns.DisciplinedRunsStayLive: the discipline asks only that no pruning run falls between a publication's immutable promotion and its finalize, which is less than running each generation's commands once and in order; what the named releases hold is said in `EdgeWhole`.
- The restriction of tags and generations to their regular expressions; empty app tags are excluded where it matters.
- Checks that the payload builder makes of manifests and indexes, and the copying it does.
- The order in which the builder sorts files: any listing of the payload is covered.
- JSON as text: deployment metadata, manifests and states are records.
- Driver implementations, SQL, the SSH progress frames, timeouts and memory release; drivers are taken to stop at the first error of the consumer.
- AgentStreamRows.StreamConserves: the driver sets its columns once, before its rows, here and in the other results about rows; the writer itself is modelled for any calls.
- Partial writes to a broken pipe: a frame is written whole or not at all.
- The text form of session ids; ids are the numbers in them.
- KeepAliveRuns.ProbesDistinct: a connection that has been switched off and has a probe out for 2^64 - 1 policy changes is excluded, here and in `MarksHaveOneOwner` and `CurrentIffUnchanged`; `OldProbeLetsInASecond` is such a run.
- Executing a probe, its statement and its timeout; the result is an input.
- Entries with no instance: the cache is only ever given connected instances (internal/app/app.go:1748-1758).
- Two loops running at once after a stop timed out are covered as overlapping ticks; a tick's order over its targets is not fixed.
- Cleaning of archive names; an entry has a clean path or none.
- The order in which a directory lists its names; any listing without repetitions is covered.
- The projection's fields other than the tabs and the active tab are one function of the other keys; drafts, stored shortcuts, clock and translations are held fixed, and state objects are taken to be immutable.
