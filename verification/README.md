# A verified model of the replicated object store and its wire codec

The repository's distributed mode keeps objects in chunks, each chunk replicated on several storage nodes. A metadata
service runs a multi-party protocol over shared tables; clients, a gateway, storage nodes, heartbeats, a maintenance scan
and leased workers all act on them concurrently. A second part is the framing protocol both the C++ and the Python code
speak. This project models both in Dafny and proves what they are relied upon for.

## How the model is built

*The metadata service.* `Schema` holds the tables, rows and their joins. `Transactions` says what each database
transaction does, as a function from tables to tables; a failed check rolls back. `Metadata` is the service in its own,
imperative form: a class whose table fields are updated row by row, in loops, with rollback, each method proved equal to
its function. `Effects` says, on the columns of the tables and independently of those functions, what each operation
promises its caller: exactly when it is served, what it is refused with, what it leaves behind and what it leaves alone;
every method is proved to keep that promise too. `Accounting`, `Invariants`, `Preservation`, `Lifecycle` and `Creation`
prove that every transaction keeps the table invariant (foreign and unique keys, agreement of upload, object, replica and
task states, exact sums, exact partition of objects into pieces).

*The protocol.* `Protocol` lets all parties interleave one transaction at a time. What a multi-step operation carries
between its transactions (the snapshots of a confirmation, a deletion, a repair, a reconciliation) is part of the state
and may be used at any later time, any number of times, or never; what nodes answer in between is left open. `Runs` proves
the protocol invariant for every step; `Safety`, `Confirmations`, `Resuming`, `Stranding`, `Restating` and `Capacity` draw
the conclusions for every run. `Progress` shows that uploads, repairs, removals and restatements can be carried through,
and `Witnesses` gives concrete runs from the empty service where a promise fails.

*Nodes.* `Cluster` adds the disks: puts, stats, inventories, removals, restarts and crashes are steps of their own;
`Gateway` adds the order in which gateways make their requests. `Durability` and `Storage` look at one node, system call
by system call, with a failure or a crash possible at any of them; `Nodes` proves that every run of such a node is a
sequence of the moves `Cluster` allows, each an action of the cluster. `Transfer` holds the loops of client, gateway and
reconciler, and `EndToEnd` puts the chain together, from a file that is sent to the file read back.

*The codec.* `Crc32` defines the checksum bit by bit and proves the table form and its error detection. `Frames` is the
format, with every field tied to the bytes at its offset, `Decoding` the meaning of a byte stream, `Codec` the C++ encoder
and decoder as classes, `Wire` the Python implementation over a socket that fragments as it likes.

## Assumptions

- A transaction is one atomic step, since the allocator row serializes them. The clock is read once per transaction,
  except that a heartbeat reads it before its transaction begins; it is shared and never runs backwards.
- `ident()` returns an id that was never seen before. SHA-256 is injective: a digest is the content it was computed from,
  or a string no content is known for. Tickets cannot be forged.
- In `Cluster` and `Gateway` only: disks do not rot, nodes answer truthfully, a node keeps its volume, a write takes
  effect while its ticket is valid, and a removal within the lease of the task that issued it. The node itself does not
  check the task (distributed/storage.py:126-130); the lease of at least 40 seconds against a request timeout of 10
  motivates the rule (distributed/config.py:23, distributed/wire.py:12).
- In `Gateway` only: a confirmation is asked for after every write of one prepare request for the position was
  acknowledged. The gateway's code does that (distributed/gateway.py:26-35, `Transfer.RelayUpload`).
- Everything else, all of `Effects`, `Safety`, `Confirmations`, `Resuming`, `Stranding`, `Restating`, `Progress`,
  `Capacity` and `EndToEnd`, holds without these.
- In `Durability`: after a crash the directory is as it was at some moment since it was last synchronized, and a file that
  was not synchronized may hold anything.

## What the proofs brought to light

- Reserved plus used stays within a node's capacity exactly as long as every heartbeat reports at least what is on its
  books (`Capacity.BoundedExactlyIfCovered`); the code accepts any smaller figure (`Witnesses.UnderReportIsAccepted`).
- If a node lists a chunk it has no row for, the deletion that follows can overlap with a repair that reserves that very
  row. Finishing the deletion then takes the new reservation off the books and leaves it reserved. A run from the empty
  service reaches this (`Witnesses.StrandingHappens`); from then on, as long as the object is published, the row stays as
  it is and no repair of the chunk can ever be committed (`Stranding.StrandedForGood`). Nothing else strands a reservation
  (`Stranding.OnlyLateRemovalsStrand`), and with truthful nodes nothing does (`Cluster.TruthfulNodesStrandNothing`).
- A gateway that reads a good replica and then fails to reach the metadata service reports that replica as bad
  (`Transfer.GoodReplicaMayBeReported`); every reported replica has failed verification exactly unless this happens
  (`Transfer.OnlyBadReplicasReportedIff`).
- A `stat` does not tell whether a file was synchronized. A valid row is backed as long as no crash takes a file the
  service relies on (`Cluster.ValidReplicasAreBacked`); asking gateways for acknowledgements first is what makes every
  crash harmless (`Gateway.ValidReplicasSurviveCrashes`), and without it a crash can take the file of a confirmed replica
  (`Witnesses.UnacknowledgedFileIsLost`).
- After a discarded byte the decoder stops until the next feed, so on streams with garbage the cutting decides when a
  message is delivered, never whether or which (`Decoding.CompleteExactlyIfQuiet`, `Decoding.CuttingMattersAfterGarbage`).
- The table of replica states in docs/distributed.md:72 is narrower than the code: a bad row becomes unverified again when
  its node restarts, a gone row can be reserved or marked again, and a surplus repair goes from reserved to bad. The model
  follows the code (`Invariants.StateEdge`).

## Model

| member | source | states |
|---|---|---|
| MetadataService.Metadata.NodesByLoad | distributed/metadata.py:44 | every node, least loaded first, ties by id: the order of the placement query |
| MetadataService.Metadata.Reserve | distributed/metadata.py:41-57 | walks the nodes in load order and reserves the first `count` that can take the chunk; each chosen node is healthy, was heard from within `suspect` and has the length in `free - reserved` and in `capacity - used - reserved`; CAPACITY exactly if fewer than `count` such nodes exist, and then every update is rolled back |
| MetadataService.Metadata.Positions | distributed/metadata.py:59-68 | one ticket per reserved or valid row on its node's present volume, in node order, each for this chunk, length and digest, the node's present volume and instance, expiring after `authTtl`; UNAVAILABLE exactly if one of those nodes is not healthy or silent for `suspect` seconds |
| MetadataService.Metadata.Init | distributed/metadata.py:79-94 | does what the transaction specification does for some orders, each of them the load order at the moment its chunk is placed; object and upload rows as asked; no node is loaded beyond its free bytes or its capacity; INVALID exactly if too large, else CAPACITY; on failure nothing is left behind |
| MetadataService.Metadata.Prepare | distributed/metadata.py:95-137 | served exactly if the caller's upload still takes data, the position exists, no other digest is fixed and all `replicas` places are on live nodes; fixes the digest, changes nothing else, authorizes each place once; rolled back on every error |
| MetadataService.Metadata.AuthorizeChunk | distributed/metadata.py:128-137 | fixes a chunk's digest unless another one is fixed, and hands out tickets, or changes nothing |
| MetadataService.Metadata.Complete | distributed/metadata.py:109-127 | served exactly if already completed, or active with every piece confirmed and enough valid rows; INCOMPLETE exactly for an active upload that is not whole; publishes object and upload and touches nothing else |
| MetadataService.Metadata.Retire | distributed/metadata.py:213-223 | the row-by-row loop computes the closed form: all reservations of the upload returned, all rows marked, all cleanups queued, all its repairs fenced off |
| MetadataService.Metadata.Cancel | distributed/metadata.py:111-116 | served exactly if the caller's upload is cancelled, expired or still active; afterwards its object is deleted and everything of it on its way out, an active upload is cancelled, nothing else is touched; idempotent |
| MetadataService.Metadata.Delete | distributed/metadata.py:141-148 | succeeds exactly if the object exists and is the caller's, NOT_FOUND and FORBIDDEN otherwise; afterwards the object is deleted, its upload over, its rows on their way out with their cleanup queued, every other object as it was; idempotent |
| MetadataService.Metadata.BadReplica | distributed/metadata.py:162-170 | taken exactly from the owner of a published object about one of its chunks; a valid row becomes bad, a repair is open, nothing else changes |
| MetadataService.Metadata.Locations | distributed/metadata.py:149-161 | the chunk at a position of a published object and exactly its healthy replicas; NOT_FOUND exactly beyond the last piece |
| MetadataService.Metadata.ConfirmBegin | distributed/metadata.py:173-183 | begins exactly if the upload takes data, the caller may see it, the piece was prepared and all places are on live nodes; the snapshot asks for the prepared content on every place |
| MetadataService.Metadata.ConfirmCommit | distributed/metadata.py:187-200 | commits exactly if the upload still takes data, all places are on live nodes and on the processes that were asked; every reservation that was verified becomes a valid copy that counts as used, the chunk is confirmed, nothing else changes; returns the confirmed bytes |
| MetadataService.Metadata.ConfirmedSum | distributed/metadata.py:199 | the sum loop returns the lengths of the upload's confirmed chunks |
| MetadataService.Metadata.Heartbeat | distributed/metadata.py:225-246 | accepted exactly from a configured node with sensible figures, and for another instance only if it never served the node and the old one was silent for `dead` seconds; the node is registered as reported; if its instance or volume changed, no row of it is valid or bad afterwards, each such row is unverified and keeps its charge, reserved rows have the new volume |
| MetadataService.Metadata.MoveRows | distributed/metadata.py:242-245 | valid and bad rows of the node become unverified, reserved ones take the new volume |
| MetadataService.Metadata.Maintain | distributed/metadata.py:251-261 | grades, expires at most 32 overdue uploads, each of them expired and its object deleted afterwards; with fewer than 32, no active upload is past its time; leaves a repair open for every published chunk short of healthy replicas |
| MetadataService.Metadata.ExpireOverdue | distributed/metadata.py:255-257 | retires up to 32 distinct uploads, each overdue before and expired with a deleted object afterwards; with fewer than 32, none is left overdue |
| MetadataService.Metadata.UnverifiedRows | distributed/metadata.py:271 | up to 128 distinct unverified rows of a node, all of them if fewer |
| MetadataService.Metadata.SettleRow | distributed/metadata.py:279-287 | if the node is still on the scanned volume and instance, an unverified row becomes valid or bad, as the `stat` says, on that volume; otherwise no state changes; a failed `stat` of a row from another volume leaves it uncharged |
| MetadataService.Metadata.SettleListed | distributed/metadata.py:292-303 | a listed id is queued for deletion exactly if no object wants it, or enough healthy copies exist and no row of the node stands for it; otherwise nothing changes |
| MetadataService.Metadata.Claim | distributed/metadata.py:309-317 | takes an open task whose lease ran out, the one that ran out first, ties by row number; its worker, and no other, may write for it during the next `lease` seconds; nothing if there is none |
| MetadataService.Metadata.GiveBack | distributed/metadata.py:332-335 | a job given back by its own worker can be claimed again after two seconds and nobody may write for it; anyone else changes nothing |
| MetadataService.Metadata.DeleteBegin | distributed/metadata.py:337-350 | begins exactly if the worker holds the task, the node is known and nobody relies on the copy; marks the row and remembers the process and volume registered now |
| MetadataService.Metadata.DeleteCommit | distributed/metadata.py:352-359 | finishes exactly if the worker still holds the task and the node is the one that was asked; a row under deletion is gone, the row of a known chunk weighs nothing, the task is done |
| MetadataService.Metadata.RepairBegin | distributed/metadata.py:361-383 | begins only with the task held, the object published and too few but some healthy copies, at a reservation left earlier or at the lightest node with room and no row of the chunk; done at once exactly if enough copies are healthy; CAPACITY only if there is no candidate at all |
| MetadataService.Metadata.RepairCommit | distributed/metadata.py:398-412 | commits exactly if the worker holds the task, the object is published, the target is the process and volume written to and its reservation is intact; with fewer than the required healthy nodes the row is valid and counts as used, with enough it is bad, weighs nothing and its deletion is open |
| MetadataService.Metadata.Enqueue | distributed/metadata.py:203-204 | afterwards the task is open; one that was open is untouched, a new or finished one is pending with the given lease; no other task and no other table changes |
| MetadataService.Metadata.Uncharge | distributed/metadata.py:206-211 | the row has no charge afterwards, no other row changes, and node figures that were exact sums of charged lengths still are |
| MetadataService.Metadata.Status | distributed/metadata.py:101-108 | returns the confirmed bytes; the page lists missing positions from the cursor on |
| Creation.ReserveTakesFirst | distributed/metadata.py:41-57 | placement takes exactly the first `count` candidates and fails exactly when there are fewer |
| Creation.LightestChosen | distributed/metadata.py:44 | in load order, every chosen node is lighter than every candidate left out |
| Creation.LightestReserved | distributed/metadata.py:44-56 | a single reservation goes to a candidate lighter than all others, and fails exactly if there is none |
| Effects.PlacementFindsRoom | distributed/metadata.py:41-57 | every node a placement chooses is healthy, was heard from within `suspect` and has room by its free bytes and by its capacity; they are as many as asked for and distinct; CAPACITY exactly if fewer nodes have room |
| Effects.CreationFits | distributed/metadata.py:79-94 | however the chunks of an object are spread, no node ends beyond the free bytes it reported or its capacity, and only nodes heard from get any; INVALID and CAPACITY are the only refusals |
| Creation.InitGood | distributed/metadata.py:79-94 | creating an object keeps all table invariants, changes nothing known, and every new row is a reservation of a new chunk |
| Publication.InitPartitions | distributed/metadata.py:83-93 | a new upload has ceil(size/chunk) chunks of positive length summing to size, each reserved on exactly `replicas` nodes |
| Publication.PiecesPartitionTheObject | distributed/metadata.py:83-93 | in any good state an upload's chunks are one per position and add up to its object's size |
| Publication.PublishedExactlyWhenWhole | distributed/metadata.py:109-127 | publishing succeeds if and only if already published, or active with every piece confirmed and fully replicated; then the object is published |
| Effects.PublishingTouches | distributed/metadata.py:109-127 | the error of a refused request to publish; a served one moves the object and its upload and nothing else |
| Publication.ProgressIsExact | distributed/metadata.py:104-108 | confirmed bytes never exceed the size and equal it exactly when no position is missing |
| Schema.PageIsExact | distributed/metadata.py:104-108 | a page holds exactly the entries from its cursor up to the next cursor, in order; there is a next cursor exactly if something lies beyond |
| Accounting.UnchargeBalances | distributed/metadata.py:206-211 | releasing one row keeps every node's figures equal to the sums over its rows |
| Accounting.ReserveBalances | distributed/metadata.py:41-57 | reserving keeps the figures equal to the sums |
| Accounting.ConvertBalances | distributed/metadata.py:192-198 | turning reservations into use keeps the figures equal to the sums |
| Accounting.RetireBalances | distributed/metadata.py:216-221 | returning all reservations of an upload keeps the figures equal to the sums |
| Lifecycle.PrepareGood | distributed/metadata.py:128-137 | prepare keeps the invariant and makes only legal moves (a digest is written once) |
| Lifecycle.ConfirmCommitGood | distributed/metadata.py:187-199 | a confirmation with a fitting snapshot keeps the invariant |
| Lifecycle.PublishGood | distributed/metadata.py:125-127 | publishing keeps the invariant; in particular no reservation is left on a published chunk |
| Lifecycle.RetireGood | distributed/metadata.py:213-223 | retiring keeps the invariant and leaves the object deleted |
| Lifecycle.HeartbeatGood | distributed/metadata.py:225-246 | a heartbeat keeps the invariant, whatever instance, volume and capacity it reports |
| Preservation.SettleRowGood | distributed/metadata.py:279-287 | settling keeps the invariant, whatever the node answered |
| Preservation.DeleteBeginGood | distributed/metadata.py:338-350 | beginning a deletion keeps the invariant |
| Preservation.DeleteCommitGood | distributed/metadata.py:352-359 | finishing a deletion keeps the invariant |
| Preservation.RepairBeginGood | distributed/metadata.py:361-383 | beginning a repair keeps the invariant and leaves its target reserved |
| Preservation.RepairCommitGood | distributed/metadata.py:398-412 | finishing or discarding a repair keeps the invariant |
| Runs.PositionsCoverAssigned | distributed/metadata.py:59-68 | the tickets cover exactly the assigned nodes, once each, increasing, each for the node's present volume and instance |
| Runs.StepKeeps | distributed/metadata.py:70-412 | every step of the interleaved protocol keeps its invariant and makes only legal moves; only a heartbeat changes registrations |
| Runs.RunKeeps | distributed/metadata.py:70-412 | so the invariant holds throughout every run |
| Maintenance.MaintenanceIsARun | distributed/metadata.py:251-261 | the whole maintenance transaction is a run of the protocol's finer steps |
| Safety.RunGrows | distributed/metadata.py:128-137 | over any run nothing is dropped, phases only move forward, a finished upload stays as it ended unless its object is deleted, immutable columns and fixed digests stay |
| Effects.ServedDeleteRetires | distributed/metadata.py:141-148 | in every reachable state a delete request is served exactly for the owner of an existing object, and then the object is deleted and retired, with every other object as it was |
| Effects.ServedCancelRetires | distributed/metadata.py:111-116 | in every reachable state a cancel request is served exactly if the caller's upload is over or active, and then the object is deleted and retired and an active upload cancelled |
| Effects.ExpiredIsRetired | distributed/metadata.py:255-257 | an upload is expired exactly if it is active after its time, and that retires its object |
| Safety.CapacityIsConserved | distributed/metadata.py:41-57 | in every reachable state `reserved` and `used` of each node are exactly the sums over the rows charged to it, and are not negative |
| Confirmations.ConfirmingAgainConvertsNothing | distributed/metadata.py:192-198 | a later confirmation of a chunk, from any snapshot and after anything in between, moves rows and figures only for replicas still reserved, each by the chunk's length; what the first one converted is left alone |
| Confirmations.NeverReservedAgain | distributed/metadata.py:192-198 | while an object is staging, a replica that is no longer reserved never becomes reserved again |
| Confirmations.PublishedIsConfirmed | distributed/metadata.py:109-127 | in every reachable state a confirmed chunk has its digest and every chunk of a published object is confirmed |
| Confirmations.StepFixes | distributed/metadata.py:128-199 | every step of the protocol keeps this |
| Effects.PreparedExactlyIf | distributed/metadata.py:128-137 | when a piece can be prepared, the error otherwise, and what preparing leaves behind |
| Effects.ConfirmableExactlyIf | distributed/metadata.py:173-183 | when a confirmation can be begun, and what it is to verify |
| Effects.CommittedConfirmationConverts | distributed/metadata.py:187-199 | in every reachable state: when a confirmation is committed; then no replica of the chunk is merely reserved any more, each place is a valid copy and the chunk is confirmed |
| Effects.ReportedExactlyIf | distributed/metadata.py:162-170 | whose report of a replica is taken, the error otherwise, and what it does |
| Resuming.UploadOnlyFills | distributed/metadata.py:101-108 | over any run the missing positions of an upload only shrink and its fixed digests stay |
| Resuming.ChunksAreFixed | distributed/metadata.py:86-93 | no upload ever gains, loses or moves a chunk |
| Resuming.SentIsConfirmed | distributed/metadata.py:128-199 | a served prepare request followed, any time later, by a confirmation leaves the position confirmed with the digest that was prepared |
| EndToEnd.RefusedExactlyForOtherContent | distributed/metadata.py:128-133 | a piece of an open upload is refused with CONFLICT exactly if, at any earlier time of the run, a prepare request with other content was served for the position |
| Safety.DeletionIsFinal | distributed/metadata.py:213-223 | after deletion, through any further run: object deleted, upload cancelled or expired, all rows deleting or gone and unreserved, all repairs closed |
| Safety.DeletedRefusesCommits | distributed/metadata.py:187-191 | no confirmation or repair in flight can commit for a deleted object |
| Safety.DeletedRefusesRequests | distributed/metadata.py:21-39 | no request can authorize, confirm, publish, read or expire anything of a deleted object |
| Safety.ChargedRowsAreQueued | distributed/metadata.py:217-221 | a still charged row of a deleted object has a deletion pending or running |
| Safety.NothingLeaks | distributed/metadata.py:352-359 | once its deletions are done a deleted object contributes zero to every node |
| Safety.CleanupFindsNoTicket | distributed/metadata.py:309-317 | whenever a deletion can be claimed or runs, every upload ticket for its chunk has expired |
| Safety.OneWorkerPerTask | distributed/metadata.py:319-320 | two workers pass fences of the same task exactly if they hold the same token |
| Effects.ClaimedExactlyIf | distributed/metadata.py:309-321 | which tasks can be claimed, and for how long which worker may write |
| Safety.OneReservation | distributed/metadata.py:373-380 | a published chunk has at most one reserved row, and it is the target of whichever repair passes the fence |
| Safety.CrashedRepairIsResumed | distributed/metadata.py:374-377 | a repair that finds a reservation takes it over and reserves nothing |
| Safety.RepairNeverOverfills | distributed/metadata.py:405-411 | a repair commit adds no healthy replica beyond the required number |
| Effects.RepairQueuedExactlyIf | distributed/metadata.py:258-261 | the scan queues a repair exactly for the published chunks with too few healthy copies |
| Effects.RepairBegunExactlyIf | distributed/metadata.py:361-383 | a repair begins exactly if its worker holds the task, too few but some healthy copies are left and there is a live reservation or a free node with room; what it then remembers and reserves |
| Effects.CommittedRepairIsRecorded | distributed/metadata.py:404-412 | in every reachable state a committed repair makes its copy valid and used exactly if fewer than the object's `replicas` nodes were healthy, and then its node, if live, joins them; otherwise the copy is bad, uncharged and its deletion open |
| Safety.RemovalsHaveSafeOrigins | distributed/metadata.py:344-350 | every removal a worker ever issues was begun at a moment of the run when the object was not staging and, if published, the row was not valid, reserved or unverified and enough healthy replicas were on other nodes |
| Effects.DeletionBegunExactlyIf | distributed/metadata.py:337-350 | when a deletion begins, the error otherwise, and what it marks |
| Effects.DeletionFinishedExactlyIf | distributed/metadata.py:352-359 | when a deletion is finished, and what that leaves behind |
| Safety.MarkOutlivesFence | distributed/metadata.py:349-354 | while the fence holds the marked row stays under deletion |
| Safety.ReReservedOnlyAfterGone | distributed/metadata.py:373-380 | a row under deletion is reserved again only after a moment at which it was gone |
| Stranding.RemovalStrandsExactlyIfReserved | distributed/metadata.py:352-359 | a committed removal leaves an uncharged reservation exactly if it finds the row reserved, and then it had found no row to mark |
| Stranding.StrandedRepairNeverCommits | distributed/metadata.py:374-404 | a repair of a stranded chunk takes over the stranded reservation, reserves nothing and cannot be committed |
| Stranding.MarkedRemovalStrandsNothing | distributed/metadata.py:349-359 | a removal that marked its row ends with the row gone |
| Stranding.StrandedForGood | distributed/metadata.py:352-412 | over any run during which the object stays published, a stranded reservation stays as it is and every repair commit for its chunk fails |
| Stranding.OnlyLateRemovalsStrand | distributed/metadata.py:352-359 | in reachable states no other step strands a reservation |
| Witnesses.StrandingHappens | distributed/metadata.py:292-359 | a run from the empty service after which a published chunk lacks a replica and its only reservation is stranded |
| Witnesses.UnderReportIsAccepted | distributed/metadata.py:225-241 | a reachable state in which an accepted heartbeat leaves a node fuller than its capacity |
| Safety.GradingFindsTheLive | distributed/metadata.py:254 | in any reachable state, after grading, the nodes readers and repairs are sent to are exactly those with a valid row that were heard from within `suspect` seconds |
| Effects.GradedBySilence | distributed/metadata.py:254 | after grading a node is healthy exactly if silent for at most `suspect` seconds and unavailable exactly if silent for more than `dead` |
| Safety.SilentNodesAreAvoided | distributed/metadata.py:59-68 | over any run, from when a node was last heard from `suspect` seconds ago until it is heard from again: no ticket is issued for it, no reader sent to it, no repair aimed at it |
| Safety.TargetIsLive | distributed/metadata.py:381-383 | a repair only ever targets a live node |
| Safety.RowsCarryTheVolume | distributed/metadata.py:242-245 | valid, bad and reserved rows carry their node's present volume |
| Effects.AcceptedExactlyIf | distributed/metadata.py:225-246 | when a heartbeat is accepted and what it registers |
| Effects.ReturningNodesAreRestated | distributed/metadata.py:240-245 | after any step that changes the instance or volume of a known node, no row of that node is valid or bad; each that was is unverified and still charged, and reserved rows have the new volume |
| Restating.OnlyVouchedAreValidated | distributed/metadata.py:187-412 | no step makes a row valid except a confirmation that verified it, the repair that wrote it, or a successful `stat` by its node as registered |
| Restating.ValidCopiesAreVouchedFor | distributed/metadata.py:240-284 | over any run: a copy valid now that was not valid before, or whose node has since changed instance or volume, was confirmed, repaired or stated in between, at a moment at which its node was registered as it is now |
| Effects.StatDecides | distributed/metadata.py:279-287 | the answer to a `stat` decides an unverified row exactly while its node is still the one that was scanned; a copy missing from another volume ends uncharged; nothing else changes |
| Effects.ListedIsCleanedIfUnwanted | distributed/metadata.py:292-303 | when a listed file is queued for deletion |
| Safety.TakeoverNeedsSilence | distributed/metadata.py:236-239 | a node changes instance only by a heartbeat after `dead` seconds of silence, and the old instance is retired |
| Safety.InstancesNeverReturn | distributed/metadata.py:236-239 | an instance that was replaced never serves its node again |
| Capacity.HeartbeatBound | distributed/metadata.py:241 | a heartbeat keeps reserved+used within capacity exactly if it reports no less than them |
| Capacity.BoundedExactlyIfCovered | distributed/metadata.py:41-57 | over a run every node stays within capacity exactly if every accepted heartbeat covers its node's books |
| Capacity.SteadyCapacityIsRespected | distributed/metadata.py:41-57 | in particular if capacities never shrink |
| Progress.CreatedCanBePublished | distributed/metadata.py:79-127 | every object that can be created can be uploaded: right after its creation there is a run that sends every piece and publishes the object with exactly the contents planned |
| Progress.UploadCanFinish | distributed/metadata.py:109-200 | so can any upload that takes data, in any reachable state in which all its places are on live nodes and no planned digest conflicts |
| Progress.PieceCanBeSent | distributed/metadata.py:128-200 | prepare, confirm and commit of one piece succeed in a row, and its chunk holds the content on all its places |
| Progress.RepairCanBeDone | distributed/metadata.py:309-412 | a chunk short of healthy copies, with one left, a claimable task and a place to go, can be repaired: three transactions, and one more node holds a healthy copy |
| Progress.RemovalCanBeDone | distributed/metadata.py:309-359 | a claimable deletion nobody objects to can be carried through: the row is gone and off the books, the task done |
| Progress.CopyCanBeRestated | distributed/metadata.py:265-287 | an unverified copy on a live node is healthy again after a scan and a successful `stat` |
| Cluster.ValidReplicasAreBacked | distributed/metadata.py:173-200 | after any history of a new cluster in which no crash takes a file the service relies on (its row is settled, or a `stat` of it may still settle the row), every valid row is backed by a file with the chunk's length and digest, whoever asked for the confirmation and whenever |
| Cluster.ServeReliesOnAnswers | distributed/metadata.py:184-200 | no step of the service makes it rely on a file no node has answered for |
| Gateway.ValidReplicasSurviveCrashes | distributed/gateway.py:26-35 | with gateways that ask in turn and crashes at any moment, every valid row is backed by an acknowledged file with the chunk's length and digest |
| Gateway.HistoryKeepsGateway | distributed/gateway.py:26-35 | then no crash at any moment takes a file the service relies on |
| Gateway.BegunIsDurable | distributed/metadata.py:173-183 | a confirmation asked for in turn has tickets for acknowledged replicas only |
| Gateway.PrepareCovers | distributed/metadata.py:128-137 | a served prepare request hands out a ticket for every replica of its chunk |
| Witnesses.UnacknowledgedFileIsLost | distributed/storage.py:82-113 | a history in which a chunk is confirmed that no node acknowledged, and a crash takes a file of a valid row |
| Cluster.NoUploadDuringCleanup | distributed/storage.py:23-27 | while a deletion runs no upload can write its chunk on any node |
| Cluster.RemovalsSpareLiveReplicas | distributed/storage.py:126-130 | what a removal deletes is under deletion at that moment; every other file stays |
| Cluster.ActionKeeps | distributed/storage.py:77-130 | every step of service or node, crashes included, keeps rows, files and answers consistent |
| Cluster.CrashKeeps | distributed/storage.py:108-119 | a crash or restart keeps every acknowledged file as it was, and rows, files and answers consistent |
| Cluster.TruthfulNodesStrandNothing | distributed/metadata.py:288-303 | where nodes answer truthfully no reservation is ever stranded |
| Nodes.RunMoves | distributed/storage.py:78-130 | every run of a node, call by call, with failures and crashes, is a sequence of writes, acknowledgements, removals and crashes as the cluster knows them |
| Nodes.NewDiskMoves | distributed/storage.py:78-130 | so is every run of a new, empty disk |
| Nodes.StepIsAction | distributed/storage.py:78-130 | a call that acts on a request, and every crash, is an action of the cluster on this host; any other call changes nothing there |
| EndToEnd.PrepareLasts | distributed/metadata.py:130-137 | a served prepare request has fixed the chunk at its position with its digest, through any further run |
| EndToEnd.DigestHasOrigin | distributed/metadata.py:130-134 | over any run every digest goes back to a served prepare request with it for this position of this upload |
| EndToEnd.PreparedIsMadeOf | distributed/metadata.py:128-137 | if each piece of a file was prepared at its position, every chunk of the upload has the digest of its piece |
| EndToEnd.PublishedIsMadeOf | distributed/metadata.py:109-137 | the chunks of a published upload have the digests of a file's pieces if and only if nothing but pieces of the file, each at its position, was ever prepared for it |
| Cluster.OneContentPerChunk | distributed/storage.py:78-90 | after the first prepare every accepted write, every stored file and every verified answer has the one content |
| Cluster.LocatedReplicasServe | distributed/metadata.py:159 | as long as no crash takes a file the service relies on, every replica a reader is sent to holds exactly the chunk |
| EndToEnd.ReadBackIsTheFile | distributed/client.py:30-69 | over runs of the service with any nodes: if only pieces of a file were prepared for an upload and its object is published, then any download of it, each position asked for at any later moment, that passes the client's checks is exactly the file; honest replies pass |
| EndToEnd.ReadsBack | distributed/client.py:52-69 | the same for any upload whose chunks have the digests of the file's pieces |
| Durability.ChunksAreWhole | distributed/storage.py:91-119 | for any tickets, at every moment, crashes included, a chunk name is absent or holds the complete content some ticket for the chunk asked for, and stored bytes are within capacity |
| Durability.ContentNeverReplaced | distributed/storage.py:82-111 | whatever other tickets turn up, no call and no failure changes the content under a name; only a removal or a crash can take the name away |
| Durability.AcknowledgedContentStays | distributed/storage.py:82-119 | through any further calls, failures, restarts and crashes, and whatever other tickets turn up, an acknowledged chunk keeps its content until its removal is requested |
| Durability.CrashRestoresAMoment | distributed/storage.py:108-119 | after a crash a chunk holds, whole, what it held at some moment since the last directory synchronization |
| Durability.UnsyncedNameMayBeLost | distributed/storage.py:110-112 | before the directory is synchronized a crash can lose the new name |
| Storage.Storage.Put | distributed/storage.py:78-119 | for any ticket: each refusal exactly under its condition, CONFLICT exactly if other content is present, CAPACITY exactly if absent and too large; on success stored, complete, acknowledged; a call that fails fails the request, and before the link nothing is published; what was there is never replaced; on refusal nothing changed; other chunks untouched; every call a step of the durability model |
| Storage.Storage.WriteNew | distributed/storage.py:93-119 | the short-write loop and the sequence write, fsync, link, unlink, directory sync; any of them, a write after any number of bytes and the clean-up itself may fail |
| Storage.Storage.UsedBytes | distributed/storage.py:91 | the file-by-file sum is the number of stored bytes |
| Storage.Storage.Get | distributed/storage.py:120-125 | content if and only if present, bounded and as expected |
| Storage.Storage.Stat | distributed/storage.py:120-125 | succeeds if and only if the expected content is there |
| Storage.Storage.Remove | distributed/storage.py:126-130 | STALE for another process or volume; otherwise the chunk is gone and no other changed |
| Storage.Storage.Inventory | distributed/storage.py:67-73 | increasing ids, exactly those from the cursor up to the last one listed, at most 256; `more` exactly if a chunk lies beyond |
| Transfer.SendAll | distributed/client.py:41-50 | the paged loop terminates; it ends with nothing missing and each sent position fixed to its piece, or at a position that failed or has other content |
| Transfer.ScanInventory | distributed/metadata.py:288-305 | the inventory loop terminates, visits ids in increasing order, each present when asked, and misses none that stays |
| Transfer.Download | distributed/client.py:57-63 | succeeds exactly if every piece passes its checks and the lengths add up; returns the pieces in order |
| Transfer.PiecesAreTheFile | distributed/client.py:37-40 | the slices a client reads have the expected lengths and concatenate to the file |
| Transfer.DownloadedIsUploaded | distributed/client.py:52-69 | checked replies with the recorded digests are the file; honest replies pass the checks |
| Transfer.RelayUpload | distributed/gateway.py:26-35 | exactly which calls are made and what is answered: prepare, the writes in order up to the first that fails, confirm only after all of them |
| Transfer.RelayDownload | distributed/gateway.py:36-48 | returns the first replica that is verified and followed by a successful manifest request; every one before it is reported; a failed report ends with its error; DATA_UNAVAILABLE exactly after reporting all |
| Transfer.OnlyBadReplicasReportedIff | distributed/gateway.py:39-47 | every reported replica failed verification if and only if no replica that was reached verified, had its manifest request fail and its report succeed |
| Transfer.GoodReplicaMayBeReported | distributed/gateway.py:39-47 | two replicas for which a good one is reported |
| Crc32.ByteUpdate | protocol/encoder.cc:25-35 | one table look-up equals feeding the eight bits of a byte to the bit-by-bit definition |
| Crc32.BurstIsDetected | protocol/encoder.cc:25-35 | two equally long strings that differ only within 32 consecutive bits have different checksums |
| Crc32.FourByteDamageIsDetected | protocol/encoder.cc:25-35 | so do strings that differ only within four consecutive bytes |
| Crc32.CheckValue | protocol/encoder.cc:25-35 | the published check value: the checksum of the digits 1 to 9 is CBF43926 |
| Codec.Encoder.InitCRC32Table | protocol/encoder.cc:11-23 | the nested loops fill the table with eight register steps of each index |
| Codec.Encoder.CRC32 | protocol/encoder.cc:25-35 | the table-driven loop computes the CRC of section 8 of RFC 1952 |
| Codec.MessageHeader.EncodeTo | protocol/message_header.h:58-74 | on the buffer: bytes 0-1 spell the magic, 2-3 the version, 4-7 the type, 8-11 the body length, 12-15 the data length, 16-19 the request id, 20-23 the checksum, each most significant byte first; nothing else is written |
| Codec.MessageHeader.DecodeFrom | protocol/message_header.h:79-100 | each field is the number its bytes spell at the same offsets; true exactly if the buffer starts with 4D 46 |
| Frames.HeaderRoundTrip | protocol/message_header.h:58-100 | decoding an encoded header gives it back, whatever follows |
| Frames.HeaderBytesRoundTrip | protocol/message_header.h:58-100 | encoding a decoded header gives its 24 bytes back |
| Frames.WritesTheLayout | protocol/message_header.h:58-74 | the 24 bytes written for a header are exactly those that spell its fields at their offsets |
| Frames.ReadsTheLayout | protocol/message_header.h:79-100 | the header read from some bytes is exactly the one whose fields are spelled there |
| Frames.EncodesTheFrame | protocol/encoder.cc:38-71 | the encoding of a sendable message is exactly the byte string that starts with 4D 46, spells version, type, body length at 8, data length at 12, request id and, at 20, the checksum of itself with four zero bytes there, followed by body and data |
| Codec.EncodeMessage | protocol/encoder.cc:38-71 | header with lengths and checksum, body, data; for a sendable message the frame described by `Frames.EncodesTheFrame` |
| Codec.EncodeAll | protocol/encoder.cc:74-80 | the concatenation of the encodings |
| Codec.Decoder.TryParseMessage | protocol/decoder.cc:40-122 | delivers the message at the front, discards one byte, or waits, as the buffer alone decides; state and cached header stay consistent |
| Codec.Decoder.Feed | protocol/decoder.cc:11-27 | messages until bytes run out or one byte was discarded |
| Codec.Decoder.Reset | protocol/decoder.cc:34-37 | back to an empty buffer |
| Decoding.HeadConsumes | protocol/decoder.cc:43-119 | an event accounts for exactly the bytes it removes |
| Decoding.HeadStands | protocol/decoder.cc:43-119 | later bytes never change an event |
| Decoding.NothingIsLost | protocol/decoder.cc:11-27 | over any run of feeds on any bytes: discarded bytes and encodings of delivered messages, in order, plus the buffer, are the bytes fed |
| Decoding.LogIsAPrefix | protocol/decoder.cc:11-27 | however a stream is cut, what happened is a prefix of its events and the rest is in the buffer |
| Decoding.CompleteExactlyIfQuiet | protocol/decoder.cc:11-27 | all events of the stream have happened exactly if the buffer holds no further event |
| Decoding.CutsAgreeAtRest | protocol/decoder.cc:11-27 | two ways of cutting one stream agree once both are at rest |
| Decoding.FragmentsRoundTrip | protocol/decoder.cc:11-27 | any cutting of an encoded batch delivers exactly its messages, in order, with an empty buffer at the end |
| Decoding.CuttingMattersAfterGarbage | protocol/decoder.cc:48-53 | a byte of garbage and a frame in one feed deliver nothing until the next feed |
| Decoding.DamagedFrameIsRefused | protocol/decoder.cc:80-107 | a frame damaged within four consecutive bytes, magic, lengths and checksum aside, is not delivered |
| Wire.Exact | distributed/wire.py:23-30 | exactly `size` bytes however they arrive, or TRUNCATED |
| Wire.Receive | distributed/wire.py:32-44 | all checks in order, on any stream and any delivery |
| Wire.ReceivedByTheBytes | distributed/wire.py:32-44 | the answer to any bytes, written on the bytes: each refusal in order, and the body, data and request id taken from their offsets |
| Wire.Send | distributed/wire.py:46-51 | exactly up to 1 MiB of JSON and 4 MiB of data: a frame with magic 4D46, version 1, the kind, both lengths, the request id and its checksum, then body and data; else LIMIT and nothing |
| Wire.DecodersAgree | distributed/wire.py:32-44 | `receive` accepts a request exactly if the C++ decoder delivers it and it is version 1, kind 1 or 2, within limits, a JSON object |
| Wire.DeliveredByTheBytes | protocol/decoder.cc:43-119 | the C++ decoder's next event for any buffer, written on the bytes |
| Wire.SentIsReceived | distributed/wire.py:46-51 | what one side sends the other receives |
| Wire.SentIsDecoded | distributed/wire.py:46-51 | frames sent in Python reach the C++ decoder intact under any fragmentation |

## Left out

- The MySQL binding, SQL text, locks and migrations: a transaction is one atomic step, a unique key is a map key.
- HMAC, SHA-256 and JSON parsing: unforgeable tickets, an injective digest, an opaque body; `isObject` stands for the
  parser.
- Sockets, threads, process start-up, configuration parsing, command lines and disk measurement: represented by free
  steps, time and parameters. Request fields of the wrong type, object names and service keys are not modelled.
- The manifest query of the metadata service: it only returns columns.
- Retries of the client and its thread pool: sends are modelled one after the other.
- Schedules, rates and the repair bandwidth: that uploads, repairs and removals can be carried through, if the nodes do
  their part, is proved, not that someone does it, nor how fast.
- Transfer.SendAll: pieces are read from an unchanging file.
- MetadataService.Metadata.Claim: the row numbers of tasks are a parameter; the database hands them out.
- Runs.StepKeeps: repair tickets are minted outside any transaction (distributed/metadata.py:395) and are not among the
  tickets the protocol tracks; claims about ticket expiry are for upload tickets.
- The C++ server side (services, DAOs, sessions, thread and connection pools): it offers weaker and easier invariants.
