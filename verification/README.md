# SendSelf, modelled and verified

SendSelf keeps the devices of a "space" in step through a server that only ever sees ciphertext.
This project models the protocols that do the keeping, and proves what they promise. Keys, seals
and signatures are abstract values; what is modelled is who writes what, in which order, and what
survives when the steps interleave.

One SQL statement, one D1 batch, one IndexedDB transaction or one bucket operation is one atomic
step. Code that changes things in place is a class whose methods are proved against functions on
values. Protocols with several parties are transition systems over those functions, with an
invariant proved for every step and theorems about every run; where a method carries out a step or a
series of them, a method beside the runs ties the two. Where a promise needs more than the
code checks, the extra condition is a predicate on the step (`Obeys`, `Careful`, `Safe`, `Orderly`,
`Patient`, `Timely`), shown to be exact where it can be, and a lemma gives a run from the initial state
that breaks the promise without it.

| Part | Modules |
|---|---|
| Vault: server, replication, purging, tree, in-memory view | `VaultServer`, `VaultWrites`, `VaultReplication`, `VaultReplicaRuns`, `VaultPurge`, `VaultTree`, `VaultView`, `VaultViewRuns`, `VaultViewPasses`, `VaultViewCases`, `ParentLinks` |
| Group keys | `Keyring`, `KeyServer`, `KeyAdoption`, `KeyRotationRuns`, `KeyRotationResults`, `KeyRotationCases` |
| Outbox | `OutboxStore`, `OutboxRuns`, `OutboxFlush`, `OutboxAttempts`, `OutboxBytes` |
| Blob accounting | `BlobTable`, `VaultBlobs`, `VaultBlobCases`, `MessageBlobs` |
| Delivery | `Delivery`, `DeliveryRuns`, `DeliveryTables` |
| Device identities, signed statements | `Identity`, `IdentityResults`, `Statements` |
| Shared name | `SpaceName`, `SpaceNameCases` |
| Thread, encoding | `Grouping`, `Base64Url` |
| Shared definitions | `Basics`, `Sorting` |

## What the proofs found

The code is modelled as it is. These are the places where it does less than its own comments say.

- Two active devices can end with different keys for one epoch, the split brain that `apps/worker/src/routes/keys.ts:80-83` rules
  out. `KeyRotationCases.SplitBrain` is a run from the creation of a space: a batch refused because its caller was just revoked leaves its
  rows behind, and one of them then passes for the key that an accepted batch owes a device it does not name.
  `KeyRotationResults.OneKeyPerEpoch` gives the exact condition: no batch is accepted for an epoch that some key already waits for.
- A refused key rotation is not the "complete no-op" of the same comment. `KeyServer.RefusedBatchExact`
  says exactly what it leaves: rows for an epoch that never came, when the roster changed after it was checked
  (`KeyRotationResults.BatchStrayExact`), and always the caller's own epoch raised if it was the old one. `KeyServer.StrayKeyBlocksRotation`:
  such a row then fails every rotation that must name its device. `KeyRotationCases.LoserPassesAdoptionCheck`: the loser of a race passes
  the check that it adopted a key it lacks; `KeyRotationResults.LoserExact` says exactly which losers do.
- A rotation overlapping an adoption on one device saves a ring without the key just adopted and acknowledged, and no later run brings it
  back (`KeyRotationCases.OverlapLosesKey`); `rotateNow` (`apps/web/src/actions.ts:646-665`) is not serialised with the sync loop.
  `KeyRotationResults.DurableExact` says exactly which saves and acknowledgements lose a key.
- A winner that never hears its answer never gets the epoch's key (`KeyRotationResults.LostAnswerLosesTheKey`).
- The response to a device's own write can re-add a vault item a pull already dropped (`VaultReplicaRuns.LateResponseResurrects`);
  `VaultReplicaRuns.RememberExact` gives the exact condition.
- A rename typed between the sync's check and its adoption is dropped unsent (`SpaceNameCases.AdoptionDropsRename`), and sealing a name
  again under a new key can undo another device's rename (`SpaceNameCases.ResealUndoesRename`). `SpaceName.RenameLostExact` and
  `SpaceName.ResealExact` say exactly when.
- A known device's first signing key is taken with the trust the device already had when no chain vouches for it, so a scanned
  device stays `scanned` with a key nobody scanned (`IdentityResults.FirstSigningKeyKeepsTrust`).
- An item dropped from the open vault while a sync is opening records comes back into view until the next pass
  (`VaultViewRuns.DroppedReappearsExact`, `VaultViewCases.DroppedReappears`).
- Switching back to the space still shown, while another is being loaded, can show its items as the other's: `stillCurrent`
  (`apps/web/src/state/vaultItems.ts:100-102`) does not look at the space shown. `VaultViewCases.QuickSwitchCrosses` is such a run,
  `VaultViewRuns.OwnExact` the exact condition. Nothing is ever filed with the wrong space.
- An item restored into the deepest folder that still shows is hidden there (`VaultTree.DeepRestoreHides`).
- Reusing a vault blob key, or marking one under an upload still on its way, breaks the accounting
  (`VaultBlobCases.ReusedKeyIsDeleted`, `VaultBlobCases.MarkUnderUploadLeaks`), and nothing else does (`VaultBlobs.StepExact`).
- Dropping a message blob's row between its reservation and its record can put a space over quota (`MessageBlobs.ImpatientDeleteOverdraws`).
- A copy of a send that outlives the answer `key_rotated`, or a pinned key lost mid-send, can leave the server's object and its
  recorded IV apart (`OutboxBytes.StaleCopyMismatches`, `OutboxBytes.LostKeyMismatches`); `OutboxBytes.RotatedExact` and
  `OutboxBytes.BoundExact` say exactly which requests still on their way do the harm.
- A message deleted between the existence check and the write of `update` (`apps/web/src/sync/outbox.ts:246-251`) comes back
  (`OutboxFlush.Outbox.Update`).

## Model

| member | source | states |
|---|---|---|
| VaultServer.ApplyKeeps | apps/worker/src/vault.ts:23-82 | any write or cleanup keeps change numbers unique and rising, forgets only tombstones, and only at or below the floor it raised first |
| VaultServer.RunKeeps | apps/worker/src/vault.ts:180-208 | the same over every sequence of writes and cleanups |
| VaultServer.NoLostUpdate | apps/worker/src/routes/vault.ts:284-380 | two edits against one revision never both land, whatever commits between them |
| VaultServer.TreeStaysAcyclic | apps/worker/src/routes/vault.ts:308-335 | no create, move, restore, purge or cleanup ever nests a folder in itself |
| VaultServer.MoveGuardExact | apps/worker/src/routes/vault.ts:314-330 | the guard evaluated in the move refuses exactly the moves that would close a cycle |
| VaultServer.VaultTable.WriteRow | apps/worker/src/vault.ts:19-25 | a guarded write takes a fresh number and stamps its row with it, or changes no row |
| VaultServer.VaultTable.ForgetTombstones | apps/worker/src/vault.ts:180-208 | the floor rises to the newest tombstone about to go before any is deleted |
| VaultServer.VaultTable.Execute | apps/worker/src/routes/vault.ts:193-394 | a landed request leaves in its row what the request names, as it names it, and everything else, fields and rows, as it was |
| VaultWrites.LandsExactly | apps/worker/src/routes/vault.ts:193-394 | a write lands if and only if item, revision, folder, content and limit are as the request needs them at that moment |
| VaultWrites.SoundStays | apps/worker/src/routes/vault.ts:193-394 | no request, whenever it commits, gives content two owners, hangs anything under what is no folder, or takes the vault over its limit |
| VaultWrites.EditBeatsReseal | apps/worker/src/routes/vault.ts:396-445 | an edit that lands defeats any sealing again of the version before it, whatever commits in between |
| VaultWrites.ResealBlocksNoEdit | apps/worker/src/routes/vault.ts:396-445 | sealing an item again never makes an edit fail that would have landed |
| ParentLinks.SubtreeExact | apps/worker/src/routes/vault.ts:314-330 | the recursive query lists exactly the ids that reach the root by parent links, dangling and cyclic links included |
| ParentLinks.RelinkAcyclic | apps/worker/src/routes/vault.ts:314-330 | hanging one id under another keeps the links acyclic if and only if the new parent is not inside it |
| VaultReplication.AnswerReports | apps/worker/src/routes/vault.ts:137-190 | a page reports every row between its bounds as it stands, items and removals, with the cursor that continues it |
| VaultReplication.VaultChanges | apps/worker/src/routes/vault.ts:127-190 | a cursor below the floor restarts the listing from zero; otherwise the page continues it; no page holds more than 500 changes |
| VaultReplication.FoldGathers | packages/client/src/vault.ts:370-406 | folding a page into an incremental pull keeps it holding every change of its range, latest version only |
| VaultReplication.FoldRebuilds | packages/client/src/vault.ts:380-400 | folding a page into a full listing needs no floor: what it lists and drops is still on record |
| VaultReplication.FoldInto | packages/client/src/vault.ts:380-400 | the loop's in-place updates are the fold, and a reset page starts it over |
| VaultReplication.PullVaultChanges | packages/client/src/vault.ts:370-406 | over any traffic, the finished pull ends at the server's counter and holds every change since the cursor, or the server's live items after a reset |
| VaultReplication.ApplyVaultChanges | packages/client/src/vault.ts:412-425 | applying an answer keeps the newer version of every item, the incoming one of two alike, and drops what was removed |
| VaultReplication.ApplyKeepsStep | packages/client/src/vault.ts:412-425 | an answer applied to any copy in step with its cursor leaves the copy in step with the new one, own writes since included |
| VaultReplication.StoreAgreesWithApply | apps/web/src/db/store.ts:650-678 | the stored copy and the one in memory, which break ties differently, are always the same |
| VaultReplication.VaultCopy.StoreVaultChanges | apps/web/src/db/store.ts:650-678 | one transaction: reset, removals, items newer than the stored ones, and the cursor |
| VaultReplication.SyncVault | packages/client/src/vault.ts:370-425 | a copy in step with its cursor, pulled under any interleaved traffic and stored, equals the server's live items at the last page |
| VaultReplication.InStepSurvives | packages/shared/src/index.ts:906-928 | whatever other devices write, a copy in step with a cursor stays in step with it |
| VaultReplicaRuns.StepKeeps | packages/client/src/vault.ts:370-425 | every step of writes, cleanups, pages, applied answers and own responses keeps the replica invariant |
| VaultReplicaRuns.ReplicaCorrect | packages/client/src/vault.ts:370-425 | in every run in which responses are taken in only while `RememberExact` allows, the copy is right up to its cursor, and equals the live items once the cursor reaches the counter |
| VaultReplicaRuns.RememberExact | apps/web/src/state/vaultItems.ts:306-321 | storing an own response keeps the copy in step if and only if the item is still there or its latest change is still to be pulled |
| VaultReplicaRuns.NeverOlder | apps/web/src/db/store.ts:666-673 | no step replaces a stored item by an older version, except a rebuild |
| VaultReplicaRuns.PageRead | packages/client/src/vault.ts:370-406 | one turn of the client's loop against the server's route is one step of a run |
| VaultReplicaRuns.Remembered | apps/web/src/state/vaultItems.ts:306-321 | so is storing the response to an own write |
| VaultReplicaRuns.LateResponseResurrects | apps/web/src/state/vaultItems.ts:306-321 | a run in which a late response re-adds a purged item and a further pull does not remove it |
| VaultPurge.BatchExact | apps/worker/src/vault.ts:60-82 | a batch of tombstone statements purges exactly the named items that are alive and inside the root at that moment |
| VaultPurge.PurgeVaultItem | apps/worker/src/vault.ts:128-170 | when it returns nothing alive is reachable from the root, despite concurrent creates and moves; alone it purges exactly what was inside |
| VaultPurge.PurgeAlone | apps/worker/src/vault.ts:128-170 | with nothing else going on, what is purged is exactly what was alive and reached the root by its folders |
| VaultPurge.PurgeIsForGood | apps/worker/src/vault.ts:128-170 | after that, no sequence of later requests puts anything alive inside again |
| VaultPurge.RestoreWins | apps/worker/src/vault.ts:84-126 | a restore that lands before the claim defeats it |
| VaultPurge.PurgeExpiredVaultItem | apps/worker/src/vault.ts:93-126 | the claim lands and purges the contents, or was lost and nothing changed; nothing that has not expired is touched |
| VaultTree.VaultSubtree | packages/client/src/vault.ts:463-479 | the sweep ends with exactly the folder and everything nested in it |
| VaultTree.MoveOutsideSubtree | packages/client/src/vault.ts:462-479 | a move keeps the tree acyclic if and only if its target is outside that set |
| VaultTree.IsVaultItemVisible | packages/client/src/vault.ts:435-446 | the climb answers whether the item shows within 256 records |
| VaultTree.VisibleUnlessTooDeep | packages/client/src/vault.ts:431-446 | an item shows if and only if every folder above exists, none is trashed, and none lies 256 links up |
| VaultTree.SmallTreeShows | packages/client/src/vault.ts:431-446 | in a tree of up to 256 items depth never hides anything |
| VaultTree.RestoredItemShows | apps/web/src/state/vaultItems.ts:512-524 | a restored item keeps its folder if and only if that folder showed, goes to the root otherwise, and is shown except exactly when its folder showed only at the last depth |
| VaultTree.DeepRestoreHides | apps/web/src/state/vaultItems.ts:512-524 | records in which an item is put back where it does not show |
| VaultTree.VaultPath | packages/client/src/vault.ts:449-460 | the folders from the top down to the one asked for, each holding the next |
| VaultTree.PathUnique | packages/client/src/vault.ts:448-460 | there is only one such path |
| VaultView.VaultItems.Begin | apps/web/src/state/vaultItems.ts:92-97 | a new generation, with no sync running or asked for |
| VaultView.VaultItems.ClearVault | apps/web/src/state/vaultItems.ts:172-179 | a new generation, no space, nothing in memory |
| VaultView.VaultItems.PublishLoad | apps/web/src/state/vaultItems.ts:153-169 | a load publishes only if nothing replaced the view meanwhile |
| VaultView.VaultItems.SyncVault | apps/web/src/state/vaultItems.ts:187-215 | a sync starts for the open and loaded space, or is left to follow the one under way |
| VaultView.VaultItems.EndPass | apps/web/src/state/vaultItems.ts:194-207 | a finished pass is followed by the one asked for; a pass of a replaced view changes nothing |
| VaultView.VaultItems.Show | apps/web/src/state/vaultItems.ts:306-341 | a write's result is shown only in the space it was made in, never newer-for-older |
| VaultView.MergeOpened | apps/web/src/state/vaultItems.ts:244-257 | what opening produced, plus exactly the newer entries written while it ran |
| VaultViewRuns.StepKeeps | apps/web/src/state/vaultItems.ts:153-341 | every step of loads, syncs, writes, openings, closings and switches keeps what is on its way, and what is filed, with its own space |
| VaultViewRuns.OwnExact | apps/web/src/state/vaultItems.ts:83-102 | what is shown, and may yet be shown, stays the shown space's over a step if and only if it is not a switch back to the space still shown while another is being loaded |
| VaultViewRuns.NoCrossSpacePublication | apps/web/src/state/vaultItems.ts:83-102 | what is filed for a space came from it in every run, and what is shown for it in every run whose switches are safe |
| VaultViewCases.UnsafeSwitchCrosses | apps/web/src/state/vaultItems.ts:99-102 | from any unsafe switch there is a run that shows an item of the one space as the other's |
| VaultViewCases.QuickSwitchCrosses | apps/web/src/state/vaultItems.ts:99-102 | such a run from a page just opened |
| VaultViewRuns.ViewNeverGoesBack | apps/web/src/state/vaultItems.ts:306-321 | between loads and rebuilds an item that stays in view never returns to an earlier change |
| VaultViewRuns.RequestIsNoted | apps/web/src/state/vaultItems.ts:187-193 | a sync asked for during a pass, by the loop or after an own write, stays noted until the pass ends or the view is replaced |
| VaultViewRuns.RequestIsFollowed | apps/web/src/state/vaultItems.ts:194-207 | when that pass ends another starts, from the cursor then, if and only if the space shown is still the open one |
| VaultViewPasses.LoadRuns | apps/web/src/state/vaultItems.ts:104-169 | undisturbed, a load ends with the open space's copy shown in a generation of its own |
| VaultViewPasses.SyncRuns | apps/web/src/state/vaultItems.ts:187-300 | undisturbed, a sync ends with its answer applied to what is shown and to the copy, and the cursor moved |
| VaultViewPasses.WriteRuns | apps/web/src/state/vaultItems.ts:306-341 | undisturbed, a write ends filed and shown, nothing newer replaced, and a sync started |
| VaultViewPasses.OvertakenShowsNothing | apps/web/src/state/vaultItems.ts:83-102 | a load or sync overtaken by another view or space changes nothing in memory, whatever it does next |
| VaultViewRuns.DroppedReappearsExact | apps/web/src/state/vaultItems.ts:244-257 | an item dropped while a sync opens records returns to view if and only if that sync had read it |
| VaultViewCases.DroppedReappears | apps/web/src/state/vaultItems.ts:244-257 | a run in which an item dropped for good comes back into view |
| Keyring.WithEpochKeeps | packages/client/src/keyring.ts:40-49 | adding an epoch keeps the rest, and the epoch used for new content never moves back |
| Keyring.AdoptExact | apps/web/src/sync/rekey.ts:67-81 | adoption succeeds if and only if every needed delivery was sealed for this device and the epoch it comes under; held keys stay and every delivered key is added |
| Keyring.SortedBoxIsSame | apps/web/src/sync/rekey.ts:69 | sorting by epoch loses and doubles no delivery, so adoption does not depend on the order they came in |
| KeyAdoption.AdoptLoop | apps/web/src/sync/rekey.ts:67-81 | the loop computes adoption and the highest epoch delivered |
| KeyAdoption.AdoptPendingKeys | apps/web/src/sync/rekey.ts:57-90 | nothing changes unless every key opened and the ring was stored; only then does the server drop anything |
| KeyAdoption.SyncKeys | apps/cli/src/session.ts:45-79 | the send-only device's copy of the protocol meets the same specification |
| KeyAdoption.StoredBeforeDropped | apps/web/src/sync/rekey.ts:82-85 | every row the server drops is for an epoch the stored ring holds |
| KeyServer.RotationExact | apps/worker/src/routes/keys.ts:83-148 | the batch is accepted if and only if the epoch, the debt, the caller and the roster still hold, and then moves one epoch with one row per active device named |
| KeyServer.RefusedBatchExact | apps/worker/src/routes/keys.ts:79-148 | exactly what a refused batch changes: rows for whom it reached, and the caller's own epoch |
| KeyServer.StrayKeyBlocksRotation | apps/worker/src/routes/keys.ts:83-106 | a left-behind row fails every rotation that must name its device |
| KeyServer.GroupTable.Rotate | apps/worker/src/routes/keys.ts:79-148 | the statements in order, undone together on a primary-key conflict |
| KeyServer.GroupTable.AckKey | apps/worker/src/routes/keys.ts:162-184 | drops exactly the device's rows up to an epoch the group has had, never lowers its own epoch, and refuses any other |
| KeyServer.GroupTable.Revoke | apps/worker/src/routes/devices.ts:88-108 | the device is out, exactly its undelivered keys are gone, a rotation is owed |
| KeyServer.GroupTable.Join | apps/worker/src/routes/pairing.ts:164-235 | a device joins with the current epoch's key or not at all |
| KeyRotationRuns.Flow | apps/web/src/sync/rekey.ts:57-151 | every way a device comes by a key: it had it, it was sent it, it minted it and its batch was accepted, or it joined with it |
| KeyRotationRuns.StepKeeps | apps/web/src/sync/rekey.ts:57-151 | every step the code can take, overlapping saves and a moving roster included, keeps the invariant on who has which key |
| KeyRotationResults.OneKeyPerEpoch | apps/worker/src/routes/keys.ts:79-148 | all through any run the active devices have one key for each epoch, if and only if no batch is accepted for an epoch that a key already waits for |
| KeyRotationCases.SplitBrain | apps/worker/src/routes/keys.ts:79-148 | a run from the creation of a space that ends with two active devices encrypting the current epoch under different keys |
| KeyRotationResults.SteadyRingsAgree | apps/worker/src/routes/keys.ts:63-148 | while no roster changes under a batch, all rings agree across racing rotations, and none holds an epoch its device did not live through |
| KeyRotationResults.CurrentKeyIsHeld | packages/client/src/keyring.ts:33-49 | in every run each ring holds the key it encrypts with, and none newer |
| KeyRotationResults.KeysReachEveryDevice | apps/web/src/sync/rekey.ts:57-151 | all through any run every epoch since a device joined is stored, or waits for it, or is its own and about to be stored, if and only if no save or acknowledgement forgets one; saves from the stored ring never do |
| KeyRotationResults.DurableExact | apps/web/src/sync/rekey.ts:82-148 | which saves and acknowledgements forget a key, in terms of the stored ring, the saved ring and the waiting rows |
| KeyRotationResults.TheKeyReaches | apps/web/src/sync/rekey.ts:57-151 | what reaches a device is the one key of the epoch, openable by it |
| KeyRotationResults.RevokedNeverLearns | apps/worker/src/routes/keys.ts:19-32 | in every run, whatever races: a revoked device never has the key of a later epoch, under whatever number, and no row waits for it |
| KeyRotationResults.AckDropsOnlyStored | apps/web/src/sync/rekey.ts:82-85 | an acknowledgement never drops a wrap deposited after the poll it answers |
| KeyRotationResults.RingsOnlyGrow | packages/client/src/keyring.ts:40-49 | while saves start from the stored ring, no step takes a key from a device or moves it back |
| KeyRotationResults.BatchStrayExact | apps/worker/src/routes/keys.ts:63-148 | a batch leaves a stray row if and only if it was next in turn, the roster changed, and it reached someone |
| KeyRotationResults.SteadyBatch | apps/worker/src/routes/keys.ts:79-148 | while the roster holds still, the batch commits if it is next in turn, and else touches no more than the caller's own epoch |
| KeyRotationCases.OverlapLosesKey | apps/web/src/actions.ts:646-665 | a run from the creation of a space in which a rotation overlapping an adoption loses the adopted key, in every later run |
| KeyRotationResults.BereftForGood | apps/web/src/sync/rekey.ts:57-151 | a key a device neither has nor awaits, of an epoch the group has reached, stays out of its reach in every later run |
| KeyRotationResults.LoserExact | apps/worker/src/routes/keys.ts:41-45 | a lost batch raises its caller's epoch above what its ring holds if and only if the caller was at the old epoch, no key it brought was already waiting, and the key it lost to is not in its ring |
| KeyRotationCases.LoserPassesAdoptionCheck | apps/worker/src/routes/keys.ts:41-45 | a run from the creation of a space in which the loser of a race passes the adoption check without the key |
| KeyRotationResults.LostAnswerLosesTheKey | apps/web/src/sync/rekey.ts:133-150 | a winner that never hears its answer never holds that epoch's key in any later run |
| OutboxStore.PutCovers | apps/web/src/db/store.ts:277-290 | a batch of rows and its index entries keep every queued row listed |
| OutboxStore.QueuedPart | apps/web/src/db/store.ts:463-470 | the queued part of the history is a full listing of the queue, in order |
| OutboxStore.ListsWhole | apps/web/src/db/store.ts:391-412 | with a covering index, reading the listed rows is reading them all |
| OutboxStore.Database.TrackOutbox | apps/web/src/db/store.ts:277-290 | the last message of an id decides whether the id is listed; when only adding, none leaves |
| OutboxStore.Database.UntrackOutbox | apps/web/src/db/store.ts:293-305 | ids leave the index, if there is one |
| OutboxStore.Database.PutMessage | apps/web/src/db/store.ts:307-324 | an outgoing row and its entry in one transaction, listed if and only if it is owed; an incoming row alone |
| OutboxStore.Database.PutOutgoingFileMessages | apps/web/src/db/store.ts:331-356 | a batch of rows and entries in one transaction, the last row of an id standing |
| OutboxStore.Database.DeleteMessage | apps/web/src/db/store.ts:373-380 | row and entry go together |
| OutboxStore.Database.DropStale | apps/web/src/db/store.ts:422-436 | only entries whose row is still the one judged are dropped |
| OutboxStore.Database.TrackQueued | apps/web/src/db/store.ts:445-456 | every queued message given is listed afterwards, and nothing is removed |
| OutboxStore.Database.PruneHistory | apps/web/src/db/store.ts:496-537 | exactly the readable old rows that owe nothing go, and their entries; an old row under another key stops it before anything goes |
| OutboxStore.Database.QueuedMessages | apps/web/src/db/store.ts:391-414 | run alone, exactly the queued messages this context can open, oldest first, by index or by scan |
| OutboxStore.Database.RebuildOutboxIndex | apps/web/src/db/store.ts:463-482 | lists every queued row it could open, and never drops one; complete only if every row opened or it already was |
| OutboxRuns.StepKeeps | apps/web/src/db/store.ts:268-482 | every transaction of every operation in flight keeps the index invariant |
| OutboxRuns.CompleteIndexMissesNothing | apps/web/src/db/store.ts:147-160 | from any history without an index, in every run, a complete index lists every queued row |
| OutboxRuns.StaysComplete | apps/web/src/db/store.ts:289 | no transaction takes completeness back |
| OutboxRuns.UncheckedDropLoses | apps/web/src/db/store.ts:416-421 | dropping an entry is safe if and only if its row is not queued at that moment |
| OutboxRuns.Transact | apps/web/src/db/store.ts:268-537 | each transaction of the database is the step of that name |
| OutboxRuns.JudgedRuns | apps/web/src/db/store.ts:391-436 | an indexed read drops the entry of a row it found done, unless the row is queued again before it does |
| OutboxFlush.Outbox.PinEpoch | apps/web/src/sync/outbox.ts:307-321 | a held pin is reused without a write; otherwise the current epoch is pinned and stored |
| OutboxFlush.Outbox.Update | apps/web/src/sync/outbox.ts:246-251 | a message deleted before the check is not brought back; one deleted between the check and the write is |
| OutboxFlush.Outbox.SendQueued | apps/web/src/sync/outbox.ts:331-463 | one attempt leaves exactly the row its outcome calls for |
| OutboxFlush.Outbox.DoFlush | apps/web/src/sync/outbox.ts:184-244 | a pass treats every due message in turn, stops at the first that is handed over, and counts what is still owed |
| OutboxFlush.PassKeepsMessages | apps/web/src/sync/outbox.ts:184-244 | a queued message leaves a pass still queued, sent because the server took it, or failed for the user to decide |
| OutboxFlush.PassTreats | apps/web/src/sync/outbox.ts:184-244 | a message leaves the pass sent if and only if the server took or had it, failed if and only if it was refused or cannot succeed, and else queued, due at once unless the failure counts |
| OutboxFlush.BackOffWaits | apps/web/src/sync/retry.ts:14-29 | waits double from the first to the longest, never shrink, and nothing is due before they are over |
| OutboxFlush.StepKeeps | apps/web/src/sync/outbox.ts:141-463 | every step of flushes, crashes, late requests and the server, at any moment, keeps the pin invariant |
| OutboxFlush.OneCiphertextPerPin | apps/web/src/sync/outbox.ts:298-306 | in every run all uploads under one pin use one epoch and one IV |
| OutboxFlush.StoredBeforeUpload | apps/web/src/sync/outbox.ts:410-421 | no upload starts before its pins are stored |
| OutboxFlush.PinsAreKept | apps/web/src/sync/outbox.ts:197-241 | a stored pin is dropped only on `key_rotated` or the loss of its key |
| OutboxFlush.SentMeansAccepted | apps/web/src/sync/outbox.ts:436-463 | a message is marked sent only after the server took it or answered `conflict` |
| OutboxFlush.InterruptedIsPickedUp | apps/web/src/db/queue.ts:3-15 | a row left uploading is due for the next pass at once |
| OutboxAttempts.Attempted | apps/web/src/sync/outbox.ts:331-463 | the code of one attempt leaves the row that a run of steps leaves |
| OutboxAttempts.HeardRuns | apps/worker/src/routes/messages.ts:60-215 | an undisturbed attempt ends with the server holding the message and its file under the pins in the row, or turning it down |
| OutboxAttempts.RefusedRuns | apps/worker/src/routes/messages.ts:60-215 | a file swept before its message is sent: refused, and failed until the user tries again |
| OutboxAttempts.DeletedRuns | apps/web/src/sync/outbox.ts:246-251 | a message deleted during its send is sent all the same and leaves no row |
| OutboxAttempts.LedgerExact | apps/web/src/sync/outbox.ts:298-463 | what a run remembers is what happened: pins numbered as they change, uploads as they start, acceptance as the server takes the message |
| OutboxAttempts.NothingComesBack | apps/worker/src/routes/messages.ts:60-215 | a row the user deleted stays deleted, and what the server registered stands until it is purged |
| OutboxBytes.RegisteredBytesOpen | apps/worker/src/routes/messages.ts:86-109 | while pins are dropped only with nothing under them at large, the object of a registered message was made with the epoch and IV recorded for it |
| OutboxBytes.BoundExact | apps/worker/src/routes/messages.ts:86-109 | a step unbinds the server from the pins in force if and only if it drops a pin while something under it is registered or can still land |
| OutboxBytes.RotatedExact | apps/worker/src/routes/messages.ts:94-109 | dropping the pin on `key_rotated` can end in a mismatch if and only if a checked send, an upload or a send for an epoch not yet passed is on its way, or the message got registered |
| OutboxBytes.StaleCopyMismatches | apps/worker/src/routes/messages.ts:86-109 | a run from a queued file in which a second copy of the send registers an IV that does not open the object |
| OutboxBytes.LostKeyMismatches | apps/web/src/sync/outbox.ts:307-321 | a run from a queued file in which losing the pinned key mid-send does the same |
| BlobTable.ReservedFits | apps/worker/src/blobs.ts:78-120 | a granted reservation leaves the space within quota, the key charged in full and other spaces alone |
| BlobTable.RecordedTotal | apps/worker/src/blobs.ts:127-143 | a record changes the total exactly by what its row did not cover |
| BlobTable.BlobStore.ReserveBlob | apps/worker/src/blobs.ts:96-120 | granted if and only if the space would stay within its quota and the row is not marked; the larger of the two sizes is charged |
| BlobTable.BlobStore.RecordBlob | apps/worker/src/blobs.ts:127-143 | never shrinks a row and never touches a marked one |
| BlobTable.BlobStore.DeleteUnclaimedBlobs | apps/worker/src/blobs.ts:209-240 | exactly the unclaimed blobs go; a failing batch keeps its objects and its rows, marked, and what comes after it is untouched |
| BlobTable.BlobStore.PurgeOrphanBlobs | apps/worker/src/blobs.ts:256-289 | the sweep ends with exactly the abandoned uploads gone, in either kind of bucket |
| VaultBlobs.StepExact | apps/worker/src/blobs.ts:44-64 | a step keeps objects accounted, claims unmarked, uploads covered and deletions off claimed keys if and only if it neither marks under an upload nor grants a key a cleanup holds |
| VaultBlobs.RunExact | apps/worker/src/blobs.ts:44-64 | the same over whole runs |
| VaultBlobs.ClaimedContentSurvives | apps/worker/src/blobs.ts:56-64 | while an item claims it, content in the bucket stays there and stays charged |
| VaultBlobs.EveryObjectIsAccounted | apps/worker/src/blobs.ts:87-94 | in every reachable state each object has its row, and nothing about to be deleted is claimed |
| VaultBlobs.MarkedIsFinal | apps/worker/src/routes/vault.ts:91-101 | a marked row can be neither reserved, recorded nor claimed again |
| VaultBlobs.UnmarkedRowStays | apps/worker/src/blobs.ts:229-240 | no step takes a row that is not marked from the table |
| VaultBlobs.CleanedUp | apps/worker/src/blobs.ts:209-240 | the code of one cleanup batch does what a run of steps does |
| VaultBlobs.UploadRuns | apps/worker/src/routes/files.ts:90-150 | an undisturbed upload ends in the bucket and charged for |
| VaultBlobCases.MarkUnderUpload | apps/worker/src/blobs.ts:213-228 | nothing in the mark keeps it off a key whose upload, begun on an empty store, is still on its way |
| VaultBlobCases.MarkUnderUploadLeaks | apps/worker/src/routes/files.ts:45-56 | a run from an empty store in which marking under an upload leaves an object without a row |
| VaultBlobCases.ReusedKeyIsDeleted | apps/worker/src/blobs.ts:47-64 | a run from an empty store in which a key granted again under a cleanup has its claimed content deleted |
| MessageBlobs.NothingGoesUncounted | apps/worker/src/blobs.ts:85-94 | for any interleaving, an object is charged in full, or about to be recorded at its size, or about to go |
| MessageBlobs.QuietStoreIsExact | apps/worker/src/blobs.ts:85-94 | with nothing in flight every object is charged in full |
| MessageBlobs.SpaceStaysWithinQuota | apps/worker/src/blobs.ts:78-120 | while no key is dropped between its reservation and its record, no space goes over quota |
| MessageBlobs.PatientExact | apps/worker/src/blobs.ts:122-143 | a step keeps the quota and every upload's reservation if and only if it drops no key under an upload that means to record it |
| MessageBlobs.FailedUploadRuns | apps/worker/src/routes/files.ts:45-56 | an upload that fails leaves neither row nor object of its key |
| MessageBlobs.Swept | apps/worker/src/blobs.ts:256-289 | the orphan sweep's round is a deletion of the runs' kind |
| MessageBlobs.ImpatientDeleteOverdraws | apps/worker/src/blobs.ts:122-143 | a run from an empty store in which such a drop ends with a space over quota |
| Identity.IdentityStore.PinScannedDevice | apps/web/src/crypto/identity.ts:130-138 | scanned keys replace whatever was held |
| Identity.IdentityStore.SeedInheritedIdentities | apps/web/src/crypto/identity.ts:145-159 | the introducer's view is taken in, scanned entries excepted |
| Identity.IdentityStore.FirstPass | apps/web/src/crypto/identity.ts:224-251 | the roster is split into what contradicts a held key and what is open |
| Identity.IdentityStore.Round | apps/web/src/crypto/identity.ts:253-286 | one round keeps every resolved entry earned by a chain; one without progress leaves nothing resolvable |
| Identity.IdentityStore.ReconcileDevices | apps/web/src/crypto/identity.ts:220-305 | the stored beliefs are exactly what chains of attestations earn, and every contradiction is reported |
| Identity.StuckHasNoChain | apps/web/src/crypto/identity.ts:253-286 | when nothing waiting can be resolved, nothing waiting has a chain |
| Identity.ChainUnique | apps/web/src/crypto/identity.ts:253-286 | a device's chain is the only one |
| IdentityResults.AttestedExactly | apps/web/src/crypto/identity.ts:211-219 | an unknown device becomes attested if and only if its chain starts at a held signing key not itself taken on first sight |
| IdentityResults.ForeignAttestationEarnsNothing | apps/web/src/crypto/identity.ts:261-270 | an attestation for another group earns nothing: the entry is the one held, or the first-sight one |
| IdentityResults.AttestedIsCovered | apps/web/src/crypto/identity.ts:186-209 | whoever becomes attested carries an attestation for this group, of its id and both its keys, under the key of the signer it names |
| IdentityResults.CoveredEarns | apps/web/src/crypto/identity.ts:253-286 | such an attestation is worth what its signer is worth: attested from a held key not taken on first sight, and from a new device what that device earned |
| IdentityResults.EntryExact | apps/web/src/crypto/identity.ts:220-305 | what each listed device's entry is: keys held stay, and new ones are the roster's |
| IdentityResults.CircleEarnsNothing | apps/web/src/crypto/identity.ts:253-286 | circles of attestations, self-signatures included, earn nothing |
| IdentityResults.OrderIrrelevant | apps/web/src/crypto/identity.ts:220-305 | the roster's order changes neither the beliefs nor the report |
| IdentityResults.HeldKeysStay | apps/web/src/crypto/identity.ts:229-251 | no key held for a listed device is ever replaced |
| IdentityResults.ChangedExact | apps/web/src/crypto/identity.ts:229-251 | exactly the mismatches with a held key are reported |
| IdentityResults.ReportedExactly | apps/web/src/crypto/identity.ts:229-251 | the report names a device if and only if the roster gives another key than the one held |
| IdentityResults.OnlyListedDevicesStay | apps/web/src/crypto/identity.ts:295-300 | the stored ids are exactly the roster's, and nothing stays open |
| IdentityResults.ReconcilingTwice | apps/web/src/crypto/identity.ts:220-305 | the same roster again gives the same beliefs and the same report |
| IdentityResults.VerdictsSurviveTheRoster | apps/web/src/crypto/identity.ts:307-334 | no roster can make a checked sender unchecked or change a verdict |
| IdentityResults.VerdictExact | apps/web/src/crypto/identity.ts:307-334 | verified is the device's own signature under the key held, unverified that no key is held, invalid everything else |
| IdentityResults.OneSignatureOneEntry | apps/web/src/crypto/identity.ts:186-209 | one signature vouches for one device, one pair of keys, one signer and one group |
| IdentityResults.SeedingKeepsScanned | apps/web/src/crypto/identity.ts:145-159 | what was scanned survives any introduction, and nothing else arrives as scanned |
| IdentityResults.SeededExact | apps/web/src/crypto/identity.ts:145-159 | an entry not scanned is that of the last introduction naming it, or else as it was |
| IdentityResults.FirstSigningKeyKeepsTrust | apps/web/src/crypto/identity.ts:248-294 | a first signing key without a chain keeps the device's earlier trust |
| Statements.AttestationInjective | packages/shared/src/index.ts:273-283 | one attestation text, one set of fields, for ids and keys free of the separator |
| Statements.DeleteInjective | packages/shared/src/index.ts:308-317 | one deletion text, one set of fields |
| Statements.InviteInjective | packages/shared/src/index.ts:494-503 | one invitation text, one set of fields |
| Statements.MessageInjective | packages/shared/src/index.ts:346-362 | one message text, one set of fields, whatever the ciphertexts contain, absent never equal to empty |
| Statements.PartUnique | packages/shared/src/index.ts:347-348 | a length-prefixed part can be read off whatever follows it |
| Statements.KindsNeverCoincide | packages/shared/src/index.ts:294-307 | no text of one kind is a text of another, whatever the fields |
| Statements.OneTextOneStatement | packages/shared/src/index.ts:262-503 | one text, one statement, over all four kinds |
| Statements.SeparatorInIdCollides | packages/shared/src/index.ts:267-272 | with a separator in an id two attestations share a text |
| SpaceName.NameServer.UpdateSpaceName | apps/worker/src/routes/space.ts:26-63 | a name sealed under the current key is stored with a later stamp; any other is refused |
| SpaceName.Device.RenameSpace | apps/web/src/db/spaces.ts:180-184 | the new name, cleaned, is shown and owed |
| SpaceName.CleanedExact | apps/web/src/db/spaces.ts:180-184 | a name is what lies between the first and the last character that is no space, and none if there is no such |
| SpaceName.Device.AdoptSpaceName | apps/web/src/db/spaces.ts:187-195 | another device's name replaces the local one, and any debt |
| SpaceName.Device.MarkSpaceNamePublished | apps/web/src/db/spaces.ts:204-216 | the stamp is taken on, and the debt ends if and only if the name published is the one the record holds |
| SpaceName.Device.PublishSpaceName | apps/web/src/sync/spaceName.ts:107-130 | the shown name is stamped, or everything stays owed |
| SpaceName.Device.SyncSpaceName | apps/web/src/sync/spaceName.ts:71-100 | run alone on line, a pass leaves nothing owed and the device showing the server's name, sealed under the current key; a newer name it cannot open changes nothing |
| SpaceName.StampNamesName | apps/web/src/sync/spaceName.ts:47-130 | in every run, a device that owes nothing and has a stamp shows exactly the name the server stamped with it |
| SpaceName.DevicesAgree | apps/web/src/sync/spaceName.ts:56-70 | once nothing is owed and all have the latest stamp, all show the name stamped last |
| SpaceName.OwedRenameExact | apps/web/src/db/spaces.ts:180-216 | an untaken rename stays owed over a write, however reads and writes interleave, unless it is another rename, an adoption, or an answer put together from a record without it |
| SpaceName.RenameLostExact | apps/web/src/db/spaces.ts:180-216 | through any run an owed rename stays owed until the server takes it if and only if no such write lands first |
| SpaceName.ResealExact | apps/web/src/sync/spaceName.ts:91-99 | sealing a name again leaves the space its name if and only if the name last stamped is still the one sealed |
| SpaceNameCases.AdoptionDropsRename | apps/web/src/sync/spaceName.ts:75-88 | a run of two devices in which a rename written between the check and the adoption is dropped unsent |
| SpaceNameCases.ResealUndoesRename | apps/web/src/sync/spaceName.ts:91-99 | a run of two devices in which sealing a name again undoes the other device's rename |
| Delivery.SentIsAwaited | apps/worker/src/db.ts:29-48 | a new message is waited for by exactly the active devices that collect messages, its sender never |
| Delivery.MessageTable.DeleteMessages | apps/worker/src/db.ts:51-73 | batch by batch, the messages, their delivery rows and their files go |
| Delivery.MessageTable.PurgeDeliveredMessages | apps/worker/src/db.ts:80-98 | the sweep ends with exactly the messages nobody is awaited for gone |
| Delivery.MessageTable.PurgeExpiredMessages | apps/worker/src/db.ts:135-149 | the sweep ends with exactly the messages past their time gone |
| Delivery.MessageTable.AckMessage | apps/worker/src/routes/messages.ts:254-289 | one device's row is confirmed, and the last confirmation deletes message and file |
| Delivery.Receiver.DecryptBudgetExhausted | apps/web/src/sync/sync.ts:86-94 | true on the third failure in a row, which starts the count over |
| Delivery.Receiver.DownloadAndAck | apps/web/src/sync/sync.ts:599-667 | it confirms if and only if the file is stored by now, or was not found, or has used up its failures to open, or there is none; a failed, early or keyless attempt leaves it wanted |
| DeliveryRuns.Attempted | apps/web/src/sync/sync.ts:599-667 | the code of one attempt does what a run of steps does |
| DeliveryRuns.ConfirmedMeansSettled | apps/web/src/sync/sync.ts:594-598 | in every reachable state a confirmation follows storing, loss, or three failures to open |
| DeliveryRuns.StepKeeps | apps/web/src/sync/sync.ts:460-667 | every step of every recipient and of the server keeps the delivery invariant |
| DeliveryRuns.FileOutlastsDelivery | apps/worker/src/db.ts:75-98 | unless expiry or a deletion cuts it short, the file goes only after every unrevoked recipient stored it, gave up on it or destroyed it |
| DeliveryTables.SentStarts | apps/worker/src/db.ts:29-48 | a message as registered is the start of such a run, for the recipients it then has |
| DeliveryTables.Acknowledged | apps/worker/src/routes/messages.ts:254-289 | a confirmation at the server is the run's, and deletes message and file if and only if it was the last awaited |
| DeliveryTables.SweptDelivered | apps/worker/src/db.ts:80-98 | the sweep takes a message if and only if the run may purge it |
| DeliveryTables.SweptExpired | apps/worker/src/db.ts:135-149 | expiry cuts a run short, and leaves the messages still in time alone |
| DeliveryTables.LedgerExact | apps/web/src/sync/sync.ts:599-667 | what a run remembers is what happened: a store only on a successful save, a failure only on one, a cut only on expiry or deletion |
| DeliveryTables.RegisterExact | apps/web/src/sync/sync.ts:460-590 | a description that fails to open is dropped, with the file, on the third failure in a row and not before |
| DeliveryTables.RevokeExact | apps/worker/src/routes/devices.ts:88-98 | a revoked device is waited for no longer; what it confirmed, and everybody else's row, stays |
| Grouping.GroupMessages | apps/web/src/state/grouping.ts:97-131 | the index loop computes the grouping |
| Grouping.GroupingIsFaithful | apps/web/src/state/grouping.ts:97-131 | every message is in exactly one entry, a maximal run of one batch id and one sender, albums stably sorted by the index they were picked at |
| Grouping.CutsUnique | apps/web/src/state/grouping.ts:97-131 | there is only one such grouping |
| Grouping.CutsAreTimed | apps/web/src/state/grouping.ts:61-64 | for a list in time order the entry times never decrease, albums re-sorted by index included |
| Grouping.CutsKeepEveryMessage | apps/web/src/state/grouping.ts:97-131 | the entries hold the list's messages, each once |
| Grouping.KeysAreDistinct | apps/web/src/state/grouping.ts:116-120 | two entries never share a key, two runs of one batch included |
| Grouping.NoticesNeverDisturb | apps/web/src/state/grouping.ts:84-95 | without its notices the thread reads as grouped if and only if the entries were in time order |
| Grouping.ThreadIsFaithful | apps/web/src/state/grouping.ts:84-95 | a list in time order gives a thread in time order with every message and notice in it |
| Base64Url.BufToBase64Url | packages/shared/src/base64url.ts:11-16 | the byte loop computes the encoding |
| Base64Url.Base64UrlToBuf | packages/shared/src/base64url.ts:18-25 | the byte loop computes the decoding, or its exception |
| Base64Url.RoundTrip | packages/shared/src/base64url.ts:11-25 | decoding undoes encoding for every byte sequence |
| Base64Url.EncodedText | packages/shared/src/base64url.ts:11-16 | the text uses only the URL-safe alphabet of section 5 of RFC 4648, is unpadded, and has the exact length |
| Base64Url.EncodedBits | packages/shared/src/base64url.ts:11-16 | each character is the symbol of section 5 of RFC 4648 for the next six bits |
| Base64Url.DecodesExact | packages/shared/src/base64url.ts:18-25 | text is decoded if and only if it is symbols of either alphabet with at most the padding that completes them |
| Base64Url.EncodeInjective | packages/shared/src/base64url.ts:11-25 | two contents never share an encoding |
| Sorting.SortByExact | apps/web/src/state/grouping.ts:94 | a sort by key orders, loses nothing and keeps equal keys in place |
| Sorting.PartLeftInPlace | apps/web/src/state/grouping.ts:94 | a stable sort leaves a part as it reads if and only if that part was in order |

## Left out

- VaultReplication.SyncVault: during a rebuild, tombstones written since it began are assumed not to be forgotten before it ends (they are kept 90 days).
- VaultReplicaRuns.ReplicaCorrect: a response to an own write is taken in only where `VaultReplicaRuns.RememberExact` allows; `VaultReplicaRuns.LateResponseResurrects` is the run without that.
- KeyRotationResults.TheKeyReaches: says nothing of the epochs whose winner missed its answer; `KeyRotationResults.LostAnswerLosesTheKey` does.
- KeyServer.GroupTable.Join: a joining device is assumed to collect the package wrapped for it, and device ids to be new.
- VaultBlobs.ClaimedContentSurvives: assumes no upload of a key is on its way when it is marked, and no key is reserved anew under a cleanup still at work on it.
- MessageBlobs.NothingGoesUncounted: an upload whose worker dies stays in flight for ever, and a bucket deletion that fails stays pending until the object expires.
- OutboxBytes.RotatedExact: exact for the answer `key_rotated`; for a pinned key lost mid-send the exact condition is on the binding (`OutboxBytes.BoundExact`), with one run to a mismatch.
- OutboxFlush.StoredBeforeUpload: says nothing of a message the user deleted during the send.
- OutboxFlush.StepKeeps: a deletion undone between a check and its write reads, in the runs, as one that never happened.
- VaultViewRuns.NoCrossSpacePublication: the session in memory is taken to be the open space's.
- Identity.IdentityStore.ReconcileDevices: roster ids are distinct, as the table's primary key makes them.
- Cleanup batching: the cleanup's batches of tombstones and its choice of expired items are one step each.
- Progress: loops are proved to end for any finite traffic; fairness and wall-clock time are not modelled.
- Cryptography: keys, seals, IVs and signatures are opaque values; encodings of ECDH, ECDSA and AES-GCM are not part of this model.
- Strings: a character is one unit of a string's length; a signed text is not followed through its UTF-8 encoding.
- White space: names are trimmed of spaces only, and base64 text is taken without white space.
- Requests: routing, validation of fields, rate limits, roles, push and realtime notices, and HTTP retries appear only as their outcomes.
- Vault usage figures, note excerpts, uploads and content caches: they follow the modelled state and carry no promise of their own.
- `albumCaption`: a single lookup over an album already proved faithful.
- The at-rest lock and recovery file: rows appear as sealed under a key or not; the migration between the two only as its row rewrite.
- Deletions for everyone: the set of deleted ids and the tombstone messages appear only as an early end of a delivery.
- Space records on a locked device: a name that cannot be opened reads as none and is not modelled.
