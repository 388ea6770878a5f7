# Shared playback, proved

A Dafny model of the parts of the player that must agree about one queue, and of three
smaller stateful cores beside it.

- **The Connect hub** keeps one playback state per user: a queue, a current entry, a region of
  entries queued to play next, a position clock, the active device, a queue revision and a
  sequence number. Commands, reports, pushes, transfers and disconnects change it.
  `IndexMaps.dfy`, `IndexMapLaws.dfy`, `Playback.dfy`, `QueueReducer.dfy`, `QueueLaws.dfy`,
  `Hub.dfy`, `HubRuns.dfy`, `HubLaws.dfy`.
- **The queue selection** of the user interface follows the hub's revision and index map over
  a channel that may lose messages. `Selection.dfy`.
- **The Connect client runtime** decides what the first snapshot does to a local queue, asks
  the user, and holds the gate until the answer. `ConnectRuntime.dfy`, `ConnectWorld.dfy`,
  `ConnectHold.dfy`, `ConnectCopy.dfy`, `ConnectLaws.dfy`, `ConnectPush.dfy`, `ConnectScenarios.dfy`.
- **The cover-art cache** writes in an order that survives crashes and lets concurrent requests
  share one refresh. `CoverArtStore.dfy`, `SingleFlight.dfy`.
- **The fallback scrobbler** accounts the time a track plays. `Scrobble.dfy`.
- **The cover-art scheduler** runs four fetches at a time. `FetchScheduler.dfy`.

What the source updates in place is a class whose methods are proved equal to a specification
function on the state (`View()` gives the state as a value). The laws are lemmas about those
functions, and the run-level theorems quantify over every sequence of events or every
interleaving of critical sections.

## Assumptions

- Each server handler is one atomic step at one instant. The code holds no lock between
  loading and saving the shared state and reads the clock twice.
- The store is a total map keyed by user: a user never saved has the empty state at sequence 0.
  Devices have non-empty ids, as `server/internal/auth/manager.go:51` demands.
- JSON encoding and decoding are the identity up to normalization. A queue entry is its id and
  an opaque payload.
- Broadcasts reach a client in order and any of them may be missing.
- In the client runtime, one step is one critical section of its mutex, one visit to the
  backend, or one write to the connection, with the tests on local values behind it. A message
  that has passed its tests is prepared until it is written, whether it waits in its thread or
  in the connection's channel, and may never be written. Which handler runs next, what the user
  chooses, and whether the backend or the writer fails are arbitrary. Handlers may overlap
  freely, although the source takes the messages of one connection one after the other.
- One file operation is atomic, but a write can leave part of the file. Refreshes of one
  directory do not overlap (`SingleFlight.OneLeaderPerKey`).
- A scrobble report is handled at a single instant. The source reads the clock for the account
  and again for the test that follows it.

## Main theorems

- `Selection.BroadcastSelectionDenotesChosen`: for every run of the hub and every lossy delivery,
  the selection is cleared or denotes the very entries the user chose.
- `QueueLaws.QueueCommandLaw`, `IndexMapLaws.MovedMapLaw`: the index-map law of every accepted
  queue command.
- `QueueLaws.BatchRemovalRegion`, `BatchRemovalCurrent`, `BatchRemovalPosition`,
  `BatchRemovalPlaying`, `SingleAndBatchRemovalAgree`: what a removal does to the cursors.
- `HubLaws.AcceptedExactly`, `PushStores`, `ReportStored`, `QueueCommandOwner`: when a message is
  accepted, what it stores, and to whom the session then belongs.
- `HubRuns.RunNormalized`, `SequenceOrdersRun`, `NoLostUpdate`, `RunKeepsActiveOnline`,
  `ClockBound`: safety of every run of the hub.
- `ConnectHold.HoldUntilAnswered` with `HeldExactly`, `LocalKeptExactly` and `NoReportExactly`,
  `ConnectCopy.CopyRun` with `CopyStandsExactly`, `ConnectPush.PushOverRun`: the hold on a local
  queue, the synced copy, and a push through both parties.
- `ConnectLaws.SnapshotAnswered`, `EmptyQueueNeverAsks`, `MessageAppliesExactly`,
  `PullAppliesShown`: what a device decides, shows, applies and sends.
- `CoverArtStore.CacheSurvivesCrashes`, `SingleFlight.FollowerGetsLeadersResult`,
  `Scrobble.SessionScrobbles` with `OutputIsBySession`, `FetchScheduler.SchedulerGuarantees`.

## Where the code falls short

For each of these the exact condition under which the expected property holds is proved, and
a state or a run that breaks it is named.

- The single removal decides about the position after it has adjusted the current index
  (`server/internal/realtime/hub.go:629-638`). It rewinds a surviving current entry that
  directly followed the removed one, and keeps the position of a removed last entry:
  `QueueLaws.SingleRemovalPosition`, `SingleRemovalPositionFails`.
- With nothing current, inserting makes index 0 current and shifts the region by one, so two
  insertions need not equal one of both (`server/internal/realtime/hub.go:450-457`):
  `QueueLaws.InsertionComposesExactly`.
- A replaced connection is not closed and can make its offline device active:
  `HubRuns.ReplacedConnectionClaims`, `ActiveOnlineExactly`.
- An automatic push does not check its generation, so a handler of an earlier connection can
  discard the question put to the user (`src-tauri/src/connect.rs:1152-1160`):
  `ConnectScenarios.StaleDecisionBreaksHold`, `StaleDecisionReachable`,
  `ConnectHold.HeldExactly`.
- An apply tests its generation before it waits for the backend
  (`src-tauri/src/connect.rs:1226-1275`), so a server message taken earlier can overwrite the
  local queue while the user is being asked about it: `ConnectScenarios.OverwrittenWhileAsked`,
  `ApplyOvertakenReachable`, `ConnectHold.LocalKeptExactly`.
- A report or command is sent after the lock of its test is released, so one that was prepared
  before the gate closed can leave while it is closed:
  `ConnectScenarios.ReportLeavesWhileAsked`, `ReportPreparedReachable`, `AskedOverReachable`,
  `ConnectHold.NoReportExactly`, `SilentExactly`.
- An apply assigns the queue before it starts the track and returns the error of the start
  (`src-tauri/src/playback/controller.rs:671`, `706-718`; `src-tauri/src/connect.rs:1277`), so a
  queue from the server that cannot be played is never recorded as synced and the next snapshot
  puts the question: `ConnectScenarios.FailedApplyLosesCopy`, `AboutToPlayReachable`,
  `ConnectCopy.FailedApplyExactly`.
- An apply that finishes after a restart changes the local queue without recording it as
  synced, with the same effect: `ConnectScenarios.LateApplyLosesCopy`, `CopyReachable`,
  `ConnectCopy.RestartExactly`.
- Switching Connect off is to make the local queue the user's own, but a record or an own echo
  that falls between its two steps survives it: `ConnectScenarios.RecordSurvivesSwitchingOff`,
  `EchoSurvivesSwitchingOff`, `ConnectCopy.SwitchedOffExactly`.
- `replace_file` removes an existing target before the rename. A refresh whose version equals
  that of the file in use passes through a state whose metadata names a missing file:
  `CoverArtStore.CrashSafeExactly`.

## Model

| member | source | states |
|---|---|---|
| `IndexMaps.SortedQueueIndices` | server/internal/realtime/hub.go:735-748 | Accepts exactly the non-empty index lists that lie inside the queue, and returns the same set of indices strictly sorted |
| `IndexMaps.MovedQueueIndexMap` | server/internal/realtime/hub.go:753-776 | The loops with their three counters give every entry its slot: moved entries by rank behind the gap, staying entries by rank around the block |
| `IndexMaps.RemovedQueueIndexMap` | server/internal/realtime/hub.go:780-792 | The counting loop gives -1 to removed entries and every other entry its rank among the survivors |
| `IndexMaps.ApplyQueueIndexMap` | server/internal/realtime/hub.go:794-808 | For any injective map onto its survivors the result has one slot per survivor, and each survivor stands in the slot the map names |
| `IndexMapLaws.MovedMapLaw` | server/internal/realtime/hub.go:753-808 | For every queue, index set and gap the moved map is a permutation, and applying it gives staying entries before the gap, the moved entries in queue order, the other staying entries; every slot is filled |
| `IndexMapLaws.MovedInjective` | server/internal/realtime/hub.go:753-776 | Two entries never get the same slot of a move |
| `IndexMapLaws.MovedOnto` | server/internal/realtime/hub.go:753-776 | Every slot of a moved queue receives an entry |
| `IndexMapLaws.RemovedMapLaw` | server/internal/realtime/hub.go:780-808 | A removal keeps the survivors in order and its map is injective on them and reaches every slot |
| `IndexMapLaws.InsertedMapLaw` | server/internal/realtime/hub.go:436-448 | An insertion keeps every entry, and the slots that no old entry reaches are exactly the inserted items, in order |
| `IndexMapLaws.CarriedQueueUnique` | server/internal/realtime/hub.go:794-808 | A map that reaches every slot determines the queue it produces |
| `Playback.NormalizeReachesFixedPoint` | server/internal/realtime/hub.go:923-974 | A state is its own normal form, and decodes to itself, exactly when its current index is in range, its region fits, its song id matches and an empty queue has its cursors reset; whatever normalization and decoding accept is such a state |
| `Playback.NormalizeKeepsQueue` | server/internal/realtime/hub.go:943-974 | Normalization never touches queue, revision or index map |
| `Playback.NormalizeMeaning` | server/internal/realtime/hub.go:923-974 | A state is accepted exactly when position and region are not negative and the current index fits a queue that is not empty; over a queue the current entry, position, region and playing state stand, except that silent and idle become stopped; without one every cursor is reset and only interruptions, errors and unknown states are kept |
| `Playback.SongIdMeaning` | server/internal/realtime/hub.go:1002-1013 | The song id at an index is the id of the entry there, when there is an entry with an id |
| `Playback.CurrentChangeShrinksRegion` | server/internal/realtime/hub.go:1018-1079 | A change of the current entry keeps the end of the play-next region when it stays or lands inside the region and empties the region otherwise; it never adds an entry |
| `QueueReducer.QueueCell.RecordQueueChange` | server/internal/realtime/hub.go:721-731 | The revision rises by one, from 0 when absent, and the map is stored |
| `QueueReducer.QueueCell.NormalizeInPlace` | server/internal/realtime/hub.go:943-974 | The in-place normalization is the specified one; a rejected state is left as it was |
| `QueueReducer.QueueCell.MoveIndices` | server/internal/realtime/hub.go:569-607 | Accepted exactly for indices and gap in range; a move that changes no position leaves everything, the revision included |
| `QueueReducer.QueueCell.RemoveIndex` | server/internal/realtime/hub.go:609-648 | The splice with its case analysis leaves exactly the specified queue, map, revision, cursors and position |
| `QueueReducer.FirstSurvivorAfter` | server/internal/realtime/hub.go:661-672 | The replacement of a removed current entry is the first survivor behind it, if there is one |
| `QueueReducer.SurvivingCount` | server/internal/realtime/hub.go:673-681 | The counting loop counts the survivors of the play-next region, one less when the replacement is taken from it |
| `QueueReducer.QueueCell.RemoveIndices` | server/internal/realtime/hub.go:654-715 | The rebuild through maps and counting loops leaves exactly the specified queue, map, revision, cursors, position and playing state; what that playing state is, BatchRemovalPlaying says |
| `QueueReducer.QueueCell.ReplaceQueue` | server/internal/realtime/hub.go:418-431 | setQueue: the new queue with the empty map, no region, position 0, first entry current unless another index is given |
| `QueueReducer.QueueCell.InsertAfter` | server/internal/realtime/hub.go:432-457 | insertAfterCurrent: items go behind the region, which grows by them and is then clamped |
| `QueueReducer.QueueCell.Append` | server/internal/realtime/hub.go:458-474 | appendToQueue: items go to the end and the identity map is stored |
| `QueueReducer.QueueCell.Clear` | server/internal/realtime/hub.go:496-500 | clearQueue: the empty state under the next revision |
| `QueueReducer.QueueCell.Update` | server/internal/realtime/hub.go:417-500 | The switch over the operations, with the error of each missing or out-of-range argument |
| `QueueReducer.ReduceQueueCommand` | server/internal/realtime/hub.go:412-521 | Decode, update in place, normalize and encode equals the specified reduction; owner and stamp of its result are those of HubLaws.QueueCommandOwner and QueueStamp |
| `QueueLaws.QueueCommandLaw` | server/internal/realtime/hub.go:412-521 | Index-map law of every accepted queue command on a normalized state: one revision later with a map that carries survivors and leaves exactly the inserted slots unreached and exactly the removed entries unmapped, or the empty map with the queue replaced; empty insertions change nothing, a move changes nothing if it changes no position and otherwise stores exactly its permutation |
| `QueueLaws.MoveKeepsCurrentEntry` | server/internal/realtime/hub.go:569-607 | After any move the same entry is current at the same position, the queue is the specified one and the state is already normalized |
| `QueueLaws.MovedRegionIsPositional` | server/internal/realtime/hub.go:596-605 | After a move the region keeps its end while the current entry stays or lands inside it, whichever entries stand there, and is empty otherwise |
| `QueueLaws.BatchRemovalCurrent` | server/internal/realtime/hub.go:654-715 | A surviving current entry stays current; a removed one is followed by the first survivor behind it, or else by the last survivor |
| `QueueLaws.BatchRemovalRegion` | server/internal/realtime/hub.go:654-715 | The new region is the surviving part of the old one, in order, minus the entry promoted to current; the stored length is exact |
| `QueueLaws.BatchRemovalPosition` | server/internal/realtime/hub.go:685-713 | The position becomes 0 exactly when the current entry was removed or the queue became empty; otherwise position and playing state stay |
| `QueueLaws.BatchRemovalPlaying` | server/internal/realtime/hub.go:698-715 | With the current entry removed and entries left, the state is paused if and only if some survivor stood behind it and the state was playing, paused or interrupted, and stopped otherwise; an emptied queue is idle, and any other removal keeps the playing state |
| `QueueLaws.SingleAndBatchRemovalAgree` | server/internal/realtime/hub.go:609-715 | Removing one index by splicing and removing it as a batch agree on queue, map, revision, current index and region for every normalized state |
| `QueueLaws.SingleRemovalMeaning` | server/internal/realtime/hub.go:609-648 | A single removal zeroes the position exactly when the adjusted current index is the removed one or the queue is emptied, and changes the playing state only of an emptied queue |
| `QueueLaws.SingleRemovalPosition` | server/internal/realtime/hub.go:629-648 | The position of the single removal agrees with the batch removal if and only if it was 0, or the current entry neither directly follows the removed one nor is a removed last entry |
| `QueueLaws.SingleRemovalPositionFails` | server/internal/realtime/hub.go:629-638 | A state whose surviving current entry is rewound, and whose removed current entry leaves its position behind |
| `QueueLaws.InsertedIsReduced` | server/internal/realtime/hub.go:432-457 | insertAfterCurrent is always accepted and stores the state the insertion laws speak of |
| `QueueLaws.InsertionIsFifo` | server/internal/realtime/hub.go:432-457 | With a current entry, inserted items stand behind the whole region, and current entry, position and playing state stay |
| `QueueLaws.InsertionStartsQueue` | server/internal/realtime/hub.go:436-457 | Without a current entry an insertion makes the first entry of the grown queue current, stopped at its start, with the region shifted by one and clamped |
| `QueueLaws.InsertionComposesWithCurrent` | server/internal/realtime/hub.go:432-457 | Inserting A and then B equals inserting A ++ B on queue, current index and region |
| `QueueLaws.InsertionComposesExactly` | server/internal/realtime/hub.go:432-457 | Insertion composes for all A and B if and only if there is a current entry or the region reaches the end of the queue |
| `QueueLaws.AppendKeepsRegion` | server/internal/realtime/hub.go:458-474 | Appending leaves current entry, position and region alone, and makes index 0 current, stopped, when nothing was |
| `QueueLaws.ReplacedQueueStartsOver` | server/internal/realtime/hub.go:418-431 | After setQueue and clearQueue nothing is queued to play next, the position is 0, nothing plays, and the given or first entry is current |
| `QueueLaws.QueueCommandAcceptedExactly` | server/internal/realtime/hub.go:412-521 | A queue command on a normalized state is accepted if and only if its indices fit the queue |
| `Hub.Hub.Register` | server/internal/realtime/hub.go:67-86 | A connection replaces the one registered for its device; presence goes to all, the state as of now to it |
| `Hub.Hub.Unregister` | server/internal/realtime/hub.go:88-108 | Only the connection currently registered is removed; then the session it owned is frozen |
| `Hub.Hub.HandleCommandRequest` | server/internal/realtime/hub.go:153-242 | Stale commands are answered with the current state; others go through their reducer and save or reject |
| `Hub.Hub.Commit` | server/internal/realtime/hub.go:186-241 | What each operation saves, broadcasts and sends to the active device |
| `Hub.Hub.HandlePlaybackReport` | server/internal/realtime/hub.go:244-298 | Equals the specified step: saves and broadcasts a merged report, answers a refused one, ignores an incompatible one; what is stored, HubLaws.ReportStored says |
| `Hub.Hub.Handle` | server/internal/realtime/hub.go:110-127 | The dispatch on protocol version and message type |
| `HubRuns.RunNormalized` | server/internal/realtime/hub.go:923-985 | Every state stored in any run is normalized, so decoding it is the identity |
| `HubRuns.StepFollows` | server/internal/realtime/hub.go:153-298 | One event, one user: the stored state is kept, or follows with the sequence number raised by at most one and the queue kept, carried or replaced; other users keep theirs |
| `HubRuns.RejectedChangesNothing` | server/internal/realtime/hub.go:162-185 | A rejected or stale command changes neither store nor registrations and is answered to its sender alone |
| `HubRuns.SequenceOrdersRun` | server/internal/realtime/hub.go:153-298 | Along a run the sequence number never falls and rises by at most one a step; equal numbers mean equal queue, revision and map |
| `HubRuns.QuietCommandKeepsOwner` | server/internal/realtime/hub.go:153-242 | An accepted command that does not raise the sequence number does not change the active device |
| `HubRuns.NoLostUpdate` | server/internal/realtime/hub.go:168-242 | If two commands with the same baseSeq are both accepted, the earlier one changed neither queue, revision nor active device, and the later one finds the queue the earlier one saw |
| `HubRuns.AcceptedActsOnSeenQueue` | server/internal/realtime/hub.go:168-180 | A command built on an earlier state of the run and accepted later acts on the queue of that state |
| `HubRuns.FindSongFirst` | server/internal/realtime/hub.go:321-343 | The search for a reported song finds its first occurrence, or nothing when there is none |
| `HubRuns.ReportMeaning` | server/internal/realtime/hub.go:300-343 | A report takes effect if and only if some entry is compatible with it, moves the cursor to a compatible entry (the reported index if that is one), keeps the queue, and consumes the region up to that entry, or all of it when the entry lies outside |
| `HubRuns.PlayIndexMeaning` | server/internal/realtime/hub.go:523-565 | playQueueIndex is accepted exactly for an index in range; it makes that entry current at its start and consumes the region up to it |
| `HubRuns.TransferMeaning` | server/internal/realtime/hub.go:345-380 | A transfer is accepted exactly for another online device and a non-empty queue, and hands the state over unchanged |
| `HubRuns.FreezeMeaning` | server/internal/realtime/hub.go:848-874 | Losing the active device stops playback where it was: queue, current entry, position and region stay, nobody is active |
| `HubRuns.StepKeepsActiveOnline` | server/internal/realtime/hub.go:67-108 | Every event whose sender is online keeps the rule: the active device is none or online, and with none nothing plays |
| `HubRuns.RunKeepsActiveOnline` | server/internal/realtime/hub.go:848-874 | The rule holds in every run whose messages come from online devices, with connections replaced freely |
| `HubRuns.UnownedPositionStands` | server/internal/realtime/hub.go:881-921 | While nobody is active the shared position does not advance, whatever the clock says |
| `HubRuns.ActiveOnlineExactly` | server/internal/realtime/hub.go:244-298 | The rule survives every message of a client if and only if its device is online |
| `HubRuns.ReplacedConnectionClaims` | server/internal/realtime/hub.go:88-108 | A run in which a replaced connection outlives its replacement and makes its offline device active |
| `HubRuns.SavedIsBroadcast` | server/internal/realtime/hub.go:810-825 | Whatever an event saves is broadcast to all clients of its user exactly as it is stored then; no change stays silent |
| `HubRuns.MessagesShowStoredQueue` | server/internal/realtime/hub.go:810-825 | Every shared state sent shows the queue, revision, map, sequence number and owner stored after the step, and reaches that user only |
| `HubRuns.AppliesReachTheOwner` | server/internal/realtime/hub.go:827-839 | A command is only ever applied by the device that is active after the step, and only while it is online |
| `HubRuns.AdvanceOnce` | server/internal/realtime/hub.go:905-921 | A playing position moves by the whole elapsed milliseconds, any other stands still |
| `HubRuns.AdvanceThroughKeeps` | server/internal/realtime/hub.go:881-921 | Advancing and saving any number of times, at any instants, changes nothing but a playing position, which never decreases |
| `HubRuns.ClockBound` | server/internal/realtime/hub.go:881-921 | Advancing at n ordered instants never leads one advance to the last of them and lags it by at most n - 1 ms |
| `HubRuns.ClockBoundTight` | server/internal/realtime/hub.go:905-921 | The lag is reached: two half milliseconds lose a whole one |
| `HubLaws.AcceptedExactly` | server/internal/realtime/hub.go:153-242 | A command is accepted if and only if its protocol version is known, its base sequence number (if any) is the stored one, and it is admissible on what is stored: indices inside the queue, a pushed state within bounds, an online transfer target that is not the owner of a queue, a known operation |
| `HubLaws.RejectionAnswered` | server/internal/realtime/hub.go:153-187 | Every other command is answered to its sender with an error bearing its id, and a stale one also with the current session |
| `HubLaws.OtherMessages` | server/internal/realtime/hub.go:110-127 | A message of an unknown version, a malformed one or one of another type changes nothing and is answered with an error; a presence request is answered to all with the devices online |
| `HubLaws.StampedExactly` | server/internal/realtime/hub.go:345-565 | An accepted command leaves the session as it is, or raises the sequence number by one and records its sender and instant |
| `HubLaws.QueueStamp` | server/internal/realtime/hub.go:412-521 | A queue command is so stamped exactly when it is not an insertion of nothing |
| `HubLaws.QueueCommandOwner` | server/internal/realtime/hub.go:507-521 | A queue command never takes over an owned session, and its sender claims an unowned one if and only if the command stores a queue that is not empty |
| `HubLaws.OwnerAfter` | server/internal/realtime/hub.go:345-565 | After an accepted command a push is owned by its sender, a transfer by its target, and a jump or transport command leaves an owner and claims an unowned session |
| `HubLaws.PushStores` | server/internal/realtime/hub.go:382-410 | A push is stored if and only if its version and base fit, it carries a state, and the state is within bounds; then the stored session shows the entry, position, region and playing state of the sender (stopped for silent or idle), owned by the sender, under the next sequence number; otherwise nothing changes |
| `HubLaws.CommandBroadcast` | server/internal/realtime/hub.go:810-825 | What a command saves is broadcast as saved, first of its messages, under the reason push, transfer or command |
| `HubLaws.ReportStored` | server/internal/realtime/hub.go:244-298 | A report is refused if and only if another device is active or the reported state is out of bounds, and ignored if and only if no entry of the queue matches it; otherwise the stored session has the reported position and playing state, a matching current entry (the reported index when that matches, else the first with the song) and the rest of the region, belongs to the reporter under the same sequence number, and is broadcast as a report |
| `HubLaws.RegisterMeaning` | server/internal/realtime/hub.go:67-86 | A registered connection is online in place of an earlier one of its device and no other is affected; it is sent the session as of now and all are told who is online |
| `HubLaws.UnregisterMeaning` | server/internal/realtime/hub.go:88-108 | A replaced connection changes nothing; the current one takes its device, and only it, offline, and touches the session only as its owner |
| `HubLaws.OfflineFreezes` | server/internal/realtime/hub.go:848-874 | The session of an owner that goes offline stays where it was, stopped or idle, unowned, under the next sequence number, and is broadcast as such |
| `HubLaws.RequestsReachOwner` | server/internal/realtime/hub.go:188-239 | An accepted command that asks for playback is sent to the owner after the step if that is online, and answered with an error otherwise; no other command is |
| `HubLaws.TransportClaims` | server/internal/realtime/hub.go:224-239 | A transport command changes nothing of an owned session and claims an unowned one for its sender, playback unchanged |
| `Selection.QueueSelectionStore.OnStatus` | src/stores/QueueSelectionStore.ts:29-46 | The effect records revision, key and length, and maps, clears or keeps the selection |
| `Selection.QueueSelectionStore.RemapQueueSelection` | src/features/playback/queueSelection.ts:57-64 | The rows are mapped, the removed ones dropped, the result sorted without duplicates |
| `Selection.QueueSelectionStore.Choose` | src/features/playback/queueSelection.ts:15-18 | A selection is kept sorted without duplicates, and has no anchor without rows |
| `Selection.RemappedSet` | src/features/playback/queueSelection.ts:57-64 | The remapped rows are exactly the images of the selected rows that survive |
| `Selection.FollowKeepsEntry` | server/internal/realtime/hub.go:717-731 | Following the maps of a history leads each entry to itself, or out |
| `Selection.FollowInjective` | server/internal/realtime/hub.go:717-731 | Two entries followed never meet in one row |
| `Selection.RevisionOrders` | server/internal/realtime/hub.go:717-731 | Along a history equal revisions mean equal queue and map |
| `Selection.OneRevisionLater` | src/stores/QueueSelectionStore.ts:26-41 | One revision past the last one seen, the stored map alone tells where every row went, whatever was missed in between |
| `Selection.SeeKeepsFaithful` | src/stores/QueueSelectionStore.ts:29-46 | Seeing any later state keeps the selection empty or exactly at the chosen entries |
| `Selection.SightKeepsExactly` | src/stores/QueueSelectionStore.ts:29-46 | A later sight leaves a selection in place if and only if the revision is the same, or it is one later with a map for the queue last seen by which some selected row survives |
| `Selection.SelectionFaithful` | src/stores/QueueSelectionStore.ts:26-48 | For every history, every lossy in-order delivery and every choice of rows, the selection is empty or exactly the rows where the chosen entries now stand |
| `Selection.HubRunsAreHistories` | server/internal/realtime/hub.go:717-731 | What the hub stores along any run is such a history |
| `Selection.BroadcastsAreDeliverable` | server/internal/realtime/hub.go:1193-1206 | Any broadcast of the hub, received or dropped, may be delivered to the selection |
| `Selection.BroadcastSelectionDenotesChosen` | src/stores/QueueSelectionStore.ts:26-48 | End to end from a newly constructed store, over any subset of the broadcasts the hub sent afterwards, in order, and any gestures in between: the selection denotes the entries chosen |
| `Selection.SelectionDenotesChosenEntries` | src/stores/QueueSelectionStore.ts:26-48 | End to end: for every run of the hub and every lossy delivery, the selection is empty, or each selected row holds the very entry chosen and every surviving chosen entry is selected; no two share a row |
| `Selection.AnchorFollows` | src/stores/QueueSelectionStore.ts:29-48 | Over every lossy delivery the range anchor is where its entry now stands as long as rows stay selected, and gone with the entry or the rows |
| `Selection.KeysTellApart` | src/stores/QueueSelectionStore.ts:24 | For ids without NUL the key of two queues is the same if and only if they have the same ids in the same order, except for the empty queue and one entry without id |
| `ConnectRuntime.Runtime.BeginRestart` | src-tauri/src/connect.rs:252-265 | A restart raises the generation, unlinks the device and opens the gate; an apply under way is not cleared |
| `ConnectRuntime.Runtime.SetDisconnected` | src-tauri/src/connect.rs:271-307 | Unlinks only under the current generation |
| `ConnectRuntime.Runtime.SetConnected` | src-tauri/src/connect.rs:309-328 | Links only under the current generation |
| `ConnectRuntime.Runtime.SetSharedPlayback` | src-tauri/src/connect.rs:343-395 | Messages of another generation or an older sequence number are dropped; the own push is recorded as synced and opens a pushing gate; own reports and own pushes are not applied |
| `ConnectRuntime.Runtime.BeginApplyShared` | src-tauri/src/connect.rs:397-404 | An apply starts only under the current generation |
| `ConnectRuntime.Runtime.EndApplyShared` | src-tauri/src/connect.rs:406-411 | Only the apply of that sequence number is ended |
| `ConnectRuntime.Runtime.RecordSyncedQueue` | src-tauri/src/connect.rs:417-422 | A synced queue is recorded only under the current generation |
| `ConnectRuntime.Runtime.ClearSyncedQueue` | src-tauri/src/connect.rs:424-426 | The record is forgotten and nothing else changes |
| `ConnectRuntime.Runtime.PublishStatus` | src-tauri/src/connect.rs:428-460 | A report leaves only when connected, not applying, with the gate open and this device active |
| `ConnectRuntime.Runtime.FlushPendingResumeReport` | src-tauri/src/connect.rs:515-560 | The pending resume report leaves at most once, under the same tests and the reclaim of an own offline session |
| `ConnectRuntime.Runtime.SendPlaybackCommand` | src-tauri/src/connect.rs:577-619 | Commands carry the shared sequence number; while the user is asked they stay local |
| `ConnectRuntime.Runtime.BeginQueueResolution` | src-tauri/src/connect.rs:621-629 | Asks the user only under the current generation |
| `ConnectRuntime.Runtime.PushLocalState` | src-tauri/src/connect.rs:637-671 | A user push without a pending question changes nothing; any other leaves the gate pushing exactly when its command was sent, and otherwise puts the question back or reopens the gate |
| `ConnectRuntime.Runtime.FailPush` | src-tauri/src/connect.rs:674-694 | Only the push in flight fails: a user push back to the question, an automatic one to an open gate |
| `ConnectRuntime.Runtime.TakePull` | src-tauri/src/connect.rs:696-711 | A pull needs a pending question and a shared state, and opens the gate |
| `ConnectWorld.OnlineReachable` | src-tauri/src/connect.rs:309-328 | The connected runtime from which the sample runs start is reached from the constructed one |
| `ConnectHold.HoldStep` | src-tauri/src/connect.rs:1047-1121 | One action while the gate is held, not answered, and no handler can still push: it stays held, no further handler passes it, and each report that leaves was prepared before |
| `ConnectHold.HoldRun` | src-tauri/src/connect.rs:1047-1121 | The same over every interleaving of critical sections, choices, failures and writes |
| `ConnectHold.AskedRun` | src-tauri/src/connect.rs:577-588 | While the user is asked and does not push, what is written or still prepared is exactly what was prepared before, each message once |
| `ConnectHold.HeldExactly` | src-tauri/src/connect.rs:1131-1161 | Every run keeps the gate held until the answer if and only if, when it closes, no handler has decided to push or is still deciding about an empty server queue |
| `ConnectHold.NoReportExactly` | src-tauri/src/connect.rs:428-460 | No run lets a report leave before the answer if and only if none had passed its tests when the gate closed |
| `ConnectHold.SilentExactly` | src-tauri/src/connect.rs:577-619 | While the user is asked and does not push, no run lets any message leave if and only if none had passed its tests when the gate closed |
| `ConnectHold.LocalKeptExactly` | src-tauri/src/connect.rs:1215-1280 | Every run without an edit leaves the local queue alone until the answer if and only if, when the gate closes, no handler is in the backend, or on its way there under the current generation, with another queue, and none can still push |
| `ConnectHold.HoldUntilAnswered` | src-tauri/src/connect.rs:1131-1151 | Once AskUser closes the gate and no handler can still push: until a pull, the own echo or the end of the connection it stays held, no further handler passes it, only what was prepared leaves, and the local queue is untouched unless a handler can still assign another one |
| `ConnectScenarios.StaleDecisionReachable` | src-tauri/src/connect.rs:252-265 | A run in which a handler that decided to push is overtaken by a restart |
| `ConnectScenarios.StaleDecisionBreaksHold` | src-tauri/src/connect.rs:1152-1161 | Continued, the handler pushes without checking its generation and the question on the new connection is lost |
| `ConnectScenarios.ApplyOvertakenReachable` | src-tauri/src/connect.rs:252-265 | A run in which an apply in the backend is overtaken by a restart |
| `ConnectScenarios.OverwrittenWhileAsked` | src-tauri/src/connect.rs:1226-1275 | Continued, the apply overwrites the local queue while the user is being asked about it |
| `ConnectScenarios.CopyReachable` | src-tauri/src/connect.rs:413-422 | A run that reaches a device with a synced copy: an apply recorded, then a reconnect |
| `ConnectScenarios.LateApplyLosesCopy` | src-tauri/src/connect.rs:1276-1278 | From there the overtaken apply ends unrecorded: the copy is lost and the user is asked about a queue that came from the server |
| `ConnectScenarios.AboutToPlayReachable` | src-tauri/src/connect.rs:1215-1275 | A run in which an active device with a synced copy is about to assign and play another queue |
| `ConnectScenarios.FailedApplyLosesCopy` | src-tauri/src/playback/controller.rs:706-718 | Continued, the queue is assigned and cannot be played: the copy is lost without edit, restart or overlap, and the next first snapshot puts the question |
| `ConnectScenarios.ReportPreparedReachable` | src-tauri/src/connect.rs:428-460 | A run in which a report has passed its tests while the first snapshot is still being decided |
| `ConnectScenarios.AskedOverReachable` | src-tauri/src/connect.rs:1131-1151 | Continued, the question is put over that report, with no handler left |
| `ConnectScenarios.ReportLeavesWhileAsked` | src-tauri/src/connect.rs:456-459 | From there the report leaves while the user is being asked |
| `ConnectScenarios.RecordSurvivesSwitchingOff` | src-tauri/src/commands/settings.rs:198-203 | A record made between the two steps of switching Connect off survives it |
| `ConnectScenarios.EchoSurvivesSwitchingOff` | src-tauri/src/commands/settings.rs:198-203 | So does the echo of an own push taken between them |
| `ConnectCopy.CopyKeptExactly` | src-tauri/src/connect.rs:343-426 | A step keeps the synced copy if and only if it is not an edit to another queue, switching off, a decision carried out, an assignment of another queue (played or not), a record of another queue, or the echo of another queue |
| `ConnectCopy.CopyMade` | src-tauri/src/connect.rs:417-422 | A record of the local queue makes the copy exactly under the current generation; so does the echo of the local queue |
| `ConnectCopy.FailedApplyExactly` | src-tauri/src/playback/controller.rs:669-718 | An apply that assigns the queue and then cannot play it keeps the copy if and only if it carries the local queue |
| `ConnectCopy.OnTrackExactly` | src-tauri/src/connect.rs:1215-1280 | The invariant behind the run theorem (the copy stands, or a handler is about to record it) is left by exactly the steps called disturbances |
| `ConnectCopy.CopyStandsExactly` | src-tauri/src/connect.rs:1131-1280 | From a standing copy, over every interleaving of the ends of the handlers under way: none decides to ask or to push and the copy stands once all is recorded, if and only if at the start the applies agree (all carry the local queue, or all are of this connection and carry one queue) and every comparison would apply whatever they may leave |
| `ConnectCopy.RestartExactly` | src-tauri/src/connect.rs:252-265 | A restart over a copy at rest is harmless for every such interleaving if and only if every apply in the backend carries the local queue |
| `ConnectCopy.SwitchedOffExactly` | src-tauri/src/commands/settings.rs:198-203 | Over every run between forgetting the synced queue and restarting, no record is left if and only if no record under the current generation and no own echo came after the last wipe |
| `ConnectCopy.CopyRun` | src-tauri/src/connect.rs:125-150 | From a synced copy at rest, over any number of reconnects and any run without another queue by an edit, an own push or an apply that cannot play, without switching off, without a restart that overtakes an apply of another queue, and without overlapping applies of different queues: no handler decides to ask or to push, the copy stands or is about to be recorded, and every first snapshot is applied |
| `ConnectLaws.DecisionExactly` | src-tauri/src/connect.rs:125-150 | A handler that compares decides to push if and only if the queue it read is not empty, differs from the record, and the server has none; to ask if and only if both have queues that differ and the local one differs from the record; otherwise the server goes on to the last tests |
| `ConnectLaws.SnapshotAnswered` | src-tauri/src/connect.rs:1131-1162 | A first snapshot handled undisturbed: gate and record stand for an empty, synced or equal local queue; the local queue is pushed over an empty server queue; over any other the user is asked; both clear the record |
| `ConnectLaws.EmptyQueueNeverAsks` | src-tauri/src/connect.rs:130-132 | Over every run in which the local queue stays empty no handler decides to ask or to push, and an open gate stays open |
| `ConnectLaws.UpdateMeaning` | src-tauri/src/connect.rs:359-394 | A message counts if it is of the current connection and not older than what is shown; it is to be applied unless it tells of the own push or the own report as owner, and lets the track play on exactly when the device owned and owns the session |
| `ConnectLaws.MessageShown` | src-tauri/src/connect.rs:343-395 | A message that does not count is dropped; one that does is shown, and only the echo of the own push touches record and gate |
| `ConnectLaws.MessageAppliesExactly` | src-tauri/src/connect.rs:1047-1094 | A message goes on to the decision if and only if it counts, the gate is open behind it and it is a first snapshot; it goes on to the backend if and only if, otherwise, it tells more than the own doing, no device went offline, and nothing is to be preserved from it |
| `ConnectLaws.ShownNeverFallsBack` | src-tauri/src/connect.rs:352-358 | Over a whole connection the state shown is never replaced by an older one |
| `ConnectLaws.StaleLeavesRuntime` | src-tauri/src/connect.rs:252-265 | What belongs to another connection leaves the runtime alone, except that a decision clears the record, one to push still closes the gate, and an apply ends its own mark |
| `ConnectLaws.EndsOwnMark` | src-tauri/src/connect.rs:406-411 | The mark of an apply is removed by the end of the apply of its number alone; a remote operation runs only behind an open gate |
| `ConnectLaws.RestartMeaning` | src-tauri/src/connect.rs:252-307 | After a restart or disconnect nothing is shown, no message is prepared and every message is taken; record, mark and pending resume report stay |
| `ConnectLaws.PublishedExactly` | src-tauri/src/connect.rs:428-459 | A status report is prepared, on the sequence number shown, if and only if the device is connected and the owner, the gate is open and no apply is marked |
| `ConnectLaws.FlushedExactly` | src-tauri/src/connect.rs:515-558 | The resume report is prepared if and only if it is in time, connected and behind an open gate, and the device owns the session or may reclaim it; then it is used up |
| `ConnectLaws.ResumeReportsOnce` | src-tauri/src/connect.rs:515-558 | Over every run a resume report that was sent, expired or dropped never comes back |
| `ConnectLaws.CommandExactly` | src-tauri/src/connect.rs:577-619 | A command is prepared, on the sequence number shown, if and only if the device is connected and the user is not being asked; while asked or unconnected it stays local |
| `ConnectLaws.PullAppliesShown` | src-tauri/src/connect.rs:696-707 | A pull carried through opens the gate, puts the queue shown into the backend, records it as synced and leaves no mark |
| `ConnectLaws.FailedApplyEnds` | src-tauri/src/connect.rs:1274-1279 | An apply that is refused leaves the local queue, one that cannot play has assigned it; both end their mark and record nothing |
| `ConnectLaws.UnplayableExactly` | src-tauri/src/playback/controller.rs:690-720 | An apply can fail behind its assignment if and only if the device owns a session with a queue to play or pause |
| `ConnectLaws.ChoicesNeedQuestion` | src-tauri/src/connect.rs:637-707 | Without a pending question the choices of the user do nothing; a push takes the place of the question |
| `ConnectLaws.FailureAnswersItsPush` | src-tauri/src/connect.rs:674-694 | A failure concerns the push of its own id alone: the question comes back with the reason, or the gate opens after an automatic push |
| `ConnectPush.PushAccepted` | server/internal/realtime/hub.go:384-410 | An accepted push stores the queue of the sender, makes it active, raises revision and sequence number by one, empties the map and is broadcast |
| `ConnectPush.PushHandshake` | src-tauri/src/connect.rs:371-394 | The echo of an accepted push opens the gate of the sender, applies nothing and makes the local queue a synced copy |
| `ConnectPush.PushOverRun` | src-tauri/src/connect.rs:637-671 | Both parties over a whole run: a push accepted at any later event stores the local queue, its broadcast opens the gate, and over every undisturbed run from there no handler asks or pushes again and every first snapshot is applied |
| `ConnectPush.CommandActsOnShownQueue` | src-tauri/src/connect.rs:577-619 | A command that the server accepts later is applied to the queue that its sender shows |
| `ConnectPush.RefusedPush` | src-tauri/src/connect.rs:674-694 | A refused push is answered to its sender alone and puts a user push back to the question and an automatic one to an open gate |
| `CoverArtStore.EntryDir.ReplaceFile` | src-tauri/src/cover_art_cache.rs:561-578 | Removes the target if it exists, then renames |
| `CoverArtStore.EntryDir.RemoveStaleArtifacts` | src-tauri/src/cover_art_cache.rs:580-631 | Removes exactly the listed stale names, in order |
| `CoverArtStore.EntryDir.StoreEntry` | src-tauri/src/cover_art_cache.rs:319-378 | The file operations in their order: image, its rename, metadata, its rename, cleaning |
| `CoverArtStore.FreshLookupIsComplete` | src-tauri/src/cover_art_cache.rs:214-287 | In a consistent directory a lookup never fails, misses only when there is no art, and a fresh one names a completely written image |
| `CoverArtStore.LookupExactly` | src-tauri/src/cover_art_cache.rs:214-287 | A lookup fails exactly on unreadable metadata; metadata naming an existing file finds it, fresh until the time to live has passed; otherwise any art is found, stale, or none is there |
| `CoverArtStore.RefreshSurvivesCrash` | src-tauri/src/cover_art_cache.rs:319-378 | Cut after any number of operations, a refresh leaves the directory consistent and readable if it was readable; run to its end it names the new image |
| `CoverArtStore.CrashSafeExactly` | src-tauri/src/cover_art_cache.rs:319-378 | Every cut of a refresh is consistent if and only if its version does not collide with the file the metadata names |
| `CoverArtStore.CleanLeaves` | src-tauri/src/cover_art_cache.rs:580-631 | Cleaning leaves exactly the names not listed or not stale |
| `CoverArtStore.CompletedRefresh` | src-tauri/src/cover_art_cache.rs:319-378 | A whole refresh over a full listing leaves the new image as the only art and nothing temporary; a lookup finds it, fresh if and only if its time to live has not passed |
| `CoverArtStore.ForeignFileKept` | src-tauri/src/cover_art_cache.rs:580-631 | A file that is neither art, metadata nor temporary is left as it is |
| `CoverArtStore.AttemptSurvives` | src-tauri/src/cover_art_cache.rs:319-378 | One attempt with an unused version, cut anywhere |
| `CoverArtStore.CacheSurvivesCrashes` | src-tauri/src/cover_art_cache.rs:319-378 | From an empty directory and with distinct versions, any sequence of refreshes cut anywhere leaves it consistent, and a readable directory stays readable |
| `SingleFlight.CoverArtCache.AcquireFlight` | src-tauri/src/cover_art_cache.rs:203-212 | Leads exactly when no flight is in the map, and leaves the returned flight in the map |
| `SingleFlight.CoverArtCache.TryWait` | src-tauri/src/cover_art_cache.rs:77-87 | A waiter returns exactly when the flight is completed, with its result |
| `SingleFlight.ActKeepsInv` | src-tauri/src/cover_art_cache.rs:129-142 | Every critical section of every thread keeps the protocol invariant |
| `SingleFlight.RunKeepsInv` | src-tauri/src/cover_art_cache.rs:111-143 | The invariant holds in every interleaving |
| `SingleFlight.OneLeaderPerKey` | src-tauri/src/cover_art_cache.rs:203-212 | At most one thread refreshes a key at a time |
| `SingleFlight.WaitersHaveALeader` | src-tauri/src/cover_art_cache.rs:77-87 | A follower waits only for a completed flight or for one in the map whose leader is still refreshing |
| `SingleFlight.ResultsStand` | src-tauri/src/cover_art_cache.rs:71-75 | A completed flight keeps its result |
| `SingleFlight.FollowersShareResult` | src-tauri/src/cover_art_cache.rs:129-142 | All threads that return through one flight return one result for one key |
| `SingleFlight.FollowerGetsLeadersResult` | src-tauri/src/cover_art_cache.rs:129-142 | A follower returns what the refresh of its leader returned, also when it arrives after completion |
| `SingleFlight.KeyIsHeld` | src-tauri/src/cover_art_cache.rs:129-142 | In every interleaving a key in the map has a thread that refreshes it or is about to free it |
| `SingleFlight.ReadReturns` | src-tauri/src/cover_art_cache.rs:111-128 | A fresh entry or a read error is returned at once; only a miss asks for a flight |
| `SingleFlight.LeaderServes` | src-tauri/src/cover_art_cache.rs:129-142 | A thread without a flight leads one, completes it with its result, returns that result and frees the key |
| `SingleFlight.FollowerWaits` | src-tauri/src/cover_art_cache.rs:77-87 | A thread that finds a flight waits for it and returns its result once there is one, not before |
| `Scrobble.ScrobbleSession.RefreshProgress` | src-tauri/src/playback/server_reporting.rs:187-194 | Playing time is added to account and position, and the instant is taken over |
| `Scrobble.ScrobbleSession.Update` | src-tauri/src/playback/server_reporting.rs:196-200 | The account at the instant of the report is what it was before, and the new position and state are taken over |
| `Scrobble.ScrobbleSession.SubmitIfReady` | src-tauri/src/playback/server_reporting.rs:206-218 | Submits once the account reaches the threshold, and not again |
| `Scrobble.FallbackReporter.Finalize` | src-tauri/src/playback/server_reporting.rs:407-413 | A session is asked once more and then dropped |
| `Scrobble.FallbackReporter.HandleReport` | src-tauri/src/playback/server_reporting.rs:359-405 | Another track finalizes the session; then the report is accounted and submits by its new state |
| `Scrobble.FallbackReporter.Handle` | src-tauri/src/playback/server_reporting.rs:263-306 | Fallback reports are accounted; a native report or Clear drops the session |
| `Scrobble.ThresholdMeaning` | src-tauri/src/playback/server_reporting.rs:231-236 | The threshold is half the duration but at most four minutes, and thirty seconds when the duration is unknown or zero |
| `Scrobble.SubmitsOnce` | src-tauri/src/playback/server_reporting.rs:206-244 | A session submits if and only if its account reaches the threshold and it has not submitted, and never again afterwards |
| `Scrobble.FedPlayed` | src-tauri/src/playback/server_reporting.rs:187-244 | Over one track the played scrobble is counted once, if some submission point finds the threshold reached |
| `Scrobble.FedNowPlaying` | src-tauri/src/playback/server_reporting.rs:380-389 | Over one track now-playing is submitted once, if the track plays |
| `Scrobble.ReachedByEnd` | src-tauri/src/playback/server_reporting.rs:187-244 | The threshold is found reached at some submission point only if the total time reaches it, and always if the last report submits |
| `Scrobble.SessionScrobbles` | src-tauri/src/playback/server_reporting.rs:359-420 | Each session submits now-playing exactly once if it plays and at most one played scrobble, only with the time earned; a finalized session submits it if and only if its total time in Playing has reached the threshold |
| `Scrobble.OutputIsBySession` | src-tauri/src/playback/server_reporting.rs:359-413 | For every command sequence the submissions are those of its sessions, the maximal runs of one key up to Stopped or a change of key, one after the other |
| `Scrobble.AccountFollowsRealTime` | src-tauri/src/playback/server_reporting.rs:187-194 | The account never exceeds the real time in Playing and loses less than a millisecond a report |
| `Scrobble.PositionsDoNotMatter` | src-tauri/src/playback/server_reporting.rs:196-244 | Command sequences that differ only in reported positions submit the same |
| `Scrobble.PositionFollows` | src-tauri/src/playback/server_reporting.rs:187-200 | Between reports the position moves by what the account gains; a report sets position, state and instant, and a stop ends the session |
| `FetchScheduler.Scheduler.Drain` | src/features/albums/service.ts:39-48 | The loop starts waiting fetches from the front until four run or none waits |
| `FetchScheduler.Scheduler.Enqueue` | src/features/albums/service.ts:50-69 | A fetch is queued at the end, then the queue is drained |
| `FetchScheduler.Scheduler.Release` | src/features/albums/service.ts:60-63 | A finished fetch frees its place, then the queue is drained |
| `FetchScheduler.Scheduler.RequestAsset` | src/features/albums/service.ts:91-129 | A resolved key needs no pipeline, a key in flight shares its pipeline, any other starts one |
| `FetchScheduler.Scheduler.Settle` | src/features/albums/service.ts:122-126 | The asset is remembered and the key leaves the in-flight map |
| `FetchScheduler.StepKeepsInv` | src/features/albums/service.ts:39-130 | Every event keeps the books: counts, order, and one unfinished pipeline per key |
| `FetchScheduler.SchedulerGuarantees` | src/features/albums/service.ts:39-130 | After any events at most four fetches run, exactly four while any waits; the started fetches, each once, and then the waiting ones are all that were queued, in that order; one unfinished pipeline per key |
| `FetchScheduler.SchedulerAtRest` | src/features/albums/service.ts:39-130 | When no fetch runs every queued fetch has been started, and no key is in flight if and only if every pipeline has settled |
| `FetchScheduler.StagesAdvanceOverRuns` | src/features/albums/service.ts:91-130 | Over any run a pipeline keeps its key, only moves forward and keeps its answer |
| `FetchScheduler.SettlingFinishes` | src/features/albums/service.ts:122-126 | Settling remembers the answered asset, frees the key and finishes the pipeline |
| `FetchScheduler.RequestsShare` | src/features/albums/service.ts:91-129 | A key remembered or in flight starts nothing; any other starts exactly one pipeline, found in flight under its key |
| `FetchScheduler.LookupQueues` | src/features/albums/service.ts:50-69 | After any events a pipeline that misses the cache is queued at the end, and its fetch runs at once if and only if fewer than four run |
| `FetchScheduler.ReleaseStartsNext` | src/features/albums/service.ts:60-63 | After any events a released fetch frees its place and exactly the longest waiting fetch takes it |
| `FetchScheduler.DrainStarts` | src/features/albums/service.ts:39-48 | Draining starts the waiting fetches from the front, as many as there are places |
| `FetchScheduler.AnswerIsBrought` | src/features/albums/service.ts:103-121 | A pipeline is answered exactly by the lookup or fetch that brings its asset while it is looked up or fetched |
| `FetchScheduler.RememberedWasBrought` | src/features/albums/service.ts:122-126 | After any events every remembered asset is one that a lookup or fetch brought to a pipeline of its key |
| `FetchScheduler.ClearForgets` | src/features/albums/service.ts:85-89 | Clearing the cache forgets every asset and leaves the fetches under way |
| `FetchScheduler.StartsOnce` | src/features/albums/service.ts:50-69 | In any run each fetch starts at most once |
| `FetchScheduler.SettlesOnce` | src/features/albums/service.ts:122-126 | In any run each pipeline settles at most once |

## Left out

- Interleavings inside one server handler, and clock readings that differ within one.
- WebSocket, HTTP, SQLite, JSON syntax, keyring, image decoding and transcoding, upstream Subsonic calls.
- Errors of the store when loading or saving; the devices table, presence details and message ids with their random fallbacks.
- Wrap-around of int64 (server), u32 and u64 (client) counters and saturation of milliseconds: integers are unbounded.
- The capacity of 32 messages of a connection's channel: any message may be lost, in order.
- The local playback controller: applying a shared state fails, assigns the queue and cannot play it (only on the active device with a track to start), or assigns it. The local revision that the client shows is taken to be the hub's.
- Keeping the active track during an apply, and the tests for an initialized backend: their outcomes are arbitrary inputs.
- ConnectRuntime.Runtime.PushLocalState: states the effect when nothing interferes between its three critical sections; in the runs they are separate actions.
- ConnectRuntime.Runtime.SetDisconnected: does not model the status text in which switching off and disconnecting differ.
- A failed write to the connection: the message stays prepared, and the error that its sender sees is an arbitrary CommandFailed.
- Queueing, ageing and debouncing of Android resume reports: whether one is pending and expired is an input.
- Local validation of a transfer target, URL normalization, logins, heartbeats, reconnect delays, logging.
- The selection gestures (toggle, range, rectangle, all) appear as an arbitrary choice of displayed rows with an arbitrary anchor.
- Completeness of what the stale fallback of the cover-art cache finds: its filter also accepts temporary files, and the model leaves open which of them is last.
- Larger cached sizes, cache statistics, removal of a profile, and the artist-image cache, which uses the same protocol with a weaker layout.
- Errors of single file operations are cuts at that operation; an unlisted or unremovable stale file stays.
- SingleFlight.WaitersHaveALeader: states safety only, so that a waiting thread is eventually scheduled is not claimed; a leader that panics is not modelled.
- FetchScheduler.SchedulerGuarantees: states safety only, so that every fetch eventually settles is not claimed; rejected promises appear as empty assets.
- Normalization of cover-art keys and fallback sizes.
- Native playback reports and their heartbeats: in the scrobbler they only drop the session.
- A scrobble session still open when the reporter thread ends is neither finalized nor claimed about.
- Settings, profiles, session bootstrap and backup, tokens, configuration, service installer, user interface components, fonts, media controls and platform bridges.
