# Equipment changes and item catalog classification (Dafny model)

This project models two pieces of the Dragon's Dogma Online game server:

- **The equipment manager** (`EquipManager`). It has three pure slot functions that fold a flat,
  1-based equip slot number into a category slot. The flat space gives the character slots 1..30,
  then gives each pawn its own 30-slot block. Within a block, slots 1..15 are Performance and
  16..30 are Visual. The manager also looks up an equipped item by UId in the 30-slot equipment
  window. Its two batch operations apply an ordered list of changes:
  - `EquipJobItem` works on job items.
  - `HandleChangeEquipList` works on regular gear.

  Both update the in-memory equipment template and the persisted records entry by entry. The
  regular-gear batch also issues one storage move per entry. Afterwards each operation sends its
  notices.
- **The catalog entry** (`ClientItemInfo`). It maps a catalog category to the storage an item is
  kept in, expands a job group into a set of jobs, and does a checked lookup of an entry by item id.

Files and modules:

- `common.dfy`, module `Common`: `Option`, `Result`, `Outcome`, and the unsigned widths `uint8`,
  `uint16` and `uint32`. It also has the map helpers `Lookup` and `Assign`.
- `item_catalog.dfy`, module `ItemCatalog`: `StorageType`, `JobId`, `EquipJobList`,
  `ClientItemInfo` and the three getters, each with its properties.
- `collaborators.dfy`, module `Collaborators`: the objects the manager changes in place.
  - `EquipmentTemplate` is a class whose fields are maps keyed by job and slot.
  - `Database` is a class whose fields are maps of persisted records.
  - `EventLog` is a class holding one ordered sequence of events: storage moves (`MoveItem`),
    sends to the requester, to its party and to all clients, and the caller's acknowledgement.
- `equip_manager.dfy`, module `EquipManager`: the slot functions, the lookup loop and the two
  batch methods. Each batch method is proved against a fold function over the batch
  (`ApplyJobItemChanges`, `ApplyEquipChanges`). A method's postcondition ties the new template,
  records and event log to that fold applied to the old state.
- `equip_properties.dfy`, module `EquipManagerProperties`: lemmas about the slot arithmetic and
  about the folds.

Modelling decisions:

- **TotalEquipSlots.** `EquipmentTemplate.TOTAL_EQUIP_SLOTS` is the constant `TotalEquipSlots = 15`.
  The literals 15 and 30 in the code agree with it.
- **Truncating division.** C#'s integer division truncates toward zero; `TruncDiv` models it. So
  slot 0 folds to 0, as `(0 - 1) / 30` is 0 in C#. No precondition is needed.
- **Closed entity kinds.** The target of an operation is a `Character`, a `Pawn`, or `OtherKind`.
  `OtherKind` stands for any other subclass of `CharacterCommon`:
  - `EquipJobItem` throws for it, after the changes are applied.
  - `HandleChangeEquipList` does not throw for it; it only skips the broadcast.
- **Null lookup.** `SelectStorageItemByUId` is taken to yield null when no record exists. Its
  body is not part of this model. Under that reading:
  - An unknown UId in `EquipJobItem` clears the template slot, then fails when the null item's UId
    is read.
  - In `HandleChangeEquipList` it clears the template slot but still writes the UId to the record.
- **Collaborator answers.** Three answers come from code whose bodies are not modelled. They are
  parameters (`EquipEnv`):
  - `FindItemByUIdInStorage` (which storage holds a UId);
  - `Equipment.GetStorageSlot`;
  - the list `ItemManager.EquipmentStorages`.
- **Failures.** Each of these throws and aborts the rest of the batch, with nothing rolled back:
  - a storage search that finds nothing;
  - an empty destination list on unequip.
- **Three behaviours of the code a caller might not expect; the model keeps them:**
  - Slot 0 folds to 0 and is not rejected.
  - A regular equip writes the template and the record *before* it looks for the item's storage,
    so a failed search leaves those writes in place.
  - A job-item equip with an unknown UId has already cleared the template slot when it fails.

## Model

| member | source | states |
|---|---|---|
| `EquipManager.DeterminePawnEquipSlot` | Arrowgene.Ddon.GameServer/Characters/EquipManager.cs:24-29 | For slot ≥ 1 the result lies in 1..15 and equals ((slot − 1) mod 15) + 1. Slot 0 gives 0, because C# division truncates. |
| `EquipManager.GetEquipTypeFromSlotNo` | Arrowgene.Ddon.GameServer/Characters/EquipManager.cs:13-22 | On 1..30 the result is Visual iff slot > 15. Every slot above 30 gives Performance, because the folded value is classified. Slot 0 gives Performance. |
| `EquipManager.DetermineEquipSlot` | Arrowgene.Ddon.GameServer/Characters/EquipManager.cs:31-34 | On 1..30 it agrees with the pawn fold and lies in 1..15. Slots up to 15 are kept. Above 15 it subtracts 15 without reducing by block. |
| `EquipManager.GetEquipTypeandSlot` | Arrowgene.Ddon.GameServer/Characters/EquipManager.cs:171-184 | A success gives the first window slot (1..30) that holds the UId, with type Performance iff slot ≤ 15, which equals the flat-slot classification. A failure means no window slot (within the storage) holds it. The error is "not found" when the window fits and "index out of range" when it runs past the storage. |
| `EquipManager.EquipJobItem` | Arrowgene.Ddon.GameServer/Characters/EquipManager.cs:36-90 | The template's job items and the persisted job-item records become the fold of the batch over the old state; nothing else in the database or template changes. A failing entry stops the batch. A target of unknown kind throws after the batch. Only a completed call to a character or pawn sends anything: the response to the requester first, then the party notice. |
| `EquipManager.ApplyJobItemList` | Arrowgene.Ddon.GameServer/Characters/EquipManager.cs:38-54 | The loop over the job-item entries. It leaves the template's job items and the job-item records exactly as the fold of the batch says, and reports the fold's failure, if any. Storage, equip records and the template's equip items stay as they were. |
| `EquipManager.HandleChangeEquipList` | Arrowgene.Ddon.GameServer/Characters/EquipManager.cs:92-170 | The template's equip items and the persisted equip records become the fold of the batch, and the log gains the fold's moves in order. After a completed batch the log gains the item update notice carrying exactly those moves, then the acknowledgement, then a broadcast to all clients (none for an unknown kind). |
| `EquipManager.ApplyEquipList` | Arrowgene.Ddon.GameServer/Characters/EquipManager.cs:99-132 | The loop over the regular entries. It leaves template, records and the moves issued so far exactly as the fold of the batch says, and reports the fold's failure, if any. Every issued move is logged in order. Storage, job-item records and the template's job items stay as they were. |
| `EquipManager.ChangeEquip` | Arrowgene.Ddon.GameServer/Characters/EquipManager.cs:101-131 | One entry changes the template slot, the record and the log exactly as one step of the fold does. It logs at most the one move it issues. |
| `EquipManager.NotifyEquipChange` | Arrowgene.Ddon.GameServer/Characters/EquipManager.cs:134-169 | The update notice is sent before the acknowledgement. Both come before the broadcast of the template's Performance and Visual items for the current job. |
| `EquipManager.JobItemFailureIsFinal` | Arrowgene.Ddon.GameServer/Characters/EquipManager.cs:38-54 | Once an entry of a job-item batch fails, the later entries change nothing. |
| `EquipManager.EquipFailureIsFinal` | Arrowgene.Ddon.GameServer/Characters/EquipManager.cs:99-132 | Once an entry of a regular batch fails, the later entries change nothing and issue no moves. |
| `EquipManagerProperties.FlatSlotRoundTrip` | Arrowgene.Ddon.GameServer/Characters/EquipManager.cs:13-29 | Folding the flat number of (block, category, slot) gives back the slot. On the character's block the category comes back too; on every pawn block it reads as Performance. |
| `EquipManagerProperties.FlatSlotCoversEverySlot` | Arrowgene.Ddon.GameServer/Characters/EquipManager.cs:24-29 | Every slot number ≥ 1 is the flat number of its block, its half of the block and its folded slot. |
| `EquipManagerProperties.PawnEquipSlotPeriodic` | Arrowgene.Ddon.GameServer/Characters/EquipManager.cs:26-28 | The fold repeats every 30 slots, and also every 15. |
| `EquipManagerProperties.SlotExamples` | Arrowgene.Ddon.GameServer/Characters/EquipManager.cs:13-34 | Slots 1, 16, 31 and 46 fold to 1, and 0 folds to 0. 16 is Visual, while 31 and 46 are Performance. The window fold maps 31 to 16. |
| `EquipManagerProperties.JobItemsOutsideBatchUnchanged` | Arrowgene.Ddon.GameServer/Characters/EquipManager.cs:38-54 | A job-item batch leaves unchanged every template slot of other jobs and every slot it does not name. The same holds for records of other entities. This holds even when the batch stops early. |
| `EquipManagerProperties.JobItemLastEntryWins` | Arrowgene.Ddon.GameServer/Characters/EquipManager.cs:38-54 | The last entry for a slot decides the slot. An empty UId leaves template and record empty; otherwise the template holds the looked-up item and the record holds its UId. |
| `EquipManagerProperties.JobItemRecordsMirrorTemplate` | Arrowgene.Ddon.GameServer/Characters/EquipManager.cs:40-53 | After a completed batch, template and record agree on every slot the batch names and on every slot where they agreed before. |
| `EquipManagerProperties.JobItemMirrorPreserved` | Arrowgene.Ddon.GameServer/Characters/EquipManager.cs:38-54 | If template and records agree on all slots of the job, a completed batch keeps them agreeing. |
| `EquipManagerProperties.JobItemUnknownUIdClearsTemplateOnly` | Arrowgene.Ddon.GameServer/Characters/EquipManager.cs:50-52 | An unknown UId fails with the template slot already cleared and the records untouched. |
| `EquipManagerProperties.JobItemChangeIdempotent` | Arrowgene.Ddon.GameServer/Characters/EquipManager.cs:40-53 | Applying a successful job-item change a second time changes nothing. |
| `EquipManagerProperties.JobItemEquipThenUnequip` | Arrowgene.Ddon.GameServer/Characters/EquipManager.cs:38-54 | Equipping then unequipping one slot leaves everything as before, except that slot, which is empty in both template and records. |
| `EquipManagerProperties.EquipOneMovePerEntry` | Arrowgene.Ddon.GameServer/Characters/EquipManager.cs:99-132 | A regular batch completes iff it issues exactly one move per entry. Earlier moves are kept. Every move is of quantity 1 and serves its own entry in order. An unequip moves out of the equip slot into slot 0 of the first destination only. An equip moves by UId from the storage that holds the item into the equip slot. |
| `EquipManagerProperties.EquipSourcesAreEquipmentStorages` | Arrowgene.Ddon.GameServer/Characters/EquipManager.cs:128-130 | If the storage search answers only with searched storages, every completed equip takes its item from one of the equipment storages. |
| `EquipManagerProperties.EquipOutsideBatchUnchanged` | Arrowgene.Ddon.GameServer/Characters/EquipManager.cs:99-132 | A regular batch leaves unchanged every slot of other jobs and every (category, slot) it does not name, in both template and records. This holds even when the batch stops early. |
| `EquipManagerProperties.EquipLastEntryWins` | Arrowgene.Ddon.GameServer/Characters/EquipManager.cs:106-126 | The last entry for a (category, slot) decides it. An empty UId leaves both empty. Otherwise the record holds the given UId and the template holds the stored item with that UId. |
| `EquipManagerProperties.EquipRecordsMirrorTemplate` | Arrowgene.Ddon.GameServer/Characters/EquipManager.cs:110-125 | Suppose items are keyed by their own UId and every equipped UId has a record. Then after a completed batch, template and records agree on every named slot and on every slot where they agreed before. |
| `EquipManagerProperties.EquipUnrecordedItemDiverges` | Arrowgene.Ddon.GameServer/Characters/EquipManager.cs:124-125 | An equip whose UId has no stored record, while the storage search finds it, leaves the template slot empty and the record holding the UId. Template and records then disagree. |
| `EquipManagerProperties.EquipChangeTwice` | Arrowgene.Ddon.GameServer/Characters/EquipManager.cs:99-132 | Repeating a successful equip change leaves template and records as after one application, but it issues a second move. |
| `EquipManagerProperties.EquipThenUnequip` | Arrowgene.Ddon.GameServer/Characters/EquipManager.cs:106-130 | Equipping then unequipping one (category, slot) empties it in template and records, leaving the rest as before. It issues two moves: one puts the item into that equip storage slot, and the next takes that same slot's occupant to the first destination. |
| `EquipManagerProperties.NoticeAudiences` | Arrowgene.Ddon.GameServer/Characters/EquipManager.cs:57-89 | Job-item notices go only to the requester and its party, with the response first. The regular-gear notice goes only to all clients. A target of unknown kind gets neither. |
| `ItemCatalog.StorageTypeOf` | Arrowgene.Ddon.Shared/Model/ClientItemInfo.cs:23-36 | The result is KeyItems iff the category is 4, and ItemBagJob iff the category is 5. Every other category gives the tag with the same number. |
| `ItemCatalog.StorageTypeRoundTrip` | Arrowgene.Ddon.Shared/Model/ClientItemInfo.cs:29-34 | The category can be recovered from the storage tag, and every tag comes from some category. |
| `ItemCatalog.GroupJobIds` | Arrowgene.Ddon.Shared/Model/ClientItemInfo.cs:43-67 | Every group gives a non-empty set of declared jobs. A single-job member gives exactly that job. |
| `ItemCatalog.JobIds` | Arrowgene.Ddon.Shared/Model/ClientItemInfo.cs:38-69 | The job set is absent iff the job group is absent; otherwise it is the group's job set. |
| `ItemCatalog.AllAdmitsEveryJob` | Arrowgene.Ddon.Shared/Model/ClientItemInfo.cs:45-46 | The group All admits every job. |
| `ItemCatalog.PhysicalIsHeavyAndLight` | Arrowgene.Ddon.Shared/Model/ClientItemInfo.cs:47-55 | The physical group is the union of the heavy and light groups, which are disjoint. |
| `ItemCatalog.MagickalIsRangedAndMelee` | Arrowgene.Ddon.Shared/Model/ClientItemInfo.cs:56-64 | The magickal group is the union of the ranged and melee magick groups, which are disjoint. |
| `ItemCatalog.PhysicalAndMagickalPartitionAll` | Arrowgene.Ddon.Shared/Model/ClientItemInfo.cs:45-64 | Every job is physical or magickal, never both. |
| `ItemCatalog.GetInfoForItemId` | Arrowgene.Ddon.Shared/Model/ClientItemInfo.cs:76-80 | The lookup succeeds iff the id is a key, and then yields that entry. Otherwise it fails with "no item found" for that id. |
| `ItemCatalog.GetInfoAfterInsert` | Arrowgene.Ddon.Shared/Model/ClientItemInfo.cs:76-80 | After an entry is added, its id resolves to it and every other id resolves as before. |

## Left out

- **Network transport and message framing.** Each send is one event in the log. The loop over all
  connected clients is one `ToAllClients` event. The party is not modelled beyond the `ToParty`
  event.
- **`ItemManager.MoveItem`.** Its internals (slot choice, eviction, the exact slot changes reported)
  are not modelled. A move is logged as the request it is, and the item update notice carries one
  entry per move.
- **Storage contents.** They are not tracked. The storage search (`FindItemByUIdInStorage`) and
  `Equipment.GetStorageSlot` are fixed functions of their arguments. So a later entry's search does
  not see moves made by earlier entries of the same batch.
- **The persisted store.** `SelectStorageItemByUId` and the delete and replace calls are map reads
  and writes. SQL and transactions are not modelled.
- **The game's numeric enum values.**
  - `StorageType`: of its values, only ItemBagJob = 4 and KeyItems = 5 are used; the `StorageType`
    enum is not part of this model. These two values are what `StorageTypeRoundTrip` relies on.
  - `JobId` and `EquipJobList` are modelled by their member names. A non-group `EquipJobList` value
    is a `Single(job)`. A cast to a number that is no declared job is not modelled.
- **`Enum.GetValues` and `ToString`.** `Enum.GetValues` is modelled as the fixed set of the eleven
  declared jobs. `ToString` is formatting only.
- **Unused catalog fields.** `SubCategory` and `Gender` of `ClientItemInfo` are omitted, because their
  types are not part of this model and no modelled getter reads them.
- **The snapshot functions.** `Equipment.AsCDataEquipItemInfo` and
  `JobItemsAsCDataEquipJobItem` are modelled as the template's entries for the current job, by slot.
  The records they build for the wire are not modelled.
- **The acknowledgement.** `sendResponse` is one `ResponseSent` event; whatever else it does is not
  modelled.
- **Exceptions from unmodelled collaborators.** An exception such as `GetStorage` on an unknown storage
  type is not modelled.
- **Concurrency and per-entity locking.** The code has none.
- **Equipment window slots.** Each slot is an optional item. The quantity in the slot's tuple plays no
  part in the lookup, and a tuple without an item is an empty slot.
- EquipManagerProperties.EquipRecordsMirrorTemplate: assumes every equipped UId has a stored record
  keyed by that UId. Without this, template and records can disagree, as
  `EquipUnrecordedItemDiverges` shows.
