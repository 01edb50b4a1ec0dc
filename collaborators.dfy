/** The objects the equipment manager works on but does not own: the
    target entity, its equipment template, the persisted record store and
    the outgoing event stream (storage moves and messages). Only the
    behaviour the manager relies on is modelled. */
module Collaborators {
  import opened Common
  import opened ItemCatalog

  datatype EquipType = Performance | Visual

  /** An inventory item; `uid` is its globally unique identifier. */
  datatype Item = Item(uid: string, itemId: uint32)

  /** Which kind of CharacterCommon an operation targets. `OtherKind`
      stands for any further subclass, which the manager does not
      recognise. */
  datatype EntityKind =
    | CharacterKind(characterId: uint32)
    | PawnKind(pawnId: uint32, characterId: uint32)
    | OtherKind

  /** The target of an equip operation: its common id, current job and kind. */
  datatype Entity = Entity(commonId: uint32, job: JobId, kind: EntityKind)

  /** Key of an equipped item in the template: (job, category, slot). */
  type EquipKey = (JobId, EquipType, uint8)
  /** Key of an equipped job item in the template: (job, slot). */
  type JobItemKey = (JobId, uint16)
  /** Key of a persisted equip record: (common id, job, category, slot). */
  type EquipRecordKey = (uint32, JobId, EquipType, uint8)
  /** Key of a persisted job-item record: (common id, job, slot). */
  type JobItemRecordKey = (uint32, JobId, uint16)

  /** The per-job equipment of an entity, kept in memory. */
  class EquipmentTemplate {
    var equipItems: map<EquipKey, Item>
    var jobItems: map<JobItemKey, Item>

    constructor ()
      ensures equipItems == map[] && jobItems == map[]
    {
      equipItems := map[];
      jobItems := map[];
    }

    /** Sets (or, for None, clears) one equip slot of one job. */
    method SetEquipItem(item: Option<Item>, job: JobId, equipType: EquipType, slot: uint8)
      modifies this
      ensures equipItems == Assign(old(equipItems), (job, equipType, slot), item)
      ensures jobItems == old(jobItems)
    {
      equipItems := Assign(equipItems, (job, equipType, slot), item);
    }

    /** Sets (or, for None, clears) one job-item slot of one job. */
    method SetJobItem(item: Option<Item>, job: JobId, slot: uint16)
      modifies this
      ensures jobItems == Assign(old(jobItems), (job, slot), item)
      ensures equipItems == old(equipItems)
    {
      jobItems := Assign(jobItems, (job, slot), item);
    }

    /** The job items of `job`, by slot. */
    function JobItemsOf(job: JobId): (r: map<uint16, Item>)
      reads this
      ensures forall slot :: Lookup(r, slot) == Lookup(jobItems, (job, slot))
    {
      map k | k in jobItems && k.0 == job :: k.1 := jobItems[k]
    }

    /** The items of one category equipped for `job`, by slot. */
    function EquipItemsOf(job: JobId, equipType: EquipType): (r: map<uint8, Item>)
      reads this
      ensures forall slot :: Lookup(r, slot) == Lookup(equipItems, (job, equipType, slot))
    {
      map k | k in equipItems && k.0 == job && k.1 == equipType :: k.2 := equipItems[k]
    }
  }

  /** The item records are keyed by their own UId. */
  predicate KeyedByUId(items: map<string, Item>)
  {
    forall uid :: uid in items ==> items[uid].uid == uid
  }

  /** The persisted record store, as maps. */
  class Database {
    /** Stored items, by UId (read by SelectStorageItemByUId). */
    var storageItems: map<string, Item>
    var equipItems: map<EquipRecordKey, string>
    var equipJobItems: map<JobItemRecordKey, string>

    constructor (items: map<string, Item>)
      ensures storageItems == items && equipItems == map[] && equipJobItems == map[]
    {
      storageItems := items;
      equipItems := map[];
      equipJobItems := map[];
    }

    /** The stored item with this UId; None stands for the null that the
        query yields when there is no such record. */
    function SelectStorageItemByUId(uid: string): Option<Item>
      reads this
    {
      Lookup(storageItems, uid)
    }

    method DeleteEquipItem(commonId: uint32, job: JobId, equipType: EquipType, slot: uint8)
      modifies this
      ensures equipItems == old(equipItems) - {(commonId, job, equipType, slot)}
      ensures storageItems == old(storageItems) && equipJobItems == old(equipJobItems)
    {
      equipItems := equipItems - {(commonId, job, equipType, slot)};
    }

    method ReplaceEquipItem(commonId: uint32, job: JobId, equipType: EquipType, slot: uint8, uid: string)
      modifies this
      ensures equipItems == old(equipItems)[(commonId, job, equipType, slot) := uid]
      ensures storageItems == old(storageItems) && equipJobItems == old(equipJobItems)
    {
      equipItems := equipItems[(commonId, job, equipType, slot) := uid];
    }

    method DeleteEquipJobItem(commonId: uint32, job: JobId, slot: uint16)
      modifies this
      ensures equipJobItems == old(equipJobItems) - {(commonId, job, slot)}
      ensures storageItems == old(storageItems) && equipItems == old(equipItems)
    {
      equipJobItems := equipJobItems - {(commonId, job, slot)};
    }

    method ReplaceEquipJobItem(uid: string, commonId: uint32, job: JobId, slot: uint16)
      modifies this
      ensures equipJobItems == old(equipJobItems)[(commonId, job, slot) := uid]
      ensures storageItems == old(storageItems) && equipItems == old(equipItems)
    {
      equipJobItems := equipJobItems[(commonId, job, slot) := uid];
    }
  }

  /** One end of a storage move: a storage of the requesting character, or
      the target entity's equipment storage window. */
  datatype Endpoint = CharacterStorage(storageType: StorageType) | EquipmentStorage

  /** What a move takes from its source: the item in a slot, or the item
      with a UId. */
  datatype MoveKey = AtSlot(slot: uint16) | ByUId(uid: string)

  /** A request to the item manager to move `quantity` units. */
  datatype Move = Move(from: Endpoint, key: MoveKey, quantity: nat, to: Endpoint, toSlot: uint16)

  /** The classification tag of an item update notice (its values are
      chosen by the caller). */
  datatype ItemNoticeType = ItemNoticeType(code: uint16)

  datatype Message =
    | CharacterEquipJobItemRes(jobItems: map<uint16, Item>)
    | CharacterEquipJobItemNtc(characterId: uint32, jobItems: map<uint16, Item>)
    | PawnEquipJobItemRes(pawnId: uint32, jobItems: map<uint16, Item>)
    | PawnEquipJobItemNtc(characterId: uint32, pawnId: uint32, jobItems: map<uint16, Item>)
      /** The item update notice; each move stands for the slot changes it reported. */
    | ItemUpdateCharacterItemNtc(updateType: ItemNoticeType, updates: seq<Move>)
    | CharacterEquipNtc(characterId: uint32, equipItems: map<uint8, Item>, visualItems: map<uint8, Item>)
    | PawnEquipNtc(characterId: uint32, pawnId: uint32, equipItems: map<uint8, Item>, visualItems: map<uint8, Item>)

  /** What the manager does outside its own state, in order. */
  datatype Event =
    | Moved(move: Move)
    | ToRequester(msg: Message)
    | ToParty(msg: Message)
    | ToAllClients(msg: Message)
    | ResponseSent

  /** The outgoing stream: storage moves, message sends and the invocation
      of the caller's acknowledgement, in the order they happen. */
  class EventLog {
    var events: seq<Event>

    constructor ()
      ensures events == []
    {
      events := [];
    }

    /** The item manager's move; its reported slot changes are represented
        by the move itself. */
    method MoveItem(move: Move) returns (updates: seq<Move>)
      modifies this
      ensures events == old(events) + [Moved(move)]
      ensures updates == [move]
    {
      events := events + [Moved(move)];
      updates := [move];
    }

    /** A send to the requesting client. */
    method Send(msg: Message)
      modifies this
      ensures events == old(events) + [ToRequester(msg)]
    {
      events := events + [ToRequester(msg)];
    }

    /** A send to every member of the requester's party. */
    method SendToParty(msg: Message)
      modifies this
      ensures events == old(events) + [ToParty(msg)]
    {
      events := events + [ToParty(msg)];
    }

    /** A send to every connected client. */
    method SendToAllClients(msg: Message)
      modifies this
      ensures events == old(events) + [ToAllClients(msg)]
    {
      events := events + [ToAllClients(msg)];
    }

    /** The caller's deferred acknowledgement. */
    method InvokeSendResponse()
      modifies this
      ensures events == old(events) + [ResponseSent]
    {
      events := events + [ResponseSent];
    }
  }
}
