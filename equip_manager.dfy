/** The equipment manager: folding flat slot numbers into per-category
    slots, finding an equipped item by UId, and applying a batch of job-item
    or regular equip changes to the template, the persisted records and the
    item storages, followed by the notices the game sends. */
module EquipManager {
  import opened Common
  import opened ItemCatalog
  import opened Collaborators

  /** Slots per equip category; one entity's window holds twice as many. */
  const TotalEquipSlots: int := 15

  /** Integer division as C# does it: truncating toward zero. */
  function TruncDiv(a: int, b: int): int
    requires b > 0
  {
    if a >= 0 then a / b else -((-a) / b)
  }

  // ---------------------------------------------------------------------
  // Slot arithmetic

  /** Folds a flat slot number (character slots 1..30, then one 30-slot
      block per pawn) to the slot within its category. Slot 0 stays 0,
      because C# division truncates (0 - 1) / 30 to 0. */
  function DeterminePawnEquipSlot(slotNo: uint16): (r: uint16)
    ensures slotNo == 0 ==> r == 0
    ensures slotNo >= 1 ==> 1 <= r <= 15 && r as int == (slotNo as int - 1) % TotalEquipSlots + 1
  {
    PawnFold(slotNo as int);
    var pawnIndex := TruncDiv(slotNo as int - 1, TotalEquipSlots * 2);
    var relativeSlotNo := slotNo as int - pawnIndex * (TotalEquipSlots * 2);
    (if relativeSlotNo > 15 then relativeSlotNo - 15 else relativeSlotNo) as uint16
  }

  /** Adding whole 30-slot blocks does not change a slot's place within
      its 15-slot category. */
  lemma BlockShift(k: nat, x: int)
    ensures (k * (2 * TotalEquipSlots) + x) % TotalEquipSlots == x % TotalEquipSlots
  {
    var y := k * 30 + x;
    assert x == 15 * (x / 15) + x % 15;
    assert y == 15 * (2 * k + x / 15) + x % 15;
  }

  /** Removing the whole blocks and then one category from a positive slot
      number is taking it modulo 15, shifted to start at 1. */
  lemma PawnFold(n: int)
    ensures n >= 1 ==>
      var relative := n - ((n - 1) / (TotalEquipSlots * 2)) * (TotalEquipSlots * 2);
      (if relative > TotalEquipSlots then relative - TotalEquipSlots else relative) == (n - 1) % TotalEquipSlots + 1
  {
    if n >= 1 {
      var q := (n - 1) / (TotalEquipSlots * 2);
      var m := (n - 1) % (TotalEquipSlots * 2);
      assert n - 1 == q * (TotalEquipSlots * 2) + m;
      BlockShift(q, m);
      assert m < TotalEquipSlots ==> m % TotalEquipSlots == m;
      assert m >= TotalEquipSlots ==> m % TotalEquipSlots == m - TotalEquipSlots;
    }
  }

  /** The category of a flat slot number. Beyond the character's 30 slots
      the already folded slot (at most 15) is classified, so every pawn
      slot reads as Performance. */
  function GetEquipTypeFromSlotNo(slotNo: uint16): (t: EquipType)
    ensures 1 <= slotNo <= 30 ==> (t == Visual <==> slotNo > 15)
    ensures slotNo > 30 ==> t == Performance
    ensures slotNo == 0 ==> t == Performance
  {
    var relativeSlotNo := if slotNo > 30 then DeterminePawnEquipSlot(slotNo) else slotNo;
    if relativeSlotNo > 15 then Visual else Performance
  }

  /** Folds a slot of one entity's 30-slot window to its category slot.
      Numbers beyond 30 are not reduced by block. */
  function DetermineEquipSlot(slotNo: uint16): (r: uint16)
    ensures 1 <= slotNo <= 30 ==> 1 <= r <= 15 && r == DeterminePawnEquipSlot(slotNo)
    ensures slotNo <= 15 ==> r == slotNo
    ensures slotNo > 15 ==> r as int == slotNo as int - 15
  {
    (if slotNo > 15 then slotNo - 15 else slotNo) as uint16
  }

  // ---------------------------------------------------------------------
  // Lookup by identity

  datatype EquipError =
    | ItemNotFound          // an item UId that no lookup resolves
    | IndexOutOfRange       // the equipment window runs past the storage
    | NoDestination         // an unequip with an empty destination list
    | UnknownCharacterType  // a target that is neither character nor pawn

  /** The storage slot holds the item with this UId. */
  predicate HoldsUId(slot: Option<Item>, uid: string)
  {
    slot.Some? && slot.value.uid == uid
  }

  /** Scans the 30-slot equipment window starting at `offset` for the item
      with UId `uid` and returns its category and the 1-based window slot. */
  method GetEquipTypeandSlot(items: seq<Option<Item>>, offset: nat, uid: string)
    returns (r: Result<(EquipType, uint8), EquipError>)
    ensures r.Ok? ==>
      var slot := r.value.1 as int;
      && 1 <= slot <= 2 * TotalEquipSlots
      && offset + slot - 1 < |items|
      && HoldsUId(items[offset + slot - 1], uid)
      && (forall j :: offset <= j < offset + slot - 1 ==> !HoldsUId(items[j], uid))
      && (r.value.0 == Performance <==> slot <= TotalEquipSlots)
      && r.value.0 == GetEquipTypeFromSlotNo(slot as uint16)
    ensures r.Err? ==>
      && (forall j :: offset <= j < offset + 2 * TotalEquipSlots && j < |items| ==> !HoldsUId(items[j], uid))
      && r.error == (if offset + 2 * TotalEquipSlots <= |items| then ItemNotFound else IndexOutOfRange)
  {
    var i := 0;
    while i < TotalEquipSlots * 2
      invariant 0 <= i <= TotalEquipSlots * 2
      invariant i > 0 ==> offset + i <= |items|
      invariant forall j :: offset <= j < offset + i ==> !HoldsUId(items[j], uid)
    {
      if offset + i >= |items| {
        return Err(IndexOutOfRange);
      }
      if HoldsUId(items[offset + i], uid) {
        var equipSlot := (i + 1) as uint8;
        var equipType := if equipSlot as int <= TotalEquipSlots then Performance else Visual;
        return Ok((equipType, equipSlot));
      }
      i := i + 1;
    }
    return Err(ItemNotFound);
  }

  // ---------------------------------------------------------------------
  // Batches: what a batch does to the state, as functions

  /** The effect of a batch: the state it leaves and, when an entry threw,
      the error (entries after it are not applied, and nothing is undone). */
  datatype Applied<S> = Applied(state: S, failure: Option<EquipError>)

  /** One job-item change: the slot and the item UId, empty to unequip. */
  datatype JobItemChange = JobItemChange(slot: uint16, uid: string)

  /** The job-item slots of the template and of the persisted records. */
  datatype JobItemState = JobItemState(template: map<JobItemKey, Item>, records: map<JobItemRecordKey, string>)

  /** Applies one job-item change for the target's current job. An unknown
      UId clears the template slot before the null item is dereferenced. */
  function ApplyJobItemChange(s: JobItemState, target: Entity, items: map<string, Item>, c: JobItemChange): Applied<JobItemState>
  {
    var key := (target.job, c.slot);
    var record := (target.commonId, target.job, c.slot);
    if |c.uid| == 0 then
      Applied(JobItemState(s.template - {key}, s.records - {record}), None)
    else
      match Lookup(items, c.uid)
      case Some(item) => Applied(JobItemState(s.template[key := item], s.records[record := item.uid]), None)
      case None => Applied(JobItemState(s.template - {key}, s.records), Some(ItemNotFound))
  }

  /** Applies the job-item changes in order, stopping at the first error. */
  function ApplyJobItemChanges(s: JobItemState, target: Entity, items: map<string, Item>, cs: seq<JobItemChange>): Applied<JobItemState>
    decreases |cs|
  {
    if cs == [] then Applied(s, None)
    else
      var before := ApplyJobItemChanges(s, target, items, cs[..|cs| - 1]);
      if before.failure.Some? then before else ApplyJobItemChange(before.state, target, items, cs[|cs| - 1])
  }

  /** One regular equip change: the item UId (empty to unequip), the
      category and the slot within it. */
  datatype EquipChange = EquipChange(uid: string, equipType: EquipType, category: uint8)

  /** The equip slots of the template, the persisted records, and the
      storage moves issued so far. */
  datatype EquipState = EquipState(template: map<EquipKey, Item>, records: map<EquipRecordKey, string>, moves: seq<Move>)

  /** The answers of collaborators whose bodies are not modelled: the
      target's equipment storage slot of a (category, slot) pair, the
      storage among `equipmentStorages` that holds an item UId, and that
      list of storages searched on equip. */
  datatype EquipEnv = EquipEnv(
    storageSlot: (EquipType, uint8) -> uint16,
    findItem: (seq<StorageType>, string) -> Option<StorageType>,
    equipmentStorages: seq<StorageType>)

  /** Applies one regular equip change. An unequip moves the occupant of
      the equip slot to the first destination storage only; an equip moves
      the item from the storage it was found in into the equip slot. Both
      move exactly one unit. */
  function ApplyEquipChange(s: EquipState, target: Entity, items: map<string, Item>, env: EquipEnv,
                            destinations: seq<StorageType>, c: EquipChange): Applied<EquipState>
  {
    var key := (target.job, c.equipType, c.category);
    var record := (target.commonId, target.job, c.equipType, c.category);
    var storageSlot := env.storageSlot(c.equipType, c.category);
    if |c.uid| == 0 then
      var cleared := EquipState(s.template - {key}, s.records - {record}, s.moves);
      if |destinations| == 0 then Applied(cleared, Some(NoDestination))
      else
        var move := Move(EquipmentStorage, AtSlot(storageSlot), 1, CharacterStorage(destinations[0]), 0);
        Applied(cleared.(moves := s.moves + [move]), None)
    else
      var equipped := EquipState(Assign(s.template, key, Lookup(items, c.uid)), s.records[record := c.uid], s.moves);
      match env.findItem(env.equipmentStorages, c.uid)
      case None => Applied(equipped, Some(ItemNotFound))
      case Some(source) =>
        var move := Move(CharacterStorage(source), ByUId(c.uid), 1, EquipmentStorage, storageSlot);
        Applied(equipped.(moves := s.moves + [move]), None)
  }

  /** Applies the regular equip changes in order, stopping at the first error. */
  function ApplyEquipChanges(s: EquipState, target: Entity, items: map<string, Item>, env: EquipEnv,
                             destinations: seq<StorageType>, cs: seq<EquipChange>): Applied<EquipState>
    decreases |cs|
  {
    if cs == [] then Applied(s, None)
    else
      var before := ApplyEquipChanges(s, target, items, env, destinations, cs[..|cs| - 1]);
      if before.failure.Some? then before else ApplyEquipChange(before.state, target, items, env, destinations, cs[|cs| - 1])
  }

  /** The log entries of a sequence of moves. */
  function MovedEvents(ms: seq<Move>): seq<Event>
    decreases |ms|
  {
    if ms == [] then [] else MovedEvents(ms[..|ms| - 1]) + [Moved(ms[|ms| - 1])]
  }

  /** The job-item response to the requester, then the notice to its party. */
  function JobItemNotices(requesterId: uint32, target: Entity, jobItems: map<uint16, Item>): seq<Event>
  {
    match target.kind
    case CharacterKind(characterId) =>
      [ToRequester(CharacterEquipJobItemRes(jobItems)), ToParty(CharacterEquipJobItemNtc(characterId, jobItems))]
    case PawnKind(pawnId, _) =>
      [ToRequester(PawnEquipJobItemRes(pawnId, jobItems)), ToParty(PawnEquipJobItemNtc(requesterId, pawnId, jobItems))]
    case OtherKind => []
  }

  /** The equipment snapshot sent to every connected client; nothing for a
      target that is neither character nor pawn. */
  function EquipBroadcast(target: Entity, performance: map<uint8, Item>, visual: map<uint8, Item>): seq<Event>
  {
    match target.kind
    case CharacterKind(characterId) => [ToAllClients(CharacterEquipNtc(characterId, performance, visual))]
    case PawnKind(pawnId, ownerId) => [ToAllClients(PawnEquipNtc(ownerId, pawnId, performance, visual))]
    case OtherKind => []
  }

  lemma {:induction false} JobItemFailureIsFinal(s: JobItemState, target: Entity, items: map<string, Item>, cs: seq<JobItemChange>, k: nat)
    requires k <= |cs|
    requires ApplyJobItemChanges(s, target, items, cs[..k]).failure.Some?
    ensures ApplyJobItemChanges(s, target, items, cs) == ApplyJobItemChanges(s, target, items, cs[..k])
    decreases |cs|
  {
    if k < |cs| {
      var front := cs[..|cs| - 1];
      assert front[..k] == cs[..k];
      JobItemFailureIsFinal(s, target, items, front, k);
    } else {
      assert cs[..k] == cs;
    }
  }

  lemma {:induction false} EquipFailureIsFinal(s: EquipState, target: Entity, items: map<string, Item>, env: EquipEnv,
                                            destinations: seq<StorageType>, cs: seq<EquipChange>, k: nat)
    requires k <= |cs|
    requires ApplyEquipChanges(s, target, items, env, destinations, cs[..k]).failure.Some?
    ensures ApplyEquipChanges(s, target, items, env, destinations, cs) == ApplyEquipChanges(s, target, items, env, destinations, cs[..k])
    decreases |cs|
  {
    if k < |cs| {
      var front := cs[..|cs| - 1];
      assert front[..k] == cs[..k];
      EquipFailureIsFinal(s, target, items, env, destinations, front, k);
    } else {
      assert cs[..k] == cs;
    }
  }

  lemma JobItemChangesStep(s: JobItemState, target: Entity, items: map<string, Item>, cs: seq<JobItemChange>, i: nat)
    requires i < |cs|
    requires ApplyJobItemChanges(s, target, items, cs[..i]).failure.None?
    ensures ApplyJobItemChanges(s, target, items, cs[..i + 1])
            == ApplyJobItemChange(ApplyJobItemChanges(s, target, items, cs[..i]).state, target, items, cs[i])
  {
    assert cs[..i + 1][..i] == cs[..i];
  }

  lemma EquipChangesStep(s: EquipState, target: Entity, items: map<string, Item>, env: EquipEnv,
                         destinations: seq<StorageType>, cs: seq<EquipChange>, i: nat)
    requires i < |cs|
    requires ApplyEquipChanges(s, target, items, env, destinations, cs[..i]).failure.None?
    ensures ApplyEquipChanges(s, target, items, env, destinations, cs[..i + 1])
            == ApplyEquipChange(ApplyEquipChanges(s, target, items, env, destinations, cs[..i]).state, target, items, env, destinations, cs[i])
  {
    assert cs[..i + 1][..i] == cs[..i];
  }

  /** Logging `more` after the log of `ms` is the log of `ms + more`. */
  lemma LoggedMovesAppend(base: seq<Event>, ms: seq<Move>, more: seq<Move>, logged: seq<Event>, events: seq<Event>)
    requires logged == base + MovedEvents(ms)
    requires events == logged + MovedEvents(more)
    ensures events == base + MovedEvents(ms + more)
  {
    MovedEventsAppend(ms, more);
  }

  lemma {:induction false} MovedEventsAppend(ms: seq<Move>, more: seq<Move>)
    ensures MovedEvents(ms + more) == MovedEvents(ms) + MovedEvents(more)
    decreases |more|
  {
    if more == [] {
      assert ms + more == ms;
    } else {
      var front := more[..|more| - 1];
      assert (ms + more)[..|ms + more| - 1] == ms + front;
      MovedEventsAppend(ms, front);
    }
  }

  // ---------------------------------------------------------------------
  // Batches: the operations

  /** Applies job-item changes in order to the template and the persisted
      records, then answers the requester and notifies its party. A target
      of unknown kind throws after the changes are applied. */
  method EquipJobItem(db: Database, log: EventLog, requesterId: uint32, target: Entity,
                      template: EquipmentTemplate, changes: seq<JobItemChange>)
    returns (outcome: Outcome<EquipError>)
    modifies db, log, template
    ensures db.storageItems == old(db.storageItems) && db.equipItems == old(db.equipItems)
    ensures template.equipItems == old(template.equipItems)
    ensures
      var r := ApplyJobItemChanges(JobItemState(old(template.jobItems), old(db.equipJobItems)), target, old(db.storageItems), changes);
      && template.jobItems == r.state.template
      && db.equipJobItems == r.state.records
      && outcome == (if r.failure.Some? then Fail(r.failure.value)
                     else if target.kind.OtherKind? then Fail(UnknownCharacterType)
                     else Pass)
    ensures log.events == old(log.events) + (if outcome.Pass? then JobItemNotices(requesterId, target, template.JobItemsOf(target.job)) else [])
  {
    var failure := ApplyJobItemList(db, template, target, changes);
    if failure.Some? {
      return Fail(failure.value);
    }

    // answer the requester, then tell its party
    var equippedJobItems := template.JobItemsOf(target.job);
    match target.kind {
      case CharacterKind(characterId) =>
        log.Send(CharacterEquipJobItemRes(equippedJobItems));
        log.SendToParty(CharacterEquipJobItemNtc(characterId, equippedJobItems));
      case PawnKind(pawnId, _) =>
        log.Send(PawnEquipJobItemRes(pawnId, equippedJobItems));
        log.SendToParty(PawnEquipJobItemNtc(requesterId, pawnId, equippedJobItems));
      case OtherKind =>
        return Fail(UnknownCharacterType);
    }
    outcome := Pass;
  }

  /** The loop of EquipJobItem: applies the entries in order until one
      throws, leaving template and records as the fold says. */
  method ApplyJobItemList(db: Database, template: EquipmentTemplate, target: Entity, changes: seq<JobItemChange>)
    returns (failure: Option<EquipError>)
    modifies db, template
    ensures db.storageItems == old(db.storageItems) && db.equipItems == old(db.equipItems)
    ensures template.equipItems == old(template.equipItems)
    ensures ApplyJobItemChanges(JobItemState(old(template.jobItems), old(db.equipJobItems)), target, old(db.storageItems), changes)
            == Applied(JobItemState(template.jobItems, db.equipJobItems), failure)
  {
    ghost var s0 := JobItemState(template.jobItems, db.equipJobItems);
    var i := 0;
    while i < |changes|
      invariant 0 <= i <= |changes|
      invariant ApplyJobItemChanges(s0, target, old(db.storageItems), changes[..i])
                == Applied(JobItemState(template.jobItems, db.equipJobItems), None)
      invariant db.storageItems == old(db.storageItems) && db.equipItems == old(db.equipItems)
      invariant template.equipItems == old(template.equipItems)
    {
      var change := changes[i];
      ghost var next := ApplyJobItemChange(JobItemState(template.jobItems, db.equipJobItems), target, old(db.storageItems), change);
      JobItemChangesStep(s0, target, old(db.storageItems), changes, i);
      if |change.uid| == 0 {
        // unequip
        template.SetJobItem(None, target.job, change.slot);
        db.DeleteEquipJobItem(target.commonId, target.job, change.slot);
      } else {
        // equip
        var item := db.SelectStorageItemByUId(change.uid);
        template.SetJobItem(item, target.job, change.slot);
        if item.None? {
          // the null item is dereferenced for its UId
          JobItemFailureIsFinal(s0, target, old(db.storageItems), changes, i + 1);
          return Some(ItemNotFound);
        }
        db.ReplaceEquipJobItem(item.value.uid, target.commonId, target.job, change.slot);
      }
      assert next == Applied(JobItemState(template.jobItems, db.equipJobItems), None);
      i := i + 1;
    }
    assert changes[..|changes|] == changes;
    failure := None;
  }

  /** Applies regular equip changes in order: template, persisted record
      and one storage move per entry. Then it sends the accumulated item
      update notice, invokes the caller's acknowledgement, and broadcasts
      the target's equipment to every connected client. */
  method HandleChangeEquipList(db: Database, log: EventLog, target: Entity, template: EquipmentTemplate,
                               changes: seq<EquipChange>, updateType: ItemNoticeType,
                               storageTypes: seq<StorageType>, env: EquipEnv)
    returns (outcome: Outcome<EquipError>)
    modifies db, log, template
    ensures db.storageItems == old(db.storageItems) && db.equipJobItems == old(db.equipJobItems)
    ensures template.jobItems == old(template.jobItems)
    ensures
      var r := ApplyEquipChanges(EquipState(old(template.equipItems), old(db.equipItems), []), target,
                                 old(db.storageItems), env, storageTypes, changes);
      && template.equipItems == r.state.template
      && db.equipItems == r.state.records
      && outcome == (if r.failure.Some? then Fail(r.failure.value) else Pass)
      && log.events == old(log.events) + MovedEvents(r.state.moves)
           + (if r.failure.Some? then []
              else [ToRequester(ItemUpdateCharacterItemNtc(updateType, r.state.moves)), ResponseSent]
                   + EquipBroadcast(target, template.EquipItemsOf(target.job, Performance),
                                    template.EquipItemsOf(target.job, Visual)))
  {
    var updates, failure := ApplyEquipList(db, log, target, template, changes, storageTypes, env);
    if failure.Some? {
      return Fail(failure.value);
    }
    ghost var moved := log.events;
    NotifyEquipChange(log, target, template, updateType, updates);
    assert log.events == moved
             + [ToRequester(ItemUpdateCharacterItemNtc(updateType, updates)), ResponseSent]
             + EquipBroadcast(target, template.EquipItemsOf(target.job, Performance),
                              template.EquipItemsOf(target.job, Visual));
    outcome := Pass;
  }

  /** The loop of HandleChangeEquipList: applies the entries in order until
      one throws, leaving template, records and issued moves as the fold
      says, each move logged as it is issued. */
  method ApplyEquipList(db: Database, log: EventLog, target: Entity, template: EquipmentTemplate,
                        changes: seq<EquipChange>, storageTypes: seq<StorageType>, env: EquipEnv)
    returns (updates: seq<Move>, failure: Option<EquipError>)
    modifies db, log, template
    ensures db.storageItems == old(db.storageItems) && db.equipJobItems == old(db.equipJobItems)
    ensures template.jobItems == old(template.jobItems)
    ensures ApplyEquipChanges(EquipState(old(template.equipItems), old(db.equipItems), []), target,
                              old(db.storageItems), env, storageTypes, changes)
            == Applied(EquipState(template.equipItems, db.equipItems, updates), failure)
    ensures log.events == old(log.events) + MovedEvents(updates)
  {
    ghost var s0 := EquipState(template.equipItems, db.equipItems, []);
    updates := [];
    var i := 0;
    while i < |changes|
      invariant 0 <= i <= |changes|
      invariant ApplyEquipChanges(s0, target, old(db.storageItems), env, storageTypes, changes[..i])
                == Applied(EquipState(template.equipItems, db.equipItems, updates), None)
      invariant db.storageItems == old(db.storageItems) && db.equipJobItems == old(db.equipJobItems)
      invariant template.jobItems == old(template.jobItems)
      invariant log.events == old(log.events) + MovedEvents(updates)
    {
      ghost var before := EquipState(template.equipItems, db.equipItems, updates);
      EquipChangesStep(s0, target, old(db.storageItems), env, storageTypes, changes, i);
      assert ApplyEquipChanges(s0, target, old(db.storageItems), env, storageTypes, changes[..i + 1])
             == ApplyEquipChange(before, target, old(db.storageItems), env, storageTypes, changes[i]);
      ghost var logged := log.events;
      var moved, stop := ChangeEquip(db, log, target, template, changes[i], storageTypes, env, updates);
      LoggedMovesAppend(old(log.events), updates, moved, logged, log.events);
      updates := updates + moved;
      assert ApplyEquipChanges(s0, target, old(db.storageItems), env, storageTypes, changes[..i + 1])
             == Applied(EquipState(template.equipItems, db.equipItems, updates), stop);
      if stop.Some? {
        EquipFailureIsFinal(s0, target, old(db.storageItems), env, storageTypes, changes, i + 1);
        return updates, stop;
      }
      i := i + 1;
    }
    assert changes[..|changes|] == changes;
    failure := None;
  }

  /** One entry of HandleChangeEquipList: the template and record update
      and the storage move; `moved` holds the move issued, if any. */
  method ChangeEquip(db: Database, log: EventLog, target: Entity, template: EquipmentTemplate,
                     change: EquipChange, storageTypes: seq<StorageType>, env: EquipEnv, ghost updates: seq<Move>)
    returns (moved: seq<Move>, failure: Option<EquipError>)
    modifies db, log, template
    ensures db.storageItems == old(db.storageItems) && db.equipJobItems == old(db.equipJobItems)
    ensures template.jobItems == old(template.jobItems)
    ensures ApplyEquipChange(EquipState(old(template.equipItems), old(db.equipItems), updates), target,
                             old(db.storageItems), env, storageTypes, change)
            == Applied(EquipState(template.equipItems, db.equipItems, updates + moved), failure)
    ensures log.events == old(log.events) + MovedEvents(moved)
  {
    var equipItemStorageSlot := env.storageSlot(change.equipType, change.category);
    if |change.uid| == 0 {
      // unequip
      template.SetEquipItem(None, target.job, change.equipType, change.category);
      db.DeleteEquipItem(target.commonId, target.job, change.equipType, change.category);
      if |storageTypes| == 0 {
        // the first destination is read from an empty list
        assert updates + [] == updates;
        return [], Some(NoDestination);
      }
      moved := log.MoveItem(Move(EquipmentStorage, AtSlot(equipItemStorageSlot), 1, CharacterStorage(storageTypes[0]), 0));
    } else {
      // equip
      var item := db.SelectStorageItemByUId(change.uid);
      template.SetEquipItem(item, target.job, change.equipType, change.category);
      db.ReplaceEquipItem(target.commonId, target.job, change.equipType, change.category, change.uid);
      var found := env.findItem(env.equipmentStorages, change.uid);
      if found.None? {
        // the item is in none of the equipment storages
        assert updates + [] == updates;
        return [], Some(ItemNotFound);
      }
      moved := log.MoveItem(Move(CharacterStorage(found.value), ByUId(change.uid), 1, EquipmentStorage, equipItemStorageSlot));
    }
    assert MovedEvents(moved) == [Moved(moved[0])] by {
      assert moved[..0] == [];
    }
    failure := None;
  }

  /** The notices after a completed batch: the item update notice to the
      requester, then the acknowledgement, then the broadcast. */
  method NotifyEquipChange(log: EventLog, target: Entity, template: EquipmentTemplate,
                           updateType: ItemNoticeType, updates: seq<Move>)
    modifies log
    ensures log.events == old(log.events)
              + [ToRequester(ItemUpdateCharacterItemNtc(updateType, updates)), ResponseSent]
              + EquipBroadcast(target, template.EquipItemsOf(target.job, Performance),
                               template.EquipItemsOf(target.job, Visual))
  {
    log.Send(ItemUpdateCharacterItemNtc(updateType, updates));
    log.InvokeSendResponse();

    // broadcast the target's current equipment
    var performance := template.EquipItemsOf(target.job, Performance);
    var visual := template.EquipItemsOf(target.job, Visual);
    match target.kind {
      case CharacterKind(characterId) =>
        log.SendToAllClients(CharacterEquipNtc(characterId, performance, visual));
      case PawnKind(pawnId, ownerId) =>
        log.SendToAllClients(PawnEquipNtc(ownerId, pawnId, performance, visual));
      case OtherKind =>
    }
  }
}
