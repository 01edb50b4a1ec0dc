/** Properties of the equipment manager model: the slot arithmetic against
    an explicit encoding of the flat slot space, and what a batch of
    job-item or regular equip changes does to the template, the persisted
    records and the storage moves. */
module EquipManagerProperties {
  import opened Common
  import opened ItemCatalog
  import opened Collaborators
  import opened EquipManager

  // ---------------------------------------------------------------------
  // The flat slot space

  /** The flat slot number of category slot `local` (1..15) of category
      `equipType` of the entity at block `pawnIndex` (0 is the character). */
  function FlatSlot(pawnIndex: nat, equipType: EquipType, local: int): int
  {
    pawnIndex * (2 * TotalEquipSlots) + (if equipType == Visual then TotalEquipSlots else 0) + local
  }

  /** Folding a flat slot number recovers the category slot it encodes; on
      the character's block the category is recovered too, while on every
      pawn block it reads as Performance. */
  lemma FlatSlotRoundTrip(pawnIndex: nat, equipType: EquipType, local: int)
    requires 1 <= local <= TotalEquipSlots
    requires FlatSlot(pawnIndex, equipType, local) < 0x1_0000
    ensures DeterminePawnEquipSlot(FlatSlot(pawnIndex, equipType, local) as uint16) as int == local
    ensures pawnIndex == 0 ==> GetEquipTypeFromSlotNo(FlatSlot(pawnIndex, equipType, local) as uint16) == equipType
    ensures pawnIndex == 0 ==> DetermineEquipSlot(FlatSlot(pawnIndex, equipType, local) as uint16) as int == local
    ensures pawnIndex > 0 ==> GetEquipTypeFromSlotNo(FlatSlot(pawnIndex, equipType, local) as uint16) == Performance
  {
    var n := FlatSlot(pawnIndex, equipType, local);
    var offset := (if equipType == Visual then TotalEquipSlots else 0) + local - 1;
    assert n - 1 == pawnIndex * 30 + offset && 0 <= offset < 30;
    BlockShift(pawnIndex, offset);
  }

  /** Every positive flat slot number is the encoding of exactly the block,
      category and category slot the fold reads off it. */
  lemma FlatSlotCoversEverySlot(slotNo: uint16)
    requires slotNo >= 1
    ensures
      var pawnIndex := (slotNo as int - 1) / (2 * TotalEquipSlots);
      var equipType := if (slotNo as int - 1) % (2 * TotalEquipSlots) >= TotalEquipSlots then Visual else Performance;
      FlatSlot(pawnIndex, equipType, DeterminePawnEquipSlot(slotNo) as int) == slotNo as int
  {
  }

  /** The fold repeats with every 30-slot block, and even within a block
      the two categories fold alike. */
  lemma PawnEquipSlotPeriodic(slotNo: uint16)
    requires slotNo >= 1
    ensures slotNo as int + 30 < 0x1_0000 ==> DeterminePawnEquipSlot((slotNo as int + 30) as uint16) == DeterminePawnEquipSlot(slotNo)
    ensures slotNo as int + 15 < 0x1_0000 ==> DeterminePawnEquipSlot((slotNo as int + 15) as uint16) == DeterminePawnEquipSlot(slotNo)
  {
    var x := slotNo as int - 1;
    assert (x + 30) % 15 == x % 15;
    assert (x + 15) % 15 == x % 15;
  }

  /** Concrete slots: the first slot of each category of the character and
      of the first pawn all fold to 1; slot 0 folds to 0; the window fold
      does not reduce pawn slots. */
  lemma SlotExamples()
    ensures DeterminePawnEquipSlot(1) == 1 && DeterminePawnEquipSlot(16) == 1
    ensures DeterminePawnEquipSlot(31) == 1 && DeterminePawnEquipSlot(46) == 1
    ensures DeterminePawnEquipSlot(0) == 0
    ensures GetEquipTypeFromSlotNo(15) == Performance && GetEquipTypeFromSlotNo(16) == Visual
    ensures GetEquipTypeFromSlotNo(31) == Performance && GetEquipTypeFromSlotNo(46) == Performance
    ensures DetermineEquipSlot(31) == 16
  {
  }

  // ---------------------------------------------------------------------
  // Job-item batches

  /** The UId a template entry stands for. */
  function UIdOf(item: Option<Item>): Option<string>
  {
    if item.Some? then Some(item.value.uid) else None
  }

  /** No entry of the batch names `slot`. */
  predicate JobSlotUntouched(cs: seq<JobItemChange>, slot: uint16)
  {
    forall i :: 0 <= i < |cs| ==> cs[i].slot != slot
  }

  /** The persisted record of the target's job slot names the item of the
      template slot. */
  predicate JobItemAgreeAt(s: JobItemState, target: Entity, slot: uint16)
  {
    Lookup(s.records, (target.commonId, target.job, slot)) == UIdOf(Lookup(s.template, (target.job, slot)))
  }

  /** A batch changes nothing outside the target's job and the slots it
      names, even when it stops early. */
  lemma {:induction false} JobItemsOutsideBatchUnchanged(s: JobItemState, target: Entity, items: map<string, Item>,
                                                         cs: seq<JobItemChange>, commonId: uint32, job: JobId, slot: uint16)
    ensures
      var r := ApplyJobItemChanges(s, target, items, cs);
      && (job != target.job || JobSlotUntouched(cs, slot) ==>
            Lookup(r.state.template, (job, slot)) == Lookup(s.template, (job, slot)))
      && (commonId != target.commonId || job != target.job || JobSlotUntouched(cs, slot) ==>
            Lookup(r.state.records, (commonId, job, slot)) == Lookup(s.records, (commonId, job, slot)))
    decreases |cs|
  {
    if cs != [] {
      var front := cs[..|cs| - 1];
      assert JobSlotUntouched(cs, slot) ==> JobSlotUntouched(front, slot) by {
        forall i | 0 <= i < |front| ensures front[i] == cs[i] { }
      }
      JobItemsOutsideBatchUnchanged(s, target, items, front, commonId, job, slot);
    }
  }

  /** In a completed batch the last entry for a slot decides it: empty UId
      leaves the template slot and the record empty, any other UId leaves
      the item it names in the template and its UId in the record. */
  lemma {:induction false} JobItemLastEntryWins(s: JobItemState, target: Entity, items: map<string, Item>,
                                                cs: seq<JobItemChange>, i: nat)
    requires i < |cs|
    requires forall j :: i < j < |cs| ==> cs[j].slot != cs[i].slot
    requires ApplyJobItemChanges(s, target, items, cs).failure.None?
    ensures
      var r := ApplyJobItemChanges(s, target, items, cs).state;
      var expected := if |cs[i].uid| == 0 then None else Lookup(items, cs[i].uid);
      && Lookup(r.template, (target.job, cs[i].slot)) == expected
      && Lookup(r.records, (target.commonId, target.job, cs[i].slot)) == UIdOf(expected)
    decreases |cs|
  {
    var front := cs[..|cs| - 1];
    if i < |cs| - 1 {
      assert front[i] == cs[i];
      forall j | i < j < |front| ensures front[j].slot != front[i].slot {
        assert front[j] == cs[j];
      }
      JobItemLastEntryWins(s, target, items, front, i);
    }
  }

  /** A completed batch leaves template and records agreeing on every slot
      it names, and on every slot where they agreed before. */
  lemma {:induction false} JobItemRecordsMirrorTemplate(s: JobItemState, target: Entity, items: map<string, Item>,
                                                        cs: seq<JobItemChange>, slot: uint16)
    requires ApplyJobItemChanges(s, target, items, cs).failure.None?
    requires !JobSlotUntouched(cs, slot) || JobItemAgreeAt(s, target, slot)
    ensures JobItemAgreeAt(ApplyJobItemChanges(s, target, items, cs).state, target, slot)
    decreases |cs|
  {
    if cs == [] {
      return;
    }
    var front := cs[..|cs| - 1];
    if cs[|cs| - 1].slot != slot {
      assert !JobSlotUntouched(cs, slot) ==> !JobSlotUntouched(front, slot) by {
        if !JobSlotUntouched(cs, slot) {
          var i :| 0 <= i < |cs| && cs[i].slot == slot;
          assert front[i] == cs[i];
        }
      }
      JobItemRecordsMirrorTemplate(s, target, items, front, slot);
    }
  }

  /** The template is a cache of the records: a completed batch keeps them
      agreeing on every slot of the target's job. */
  lemma JobItemMirrorPreserved(s: JobItemState, target: Entity, items: map<string, Item>, cs: seq<JobItemChange>)
    requires forall slot :: JobItemAgreeAt(s, target, slot)
    requires ApplyJobItemChanges(s, target, items, cs).failure.None?
    ensures forall slot :: JobItemAgreeAt(ApplyJobItemChanges(s, target, items, cs).state, target, slot)
  {
    forall slot ensures JobItemAgreeAt(ApplyJobItemChanges(s, target, items, cs).state, target, slot) {
      JobItemRecordsMirrorTemplate(s, target, items, cs, slot);
    }
  }

  /** An equip naming an unknown UId stops the batch with the template slot
      already cleared and the record untouched: nothing is rolled back. */
  lemma JobItemUnknownUIdClearsTemplateOnly(s: JobItemState, target: Entity, items: map<string, Item>, c: JobItemChange)
    requires |c.uid| > 0 && c.uid !in items
    ensures
      var r := ApplyJobItemChanges(s, target, items, [c]);
      && r.failure == Some(ItemNotFound)
      && Lookup(r.state.template, (target.job, c.slot)) == None
      && r.state.records == s.records
  {
    assert [c][..0] == [];
  }

  /** Applying the same job-item change twice in a row is applying it once. */
  lemma JobItemChangeIdempotent(s: JobItemState, target: Entity, items: map<string, Item>, c: JobItemChange)
    requires ApplyJobItemChange(s, target, items, c).failure.None?
    ensures
      var once := ApplyJobItemChange(s, target, items, c);
      ApplyJobItemChange(once.state, target, items, c) == once
  {
    var key := (target.job, c.slot);
    var record := (target.commonId, target.job, c.slot);
    if |c.uid| > 0 {
      var item := items[c.uid];
      assert s.template[key := item][key := item] == s.template[key := item];
      assert s.records[record := item.uid][record := item.uid] == s.records[record := item.uid];
    } else {
      assert s.template - {key} - {key} == s.template - {key};
      assert s.records - {record} - {record} == s.records - {record};
    }
  }

  /** Equipping a job item and then unequipping the same slot leaves the
      state as before, except that slot is now empty in both. */
  lemma JobItemEquipThenUnequip(s: JobItemState, target: Entity, items: map<string, Item>, slot: uint16, uid: string)
    requires |uid| > 0 && uid in items
    ensures
      var r := ApplyJobItemChanges(s, target, items, [JobItemChange(slot, uid), JobItemChange(slot, "")]);
      && r.failure.None?
      && r.state.template == s.template - {(target.job, slot)}
      && r.state.records == s.records - {(target.commonId, target.job, slot)}
  {
    var cs := [JobItemChange(slot, uid), JobItemChange(slot, "")];
    assert cs[..1][..0] == [] && cs[..1] == [cs[0]];
    assert ApplyJobItemChanges(s, target, items, cs[..1][..0]) == Applied(s, None);
    var first := ApplyJobItemChanges(s, target, items, cs[..1]);
    assert first == ApplyJobItemChange(s, target, items, cs[0]);
    assert ApplyJobItemChanges(s, target, items, cs) == ApplyJobItemChange(first.state, target, items, cs[1]);
    var key := (target.job, slot);
    var record := (target.commonId, target.job, slot);
    assert s.template[key := items[uid]] - {key} == s.template - {key};
    assert s.records[record := items[uid].uid] - {record} == s.records - {record};
  }

  // ---------------------------------------------------------------------
  // Regular equip batches

  /** No entry of the batch names this category slot. */
  predicate EquipSlotUntouched(cs: seq<EquipChange>, equipType: EquipType, category: uint8)
  {
    forall i :: 0 <= i < |cs| ==> (cs[i].equipType, cs[i].category) != (equipType, category)
  }

  /** The persisted record of the target's category slot names the item of
      the template slot. */
  predicate EquipAgreeAt(s: EquipState, target: Entity, equipType: EquipType, category: uint8)
  {
    Lookup(s.records, (target.commonId, target.job, equipType, category))
      == UIdOf(Lookup(s.template, (target.job, equipType, category)))
  }

  /** The searched storages answer only with one of themselves. */
  ghost predicate FindsWithin(env: EquipEnv)
  {
    forall uid :: env.findItem(env.equipmentStorages, uid).Some? ==>
      env.findItem(env.equipmentStorages, uid).value in env.equipmentStorages
  }

  /** The move an equip batch issues for entry `c`: one unit, out of the
      equip slot into the first destination for an unequip, and by UId out
      of the storage the item was found in into the equip slot for an
      equip. */
  predicate MoveServes(env: EquipEnv, destinations: seq<StorageType>, c: EquipChange, m: Move)
  {
    var storageSlot := env.storageSlot(c.equipType, c.category);
    && m.quantity == 1
    && (|c.uid| == 0 ==>
          && |destinations| > 0
          && m.from == EquipmentStorage && m.key == AtSlot(storageSlot)
          && m.to == CharacterStorage(destinations[0]) && m.toSlot == 0)
    && (|c.uid| > 0 ==>
          && env.findItem(env.equipmentStorages, c.uid).Some?
          && m.from == CharacterStorage(env.findItem(env.equipmentStorages, c.uid).value)
          && m.key == ByUId(c.uid)
          && m.to == EquipmentStorage && m.toSlot == storageSlot)
  }

  /** A batch completes exactly when it issues one move per entry, each
      serving its entry in order, after the moves already issued. */
  lemma {:induction false} EquipOneMovePerEntry(s: EquipState, target: Entity, items: map<string, Item>, env: EquipEnv,
                                                destinations: seq<StorageType>, cs: seq<EquipChange>)
    ensures
      var r := ApplyEquipChanges(s, target, items, env, destinations, cs);
      && |s.moves| <= |r.state.moves| <= |s.moves| + |cs|
      && r.state.moves[..|s.moves|] == s.moves
      && (r.failure.None? <==> |r.state.moves| == |s.moves| + |cs|)
      && (r.failure.None? ==>
            forall i :: 0 <= i < |cs| ==> MoveServes(env, destinations, cs[i], r.state.moves[|s.moves| + i]))
    decreases |cs|
  {
    if cs != [] {
      var front := cs[..|cs| - 1];
      var before := ApplyEquipChanges(s, target, items, env, destinations, front);
      EquipOneMovePerEntry(s, target, items, env, destinations, front);
      if before.failure.None? {
        var r := ApplyEquipChange(before.state, target, items, env, destinations, cs[|cs| - 1]);
        assert r.state.moves[..|before.state.moves|] == before.state.moves;
        if r.failure.None? {
          forall i | 0 <= i < |cs|
            ensures MoveServes(env, destinations, cs[i], r.state.moves[|s.moves| + i])
          {
            if i < |cs| - 1 {
              assert front[i] == cs[i];
              assert r.state.moves[|s.moves| + i] == before.state.moves[|s.moves| + i];
            }
          }
        }
      }
    }
  }

  /** When the storage search answers only with searched storages, every
      completed equip takes its item from one of the equipment storages. */
  lemma EquipSourcesAreEquipmentStorages(s: EquipState, target: Entity, items: map<string, Item>, env: EquipEnv,
                                         destinations: seq<StorageType>, cs: seq<EquipChange>, i: nat)
    requires FindsWithin(env)
    requires i < |cs| && |cs[i].uid| > 0
    requires ApplyEquipChanges(s, target, items, env, destinations, cs).failure.None?
    ensures
      var moves := ApplyEquipChanges(s, target, items, env, destinations, cs).state.moves;
      && |moves| == |s.moves| + |cs|
      && moves[|s.moves| + i].from.CharacterStorage?
      && moves[|s.moves| + i].from.storageType in env.equipmentStorages
  {
    EquipOneMovePerEntry(s, target, items, env, destinations, cs);
    assert MoveServes(env, destinations, cs[i], ApplyEquipChanges(s, target, items, env, destinations, cs).state.moves[|s.moves| + i]);
  }

  /** A batch changes nothing outside the target's job and the category
      slots it names, even when it stops early. */
  lemma {:induction false} EquipOutsideBatchUnchanged(s: EquipState, target: Entity, items: map<string, Item>, env: EquipEnv,
                                                      destinations: seq<StorageType>, cs: seq<EquipChange>,
                                                      commonId: uint32, job: JobId, equipType: EquipType, category: uint8)
    ensures
      var r := ApplyEquipChanges(s, target, items, env, destinations, cs);
      && (job != target.job || EquipSlotUntouched(cs, equipType, category) ==>
            Lookup(r.state.template, (job, equipType, category)) == Lookup(s.template, (job, equipType, category)))
      && (commonId != target.commonId || job != target.job || EquipSlotUntouched(cs, equipType, category) ==>
            Lookup(r.state.records, (commonId, job, equipType, category)) == Lookup(s.records, (commonId, job, equipType, category)))
    decreases |cs|
  {
    if cs != [] {
      var front := cs[..|cs| - 1];
      assert EquipSlotUntouched(cs, equipType, category) ==> EquipSlotUntouched(front, equipType, category) by {
        forall i | 0 <= i < |front| ensures front[i] == cs[i] { }
      }
      EquipOutsideBatchUnchanged(s, target, items, env, destinations, front, commonId, job, equipType, category);
      var before := ApplyEquipChanges(s, target, items, env, destinations, front);
      if before.failure.None? {
        EquipChangeKeepsOthers(before.state, target, items, env, destinations, cs[|cs| - 1], commonId, job, equipType, category);
      }
    }
  }

  /** One entry changes nothing outside the target's job and the category
      slot it names. */
  lemma EquipChangeKeepsOthers(s: EquipState, target: Entity, items: map<string, Item>, env: EquipEnv,
                               destinations: seq<StorageType>, c: EquipChange,
                               commonId: uint32, job: JobId, equipType: EquipType, category: uint8)
    ensures
      var r := ApplyEquipChange(s, target, items, env, destinations, c);
      && (job != target.job || (c.equipType, c.category) != (equipType, category) ==>
            Lookup(r.state.template, (job, equipType, category)) == Lookup(s.template, (job, equipType, category)))
      && (commonId != target.commonId || job != target.job || (c.equipType, c.category) != (equipType, category) ==>
            Lookup(r.state.records, (commonId, job, equipType, category)) == Lookup(s.records, (commonId, job, equipType, category)))
  {
  }

  /** In a completed batch the last entry for a category slot decides it:
      an empty UId leaves template slot and record empty; any other UId
      is recorded as given, and the template holds the stored item with
      that UId (or nothing, when there is none). */
  lemma {:induction false} EquipLastEntryWins(s: EquipState, target: Entity, items: map<string, Item>, env: EquipEnv,
                                              destinations: seq<StorageType>, cs: seq<EquipChange>, i: nat)
    requires i < |cs|
    requires forall j :: i < j < |cs| ==> (cs[j].equipType, cs[j].category) != (cs[i].equipType, cs[i].category)
    requires ApplyEquipChanges(s, target, items, env, destinations, cs).failure.None?
    ensures
      var r := ApplyEquipChanges(s, target, items, env, destinations, cs).state;
      var c := cs[i];
      && Lookup(r.template, (target.job, c.equipType, c.category)) == (if |c.uid| == 0 then None else Lookup(items, c.uid))
      && Lookup(r.records, (target.commonId, target.job, c.equipType, c.category)) == (if |c.uid| == 0 then None else Some(c.uid))
    decreases |cs|
  {
    var front := cs[..|cs| - 1];
    if i < |cs| - 1 {
      assert front[i] == cs[i];
      forall j | i < j < |front|
        ensures (front[j].equipType, front[j].category) != (front[i].equipType, front[i].category)
      {
        assert front[j] == cs[j];
      }
      EquipLastEntryWins(s, target, items, env, destinations, front, i);
    }
  }

  /** When every equipped UId names a stored item, a completed batch leaves
      template and records agreeing on every category slot it names, and on
      every slot where they agreed before. */
  lemma {:induction false} EquipRecordsMirrorTemplate(s: EquipState, target: Entity, items: map<string, Item>, env: EquipEnv,
                                                      destinations: seq<StorageType>, cs: seq<EquipChange>,
                                                      equipType: EquipType, category: uint8)
    requires KeyedByUId(items)
    requires forall i :: 0 <= i < |cs| && |cs[i].uid| > 0 ==> cs[i].uid in items
    requires ApplyEquipChanges(s, target, items, env, destinations, cs).failure.None?
    requires !EquipSlotUntouched(cs, equipType, category) || EquipAgreeAt(s, target, equipType, category)
    ensures EquipAgreeAt(ApplyEquipChanges(s, target, items, env, destinations, cs).state, target, equipType, category)
    decreases |cs|
  {
    if cs == [] {
      return;
    }
    var front := cs[..|cs| - 1];
    var last := cs[|cs| - 1];
    if (last.equipType, last.category) != (equipType, category) {
      assert !EquipSlotUntouched(cs, equipType, category) ==> !EquipSlotUntouched(front, equipType, category) by {
        if !EquipSlotUntouched(cs, equipType, category) {
          var i :| 0 <= i < |cs| && (cs[i].equipType, cs[i].category) == (equipType, category);
          assert front[i] == cs[i];
        }
      }
      forall i | 0 <= i < |front| && |front[i].uid| > 0 ensures front[i].uid in items {
        assert front[i] == cs[i];
      }
      EquipRecordsMirrorTemplate(s, target, items, env, destinations, front, equipType, category);
    }
  }

  /** An equip whose UId has no stored record while the storage search
      finds it leaves the template slot empty but the record naming the
      UId: template and records then disagree. */
  lemma EquipUnrecordedItemDiverges(s: EquipState, target: Entity, items: map<string, Item>, env: EquipEnv,
                                    destinations: seq<StorageType>, c: EquipChange)
    requires |c.uid| > 0 && c.uid !in items
    requires env.findItem(env.equipmentStorages, c.uid).Some?
    ensures
      var r := ApplyEquipChange(s, target, items, env, destinations, c);
      && r.failure.None?
      && !EquipAgreeAt(r.state, target, c.equipType, c.category)
  {
  }

  /** Applying the same equip change twice in a row leaves template and
      records as applying it once, but issues a second move. */
  lemma EquipChangeTwice(s: EquipState, target: Entity, items: map<string, Item>, env: EquipEnv,
                         destinations: seq<StorageType>, c: EquipChange)
    requires ApplyEquipChange(s, target, items, env, destinations, c).failure.None?
    ensures
      var once := ApplyEquipChange(s, target, items, env, destinations, c);
      var twice := ApplyEquipChange(once.state, target, items, env, destinations, c);
      && twice.failure.None?
      && twice.state.template == once.state.template
      && twice.state.records == once.state.records
      && |twice.state.moves| == |s.moves| + 2
  {
    var key := (target.job, c.equipType, c.category);
    var record := (target.commonId, target.job, c.equipType, c.category);
    if |c.uid| > 0 {
      var t1 := Assign(s.template, key, Lookup(items, c.uid));
      assert Assign(t1, key, Lookup(items, c.uid)) == t1 by {
        if c.uid in items {
          assert t1[key := items[c.uid]] == t1;
        } else {
          assert t1 - {key} == t1;
        }
      }
      assert s.records[record := c.uid][record := c.uid] == s.records[record := c.uid];
    } else {
      assert s.template - {key} - {key} == s.template - {key};
      assert s.records - {record} - {record} == s.records - {record};
    }
  }

  /** Equipping an item into a category slot and then unequipping that slot
      empties the slot in template and records, and issues two moves: the
      item into the equip storage slot, then the occupant of that same slot
      out to the first destination. */
  lemma EquipThenUnequip(s: EquipState, target: Entity, items: map<string, Item>, env: EquipEnv,
                         destinations: seq<StorageType>, uid: string, equipType: EquipType, category: uint8)
    requires |uid| > 0 && |destinations| > 0
    requires env.findItem(env.equipmentStorages, uid).Some?
    ensures
      var r := ApplyEquipChanges(s, target, items, env, destinations,
                                 [EquipChange(uid, equipType, category), EquipChange("", equipType, category)]);
      var storageSlot := env.storageSlot(equipType, category);
      && r.failure.None?
      && r.state.template == s.template - {(target.job, equipType, category)}
      && r.state.records == s.records - {(target.commonId, target.job, equipType, category)}
      && |r.state.moves| == |s.moves| + 2
      && r.state.moves[|s.moves|].key == ByUId(uid)
      && r.state.moves[|s.moves|].to == EquipmentStorage
      && r.state.moves[|s.moves|].toSlot == storageSlot
      && r.state.moves[|s.moves| + 1].from == EquipmentStorage
      && r.state.moves[|s.moves| + 1].key == AtSlot(storageSlot)
      && r.state.moves[|s.moves| + 1].to == CharacterStorage(destinations[0])
  {
    var cs := [EquipChange(uid, equipType, category), EquipChange("", equipType, category)];
    assert cs[..1][..0] == [] && cs[..1] == [cs[0]];
    assert ApplyEquipChanges(s, target, items, env, destinations, cs[..1][..0]) == Applied(s, None);
    var first := ApplyEquipChanges(s, target, items, env, destinations, cs[..1]);
    assert first == ApplyEquipChange(s, target, items, env, destinations, cs[0]);
    assert ApplyEquipChanges(s, target, items, env, destinations, cs)
           == ApplyEquipChange(first.state, target, items, env, destinations, cs[1]);
    var key := (target.job, equipType, category);
    var record := (target.commonId, target.job, equipType, category);
    assert Assign(s.template, key, Lookup(items, uid)) - {key} == s.template - {key};
    assert s.records[record := uid] - {record} == s.records - {record};
  }

  // ---------------------------------------------------------------------
  // Who hears about a change

  /** Job-item changes go to the requester and its party; regular equip
      changes are broadcast to every connected client. A character or pawn
      target always gets its notices; another kind gets none. */
  lemma NoticeAudiences(requesterId: uint32, target: Entity, jobItems: map<uint16, Item>,
                        performance: map<uint8, Item>, visual: map<uint8, Item>)
    ensures forall e :: e in JobItemNotices(requesterId, target, jobItems) ==> e.ToRequester? || e.ToParty?
    ensures forall e :: e in EquipBroadcast(target, performance, visual) ==> e.ToAllClients?
    ensures !target.kind.OtherKind? ==>
      |JobItemNotices(requesterId, target, jobItems)| == 2
      && JobItemNotices(requesterId, target, jobItems)[0].ToRequester?
      && JobItemNotices(requesterId, target, jobItems)[1].ToParty?
      && |EquipBroadcast(target, performance, visual)| == 1
    ensures target.kind.OtherKind? ==> JobItemNotices(requesterId, target, jobItems) == [] && EquipBroadcast(target, performance, visual) == []
  {
  }
}
