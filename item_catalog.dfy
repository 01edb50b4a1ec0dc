/** The client item catalog entry (ClientItemInfo): which storage an item
    goes to, which jobs may equip it, and the checked catalog lookup. */
module ItemCatalog {
  import opened Common

  /** A storage tag. The enum has a byte underlying type, so a cast from
      any byte yields some tag. */
  newtype StorageType = x: int | 0 <= x < 0x100

  /** The two tags whose numbers differ from the catalog category numbers. */
  const ItemBagJob: StorageType := 4
  const KeyItems: StorageType := 5

  datatype JobId =
    | Fighter | Seeker | Hunter | Priest | ShieldSage | Sorcerer
    | Warrior | ElementArcher | Alchemist | SpiritLancer | HighScepter

  /** Every declared job (what enumerating the enum's values yields). */
  const AllJobIds: set<JobId> :=
    {Fighter, Seeker, Hunter, Priest, ShieldSage, Sorcerer,
     Warrior, ElementArcher, Alchemist, SpiritLancer, HighScepter}

  /** The job restriction of an item: one of the named groups, or a single
      job (a member that shares its number with a JobId). */
  datatype EquipJobList =
    | All
    | GroupHeavy | GroupLight | GroupPhysical
    | GroupMagickRanged | GroupMagickMelee | GroupMagickal
    | Single(job: JobId)

  datatype ClientItemInfo = ClientItemInfo(
    itemId: uint32,
    category: uint8,
    price: uint16,
    stackLimit: uint8,
    rank: uint8,
    name: string,
    level: Option<uint8>,
    jobGroup: Option<EquipJobList>,
    crestSlots: Option<uint8>,
    quality: Option<uint8>)

  datatype CatalogError = NoItemFound(itemId: uint32)

  /** The storage an item of this catalog entry is kept in. Categories 4
      (key items) and 5 (job items) are renumbered; every other category
      number is already the storage tag. */
  function StorageTypeOf(info: ClientItemInfo): (st: StorageType)
    ensures st == KeyItems <==> info.category == 4
    ensures st == ItemBagJob <==> info.category == 5
    ensures info.category != 4 && info.category != 5 ==> st as int == info.category as int
  {
    if info.category == 4 then KeyItems
    else if info.category == 5 then ItemBagJob
    else info.category as int as StorageType
  }

  /** The category number that a storage tag comes from (the inverse of
      StorageTypeOf on the category). */
  function CategoryOf(st: StorageType): uint8
  {
    if st == KeyItems then 4
    else if st == ItemBagJob then 5
    else st as int as uint8
  }

  /** The jobs a job group stands for. */
  function GroupJobIds(group: EquipJobList): (jobs: set<JobId>)
    ensures jobs != {} && jobs <= AllJobIds
    ensures group.Single? ==> jobs == {group.job}
  {
    match group
    case All => AllJobIds
    case GroupHeavy => {Fighter, Warrior}
    case GroupLight => {Seeker, Hunter, SpiritLancer}
    case GroupPhysical => {Fighter, Warrior, Seeker, Hunter, SpiritLancer}
    case GroupMagickRanged => {Priest, Sorcerer, ElementArcher}
    case GroupMagickMelee => {ShieldSage, Alchemist, HighScepter}
    case GroupMagickal => {Priest, Sorcerer, ElementArcher, ShieldSage, Alchemist, HighScepter}
    case Single(job) => JobIsDeclared(job); {job}
  }

  /** Every job is among the declared jobs. */
  lemma JobIsDeclared(j: JobId)
    ensures j in AllJobIds
  {
  }

  /** The jobs that may equip the item; absent exactly when the entry has
      no job restriction. */
  function JobIds(info: ClientItemInfo): (r: Option<set<JobId>>)
    ensures r.None? <==> info.jobGroup.None?
    ensures r.Some? ==> r.value == GroupJobIds(info.jobGroup.value)
  {
    if info.jobGroup.None? then None else Some(GroupJobIds(info.jobGroup.value))
  }

  /** The catalog entry for `itemId`; an error when the catalog has none. */
  function GetInfoForItemId(infos: map<uint32, ClientItemInfo>, itemId: uint32): (r: Result<ClientItemInfo, CatalogError>)
    ensures r.Ok? <==> itemId in infos
    ensures r.Ok? ==> r.value == infos[itemId]
    ensures r.Err? ==> r.error == NoItemFound(itemId)
  {
    if itemId in infos then Ok(infos[itemId]) else Err(NoItemFound(itemId))
  }

  /** The group All admits every job. */
  lemma AllAdmitsEveryJob(j: JobId)
    ensures j in GroupJobIds(All)
  {
    JobIsDeclared(j);
  }

  /** The physical group is the heavy and the light group together, with
      no job in both. */
  lemma PhysicalIsHeavyAndLight()
    ensures GroupJobIds(GroupPhysical) == GroupJobIds(GroupHeavy) + GroupJobIds(GroupLight)
    ensures GroupJobIds(GroupHeavy) !! GroupJobIds(GroupLight)
  {
  }

  /** The magickal group is the ranged and the melee magick groups together,
      with no job in both. */
  lemma MagickalIsRangedAndMelee()
    ensures GroupJobIds(GroupMagickal) == GroupJobIds(GroupMagickRanged) + GroupJobIds(GroupMagickMelee)
    ensures GroupJobIds(GroupMagickRanged) !! GroupJobIds(GroupMagickMelee)
  {
  }

  /** Every job is either physical or magickal, never both. */
  lemma PhysicalAndMagickalPartitionAll()
    ensures GroupJobIds(GroupPhysical) + GroupJobIds(GroupMagickal) == GroupJobIds(All)
    ensures GroupJobIds(GroupPhysical) !! GroupJobIds(GroupMagickal)
  {
  }

  /** The category renumbering loses nothing: the category can be
      recovered from the storage tag, and every tag comes from a category. */
  lemma StorageTypeRoundTrip(info: ClientItemInfo, st: StorageType)
    ensures CategoryOf(StorageTypeOf(info)) == info.category
    ensures StorageTypeOf(info.(category := CategoryOf(st))) == st
  {
  }

  /** Adding an entry to the catalog makes exactly that id resolve to it. */
  lemma GetInfoAfterInsert(infos: map<uint32, ClientItemInfo>, itemId: uint32, info: ClientItemInfo, other: uint32)
    ensures GetInfoForItemId(infos[itemId := info], itemId) == Ok(info)
    ensures other != itemId ==> GetInfoForItemId(infos[itemId := info], other) == GetInfoForItemId(infos, other)
  {
  }
}
