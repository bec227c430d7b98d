/**
 * The identifier registry: the location-type catalogue and the four tables that
 * partition one integer id space (1001-1099 dungeons, 2001-2999 connectors,
 * 3001-3999 special locations, 4001 chests, 5001 useless, 6001-6999 static),
 * with their first-match lookups.
 */
module LocationTypes {
  import opened Wrappers
  import Seqs

  /** The keys of the location-type catalogue, in the catalogue's order. */
  datatype TypeKey = UsefulType | ConnectorType | DungeonType | DungeonCompletedType | StaticType | UselessType

  datatype TypeInfo = TypeInfo(name: string, color: string, prefix: string)

  const TypeKeys: seq<TypeKey> := [UsefulType, ConnectorType, DungeonType, DungeonCompletedType, StaticType, UselessType]

  /** The key as spelled in stored records and in the catalogue. */
  function KeyName(k: TypeKey): string {
    match k
    case UsefulType => "useful"
    case ConnectorType => "connector"
    case DungeonType => "dungeon"
    case DungeonCompletedType => "dungeonCompleted"
    case StaticType => "static"
    case UselessType => "useless"
  }

  /** Name, badge colour and display prefix of each location type. */
  function Info(k: TypeKey): TypeInfo {
    match k
    case UsefulType => TypeInfo("Useful", "bg-green-600", "C")
    case ConnectorType => TypeInfo("Connector", "bg-yellow-600", "#")
    case DungeonType => TypeInfo("Dungeon", "bg-purple-600", "")
    case DungeonCompletedType => TypeInfo("Dungeon Completed", "bg-red-900", "")
    case StaticType => TypeInfo("Static", "bg-blue-600", "")
    case UselessType => TypeInfo("Useless", "bg-red-900", "")
  }

  /** Every key appears once in the catalogue, and names identify keys. */
  lemma TypeKeysComplete()
    ensures forall k: TypeKey :: k in TypeKeys
    ensures forall i, j :: 0 <= i < j < |TypeKeys| ==> TypeKeys[i] != TypeKeys[j]
    ensures forall a: TypeKey, b: TypeKey :: KeyName(a) == KeyName(b) ==> a == b
  {
    forall k: TypeKey ensures k in TypeKeys {
      match k
      case UsefulType => assert TypeKeys[0] == k;
      case ConnectorType => assert TypeKeys[1] == k;
      case DungeonType => assert TypeKeys[2] == k;
      case DungeonCompletedType => assert TypeKeys[3] == k;
      case StaticType => assert TypeKeys[4] == k;
      case UselessType => assert TypeKeys[5] == k;
    }
  }

  // ---- dungeons ----

  datatype DungeonEntry = Dungeon(id: int, acronym: string, fullName: string, groupId: Option<int>)

  function DungeonData(): seq<DungeonEntry> {
    [
      Dungeon(1001, "HM", "Hyrule Castle - Main", None),
      Dungeon(1002, "HL", "Hyrule Castle - Left", None),
      Dungeon(1003, "HR", "Hyrule Castle - Right", None),
      Dungeon(1045, "EP", "Eastern Palace", None),
      Dungeon(1005, "DM", "Desert Palace - Main", None),
      Dungeon(1006, "DL", "Desert Palace - Left", None),
      Dungeon(1007, "DR", "Desert Palace - Right", None),
      Dungeon(1008, "DB", "Desert Palace - Back", None),
      Dungeon(1009, "TH", "Tower of Hera", None),
      Dungeon(1010, "AT", "Agahnim Tower", None),
      Dungeon(1011, "PD", "Palace of Darkness", None),
      Dungeon(1012, "SP", "Swamp Palace", None),
      Dungeon(1013, "SW", "Skull Woods", None),
      Dungeon(1014, "SB", "Skull Woods - Back", None),
      Dungeon(1015, "TT", "Thieves Town", None),
      Dungeon(1016, "IP", "Ice Palace", None),
      Dungeon(1017, "MM", "Misery Mire", None),
      Dungeon(1018, "TR", "Turtle Rock", None),
      Dungeon(1019, "TC", "Turtle Rock - Compass", None),
      Dungeon(1020, "TB", "Turtle Rock - Big Chest", None),
      Dungeon(1021, "TL", "Turtle Rock - Laser Bridge", None),
      Dungeon(1022, "GT", "Ganons Tower", None)
    ]
  }

  /** The first entry of dungeon table `t` with id `id`. */
  function DungeonById(t: seq<DungeonEntry>, id: int): Option<DungeonEntry> {
    Seqs.Find(t, (d: DungeonEntry) => d.id == id)
  }

  /** `getDungeonById(id)`. */
  function GetDungeonById(id: int): Option<DungeonEntry> {
    DungeonById(DungeonData(), id)
  }

  /** The acronyms of the dungeon table, in table order. */
  function DungeonAcronyms(): (r: seq<string>)
    ensures |r| == |DungeonData()|
    ensures forall i :: 0 <= i < |r| ==> r[i] == DungeonData()[i].acronym
  {
    seq(|DungeonData()|, i requires 0 <= i < |DungeonData()| => DungeonData()[i].acronym)
  }

  /** The shape of the dungeon table: 22 entries with distinct ids in 1001-1045, none of them 1004, and no group ids. */
  predicate DungeonShape(t: seq<DungeonEntry>) {
    |t| == 22
    && (forall i, j :: 0 <= i < j < |t| ==> t[i].id != t[j].id)
    && (forall i :: 0 <= i < |t| ==> 1001 <= t[i].id <= 1045 && t[i].id != 1004 && t[i].groupId.None?)
  }

  lemma DungeonTableDistinct()
    ensures forall i, j :: 0 <= i < j < |DungeonData()| ==> DungeonData()[i].id != DungeonData()[j].id
  {
    var t := DungeonData();
    forall i | 0 <= i < |t| ensures t[i].id == if i == 3 then 1045 else 1001 + i {
      if i < 11 { if i < 5 {} else {} } else { if i < 16 {} else {} }
    }
  }

  lemma DungeonTableFacts()
    ensures DungeonShape(DungeonData())
  {
    DungeonTableDistinct();
    var t := DungeonData();
    forall i | 0 <= i < |t| ensures 1001 <= t[i].id <= 1045 && t[i].id != 1004 && t[i].groupId.None? {
      if i < 11 { if i < 5 {} else {} } else { if i < 16 {} else {} }
    }
  }

  /** The acronyms are distinct, so an acronym names one dungeon. */
  lemma DungeonAcronymsDistinct()
    ensures forall i, j :: 0 <= i < j < |DungeonAcronyms()| ==> DungeonAcronyms()[i] != DungeonAcronyms()[j]
  {
  }

  /** Eastern Palace is registered under 1045, at the fourth position. */
  lemma EasternPalaceIs1045()
    ensures GetDungeonById(1045) == Some(Dungeon(1045, "EP", "Eastern Palace", None))
  {
    DungeonTableFacts();
    Seqs.FindIsFirst(DungeonData(), (d: DungeonEntry) => d.id == 1045, 3);
  }

  /** With distinct ids, the first match is the only match: a lookup succeeds exactly on the registered entry. */
  lemma DungeonByIdSpec(t: seq<DungeonEntry>, id: int)
    requires forall i, j :: 0 <= i < j < |t| ==> t[i].id != t[j].id
    ensures DungeonById(t, id).Some? <==> exists i :: 0 <= i < |t| && t[i].id == id
    ensures forall i :: 0 <= i < |t| && t[i].id == id ==> DungeonById(t, id) == Some(t[i])
  {
    forall i | 0 <= i < |t| && t[i].id == id
      ensures DungeonById(t, id) == Some(t[i])
    {
      Seqs.FindIsFirst(t, (d: DungeonEntry) => d.id == id, i);
    }
  }

  /** `getDungeonById` finds exactly the registered ids, each at its one entry. */
  lemma GetDungeonByIdSpec(id: int)
    ensures GetDungeonById(id).Some? <==> exists i :: 0 <= i < |DungeonData()| && DungeonData()[i].id == id
    ensures forall i :: 0 <= i < |DungeonData()| && DungeonData()[i].id == id ==> GetDungeonById(id) == Some(DungeonData()[i])
  {
    DungeonTableFacts();
    DungeonByIdSpec(DungeonData(), id);
  }

  // ---- connectors ----

  datatype ConnectorEntry = Connector(id: int, name: string, number: int, groupId: Option<int>)

  function ConnectorData(): seq<ConnectorEntry> {
    [
      Connector(2001, "Old Lady Right", 1, None),
      Connector(2002, "Old Lady Left", 1, None),
      Connector(2003, "2 Brothers Right", 2, None),
      Connector(2004, "2 Brothers Left", 2, None),
      Connector(2005, "Old Man Cave", 3, None),
      Connector(2006, "Old Man Cave Back", 3, None),
      Connector(2007, "Paradox Cave Upper", 4, None),
      Connector(2008, "Paradox Cave Middle", 4, None),
      Connector(2009, "Paradox Cave Lower", 4, None),
      Connector(2010, "EDM Cave Entrance", 5, None),
      Connector(2011, "EDM Cave Exit", 5, None),
      Connector(2012, "Spiral Cave", 6, None),
      Connector(2013, "Spiral Cave Bottom", 6, None),
      Connector(2014, "Mountain Climb", 7, None),
      Connector(2015, "Mountain Descent", 7, None),
      Connector(2016, "Superbunny Lower", 8, None),
      Connector(2017, "Superbunny Upper", 8, None),
      Connector(2018, "Hookshot Cave", 9, None),
      Connector(2019, "Floating Island", 9, None),
      Connector(2020, "Spectacle Rock Upper", 10, None),
      Connector(2021, "Spectacle Rock Lower", 10, None),
      Connector(2022, "Spectacle Rock Side", 10, None),
      Connector(2023, "Old Man Rescue Entrance", 11, None),
      Connector(2024, "Old Man Rescue Exit", 11, None),
      Connector(2025, "Bumper Cave Entrance", 12, None),
      Connector(2026, "Bumper Cave Exit", 12, None)
    ]
  }

  /** The first entry of connector table `t` with id `id`. */
  function ConnectorById(t: seq<ConnectorEntry>, id: int): Option<ConnectorEntry> {
    Seqs.Find(t, (c: ConnectorEntry) => c.id == id)
  }

  /** `getConnectorById(id)`. */
  function GetConnectorById(id: int): Option<ConnectorEntry> {
    ConnectorById(ConnectorData(), id)
  }

  /** The shape of the connector table: ids exactly 2001-2026 in order, and no group ids. */
  predicate ConnectorShape(t: seq<ConnectorEntry>) {
    |t| == 26 && forall i :: 0 <= i < |t| ==> t[i].id == 2001 + i && t[i].groupId.None?
  }

  lemma ConnectorTableFacts()
    ensures ConnectorShape(ConnectorData())
  {
    var t := ConnectorData();
    forall i | 0 <= i < |t| ensures t[i].id == 2001 + i && t[i].groupId.None? {
      if i < 13 { if i < 6 {} else {} } else { if i < 19 {} else {} }
    }
  }

  /** The pair numbers of the connector table, in table order. */
  function PairNumbers(): seq<int> {
    [1, 1, 2, 2, 3, 3, 4, 4, 4, 5, 5, 6, 6, 7, 7, 8, 8, 9, 9, 10, 10, 10, 11, 11, 12, 12]
  }

  lemma PairNumbersOfTable()
    ensures |PairNumbers()| == |ConnectorData()|
    ensures forall i :: 0 <= i < |ConnectorData()| ==> ConnectorData()[i].number == PairNumbers()[i]
  {
  }

  /** Entry `i` carries the same number as the entry before or after it. */
  predicate SharedWithNeighbour(n: seq<int>, i: int)
    requires 0 <= i < |n|
  {
    (i + 1 < |n| && n[i + 1] == n[i]) || (0 < i && n[i - 1] == n[i])
  }

  /**
   * Pair numbers run from 1 to 12 without gaps in table order; each entry shares
   * its number with a neighbour; and no number is carried by four entries. So every
   * number 1-12 is shared by two or three connectors.
   */
  lemma ConnectorNumbersShared()
    ensures PairNumbers()[0] == 1 && PairNumbers()[|PairNumbers()| - 1] == 12
    ensures forall i :: 0 < i < |PairNumbers()| ==> PairNumbers()[i] - PairNumbers()[i - 1] in {0, 1}
    ensures forall i :: 0 <= i < |PairNumbers()| ==> SharedWithNeighbour(PairNumbers(), i)
    ensures forall i :: 0 <= i && i + 3 < |PairNumbers()| ==> PairNumbers()[i] != PairNumbers()[i + 3]
  {
    var n := PairNumbers();
    forall i | 0 <= i < |n| ensures SharedWithNeighbour(n, i) {
      if i < 13 {
        if i < 6 {} else {}
      } else {
        if i < 19 {} else {}
      }
    }
  }

  /** In a table numbered from 2001, the lookup succeeds exactly on 2001-2026 and returns the entry at `id - 2001`. */
  lemma ConnectorByIdSpec(t: seq<ConnectorEntry>, id: int)
    requires ConnectorShape(t)
    ensures ConnectorById(t, id).Some? <==> 2001 <= id <= 2026
    ensures 2001 <= id <= 2026 ==> ConnectorById(t, id) == Some(t[id - 2001])
  {
    if 2001 <= id <= 2026 {
      Seqs.FindIsFirst(t, (c: ConnectorEntry) => c.id == id, id - 2001);
    }
  }

  /** `getConnectorById` finds exactly 2001-2026. */
  lemma GetConnectorByIdSpec(id: int)
    ensures GetConnectorById(id).Some? <==> 2001 <= id <= 2026
    ensures 2001 <= id <= 2026 ==> GetConnectorById(id) == Some(ConnectorData()[id - 2001])
  {
    ConnectorTableFacts();
    ConnectorByIdSpec(ConnectorData(), id);
  }

  // ---- useful locations ----

  datatype UsefulKind = Chests | Special | UselessKind

  datatype UsefulEntry = UsefulLocation(id: int, kind: UsefulKind, value: Option<string>, display: string, name: string, checks: Option<seq<string>>)

  function UsefulLocationData(): seq<UsefulEntry> {
    [
      UsefulLocation(4001, Chests, None, "C", "Chests (1-5)", None),
      UsefulLocation(3001, Special, Some("MC"), "MC", "Mimic Cave", None),
      UsefulLocation(3002, Special, Some("D"), "D", "Dam", None),
      UsefulLocation(3003, Special, Some("LH"), "LH", "Link's House", None),
      UsefulLocation(3004, Special, Some("DS"), "DS", "Dark Sanctuary", None),
      UsefulLocation(3005, Special, Some("WH"), "WH", "Witch's Hut", None),
      UsefulLocation(3006, Special, Some("SK"), "SK", "Sick Kid", None),
      UsefulLocation(3007, Special, Some("SM"), "SM", "Smith's", None),
      UsefulLocation(3008, Special, Some("MB"), "MB", "Magic Bat", None),
      UsefulLocation(3009, Special, Some("GD"), "GD", "Ganon's Drop", None),
      UsefulLocation(3010, Special, Some("SC"), "SC", "Spike Cave", None),
      UsefulLocation(3011, Special, Some("SC"), "CH", "Chicken Hut", None),
      UsefulLocation(3012, Special, Some("SC"), "SH", "Sahasrala", None),
      UsefulLocation(3013, Special, Some("BS"), "BS", "Bomb Shop", None),
      UsefulLocation(3014, Special, Some("DS"), "DS", "Sanctuary", None),
      UsefulLocation(3098, Special, Some("S3"), "S3", "Shop", None),
      UsefulLocation(3099, Special, Some("DR"), "DR", "Dark Room", None),
      UsefulLocation(5001, UselessKind, None, "", "Useless Location", None)
    ]
  }

  /** The first entry of useful-location table `t` with id `id`. */
  function UsefulById(t: seq<UsefulEntry>, id: int): Option<UsefulEntry> {
    Seqs.Find(t, (u: UsefulEntry) => u.id == id)
  }

  /** `getUsefulLocationById(id)`. */
  function GetUsefulLocationById(id: int): Option<UsefulEntry> {
    UsefulById(UsefulLocationData(), id)
  }

  /**
   * The shape of the useful-location table: special entries lie in 3001-3999,
   * 4001 is the only chests entry and 5001 the only useless one, ids are
   * distinct, no entry lists checks, and entries 15 and 16 are the specials 3098 and 3099.
   */
  predicate UsefulShape(t: seq<UsefulEntry>) {
    |t| == 18
    && (forall i :: 0 <= i < |t| ==>
         (t[i].kind == Special ==> 3001 <= t[i].id <= 3999)
         && (t[i].kind == Chests <==> t[i].id == 4001)
         && (t[i].kind == UselessKind <==> t[i].id == 5001)
         && t[i].checks.None?)
    && (forall i, j :: 0 <= i < j < |t| ==> t[i].id != t[j].id)
    && t[15].id == 3098 && t[15].kind == Special
    && t[16].id == 3099 && t[16].kind == Special
  }

  lemma UsefulTableDistinct()
    ensures forall i, j :: 0 <= i < j < |UsefulLocationData()| ==> UsefulLocationData()[i].id != UsefulLocationData()[j].id
  {
    var t := UsefulLocationData();
    forall i, j | 0 <= i < j < |t| ensures t[i].id != t[j].id {
      if i < 9 { if i < 4 {} else {} } else { if i < 13 {} else {} }
    }
  }

  lemma UsefulTableFacts()
    ensures UsefulShape(UsefulLocationData())
  {
    UsefulTableDistinct();
    var t := UsefulLocationData();
    forall i | 0 <= i < |t|
      ensures (t[i].kind == Special ==> 3001 <= t[i].id <= 3999)
        && (t[i].kind == Chests <==> t[i].id == 4001)
        && (t[i].kind == UselessKind <==> t[i].id == 5001)
        && t[i].checks.None?
    {
      if i < 9 { if i < 4 {} else {} } else { if i < 13 {} else {} }
    }
  }

  /** With distinct ids, a lookup succeeds exactly on a registered id and returns its one entry. */
  lemma UsefulByIdSpec(t: seq<UsefulEntry>, id: int)
    requires forall i, j :: 0 <= i < j < |t| ==> t[i].id != t[j].id
    ensures UsefulById(t, id).Some? <==> exists i :: 0 <= i < |t| && t[i].id == id
    ensures forall i :: 0 <= i < |t| && t[i].id == id ==> UsefulById(t, id) == Some(t[i])
  {
    forall i | 0 <= i < |t| && t[i].id == id
      ensures UsefulById(t, id) == Some(t[i])
    {
      Seqs.FindIsFirst(t, (u: UsefulEntry) => u.id == id, i);
    }
  }

  /** `getUsefulLocationById` finds exactly the registered ids. */
  lemma GetUsefulLocationByIdSpec(id: int)
    ensures GetUsefulLocationById(id).Some? <==> exists i :: 0 <= i < |UsefulLocationData()| && UsefulLocationData()[i].id == id
    ensures forall i :: 0 <= i < |UsefulLocationData()| && UsefulLocationData()[i].id == id ==> GetUsefulLocationById(id) == Some(UsefulLocationData()[i])
  {
    UsefulTableDistinct();
    UsefulByIdSpec(UsefulLocationData(), id);
  }

  // ---- static locations ----

  datatype StaticEntry = StaticLocation(id: int, display: string, name: string)

  function StaticLocationData(): seq<StaticEntry> {
    [
      StaticLocation(6001, "MS", "Mushroom"),
      StaticLocation(6002, "BV", "Bottle Vendor"),
      StaticLocation(6003, "HB", "Hobo"),
      StaticLocation(6004, "LI", "Lake Hylia Island"),
      StaticLocation(6005, "KZ", "King Zora"),
      StaticLocation(6006, "PC", "Purple Chest"),
      StaticLocation(6007, "MP", "Master Sword Pedestal"),
      StaticLocation(6008, "BT", "Bombos Tablet"),
      StaticLocation(6009, "ET", "Ether Tablet"),
      StaticLocation(6014, "DL", "Desert Ledge"),
      StaticLocation(6022, "FL", "Flute Spot"),
      StaticLocation(6023, "MR", "Maze Race"),
      StaticLocation(6030, "CF", "Catfish"),
      StaticLocation(6031, "PY", "Pyramid"),
      StaticLocation(6032, "DG", "Digging Game"),
      StaticLocation(6033, "ST", "Stumpy")
    ]
  }

  /** The first entry of static table `t` with id `id`. */
  function StaticById(t: seq<StaticEntry>, id: int): Option<StaticEntry> {
    Seqs.Find(t, (e: StaticEntry) => e.id == id)
  }

  /** `getStaticLocationById(id)`. */
  function GetStaticLocationById(id: int): Option<StaticEntry> {
    StaticById(StaticLocationData(), id)
  }

  /** The shape of the static table: distinct ids in 6001-6999. */
  predicate StaticShape(t: seq<StaticEntry>) {
    (forall i, j :: 0 <= i < j < |t| ==> t[i].id != t[j].id)
    && (forall i :: 0 <= i < |t| ==> 6001 <= t[i].id <= 6999)
  }

  lemma StaticTableFacts()
    ensures StaticShape(StaticLocationData())
  {
    var t := StaticLocationData();
    forall i | 0 < i < |t| ensures t[i - 1].id < t[i].id {
      if i < 8 { if i < 4 {} else {} } else { if i < 12 {} else {} }
    }
    forall i, j | 0 <= i < j < |t| ensures t[i].id != t[j].id {
      StaticIdsIncrease(t, i, j);
    }
  }

  lemma {:induction false} StaticIdsIncrease(t: seq<StaticEntry>, i: int, j: int)
    requires forall k :: 0 < k < |t| ==> t[k - 1].id < t[k].id
    requires 0 <= i < j < |t|
    ensures t[i].id < t[j].id
    decreases j - i
  {
    if i + 1 < j {
      StaticIdsIncrease(t, i, j - 1);
    }
  }

  /** With distinct ids, a lookup succeeds exactly on a registered id and returns its one entry. */
  lemma StaticByIdSpec(t: seq<StaticEntry>, id: int)
    requires StaticShape(t)
    ensures StaticById(t, id).Some? <==> exists i :: 0 <= i < |t| && t[i].id == id
    ensures forall i :: 0 <= i < |t| && t[i].id == id ==> StaticById(t, id) == Some(t[i])
  {
    forall i | 0 <= i < |t| && t[i].id == id
      ensures StaticById(t, id) == Some(t[i])
    {
      Seqs.FindIsFirst(t, (e: StaticEntry) => e.id == id, i);
    }
  }

  /** `getStaticLocationById` finds exactly the registered ids. */
  lemma GetStaticLocationByIdSpec(id: int)
    ensures GetStaticLocationById(id).Some? <==> exists i :: 0 <= i < |StaticLocationData()| && StaticLocationData()[i].id == id
    ensures forall i :: 0 <= i < |StaticLocationData()| && StaticLocationData()[i].id == id ==> GetStaticLocationById(id) == Some(StaticLocationData()[i])
  {
    StaticTableFacts();
    StaticByIdSpec(StaticLocationData(), id);
  }

  // ---- the registry as a whole ----

  /** The three tables the resolver consults. */
  datatype Registry = Registry(dungeons: seq<DungeonEntry>, connectors: seq<ConnectorEntry>, useful: seq<UsefulEntry>)

  function Tables(): Registry {
    Registry(DungeonData(), ConnectorData(), UsefulLocationData())
  }

  predicate RegistryShape(r: Registry) {
    DungeonShape(r.dungeons) && ConnectorShape(r.connectors) && UsefulShape(r.useful)
  }

  lemma RegistryFacts()
    ensures RegistryShape(Tables())
  {
    DungeonTableFacts();
    ConnectorTableFacts();
    UsefulTableFacts();
  }

  /** Tables of these shapes use disjoint ids. */
  lemma ShapesDisjoint(r: Registry, st: seq<StaticEntry>)
    requires RegistryShape(r) && StaticShape(st)
    ensures forall i, j :: 0 <= i < |r.dungeons| && 0 <= j < |r.connectors| ==> r.dungeons[i].id != r.connectors[j].id
    ensures forall i, j :: 0 <= i < |r.dungeons| && 0 <= j < |r.useful| ==> r.dungeons[i].id != r.useful[j].id
    ensures forall i, j :: 0 <= i < |r.connectors| && 0 <= j < |r.useful| ==> r.connectors[i].id != r.useful[j].id
    ensures forall i, j :: 0 <= i < |r.dungeons| && 0 <= j < |st| ==> r.dungeons[i].id != st[j].id
    ensures forall i, j :: 0 <= i < |r.connectors| && 0 <= j < |st| ==> r.connectors[i].id != st[j].id
    ensures forall i, j :: 0 <= i < |r.useful| && 0 <= j < |st| ==> r.useful[i].id != st[j].id
  {
    forall j | 0 <= j < |r.useful| ensures 3001 <= r.useful[j].id <= 5001 {
      match r.useful[j].kind
      case Special =>
      case Chests =>
      case UselessKind =>
    }
  }

  /** The four tables use disjoint ids, so the registry is one partition of the id space. */
  lemma TablesDisjoint()
    ensures forall i, j :: 0 <= i < |DungeonData()| && 0 <= j < |ConnectorData()| ==> DungeonData()[i].id != ConnectorData()[j].id
    ensures forall i, j :: 0 <= i < |DungeonData()| && 0 <= j < |UsefulLocationData()| ==> DungeonData()[i].id != UsefulLocationData()[j].id
    ensures forall i, j :: 0 <= i < |ConnectorData()| && 0 <= j < |UsefulLocationData()| ==> ConnectorData()[i].id != UsefulLocationData()[j].id
    ensures forall i, j :: 0 <= i < |DungeonData()| && 0 <= j < |StaticLocationData()| ==> DungeonData()[i].id != StaticLocationData()[j].id
    ensures forall i, j :: 0 <= i < |ConnectorData()| && 0 <= j < |StaticLocationData()| ==> ConnectorData()[i].id != StaticLocationData()[j].id
    ensures forall i, j :: 0 <= i < |UsefulLocationData()| && 0 <= j < |StaticLocationData()| ==> UsefulLocationData()[i].id != StaticLocationData()[j].id
  {
    RegistryFacts();
    StaticTableFacts();
    ShapesDisjoint(Tables(), StaticLocationData());
  }
}
