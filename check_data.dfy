/**
 * The check registry: every collectable check with the sprite it is drawn with and
 * the location ids that own it (many-to-many; id 0 is the placeholder owner of
 * checks not yet tied to a location), the sprite catalogue, and the lookups over
 * both. The check table is kept in the source's row order and split into blocks
 * of consecutive rows so that facts about it can be established block by block.
 */
module CheckData {
  import opened Wrappers
  import Seqs

  datatype Check = Check(id: int, spriteType: int, name: string, locationIds: seq<int>)

  datatype CheckSprite = CheckSprite(id: int, name: string, kind: string, collectableSprite: string, collectedSprite: string)

  // ---- the check table ----

  function Checks001To018(k: int): Check
    requires 0 <= k < 18
  {
    [
      Check(1, 2, "Light World - Master Sword Pedestal", [0]),
      Check(2, 2, "Light World - Mushroom", [0]),
      Check(3, 3, "Light World - Bottle Merchant", [0]),
      Check(4, 1, "Light World - Purple Chest", [0]),
      Check(5, 3, "Light World - King Zora", [0]),
      Check(6, 3, "Light World - Sahasrahla", [3012]),
      Check(7, 1, "Light World - Sahasrahla's Hut Left", [3012]),
      Check(8, 1, "Light World - Sahasrahla's Hut Middle", [3012]),
      Check(9, 1, "Light World - Sahasrahla's Hut Right", [3012]),
      Check(10, 3, "Light World - Sick Kid", [3006]),
      Check(11, 3, "Light World - Hobo", [0]),
      Check(12, 2, "Light World - Bombos Tablet", [0]),
      Check(13, 2, "Light World - Ether Tablet", [0]),
      Check(14, 3, "Light World - Tavern", [0]),
      Check(15, 2, "Light World - Chicken House", [3011]),
      Check(16, 1, "Light World - Aginah's Cave", [0]),
      Check(17, 1, "Light World - Sunken Treasure", [3002]),
      Check(18, 2, "Light World - Link's Uncle", [3003])
    ][k]
  }

  function Checks019To035(k: int): Check
    requires 0 <= k < 17
  {
    [
      Check(19, 3, "Light World - Blacksmith", [3007]),
      Check(20, 3, "Light World - Magic Bat", [3008]),
      Check(21, 2, "Light World - Flute Spot", [0]),
      Check(22, 3, "Light World - Witch", [3005]),
      Check(23, 2, "Light World - Zora's Ledge", [0]),
      Check(24, 1, "Light World - Waterfall Fairy Left", [0]),
      Check(25, 1, "Light World - Waterfall Fairy Right", [0]),
      Check(26, 2, "Light World - Lake Hylia Island", [0]),
      Check(27, 2, "Light World - Sunken Treasure", [0]),
      Check(28, 3, "Light World - Maze Race", [0]),
      Check(29, 2, "Light World - Desert Ledge", [0]),
      Check(30, 1, "Light World - Checkerboard Cave", [0]),
      Check(31, 1, "Light World - Library", [0]),
      Check(32, 1, "Light World - Spectacle Rock Cave", [0]),
      Check(33, 2, "Light World - South of Grove", [0]),
      Check(34, 2, "Light World - Graveyard Ledge", [0]),
      Check(35, 1, "Hyrule Castle - Sanctuary", [0])
    ][k]
  }

  function Checks036To038(k: int): Check
    requires 0 <= k < 3
  {
    [
      Check(36, 1, "Hyrule Castle - Boomerang Chest", [1001, 1002, 1003]),
      Check(37, 1, "Hyrule Castle - Map Chest", [1001, 1002, 1003]),
      Check(38, 1, "Hyrule Castle - Zelda's Cell", [1001, 1002, 1003])
    ][k]
  }

  function Checks039To045(k: int): Check
    requires 0 <= k < 7
  {
    [
      Check(39, 1, "Hyrule Castle - Secret Passage", [0]),
      Check(40, 1, "Eastern Palace - Compass Chest", [1045]),
      Check(41, 1, "Eastern Palace - Big Chest", [1045]),
      Check(42, 1, "Eastern Palace - Cannonball Chest", [1045]),
      Check(43, 1, "Eastern Palace - Big Key Chest", [1045]),
      Check(44, 1, "Eastern Palace - Map Chest", [1045]),
      Check(45, 4, "Eastern Palace - Armos Knights", [1045])
    ][k]
  }

  function Checks046To051(k: int): Check
    requires 0 <= k < 6
  {
    [
      Check(46, 1, "Desert Palace - Big Chest", [1005, 1006, 1007, 1008]),
      Check(47, 1, "Desert Palace - Map Chest", [1005, 1006, 1007, 1008]),
      Check(48, 1, "Desert Palace - Torch", [1005, 1006, 1007, 1008]),
      Check(49, 1, "Desert Palace - Big Key Chest", [1005, 1006, 1007, 1008]),
      Check(50, 1, "Desert Palace - Compass Chest", [1005, 1006, 1007, 1008]),
      Check(51, 4, "Desert Palace - Lanmolas", [1005, 1006, 1007, 1008])
    ][k]
  }

  function Checks052To059(k: int): Check
    requires 0 <= k < 8
  {
    [
      Check(52, 1, "Tower of Hera - Basement Cage", [1009]),
      Check(53, 1, "Tower of Hera - Map Chest", [1009]),
      Check(54, 1, "Tower of Hera - Big Key Chest", [1009]),
      Check(55, 1, "Tower of Hera - Compass Chest", [1009]),
      Check(56, 1, "Tower of Hera - Big Chest", [1009]),
      Check(57, 4, "Tower of Hera - Moldorm", [1009]),
      Check(58, 1, "Agahnim Tower - Room 03", [1010]),
      Check(59, 1, "Agahnim Tower - Dark Maze", [1010])
    ][k]
  }

  function Checks060To075(k: int): Check
    requires 0 <= k < 16
  {
    [
      Check(60, 3, "Dark World - Catfish", [0]),
      Check(61, 2, "Dark World - Pyramid", [0]),
      Check(62, 3, "Dark World - Digging Game", [0]),
      Check(63, 3, "Dark World - Stumpy", [0]),
      Check(64, 1, "Dark World - Hype Cave Top", [0]),
      Check(65, 1, "Dark World - Hype Cave Middle Right", [0]),
      Check(66, 1, "Dark World - Hype Cave Middle Left", [0]),
      Check(67, 1, "Dark World - Hype Cave Bottom", [0]),
      Check(68, 3, "Dark World - Hype Cave NPC", [0]),
      Check(69, 1, "Dark World - Mini Moldorm Cave Far Left", [0]),
      Check(70, 1, "Dark World - Mini Moldorm Cave Left", [0]),
      Check(71, 1, "Dark World - Mini Moldorm Cave Right", [0]),
      Check(72, 1, "Dark World - Mini Moldorm Cave Far Right", [0]),
      Check(73, 3, "Dark World - Mini Moldorm Cave NPC", [0]),
      Check(74, 1, "Dark World - Ice Rod Cave", [0]),
      Check(75, 1, "Dark World - Spike Cave", [3010])
    ][k]
  }

  function Checks076To087(k: int): Check
    requires 0 <= k < 12
  {
    [
      Check(76, 1, "Hookshot Cave - Top Right", [2018, 2019]),
      Check(77, 1, "Hookshot Cave - Top Left", [2018, 2019]),
      Check(78, 1, "Hookshot Cave - Bottom Right", [2018, 2019]),
      Check(79, 1, "Hookshot Cave - Bottom Left", [2018, 2019]),
      Check(80, 2, "Dark World - Floating Island", [2018, 2019]),
      Check(81, 1, "Dark World - Mimic Cave", [3001]),
      Check(82, 3, "Dark World - Brewery", [0]),
      Check(83, 1, "Dark World - C-Shaped House", [0]),
      Check(84, 3, "Dark World - Chest Game", [0]),
      Check(85, 2, "Dark World - Hammer Pegs", [0]),
      Check(86, 1, "Dark World - Bumper Cave Ledge", [2025, 2026]),
      Check(87, 3, "Dark World - Blacksmith", [0])
    ][k]
  }

  function Checks088To101(k: int): Check
    requires 0 <= k < 14
  {
    [
      Check(88, 1, "Palace of Darkness - Shooter Room", [1011]),
      Check(89, 1, "Palace of Darkness - Big Key Chest", [1011]),
      Check(90, 1, "Palace of Darkness - Stalfos Basement", [1011]),
      Check(91, 1, "Palace of Darkness - The Arena Bridge", [1011]),
      Check(92, 1, "Palace of Darkness - The Arena Ledge", [1011]),
      Check(93, 1, "Palace of Darkness - Map Chest", [1011]),
      Check(94, 1, "Palace of Darkness - Compass Chest", [1011]),
      Check(95, 1, "Palace of Darkness - Harmless Hellway", [1011]),
      Check(96, 1, "Palace of Darkness - Dark Basement Left", [1011]),
      Check(97, 1, "Palace of Darkness - Dark Basement Right", [1011]),
      Check(98, 1, "Palace of Darkness - Dark Maze Top", [1011]),
      Check(99, 1, "Palace of Darkness - Dark Maze Bottom", [1011]),
      Check(100, 1, "Palace of Darkness - Big Chest", [1011]),
      Check(101, 4, "Palace of Darkness - Helmasaur King", [1011])
    ][k]
  }

  function Checks102To111(k: int): Check
    requires 0 <= k < 10
  {
    [
      Check(102, 1, "Swamp Palace - Entrance", [1012]),
      Check(103, 1, "Swamp Palace - Map Chest", [1012]),
      Check(104, 1, "Swamp Palace - Big Chest", [1012]),
      Check(105, 1, "Swamp Palace - Compass Chest", [1012]),
      Check(106, 1, "Swamp Palace - Big Key Chest", [1012]),
      Check(107, 1, "Swamp Palace - West Chest", [1012]),
      Check(108, 1, "Swamp Palace - Flooded Room Left", [1012]),
      Check(109, 1, "Swamp Palace - Flooded Room Right", [1012]),
      Check(110, 1, "Swamp Palace - Waterfall Room", [1012]),
      Check(111, 4, "Swamp Palace - Arrghus", [1012])
    ][k]
  }

  function Checks112To119(k: int): Check
    requires 0 <= k < 8
  {
    [
      Check(112, 1, "Skull Woods - Compass Chest", [1013, 1014]),
      Check(113, 1, "Skull Woods - Map Chest", [1013, 1014]),
      Check(114, 1, "Skull Woods - Big Chest", [1013, 1014]),
      Check(115, 1, "Skull Woods - Big Key Chest", [1013, 1014]),
      Check(116, 1, "Skull Woods - Bridge Room", [1013, 1014]),
      Check(117, 1, "Skull Woods - Pot Prison", [1013, 1014]),
      Check(118, 1, "Skull Woods - Pinball Room", [1013, 1014]),
      Check(119, 4, "Skull Woods - Mothula", [1013, 1014])
    ][k]
  }

  function Checks120To135(k: int): Check
    requires 0 <= k < 16
  {
    [
      Check(120, 1, "Thieves Town - Map Chest", [1015]),
      Check(121, 1, "Thieves Town - Ambush Chest", [1015]),
      Check(122, 1, "Thieves Town - Compass Chest", [1015]),
      Check(123, 1, "Thieves Town - Big Key Chest", [1015]),
      Check(124, 1, "Thieves Town - Attic", [1015]),
      Check(125, 1, "Thieves Town - Blind's Cell", [1015]),
      Check(126, 1, "Thieves Town - Big Chest", [1015]),
      Check(127, 4, "Thieves Town - Blind", [1015]),
      Check(128, 1, "Ice Palace - Compass Chest", [1016]),
      Check(129, 1, "Ice Palace - Spike Room", [1016]),
      Check(130, 1, "Ice Palace - Map Chest", [1016]),
      Check(131, 1, "Ice Palace - Big Key Chest", [1016]),
      Check(132, 1, "Ice Palace - Iced T Room", [1016]),
      Check(133, 1, "Ice Palace - Freezor Chest", [1016]),
      Check(134, 1, "Ice Palace - Big Chest", [1016]),
      Check(135, 4, "Ice Palace - Kholdstare", [1016])
    ][k]
  }

  function Checks136To142(k: int): Check
    requires 0 <= k < 7
  {
    [
      Check(136, 1, "Misery Mire - Main Lobby", [1017]),
      Check(137, 1, "Misery Mire - Big Chest", [1017]),
      Check(138, 1, "Misery Mire - Compass Chest", [1017]),
      Check(139, 1, "Misery Mire - Big Key Chest", [1017]),
      Check(140, 1, "Misery Mire - Map Chest", [1017]),
      Check(141, 1, "Misery Mire - Spike Chest", [1017]),
      Check(142, 13, "Misery Mire - Vitreous", [1017])
    ][k]
  }

  function Check216(k: int): Check
    requires 0 <= k < 1
  {
    [
      Check(216, 18, "Misery Mire - Boss Reward", [1017])
    ][k]
  }

  function Checks143To154(k: int): Check
    requires 0 <= k < 12
  {
    [
      Check(143, 1, "Turtle Rock - Compass Chest", [1018, 1019, 1020, 1021]),
      Check(144, 1, "Turtle Rock - Roller Room Left", [1018, 1019, 1020, 1021]),
      Check(145, 1, "Turtle Rock - Roller Room Right", [1018, 1019, 1020, 1021]),
      Check(146, 1, "Turtle Rock - Chain Chomps", [1018, 1019, 1020, 1021]),
      Check(147, 1, "Turtle Rock - Big Key Chest", [1018, 1019, 1020, 1021]),
      Check(148, 1, "Turtle Rock - Big Chest", [1018, 1019, 1020, 1021]),
      Check(149, 1, "Turtle Rock - Crystaroller Room", [1018, 1019, 1020, 1021]),
      Check(150, 1, "Turtle Rock - Laser Bridge Top Left", [1018, 1019, 1020, 1021]),
      Check(151, 1, "Turtle Rock - Laser Bridge Top Right", [1018, 1019, 1020, 1021]),
      Check(152, 1, "Turtle Rock - Laser Bridge Bottom Left", [1018, 1019, 1020, 1021]),
      Check(153, 1, "Turtle Rock - Laser Bridge Bottom Right", [1018, 1019, 1020, 1021]),
      Check(154, 14, "Turtle Rock - Trinexx", [1018, 1019, 1020, 1021])
    ][k]
  }

  function Checks155To168(k: int): Check
    requires 0 <= k < 14
  {
    [
      Check(155, 1, "Ganons Tower - Bob's Torch", [1022]),
      Check(156, 1, "Ganons Tower - DMs Room Top Left", [1022]),
      Check(157, 1, "Ganons Tower - DMs Room Top Right", [1022]),
      Check(158, 1, "Ganons Tower - DMs Room Bottom Left", [1022]),
      Check(159, 1, "Ganons Tower - DMs Room Bottom Right", [1022]),
      Check(160, 1, "Ganons Tower - Map Chest", [1022]),
      Check(161, 1, "Ganons Tower - Firesnake Room", [1022]),
      Check(162, 1, "Ganons Tower - Randomizer Room Top Left", [1022]),
      Check(163, 1, "Ganons Tower - Randomizer Room Top Right", [1022]),
      Check(164, 1, "Ganons Tower - Randomizer Room Bottom Left", [1022]),
      Check(165, 1, "Ganons Tower - Randomizer Room Bottom Right", [1022]),
      Check(166, 1, "Ganons Tower - Hope Room Left", [1022]),
      Check(167, 1, "Ganons Tower - Hope Room Right", [1022]),
      Check(168, 1, "Ganons Tower - Bob's Chest", [1022])
    ][k]
  }

  function Checks169To181(k: int): Check
    requires 0 <= k < 13
  {
    [
      Check(169, 1, "Ganons Tower - Tile Room", [1022]),
      Check(170, 1, "Ganons Tower - Compass Room Top Left", [1022]),
      Check(171, 1, "Ganons Tower - Compass Room Top Right", [1022]),
      Check(172, 1, "Ganons Tower - Compass Room Bottom Left", [1022]),
      Check(173, 1, "Ganons Tower - Compass Room Bottom Right", [1022]),
      Check(174, 1, "Ganons Tower - Big Chest", [1022]),
      Check(175, 1, "Ganons Tower - Big Key Chest", [1022]),
      Check(176, 1, "Ganons Tower - Big Key Room Left", [1022]),
      Check(177, 1, "Ganons Tower - Big Key Room Right", [1022]),
      Check(178, 1, "Ganons Tower - Mini Helmasaur Room Left", [1022]),
      Check(179, 1, "Ganons Tower - Mini Helmasaur Room Right", [1022]),
      Check(180, 1, "Ganons Tower - Pre-Moldorm Chest", [1022]),
      Check(181, 4, "Ganons Tower - Moldorm Chest", [1022])
    ][k]
  }

  function Checks182To192(k: int): Check
    requires 0 <= k < 11
  {
    [
      Check(182, 1, "Paradox Cave - Top Left", [2007, 2008, 2009]),
      Check(183, 1, "Paradox Cave - Top Right", [2007, 2008, 2009]),
      Check(184, 1, "Paradox Cave - Middle Left", [2007, 2008, 2009]),
      Check(185, 1, "Paradox Cave - Middle Right", [2007, 2008, 2009]),
      Check(186, 1, "Paradox Cave - Bottom Left", [2007, 2008, 2009]),
      Check(187, 1, "Paradox Cave - Bottom Middle", [2007, 2008, 2009]),
      Check(188, 1, "Paradox Cave - Bottom Right", [2007, 2008, 2009]),
      Check(189, 1, "Superbunny Cave - Top Left", [2016, 2017]),
      Check(190, 1, "Superbunny Cave - Top Right", [2016, 2017]),
      Check(191, 1, "Superbunny Cave - Bottom Left", [2016, 2017]),
      Check(192, 1, "Superbunny Cave - Bottom Right", [2016, 2017])
    ][k]
  }

  function Checks193To204(k: int): Check
    requires 0 <= k < 12
  {
    [
      Check(193, 1, "Light World - Kakariko Well Top", [0]),
      Check(194, 1, "Light World - Kakariko Well Left", [0]),
      Check(195, 1, "Light World - Kakariko Well Middle", [0]),
      Check(196, 1, "Light World - Kakariko Well Right", [0]),
      Check(197, 1, "Light World - Kakariko Well Bottom", [0]),
      Check(198, 1, "Light World - Blinds Hideout Top", [0]),
      Check(199, 1, "Light World - Blinds Hideout Left", [0]),
      Check(200, 1, "Light World - Blinds Hideout Right", [0]),
      Check(201, 1, "Light World - Blinds Hideout Far Left", [0]),
      Check(202, 1, "Light World - Blinds Hideout Far Right", [0]),
      Check(203, 1, "Light World - Kings Tomb", [0]),
      Check(204, 1, "Light World - Spiral Cave", [0])
    ][k]
  }

  function Checks205To215(k: int): Check
    requires 0 <= k < 11
  {
    [
      Check(205, 1, "Old Man Cave - Left", [2005, 2006]),
      Check(206, 1, "Old Man Cave - Right", [2005, 2006]),
      Check(207, 2, "Light World - Spectacle Rock", [0]),
      Check(208, 2, "Light World - Lumberjack Tree", [0]),
      Check(209, 1, "Dark World - Mire Shed Left", [0]),
      Check(210, 1, "Dark World - Mire Shed Right", [0]),
      Check(211, 2, "Dark World - Ganon", [3009]),
      Check(212, 3, "Dark World - Big Bomb", [3013]),
      Check(213, 1, "Dark World - Peg Cave", [0]),
      Check(214, 3, "Light World - Rupee Cave", [0]),
      Check(215, 1, "Light World - Thief Cave", [0])
    ][k]
  }

  // ---- row access ----

  /** The row at index `i` of block 1-38 of the table. */
  function Rows1To38(i: int): Check
    requires 0 <= i < 38
  {
    if i < 18 then Checks001To018(i - 0)
    else if i < 35 then Checks019To035(i - 18)
    else Checks036To038(i - 35)
  }

  /** The row at index `i` of block 39-59 of the table. */
  function Rows39To59(i: int): Check
    requires 38 <= i < 59
  {
    if i < 45 then Checks039To045(i - 38)
    else if i < 51 then Checks046To051(i - 45)
    else Checks052To059(i - 51)
  }

  /** The row at index `i` of block 60-101 of the table. */
  function Rows60To101(i: int): Check
    requires 59 <= i < 101
  {
    if i < 75 then Checks060To075(i - 59)
    else if i < 87 then Checks076To087(i - 75)
    else Checks088To101(i - 87)
  }

  /** The row at index `i` of block 102-135 of the table. */
  function Rows102To135(i: int): Check
    requires 101 <= i < 135
  {
    if i < 111 then Checks102To111(i - 101)
    else if i < 119 then Checks112To119(i - 111)
    else Checks120To135(i - 119)
  }

  /** The row at index `i` of block 136-155 of the table. */
  function Rows136To155(i: int): Check
    requires 135 <= i < 155
  {
    if i < 142 then Checks136To142(i - 135)
    else if i < 143 then Check216(i - 142)
    else Checks143To154(i - 143)
  }

  /** The row at index `i` of block 156-193 of the table. */
  function Rows156To193(i: int): Check
    requires 155 <= i < 193
  {
    if i < 169 then Checks155To168(i - 155)
    else if i < 182 then Checks169To181(i - 169)
    else Checks182To192(i - 182)
  }

  /** The row at index `i` of block 194-216 of the table. */
  function Rows194To216(i: int): Check
    requires 193 <= i < 216
  {
    if i < 205 then Checks193To204(i - 193)
    else Checks205To215(i - 205)
  }

  /** The row at index `i` of the check table. */
  function CheckRow(i: int): Check
    requires 0 <= i < 216
  {
    if i < 38 then Rows1To38(i)
    else if i < 59 then Rows39To59(i)
    else if i < 101 then Rows60To101(i)
    else if i < 135 then Rows102To135(i)
    else if i < 155 then Rows136To155(i)
    else if i < 193 then Rows156To193(i)
    else Rows194To216(i)
  }

  /** `checksData`, in source order: row 216 (the Misery Mire reward) sits between ids 142 and 143. */
  function ChecksData(): seq<Check> {
    seq(216, i requires 0 <= i < 216 => CheckRow(i))
  }

  // ---- block properties ----

  /** Row `i` of `s` has id `start + i`. */
  predicate ConsecutiveIds(s: seq<Check>, start: int) {
    forall i :: 0 <= i < |s| ==> s[i].id == start + i
  }

  /** The sprite types the table uses. */
  predicate UsedSpriteType(t: int) {
    t == 1 || t == 2 || t == 3 || t == 4 || t == 13 || t == 14 || t == 18
  }

  predicate SpritesUsed(s: seq<Check>) {
    forall i :: 0 <= i < |s| ==> UsedSpriteType(s[i].spriteType)
  }

  /** The check has the given id and a sprite type the table uses. */
  predicate RowBasics(c: Check, id: int) {
    c.id == id && UsedSpriteType(c.spriteType)
  }

  /** The check is owned by no id in 1001-1008. */
  predicate AvoidsDungeons(c: Check) {
    forall j :: 0 <= j < |c.locationIds| ==> !(1001 <= c.locationIds[j] <= 1008)
  }

  /** The check is owned by exactly `owners`. */
  predicate OwnedBy(c: Check, owners: seq<int>) {
    c.locationIds == owners
  }

  lemma Checks001To018Facts()
    ensures forall k :: 0 <= k < 18 ==> RowBasics(Checks001To018(k), 1 + k)
    ensures forall k :: 0 <= k < 18 ==> AvoidsDungeons(Checks001To018(k))
  {
  }

  lemma Checks019To035Facts()
    ensures forall k :: 0 <= k < 17 ==> RowBasics(Checks019To035(k), 19 + k)
    ensures forall k :: 0 <= k < 17 ==> AvoidsDungeons(Checks019To035(k))
  {
  }

  lemma Checks036To038Facts()
    ensures forall k :: 0 <= k < 3 ==> RowBasics(Checks036To038(k), 36 + k)
    ensures forall k :: 0 <= k < 3 ==> OwnedBy(Checks036To038(k), [1001, 1002, 1003])
  {
  }

  lemma Checks039To045Facts()
    ensures forall k :: 0 <= k < 7 ==> RowBasics(Checks039To045(k), 39 + k)
    ensures forall k :: 0 <= k < 7 ==> AvoidsDungeons(Checks039To045(k))
  {
  }

  lemma Checks046To051Facts()
    ensures forall k :: 0 <= k < 6 ==> RowBasics(Checks046To051(k), 46 + k)
    ensures forall k :: 0 <= k < 6 ==> OwnedBy(Checks046To051(k), [1005, 1006, 1007, 1008])
  {
  }

  lemma Checks052To059Facts()
    ensures forall k :: 0 <= k < 8 ==> RowBasics(Checks052To059(k), 52 + k)
    ensures forall k :: 0 <= k < 8 ==> AvoidsDungeons(Checks052To059(k))
  {
  }

  lemma Checks060To075Facts()
    ensures forall k :: 0 <= k < 16 ==> RowBasics(Checks060To075(k), 60 + k)
    ensures forall k :: 0 <= k < 16 ==> AvoidsDungeons(Checks060To075(k))
  {
  }

  lemma Checks076To087Facts()
    ensures forall k :: 0 <= k < 12 ==> RowBasics(Checks076To087(k), 76 + k)
    ensures forall k :: 0 <= k < 12 ==> AvoidsDungeons(Checks076To087(k))
  {
  }

  lemma Checks088To101Facts()
    ensures forall k :: 0 <= k < 14 ==> RowBasics(Checks088To101(k), 88 + k)
    ensures forall k :: 0 <= k < 14 ==> AvoidsDungeons(Checks088To101(k))
  {
  }

  lemma Checks102To111Facts()
    ensures forall k :: 0 <= k < 10 ==> RowBasics(Checks102To111(k), 102 + k)
    ensures forall k :: 0 <= k < 10 ==> AvoidsDungeons(Checks102To111(k))
  {
  }

  lemma Checks112To119Facts()
    ensures forall k :: 0 <= k < 8 ==> RowBasics(Checks112To119(k), 112 + k)
    ensures forall k :: 0 <= k < 8 ==> AvoidsDungeons(Checks112To119(k))
  {
  }

  lemma Checks120To135Facts()
    ensures forall k :: 0 <= k < 16 ==> RowBasics(Checks120To135(k), 120 + k)
    ensures forall k :: 0 <= k < 16 ==> AvoidsDungeons(Checks120To135(k))
  {
  }

  lemma Checks136To142Facts()
    ensures forall k :: 0 <= k < 7 ==> RowBasics(Checks136To142(k), 136 + k)
    ensures forall k :: 0 <= k < 7 ==> AvoidsDungeons(Checks136To142(k))
  {
  }

  lemma Check216Facts()
    ensures forall k :: 0 <= k < 1 ==> RowBasics(Check216(k), 216 + k)
    ensures forall k :: 0 <= k < 1 ==> AvoidsDungeons(Check216(k))
  {
  }

  lemma Checks143To154Facts()
    ensures forall k :: 0 <= k < 12 ==> RowBasics(Checks143To154(k), 143 + k)
    ensures forall k :: 0 <= k < 12 ==> AvoidsDungeons(Checks143To154(k))
  {
  }

  lemma Checks155To168Facts()
    ensures forall k :: 0 <= k < 14 ==> RowBasics(Checks155To168(k), 155 + k)
    ensures forall k :: 0 <= k < 14 ==> AvoidsDungeons(Checks155To168(k))
  {
  }

  lemma Checks169To181Facts()
    ensures forall k :: 0 <= k < 13 ==> RowBasics(Checks169To181(k), 169 + k)
    ensures forall k :: 0 <= k < 13 ==> AvoidsDungeons(Checks169To181(k))
  {
  }

  lemma Checks182To192Facts()
    ensures forall k :: 0 <= k < 11 ==> RowBasics(Checks182To192(k), 182 + k)
    ensures forall k :: 0 <= k < 11 ==> AvoidsDungeons(Checks182To192(k))
  {
  }

  lemma Checks193To204Facts()
    ensures forall k :: 0 <= k < 12 ==> RowBasics(Checks193To204(k), 193 + k)
    ensures forall k :: 0 <= k < 12 ==> AvoidsDungeons(Checks193To204(k))
  {
  }

  lemma Checks205To215Facts()
    ensures forall k :: 0 <= k < 11 ==> RowBasics(Checks205To215(k), 205 + k)
    ensures forall k :: 0 <= k < 11 ==> AvoidsDungeons(Checks205To215(k))
  {
  }

  // ---- row properties ----

  /** The id the table places at index `i`: 1-142, then 216, then 143-215. */
  function IdAtRow(i: int): int {
    if i < 142 then i + 1 else if i == 142 then 216 else i
  }

  /** Dungeon `x` (1001-1008) owns row `i`: Hyrule Castle rows 36-38, Desert Palace rows 46-51. */
  predicate DungeonOwnsRow(i: int, x: int) {
    (35 <= i < 38 && 1001 <= x <= 1003) || (45 <= i < 51 && 1005 <= x <= 1008)
  }

  /** What is known of the check at row `i`: its id, a used sprite type, and which dungeons 1001-1008 own it. */
  predicate RowFactOf(c: Check, i: int) {
    c.id == IdAtRow(i)
    && UsedSpriteType(c.spriteType)
    && forall x :: 1001 <= x <= 1008 ==> (x in c.locationIds <==> DungeonOwnsRow(i, x))
  }

  /** What is known of row `i` of the table. */
  predicate RowFact(i: int)
    requires 0 <= i < 216
  {
    RowFactOf(CheckRow(i), i)
  }

  /** A row of a block owned by no dungeon 1001-1008 inherits the block's facts. */
  lemma RowOfAvoidingBlock(c: Check, i: int)
    requires RowBasics(c, IdAtRow(i)) && AvoidsDungeons(c)
    requires !(35 <= i < 38) && !(45 <= i < 51)
    ensures RowFactOf(c, i)
  {
  }

  /** A row of a block owned by exactly `owners` inherits the block's facts. */
  lemma RowOfOwnedBlock(c: Check, i: int, owners: seq<int>)
    requires RowBasics(c, IdAtRow(i)) && OwnedBy(c, owners)
    requires forall x :: 1001 <= x <= 1008 ==> (x in owners <==> DungeonOwnsRow(i, x))
    ensures RowFactOf(c, i)
  {
  }

  lemma Checks001To018Rows()
    ensures forall i :: 0 <= i < 18 ==> RowFact(i)
  {
    Checks001To018Facts();
    forall i | 0 <= i < 18 ensures RowFact(i) {
      assert CheckRow(i) == Rows1To38(i) == Checks001To018(i - 0);
      RowOfAvoidingBlock(Checks001To018(i - 0), i);
    }
  }

  lemma Checks019To035Rows()
    ensures forall i :: 18 <= i < 35 ==> RowFact(i)
  {
    Checks019To035Facts();
    forall i | 18 <= i < 35 ensures RowFact(i) {
      assert CheckRow(i) == Rows1To38(i) == Checks019To035(i - 18);
      RowOfAvoidingBlock(Checks019To035(i - 18), i);
    }
  }

  lemma Checks036To038Rows()
    ensures forall i :: 35 <= i < 38 ==> RowFact(i)
  {
    Checks036To038Facts();
    forall i | 35 <= i < 38 ensures RowFact(i) {
      assert CheckRow(i) == Rows1To38(i) == Checks036To038(i - 35);
      RowOfOwnedBlock(Checks036To038(i - 35), i, [1001, 1002, 1003]);
    }
  }

  lemma Checks039To045Rows()
    ensures forall i :: 38 <= i < 45 ==> RowFact(i)
  {
    Checks039To045Facts();
    forall i | 38 <= i < 45 ensures RowFact(i) {
      assert CheckRow(i) == Rows39To59(i) == Checks039To045(i - 38);
      RowOfAvoidingBlock(Checks039To045(i - 38), i);
    }
  }

  lemma Checks046To051Rows()
    ensures forall i :: 45 <= i < 51 ==> RowFact(i)
  {
    Checks046To051Facts();
    forall i | 45 <= i < 51 ensures RowFact(i) {
      assert CheckRow(i) == Rows39To59(i) == Checks046To051(i - 45);
      RowOfOwnedBlock(Checks046To051(i - 45), i, [1005, 1006, 1007, 1008]);
    }
  }

  lemma Checks052To059Rows()
    ensures forall i :: 51 <= i < 59 ==> RowFact(i)
  {
    Checks052To059Facts();
    forall i | 51 <= i < 59 ensures RowFact(i) {
      assert CheckRow(i) == Rows39To59(i) == Checks052To059(i - 51);
      RowOfAvoidingBlock(Checks052To059(i - 51), i);
    }
  }

  lemma Checks060To075Rows()
    ensures forall i :: 59 <= i < 75 ==> RowFact(i)
  {
    Checks060To075Facts();
    forall i | 59 <= i < 75 ensures RowFact(i) {
      assert CheckRow(i) == Rows60To101(i) == Checks060To075(i - 59);
      RowOfAvoidingBlock(Checks060To075(i - 59), i);
    }
  }

  lemma Checks076To087Rows()
    ensures forall i :: 75 <= i < 87 ==> RowFact(i)
  {
    Checks076To087Facts();
    forall i | 75 <= i < 87 ensures RowFact(i) {
      assert CheckRow(i) == Rows60To101(i) == Checks076To087(i - 75);
      RowOfAvoidingBlock(Checks076To087(i - 75), i);
    }
  }

  lemma Checks088To101Rows()
    ensures forall i :: 87 <= i < 101 ==> RowFact(i)
  {
    Checks088To101Facts();
    forall i | 87 <= i < 101 ensures RowFact(i) {
      assert CheckRow(i) == Rows60To101(i) == Checks088To101(i - 87);
      RowOfAvoidingBlock(Checks088To101(i - 87), i);
    }
  }

  lemma Checks102To111Rows()
    ensures forall i :: 101 <= i < 111 ==> RowFact(i)
  {
    Checks102To111Facts();
    forall i | 101 <= i < 111 ensures RowFact(i) {
      assert CheckRow(i) == Rows102To135(i) == Checks102To111(i - 101);
      RowOfAvoidingBlock(Checks102To111(i - 101), i);
    }
  }

  lemma Checks112To119Rows()
    ensures forall i :: 111 <= i < 119 ==> RowFact(i)
  {
    Checks112To119Facts();
    forall i | 111 <= i < 119 ensures RowFact(i) {
      assert CheckRow(i) == Rows102To135(i) == Checks112To119(i - 111);
      RowOfAvoidingBlock(Checks112To119(i - 111), i);
    }
  }

  lemma Checks120To135Rows()
    ensures forall i :: 119 <= i < 135 ==> RowFact(i)
  {
    Checks120To135Facts();
    forall i | 119 <= i < 135 ensures RowFact(i) {
      assert CheckRow(i) == Rows102To135(i) == Checks120To135(i - 119);
      RowOfAvoidingBlock(Checks120To135(i - 119), i);
    }
  }

  lemma Checks136To142Rows()
    ensures forall i :: 135 <= i < 142 ==> RowFact(i)
  {
    Checks136To142Facts();
    forall i | 135 <= i < 142 ensures RowFact(i) {
      assert CheckRow(i) == Rows136To155(i) == Checks136To142(i - 135);
      RowOfAvoidingBlock(Checks136To142(i - 135), i);
    }
  }

  lemma Check216Rows()
    ensures forall i :: 142 <= i < 143 ==> RowFact(i)
  {
    Check216Facts();
    forall i | 142 <= i < 143 ensures RowFact(i) {
      assert CheckRow(i) == Rows136To155(i) == Check216(i - 142);
      RowOfAvoidingBlock(Check216(i - 142), i);
    }
  }

  lemma Checks143To154Rows()
    ensures forall i :: 143 <= i < 155 ==> RowFact(i)
  {
    Checks143To154Facts();
    forall i | 143 <= i < 155 ensures RowFact(i) {
      assert CheckRow(i) == Rows136To155(i) == Checks143To154(i - 143);
      RowOfAvoidingBlock(Checks143To154(i - 143), i);
    }
  }

  lemma Checks155To168Rows()
    ensures forall i :: 155 <= i < 169 ==> RowFact(i)
  {
    Checks155To168Facts();
    forall i | 155 <= i < 169 ensures RowFact(i) {
      assert CheckRow(i) == Rows156To193(i) == Checks155To168(i - 155);
      RowOfAvoidingBlock(Checks155To168(i - 155), i);
    }
  }

  lemma Checks169To181Rows()
    ensures forall i :: 169 <= i < 182 ==> RowFact(i)
  {
    Checks169To181Facts();
    forall i | 169 <= i < 182 ensures RowFact(i) {
      assert CheckRow(i) == Rows156To193(i) == Checks169To181(i - 169);
      RowOfAvoidingBlock(Checks169To181(i - 169), i);
    }
  }

  lemma Checks182To192Rows()
    ensures forall i :: 182 <= i < 193 ==> RowFact(i)
  {
    Checks182To192Facts();
    forall i | 182 <= i < 193 ensures RowFact(i) {
      assert CheckRow(i) == Rows156To193(i) == Checks182To192(i - 182);
      RowOfAvoidingBlock(Checks182To192(i - 182), i);
    }
  }

  lemma Checks193To204Rows()
    ensures forall i :: 193 <= i < 205 ==> RowFact(i)
  {
    Checks193To204Facts();
    forall i | 193 <= i < 205 ensures RowFact(i) {
      assert CheckRow(i) == Rows194To216(i) == Checks193To204(i - 193);
      RowOfAvoidingBlock(Checks193To204(i - 193), i);
    }
  }

  lemma Checks205To215Rows()
    ensures forall i :: 205 <= i < 216 ==> RowFact(i)
  {
    Checks205To215Facts();
    forall i | 205 <= i < 216 ensures RowFact(i) {
      assert CheckRow(i) == Rows194To216(i) == Checks205To215(i - 205);
      RowOfAvoidingBlock(Checks205To215(i - 205), i);
    }
  }

  /** Every row's id, sprite type and dungeon owners. */
  lemma RowFacts()
    ensures forall i :: 0 <= i < 216 ==> RowFact(i)
  {
    Checks001To018Rows();
    Checks019To035Rows();
    Checks036To038Rows();
    Checks039To045Rows();
    Checks046To051Rows();
    Checks052To059Rows();
    Checks060To075Rows();
    Checks076To087Rows();
    Checks088To101Rows();
    Checks102To111Rows();
    Checks112To119Rows();
    Checks120To135Rows();
    Checks136To142Rows();
    Check216Rows();
    Checks143To154Rows();
    Checks155To168Rows();
    Checks169To181Rows();
    Checks182To192Rows();
    Checks193To204Rows();
    Checks205To215Rows();
  }

  /** Row `i` of the table, as a fact about that one row. */
  lemma RowAt(i: int)
    requires 0 <= i < 216
    ensures RowFact(i)
  {
    RowFacts();
  }

  // ---- the table as a whole ----

  /** The id layout of the check table: rows 1-142 have ids 1-142, the row after them has id 216, and the remaining rows have ids 143-215. */
  predicate CheckIdLayout(t: seq<Check>) {
    |t| == 216
    && (forall i :: 0 <= i < 142 ==> t[i].id == i + 1)
    && t[142].id == 216
    && (forall i :: 143 <= i < 216 ==> t[i].id == i)
  }

  /** In that layout ids are distinct. */
  lemma LayoutDistinct(t: seq<Check>)
    requires CheckIdLayout(t)
    ensures forall i, j :: 0 <= i < j < |t| ==> t[i].id != t[j].id
  {
  }

  /** The check table has the id layout above. */
  lemma ChecksDataIds()
    ensures CheckIdLayout(ChecksData())
  {
    var t := ChecksData();
    forall i | 0 <= i < 216 ensures t[i].id == IdAtRow(i) {
      RowAt(i);
      assert t[i] == CheckRow(i);
    }
  }

  /** Every check's sprite type is one the table uses. */
  lemma ChecksDataSprites()
    ensures SpritesUsed(ChecksData())
  {
    var t := ChecksData();
    forall i | 0 <= i < |t| ensures UsedSpriteType(t[i].spriteType) {
      RowAt(i);
      assert t[i] == CheckRow(i);
    }
  }

  // ---- lookups ----

  /** The filter of `getChecksByLocationId`: does location `x` own the check? */
  function OwnedByLocation(x: int): Check -> bool {
    (c: Check) => x in c.locationIds
  }

  /** The rows of `table` owned by location `x`, in table order. */
  function ChecksOwnedBy(table: seq<Check>, x: int): (r: seq<Check>)
    ensures forall i :: 0 <= i < |r| ==> r[i] in table && x in r[i].locationIds
    ensures forall i :: 0 <= i < |table| && x in table[i].locationIds ==> table[i] in r
    ensures Seqs.IsSubsequence(r, table)
  {
    Seqs.FilterMembers(table, OwnedByLocation(x));
    Seqs.FilterIsSubsequence(table, OwnedByLocation(x));
    Seqs.Filter(table, OwnedByLocation(x))
  }

  /** `getChecksByLocationId`: the checks owned by location `x`, in table order. */
  function GetChecksByLocationId(x: int): seq<Check> {
    ChecksOwnedBy(ChecksData(), x)
  }

  /** The first check of `t` with the given id. */
  function CheckById(t: seq<Check>, id: int): Option<Check> {
    Seqs.Find(t, (c: Check) => c.id == id)
  }

  /** `getCheckById`: the first (and, ids being distinct, the only) check with the given id. */
  function GetCheckById(id: int): Option<Check> {
    CheckById(ChecksData(), id)
  }

  /** In the table's id layout, a lookup succeeds exactly on 1-216 and returns the one row with that id. */
  lemma CheckByIdSpec(t: seq<Check>, id: int)
    requires CheckIdLayout(t)
    ensures CheckById(t, id).Some? <==> 1 <= id <= 216
    ensures forall i :: 0 <= i < |t| && t[i].id == id ==> CheckById(t, id) == Some(t[i])
  {
    LayoutDistinct(t);
    forall i | 0 <= i < |t| && t[i].id == id ensures CheckById(t, id) == Some(t[i]) {
      Seqs.FindIsFirst(t, (c: Check) => c.id == id, i);
    }
    if 1 <= id <= 142 {
      assert t[id - 1].id == id;
    } else if 143 <= id <= 215 {
      assert t[id].id == id;
    } else if id == 216 {
      assert t[142].id == id;
    }
  }

  lemma GetCheckByIdSpec(id: int)
    ensures GetCheckById(id).Some? <==> 1 <= id <= 216
    ensures forall i :: 0 <= i < |ChecksData()| && ChecksData()[i].id == id ==> GetCheckById(id) == Some(ChecksData()[i])
  {
    ChecksDataIds();
    CheckByIdSpec(ChecksData(), id);
  }

  /** A dungeon id 1001-1008 owns exactly the rows `DungeonOwnsRow` names. */
  lemma DungeonOwnsExactly(x: int)
    requires 1001 <= x <= 1008
    ensures forall i :: 0 <= i < |ChecksData()| ==> (OwnedByLocation(x)(ChecksData()[i]) <==> DungeonOwnsRow(i, x))
  {
    var t := ChecksData();
    forall i | 0 <= i < |t| ensures OwnedByLocation(x)(t[i]) <==> DungeonOwnsRow(i, x) {
      RowAt(i);
      assert t[i] == CheckRow(i);
    }
  }

  /** The Hyrule Castle block: table rows 36-38. */
  function HyruleCastleChecks(): seq<Check> {
    seq(3, k requires 0 <= k < 3 => Checks036To038(k))
  }

  /** The Desert Palace block: table rows 46-51. */
  function DesertPalaceChecks(): seq<Check> {
    seq(6, k requires 0 <= k < 6 => Checks046To051(k))
  }

  /** Rows 36-38 of the table are the Hyrule Castle block. */
  lemma HyruleCastleRows()
    ensures ChecksData()[35..38] == HyruleCastleChecks()
  {
    var t := ChecksData();
    forall k | 0 <= k < 3 ensures t[35..38][k] == HyruleCastleChecks()[k] {
      assert t[35 + k] == CheckRow(35 + k) == Rows1To38(35 + k);
    }
  }

  /** Rows 46-51 of the table are the Desert Palace block. */
  lemma DesertPalaceRows()
    ensures ChecksData()[45..51] == DesertPalaceChecks()
  {
    var t := ChecksData();
    forall k | 0 <= k < 6 ensures t[45..51][k] == DesertPalaceChecks()[k] {
      assert t[45 + k] == CheckRow(45 + k) == Rows39To59(45 + k);
    }
  }

  /** The three Hyrule Castle sections own exactly the same checks, those of rows 36-38. */
  lemma HyruleCastleSectionsAgree(x: int)
    requires 1001 <= x <= 1003
    ensures GetChecksByLocationId(x) == HyruleCastleChecks()
  {
    DungeonOwnsExactly(x);
    Seqs.FilterRange(ChecksData(), OwnedByLocation(x), 35, 38);
    HyruleCastleRows();
  }

  /** The checks of a Hyrule Castle section are ids 36, 37 and 38, in that order. */
  lemma HyruleCastleSectionIds(x: int)
    requires 1001 <= x <= 1003
    ensures |GetChecksByLocationId(x)| == 3 && ConsecutiveIds(GetChecksByLocationId(x), 36)
  {
    HyruleCastleSectionsAgree(x);
    Checks036To038Facts();
  }

  /** The four Desert Palace sections own exactly the same checks, those of rows 46-51. */
  lemma DesertPalaceSectionsAgree(x: int)
    requires 1005 <= x <= 1008
    ensures GetChecksByLocationId(x) == DesertPalaceChecks()
  {
    DungeonOwnsExactly(x);
    Seqs.FilterRange(ChecksData(), OwnedByLocation(x), 45, 51);
    DesertPalaceRows();
  }

  /** The checks of a Desert Palace section are ids 46 to 51, in that order. */
  lemma DesertPalaceSectionIds(x: int)
    requires 1005 <= x <= 1008
    ensures |GetChecksByLocationId(x)| == 6 && ConsecutiveIds(GetChecksByLocationId(x), 46)
  {
    DesertPalaceSectionsAgree(x);
    Checks046To051Facts();
  }

  /** The id between the two groups (1004, absent from the dungeon table) owns no check. */
  lemma NoChecksBetweenCastleAndDesert(x: int)
    requires 1003 < x < 1005
    ensures GetChecksByLocationId(x) == []
  {
    DungeonOwnsExactly(x);
    Seqs.FilterRange(ChecksData(), OwnedByLocation(x), 0, 0);
  }

  // ---- the sprite catalogue ----

  /** The sprite catalogue, in source order: ids 1-19. */
  function CheckSprites(): seq<CheckSprite> {
    [
      CheckSprite(1, "Chest", "Chest", "/images/sprites/chest.png", "/images/sprites/openchest.png"),
      CheckSprite(2, "Item", "Item", "/images/sprites/item.png", "/images/sprites/item_collected.png"),
      CheckSprite(3, "NPC", "NPC", "/images/sprites/npc.png", "/images/sprites/npc_collected.png"),
      CheckSprite(4, "Armos Knights", "Boss", "/images/sprites/armos.png", "/images/sprites/boss_collected.png"),
      CheckSprite(5, "Lanmolas", "Boss", "/images/sprites/lanmolas.png", "/images/sprites/boss_collected.png"),
      CheckSprite(6, "Moldorn", "Boss", "/images/sprites/moldorn.png", "/images/sprites/boss_collected.png"),
      CheckSprite(7, "Agahnim", "Boss", "/images/sprites/agahnim.png", "/images/sprites/boss_collected.png"),
      CheckSprite(8, "Helmasaur", "Boss", "/images/sprites/helmasaur.png", "/images/sprites/boss_collected.png"),
      CheckSprite(9, "Arrghus", "Boss", "/images/sprites/argus.png", "/images/sprites/boss_collected.png"),
      CheckSprite(10, "Mothula", "Boss", "/images/sprites/mothula.png", "/images/sprites/boss_collected.png"),
      CheckSprite(11, "Blind the Thief", "Boss", "/images/sprites/blind.png", "/images/sprites/boss_collected.png"),
      CheckSprite(12, "Kholdstare", "Boss", "/images/sprites/kholdstare.png", "/images/sprites/boss_collected.png"),
      CheckSprite(13, "Vitreous", "Boss", "/images/sprites/vitreous.png", "/images/sprites/boss_collected.png"),
      CheckSprite(14, "Trinexx", "Boss", "/images/sprites/trinexx.png", "/images/sprites/boss_collected.png"),
      CheckSprite(15, "Green Pendant", "Pendant", "/images/sprites/trinexx.png", "/images/sprites/boss_collected.png"),
      CheckSprite(16, "Blue Pendant", "Pendant", "/images/sprites/trinexx.png", "/images/sprites/boss_collected.png"),
      CheckSprite(17, "Red Pendant", "Pendant", "/images/sprites/trinexx.png", "/images/sprites/boss_collected.png"),
      CheckSprite(18, "Crystal", "Crystal", "/images/sprites/crystal.png", "/images/sprites/crystal.png"),
      CheckSprite(19, "Red Crystal", "Crystal", "/images/sprites/trinexx.png", "/images/sprites/boss_collected.png")
    ]
  }

  /** The sprite kinds the catalogue uses. */
  predicate IsSpriteKind(kind: string) {
    kind == "Chest" || kind == "Item" || kind == "NPC" || kind == "Boss" || kind == "Pendant" || kind == "Crystal"
  }

  /** The row of the first sprite of each kind. */
  function FirstOfKind(kind: string): (i: int)
    requires IsSpriteKind(kind)
    ensures 0 <= i < 19
  {
    if kind == "Chest" then 0
    else if kind == "Item" then 1
    else if kind == "NPC" then 2
    else if kind == "Boss" then 3
    else if kind == "Pendant" then 14
    else 17
  }

  /** Sprite ids are the row numbers plus one. */
  lemma CheckSpriteIds()
    ensures |CheckSprites()| == 19
    ensures forall i :: 0 <= i < |CheckSprites()| ==> CheckSprites()[i].id == i + 1
  {
    var t := CheckSprites();
    forall i | 0 <= i < 19 ensures t[i].id == i + 1 {
      if i < 10 { if i < 5 {} else {} } else { if i < 15 {} else {} }
    }
  }

  /** Every sprite has one of the six kinds. */
  lemma CheckSpriteKinds()
    ensures forall i :: 0 <= i < |CheckSprites()| ==> IsSpriteKind(CheckSprites()[i].kind)
  {
    var t := CheckSprites();
    forall i | 0 <= i < 19 ensures IsSpriteKind(t[i].kind) {
      if i < 10 { if i < 5 {} else {} } else { if i < 15 {} else {} }
    }
  }

  /** Each kind first appears at row `FirstOfKind(kind)`. */
  lemma FirstOfKindIsFirst(kind: string)
    requires IsSpriteKind(kind)
    ensures CheckSprites()[FirstOfKind(kind)].kind == kind
    ensures forall i :: 0 <= i < FirstOfKind(kind) ==> CheckSprites()[i].kind != kind
  {
    var t := CheckSprites();
    if kind == "Pendant" {
      assert forall i :: 0 <= i < 14 ==> t[i].kind != kind;
    } else if kind == "Crystal" {
      assert forall i :: 0 <= i < 17 ==> t[i].kind != kind;
    }
  }

  /** The first sprite of `t` with the given id. */
  function SpriteById(t: seq<CheckSprite>, id: int): Option<CheckSprite> {
    Seqs.Find(t, (s: CheckSprite) => s.id == id)
  }

  /** `getCheckSpriteById`: the sprite with the given id, `None` (the source's `null`) when there is none. */
  function GetCheckSpriteById(id: int): Option<CheckSprite> {
    SpriteById(CheckSprites(), id)
  }

  /** `getCheckSpriteByType`: the first sprite of the given kind, `None` when there is none. */
  function GetCheckSpriteByType(kind: string): Option<CheckSprite> {
    Seqs.Find(CheckSprites(), (s: CheckSprite) => s.kind == kind)
  }

  /** In a catalogue numbered from 1, a lookup succeeds exactly on 1..|t| and returns row `id - 1`. */
  lemma SpriteByIdSpec(t: seq<CheckSprite>, id: int)
    requires forall i :: 0 <= i < |t| ==> t[i].id == i + 1
    ensures SpriteById(t, id).Some? <==> 1 <= id <= |t|
    ensures 1 <= id <= |t| ==> SpriteById(t, id) == Some(t[id - 1])
  {
    if 1 <= id <= |t| {
      Seqs.FindIsFirst(t, (s: CheckSprite) => s.id == id, id - 1);
    }
  }

  lemma GetCheckSpriteByIdSpec(id: int)
    ensures GetCheckSpriteById(id).Some? <==> 1 <= id <= 19
    ensures 1 <= id <= 19 ==> GetCheckSpriteById(id) == Some(CheckSprites()[id - 1])
  {
    CheckSpriteIds();
    SpriteByIdSpec(CheckSprites(), id);
  }

  lemma GetCheckSpriteByTypeSpec(kind: string)
    ensures GetCheckSpriteByType(kind).Some? <==> IsSpriteKind(kind)
    ensures IsSpriteKind(kind) ==> GetCheckSpriteByType(kind) == Some(CheckSprites()[FirstOfKind(kind)])
  {
    CheckSpriteKinds();
    if IsSpriteKind(kind) {
      FirstOfKindIsFirst(kind);
      Seqs.FindIsFirst(CheckSprites(), (s: CheckSprite) => s.kind == kind, FirstOfKind(kind));
    }
  }

  /** When every sprite type a table uses is at most the catalogue's size, every row resolves to a sprite. */
  lemma SpritesResolve(checks: seq<Check>, sprites: seq<CheckSprite>)
    requires |sprites| == 19 && forall i :: 0 <= i < |sprites| ==> sprites[i].id == i + 1
    requires SpritesUsed(checks)
    ensures forall i :: 0 <= i < |checks| ==> SpriteById(sprites, checks[i].spriteType).Some?
  {
    forall i | 0 <= i < |checks| ensures SpriteById(sprites, checks[i].spriteType).Some? {
      SpriteByIdSpec(sprites, checks[i].spriteType);
    }
  }

  /** Every check is drawn with a sprite the catalogue has. */
  lemma EveryCheckHasASprite()
    ensures forall i :: 0 <= i < |ChecksData()| ==> GetCheckSpriteById(ChecksData()[i].spriteType).Some?
  {
    ChecksDataSprites();
    CheckSpriteIds();
    SpritesResolve(ChecksData(), CheckSprites());
  }

  /** Filtering by owner keeps exactly the rows whose owners include `x`, in table order. */
  lemma ChecksOwnedBySpec(table: seq<Check>, x: int)
    ensures forall c :: c in ChecksOwnedBy(table, x) <==> c in table && x in c.locationIds
    ensures Seqs.IsSubsequence(ChecksOwnedBy(table, x), table)
  {
    Seqs.FilterSpec(table, OwnedByLocation(x));
  }

  /** `getChecksByLocationId` keeps exactly the rows whose owners include `x`, in table order. */
  lemma GetChecksByLocationIdSpec(x: int)
    ensures forall c :: c in GetChecksByLocationId(x) <==> c in ChecksData() && x in c.locationIds
    ensures Seqs.IsSubsequence(GetChecksByLocationId(x), ChecksData())
  {
    ChecksOwnedBySpec(ChecksData(), x);
  }

  /** Id 0 is the placeholder owner: the first five checks belong to it alone, so they are all listed under 0. */
  lemma PlaceholderOwnsUnassigned()
    ensures forall i :: 0 <= i < 5 ==> ChecksData()[i].locationIds == [0] && ChecksData()[i] in GetChecksByLocationId(0)
  {
    forall i | 0 <= i < 5
      ensures ChecksData()[i].locationIds == [0] && ChecksData()[i] in GetChecksByLocationId(0)
    {
      assert ChecksData()[i] == Checks001To018(i);
    }
  }
}
