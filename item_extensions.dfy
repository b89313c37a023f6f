/**
 * The item taxonomy of the randomizer (MMR.Randomizer/Extensions/ItemExtensions.cs): names,
 * locations and classifications of the members of the `Item` enum, computed from the
 * attributes attached to them.
 *
 * The `Item` enum and its attributes are read through reflection; here an item is its ordinal
 * and a `Catalog` holds what the attributes say about each one and which ordinal each named
 * member the extensions refer to has.
 */
module ItemExtensions {
  import opened Wrappers

  /** An `Item` enum value: its ordinal. */
  type Item = int

  type byte = x: int | 0 <= x < 0x100
  type ushort = x: int | 0 <= x < 0x1_0000

  /** A `DungeonEntrance` enum value: its ordinal. */
  type DungeonEntrance = int

  /** `[DungeonEntrance(entrance, pair)]`. */
  datatype DungeonEntranceAttribute = DungeonEntranceAttribute(entrance: DungeonEntrance, pair: Option<DungeonEntrance>)

  /** The members whose names `ProgressiveUpgradeName` replaces. */
  datatype UpgradeItems = UpgradeItems(
    startingSword: Item, upgradeRazorSword: Item, upgradeGildedSword: Item,
    fairyMagic: Item, fairyDoubleMagic: Item,
    upgradeAdultWallet: Item, upgradeGiantWallet: Item,
    itemBombBag: Item, upgradeBigBombBag: Item, upgradeBiggestBombBag: Item,
    itemBow: Item, upgradeBigQuiver: Item, upgradeBiggestQuiver: Item)

  /**
   * What the attributes say about each item (absent attributes are `None` or empty), the name
   * `ToString` gives each item, and the ordinals of the members the extensions name.
   */
  datatype Catalog = Catalog(
    itemName: Item -> Option<string>,          // [ItemName]
    locationName: Item -> Option<string>,      // [LocationName]
    memberName: Item -> string,                // Item.ToString()
    entrance: Item -> bool,                    // [Entrance]
    spawn: Item -> Option<ushort>,             // [Spawn]
    exits: Item -> seq<(int, byte)>,           // every [Exit]: scene id, exit index
    exitCutscenes: Item -> seq<(int, byte, byte)>, // every [ExitCutscene]: scene, setup, cutscene
    exitAddresses: Item -> seq<int>,           // every [ExitAddress]
    dungeonEntrance: Item -> Option<DungeonEntranceAttribute>,
    upgrades: UpgradeItems,
    songHealing: Item, songOath: Item,
    bottleCatchFairy: Item, bottleCatchMushroom: Item)

  // ---------------------------------------------------------------------------------------------
  // Names
  // ---------------------------------------------------------------------------------------------

  /** `Name`: the `[ItemName]` attribute's name, or null. */
  function Name(c: Catalog, item: Item): Option<string> {
    c.itemName(item)
  }

  /** The groups `ProgressiveUpgradeName` tests, in the order it tests them, with the name each group gets. */
  function UpgradeGroups(u: UpgradeItems): seq<(seq<Item>, string)> {
    [ ([u.startingSword, u.upgradeRazorSword, u.upgradeGildedSword], "Sword Upgrade"),
      ([u.fairyMagic, u.fairyDoubleMagic], "Magic Power Upgrade"),
      ([u.upgradeAdultWallet, u.upgradeGiantWallet], "Wallet Upgrade"),
      ([u.itemBombBag, u.upgradeBigBombBag, u.upgradeBiggestBombBag], "Bomb Bag Upgrade"),
      ([u.itemBow, u.upgradeBigQuiver, u.upgradeBiggestQuiver], "Bow Upgrade") ]
  }

  /** `ProgressiveUpgradeName`: with progressive upgrades on, the members of an upgrade chain share one name. */
  function ProgressiveUpgradeName(c: Catalog, item: Item, progressiveUpgradesEnabled: bool): Option<string> {
    var u := c.upgrades;
    if progressiveUpgradesEnabled && (item == u.startingSword || item == u.upgradeRazorSword || item == u.upgradeGildedSword) then
      Some("Sword Upgrade")
    else if progressiveUpgradesEnabled && (item == u.fairyMagic || item == u.fairyDoubleMagic) then
      Some("Magic Power Upgrade")
    else if progressiveUpgradesEnabled && (item == u.upgradeAdultWallet || item == u.upgradeGiantWallet) then
      Some("Wallet Upgrade")
    else if progressiveUpgradesEnabled && (item == u.itemBombBag || item == u.upgradeBigBombBag || item == u.upgradeBiggestBombBag) then
      Some("Bomb Bag Upgrade")
    else if progressiveUpgradesEnabled && (item == u.itemBow || item == u.upgradeBigQuiver || item == u.upgradeBiggestQuiver) then
      Some("Bow Upgrade")
    else
      Name(c, item)
  }

  /** With progressive upgrades off, every item keeps its own name. */
  lemma ProgressiveOffKeepsName(c: Catalog, item: Item)
    ensures ProgressiveUpgradeName(c, item, false) == Name(c, item)
  {
  }

  /** The name of the first group in `groups` that holds `item`, if any. */
  function FirstGroupName(groups: seq<(seq<Item>, string)>, item: Item): Option<string> {
    if groups == [] then None
    else if item in groups[0].0 then Some(groups[0].1)
    else FirstGroupName(groups[1..], item)
  }

  /** An item in group `k` and in no earlier group takes group `k`'s name. */
  lemma {:induction false} FirstGroupNameFinds(groups: seq<(seq<Item>, string)>, item: Item, k: nat)
    requires k < |groups| && item in groups[k].0
    requires forall g :: 0 <= g < k ==> item !in groups[g].0
    ensures FirstGroupName(groups, item) == Some(groups[k].1)
  {
    if k > 0 {
      FirstGroupNameFinds(groups[1..], item, k - 1);
    }
  }

  /**
   * With progressive upgrades on, the chain of tests is a lookup in the group table: an item
   * gets the name of the first group that holds it, and an item in no group keeps its own name.
   */
  lemma ProgressiveOnIsGroupLookup(c: Catalog, item: Item)
    ensures ProgressiveUpgradeName(c, item, true) ==
      if FirstGroupName(UpgradeGroups(c.upgrades), item).Some? then FirstGroupName(UpgradeGroups(c.upgrades), item)
      else Name(c, item)
  {
    var groups := UpgradeGroups(c.upgrades);
    assert FirstGroupName(groups[4..], item) == (if item in groups[4].0 then Some(groups[4].1) else None) by {
      assert groups[4..][1..] == [];
    }
    assert FirstGroupName(groups[3..], item) == (if item in groups[3].0 then Some(groups[3].1) else FirstGroupName(groups[4..], item)) by {
      assert groups[3..][1..] == groups[4..];
    }
    assert FirstGroupName(groups[2..], item) == (if item in groups[2].0 then Some(groups[2].1) else FirstGroupName(groups[3..], item)) by {
      assert groups[2..][1..] == groups[3..];
    }
    assert FirstGroupName(groups[1..], item) == (if item in groups[1].0 then Some(groups[1].1) else FirstGroupName(groups[2..], item)) by {
      assert groups[1..][1..] == groups[2..];
    }
  }

  /** Every upgrade item, group by group. */
  function UpgradeItemList(u: UpgradeItems): seq<Item> {
    var groups := UpgradeGroups(u);
    groups[0].0 + groups[1].0 + groups[2].0 + groups[3].0 + groups[4].0
  }

  /** Since the enum's members are distinct, each upgrade item is named after its own group. */
  lemma ProgressiveOnNamesOwnGroup(c: Catalog, k: nat, i: nat)
    requires var list := UpgradeItemList(c.upgrades); forall a, b :: 0 <= a < b < |list| ==> list[a] != list[b]
    requires k < |UpgradeGroups(c.upgrades)| && i < |UpgradeGroups(c.upgrades)[k].0|
    ensures ProgressiveUpgradeName(c, UpgradeGroups(c.upgrades)[k].0[i], true) == Some(UpgradeGroups(c.upgrades)[k].1)
  {
    var groups, list := UpgradeGroups(c.upgrades), UpgradeItemList(c.upgrades);
    var item := groups[k].0[i];
    var starts := [0, 3, 5, 7, 10, 13];
    assert forall g, j :: 0 <= g < 5 && 0 <= j < |groups[g].0| ==> list[starts[g] + j] == groups[g].0[j];
    forall g, j | 0 <= g < k && 0 <= j < |groups[g].0|
      ensures groups[g].0[j] != item
    {
      assert starts[g] + j < starts[k] + i;
    }
    FirstGroupNameFinds(groups, item, k);
    ProgressiveOnIsGroupLookup(c, item);
  }

  // ---------------------------------------------------------------------------------------------
  // Locations
  // ---------------------------------------------------------------------------------------------

  /** `w` occurs in `s` at index `i`. */
  predicate At(s: string, w: string, i: int) {
    0 <= i && i + |w| <= |s| && s[i..i + |w|] == w
  }

  /** The last occurrence of "From" starting in [lo, hi), if any. */
  function LastFromIn(s: string, lo: int, hi: int): (r: Option<int>)
    decreases hi - lo
    ensures r.Some? ==> lo <= r.value < hi && At(s, "From", r.value)
    ensures r.Some? ==> forall k :: r.value < k < hi ==> !At(s, "From", k)
    ensures r.None? ==> forall k :: lo <= k < hi ==> !At(s, "From", k)
  {
    if hi <= lo then None
    else if At(s, "From", hi - 1) then Some(hi - 1)
    else LastFromIn(s, lo, hi - 1)
  }

  /**
   * Where `Entrance(.+)From(.+)` can match starting at `i`: "Entrance" at `i`, and then the
   * greedy first group ends at the last "From" that leaves both groups non-empty.
   */
  function MatchAt(s: string, i: int): Option<int> {
    if At(s, "Entrance", i) then LastFromIn(s, i + 9, |s| - 4) else None
  }

  /** The leftmost match starting at or after `i`: its start and where its "From" is. */
  function FirstMatch(s: string, i: nat): (r: Option<(nat, int)>)
    decreases |s| - i
    ensures r.Some? ==> i <= r.value.0 && MatchAt(s, r.value.0) == Some(r.value.1)
    ensures r.Some? ==> forall k :: i <= k < r.value.0 ==> MatchAt(s, k).None?
    ensures r.None? ==> forall k :: i <= k ==> MatchAt(s, k).None?
  {
    if i >= |s| then None
    else match MatchAt(s, i)
      case Some(j) => Some((i, j))
      case None => FirstMatch(s, i + 1)
  }

  /** `s` ends with "Entrance" `a` "From" `b` from index `p` on: the shape the pattern looks for. */
  predicate EndsWithPattern(s: string, p: int, a: string, b: string) {
    0 <= p <= |s| && a != [] && b != [] && s[p..] == "Entrance" + a + "From" + b
  }

  /** The name an entrance is renamed to: "Exit" + second group + "To" + first group, if the pattern matches. */
  function ExitName(s: string): Option<string> {
    match FirstMatch(s, 0)
    case None => None
    case Some((p, j)) => Some("Exit" + s[j + 4..] + "To" + s[p + 8..j])
  }

  /** A match at `p` whose "From" is at `j` splits the name into the pattern's parts ... */
  lemma MatchIsPattern(s: string, p: int, j: int)
    requires MatchAt(s, p) == Some(j)
    ensures EndsWithPattern(s, p, s[p + 8..j], s[j + 4..])
  {
    assert s[p..] == s[p..p + 8] + s[p + 8..j] + s[j..j + 4] + s[j + 4..];
  }

  /** ... and a name of the pattern's form matches where the form starts. */
  lemma PatternIsMatch(s: string, p: int, a: string, b: string)
    requires EndsWithPattern(s, p, a, b)
    ensures MatchAt(s, p).Some?
  {
    var j := p + 8 + |a|;
    assert s[p..p + 8] == (s[p..])[..8] == "Entrance";
    assert s[j..j + 4] == (s[p..])[8 + |a|..12 + |a|] == "From";
    assert At(s, "From", j);
  }

  /**
   * The rename happens exactly when the name has the form the pattern describes, and the new
   * name swaps the two parts of one such form.
   */
  lemma ExitNameIffPattern(s: string)
    ensures ExitName(s).Some? <==> exists p, a, b :: EndsWithPattern(s, p, a, b)
    ensures ExitName(s).Some? ==> exists p, a, b :: EndsWithPattern(s, p, a, b) && ExitName(s).value == "Exit" + b + "To" + a
  {
    if ExitName(s).Some? {
      ExitNameIsPattern(s);
    } else {
      NoExitNameNoPattern(s);
    }
  }

  lemma ExitNameIsPattern(s: string)
    requires ExitName(s).Some?
    ensures exists p, a, b :: EndsWithPattern(s, p, a, b) && ExitName(s).value == "Exit" + b + "To" + a
  {
    var (p, j) := FirstMatch(s, 0).value;
    MatchIsPattern(s, p, j);
    assert EndsWithPattern(s, p, s[p + 8..j], s[j + 4..]) && ExitName(s).value == "Exit" + s[j + 4..] + "To" + s[p + 8..j];
  }

  lemma NoExitNameNoPattern(s: string)
    requires ExitName(s).None?
    ensures !exists p, a, b :: EndsWithPattern(s, p, a, b)
  {
    if exists p, a, b :: EndsWithPattern(s, p, a, b) {
      var p, a, b :| EndsWithPattern(s, p, a, b);
      PatternIsMatch(s, p, a, b);
    }
  }

  /**
   * `Location`: the `[LocationName]` attribute's name when there is one; otherwise the member's
   * own name, renamed `Exit<B>To<A>` for an entrance named `...Entrance<A>From<B>`.
   */
  function Location(c: Catalog, item: Item): string {
    match c.locationName(item)
    case Some(name) => name
    case None =>
      var name := c.memberName(item);
      if IsEntrance(c, item) && ExitName(name).Some? then ExitName(name).value else name
  }

  /** Where the location comes from: the attribute if present, else the member name, which only entrances rewrite. */
  lemma LocationSources(c: Catalog, item: Item)
    ensures c.locationName(item).Some? ==> Location(c, item) == c.locationName(item).value
    ensures c.locationName(item).None? && !IsEntrance(c, item) ==> Location(c, item) == c.memberName(item)
    ensures c.locationName(item).None? && IsEntrance(c, item) ==>
      if exists p, a, b :: EndsWithPattern(c.memberName(item), p, a, b)
      then exists p, a, b :: EndsWithPattern(c.memberName(item), p, a, b) && Location(c, item) == "Exit" + b + "To" + a
      else Location(c, item) == c.memberName(item)
  {
    ExitNameIffPattern(c.memberName(item));
  }

  // ---------------------------------------------------------------------------------------------
  // Classifications
  // ---------------------------------------------------------------------------------------------

  /** `IsEntrance`: the item carries `[Entrance]`. */
  predicate IsEntrance(c: Catalog, item: Item) {
    c.entrance(item)
  }

  /** `IsSong`: the closed ordinal range from `SongHealing` to `SongOath`. */
  predicate IsSong(c: Catalog, item: Item) {
    c.songHealing <= item && item <= c.songOath
  }

  /** `IsBottleCatchContent`: the closed ordinal range from `BottleCatchFairy` to `BottleCatchMushroom`. */
  predicate IsBottleCatchContent(c: Catalog, item: Item) {
    item >= c.bottleCatchFairy && item <= c.bottleCatchMushroom
  }

  /** Both range tests hold for whole intervals: anything between two songs is a song, and likewise for bottle contents. */
  lemma RangesAreIntervals(c: Catalog, x: Item, y: Item, z: Item)
    requires x <= y <= z
    ensures IsSong(c, x) && IsSong(c, z) ==> IsSong(c, y)
    ensures IsBottleCatchContent(c, x) && IsBottleCatchContent(c, z) ==> IsBottleCatchContent(c, y)
    ensures IsSong(c, c.songHealing) <==> c.songHealing <= c.songOath
    ensures IsBottleCatchContent(c, c.bottleCatchMushroom) <==> c.bottleCatchFairy <= c.bottleCatchMushroom
  {
  }

  /** `IsSameType`: both or neither are entrances, and both or neither are bottle contents. */
  predicate IsSameType(c: Catalog, item: Item, other: Item) {
    IsEntrance(c, item) == IsEntrance(c, other) && IsBottleCatchContent(c, item) == IsBottleCatchContent(c, other)
  }

  /** `IsSameType` is an equivalence relation. */
  lemma SameTypeIsEquivalence(c: Catalog, x: Item, y: Item, z: Item)
    ensures IsSameType(c, x, x)
    ensures IsSameType(c, x, y) ==> IsSameType(c, y, x)
    ensures IsSameType(c, x, y) && IsSameType(c, y, z) ==> IsSameType(c, x, z)
  {
  }

  /** `IsFake`: an item with no name that is not an entrance. */
  predicate IsFake(c: Catalog, item: Item) {
    Name(c, item).None? && !IsEntrance(c, item)
  }

  /** A fake item is never an entrance, and a named item is never fake. */
  lemma FakeIsNotEntrance(c: Catalog, item: Item)
    ensures IsFake(c, item) ==> !IsEntrance(c, item)
    ensures Name(c, item).Some? ==> !IsFake(c, item)
  {
  }

  /** `SpawnId`: reads `[Spawn]` without a null check, so an entrance without one throws (`None`). */
  function SpawnId(c: Catalog, entrance: Item): Option<ushort> {
    c.spawn(entrance)
  }

  /** `ExitIndices`, `ExitCutscenes` and `ExitAddresses`: one entry per attribute, in order. */
  function ExitIndices(c: Catalog, entrance: Item): seq<(int, byte)> {
    c.exits(entrance)
  }

  function ExitCutscenes(c: Catalog, entrance: Item): seq<(int, byte, byte)> {
    c.exitCutscenes(entrance)
  }

  function ExitAddresses(c: Catalog, entrance: Item): seq<int> {
    c.exitAddresses(entrance)
  }

  /** `IsEntranceImplemented`: the entrance has `[Spawn]` and at least one `[Exit]`, `[ExitAddress]` or `[ExitCutscene]`. */
  predicate IsEntranceImplemented(c: Catalog, entrance: Item) {
    c.spawn(entrance).Some? && (c.exits(entrance) != [] || c.exitAddresses(entrance) != [] || c.exitCutscenes(entrance) != [])
  }

  /**
   * An implemented entrance is one whose spawn id can be read and which has somewhere to be
   * written: an exit, an exit address or an exit cutscene.
   */
  lemma ImplementedIffSpawnAndExit(c: Catalog, entrance: Item)
    ensures IsEntranceImplemented(c, entrance) <==>
      SpawnId(c, entrance).Some? && |ExitIndices(c, entrance)| + |ExitAddresses(c, entrance)| + |ExitCutscenes(c, entrance)| > 0
  {
  }

  /** `DungeonEntrances`: null without `[DungeonEntrance]`; otherwise its entrance, followed by its pair when it has one. */
  function DungeonEntrances(c: Catalog, item: Item): (r: Option<seq<DungeonEntrance>>)
    ensures r.None? <==> c.dungeonEntrance(item).None?
    ensures r.Some? ==> var attr := c.dungeonEntrance(item).value;
      && 1 <= |r.value| <= 2
      && r.value[0] == attr.entrance
      && (|r.value| == 2 <==> attr.pair.Some?)
      && (attr.pair.Some? ==> r.value[1] == attr.pair.value)
  {
    match c.dungeonEntrance(item)
    case None => None
    case Some(attr) =>
      var result := [attr.entrance];
      Some(if attr.pair.Some? then result + [attr.pair.value] else result)
  }
}
