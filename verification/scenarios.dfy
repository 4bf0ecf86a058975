/**
  Small worlds worked through the model: a chest chunk, a donkey, two merges
  that stay apart, and an item list whose second node is broken.
 */
module Scenarios {
  import opened Wrappers
  import opened Tags
  import opened Records
  import opened WorldTotals
  import opened Extractor
  import opened Locator
  import opened Player

  function ItemNode(id: string, count: int, damage: int): Tag {
    TCompound(map["id" := TStr(id), "Count" := TInt(count), "Damage" := TInt(damage)])
  }

  function Stack(id: string, count: int, damage: int): Item {
    Item(id, Unset, count, TInt(damage), "")
  }

  lemma DecodePlainNode(id: string, count: int, damage: int)
    ensures DecodeItem(ItemNode(id, count, damage)) == Success(Stack(id, count, damage))
  {
  }

  const StoneNode: Tag := ItemNode("minecraft:stone", 64, 0)
  const TorchNode: Tag := ItemNode("minecraft:torch", 16, 0)
  const ChestNode: Tag := TCompound(map[
    "id" := TStr("minecraft:chest"), "x" := TInt(10), "y" := TInt(64), "z" := TInt(-3),
    "Items" := TList([StoneNode, TorchNode])])

  lemma ChestStacks()
    ensures ItemsOrEmpty(ChestNode.fields, "Items", []) == WithTotals(
      Success([Stack("minecraft:stone", 64, 0), Stack("minecraft:torch", 16, 0)]),
      [Bucket(Stack("minecraft:stone", 64, 0)), Bucket(Stack("minecraft:torch", 16, 0))])
  {
    DecodePlainNode("minecraft:stone", 64, 0);
    DecodePlainNode("minecraft:torch", 16, 0);
    var s := Stack("minecraft:stone", 64, 0);
    var t := Stack("minecraft:torch", 16, 0);
    var nodes := [StoneNode, TorchNode];
    assert nodes[1..][1..] == [];
    assert DecodePrefix(nodes[1..]) == [t];
    assert DecodePrefix(nodes) == [s, t];
    assert MergeAll([], [s, t]) == [Bucket(s), Bucket(t)] by {
      assert UpdateWorldTotals([], s) == [Bucket(s)];
      assert s.fullName[10] != t.fullName[10];
      assert NoMatch([Bucket(s)], t);
      assert UpdateWorldTotals([Bucket(s)], t) == [Bucket(s), Bucket(t)];
      assert [s, t][1..] == [t] && [t][1..] == [];
      assert MergeAll([Bucket(s), Bucket(t)], []) == [Bucket(s), Bucket(t)];
      assert MergeAll([Bucket(s)], [t]) == [Bucket(s), Bucket(t)];
      assert MergeAll([], [s, t]) == MergeAll([Bucket(s)], [t]);
    }
  }

  const ChestInventory: Inventory := Inventory("minecraft:chest", Position(TInt(10), TInt(64), TInt(-3)),
    [Stack("minecraft:stone", 64, 0), Stack("minecraft:torch", 16, 0)], None, None)
  const ChestTotals: Totals := [Bucket(Stack("minecraft:stone", 64, 0)), Bucket(Stack("minecraft:torch", 16, 0))]

  lemma ChestTile()
    ensures TileInventory(ChestNode, []) == WithTotals(Success(Some(ChestInventory)), ChestTotals)
  {
    ChestStacks();
    assert Recognized(ChestNode) && HasCoordinates(ChestNode);
  }

  const ChestWorld: map<string, Tag> := map["Entities" := TList([]), "TileEntities" := TList([ChestNode])]

  /** A chunk holding one recognised tile entity and nothing else lists that entity's inventory alone. */
  lemma OneTileChunk(e: Tag, totals: Totals)
    requires Recognized(e) && TileInventory(e, totals).result.Success?
    ensures
      var tile := TileInventory(e, totals);
      InventoriesPerChunk(map["Entities" := TList([]), "TileEntities" := TList([e])], totals)
        == WithTotals(Success([tile.result.value.value]), tile.totals)
  {
    var tile := TileInventory(e, totals);
    assert Scan([], totals, true) == WithTotals(Success([]), totals);
    assert [e][1..] == [];
    assert Scan([], tile.totals, false) == WithTotals(Success([]), tile.totals);
    assert ObjectInventory(e, totals, false) == tile;
    assert tile.result.value.Some?;
    assert AsSeq(tile.result.value) + [] == [tile.result.value.value];
    assert Scan([e], totals, false) == WithTotals(Success([tile.result.value.value]), tile.totals);
  }

  lemma ChestWorldRead()
    ensures InventoriesPerChunk(ChestWorld, []) == WithTotals(Success([ChestInventory]), ChestTotals)
  {
    ChestTile();
    OneTileChunk(ChestNode, []);
  }

  lemma ChestNamed()
    ensures ChestInventory.CommonName() == "chest"
  {
    assert Namespace <= "minecraft:chest";
  }

  /**
    A chunk with no live entities and one chest holding 64 stone and 16
    torches gives one inventory named `chest` with both stacks, and puts both
    counts into fresh totals.
   */
  lemma ChestChunk()
    ensures
      var r := InventoriesPerChunk(ChestWorld, []);
      && r.result.Success?
      && |r.result.value| == 1
      && r.result.value[0].CommonName() == "chest"
      && r.result.value[0].items == [Stack("minecraft:stone", 64, 0), Stack("minecraft:torch", 16, 0)]
      && r.totals == [Bucket(Stack("minecraft:stone", 64, 0)), Bucket(Stack("minecraft:torch", 16, 0))]
  {
    ChestWorldRead();
    ChestNamed();
  }

  const WheatNode: Tag := ItemNode("minecraft:wheat", 3, 0)

  /** A donkey keeps its stacks under `Items`; its `Inventory` field is not looked at. */
  lemma DonkeyReadsItems(other: Tag)
    ensures
      var donkey := TCompound(map[
        "id" := TStr("minecraft:donkey"), "Pos" := TList([TReal(0.5), TReal(70.0), TReal(-2.5)]),
        "Items" := TList([WheatNode]), "Inventory" := other]);
      var r := LiveInventory(donkey, []);
      && r.result.Success? && r.result.value.Some?
      && r.result.value.value.items == [Stack("minecraft:wheat", 3, 0)]
      && r.result.value.value.armor.None?
      && r.totals == [Bucket(Stack("minecraft:wheat", 3, 0))]
  {
    var donkey := TCompound(map[
      "id" := TStr("minecraft:donkey"), "Pos" := TList([TReal(0.5), TReal(70.0), TReal(-2.5)]),
      "Items" := TList([WheatNode]), "Inventory" := other]);
    var wheat := Stack("minecraft:wheat", 3, 0);
    DecodePlainNode("minecraft:wheat", 3, 0);
    assert Recognized(donkey) && PosReadable(donkey);
    assert LiveItemField("minecraft:donkey") == "Items";
    assert DecodePrefix([WheatNode]) == [wheat];
    assert MergeAll([], [wheat]) == [Bucket(wheat)] by {
      assert UpdateWorldTotals([], wheat) == [Bucket(wheat)];
    }
    assert ItemsOrEmpty(donkey.fields, "Items", []) == WithTotals(Success([wheat]), [Bucket(wheat)]);
  }

  const ArmorNode: Tag := TCompound(map["id" := TStr("minecraft:iron_horse_armor"), "Count" := TInt(1), "Damage" := TInt(0)])
  const SaddleNode: Tag := TCompound(map["id" := TStr("minecraft:saddle"), "Count" := TInt(1), "Damage" := TInt(0)])
  const HorseNode: Tag := TCompound(map[
    "id" := TStr("minecraft:horse"), "Pos" := TList([TInt(1), TInt(2), TInt(3)]),
    "ArmorItem" := ArmorNode, "SaddleItem" := SaddleNode])

  /** A horse with no stacks keeps the raw triples of its armor and its saddle, and adds nothing to the totals. */
  lemma HorseKeepsEquipment()
    ensures
      var r := LiveInventory(HorseNode, []);
      && r.result.Success? && r.result.value.Some?
      && r.result.value.value.armor == Some(Equipment(TStr("minecraft:iron_horse_armor"), TInt(1), TInt(0)))
      && r.result.value.value.saddle == Some(Equipment(TStr("minecraft:saddle"), TInt(1), TInt(0)))
      && r.result.value.value.items == []
      && r.totals == []
  {
    var f := HorseNode.fields;
    assert Recognized(HorseNode);
    assert PosReadable(HorseNode);
    assert LiveItemField("minecraft:horse") == "Inventory";
    assert ItemsOrEmpty(f, "Inventory", []) == WithTotals(Success([]), []);
    assert HasStackFields(ArmorNode.fields) && HasStackFields(SaddleNode.fields);
    assert ReadEquipment(HorseNode, "ArmorItem") == Success(Some(Equipment(TStr("minecraft:iron_horse_armor"), TInt(1), TInt(0))));
    assert ReadEquipment(HorseNode, "SaddleItem") == Success(Some(Equipment(TStr("minecraft:saddle"), TInt(1), TInt(0))));
  }

  /** Two dirt stacks that differ only in damage stay in two buckets. */
  lemma DirtKeepsTwoBuckets()
    ensures |MergeAll([], [Stack("minecraft:dirt", 5, 0), Stack("minecraft:dirt", 7, 1)])| == 2
  {
  }

  /**
    Damage also keeps two iron swords apart: the identity test has no class of
    tools whose wear is ignored.
   */
  lemma SwordsKeepTwoBuckets()
    ensures |MergeAll([], [Stack("minecraft:iron_sword", 1, 5), Stack("minecraft:iron_sword", 1, 12)])| == 2
  {
  }

  const BrokenNode: Tag := TCompound(map["id" := TStr("minecraft:dirt"), "Damage" := TInt(0)])
  const BrokenChest: Tag := TCompound(map[
    "id" := TStr("minecraft:chest"), "x" := TInt(0), "y" := TInt(0), "z" := TInt(0),
    "Items" := TList([StoneNode, BrokenNode])])

  /**
    A chest whose second node lacks `Count` lists no stacks, yet the first
    node's 64 stone have already reached the totals.
   */
  lemma PartialFailureCountsEarlierNodes()
    ensures
      var r := TileInventory(BrokenChest, []);
      && r.result.Success? && r.result.value.Some?
      && r.result.value.value.items == []
      && r.totals == [Bucket(Stack("minecraft:stone", 64, 0))]
  {
    var stone := Stack("minecraft:stone", 64, 0);
    DecodePlainNode("minecraft:stone", 64, 0);
    assert DecodeItem(BrokenNode) == Failure(KeyMissing("Count"));
    assert [StoneNode, BrokenNode][1..] == [BrokenNode];
    assert DecodePrefix([StoneNode, BrokenNode]) == [stone];
    assert MergeAll([], [stone]) == [Bucket(stone)] by {
      assert UpdateWorldTotals([], stone) == [Bucket(stone)];
    }
    assert ItemsOrEmpty(BrokenChest.fields, "Items", []) == WithTotals(Success([]), [Bucket(stone)]);
    assert Recognized(BrokenChest) && HasCoordinates(BrokenChest);
  }

  /** A save without `bukkit.lastPlayed` yields nothing, whatever inventory it holds. */
  lemma UnmarkedPlayerIgnored(items: Tag, totals: Totals)
    ensures
      var file := map["Inventory" := items, "bukkit" := TCompound(map[])];
      PlayerInv("uuid", file, totals) == WithTotals(Success(None), totals)
  {
  }
}
