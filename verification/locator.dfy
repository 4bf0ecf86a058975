/**
  The container locator `inventories_per_chunk`: walks a chunk's live entities
  and then its tile entities, and builds one inventory for every object whose
  id is recognised.
 */
module Locator {
  import opened Wrappers
  import opened Tags
  import opened Records
  import opened WorldTotals
  import opened Extractor

  /** Ids of objects with an item inventory. */
  const ValidItemNames: set<string> := {
    "minecraft:chest", "minecraft:chest_minecart", "minecraft:hopper_minecart",
    "minecraft:shulker_box", "minecraft:furnace", "minecraft:dispenser", "minecraft:dropper",
    "minecraft:brewing_stand", "minecraft:hopper"
  }

  /** Ids of mobs with an inventory. */
  const ValidMobNames: set<string> := {
    "minecraft:villager", "minecraft:zombie_villager", "minecraft:horse", "minecraft:donkey", "minecraft:mule"
  }

  const Horse: string := "minecraft:horse"
  const Mule: string := "minecraft:mule"

  /** Live entities that keep their stacks under `Items`, as tile entities do. */
  const ItemsFieldEntities: set<string> := {
    "minecraft:hopper_minecart", "minecraft:chest_minecart", Mule, "minecraft:donkey"
  }

  /** The field a recognised live entity keeps its stacks in. */
  function LiveItemField(name: string): (f: string)
    ensures f == "Items" <==> name in ItemsFieldEntities
    ensures f != "Items" ==> f == "Inventory"
  {
    if name in ItemsFieldEntities then "Items" else "Inventory"
  }

  /** The object is a compound whose `id` is a recognised name. */
  predicate Recognized(e: Tag) {
    e.TCompound? && "id" in e.fields && e.fields["id"].TStr?
    && e.fields["id"].s in ValidItemNames + ValidMobNames
  }

  /** The object is a compound that has an `id` field, of whatever kind. */
  predicate HasId(e: Tag) {
    e.TCompound? && "id" in e.fields
  }

  /** Every object has an id, and none is recognised. */
  predicate Unrecognized(es: seq<Tag>) {
    forall i :: 0 <= i < |es| ==> HasId(es[i]) && !Recognized(es[i])
  }

  lemma UnrecognizedCons(es: seq<Tag>)
    requires |es| > 0
    ensures Unrecognized(es) ==> HasId(es[0]) && !Recognized(es[0]) && Unrecognized(es[1..])
  {
    if Unrecognized(es) {
      forall i | 0 <= i < |es[1..]|
        ensures HasId(es[1..][i]) && !Recognized(es[1..][i])
      {
        assert es[1..][i] == es[i + 1];
      }
    }
  }

  /** The ids of the recognised objects of `es`, in order. */
  function RecognizedNames(es: seq<Tag>): seq<string> {
    if es == [] then []
    else (if Recognized(es[0]) then [es[0].fields["id"].s] else []) + RecognizedNames(es[1..])
  }

  /** The full names of a sequence of inventories. */
  function Names(invs: seq<Inventory>): (r: seq<string>)
    ensures |r| == |invs|
  {
    if invs == [] then [] else [invs[0].fullName] + Names(invs[1..])
  }

  lemma {:induction false} NamesAppend(a: seq<Inventory>, b: seq<Inventory>)
    ensures Names(a + b) == Names(a) + Names(b)
    decreases |a|
  {
    if a != [] {
      assert (a + b)[0] == a[0] && (a + b)[1..] == a[1..] + b;
      NamesAppend(a[1..], b);
      calc {
        Names(a + b);
        [a[0].fullName] + Names(a[1..] + b);
        [a[0].fullName] + (Names(a[1..]) + Names(b));
        ([a[0].fullName] + Names(a[1..])) + Names(b);
      }
    } else {
      assert a + b == b;
    }
  }

  /** Armor is only ever captured for a horse, a saddle only for a horse or a mule. */
  predicate EquipmentRule(invs: seq<Inventory>) {
    forall i :: 0 <= i < |invs| ==>
      && (invs[i].armor.Some? ==> invs[i].fullName == Horse)
      && (invs[i].saddle.Some? ==> invs[i].fullName == Horse || invs[i].fullName == Mule)
  }

  /** No inventory carries equipment. */
  predicate NoEquipment(invs: seq<Inventory>) {
    forall i :: 0 <= i < |invs| ==> invs[i].armor.None? && invs[i].saddle.None?
  }

  /**
    An equipment tag `key` read as its raw (id, count, damage) triple; an
    absent tag or an absent part of it gives no equipment.
   */
  function ReadEquipment(e: Tag, key: string): (r: Result<Option<Equipment>, Fault>)
    requires e.TCompound?
    ensures key !in e.fields ==> r == Success(None)
    ensures key in e.fields && !e.fields[key].TCompound? ==> r == Failure(WrongShape)
    ensures key in e.fields && e.fields[key].TCompound? ==>
      var f := e.fields[key].fields;
      && (HasStackFields(f) ==> r == Success(Some(Equipment(f["id"], f["Count"], f["Damage"]))))
      && (!HasStackFields(f) ==> r == Success(None))
    ensures r.Success? && r.value.Some? ==>
      && key in e.fields && e.fields[key].TCompound?
      && var f := e.fields[key].fields;
      && "id" in f && "Count" in f && "Damage" in f
      && r.value.value == Equipment(f["id"], f["Count"], f["Damage"])
  {
    var triple := (
      var it :- Get(e, key);
      var id :- Get(it, "id");
      var count :- Get(it, "Count");
      var damage :- Get(it, "Damage");
      Success(Equipment(id, count, damage)));
    match triple
    case Success(q) => Success(Some(q))
    case Failure(KeyMissing(_)) => Success(None)
    case Failure(err) => Failure(err)
  }

  /** The failure of reading a missing or unusable `id`. */
  function IdFault(e: Tag): Fault {
    if e.TCompound? then KeyMissing("id") else WrongShape
  }

  /** The object has a `Pos` field that reads as a position. */
  predicate PosReadable(e: Tag)
    requires e.TCompound?
  {
    "Pos" in e.fields && ReadPosition(e.fields["Pos"]).Success?
  }

  /**
    One live entity: `None` when its id is not recognised; otherwise its
    position (which must be present), its stacks from the field `LiveItemField`
    names, armor for a horse and a saddle for a horse or a mule.
   */
  function LiveInventory(e: Tag, totals: Totals): (r: WithTotals<Option<Inventory>>)
    ensures !HasId(e) ==> r == WithTotals(Failure(IdFault(e)), totals)
    ensures HasId(e) && !Recognized(e) ==> r == WithTotals(Success(None), totals)
    ensures Recognized(e) && "Pos" !in e.fields ==> r == WithTotals(Failure(KeyMissing("Pos")), totals)
    ensures Recognized(e) && "Pos" in e.fields && ReadPosition(e.fields["Pos"]).Failure? ==>
      r == WithTotals(Failure(ReadPosition(e.fields["Pos"]).error), totals)
    ensures Recognized(e) && PosReadable(e) ==>
      var name := e.fields["id"].s;
      var ex := ItemsOrEmpty(e.fields, LiveItemField(name), totals);
      && r.totals == ex.totals
      && (ex.result.Failure? ==> r.result == Failure(ex.result.error))
      && (r.result.Success? <==>
            && ex.result.Success?
            && (name == Horse ==> ReadEquipment(e, "ArmorItem").Success?)
            && (name == Horse || name == Mule ==> ReadEquipment(e, "SaddleItem").Success?))
      && (ex.result.Success? && r.result.Failure? ==> r.result.error == WrongShape)
    ensures r.result.Success? ==> (r.result.value.Some? <==> Recognized(e))
    ensures r.result.Success? && r.result.value.Some? ==>
      var inv := r.result.value.value;
      var ex := ItemsOrEmpty(e.fields, LiveItemField(inv.fullName), totals);
      && Recognized(e)
      && inv.fullName == e.fields["id"].s
      && "Pos" in e.fields && ReadPosition(e.fields["Pos"]) == Success(inv.pos)
      && ex.result == Success(inv.items) && ex.totals == r.totals
      && (inv.fullName == Horse ==> ReadEquipment(e, "ArmorItem") == Success(inv.armor))
      && (inv.fullName != Horse ==> inv.armor.None?)
      && (inv.fullName == Horse || inv.fullName == Mule ==> ReadEquipment(e, "SaddleItem") == Success(inv.saddle))
      && (inv.fullName != Horse && inv.fullName != Mule ==> inv.saddle.None?)
  {
    match Get(e, "id")
    case Failure(err) => WithTotals(Failure(err), totals)
    case Success(_) =>
      if !Recognized(e) then WithTotals(Success(None), totals)
      else
        var name := e.fields["id"].s;
        var pos := (var p :- Get(e, "Pos"); ReadPosition(p));
        if pos.Failure? then WithTotals(Failure(pos.error), totals)
        else
          var ex := ItemsOrEmpty(e.fields, LiveItemField(name), totals);
          if ex.result.Failure? then WithTotals(Failure(ex.result.error), ex.totals)
          else
            var armor := if name == Horse then ReadEquipment(e, "ArmorItem") else Success(None);
            if armor.Failure? then WithTotals(Failure(armor.error), ex.totals)
            else
              var saddle := if name == Horse || name == Mule then ReadEquipment(e, "SaddleItem") else Success(None);
              if saddle.Failure? then WithTotals(Failure(saddle.error), ex.totals)
              else
                var inv := Inventory(name, pos.value, ex.result.value, saddle.value, armor.value);
                WithTotals(Success(Some(inv)), ex.totals)
  }

  /** The object has the coordinate fields `x`, `y` and `z`. */
  predicate HasCoordinates(e: Tag)
    requires e.TCompound?
  {
    "x" in e.fields && "y" in e.fields && "z" in e.fields
  }

  /**
    One tile entity: `None` when its id is not recognised; otherwise its
    coordinates `x`, `y`, `z` (which must be present), its stacks from
    `Items`, and no equipment.
   */
  function TileInventory(e: Tag, totals: Totals): (r: WithTotals<Option<Inventory>>)
    ensures !HasId(e) ==> r == WithTotals(Failure(IdFault(e)), totals)
    ensures HasId(e) && !Recognized(e) ==> r == WithTotals(Success(None), totals)
    ensures Recognized(e) && !HasCoordinates(e) ==>
      r == WithTotals(Failure(KeyMissing(if "x" !in e.fields then "x" else if "y" !in e.fields then "y" else "z")), totals)
    ensures Recognized(e) && HasCoordinates(e) ==>
      var ex := ItemsOrEmpty(e.fields, "Items", totals);
      && r.totals == ex.totals
      && (ex.result.Failure? ==> r.result == Failure(ex.result.error))
      && (ex.result.Success? ==> r.result.Success? && r.result.value.Some?)
    ensures r.result.Success? ==> (r.result.value.Some? <==> Recognized(e))
    ensures r.result.Success? && r.result.value.Some? ==>
      var inv := r.result.value.value;
      var ex := ItemsOrEmpty(e.fields, "Items", totals);
      && inv.fullName == e.fields["id"].s
      && "x" in e.fields && "y" in e.fields && "z" in e.fields
      && inv.pos == Position(e.fields["x"], e.fields["y"], e.fields["z"])
      && ex.result == Success(inv.items) && ex.totals == r.totals
      && inv.armor.None? && inv.saddle.None?
  {
    match Get(e, "id")
    case Failure(err) => WithTotals(Failure(err), totals)
    case Success(_) =>
      if !Recognized(e) then WithTotals(Success(None), totals)
      else
        var name := e.fields["id"].s;
        var pos := (
          var x :- Get(e, "x");
          var y :- Get(e, "y");
          var z :- Get(e, "z");
          Success(Position(x, y, z)));
        if pos.Failure? then WithTotals(Failure(pos.error), totals)
        else
          var ex := ItemsOrEmpty(e.fields, "Items", totals);
          if ex.result.Failure? then WithTotals(Failure(ex.result.error), ex.totals)
          else WithTotals(Success(Some(Inventory(name, pos.value, ex.result.value, None, None))), ex.totals)
  }

  // ----- the two loops -----

  /** The field a recognised object's stacks are read from: routed for a live entity, `Items` for a tile entity. */
  function RoutedField(e: Tag, live: bool): string
    requires Recognized(e)
  {
    if live then LiveItemField(e.fields["id"].s) else "Items"
  }

  /**
    The stacks an object sends to the totals: the decodable prefix of the nodes
    in its routed field; nothing for an unrecognised object or an absent field.
   */
  function RoutedStacks(e: Tag, live: bool): seq<Item> {
    if !Recognized(e) then []
    else
      var key := RoutedField(e, live);
      if key in e.fields && e.fields[key].TList? then DecodePrefix(e.fields[key].elems) else []
  }

  /** The stacks a loop over `es` sends to the totals, object after object. */
  function Routed(es: seq<Tag>, live: bool): seq<Item> {
    if es == [] then [] else RoutedStacks(es[0], live) + Routed(es[1..], live)
  }

  /** The recognised objects of `es`, in order. */
  function RecognizedObjects(es: seq<Tag>): (objs: seq<Tag>)
    ensures |objs| <= |es|
    ensures forall k :: 0 <= k < |objs| ==> Recognized(objs[k])
  {
    if es == [] then []
    else (if Recognized(es[0]) then [es[0]] else []) + RecognizedObjects(es[1..])
  }

  /**
    One object of either loop: a live entity when `live` holds, a tile entity
    otherwise. On success the totals hold exactly the object's routed stacks.
   */
  function ObjectInventory(e: Tag, totals: Totals, live: bool): (r: WithTotals<Option<Inventory>>)
    ensures r.result.Success? ==> (r.result.value.Some? <==> Recognized(e))
    ensures HasId(e) && !Recognized(e) ==> r == WithTotals(Success(None), totals)
    ensures r.result.Success? ==> r.totals == MergeAll(totals, RoutedStacks(e, live))
    ensures r.result.Success? ==>
      && HasId(e)
      && Names(AsSeq(r.result.value)) == (if Recognized(e) then [e.fields["id"].s] else [])
      && EquipmentRule(AsSeq(r.result.value))
      && (!live ==> NoEquipment(AsSeq(r.result.value)))
  {
    if live then LiveInventory(e, totals) else TileInventory(e, totals)
  }

  /** What one object yields, which does not depend on the totals (`ObjectIgnoresTotals`). */
  function Yield(e: Tag, live: bool): Result<Option<Inventory>, Fault> {
    ObjectInventory(e, [], live).result
  }

  /** The inventory an object yields, or its failure, is the same whatever the totals. */
  lemma ObjectIgnoresTotals(e: Tag, t: Totals, live: bool)
    ensures ObjectInventory(e, t, live).result == Yield(e, live)
  {
    if Recognized(e) {
      ItemsOrEmptyIgnoresTotals(e.fields, RoutedField(e, live), t, []);
    }
  }

  /** Every object of `es` yields without failure. */
  predicate AllYield(es: seq<Tag>, live: bool) {
    forall i :: 0 <= i < |es| ==> Yield(es[i], live).Success?
  }

  /** Object `i` is the first of `es` whose reading fails. */
  predicate FirstFailure(es: seq<Tag>, live: bool, i: int) {
    0 <= i < |es| && Yield(es[i], live).Failure? && forall j :: 0 <= j < i ==> Yield(es[j], live).Success?
  }

  /** `invs` lists, in order, one inventory per object of `objs`, each the one it yields. */
  predicate Lists(invs: seq<Inventory>, objs: seq<Tag>, live: bool)
    decreases |objs|
  {
    && |invs| == |objs|
    && (objs != [] ==> Yield(objs[0], live) == Success(Some(invs[0])) && Lists(invs[1..], objs[1..], live))
  }

  /** Listing read by position: the `k`-th inventory is the one the `k`-th object yields. */
  lemma {:induction false} ListsAt(invs: seq<Inventory>, objs: seq<Tag>, live: bool)
    requires Lists(invs, objs, live)
    ensures |invs| == |objs|
    ensures forall k :: 0 <= k < |objs| ==> Yield(objs[k], live) == Success(Some(invs[k]))
    decreases |objs|
  {
    if objs != [] {
      ListsAt(invs[1..], objs[1..], live);
      forall k | 0 < k < |objs|
        ensures Yield(objs[k], live) == Success(Some(invs[k]))
      {
        assert objs[k] == objs[1..][k - 1] && invs[k] == invs[1..][k - 1];
      }
    }
  }

  function AsSeq(o: Option<Inventory>): (s: seq<Inventory>)
    ensures |s| <= 1
  {
    if o.Some? then [o.value] else []
  }

  lemma EquipmentAppend(a: seq<Inventory>, b: seq<Inventory>)
    ensures EquipmentRule(a) && EquipmentRule(b) ==> EquipmentRule(a + b)
    ensures NoEquipment(a) && NoEquipment(b) ==> NoEquipment(a + b)
  {
  }

  /**
    What a successful loop over `es` promises: every object yields, the
    inventories listed are the ones the recognised objects yield, in order, and
    `after` is `totals` with every object's routed stacks merged in order.
   */
  predicate Scanned(es: seq<Tag>, totals: Totals, live: bool, invs: seq<Inventory>, after: Totals) {
    && AllYield(es, live)
    && Lists(invs, RecognizedObjects(es), live)
    && after == MergeAll(totals, Routed(es, live))
    && (forall i :: 0 <= i < |es| ==> HasId(es[i]))
    && Names(invs) == RecognizedNames(es)
    && EquipmentRule(invs)
    && (!live ==> NoEquipment(invs))
  }

  /**
    What a failed loop over `es` promises: the failure is the first failing
    object's, and `after` holds the earlier objects' routed stacks plus
    whatever the failing object merged before it failed.
   */
  predicate ScanFailed(es: seq<Tag>, totals: Totals, live: bool, err: Fault, after: Totals) {
    exists i :: 0 <= i < |es| && FirstFailure(es, live, i)
      && err == Yield(es[i], live).error
      && after == ObjectInventory(es[i], MergeAll(totals, Routed(es[..i], live)), live).totals
  }

  /** A failure stops the loop, so a failed loop is never one where every object yields. */
  lemma FailedNotAllYield(es: seq<Tag>, totals: Totals, live: bool, err: Fault, after: Totals)
    requires ScanFailed(es, totals, live, err, after)
    ensures !AllYield(es, live)
  {
  }

  /** Listing extends by one object at the front. */
  lemma ListsCons(es: seq<Tag>, o: Option<Inventory>, invs: seq<Inventory>, live: bool)
    requires |es| > 0 && Yield(es[0], live) == Success(o) && (o.Some? <==> Recognized(es[0]))
    requires Lists(invs, RecognizedObjects(es[1..]), live)
    ensures Lists(AsSeq(o) + invs, RecognizedObjects(es), live)
  {
    var objs := RecognizedObjects(es);
    var all := AsSeq(o) + invs;
    if Recognized(es[0]) {
      assert objs[0] == es[0] && objs[1..] == RecognizedObjects(es[1..]);
      assert all[0] == o.value && all[1..] == invs;
    } else {
      assert objs == RecognizedObjects(es[1..]) && all == invs;
    }
  }

  /** Every object yields once the first does and the rest all do. */
  lemma AllYieldCons(es: seq<Tag>, live: bool)
    requires |es| > 0 && Yield(es[0], live).Success? && AllYield(es[1..], live)
    ensures AllYield(es, live)
  {
    forall i | 0 <= i < |es|
      ensures Yield(es[i], live).Success?
    {
      if i > 0 {
        assert es[i] == es[1..][i - 1];
      }
    }
  }

  /** The routed stacks of a loop are the first object's followed by the rest's. */
  lemma RoutedCons(es: seq<Tag>, totals: Totals, mid: Totals, after: Totals, live: bool)
    requires |es| > 0 && mid == MergeAll(totals, RoutedStacks(es[0], live))
    requires after == MergeAll(mid, Routed(es[1..], live))
    ensures after == MergeAll(totals, Routed(es, live))
  {
    MergeAllConcat(totals, RoutedStacks(es[0], live), Routed(es[1..], live));
  }

  /** Names and equipment facts extend by one object at the front. */
  lemma NamesCons(es: seq<Tag>, o: Option<Inventory>, invs: seq<Inventory>, live: bool)
    requires |es| > 0 && HasId(es[0]) && (forall i :: 0 <= i < |es[1..]| ==> HasId(es[1..][i]))
    requires Names(AsSeq(o)) == (if Recognized(es[0]) then [es[0].fields["id"].s] else [])
    requires Names(invs) == RecognizedNames(es[1..])
    requires EquipmentRule(AsSeq(o)) && EquipmentRule(invs)
    requires !live ==> NoEquipment(AsSeq(o)) && NoEquipment(invs)
    ensures forall i :: 0 <= i < |es| ==> HasId(es[i])
    ensures Names(AsSeq(o) + invs) == RecognizedNames(es)
    ensures EquipmentRule(AsSeq(o) + invs)
    ensures !live ==> NoEquipment(AsSeq(o) + invs)
  {
    assert forall i :: 0 < i < |es| ==> es[i] == es[1..][i - 1];
    NamesAppend(AsSeq(o), invs);
    EquipmentAppend(AsSeq(o), invs);
  }

  /** The loop's success promise extends by one object at the front. */
  lemma ScannedCons(es: seq<Tag>, totals: Totals, live: bool, o: Option<Inventory>, mid: Totals,
                    invs: seq<Inventory>, after: Totals)
    requires |es| > 0
    requires ObjectInventory(es[0], totals, live) == WithTotals(Success(o), mid)
    requires Scanned(es[1..], mid, live, invs, after)
    ensures Scanned(es, totals, live, AsSeq(o) + invs, after)
  {
    ObjectIgnoresTotals(es[0], totals, live);
    ListsCons(es, o, invs, live);
    AllYieldCons(es, live);
    RoutedCons(es, totals, mid, after, live);
    NamesCons(es, o, invs, live);
  }

  /** A failure of the first object fails the loop there. */
  lemma ScanFailedHead(es: seq<Tag>, totals: Totals, live: bool, err: Fault, after: Totals)
    requires |es| > 0
    requires ObjectInventory(es[0], totals, live) == WithTotals(Failure(err), after)
    ensures ScanFailed(es, totals, live, err, after)
  {
    ObjectIgnoresTotals(es[0], totals, live);
    assert FirstFailure(es, live, 0);
    assert es[..0] == [];
  }

  /** A failure first met at object `i` past the first object is met at `i + 1` counting the first. */
  lemma FailureShift(es: seq<Tag>, live: bool, i: int)
    requires |es| > 0 && Yield(es[0], live).Success?
    requires 0 <= i < |es[1..]| && FirstFailure(es[1..], live, i)
    ensures FirstFailure(es, live, i + 1) && es[i + 1] == es[1..][i]
  {
    forall j | 0 <= j < i + 1
      ensures Yield(es[j], live).Success?
    {
      if j > 0 {
        assert es[j] == es[1..][j - 1];
      }
    }
  }

  /** The routed stacks of the first `i + 1` objects are the first object's followed by the next `i`. */
  lemma RoutedPrefixShift(es: seq<Tag>, totals: Totals, mid: Totals, live: bool, i: int)
    requires |es| > 0 && mid == MergeAll(totals, RoutedStacks(es[0], live))
    requires 0 <= i < |es[1..]|
    ensures MergeAll(totals, Routed(es[..i + 1], live)) == MergeAll(mid, Routed(es[1..][..i], live))
  {
    var pre := es[..i + 1];
    assert pre[0] == es[0] && pre[1..] == es[1..][..i];
    MergeAllConcat(totals, RoutedStacks(es[0], live), Routed(es[1..][..i], live));
  }

  /** A failure met past the first object fails the loop there, once that object's stacks are merged. */
  lemma ScanFailedCons(es: seq<Tag>, totals: Totals, live: bool, o: Option<Inventory>, mid: Totals,
                       err: Fault, after: Totals)
    requires |es| > 0
    requires ObjectInventory(es[0], totals, live) == WithTotals(Success(o), mid)
    requires ScanFailed(es[1..], mid, live, err, after)
    ensures ScanFailed(es, totals, live, err, after)
  {
    ObjectIgnoresTotals(es[0], totals, live);
    var i :| 0 <= i < |es[1..]| && FirstFailure(es[1..], live, i)
      && err == Yield(es[1..][i], live).error
      && after == ObjectInventory(es[1..][i], MergeAll(mid, Routed(es[1..][..i], live)), live).totals;
    FailureShift(es, live, i);
    RoutedPrefixShift(es, totals, mid, live, i);
    assert 0 <= i + 1 < |es| && FirstFailure(es, live, i + 1)
      && err == Yield(es[i + 1], live).error
      && after == ObjectInventory(es[i + 1], MergeAll(totals, Routed(es[..i + 1], live)), live).totals;
  }

  /**
    One of the two loops of `inventories_per_chunk`: the live entities when
    `live` holds, the tile entities otherwise. The first failure ends the loop.
    It succeeds exactly when every object yields (`Scanned`); otherwise it
    fails at the first failing object (`ScanFailed`).
   */
  function Scan(es: seq<Tag>, totals: Totals, live: bool): (r: WithTotals<seq<Inventory>>)
    ensures r.result.Success? <==> AllYield(es, live)
    ensures r.result.Success? ==> Scanned(es, totals, live, r.result.value, r.totals)
    ensures r.result.Failure? ==> ScanFailed(es, totals, live, r.result.error, r.totals)
    ensures Unrecognized(es) ==> r == WithTotals(Success([]), totals)
    decreases |es|
  {
    if es == [] then WithTotals(Success([]), totals)
    else
      var head := ObjectInventory(es[0], totals, live);
      match head.result
      case Failure(err) =>
        ScanFailedHead(es, totals, live, err, head.totals);
        FailedNotAllYield(es, totals, live, err, head.totals);
        WithTotals(Failure(err), head.totals)
      case Success(o) =>
        var rest := Scan(es[1..], head.totals, live);
        match rest.result
        case Failure(err) =>
          ScanFailedCons(es, totals, live, o, head.totals, err, rest.totals);
          FailedNotAllYield(es, totals, live, err, rest.totals);
          rest
        case Success(invs) =>
          UnrecognizedCons(es);
          ScannedCons(es, totals, live, o, head.totals, invs, rest.totals);
          WithTotals(Success(AsSeq(o) + invs), rest.totals)
  }

  /** The chunk has the two object lists. */
  predicate ChunkShaped(chunk: map<string, Tag>) {
    "Entities" in chunk && chunk["Entities"].TList? && "TileEntities" in chunk && chunk["TileEntities"].TList?
  }

  /** The stacks a chunk sends to the totals: the live entities' routed stacks, then the tile entities'. */
  function ChunkStacks(chunk: map<string, Tag>): seq<Item>
    requires ChunkShaped(chunk)
  {
    Routed(chunk["Entities"].elems, true) + Routed(chunk["TileEntities"].elems, false)
  }

  /**
    What a successful chunk promises: the inventories the recognised live
    entities yield, in order, then those the recognised tile entities yield;
    their names are the recognised ids in that order; only the live part
    carries equipment; and `after` is `totals` with the chunk's routed stacks
    merged in order.
   */
  predicate ChunkRead(chunk: map<string, Tag>, totals: Totals, invs: seq<Inventory>, after: Totals)
    requires ChunkShaped(chunk)
  {
    var live := RecognizedObjects(chunk["Entities"].elems);
    var tiles := RecognizedObjects(chunk["TileEntities"].elems);
    && |invs| == |live| + |tiles|
    && Lists(invs[..|live|], live, true)
    && Lists(invs[|live|..], tiles, false)
    && after == MergeAll(totals, ChunkStacks(chunk))
    && Names(invs) == RecognizedNames(chunk["Entities"].elems) + RecognizedNames(chunk["TileEntities"].elems)
    && EquipmentRule(invs)
    && NoEquipment(invs[|live|..])
  }

  /** Two successful loops make a successful chunk. */
  lemma ChunkReadFromScans(chunk: map<string, Tag>, totals: Totals, a: seq<Inventory>, mid: Totals,
                           b: seq<Inventory>, after: Totals)
    requires ChunkShaped(chunk)
    requires Scanned(chunk["Entities"].elems, totals, true, a, mid)
    requires Scanned(chunk["TileEntities"].elems, mid, false, b, after)
    ensures ChunkRead(chunk, totals, a + b, after)
  {
    var all := a + b;
    NamesAppend(a, b);
    EquipmentAppend(a, b);
    assert all[..|a|] == a && all[|a|..] == b;
    MergeAllConcat(totals, Routed(chunk["Entities"].elems, true), Routed(chunk["TileEntities"].elems, false));
  }

  /**
    `inventories_per_chunk`: the recognised live entities' inventories in
    collection order, followed by the recognised tile entities' inventories in
    collection order. Only tile entities lose their equipment. It succeeds
    exactly when both lists are present and every object in them yields, and
    then the totals hold the chunk's routed stacks merged in order.
   */
  function InventoriesPerChunk(chunk: map<string, Tag>, totals: Totals): (r: WithTotals<seq<Inventory>>)
    ensures "Entities" !in chunk ==> r == WithTotals(Failure(KeyMissing("Entities")), totals)
    ensures r.result.Success? <==>
      && ChunkShaped(chunk)
      && AllYield(chunk["Entities"].elems, true)
      && AllYield(chunk["TileEntities"].elems, false)
    ensures r.result.Success? ==> ChunkShaped(chunk) && ChunkRead(chunk, totals, r.result.value, r.totals)
    ensures
      && ChunkShaped(chunk)
      && Unrecognized(chunk["Entities"].elems) && Unrecognized(chunk["TileEntities"].elems)
      ==> r == WithTotals(Success([]), totals)
  {
    if "Entities" !in chunk then WithTotals(Failure(KeyMissing("Entities")), totals)
    else if !chunk["Entities"].TList? then WithTotals(Failure(WrongShape), totals)
    else
      var a := Scan(chunk["Entities"].elems, totals, true);
      if a.result.Failure? then a
      else if "TileEntities" !in chunk then WithTotals(Failure(KeyMissing("TileEntities")), a.totals)
      else if !chunk["TileEntities"].TList? then WithTotals(Failure(WrongShape), a.totals)
      else
        var b := Scan(chunk["TileEntities"].elems, a.totals, false);
        if b.result.Failure? then b
        else
          ChunkReadFromScans(chunk, totals, a.result.value, a.totals, b.result.value, b.totals);
          WithTotals(Success(a.result.value + b.result.value), b.totals)
  }

  /** Conservation for a chunk: the totals grow by exactly the counts of the chunk's routed stacks. */
  lemma ChunkConserves(chunk: map<string, Tag>, totals: Totals)
    ensures
      var r := InventoriesPerChunk(chunk, totals);
      r.result.Success? ==> ChunkShaped(chunk) && Total(r.totals) == Total(totals) + CountSum(ChunkStacks(chunk))
  {
    if InventoriesPerChunk(chunk, totals).result.Success? {
      MergeAllConserves(totals, ChunkStacks(chunk));
    }
  }

  /** Per kind: each kind's count grows by the counts of the chunk's routed stacks of that kind. */
  lemma ChunkTallies(chunk: map<string, Tag>, totals: Totals, k: Kind)
    ensures
      var r := InventoriesPerChunk(chunk, totals);
      r.result.Success? ==> ChunkShaped(chunk) && KindCount(r.totals, k) == KindCount(totals, k) + KindSum(ChunkStacks(chunk), k)
  {
    if InventoriesPerChunk(chunk, totals).result.Success? {
      MergeAllTallies(totals, ChunkStacks(chunk), k);
    }
  }
}
