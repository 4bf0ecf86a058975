/**
  The stack extractor `items_from_nbt`: item-tag nodes become item stacks, and
  each stack is merged into the world totals as soon as it is built. A node
  that cannot be read stops the extraction, and the totals then stand as the
  earlier nodes left them.
 */
module Extractor {
  import opened Wrappers
  import opened Tags
  import opened Records
  import opened WorldTotals

  /** A result paired with the world totals as they stand after computing it. */
  datatype WithTotals<T> = WithTotals(result: Result<T, Fault>, totals: Totals)

  /** The tag at `tag.display.Lore[0]`; a failure names the first access that failed. */
  function LoreTag(node: Tag): Result<Tag, Fault> {
    var tag :- Get(node, "tag");
    var display :- Get(tag, "display");
    var lines :- Get(display, "Lore");
    At(lines, 0)
  }

  /** The fields `tag` and `display` are compounds, and `display` has a `Lore` field. */
  predicate LorePresent(fields: map<string, Tag>) {
    && "tag" in fields && fields["tag"].TCompound?
    && "display" in fields["tag"].fields && fields["tag"].fields["display"].TCompound?
    && "Lore" in fields["tag"].fields["display"].fields
  }

  /** The lore path ends in the string `s`. */
  predicate LoreIs(fields: map<string, Tag>, s: string) {
    && LorePresent(fields)
    && var lines := fields["tag"].fields["display"].fields["Lore"];
    && lines.TList? && |lines.elems| > 0 && lines.elems[0] == TStr(s)
  }

  /**
    The lore of an item node: the first lore line, or the empty string when
    any field on the path is absent. Any other failure on the path (an empty
    lore list, a path step that is not a compound) is passed on.
   */
  function LoreOf(fields: map<string, Tag>): (r: Result<string, Fault>)
    ensures "tag" !in fields ==> r == Success("")
    ensures "tag" in fields && !fields["tag"].TCompound? ==> r == Failure(WrongShape)
    ensures "tag" in fields && fields["tag"].TCompound? ==>
      var tag := fields["tag"].fields;
      && ("display" !in tag ==> r == Success(""))
      && ("display" in tag && !tag["display"].TCompound? ==> r == Failure(WrongShape))
      && ("display" in tag && tag["display"].TCompound? && "Lore" !in tag["display"].fields ==> r == Success(""))
    ensures LorePresent(fields) ==>
      var lines := fields["tag"].fields["display"].fields["Lore"];
      && (!lines.TList? ==> r == Failure(WrongShape))
      && (lines.TList? && lines.elems == [] ==> r == Failure(OutOfRange))
      && (lines.TList? && lines.elems != [] && !lines.elems[0].TStr? ==> r == Failure(WrongKind))
      && (lines.TList? && lines.elems != [] && lines.elems[0].TStr? ==> r == Success(lines.elems[0].s))
    ensures forall s :: LoreIs(fields, s) ==> r == Success(s)
    ensures r.Success? ==> r.value == "" || LoreIs(fields, r.value)
    ensures r.Failure? ==> !r.error.KeyMissing?
  {
    match LoreTag(TCompound(fields))
    case Failure(KeyMissing(_)) => Success("")
    case Failure(e) => Failure(e)
    case Success(TStr(s)) => Success(s)
    case Success(_) => Failure(WrongKind)
  }

  /** The node has the three fields a stack cannot do without. */
  predicate HasStackFields(f: map<string, Tag>) {
    "id" in f && "Count" in f && "Damage" in f
  }

  /**
    One item node to one stack. `id`, `Count` and `Damage` are looked up in
    that order and a missing one is a `KeyMissing` failure; a missing `Slot`
    gives `Unset`; the lore follows `LoreOf`. Only then are the values used:
    the id must be a string and the count an integer.
   */
  function DecodeItem(node: Tag): (r: Result<Item, Fault>)
    ensures !node.TCompound? ==> r == Failure(WrongShape)
    ensures node.TCompound? ==>
      (r.Failure? && r.error.KeyMissing? <==> !HasStackFields(node.fields))
    ensures node.TCompound? && !HasStackFields(node.fields) ==>
      r == Failure(KeyMissing(if "id" !in node.fields then "id" else if "Count" !in node.fields then "Count" else "Damage"))
    ensures node.TCompound? && HasStackFields(node.fields) ==>
      var f := node.fields;
      && (LoreOf(f).Failure? ==> r == Failure(LoreOf(f).error))
      && (LoreOf(f).Success? && !(f["id"].TStr? && f["Count"].TInt?) ==> r == Failure(WrongKind))
      && (LoreOf(f).Success? && f["id"].TStr? && f["Count"].TInt? ==> r.Success?)
    ensures r.Success? ==>
      && node.TCompound?
      && var f := node.fields;
      && "id" in f && f["id"] == TStr(r.value.fullName)
      && "Count" in f && f["Count"] == TInt(r.value.count)
      && "Damage" in f && f["Damage"] == r.value.damage
      && r.value.slot == (if "Slot" in f then SlotValue(f["Slot"]) else Unset)
      && LoreOf(f) == Success(r.value.lore)
  {
    var id :- Get(node, "id");
    var count :- Get(node, "Count");
    var damage :- Get(node, "Damage");
    var slot := if "Slot" in node.fields then SlotValue(node.fields["Slot"]) else Unset;
    var lore :- LoreOf(node.fields);
    if id.TStr? && count.TInt? then Success(Item(id.s, slot, count.i, damage, lore))
    else Failure(WrongKind)
  }

  /**
    Reference reading of a node list, independent of the totals: the stacks of
    the longest prefix of nodes that all decode.
   */
  function DecodePrefix(nodes: seq<Tag>): (p: seq<Item>)
    ensures |p| <= |nodes|
    ensures forall i :: 0 <= i < |p| ==> DecodeItem(nodes[i]) == Success(p[i])
    ensures |p| < |nodes| ==> DecodeItem(nodes[|p|]).Failure?
  {
    if nodes == [] then []
    else
      match DecodeItem(nodes[0])
      case Failure(_) => []
      case Success(x) => [x] + DecodePrefix(nodes[1..])
  }

  /**
    The extraction loop: decode each node, append its stack and merge it into
    the totals, stopping at the first node that fails.
   */
  function ExtractAll(nodes: seq<Tag>, totals: Totals): (r: WithTotals<seq<Item>>)
    ensures r.totals == MergeAll(totals, DecodePrefix(nodes))
    ensures r.result.Success? <==> |DecodePrefix(nodes)| == |nodes|
    ensures r.result.Success? ==> r.result.value == DecodePrefix(nodes)
    ensures r.result.Failure? ==> r.result.error == DecodeItem(nodes[|DecodePrefix(nodes)|]).error
    decreases |nodes|
  {
    if nodes == [] then WithTotals(Success([]), totals)
    else
      match DecodeItem(nodes[0])
      case Failure(e) => WithTotals(Failure(e), totals)
      case Success(x) =>
        var rest := ExtractAll(nodes[1..], UpdateWorldTotals(totals, x));
        MergeAllAppendOne(totals, x, DecodePrefix(nodes[1..]));
        match rest.result
        case Success(xs) => WithTotals(Success([x] + xs), rest.totals)
        case Failure(e) => rest
  }

  /** `items_from_nbt` applied to one tag, which must be a list. */
  function ItemsFromNbt(list: Tag, totals: Totals): (r: WithTotals<seq<Item>>)
    ensures !list.TList? ==> r == WithTotals(Failure(WrongShape), totals)
    ensures list.TList? ==>
      && r.totals == MergeAll(totals, DecodePrefix(list.elems))
      && (r.result.Success? <==> forall i :: 0 <= i < |list.elems| ==> DecodeItem(list.elems[i]).Success?)
      && (r.result.Success? ==> r.result.value == DecodePrefix(list.elems))
  {
    if list.TList? then ExtractAll(list.elems, totals) else WithTotals(Failure(WrongShape), totals)
  }

  /**
    Extraction from the field `key` of an object, with a missing key anywhere
    read as an empty inventory: an absent field, or a node lacking `id`,
    `Count` or `Damage`. In the second case the nodes before the bad one have
    already been merged into the totals although the inventory is empty.
   */
  function ItemsOrEmpty(fields: map<string, Tag>, key: string, totals: Totals): (r: WithTotals<seq<Item>>)
    ensures key !in fields ==> r == WithTotals(Success([]), totals)
    ensures key in fields && !fields[key].TList? ==> r == WithTotals(Failure(WrongShape), totals)
    ensures key in fields && fields[key].TList? ==>
      var nodes := fields[key].elems;
      var p := DecodePrefix(nodes);
      && r.totals == MergeAll(totals, p)
      && (|p| == |nodes| ==> r.result == Success(p))
      && (|p| < |nodes| && DecodeItem(nodes[|p|]).error.KeyMissing? ==> r.result == Success([]))
      && (|p| < |nodes| && !DecodeItem(nodes[|p|]).error.KeyMissing? ==>
            r.result == Failure(DecodeItem(nodes[|p|]).error))
  {
    if key !in fields then WithTotals(Success([]), totals)
    else
      var ex := ItemsFromNbt(fields[key], totals);
      match ex.result
      case Failure(KeyMissing(_)) => WithTotals(Success([]), ex.totals)
      case _ => ex
  }

  /** The stacks read from a field, and whether the read fails, do not depend on the totals. */
  lemma ItemsOrEmptyIgnoresTotals(fields: map<string, Tag>, key: string, t: Totals, u: Totals)
    ensures ItemsOrEmpty(fields, key, t).result == ItemsOrEmpty(fields, key, u).result
  {
  }

  /** Conservation for one extraction: the totals grow by the counts of the stacks decoded. */
  lemma ExtractAllConserves(nodes: seq<Tag>, totals: Totals)
    ensures Total(ExtractAll(nodes, totals).totals) == Total(totals) + CountSum(DecodePrefix(nodes))
    ensures ExtractAll(nodes, totals).result.Success? ==>
      Total(ExtractAll(nodes, totals).totals) == Total(totals) + CountSum(ExtractAll(nodes, totals).result.value)
  {
    MergeAllConserves(totals, DecodePrefix(nodes));
  }

  /** When every node decodes, the decodable prefix is the whole list. */
  lemma DecodePrefixWhole(nodes: seq<Tag>)
    requires forall i :: 0 <= i < |nodes| ==> DecodeItem(nodes[i]).Success?
    ensures DecodePrefix(nodes) == seq(|nodes|, i requires 0 <= i < |nodes| => DecodeItem(nodes[i]).value)
  {
  }

  /**
    On a list whose nodes all decode, extraction returns one stack per node in
    input order, and every node's count reaches the totals.
   */
  lemma ExtractWellFormed(nodes: seq<Tag>, totals: Totals)
    requires forall i :: 0 <= i < |nodes| ==> DecodeItem(nodes[i]).Success?
    ensures
      var r := ExtractAll(nodes, totals);
      && r.result.Success?
      && |r.result.value| == |nodes|
      && (forall i :: 0 <= i < |nodes| ==> DecodeItem(nodes[i]) == Success(r.result.value[i]))
      && Total(r.totals) == Total(totals) + CountSum(r.result.value)
  {
    DecodePrefixWhole(nodes);
    ExtractAllConserves(nodes, totals);
  }
}
