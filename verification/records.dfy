/**
  The record classes of inv_analysis.py: item stacks, positions and
  inventories, the namespace stripping both use, and the identity test that
  decides whether two stacks are the same kind.
 */
module Records {
  import opened Wrappers
  import opened Tags

  /** The namespace prefix carried by every identity name in the world data. */
  const Namespace: string := "minecraft:"

  /**
    The common name of an identity: the full name with one leading namespace
    prefix removed, or the full name itself when it has no such prefix.
   */
  function StripNamespace(fullName: string): (r: string)
    ensures Namespace <= fullName ==> Namespace + r == fullName
    ensures !(Namespace <= fullName) ==> r == fullName
    ensures |r| <= |fullName|
  {
    if Namespace <= fullName then fullName[|Namespace|..] else fullName
  }

  /** Stripping undoes prefixing: every common name comes back unchanged. */
  lemma StripAddsBack(name: string)
    ensures StripNamespace(Namespace + name) == name
    ensures Namespace <= name ==> StripNamespace(name) != name
  {
  }

  /**
    The slot of a stack: `Unaddressed` for world-total buckets (the program's
    `None`), `Unset` for a stack whose node carried no slot field (the
    program's empty string), and the raw slot value otherwise.
   */
  datatype Slot = Unaddressed | Unset | SlotValue(v: Tag)

  /** One item stack. `count` is the only part the world totals ever change. */
  datatype Item = Item(fullName: string, slot: Slot, count: int, damage: Tag, lore: string) {
    function CommonName(): string {
      StripNamespace(fullName)
    }
  }

  /** What two stacks of the same kind share. */
  datatype Kind = Kind(fullName: string, damage: Tag, lore: string)

  function KindOf(a: Item): Kind {
    Kind(a.fullName, a.damage, a.lore)
  }

  /** The identity test `equals`: full name, damage and lore all match exactly. */
  predicate SameKind(a: Item, b: Item) {
    a.fullName == b.fullName && a.damage == b.damage && a.lore == b.lore
  }

  /** Two stacks are the same kind exactly when their kinds coincide. */
  lemma SameKindIffSameKindOf(a: Item, b: Item)
    ensures SameKind(a, b) <==> KindOf(a) == KindOf(b)
  {
  }

  /** `SameKind` is an equivalence: reflexive, symmetric and transitive. */
  lemma SameKindIsEquivalence(a: Item, b: Item, c: Item)
    ensures SameKind(a, a)
    ensures SameKind(a, b) <==> SameKind(b, a)
    ensures SameKind(a, b) && SameKind(b, c) ==> SameKind(a, c)
  {
  }

  /** `SameKind` looks at neither the slot nor the count of either stack. */
  lemma SameKindIgnoresSlotAndCount(a: Item, b: Item, s: Slot, n: int)
    ensures SameKind(a.(slot := s, count := n), b) <==> SameKind(a, b)
    ensures SameKind(a, b.(slot := s, count := n)) <==> SameKind(a, b)
  {
  }

  /** A position: three opaque coordinate values. */
  datatype Position = Position(x: Tag, y: Tag, z: Tag)

  /** The first three elements of a list tag, each read as an opaque coordinate. */
  function ReadPosition(t: Tag): (r: Result<Position, Fault>)
    ensures r.Success? <==> t.TList? && |t.elems| >= 3
    ensures r.Success? ==> r.value == Position(t.elems[0], t.elems[1], t.elems[2])
    ensures t.TList? && |t.elems| < 3 ==> r == Failure(OutOfRange)
  {
    var x :- At(t, 0);
    var y :- At(t, 1);
    var z :- At(t, 2);
    Success(Position(x, y, z))
  }

  /** The position used for a player save without position data. */
  const Origin: Position := Position(TInt(0), TInt(0), TInt(0))

  /** A raw equipment triple (the id, count and damage tags of an equipment tag). */
  datatype Equipment = Equipment(id: Tag, count: Tag, damage: Tag)

  /** One inventory-bearing object and what it holds. */
  datatype Inventory = Inventory(
    fullName: string,
    pos: Position,
    items: seq<Item>,
    saddle: Option<Equipment>,
    armor: Option<Equipment>)
  {
    function CommonName(): string {
      StripNamespace(fullName)
    }
  }
}
