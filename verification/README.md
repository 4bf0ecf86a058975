# World inventory analysis: traversal and aggregation engine

This project models the core of `inv_analysis.py`, a script that scans a
Minecraft world for every inventory-bearing object and counts all the item
stacks in the world. The model covers:

- the item and inventory records, with their namespace stripping
  (`minecraft:stone` has the common name `stone`);
- the identity test `equals` that decides whether two stacks are the same kind;
- the world totals `update_world_totals`: a list of buckets with one bucket per
  kind, merged into by linear search and kept in first-inserted order;
- the stack extractor `items_from_nbt`, which turns item-tag nodes into stacks
  and merges each stack into the totals as it goes;
- the container locator `inventories_per_chunk`, with its per-kind routing of
  the item field and its horse/mule equipment capture;
- the player filter `player_inv`, which reads only saves marked with
  `bukkit.lastPlayed`.

The decoded tag tree is a datatype (`Tags.Tag`): strings, integers, reals,
lists and compounds of named fields. Python's exceptions become
`Result` values. `KeyError` is `KeyMissing`, `IndexError` is `OutOfRange`,
access of the wrong shape is `WrongShape`, and an unusable value is
`WrongKind`. Only `KeyMissing` is ever caught, and only where the program
catches `KeyError`. The global `world_inv` list becomes a value threaded through
every operation. Each operation returns `WithTotals(result, totals)`, so a
failure still reports the totals as the earlier merges left them. This matters
because an item list that fails half-way has already merged its first stacks.

Modules follow the program's structure: `Wrappers` and `Tags` (tags.dfy),
`Records` (the `Position`, `Item` and `Inventory` classes), `WorldTotals`,
`Extractor`, `Locator`, `Player`, and `Scenarios` (small worked worlds).

Behaviours of `inv_analysis.py` that the model keeps as written:

- Stacks are merged only when full name, damage and lore are all equal
  (line 53). No kind of item has its damage ignored, so two iron swords with
  different damage stay in two buckets (`Scenarios.SwordsKeepTwoBuckets`).
- Horse armor and saddles are kept as raw `(id, Count, Damage)` tag triples
  (lines 159-173). They are never turned into stacks and never merged into
  the totals (`Scenarios.HorseKeepsEquipment`).
- A node missing `id`, `Count` or `Damage` raises `KeyError` out of
  `items_from_nbt`, and the caller's `except KeyError` reads the whole
  inventory as empty (lines 148-156 and 185-188). Stacks merged before the bad
  node stay in the totals (`Scenarios.PartialFailureCountsEarlierNodes`).
- A missing `Slot` gives the empty string (line 91), modelled as
  `Records.Slot.Unset`. Only world-total buckets have the slot `None`
  (line 75), modelled as `Unaddressed`.
- Tile entities are matched against both the container names and the mob
  names (line 180).
- An `id` that is not a string makes `startswith` raise (line 43), and the
  model reports `WrongKind`.

What an object yields (`Locator.Yield`) does not depend on the totals, so the
two loops of `inventories_per_chunk` are described by two reference
definitions: the inventories the recognised objects yield, in order
(`Locator.Lists`), and the stacks each object sends to the totals
(`Locator.RoutedStacks`: the decodable prefix of the nodes in the field its
kind is routed to). `Locator.Scanned`, `Locator.ScanFailed` and
`Locator.ChunkRead` collect what a successful loop, a failed loop and a
successful chunk promise in those terms.

## Model

| member | source | states |
|---|---|---|
| Records.StripNamespace | inv_analysis.py:43-46 | the common name is the full name with one leading `minecraft:` removed when present (prefix + common name = full name), and the full name unchanged otherwise |
| Records.StripAddsBack | inv_analysis.py:61-64 | stripping undoes prefixing for any name, and it changes every name that carries the prefix; the same rule gives inventory names |
| Records.SameKindIffSameKindOf | inv_analysis.py:52-53 | two stacks are equal exactly when their (full name, damage, lore) triples coincide |
| Records.SameKindIsEquivalence | inv_analysis.py:52-53 | `equals` is reflexive, symmetric and transitive |
| Records.SameKindIgnoresSlotAndCount | inv_analysis.py:52-53 | changing the slot or the count of either stack never changes `equals` |
| Records.ReadPosition | inv_analysis.py:140-143 | a position is read from the first three elements of a list; a shorter list is an index failure |
| WorldTotals.FindBucket | inv_analysis.py:71-74 | the search returns the first bucket equal to the new stack, or reports that none is |
| WorldTotals.UpdateWorldTotals | inv_analysis.py:70-75 | with no equal bucket, exactly one slot-less bucket is appended at the end; otherwise only the first equal bucket's count grows by the stack's count and every other bucket is unchanged |
| WorldTotals.UpdateConserves | inv_analysis.py:70-75 | one merge grows the sum of all bucket counts by exactly the merged count |
| WorldTotals.UpdateTallies | inv_analysis.py:70-75 | one merge grows the count of the merged stack's kind by its count and leaves every other kind's count alone |
| WorldTotals.UpdateKeepsDistinct | inv_analysis.py:70-75 | if no two buckets are equal before a merge, none are after; existing buckets keep their positions and kinds, and a bucket of the merged kind exists |
| WorldTotals.MergeAllConserves | inv_analysis.py:70-75 | merging a sequence grows the total by the sum of its counts |
| WorldTotals.MergeAllTallies | inv_analysis.py:70-75 | merging a sequence grows each kind's count by the counts of the merged stacks of that kind |
| WorldTotals.MergeAllConcat | inv_analysis.py:70-75 | merging two batches one after the other gives the same totals as merging their concatenation |
| WorldTotals.MergeAllKeepsDistinct | inv_analysis.py:70-75 | merging a sequence preserves distinct buckets and first-inserted order |
| WorldTotals.MergeIntoOneBucket | inv_analysis.py:71-74 | stacks all equal to the one existing bucket only grow that bucket, by their summed counts |
| WorldTotals.MergeSameKindFromEmpty | inv_analysis.py:70-75 | from empty totals, N equal stacks make exactly one bucket holding the sum of their counts |
| Extractor.LoreOf | inv_analysis.py:93-96 | the lore is the first `tag.display.Lore` string; an absent `tag`, `display` or `Lore` gives `""`; a path step of the wrong shape is a shape failure, an empty lore list an index failure, a first line that is not a string `WrongKind`; a missing key is never passed on |
| Extractor.DecodeItem | inv_analysis.py:84-98 | a node that is not a compound is a shape failure; a missing `id`, `Count` or `Damage` fails naming the first one missing, and only then; with all three present a lore failure is passed on, then an id that is not a string or a count that is not an integer is `WrongKind`, and otherwise the node decodes to a stack carrying those values, the slot or `Unset`, and the lore |
| Extractor.DecodePrefix | inv_analysis.py:83-99 | the stacks of the longest prefix of nodes that decode, each decoded from its own node, and the next node fails |
| Extractor.ExtractAll | inv_analysis.py:82-101 | succeeds exactly when every node decodes, then returns one stack per node in input order; the totals always equal the start totals with the decoded prefix merged in order; a failure is the first bad node's |
| Extractor.ItemsFromNbt | inv_analysis.py:77-101 | on a list tag, succeeds exactly when every node decodes and then returns the decoded stacks; the totals always hold the decodable prefix merged in order; a tag that is not a list is a shape failure with untouched totals |
| Extractor.ItemsOrEmpty | inv_analysis.py:148-156 | an absent field gives no stacks and untouched totals; a missing key in a node gives no stacks but keeps the earlier merges; other failures pass on |
| Extractor.ExtractAllConserves | inv_analysis.py:98-100 | the totals grow by exactly the counts of the stacks decoded, whether or not the extraction succeeds |
| Extractor.ExtractWellFormed | inv_analysis.py:77-101 | on nodes that all decode, extraction yields one stack per node in order and the totals receive every node's count |
| Extractor.ItemsOrEmptyIgnoresTotals | inv_analysis.py:77-101 | the stacks read from a field, and whether the read fails, do not depend on the world totals |
| Locator.LiveItemField | inv_analysis.py:146-156 | `Items` exactly for hopper minecarts, chest minecarts, mules and donkeys; `Inventory` for every other live entity |
| Locator.ReadEquipment | inv_analysis.py:159-173 | an absent equipment tag, or one lacking `id`, `Count` or `Damage`, gives no equipment; a compound holding all three gives exactly their raw tags; a tag that is not a compound is a shape failure |
| Locator.LiveInventory | inv_analysis.py:136-175 | no `id` fails and an unrecognised id gives nothing, both with untouched totals; a recognised entity fails on a missing or unreadable `Pos` with untouched totals; otherwise the totals are those of reading its routed field, and it succeeds exactly when that read, the armor read (horse) and the saddle read (horse or mule) succeed, giving its id, position and stacks, the armor triple exactly for a horse and the saddle triple exactly for a horse or mule |
| Locator.TileInventory | inv_analysis.py:177-190 | no `id` fails and an unrecognised id gives nothing, both with untouched totals; a recognised tile entity lacking `x`, `y` or `z` fails on the first missing one with untouched totals; otherwise the totals are those of reading `Items`, and it succeeds exactly when that read does, at those coordinates, with those stacks and no equipment |
| Locator.ObjectInventory | inv_analysis.py:136-190 | on success an object gives an inventory exactly when it is recognised, the totals are the start totals with its routed stacks merged in, and only a live entity can carry equipment |
| Locator.ObjectIgnoresTotals | inv_analysis.py:136-190 | what an object yields, inventory or failure, is the same whatever the totals |
| Locator.ListsAt | inv_analysis.py:175-190 | in a listing, the k-th inventory is the one the k-th recognised object yields |
| Locator.Scan | inv_analysis.py:136-190 | a loop succeeds exactly when every object yields; it then lists, in order, the inventory each recognised object yields, and the totals are the start totals with every object's routed stacks merged in order; a failure is the first failing object's, with the earlier objects' stacks and what that object merged in the totals; a list of only unrecognised objects leaves the totals untouched |
| Locator.InventoriesPerChunk | inv_analysis.py:126-191 | succeeds exactly when both object lists are present and every object yields; the inventories are those the recognised live entities yield, in order, followed by those of the recognised tile entities; only live horses and mules carry equipment; the totals are the start totals with the live entities' and then the tile entities' routed stacks merged in order; a chunk whose objects are all unrecognised yields nothing and leaves the totals untouched |
| Locator.ChunkConserves | inv_analysis.py:126-191 | a successful chunk grows the sum of all bucket counts by exactly the counts of its routed stacks |
| Locator.ChunkTallies | inv_analysis.py:126-191 | a successful chunk grows each kind's count by exactly the counts of its routed stacks of that kind |
| Player.PlayerInv | inv_analysis.py:103-124 | nothing, with untouched totals, exactly when `bukkit.lastPlayed` is missing; otherwise the totals are those of reading `Inventory`; a failed read is passed on, then a present `Pos` that cannot be read fails, and otherwise the result is an inventory named by the caller's id, with no equipment, the `Inventory` stacks, and `Pos` or the origin |
| Scenarios.ChestChunk | inv_analysis.py:177-190 | a chunk holding one chest with 64 stone and 16 torches gives one `chest` inventory with both stacks and totals of 64 stone and 16 torches |
| Scenarios.OneTileChunk | inv_analysis.py:177-191 | a chunk with no live entities and one recognised tile entity lists exactly that entity's inventory, with the totals its reading leaves |
| Scenarios.DonkeyReadsItems | inv_analysis.py:146-151 | a donkey's stacks come from `Items` even when it also has an `Inventory` field |
| Scenarios.HorseKeepsEquipment | inv_analysis.py:159-173 | a horse with armor and a saddle keeps both raw triples, and its equipment adds nothing to the totals |
| Scenarios.DirtKeepsTwoBuckets | inv_analysis.py:52-53 | dirt stacks with damage 0 and 1 make two buckets |
| Scenarios.SwordsKeepTwoBuckets | inv_analysis.py:52-53 | iron swords with damage 5 and 12 make two buckets |
| Scenarios.PartialFailureCountsEarlierNodes | inv_analysis.py:185-188 | a chest whose second node lacks `Count` lists no stacks, but its first stack is in the totals |
| Scenarios.UnmarkedPlayerIgnored | inv_analysis.py:105-108 | a save with a `bukkit` tag but no `lastPlayed` yields nothing and leaves the totals alone |

## Left out

- Binary decoding (`NBTFile`, `WorldFolder.iter_nbt`) is not modelled. Chunks, player saves and item nodes arrive as `Tags.Tag` values.
- The CSV writers `print_inv_contents` and `print_world_contents` are not modelled, nor the three-digit coordinate formatting. Coordinates are kept as opaque tags.
- `main` is not modelled. It covers file handling, `os.walk`, the `.dat` name filter, the interrupt handling and the command-line checks. This includes `main` passing `player_inv`'s `None` result straight to `print_inv_contents`.
- Extractor.DecodeItem: a `Count` that is not an integer tag is a `WrongKind` failure. Python would keep such a value and fail later, or not at all.
- Extractor.LoreOf: a first lore line that is not a string is a `WrongKind` failure. Python's `valuestr` would render it as text.
- Extractor.ItemsFromNbt: iterating a tag that is not a list is a `WrongShape` failure. Python's iteration of such tags depends on the tag library.
- Player.PlayerInv: a `bukkit` tag that is not a compound counts as unmarked. The library's `in` on other tag kinds is not modelled.
- Records.ReadPosition: positional access on a tag that is not a list is a `WrongShape` failure. Integer indexing into a compound is library-specific.
- Records.SameKindIffSameKindOf: damage values are compared as tags. An integer and a real of equal value differ here, though Python's `==` would equate them.
- Exceptions other than `KeyError` end the model's operations with a failure value. The process-level crash they cause in the program is part of `main`, which is not modelled.
