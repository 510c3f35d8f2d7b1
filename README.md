# Inventory of ranked items — a Dafny model

This project models the inventory of `InheritanceProblem.cpp`: items that
carry an identifier, a name, a level and a rank, and an `ItemManager` that
holds a fixed-capacity array of item pointers with a count of the slots in
use. The manager can add an item, remove an item by identifier, level up
every item with an identifier, and synthesize two items. Synthesis advances
the target one rank, renumbers it to max(target, ingredient) + 1 and removes
the ingredient.

Three modules, one file each:

- `items.dfy` (module `Items`) holds the item itself.
  - `class Item` keeps the fields the source changes in place (`id`, `level`, `rank`).
  - The four subclasses `Weapon`, `Armor`, `Ring` and `Shoe` differ only in one
    displayed integer, so they are one `Kind` tag with a payload.
  - The rank table (`NextRank`) and the saturating level step (`NextLevel`)
    are functions, with lemmas about repeated steps.
- `inventory.dfy` (module `Inventory`) states, on sequences of item states
  (`ItemValue`), what each manager operation does:
  - `RemoveFirst` for RemoveItem, `LevelUpAll` for LevelUp, and `Synthesize`
    for ItemSynthesis, including its rejection case;
  - `ScanTarget` and `ScanIngredient` for the scan inside synthesis;
  - lemmas for what these operations promise.
- `item_manager.dfy` (module `ItemManagement`) holds `class ItemManager`.
  - Its fields are an `array<Item?>`, `capacity` and `itemCount`.
  - Two ghost fields tie the array to the specification: `Elems` is the items
    in the used slots, and `Contents` is their states.
  - Every method is proved to keep the object invariant `Valid()`.
    `AddItem` appends the added item's state to `Contents`. Every other
    mutating method changes `Contents` exactly as the matching `Inventory`
    function says.
  - `Scenario` is one run of the driver, with the inputs 1 and (2, 3).

Behaviour kept from the code:

- The synthesis scan has no early exit. The target is the last item with
  the target identifier. The ingredient is the last item that has the
  ingredient identifier and does not match the target.
- Equal identifiers are therefore always rejected.
- A target whose identifier is -1 is rejected, as the source's test is.
- `LevelUp(id)` steps every matching item. `RemoveItem(id)` removes only the
  first match.

Two lemmas describe the source's renumbering:

- `Inventory.SynthesizeMayDuplicateIds` shows that max(t, i) + 1 is not
  checked against the other identifiers, so a synthesis can create a
  duplicate.
- `Inventory.SynthesizeKeepsUniqueIds` shows that unique identifiers stay
  unique whenever the new identifier is free.

## Model

| member | source | states |
|---|---|---|
| Items.Item.constructor | InheritanceProblem.cpp:13 | the new item has exactly the given identifier, name, level, rank and category payload (the subclass constructors at lines 61, 75, 89, 103 pass the payload as the `Kind`) |
| Items.Item.Default | InheritanceProblem.cpp:51-54 | a default-built item has identifier -1, name "Empty", level 0 and rank character 0 |
| Items.Item.RankUp | InheritanceProblem.cpp:21-38 | the rank becomes its successor in the table C→B→A→S, any other character (S included) becomes S; every other field is unchanged |
| Items.Item.LevelUp | InheritanceProblem.cpp:40-46 | the level rises by exactly one iff it was below 10, otherwise it is unchanged; it never falls; nothing else changes |
| Items.Item.GetId | InheritanceProblem.cpp:48 | returns the item's current identifier |
| Items.Item.SetId | InheritanceProblem.cpp:49 | the identifier becomes the argument, unchecked; nothing else changes |
| Items.RankUpStep | InheritanceProblem.cpp:21-38 | one rank step moves C, B, A one place up the order C < B < A < S, never moves a rank down, always lands in B, A or S, and sends every non-rank character to S |
| Items.RankUpsFromC | InheritanceProblem.cpp:21-38 | n rank steps from C give C, B, A, S for n = 0..3 and S for every n ≥ 3 (so four steps give S) |
| Items.RankUpsReachS | InheritanceProblem.cpp:21-38 | from any character, three or more rank steps reach S, and S is a fixed point of the step |
| Items.LevelUpStep | InheritanceProblem.cpp:40-46 | a level step adds one below 10 and nothing from 10 up; it never lowers a level and keeps a level ≤ 10 within 10 |
| Items.LevelUpsClosedForm | InheritanceProblem.cpp:40-46 | n level steps from a level below 10 give min(level + n, 10); from 10 or above they change nothing |
| Items.ElevenLevelUpsFromZero | InheritanceProblem.cpp:40-46 | eleven level steps from 0 end at 10, and a further step stays at 10 |
| Inventory.RemoveAt | InheritanceProblem.cpp:175-180 | removing slot k keeps the elements before k, moves every later element one place left in order, and shortens the sequence by one |
| Inventory.FirstWithId | InheritanceProblem.cpp:168-171 | the position found holds the identifier and no earlier position does; no position is found exactly when no element has the identifier |
| Inventory.RemoveFirstDeletesFirstMatch | InheritanceProblem.cpp:166-184 | when position k is the first with the identifier, RemoveItem's result is the sequence without position k, one shorter |
| Inventory.RemoveFirstAbsent | InheritanceProblem.cpp:166-184 | removing an identifier no item carries changes nothing |
| Inventory.RemoveFirstUnique | InheritanceProblem.cpp:166-184 | with unique identifiers, after RemoveItem no item carries the identifier, identifiers stay unique, and the length drops by one iff the identifier was present |
| Inventory.LevelUpAll | InheritanceProblem.cpp:186-195 | LevelUp(id) keeps the length and position by position applies one level step to exactly the items whose identifier is id |
| Inventory.LevelUpAllOnlyLevels | InheritanceProblem.cpp:186-195 | LevelUp(id) changes only levels, each by 0 or 1 and never down; non-matching items are unchanged; levels within 10 stay within 10; unique identifiers stay unique |
| Inventory.ScanTarget | InheritanceProblem.cpp:202-207 | the scan's target is -1 or a position holding the target identifier |
| Inventory.ScanTargetIsLast | InheritanceProblem.cpp:202-207 | the scan's target is the last position with the target identifier, and it is -1 exactly when the identifier is absent |
| Inventory.ScanIngredient | InheritanceProblem.cpp:202-213 | the scan's ingredient is -1 or a position holding the ingredient identifier, and then the two identifiers differ |
| Inventory.ScanIngredientIsLast | InheritanceProblem.cpp:202-213 | the scan's ingredient is the last position with the ingredient identifier, and it is -1 exactly when the identifiers are equal or the ingredient identifier is absent |
| Inventory.SynthesizeAcceptedIff | InheritanceProblem.cpp:202-219 | synthesis is accepted iff the two identifiers differ, the target identifier is not -1, and both identifiers occur |
| Inventory.SelfSynthesisRejected | InheritanceProblem.cpp:202-219 | synthesizing an identifier with itself is always rejected |
| Inventory.SynthesizeShape | InheritanceProblem.cpp:220-232 | an accepted synthesis is one shorter; the target is the last item with t and the ingredient the last with i, at different positions; the result is the input without the ingredient, in order, with the target replaced by its synthesized state |
| Inventory.SynthesizeUnique | InheritanceProblem.cpp:220-232 | with unique identifiers, synthesis acts on the positions holding t and i: the target gains one rank step and identifier max(t, i) + 1 in place, the ingredient is removed, and no item keeps identifier i |
| Inventory.SynthesizeKeepsUniqueIds | InheritanceProblem.cpp:223-224 | when max(t, i) + 1 is not already an identifier, an accepted synthesis keeps identifiers unique |
| Inventory.SynthesizeMayDuplicateIds | InheritanceProblem.cpp:223-224 | from the unique identifiers 1, 2, 3, synthesizing 1 with 2 leaves two items with identifier 3 |
| ItemManagement.ItemManager.constructor | InheritanceProblem.cpp:125-130 | a new manager has a fresh array of the given size, that capacity, and no items |
| ItemManagement.ItemManager.AddItem | InheritanceProblem.cpp:149-164 | below capacity the item goes into slot itemCount and the count rises by one, earlier slots untouched; when full nothing changes; the result says which; count ≤ capacity is kept |
| ItemManagement.ItemManager.RemoveSlot | InheritanceProblem.cpp:175-180 | the left-shift loop: the held items become the old ones without slot k, in order, and the count drops by one |
| ItemManagement.ItemManager.RemoveItem | InheritanceProblem.cpp:166-184 | the held items change exactly as RemoveFirst says: the first item with the identifier is removed with the later ones shifted left, or nothing changes when none matches |
| ItemManagement.ItemManager.LevelUp | InheritanceProblem.cpp:186-195 | the held items, their order and the count are unchanged; their states change exactly as LevelUpAll says |
| ItemManagement.ItemManager.LocateSynthesisPair | InheritanceProblem.cpp:199-213 | the scan loop returns exactly ScanTarget and ScanIngredient of the held items |
| ItemManagement.ItemManager.Merge | InheritanceProblem.cpp:220-232 | the target slot's item takes one rank step and identifier max(t, i) + 1 in place; the ingredient slot is removed with a left shift; nothing else changes |
| ItemManagement.ItemManager.ItemSynthesis | InheritanceProblem.cpp:197-233 | reports success exactly when Synthesize accepts; on success the held items become Synthesize's result (the scanned ingredient removed), otherwise nothing changes |
| ItemManagement.ScenarioValues | InheritanceProblem.cpp:247-282 | on the driver's three items, with the inputs 1 and (2, 3), LevelUp(1) raises the weapon to level 2, and synthesizing 2 with 3 leaves the weapon and the armor renumbered 4 at rank A |
| ItemManagement.ArmedManager | InheritanceProblem.cpp:251-259 | a fresh manager of 8 slots holds the weapon and then the first armor |
| ItemManagement.StockedManager | InheritanceProblem.cpp:251-264 | the same manager also holds the second armor, all three in insertion order |
| ItemManagement.Scenario | InheritanceProblem.cpp:247-282 | after LevelUp(1) and ItemSynthesis(2, 3) two items remain with identifiers 1 and 4, the weapon at level 2 and the merged armor at rank A |

## Left out

- `ShowInfo` (every class) and `ItemManager::Show` are left out: they only write to the console.
- The messages AddItem and ItemSynthesis print on failure become their boolean results.
- `main` reads the level-up and synthesis identifiers from standard input and prints after every step. `Scenario` picks the inputs 1 and (2, 3), one run the driver's prompts allow, and has no output.
- `delete`, `delete[]` and the destructors are not modelled. Removing an item drops it from the held items, and releasing memory has no counterpart.
- The item name and the subclass payloads (`power`, `defence`, `magic`, `speed`) are only displayed. They are carried unchanged, and nothing beyond that is proved about them.
- The subclass constructors take the rank as `int` and narrow it to `char`. The model takes a `char`.
- ItemManagement.ItemManager.ItemSynthesis: a missing target is a null dereference in the source (undefined behaviour). The model rejects it like a missing ingredient and changes nothing.
- ItemManagement.ItemManager.AddItem: requires the item not to be held already. The source accepts the same pointer twice, and that aliasing ends in a double `delete`.
- ItemManagement.ItemManager.constructor: requires a non-negative size. A negative size makes the source's array `new` throw.
- Integers are unbounded. In the source, `max(t, i) + 1` at the largest `int` is signed overflow, which is undefined behaviour; `level++` cannot overflow because it is guarded by `level < 10`.
- The scan returns the target as a slot index, not as a pointer.
- `RemoveSlot` is the shift loop written once; the source repeats it at lines 175-178 and 227-230. `Merge` is the accepted branch of ItemSynthesis as its own method.
- Array slots at or beyond `itemCount` are not described. The source leaves them uninitialised after construction and stale after a shift.
