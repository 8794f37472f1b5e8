# Werewolf actor sheet: a Dafny model

This project models the rules in the werewolf character sheet of a World of
Darkness 5th-edition system for a virtual tabletop
(`module/actor/werewolf-actor-sheet.js`). The sheet shows a werewolf actor
and reacts to its buttons. Three parts of it follow rules that can be stated
exactly:

- **The gift and rite organiser** (`_prepareItems`). It copies the actor's
  gift map (category key to label, description and `powers`) and its seed
  rite list. It routes every `gift` item: a gift whose `giftType` is `"rite"`
  goes to the rites, and a gift with any other `giftType` goes to that
  category's powers. Then it sorts each powers list and the rite list by
  level, and by name when the levels are equal. A gift whose category is not
  in the map makes the sheet throw.
  - Modules: `Collation`, `Items`, `GiftOrganiser`.
  - `PrepareItems` is an imperative method. Its routing pass is a loop over
    the items that appends to sequences. Its sorting pass copies each list
    into an array and sorts the array in place.
- **Form shifting** (`_onShiftForm`, `_onInsufficientRage`). Homid and lupus
  are always taken. Glabro and hispo roll one rage die and crinos rolls two.
  With automated rage on and rage at 0, no dice are rolled and the "Lost the
  Wolf" dialog asks whether to shift anyway. Otherwise the form changes only
  if the roll leaves some rage. Any other button value gives homid.
  - Module: `Forms`.
- **Rolls and flags.** The gift-roll dice pool (`_onGiftRoll`). The rage
  button, whose `consumeRage` is forced to false when automated rage is off
  (`_onRageButton`). The frenzy buttons (`_onBeginFrenzy`, `_onEndFrenzy`).
  - Modules: `Rolls`, `WerewolfActor`.

The frenzy, shift and dialog handlers return the actor record after their
own writes. The gift-roll and rage-button handlers write no actor data: they
return the arguments they pass to the dice roller (`RollRequest`). Three
things are parameters of the model:

- the rage left after a roll,
- the automated-rage game setting,
- the choice made in the confirmation dialog.

A gift whose type is neither `"rite"` nor a key of the gift map makes
`giftsList[...].powers.push` at `module/actor/werewolf-actor-sheet.js:76-77`
throw a `TypeError`. `PrepareItems` returns
`Err(UndefinedEntry("gifts", key))` for the first such gift.

## Model

| member | source | states |
|---|---|---|
| `GiftOrganiser.PrepareItems` | module/actor/werewolf-actor-sheet.js:60-109 | Fails exactly when some gift has a non-rite type missing from the gift map, and the fault names the first such gift's type. Otherwise every category key, label and description is kept, each powers list is sorted and is a permutation of its seed plus the items routed to it, and the rite list is sorted and is a permutation of the seed rites plus the rites routed to it. Entries tied in level and name keep their order: seed first, then input order. |
| `GiftOrganiser.Route` | module/actor/werewolf-actor-sheet.js:69-80 | A gift typed `"rite"` goes to the rites; a gift with any other type goes to the category of that type; non-gifts and untyped gifts go nowhere. |
| `GiftOrganiser.RoutedTo` | module/actor/werewolf-actor-sheet.js:69-80 | No more items are routed to a destination than the input holds, and every item in the result is routed there. |
| `GiftOrganiser.Allocate` | module/actor/werewolf-actor-sheet.js:69-80 | Handling one item: it fails exactly when the item is a gift whose category is missing; otherwise it appends a rite to the rite list, another typed gift to its category, and skips anything else. The lists after it are the seeds filled with one more item. |
| `GiftOrganiser.RouteItems` | module/actor/werewolf-actor-sheet.js:65-81 | The routing loop. It fails at the first gift whose category is missing. Otherwise each category's powers are its seed followed by the items routed to it in input order, the rite list is the seed rites followed by the rites in input order, and the key set is unchanged. |
| `GiftOrganiser.SortCategories` | module/actor/werewolf-actor-sheet.js:83-94 | The loop over the gift map: same keys, labels and descriptions, and every powers list sorted, a permutation of what it held, and with tied entries in their old order. |
| `GiftOrganiser.SortList` | module/actor/werewolf-actor-sheet.js:96-105 | Sorting a list and reassigning it gives a sorted permutation of the list in which entries tied in level and name keep their order. |
| `GiftOrganiser.SortByLevelThenName` | module/actor/werewolf-actor-sheet.js:85-93 | In-place sort of an array with the sheet's comparator: afterwards neighbours are in level-then-name order, the array holds the same entries, and entries tied in level and name keep their order (the sort is stable). |
| `GiftOrganiser.InsertNext` | module/actor/werewolf-actor-sheet.js:85-93 | One insertion step: a sorted prefix grows by one entry, the rest of the array is untouched, and the entries are kept, tied entries in their order. |
| `GiftOrganiser.SwapNeighbours` | module/actor/werewolf-actor-sheet.js:85-93 | Exchanging two neighbours changes only those two cells and keeps the entries. |
| `GiftOrganiser.FilledEmpty` | module/actor/werewolf-actor-sheet.js:65 | The deep copy of the gift map, before any item is routed, equals the actor's gift map. |
| `GiftOrganiser.FilledSnocAt` | module/actor/werewolf-actor-sheet.js:76-77 | Routing one more item appends it to a category's powers exactly when it is routed to that category. |
| `GiftOrganiser.FilledSnocOwn` | module/actor/werewolf-actor-sheet.js:76-77 | Routing one more gift bound for an existing category appends it to that category and leaves every other category as it was. |
| `GiftOrganiser.FilledSnocElse` | module/actor/werewolf-actor-sheet.js:69-75 | Routing one more item that is not bound for a category leaves every category as it was. |
| `GiftOrganiser.FilledSnoc` | module/actor/werewolf-actor-sheet.js:69-81 | Routing one more resolvable item appends it to its own category's powers and leaves every other category as it was. |
| `GiftOrganiser.RoutedToSnoc` | module/actor/werewolf-actor-sheet.js:69-81 | Handling one more item appends it to exactly the list it is routed to. |
| `GiftOrganiser.RoutedCount` | module/actor/werewolf-actor-sheet.js:69-81 | Nothing is lost or duplicated. An item occurs in the list for a destination as often as in the input if it is routed there, and otherwise never: non-gifts and untyped gifts land nowhere, rites only in the rites, other gifts only in their own category. |
| `GiftOrganiser.PlacementCounts` | module/actor/werewolf-actor-sheet.js:65-94 | After a successful run, each copy of an item sits in the rite list or a category exactly as its seed copies plus, for the one destination it is routed to, its input copies. |
| `GiftOrganiser.HeadsAgree` | module/actor/werewolf-actor-sheet.js:84-105 | Two sorted arrangements of the same entries, with no two different entries tied in both level and name, start with the same entry. |
| `GiftOrganiser.TailsPermuted` | module/actor/werewolf-actor-sheet.js:84-105 | Removing equal first entries from two permutations of each other leaves permutations of each other. |
| `GiftOrganiser.SortedPermutationsAgree` | module/actor/werewolf-actor-sheet.js:84-105 | The order shown is determined whatever the sort does with ties: two sorted arrangements of the same entries are equal when no two different entries share level and name. |
| `GiftOrganiser.ExampleOrganised` | module/actor/werewolf-actor-sheet.js:60-109 | Rites Beta (level 2) and Alpha (level 1) and a totem gift Zeta, with an empty totem category, come out as rites Alpha, Beta and totem powers Zeta. |
| `GiftOrganiser.ExampleRouting` | module/actor/werewolf-actor-sheet.js:69-81 | The example's rites are routed to the rite list in input order and Zeta to the totem powers. |
| `GiftOrganiser.ExampleRites` | module/actor/werewolf-actor-sheet.js:97-105 | The only sorted order of Beta (level 2) and Alpha (level 1) is Alpha, Beta. |
| `GiftOrganiser.ExampleTotem` | module/actor/werewolf-actor-sheet.js:84-94 | A one-entry powers list has one sorted order. |
| `GiftOrganiser.ExampleNewRites` | module/actor/werewolf-actor-sheet.js:97-105 | Two rites that differ only in their document id, such as two fresh "New Rite" rites, are shown in the order they were given. |
| `Items.InOrder` | module/actor/werewolf-actor-sheet.js:85-93 | The comparator: a lower level comes first, a higher level never does, and equal levels are ordered by name. |
| `Items.InOrderTotal` | module/actor/werewolf-actor-sheet.js:85-93 | The comparator orders any two items one way or the other. |
| `Items.InOrderTransitive` | module/actor/werewolf-actor-sheet.js:85-93 | The comparator's order is transitive. |
| `Items.InOrderTie` | module/actor/werewolf-actor-sheet.js:85-93 | Two items that each may come before the other have the same level and the same name. |
| `Items.SortedPairwise` | module/actor/werewolf-actor-sheet.js:84-105 | A list whose neighbours are in order has every pair in order. |
| `Items.TiesAppend` | module/actor/werewolf-actor-sheet.js:84-105 | The entries of a joined list that tie with a given level and name are those of the first part followed by those of the second. |
| `Items.TiesMember` | module/actor/werewolf-actor-sheet.js:84-105 | An entry tied with a level and name is an entry of the list with that level and name. |
| `Items.SwapKeepsTies` | module/actor/werewolf-actor-sheet.js:85-93 | Exchanging two neighbours that do not tie keeps the order of every group of tied entries. |
| `Items.TiesHead` | module/actor/werewolf-actor-sheet.js:84-105 | The first entry of a list is the first entry of its own tie group. |
| `Items.SortedTiesAgree` | module/actor/werewolf-actor-sheet.js:84-105 | A stable sort has one result: two sorted lists whose tie groups agree are equal. |
| `Collation.NameLe` | module/actor/werewolf-actor-sheet.js:85-105 | The name comparison: a name sorts before any name it is a prefix of, when the first characters differ they decide, equal first characters defer to the rest, and a non-empty name never sorts before the empty name. |
| `Collation.NameLeReflexive` | module/actor/werewolf-actor-sheet.js:88 | Every name sorts with itself. |
| `Collation.NameLeTotal` | module/actor/werewolf-actor-sheet.js:88 | Any two names are comparable. |
| `Collation.NameLeTransitive` | module/actor/werewolf-actor-sheet.js:100 | The name order is transitive. |
| `Collation.NameLeAntisymmetric` | module/actor/werewolf-actor-sheet.js:100 | The name comparison ties only equal names. |
| `WerewolfActor.BeginFrenzy` | module/actor/werewolf-actor-sheet.js:314-319 | Turns the frenzy flag on and sets rage to 5, and changes nothing else. |
| `WerewolfActor.EndFrenzy` | module/actor/werewolf-actor-sheet.js:322-325 | Turns the frenzy flag off and changes nothing else, rage included. |
| `WerewolfActor.FrenzyHandlersIdempotent` | module/actor/werewolf-actor-sheet.js:314-325 | Pressing either frenzy button twice has the effect of pressing it once. |
| `WerewolfActor.FrenzyRoundTrip` | module/actor/werewolf-actor-sheet.js:314-325 | Beginning and then ending a frenzy leaves rage at 5. This equals simply ending the frenzy only when rage was already 5. |
| `Rolls.DieRating` | module/actor/werewolf-actor-sheet.js:177-186 | A die entry of "renown" rates as the gift's renown, even if a trait has that key; any other entry rates as its trait, and fails exactly when the trait is missing. |
| `Rolls.SecondTable` | module/actor/werewolf-actor-sheet.js:180-186 | The second die reads the skills for a skill gift and the abilities otherwise. |
| `Rolls.GiftRoll` | module/actor/werewolf-actor-sheet.js:168-190 | Rage dice are the rage floored at 0. The pool is the sum of the two die ratings: renown for "renown", otherwise abilities for the first die, and skills or abilities for the second depending on the skill flag. A missing item, renown entry or trait is a fault naming the first lookup that fails. |
| `Rolls.GiftRollBothRenown` | module/actor/werewolf-actor-sheet.js:177-188 | A gift with both dice on renown rolls twice the renown rating. |
| `Rolls.GiftRollPoolIgnoresRage` | module/actor/werewolf-actor-sheet.js:173-188 | Rage affects only the rage dice, never the pool or whether the roll fails. |
| `Rolls.GiftRollSkillIgnoresAbility` | module/actor/werewolf-actor-sheet.js:182-183 | A skill gift's second die does not depend on the ability of the same key, unless its first die is that same ability. |
| `Rolls.RageButton` | module/actor/werewolf-actor-sheet.js:192-207 | Rolls the dataset's rage dice and passes the willpower flag through. `consumeRage` is false when automated rage is off and is the dataset's value when it is on. |
| `Rolls.RageButtonIgnoresConsumeWhenManual` | module/actor/werewolf-actor-sheet.js:199-204 | With automated rage off, the dataset's `consumeRage` has no effect on the roll. |
| `Forms.ParseForm` | module/actor/werewolf-actor-sheet.js:336-404 | Recognises exactly the five form names. |
| `Forms.ShiftCost` | module/actor/werewolf-actor-sheet.js:341-397 | A form costs rage dice exactly when it is supernatural; crinos alone costs two, and no form more. |
| `Forms.PlanShift` | module/actor/werewolf-actor-sheet.js:336-404 | Unknown names and homid give homid; lupus gives lupus. A supernatural form asks for confirmation when automated rage is on and rage is 0, and otherwise rolls its cost: the dice pool and the rage dice both equal the cost, the difficulty is 0, rage is consumed and willpower is not. |
| `Forms.InsufficientRage` | module/actor/werewolf-actor-sheet.js:472-487 | "Shift Anyway" sets the form; cancelling changes nothing; no other field changes. |
| `Forms.ResolveShift` | module/actor/werewolf-actor-sheet.js:341-405 | The sheet's own writes change only the active form. A direct shift sets the form; after a roll the form is taken exactly when rage is left; after the dialog exactly when the player shifts anyway. |
| `Forms.ShiftForm` | module/actor/werewolf-actor-sheet.js:328-405 | The sheet's own writes in a shift change only the active form, and only to one of the five form names. The roll a shift starts consumes rage through the roller, which is not modelled. |
| `Forms.ShiftToNaturalForm` | module/actor/werewolf-actor-sheet.js:336-401 | Homid and lupus are taken whatever the rage, roll or dialog. |
| `Forms.ShiftToUnknownIsHomid` | module/actor/werewolf-actor-sheet.js:402-403 | A button naming no form sets homid. |
| `Forms.ShiftAfterRoll` | module/actor/werewolf-actor-sheet.js:341-397 | When a roll is made, a supernatural form is taken if and only if the rage left after the roll is above 0. Otherwise the form is unchanged. |
| `Forms.ShiftWithoutRage` | module/actor/werewolf-actor-sheet.js:341-357 | With automated rage on and rage 0, nothing is rolled and the form is taken if and only if the player shifts anyway. |
| `Forms.ShiftCosts` | module/actor/werewolf-actor-sheet.js:341-397 | Crinos rolls two rage dice; glabro and hispo roll one. |
| `Forms.ShiftKeepsFormValid` | module/actor/werewolf-actor-sheet.js:336-404 | A stored form that is one of the five stays one of the five after any shift. |
| `Forms.FrenzyShiftRolls` | module/actor/werewolf-actor-sheet.js:316-318 | Right after a frenzy begins, rage is 5, so a supernatural shift always rolls and never asks for confirmation. |

## Left out

- Name order: `localeCompare` is modelled as plain lexicographic order on character codes. Locale collation (accents, case, digits) is not modelled.
- `super.getData` and `super._prepareItems` come from the parent sheet class `WoDActor`. module/actor/wod-v5-sheet.js is not part of this model.
- The dice roller `rollWerewolfDice` is not part of this model. A roll is its argument list. Its resolved post-roll rage is an input, and its own update of the actor's rage is not modelled.
- Forms.ShiftForm does not model the `Promise` sequencing. The outcome of the roll or of the dialog is given as a parameter.
- `game.settings.get` and `game.i18n.localize` become a boolean parameter (automated rage) or are left out (localized strings).
- `actor.update` is modelled as returning the new field values. Persistence is host code.
- Rolls.GiftRoll does not model JavaScript's dynamic typing. It assumes trait ratings are numbers and die entries are strings. Non-numeric ratings, where `+` would concatenate, are not modelled.
- GiftOrganiser.PrepareItems assumes levels are numbers and gift types are strings or absent. Non-numeric levels, compared with `===` and `-`, are not modelled. A `null` gift type passes the `!== undefined` test and throws at the lookup `giftsList[null]`, while the model's absent type is skipped.
- UI and host glue is not modelled: `defaultOptions`, `template`, `activateListeners`, the gift-delete and gift-chat click handlers, `_onCreateGift`, `_onCreateRite`, `_onFormToChat`, `_onFormEdit`, and the HTML of every dialog and chat message. These build markup or call host APIs and have no contract to state.
