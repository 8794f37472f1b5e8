/** The dice rolls the sheet asks for. The roller itself lives outside this
    model: a roll is represented by the arguments the sheet passes to it. */
module Rolls {
  import opened Common
  import opened Items
  import opened WerewolfActor

  /** A JavaScript value as passed to the roller: a button's dataset entries
      are strings or absent; the sheet's own arguments are numbers and
      booleans. */
  datatype JsValue = Undefined | Str(s: string) | Num(n: int) | Bool(b: bool)

  /** The arguments of one call of the roller: dice in the pool, chat label,
      difficulty, rage dice, whether willpower is subtracted, whether rage is
      consumed. */
  datatype RollRequest = RollRequest(
    numDice: JsValue,
    rollLabel: JsValue,
    difficulty: int,
    rageDice: JsValue,
    subtractWillpower: JsValue,
    consumeRage: JsValue)

  /** The entries a rage button carries in its dataset. */
  datatype RageDataset = RageDataset(
    subtractWillpower: JsValue,
    rageDice: JsValue,
    consumeRage: JsValue,
    rollLabel: JsValue)

  /** The rating a gift's die entry names: the gift's renown rating when the
      entry is "renown", otherwise the entry of `table`, if it has one. */
  function DieRating(entry: string, renownRating: int, table: map<string, int>): (r: Option<int>)
    ensures entry == "renown" ==> r == Some(renownRating)
    ensures entry != "renown" ==> (r.Some? <==> entry in table)
    ensures entry != "renown" && r.Some? ==> r.value == table[entry]
  {
    if entry == "renown" then Some(renownRating)
    else if entry in table then Some(table[entry])
    else None
  }

  /** The table the gift's second die is read from: the skills for a gift
      flagged as a skill roll, the abilities otherwise. */
  function SecondTable(a: Actor, item: Item): (t: map<string, int>)
    ensures item.skill ==> t == a.skills
    ensures !item.skill ==> t == a.abilities
  {
    if item.skill then a.skills else a.abilities
  }

  /** The name of the table the gift's second die is read from. */
  function SecondTableName(item: Item): string
  {
    if item.skill then "skills" else "abilities"
  }

  /** Rolling gift `id`. The rage dice are the actor's rage, never below 0;
      the pool is the sum of the ratings its two die entries name. The roll
      fails, as the sheet throws, when the item, its renown entry or a named
      trait is missing, and the fault names the first missing lookup. */
  function GiftRoll(a: Actor, id: string): (r: Result<RollRequest, Fault>)
    ensures id !in a.items ==> r == Err(UndefinedEntry("items", id))
    ensures id in a.items && a.items[id].renown !in a.renown ==>
      r == Err(UndefinedEntry("renown", a.items[id].renown))
    ensures id in a.items && a.items[id].renown in a.renown ==>
      var item := a.items[id];
      var renown := a.renown[item.renown];
      && (DieRating(item.dice1, renown, a.abilities).None? ==>
            r == Err(UndefinedEntry("abilities", item.dice1)))
      && (DieRating(item.dice1, renown, a.abilities).Some? &&
          DieRating(item.dice2, renown, SecondTable(a, item)).None? ==>
            r == Err(UndefinedEntry(SecondTableName(item), item.dice2)))
      && (DieRating(item.dice1, renown, a.abilities).Some? &&
          DieRating(item.dice2, renown, SecondTable(a, item)).Some? ==>
            r.Ok? &&
            r.value.numDice == Num(DieRating(item.dice1, renown, a.abilities).value +
                                   DieRating(item.dice2, renown, SecondTable(a, item)).value))
    ensures r.Ok? ==> r.value.rageDice.Num? && r.value.rageDice.n >= 0
    ensures r.Ok? ==> (a.rage >= 0 ==> r.value.rageDice == Num(a.rage))
    ensures r.Ok? ==> (a.rage < 0 ==> r.value.rageDice == Num(0))
    ensures r.Ok? ==> r.value.rollLabel == Str(a.items[id].name) && r.value.difficulty == 0
    ensures r.Ok? ==> r.value.subtractWillpower == Undefined && r.value.consumeRage == Undefined
  {
    var rageDice := if a.rage > 0 then a.rage else 0;
    if id !in a.items then Err(UndefinedEntry("items", id))
    else
      var item := a.items[id];
      if item.renown !in a.renown then Err(UndefinedEntry("renown", item.renown))
      else
        var renown := a.renown[item.renown];
        var dice1 := DieRating(item.dice1, renown, a.abilities);
        if dice1.None? then Err(UndefinedEntry("abilities", item.dice1))
        else
          var dice2 := DieRating(item.dice2, renown, SecondTable(a, item));
          if dice2.None? then Err(UndefinedEntry(SecondTableName(item), item.dice2))
          else Ok(RollRequest(Num(dice1.value + dice2.value), Str(item.name), 0, Num(rageDice), Undefined, Undefined))
  }

  /** A gift whose two die entries both name renown rolls twice its renown
      rating, whatever the actor's abilities and skills. */
  lemma GiftRollBothRenown(a: Actor, id: string)
    requires id in a.items && a.items[id].renown in a.renown
    requires a.items[id].dice1 == "renown" && a.items[id].dice2 == "renown"
    ensures GiftRoll(a, id).Ok?
    ensures GiftRoll(a, id).value.numDice == Num(2 * a.renown[a.items[id].renown])
  {
  }

  /** Rage decides only the rage dice: two actors that differ in rage alone
      roll the same pool, or fail the same way. */
  lemma GiftRollPoolIgnoresRage(a: Actor, id: string, rage: int)
    ensures GiftRoll(a, id).Err? ==> GiftRoll(a.(rage := rage), id) == GiftRoll(a, id)
    ensures GiftRoll(a, id).Ok? ==>
      GiftRoll(a.(rage := rage), id).Ok? &&
      GiftRoll(a.(rage := rage), id).value.numDice == GiftRoll(a, id).value.numDice
  {
  }

  /** A gift rolled from a skill reads its second die from the skills and
      never from the abilities of the same name (unless its first die, an
      ability, has that name too). */
  lemma GiftRollSkillIgnoresAbility(a: Actor, id: string, rating: int)
    requires id in a.items && a.items[id].skill
    requires a.items[id].dice1 == "renown" || a.items[id].dice1 != a.items[id].dice2
    ensures GiftRoll(a.(abilities := a.abilities[a.items[id].dice2 := rating]), id) == GiftRoll(a, id)
  {
  }

  /** A rage button rolls the dice its dataset names. Rage is consumed as the
      dataset says only while automated rage is on; with it off, never. */
  function RageButton(dataset: RageDataset, automatedRage: bool): (r: RollRequest)
    ensures r.numDice == dataset.rageDice && r.rageDice == dataset.rageDice
    ensures r.rollLabel == dataset.rollLabel && r.difficulty == 0
    ensures r.subtractWillpower == dataset.subtractWillpower
    ensures !automatedRage ==> r.consumeRage == Bool(false)
    ensures automatedRage ==> r.consumeRage == dataset.consumeRage
  {
    var consumeRage := if !automatedRage then Bool(false) else dataset.consumeRage;
    RollRequest(dataset.rageDice, dataset.rollLabel, 0, dataset.rageDice, dataset.subtractWillpower, consumeRage)
  }

  /** With automated rage off, two buttons that differ only in what they say
      about consuming rage ask for the same roll. */
  lemma RageButtonIgnoresConsumeWhenManual(dataset: RageDataset, consumeRage: JsValue)
    ensures RageButton(dataset.(consumeRage := consumeRage), false) == RageButton(dataset, false)
  {
  }
}
