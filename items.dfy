/** Equipment items: immutable name and stat bonuses, the random item
    generator (with its pseudo-random draws passed in), and the bonus totals
    of an inventory. */
module Items {

  /** An item of equipment; the bonuses are added to a character's attack and
      defense when the item is equipped. */
  datatype Item = Item(name: string, attackBoost: int, defenseBoost: int)

  /** The fixed vocabulary from which generated items take their name. */
  const ItemNames: seq<string> := ["Sword", "Shield", "Amulet", "Ring"]

  /** The generator: the first draw picks the name, the second the attack
      bonus, the third the defense bonus (the source draws them in that
      order). Every generated item has a known name and both bonuses in
      [1, 10]. */
  function GenerateRandomItem(nameDraw: nat, attackDraw: nat, defenseDraw: nat): (item: Item)
    ensures item.name in ItemNames
    ensures item.name == ItemNames[nameDraw % |ItemNames|]
    ensures 1 <= item.attackBoost <= 10 && 1 <= item.defenseBoost <= 10
    ensures item.attackBoost == attackDraw % 10 + 1 && item.defenseBoost == defenseDraw % 10 + 1
  {
    Item(ItemNames[nameDraw % |ItemNames|], attackDraw % 10 + 1, defenseDraw % 10 + 1)
  }

  /** Every item the vocabulary and the bonus range allow is produced by some
      draws: the generator covers its whole range. */
  lemma GeneratorCovers(name: string, attackBoost: int, defenseBoost: int)
    requires name in ItemNames
    requires 1 <= attackBoost <= 10 && 1 <= defenseBoost <= 10
    ensures exists n: nat, a: nat, d: nat :: GenerateRandomItem(n, a, d) == Item(name, attackBoost, defenseBoost)
  {
    var n :| 0 <= n < |ItemNames| && ItemNames[n] == name;
    assert GenerateRandomItem(n, attackBoost - 1, defenseBoost - 1) == Item(name, attackBoost, defenseBoost);
  }

  /** Total attack bonus of the items in an inventory. */
  function SumAttack(inventory: seq<Item>): int
  {
    if inventory == [] then 0 else SumAttack(inventory[..|inventory| - 1]) + inventory[|inventory| - 1].attackBoost
  }

  /** Total defense bonus of the items in an inventory. */
  function SumDefense(inventory: seq<Item>): int
  {
    if inventory == [] then 0 else SumDefense(inventory[..|inventory| - 1]) + inventory[|inventory| - 1].defenseBoost
  }

  /** Appending an item adds exactly its bonuses to the totals. */
  lemma SumAppend(inventory: seq<Item>, item: Item)
    ensures SumAttack(inventory + [item]) == SumAttack(inventory) + item.attackBoost
    ensures SumDefense(inventory + [item]) == SumDefense(inventory) + item.defenseBoost
  {
  }
}
