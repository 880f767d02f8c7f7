/** Characters: the two archetypes, their base stats and level-up rules, the
    experience rule that turns an award into level-ups, and the `Character`
    class whose methods update a character in place. The pure functions over
    `CharState` specify the methods; the lemmas beside them prove what the
    rules promise. */
module Characters {
  import opened Items

  /** The archetypes; the source selects their behaviour by subclassing. */
  datatype Kind = Warrior | Mage

  /** The mutable part of a character, as a value. */
  datatype CharState = CharState(health: int, attack: int, defense: int, level: int, experience: int, inventory: seq<Item>)

  // ---------------------------------------------------------------------
  // Constants of the archetypes

  function BaseHealth(kind: Kind): int
  {
    match kind
    case Warrior => 100
    case Mage => 80
  }

  function BaseAttack(kind: Kind): int
  {
    match kind
    case Warrior => 20
    case Mage => 25
  }

  function BaseDefense(kind: Kind): int
  {
    match kind
    case Warrior => 10
    case Mage => 5
  }

  /** Net health gained per level (base rule plus the archetype's extra). */
  function HealthGrowth(kind: Kind): int
  {
    match kind
    case Warrior => 10
    case Mage => 15
  }

  /** Net attack gained per level (base rule plus the archetype's extra). */
  function AttackGrowth(kind: Kind): int
  {
    match kind
    case Warrior => 10
    case Mage => 5
  }

  /** Defense gained per level, the same for both archetypes. */
  const DefenseGrowth: int := 5

  /** Experience needed to leave a level. */
  function Threshold(level: int): int
  {
    level * 100
  }

  // ---------------------------------------------------------------------
  // The rules, as functions of the state

  /** A character is alive while its health is positive. */
  predicate Alive(s: CharState)
  {
    s.health > 0
  }

  /** Width of an archetype's random damage bonus: a Warrior adds one of
      5 values, a Mage one of 10. */
  function Spread(kind: Kind): nat
  {
    match kind
    case Warrior => 5
    case Mage => 10
  }

  /** The damage a character deals: its attack plus the random draw reduced
      to the archetype's spread. */
  function Damage(kind: Kind, attack: int, draw: nat): (r: int)
    ensures kind == Warrior ==> attack <= r <= attack + 4
    ensures kind == Mage ==> attack <= r <= attack + 9
  {
    match kind
    case Warrior => attack + draw % 5
    case Mage => attack + draw % 10
  }

  /** Every value in the archetype's damage range is dealt for some draw. */
  lemma DamageCovers(kind: Kind, attack: int, r: int)
    requires attack <= r < attack + Spread(kind)
    ensures exists draw: nat :: Damage(kind, attack, draw) == r
  {
    var draw: nat := r - attack;
    assert Damage(kind, attack, draw) == r;
  }

  /** A hit of `damage` points: health drops by it and is floored at zero;
      nothing else changes. */
  function Damaged(s: CharState, damage: int): (r: CharState)
    ensures r.health >= 0
    ensures r.health == 0 <==> s.health <= damage
    ensures r.health > 0 ==> r.health == s.health - damage
    ensures damage >= 0 && s.health >= 0 ==> r.health <= s.health
    ensures r == s.(health := r.health)
  {
    var h := s.health - damage;
    s.(health := if h < 0 then 0 else h)
  }

  /** A character is alive after a hit exactly when its health exceeded the
      damage, and one already down stays down under any non-negative hit. */
  lemma DamagedAlive(s: CharState, damage: int)
    ensures Alive(Damaged(s, damage)) <==> s.health > damage
    ensures !Alive(s) && damage >= 0 ==> !Alive(Damaged(s, damage))
  {
  }

  /** Equipping an item: it goes to the end of the inventory and its bonuses
      are added to attack and defense. */
  function Equipped(s: CharState, item: Item): (r: CharState)
    ensures r.inventory == s.inventory + [item]
    ensures r.attack - s.attack == item.attackBoost && r.defense - s.defense == item.defenseBoost
    ensures r.health == s.health && r.level == s.level && r.experience == s.experience
  {
    s.(inventory := s.inventory + [item],
       attack := s.attack + item.attackBoost,
       defense := s.defense + item.defenseBoost)
  }

  /** The level-up rule shared by every character. */
  function BaseLevelUp(s: CharState): CharState
  {
    s.(level := s.level + 1, health := s.health + 10, attack := s.attack + 5, defense := s.defense + 5)
  }

  /** A level-up: the base rule, then the archetype's extra (attack for a
      Warrior, health for a Mage). */
  function LevelUpped(kind: Kind, s: CharState): (r: CharState)
    ensures r.level == s.level + 1
    ensures r.health == s.health + HealthGrowth(kind)
    ensures r.attack == s.attack + AttackGrowth(kind)
    ensures r.defense == s.defense + DefenseGrowth
    ensures r.experience == s.experience && r.inventory == s.inventory
  {
    var b := BaseLevelUp(s);
    match kind
    case Warrior => b.(attack := b.attack + 5)
    case Mage => b.(health := b.health + 5)
  }

  /** Experience spent in climbing from level `from` to level `to`. */
  function Cost(from: int, to: int): int
    decreases to - from
  {
    if to <= from then 0 else Threshold(from) + Cost(from + 1, to)
  }

  /** The carry-over loop: while experience reaches the threshold of the
      current level, spend it and level up. The result is below the threshold
      of its level, never at a lower level, and keeps non-negative experience
      non-negative. */
  function Settle(kind: Kind, s: CharState): (r: CharState)
    requires s.level >= 1
    ensures r.level >= s.level
    ensures r.experience < Threshold(r.level)
    ensures s.experience >= 0 ==> r.experience >= 0
    ensures s.experience < Threshold(s.level) ==> r == s
    ensures s.experience >= Threshold(s.level) ==> r.level > s.level
    decreases s.experience
  {
    if s.experience >= Threshold(s.level) then
      Settle(kind, LevelUpped(kind, s.(experience := s.experience - Threshold(s.level))))
    else
      s
  }

  /** What settling changes: it spends exactly the cost of the levels climbed
      and grows health, attack and defense by the per-level amounts once per
      level climbed; the inventory is untouched. */
  lemma {:induction false} SettleGrowth(kind: Kind, s: CharState)
    requires s.level >= 1
    ensures var r := Settle(kind, s);
      && r.experience == s.experience - Cost(s.level, r.level)
      && r.health == s.health + (r.level - s.level) * HealthGrowth(kind)
      && r.attack == s.attack + (r.level - s.level) * AttackGrowth(kind)
      && r.defense == s.defense + (r.level - s.level) * DefenseGrowth
      && r.inventory == s.inventory
    decreases s.experience
  {
    if s.experience >= Threshold(s.level) {
      var t := LevelUpped(kind, s.(experience := s.experience - Threshold(s.level)));
      SettleGrowth(kind, t);
      var r := Settle(kind, t);
      assert (r.level - s.level) * HealthGrowth(kind) == (r.level - t.level) * HealthGrowth(kind) + HealthGrowth(kind);
      assert (r.level - s.level) * AttackGrowth(kind) == (r.level - t.level) * AttackGrowth(kind) + AttackGrowth(kind);
      assert (r.level - s.level) * DefenseGrowth == (r.level - t.level) * DefenseGrowth + DefenseGrowth;
    }
  }

  /** An experience award: add it, then settle. The level never drops, the
      experience left is below the new level's threshold, and the award is
      accounted for exactly: what remains is the old experience plus the
      award minus the thresholds of the levels climbed. */
  function Gained(kind: Kind, s: CharState, amount: int): (r: CharState)
    requires s.level >= 1
    ensures r.level >= s.level
    ensures r.experience < Threshold(r.level)
    ensures r.experience == s.experience + amount - Cost(s.level, r.level)
    ensures s.experience >= 0 && amount >= 0 ==> r.experience >= 0
    ensures r.inventory == s.inventory
  {
    SettleGrowth(kind, s.(experience := s.experience + amount));
    Settle(kind, s.(experience := s.experience + amount))
  }

  // ---------------------------------------------------------------------
  // The character invariant and its preservation

  /** What every reachable character satisfies: health is never negative,
      the level is at least 1, experience is below the current threshold,
      and attack and defense are the archetype's base plus one growth step per
      level gained plus the bonuses of everything equipped. */
  predicate Sound(kind: Kind, s: CharState)
  {
    && s.health >= 0
    && s.level >= 1
    && s.experience < Threshold(s.level)
    && s.attack == BaseAttack(kind) + (s.level - 1) * AttackGrowth(kind) + SumAttack(s.inventory)
    && s.defense == BaseDefense(kind) + (s.level - 1) * DefenseGrowth + SumDefense(s.inventory)
  }

  /** A freshly built character with an empty inventory. */
  function Initial(kind: Kind): CharState
  {
    CharState(BaseHealth(kind), BaseAttack(kind), BaseDefense(kind), 1, 0, [])
  }

  lemma InitialSound(kind: Kind)
    ensures Sound(kind, Initial(kind))
    ensures Alive(Initial(kind))
  {
  }

  lemma DamagedSound(kind: Kind, s: CharState, damage: int)
    requires Sound(kind, s)
    ensures Sound(kind, Damaged(s, damage))
  {
  }

  lemma EquippedSound(kind: Kind, s: CharState, item: Item)
    requires Sound(kind, s)
    ensures Sound(kind, Equipped(s, item))
  {
    SumAppend(s.inventory, item);
  }

  lemma LevelUppedSound(kind: Kind, s: CharState)
    requires Sound(kind, s)
    ensures Sound(kind, LevelUpped(kind, s))
  {
  }

  /** An award of any amount keeps the invariant; a non-negative award on a
      character with non-negative experience leaves experience non-negative. */
  lemma GainedSound(kind: Kind, s: CharState, amount: int)
    requires Sound(kind, s)
    ensures Sound(kind, Gained(kind, s, amount))
    ensures s.experience >= 0 && amount >= 0 ==> Gained(kind, s, amount).experience >= 0
    ensures Gained(kind, s, amount).level >= s.level
    ensures Gained(kind, s, amount).health >= s.health
  {
    SettleGrowth(kind, s.(experience := s.experience + amount));
    var r := Gained(kind, s, amount);
    var n := r.level - s.level;
    assert n * HealthGrowth(kind) >= 0;
    assert (r.level - 1) * AttackGrowth(kind) == (s.level - 1) * AttackGrowth(kind) + n * AttackGrowth(kind);
    assert (r.level - 1) * DefenseGrowth == (s.level - 1) * DefenseGrowth + n * DefenseGrowth;
  }

  /** A level-1 character awarded 250 experience reaches level 2 with 150
      left over; awarded 350, it reaches level 3 with 50 left over. */
  lemma GainedExamples(kind: Kind)
    ensures Gained(kind, Initial(kind), 250).level == 2 && Gained(kind, Initial(kind), 250).experience == 150
    ensures Gained(kind, Initial(kind), 350).level == 3 && Gained(kind, Initial(kind), 350).experience == 50
    ensures Gained(kind, Initial(kind), 50).level == 1 && Gained(kind, Initial(kind), 50).experience == 50
  {
  }

  // ---------------------------------------------------------------------
  // The character object

  /** A character that combat and equipment change in place. */
  class Character {
    const name: string
    const kind: Kind
    var health: int
    var attack: int
    var defense: int
    var level: int
    var experience: int
    var inventory: seq<Item>

    /** The current state as a value. */
    function State(): CharState
      reads this
    {
      CharState(health, attack, defense, level, experience, inventory)
    }

    ghost predicate Valid()
      reads this
    {
      Sound(kind, State())
    }

    /** A new character of the given archetype with its base stats. */
    constructor (name: string, kind: Kind)
      ensures this.name == name && this.kind == kind
      ensures kind == Warrior ==> health == 100 && attack == 20 && defense == 10
      ensures kind == Mage ==> health == 80 && attack == 25 && defense == 5
      ensures level == 1 && experience == 0 && inventory == []
      ensures Valid()
    {
      this.name := name;
      this.kind := kind;
      health := BaseHealth(kind);
      attack := BaseAttack(kind);
      defense := BaseDefense(kind);
      level := 1;
      experience := 0;
      inventory := [];
    }

    method LevelUp()
      modifies this
      ensures State() == LevelUpped(kind, old(State()))
      ensures old(Valid()) ==> Valid()
    {
      level := level + 1;
      health := health + 10;
      attack := attack + 5;
      defense := defense + 5;
      match kind
      case Warrior => attack := attack + 5;
      case Mage => health := health + 5;
      if old(Valid()) {
        LevelUppedSound(kind, old(State()));
      }
    }

    method AddItem(item: Item)
      modifies this
      ensures State() == Equipped(old(State()), item)
      ensures old(Valid()) ==> Valid()
    {
      inventory := inventory + [item];
      attack := attack + item.attackBoost;
      defense := defense + item.defenseBoost;
      if old(Valid()) {
        EquippedSound(kind, old(State()), item);
      }
    }

    method TakeDamage(damage: int)
      modifies this
      ensures State() == Damaged(old(State()), damage)
      ensures old(Valid()) ==> Valid()
    {
      health := health - damage;
      if health < 0 {
        health := 0;
      }
    }

    method GainExperience(amount: int)
      requires level >= 1
      modifies this
      ensures State() == Gained(kind, old(State()), amount)
      ensures experience < Threshold(level) && level >= old(level)
      ensures old(Valid()) ==> Valid()
    {
      experience := experience + amount;
      ghost var start := State();
      assert start == old(State()).(experience := old(experience) + amount);
      while experience >= Threshold(level)
        invariant level >= 1
        invariant Settle(kind, State()) == Settle(kind, start)
        decreases experience
      {
        ghost var before := State();
        experience := experience - Threshold(level);
        LevelUp();
        assert Settle(kind, before) == Settle(kind, State());
      }
      assert Settle(kind, State()) == State();
      if old(Valid()) {
        GainedSound(kind, old(State()), amount);
      }
    }
  }
}
