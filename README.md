# RPG battle simulation — a verified Dafny model

This project models the core of a small turn-based role-playing simulation
written in C++ (`main.cpp`). That core has four parts:

- Characters of two archetypes, Warrior and Mage. Each has health, attack,
  defense, a level, experience and an inventory of items.
- Equipment items whose bonuses are added to attack and defense when equipped.
- The progression rule, which turns an experience award into one or more
  level-ups.
- The combat resolver, where two characters trade blows until one falls and
  the survivor gains 50 experience.

The program also contains an in-place insertion sort, which is modelled too.

Module layout:

- `items.dfy`, module `Items`: the `Item` datatype, the random item generator,
  and the bonus totals of an inventory.
- `characters.dfy`, module `Characters`:
  - the archetypes as a `Kind` enumeration, which replaces the source's
    virtual dispatch;
  - a character's mutable state as the value `CharState`;
  - the rules as pure functions (`Damage`, `Damaged`, `Equipped`,
    `LevelUpped`, `Settle`, `Gained`);
  - the object invariant `Sound` and the lemmas that every rule preserves it;
  - the class `Character`, whose methods update the fields in place. Each
    method is proved to produce the new state its rule function gives.
- `battle.dfy`, module `Battle`:
  - the fight as a pure function `Duel` of the two starting states and the
    damage draws;
  - the imperative `Fight` loop, proved equal to `Duel`;
  - lemmas on who wins, what changes and when a fight must end.
- `sorting.dfy`, module `Sorting`: `InsertionSort` over an `array<int>`,
  proved to sort and to permute. A lemma shows that sorted permutations are
  unique.

The source draws pseudo-random numbers with `rand()`. The model takes the
draws as explicit `nat` parameters instead. `Damage` reduces its draw modulo 5
(Warrior) or 10 (Mage); `GenerateRandomItem` takes three draws, in the order
the source makes them. `Fight` takes a `seq<nat>` and uses one draw per blow,
in order.

The class invariant `Sound` is stronger than "health is never negative". It
also says that the level is at least 1 and that experience is below the
current level's threshold. And it says that attack and defense equal the
archetype's base value, plus one growth step per level gained, plus the
bonuses of every item in the inventory. Every operation preserves it.

## Model

| member | source | states |
|---|---|---|
| `Items.GenerateRandomItem` | main.cpp:164-170 | the name is the first draw's pick from Sword/Shield/Amulet/Ring; each bonus is its draw mod 10 plus 1, so it lies in [1, 10] |
| `Items.GeneratorCovers` | main.cpp:164-170 | every item with a vocabulary name and bonuses in [1, 10] comes out of the generator for some draws |
| `Items.SumAppend` | main.cpp:62-66 | appending an item adds exactly its bonuses to the inventory's attack and defense totals |
| `Characters.Damage` | main.cpp:68-70 | a Warrior's damage is in [attack, attack+4] and a Mage's in [attack, attack+9] (the Mage override is main.cpp:118-120) |
| `Characters.DamageCovers` | main.cpp:68-70 | every value in the archetype's damage range is dealt for some draw, for the Warrior's roll and for the Mage override at main.cpp:118-120 alike |
| `Characters.Damaged` | main.cpp:81-84 | health never goes negative; it is 0 exactly when the damage reaches it, and otherwise it drops by exactly the damage; it never rises for non-negative damage; nothing else changes |
| `Characters.DamagedAlive` | main.cpp:72 | `isAlive`, modelled by `Alive` (health > 0), holds after a hit exactly when health exceeded the damage, and a character already down stays down under a non-negative hit |
| `Characters.Equipped` | main.cpp:62-66 | the item is appended at the end of the inventory; attack and defense rise by its bonuses; health, level and experience are unchanged |
| `Characters.LevelUpped` | main.cpp:102-116 | level +1 and defense +5 for both archetypes; attack +10 and health +10 for a Warrior; attack +5 and health +15 for a Mage; experience and inventory unchanged |
| `Characters.Settle` | main.cpp:88-91 | the carry-over loop ends below the threshold level*100 of the final level; the level never decreases; non-negative experience stays non-negative; with no threshold reached nothing changes, and otherwise at least one level is gained |
| `Characters.SettleGrowth` | main.cpp:88-91 | the experience spent is exactly the sum of the thresholds of the levels climbed; health, attack and defense grow by the per-level amounts once per level climbed; the inventory is unchanged |
| `Characters.InitialSound` | main.cpp:97-111 | a freshly built Warrior or Mage satisfies the invariant and is alive |
| `Characters.DamagedSound` | main.cpp:81-84 | taking damage preserves the invariant |
| `Characters.EquippedSound` | main.cpp:62-66 | equipping an item preserves the invariant, with the item's bonuses now counted in attack and defense |
| `Characters.LevelUppedSound` | main.cpp:55-60 | a level-up preserves the invariant |
| `Characters.Gained` | main.cpp:86-92 | an award never lowers the level; the experience left is below the new level's threshold; it equals the old experience plus the award minus the thresholds of the levels climbed; a non-negative award on non-negative experience leaves it non-negative; the inventory is unchanged |
| `Characters.GainedSound` | main.cpp:86-92 | an award preserves the invariant; level and health never drop; a non-negative award on non-negative experience leaves experience non-negative |
| `Characters.GainedExamples` | main.cpp:86-92 | from level 1: an award of 250 gives level 2 with 150 left; 350 gives level 3 with 50 left; 50 gives level 1 with 50 |
| `Characters.Character.constructor` | main.cpp:97-111 | a Warrior starts at 100/20/10 and a Mage at 80/25/5 (health/attack/defense); both start at level 1 with 0 experience and an empty inventory; the invariant holds |
| `Characters.Character.LevelUp` | main.cpp:55-60 | the new state is `LevelUpped` of the old one for the character's archetype; the invariant is kept |
| `Characters.Character.AddItem` | main.cpp:62-66 | the new state is `Equipped` of the old one; the invariant is kept |
| `Characters.Character.TakeDamage` | main.cpp:81-84 | the new state is `Damaged` of the old one; the invariant is kept |
| `Characters.Character.GainExperience` | main.cpp:86-92 | the loop terminates; the new state is `Gained` of the old one (add, then settle); experience ends below level*100; the level never decreases; the invariant is kept |
| `Battle.Hit` | main.cpp:129-130 | a blow does max(0, damage roll − defender's defense): never negative, never less than the roll's excess over the defense and otherwise exactly that excess or 0; at least 1 when attack exceeds the defender's defense |
| `Battle.Duel` | main.cpp:128-147 | no round is fought exactly when a side starts at 0 health, and then both states are unchanged; a fight stopped by the end of the draws leaves both sides alive; with no draws there is no winner |
| `Battle.DuelSound` | main.cpp:128-147 | both combatants still satisfy the invariant after a fight |
| `Battle.DuelDecides` | main.cpp:128-147 | no round is fought exactly when a side starts at 0 health; when side 2 is defeated it ends at 0 and side 1 is alive, and vice versa; if the draws run out both are alive |
| `Battle.DuelEffects` | main.cpp:128-147 | the loser ends at 0 health and is otherwise unchanged; the winner is its starting state with some health no higher than at the start, plus exactly the 50-experience award; without a winner, both have only lost health |
| `Battle.FirstStrikeEndsRound` | main.cpp:129-137 | if side 1's blow fells side 2, side 1 takes no damage in that round and gains exactly 50 experience |
| `Battle.DuelRound` | main.cpp:129-147 | a round in which both sides stand costs each exactly the other's blow and uses up two draws |
| `Battle.DuelTerminates` | main.cpp:128-147 | if side 1's attack exceeds side 2's defense and there are at least 2*health2 − 1 draws, the fight ends with a winner |
| `Battle.DuelTerminatesSecond` | main.cpp:128-147 | the mirror case: if side 2's attack exceeds side 1's defense and there are at least 2*health1 draws, the fight ends with a winner, even when side 1 can never do damage |
| `Battle.WarriorBeatsMage` | main.cpp:126-148 | fresh Warrior against fresh Mage with all draws 0: the Mage falls on the sixth blow; the Warrior ends at 25 health with 50 experience at level 1 |
| `Battle.Fight` | main.cpp:126-148 | the imperative loop ends in the outcome and states that `Duel` gives for the same inputs and draws; both characters keep the invariant |
| `Sorting.InsertAt` | main.cpp:176-182 | one outer pass, which lifts out an element and shifts the larger ones right: a sorted prefix of length i becomes one of length i+1, with the same elements overall, and the elements after position i are untouched |
| `Sorting.InsertionSort` | main.cpp:174-184 | the array ends sorted in non-decreasing order and is a permutation of its input (multiset equality) |
| `Sorting.SortedUnique` | main.cpp:174-184 | two sorted sequences with the same elements are equal, so the sorted result is determined by the input |
| `Sorting.SortExample` | main.cpp:173-184 | keys 12, 5, 18, 5, 9 sort to 5, 5, 9, 12, 18 |

## Left out

- `toString` and all console output are not modelled: they are formatting and I/O.
- `srand(time(0))` and the global `rand()` state are not modelled: the draws are parameters instead.
- The `GameEntity` base class and `main` are not modelled: they hold no logic beyond wiring.
- The template `generateRandomCharacter` is modelled only as the plain constructor per archetype. Its `throw` branch for an unsupported type cannot be reached once the archetype is the two-valued `Kind`.
- The getters are read directly, through the fields of `Character`; `isAlive` is the predicate `Characters.Alive`.
- Battle.Fight: the source's loop is unbounded. The model bounds it by the draw sequence: when the draws run out with both sides standing, it stops with `DrawsExhausted`, possibly between the two blows of a round. `Battle.DuelTerminates` and `Battle.DuelTerminatesSecond` give conditions under which this cannot happen: either side's attack exceeds the other's defense and there are enough draws. The source's endless stalemate, where no blow ever gets past the defense, is therefore not modelled.
- Battle.Fight: requires the two characters to be distinct objects. The C++ signature would accept the same character twice, but no caller does that. It also requires both characters to satisfy the object invariant, which every Warrior and Mage satisfies from construction on.
- Characters.Character.GainExperience: requires `level >= 1`. The source has no such precondition, but every character satisfies it from construction on.
- Plain `Character` objects are not modelled. The C++ base class is concrete, and its public constructor (main.cpp:49-50) accepts any health, attack and defense. Such an object levels up with the base rule only (main.cpp:55-60: +10 health, +5 attack, +5 defense, no archetype extra). It may also start with negative health or stats that do not fit the invariant `Sound`. The model's `Kind` has only `Warrior` and `Mage`, the two kinds `main` builds, so its results hold for those two archetypes.
- The C++ `int` fields are 32 bits wide, but the model's integers are unbounded, so overflow of health, attack, defense, experience or `level * 100` is not modelled. No reachable game state comes near that range.
- The model sorts integers rather than `Item`s, because `Item` defines no comparison operator in the source. The sort keys stand for the items' combined bonuses. The source file holds only the insertion sort; no other sorting variant is present to model.
- The outer loop pass of `insertionSort` (main.cpp:176-182) is a separate method, `Sorting.InsertAt`. This keeps each proof small; the order of array writes is unchanged.
