/** The combat resolver: two characters exchange hits, the first always
    striking first in each round, until one of them falls; the survivor gains
    50 experience. The pseudo-random draws of the damage rolls are passed in
    as a sequence, one draw per hit, consumed in order. */
module Battle {
  import opened Characters

  /** How a fight ended. `NoContest`: one side was already down, so no round
      was fought. `DrawsExhausted`: the sequence of draws ran out while both
      sides still stood (the model's bound on an otherwise unbounded loop). */
  datatype Outcome = NoContest | Side1Defeated | Side2Defeated | DrawsExhausted

  /** The outcome of a fight and the two final states. */
  datatype Resolution = Resolution(outcome: Outcome, s1: CharState, s2: CharState)

  /** Experience awarded to the winner of a fight. */
  const VictoryExperience: int := 50

  /** The damage one hit of `attacker` (of archetype `kind`) does to
      `defender`: what the attack roll exceeds the defense by, never negative. */
  function Hit(kind: Kind, attacker: CharState, defender: CharState, draw: nat): (r: int)
    ensures r >= 0
    ensures r >= Damage(kind, attacker.attack, draw) - defender.defense
    ensures r == 0 || r == Damage(kind, attacker.attack, draw) - defender.defense
    ensures attacker.attack > defender.defense ==> r >= 1
  {
    var d := Damage(kind, attacker.attack, draw) - defender.defense;
    if d < 0 then 0 else d
  }

  /** The fight as a function of the two starting states and the draws. No
      round is fought exactly when a side starts down, and then nothing
      changes; a fight stopped by the end of the draws leaves both standing;
      with no draws at all there is no winner. */
  function Duel(k1: Kind, s1: CharState, k2: Kind, s2: CharState, draws: seq<nat>): (r: Resolution)
    requires s1.level >= 1 && s2.level >= 1
    ensures r.outcome == NoContest <==> !(Alive(s1) && Alive(s2))
    ensures r.outcome == NoContest ==> r.s1 == s1 && r.s2 == s2
    ensures r.outcome == DrawsExhausted ==> Alive(r.s1) && Alive(r.s2)
    ensures draws == [] ==> r.outcome == NoContest || r.outcome == DrawsExhausted
    decreases |draws|
  {
    if !(Alive(s1) && Alive(s2)) then Resolution(NoContest, s1, s2)
    else if |draws| == 0 then Resolution(DrawsExhausted, s1, s2)
    else
      var t2 := Damaged(s2, Hit(k1, s1, s2, draws[0]));
      if !Alive(t2) then Resolution(Side2Defeated, Gained(k1, s1, VictoryExperience), t2)
      else if |draws| == 1 then Resolution(DrawsExhausted, s1, t2)
      else
        var t1 := Damaged(s1, Hit(k2, t2, s1, draws[1]));
        if !Alive(t1) then Resolution(Side1Defeated, t1, Gained(k2, t2, VictoryExperience))
        else Duel(k1, t1, k2, t2, draws[2..])
  }

  /** A fight between sound characters leaves them sound. */
  lemma {:induction false} DuelSound(k1: Kind, s1: CharState, k2: Kind, s2: CharState, draws: seq<nat>)
    requires Sound(k1, s1) && Sound(k2, s2)
    ensures Sound(k1, Duel(k1, s1, k2, s2, draws).s1) && Sound(k2, Duel(k1, s1, k2, s2, draws).s2)
    decreases |draws|
  {
    if Alive(s1) && Alive(s2) && |draws| > 0 {
      var t2 := Damaged(s2, Hit(k1, s1, s2, draws[0]));
      DamagedSound(k2, s2, Hit(k1, s1, s2, draws[0]));
      if !Alive(t2) {
        GainedSound(k1, s1, VictoryExperience);
      } else if |draws| > 1 {
        var t1 := Damaged(s1, Hit(k2, t2, s1, draws[1]));
        DamagedSound(k1, s1, Hit(k2, t2, s1, draws[1]));
        if !Alive(t1) {
          GainedSound(k2, t2, VictoryExperience);
        } else {
          DuelSound(k1, t1, k2, t2, draws[2..]);
        }
      }
    }
  }

  /** A fight decides: it is no contest exactly when a side starts down;
      otherwise, unless the draws run out, exactly one side ends at zero
      health and the other is still standing. */
  lemma {:induction false} DuelDecides(k1: Kind, s1: CharState, k2: Kind, s2: CharState, draws: seq<nat>)
    requires Sound(k1, s1) && Sound(k2, s2)
    ensures var res := Duel(k1, s1, k2, s2, draws);
      && (res.outcome == NoContest <==> !(Alive(s1) && Alive(s2)))
      && (res.outcome == Side2Defeated ==> res.s2.health == 0 && Alive(res.s1))
      && (res.outcome == Side1Defeated ==> res.s1.health == 0 && Alive(res.s2))
      && (res.outcome == DrawsExhausted ==> Alive(res.s1) && Alive(res.s2))
    decreases |draws|
  {
    if Alive(s1) && Alive(s2) && |draws| > 0 {
      var t2 := Damaged(s2, Hit(k1, s1, s2, draws[0]));
      DamagedSound(k2, s2, Hit(k1, s1, s2, draws[0]));
      if !Alive(t2) {
        GainedSound(k1, s1, VictoryExperience);
      } else if |draws| > 1 {
        var t1 := Damaged(s1, Hit(k2, t2, s1, draws[1]));
        DamagedSound(k1, s1, Hit(k2, t2, s1, draws[1]));
        if !Alive(t1) {
          GainedSound(k2, t2, VictoryExperience);
        } else {
          DuelDecides(k1, t1, k2, t2, draws[2..]);
        }
      }
    }
  }

  /** What a fight changes. The loser ends at zero health and is otherwise
      untouched. The winner is its starting state with some health no greater
      than at the start, plus exactly the victory award. If the draws run out,
      both have only lost health. Attack, defense, level, experience and
      inventory change only through the award. */
  lemma {:induction false} DuelEffects(k1: Kind, s1: CharState, k2: Kind, s2: CharState, draws: seq<nat>)
    requires Sound(k1, s1) && Sound(k2, s2)
    ensures var res := Duel(k1, s1, k2, s2, draws);
      && (res.outcome == Side2Defeated ==>
            res.s2 == s2.(health := 0) &&
            exists h :: 0 < h <= s1.health && res.s1 == Gained(k1, s1.(health := h), VictoryExperience))
      && (res.outcome == Side1Defeated ==>
            res.s1 == s1.(health := 0) &&
            exists h :: 0 < h <= s2.health && res.s2 == Gained(k2, s2.(health := h), VictoryExperience))
      && (res.outcome == DrawsExhausted || res.outcome == NoContest ==>
            res.s1 == s1.(health := res.s1.health) && res.s1.health <= s1.health &&
            res.s2 == s2.(health := res.s2.health) && res.s2.health <= s2.health)
    decreases |draws|
  {
    var res := Duel(k1, s1, k2, s2, draws);
    if Alive(s1) && Alive(s2) && |draws| > 0 {
      var t2 := Damaged(s2, Hit(k1, s1, s2, draws[0]));
      if !Alive(t2) {
        assert s1.(health := s1.health) == s1;
      } else if |draws| > 1 {
        var t1 := Damaged(s1, Hit(k2, t2, s1, draws[1]));
        if !Alive(t1) {
          assert t2.(health := t2.health) == t2;
        } else {
          DamagedSound(k2, s2, Hit(k1, s1, s2, draws[0]));
          DamagedSound(k1, s1, Hit(k2, t2, s1, draws[1]));
          DuelEffects(k1, t1, k2, t2, draws[2..]);
          assert res == Duel(k1, t1, k2, t2, draws[2..]);
          if res.outcome == Side2Defeated {
            var h :| 0 < h <= t1.health && res.s1 == Gained(k1, t1.(health := h), VictoryExperience);
            assert t1.(health := h) == s1.(health := h);
          } else if res.outcome == Side1Defeated {
            var h :| 0 < h <= t2.health && res.s2 == Gained(k2, t2.(health := h), VictoryExperience);
            assert t2.(health := h) == s2.(health := h);
          }
        }
      }
    }
  }

  /** The first side's blow comes first: if it fells the second side, the
      first side takes no damage in that round and gains exactly the award. */
  lemma FirstStrikeEndsRound(k1: Kind, s1: CharState, k2: Kind, s2: CharState, draws: seq<nat>)
    requires Sound(k1, s1) && Sound(k2, s2) && Alive(s1) && Alive(s2)
    requires |draws| > 0 && Hit(k1, s1, s2, draws[0]) >= s2.health
    ensures Duel(k1, s1, k2, s2, draws) == Resolution(Side2Defeated, Gained(k1, s1, VictoryExperience), s2.(health := 0))
  {
  }

  /** A fight ends with a winner provided the first side always gets past
      the second side's defense and there are draws enough for that many
      blows: each round then lowers the second side's health by at least 1. */
  lemma {:induction false} DuelTerminates(k1: Kind, s1: CharState, k2: Kind, s2: CharState, draws: seq<nat>)
    requires Sound(k1, s1) && Sound(k2, s2) && Alive(s1) && Alive(s2)
    requires s1.attack > s2.defense
    requires |draws| >= 2 * s2.health - 1
    ensures Duel(k1, s1, k2, s2, draws).outcome in {Side1Defeated, Side2Defeated}
    decreases |draws|
  {
    var t2 := Damaged(s2, Hit(k1, s1, s2, draws[0]));
    if Alive(t2) {
      var t1 := Damaged(s1, Hit(k2, t2, s1, draws[1]));
      if Alive(t1) {
        DamagedSound(k2, s2, Hit(k1, s1, s2, draws[0]));
        DamagedSound(k1, s1, Hit(k2, t2, s1, draws[1]));
        DuelTerminates(k1, t1, k2, t2, draws[2..]);
      }
    }
  }

  /** The mirror case: a fight also ends with a winner when the second side
      always gets past the first side's defense and there are draws enough
      for that many rounds, even if the first side can never do damage:
      each round then lowers the first side's health by at least 1. */
  lemma {:induction false} DuelTerminatesSecond(k1: Kind, s1: CharState, k2: Kind, s2: CharState, draws: seq<nat>)
    requires Sound(k1, s1) && Sound(k2, s2) && Alive(s1) && Alive(s2)
    requires s2.attack > s1.defense
    requires |draws| >= 2 * s1.health
    ensures Duel(k1, s1, k2, s2, draws).outcome in {Side1Defeated, Side2Defeated}
    decreases |draws|
  {
    var t2 := Damaged(s2, Hit(k1, s1, s2, draws[0]));
    if Alive(t2) {
      var t1 := Damaged(s1, Hit(k2, t2, s1, draws[1]));
      if Alive(t1) {
        DamagedSound(k2, s2, Hit(k1, s1, s2, draws[0]));
        DamagedSound(k1, s1, Hit(k2, t2, s1, draws[1]));
        DuelTerminatesSecond(k1, t1, k2, t2, draws[2..]);
      }
    }
  }

  /** A round in which both sides stay standing: each loses exactly the
      other's hit, and the fight goes on with the draws after the two used. */
  lemma DuelRound(k1: Kind, s1: CharState, k2: Kind, s2: CharState, draws: seq<nat>)
    requires s1.level >= 1 && s2.level >= 1 && Alive(s1) && Alive(s2) && |draws| >= 2
    requires Hit(k1, s1, s2, draws[0]) < s2.health && Hit(k2, s2, s1, draws[1]) < s1.health
    ensures Duel(k1, s1, k2, s2, draws)
         == Duel(k1, s1.(health := s1.health - Hit(k2, s2, s1, draws[1])),
                 k2, s2.(health := s2.health - Hit(k1, s1, s2, draws[0])), draws[2..])
  {
  }

  /** A fresh Warrior against a fresh Mage, every draw 0: each deals 15 per
      hit, the Mage falls on the Warrior's sixth blow, the Warrior has taken
      five blows and ends with 25 health and 50 experience at level 1. */
  lemma WarriorBeatsMage(draws: seq<nat>)
    requires |draws| >= 11 && forall k :: 0 <= k < |draws| ==> draws[k] == 0
    ensures Duel(Warrior, Initial(Warrior), Mage, Initial(Mage), draws)
         == Resolution(Side2Defeated, Initial(Warrior).(health := 25, experience := 50), Initial(Mage).(health := 0))
  {
    WarriorBeatsMageFrom(5, draws);
  }

  /** The same fight with `n` full rounds still to go before the last blow. */
  lemma {:induction false} WarriorBeatsMageFrom(n: nat, draws: seq<nat>)
    requires n <= 5 && |draws| >= 2 * n + 1 && forall k :: 0 <= k < |draws| ==> draws[k] == 0
    ensures Duel(Warrior, Initial(Warrior).(health := 25 + 15 * n), Mage, Initial(Mage).(health := 5 + 15 * n), draws)
         == Resolution(Side2Defeated, Initial(Warrior).(health := 25, experience := 50), Initial(Mage).(health := 0))
  {
    var w, m := Initial(Warrior).(health := 25 + 15 * n), Initial(Mage).(health := 5 + 15 * n);
    assert draws[0] == 0;
    assert Hit(Warrior, w, m, 0) == 15;
    if n == 0 {
      FirstStrikeEndsRound(Warrior, w, Mage, m, draws);
      assert Gained(Warrior, w, VictoryExperience) == w.(experience := 50);
    } else {
      assert draws[1] == 0;
      assert Hit(Mage, m, w, 0) == 15;
      DuelRound(Warrior, w, Mage, m, draws);
      assert w.(health := w.health - 15) == Initial(Warrior).(health := 25 + 15 * (n - 1));
      assert m.(health := m.health - 15) == Initial(Mage).(health := 5 + 15 * (n - 1));
      WarriorBeatsMageFrom(n - 1, draws[2..]);
    }
  }

  /** The fight loop: `c1` strikes, and if `c2` falls `c1` gains the award
      and the fight is over; otherwise `c2` strikes back, and if `c1` falls
      `c2` gains the award. Each damage roll takes the next draw. */
  method Fight(c1: Character, c2: Character, draws: seq<nat>) returns (outcome: Outcome)
    requires c1 != c2
    requires c1.Valid() && c2.Valid()
    modifies c1, c2
    ensures c1.Valid() && c2.Valid()
    ensures Resolution(outcome, c1.State(), c2.State())
         == Duel(c1.kind, old(c1.State()), c2.kind, old(c2.State()), draws)
  {
    ghost var start := Duel(c1.kind, c1.State(), c2.kind, c2.State(), draws);
    DuelSound(c1.kind, c1.State(), c2.kind, c2.State(), draws);
    outcome := NoContest;
    var i := 0;
    while Alive(c1.State()) && Alive(c2.State())
      invariant 0 <= i <= |draws|
      invariant c1.Valid() && c2.Valid()
      invariant outcome == NoContest || outcome == Side1Defeated
      invariant outcome == NoContest ==> start == Duel(c1.kind, c1.State(), c2.kind, c2.State(), draws[i..])
      invariant outcome == Side1Defeated ==> start == Resolution(outcome, c1.State(), c2.State()) && !Alive(c1.State())
      decreases |draws| - i
    {
      ghost var r1, r2, rest := c1.State(), c2.State(), draws[i..];
      if i == |draws| {
        outcome := DrawsExhausted;
        return;
      }
      var damageToC2 := Damage(c1.kind, c1.attack, draws[i]) - c2.defense;
      if damageToC2 < 0 {
        damageToC2 := 0;
      }
      assert damageToC2 == Hit(c1.kind, r1, r2, rest[0]);
      i := i + 1;
      c2.TakeDamage(damageToC2);
      ghost var t2 := c2.State();
      if !Alive(c2.State()) {
        assert start == Resolution(Side2Defeated, Gained(c1.kind, r1, VictoryExperience), t2);
        c1.GainExperience(VictoryExperience);
        outcome := Side2Defeated;
        return;
      }
      if i == |draws| {
        outcome := DrawsExhausted;
        return;
      }
      var damageToC1 := Damage(c2.kind, c2.attack, draws[i]) - c1.defense;
      if damageToC1 < 0 {
        damageToC1 := 0;
      }
      assert damageToC1 == Hit(c2.kind, t2, r1, rest[1]);
      assert rest[2..] == draws[i + 1..];
      i := i + 1;
      c1.TakeDamage(damageToC1);
      if !Alive(c1.State()) {
        assert start == Resolution(Side1Defeated, c1.State(), Gained(c2.kind, t2, VictoryExperience));
        c2.GainExperience(VictoryExperience);
        outcome := Side1Defeated;
      }
    }
  }
}
