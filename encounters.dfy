/**
 * Encounters: fleeing (`run_away`), the binary strength comparison of
 * `battle`, and `explore_area`, which may start a battle.
 */
module Encounters {
  import opened Items
  import opened Bonus
  import opened Characters

  /** `run_away`, given the `random.randint(1, 100)` roll. */
  predicate RunAway(dexterity: int, roll: int)
    requires 1 <= roll <= 100
    ensures RunAway(dexterity, roll) <==> roll <= Clamp(dexterity * 2, 100)
  {
    roll <= dexterity * 2
  }

  /** From dexterity 50 on, every roll escapes; at 0 or below, none does. */
  lemma RunAwayExtremes(dexterity: int, roll: int)
    requires 1 <= roll <= 100
    ensures dexterity >= 50 ==> RunAway(dexterity, roll)
    ensures dexterity <= 0 ==> !RunAway(dexterity, roll)
  {
  }

  /** How many of the rolls 1 to n escape. */
  function Escapes(dexterity: int, n: nat): nat
    requires n <= 100
  {
    if n == 0 then 0 else Escapes(dexterity, n - 1) + (if RunAway(dexterity, n) then 1 else 0)
  }

  /** `x` clamped to 0..hi. */
  function Clamp(x: int, hi: nat): nat
  {
    if x <= 0 then 0 else if x >= hi then hi else x
  }

  /** Of the first n rolls, `dexterity * 2` escape, clamped to 0..n. */
  lemma {:induction false} EscapesUpTo(dexterity: int, n: nat)
    requires n <= 100
    ensures Escapes(dexterity, n) == Clamp(dexterity * 2, n)
  {
    if n > 0 {
      EscapesUpTo(dexterity, n - 1);
    }
  }

  /**
   * Of the 100 equally likely rolls, `dexterity * 2` escape, clamped to
   * 0..100: the escape chance in percent.
   */
  lemma RunAwayOdds(dexterity: int)
    ensures Escapes(dexterity, 100) == Clamp(dexterity * 2, 100)
  {
    EscapesUpTo(dexterity, 100);
  }

  /**
   * `battle` against an enemy of strength `enemyStrength`, given the draws:
   * the experience gain, the level-up increments, the bonus-point answers and
   * the loot roll. A stronger enemy changes nothing; otherwise the gain is
   * added, 50 or more experience levels up and allocates, and exactly one
   * loot entry is appended.
   */
  method Battle(c: Character, enemyStrength: int, expGain: int, draws: LevelDraws,
                choices: seq<string>, lootRoll: nat) returns (won: bool)
    requires 10 <= expGain <= 20 && ValidDraws(draws) && lootRoll < |LootTypes|
    modifies c
    ensures won == (old(c.strength) >= enemyStrength)
    ensures !won ==> c.State() == old(c.State())
    ensures won ==> c.inventory == old(c.inventory) + [GenerateLoot(lootRoll)]
    ensures won ==> c.exp < 50
    ensures won && old(c.exp) + expGain < 50 ==>
      c.exp == old(c.exp) + expGain && c.level == old(c.level) && c.Attrs() == old(c.Attrs())
    ensures won && old(c.exp) + expGain >= 50 ==>
      c.exp == 0 && c.level == old(c.level) + 1 &&
      c.Attrs() == Allocate(LevelUpAttributes(old(c.Attrs()), draws), choices)
    ensures c.currentWeapon == old(c.currentWeapon)
    ensures old(c.EquippedInInventory()) ==> c.EquippedInInventory()
  {
    won := c.strength >= enemyStrength;
    if won {
      c.exp := c.exp + expGain;
      if c.exp >= 50 {
        c.LevelUp(draws);
        var _ := c.AllocateBonusPoints(choices);
      }
      var loot := GenerateLoot(lootRoll);
      c.AddToInventory(loot);
    }
  }

  /**
   * `explore_area`, given the coin flip and the enemy strength it drew
   * (5 to 15): heads fights a battle, tails changes nothing.
   */
  method Explore(c: Character, coin: bool, enemyStrength: int, expGain: int, draws: LevelDraws,
                 choices: seq<string>, lootRoll: nat) returns (won: bool)
    requires 5 <= enemyStrength <= 15
    requires 10 <= expGain <= 20 && ValidDraws(draws) && lootRoll < |LootTypes|
    modifies c
    ensures !coin ==> !won && c.State() == old(c.State())
    ensures coin ==> won == (old(c.strength) >= enemyStrength)
    ensures coin && !won ==> c.State() == old(c.State())
    ensures won ==> c.inventory == old(c.inventory) + [GenerateLoot(lootRoll)] && c.exp < 50
    ensures won && old(c.exp) + expGain < 50 ==>
      c.exp == old(c.exp) + expGain && c.level == old(c.level) && c.Attrs() == old(c.Attrs())
    ensures won && old(c.exp) + expGain >= 50 ==>
      c.exp == 0 && c.level == old(c.level) + 1 &&
      c.Attrs() == Allocate(LevelUpAttributes(old(c.Attrs()), draws), choices)
    ensures c.currentWeapon == old(c.currentWeapon)
    ensures old(c.EquippedInInventory()) ==> c.EquippedInInventory()
  {
    won := false;
    if coin {
      won := Battle(c, enemyStrength, expGain, draws, choices, lootRoll);
    }
  }
}
