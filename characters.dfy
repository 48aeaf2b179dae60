/**
 * The character record and the operations that change it in place:
 * creation, `level_up`, `allocate_bonus_points`, `add_to_inventory` and the
 * weapon search of the inventory menu.
 */
module Characters {
  import opened Wrappers
  import opened Json
  import opened Items
  import opened Bonus

  /** Everything a character dict holds, as one value. */
  datatype CharacterState = CharacterState(
    name: string,
    level: int,
    exp: int,
    attributes: Attributes,
    currentWeapon: Option<Weapon>,
    inventory: seq<Item>)

  /** The equipped weapon, if any, is one of the inventory's weapons. */
  predicate EquippedIn(weapon: Option<Weapon>, inventory: seq<Item>)
  {
    weapon.Some? ==> WeaponItem(weapon.value) in inventory
  }

  /** The four `random.randint` draws of one `level_up`. */
  datatype LevelDraws = LevelDraws(health: int, strength: int, intelligence: int, dexterity: int)

  predicate ValidDraws(d: LevelDraws)
  {
    5 <= d.health <= 10 && 1 <= d.strength <= 3 && 1 <= d.intelligence <= 3 && 1 <= d.dexterity <= 3
  }

  /** The attributes after a level-up with the given draws. */
  function LevelUpAttributes(a: Attributes, d: LevelDraws): Attributes
  {
    Attributes(a.health + d.health, a.strength + d.strength, a.intelligence + d.intelligence,
               a.dexterity + d.dexterity, a.bonusPoints + 1)
  }

  /** An entry the equip search accepts for the (already capitalized) input. */
  predicate IsWeaponNamed(it: Item, key: string)
  {
    it.WeaponItem? && it.weapon.name == Str(key)
  }

  /**
   * The equip search: the index of the first weapon in the inventory whose
   * name is `key`, or None when there is none.
   */
  method FindWeapon(inventory: seq<Item>, key: string) returns (found: Option<nat>)
    ensures found.Some? ==> found.value < |inventory| && IsWeaponNamed(inventory[found.value], key)
    ensures found.Some? ==> forall j :: 0 <= j < found.value ==> !IsWeaponNamed(inventory[j], key)
    ensures found.None? ==> forall j :: 0 <= j < |inventory| ==> !IsWeaponNamed(inventory[j], key)
  {
    found := None;
    for i := 0 to |inventory|
      invariant found.None?
      invariant forall j :: 0 <= j < i ==> !IsWeaponNamed(inventory[j], key)
    {
      if IsWeaponNamed(inventory[i], key) {
        found := Some(i);
        break;
      }
    }
  }

  class Character {
    const name: string
    var health: int
    var strength: int
    var intelligence: int
    var dexterity: int
    var level: int
    var exp: int
    var bonusPoints: int
    var currentWeapon: Option<Weapon>
    var inventory: seq<Item>

    function Attrs(): Attributes
      reads this
    {
      Attributes(health, strength, intelligence, dexterity, bonusPoints)
    }

    function State(): CharacterState
      reads this
    {
      CharacterState(name, level, exp, Attrs(), currentWeapon, inventory)
    }

    predicate EquippedInInventory()
      reads this
    {
      EquippedIn(currentWeapon, inventory)
    }

    /** `create_character`: the fresh record for the name the player typed. */
    constructor (name: string)
      ensures State() == CharacterState(name, 1, 0, Attributes(100, 10, 10, 10, 0), None, [])
      ensures EquippedInInventory()
    {
      this.name := name;
      health, strength, intelligence, dexterity := 100, 10, 10, 10;
      level, exp, bonusPoints := 1, 0, 0;
      currentWeapon, inventory := None, [];
    }

    /** A character continued from a loaded record. */
    constructor Restore(s: CharacterState)
      ensures State() == s
    {
      name := s.name;
      health, strength, intelligence, dexterity := s.attributes.health, s.attributes.strength,
        s.attributes.intelligence, s.attributes.dexterity;
      level, exp, bonusPoints := s.level, s.exp, s.attributes.bonusPoints;
      currentWeapon, inventory := s.currentWeapon, s.inventory;
    }

    /**
     * `level_up`: one more level and one more bonus point, experience back
     * to 0, health up by 5 to 10 and each other attribute up by 1 to 3.
     */
    method LevelUp(d: LevelDraws)
      requires ValidDraws(d)
      modifies this
      ensures level == old(level) + 1 && exp == 0 && bonusPoints == old(bonusPoints) + 1
      ensures Attrs() == LevelUpAttributes(old(Attrs()), d)
      ensures old(health) + 5 <= health <= old(health) + 10
      ensures old(strength) + 1 <= strength <= old(strength) + 3
      ensures old(intelligence) + 1 <= intelligence <= old(intelligence) + 3
      ensures old(dexterity) + 1 <= dexterity <= old(dexterity) + 3
      ensures currentWeapon == old(currentWeapon) && inventory == old(inventory)
    {
      level := level + 1;
      exp := 0;
      bonusPoints := bonusPoints + 1;
      health := health + d.health;
      strength := strength + d.strength;
      intelligence := intelligence + d.intelligence;
      dexterity := dexterity + d.dexterity;
    }

    /**
     * `allocate_bonus_points`, reading the answers from `choices` instead of
     * the console; `consumed` is the number of answers read. It stops with no
     * point left, or, with points left, only once every answer is read.
     */
    method AllocateBonusPoints(choices: seq<string>) returns (consumed: nat)
      modifies this
      ensures Attrs() == Allocate(old(Attrs()), choices)
      ensures consumed <= |choices|
      ensures consumed < |choices| ==> bonusPoints <= 0
      ensures Attrs() == Allocate(old(Attrs()), choices[..consumed])
      ensures forall j :: 0 <= j < consumed ==> Allocate(old(Attrs()), choices[..j]).bonusPoints > 0
      ensures level == old(level) && exp == old(exp)
      ensures currentWeapon == old(currentWeapon) && inventory == old(inventory)
    {
      consumed := 0;
      while bonusPoints > 0 && consumed < |choices|
        invariant consumed <= |choices|
        invariant Allocate(Attrs(), choices[consumed..]) == Allocate(old(Attrs()), choices)
        invariant Attrs() == Allocate(old(Attrs()), choices[..consumed])
        invariant forall j :: 0 <= j < consumed ==> Allocate(old(Attrs()), choices[..j]).bonusPoints > 0
        invariant level == old(level) && exp == old(exp)
        invariant currentWeapon == old(currentWeapon) && inventory == old(inventory)
        decreases |choices| - consumed
      {
        var choice := choices[consumed];
        assert choices[consumed..][1..] == choices[consumed + 1..];
        assert choices[..consumed + 1] == choices[..consumed] + [choice];
        AllocateSnoc(old(Attrs()), choices[..consumed], choice);
        ApplyAnswer(choice);
        consumed := consumed + 1;
      }
    }

    /** One pass of the allocation loop's body with the answer `choice`. */
    method ApplyAnswer(choice: string)
      modifies this
      ensures Attrs() == ApplyChoice(old(Attrs()), choice)
      ensures level == old(level) && exp == old(exp)
      ensures currentWeapon == old(currentWeapon) && inventory == old(inventory)
    {
      match ChoiceAttribute(choice) {
        case None =>
        case Some(Health) =>
          health := health + 1;
          bonusPoints := bonusPoints - 1;
        case Some(Strength) =>
          strength := strength + 1;
          bonusPoints := bonusPoints - 1;
        case Some(Intelligence) =>
          intelligence := intelligence + 1;
          bonusPoints := bonusPoints - 1;
        case Some(Dexterity) =>
          dexterity := dexterity + 1;
          bonusPoints := bonusPoints - 1;
      }
    }

    /** `add_to_inventory`: the loot goes at the end; nothing else changes. */
    method AddToInventory(loot: Item)
      modifies this
      ensures inventory == old(inventory) + [loot]
      ensures Attrs() == old(Attrs()) && level == old(level) && exp == old(exp)
      ensures currentWeapon == old(currentWeapon)
      ensures old(EquippedInInventory()) ==> EquippedInInventory()
    {
      inventory := inventory + [loot];
    }

    /**
     * The equip step of the inventory menu, given the capitalized input:
     * "Q" leaves the menu; otherwise the first weapon named `key` becomes
     * the current weapon and its index is returned, and without one nothing
     * changes.
     */
    method Equip(key: string) returns (slot: Option<nat>)
      modifies this`currentWeapon
      ensures key == "Q" ==> slot.None?
      ensures slot.Some? ==> slot.value < |inventory| && IsWeaponNamed(inventory[slot.value], key)
      ensures slot.Some? ==> forall j :: 0 <= j < slot.value ==> !IsWeaponNamed(inventory[j], key)
      ensures slot.Some? ==> currentWeapon == Some(inventory[slot.value].weapon)
      ensures slot.None? ==> currentWeapon == old(currentWeapon)
      ensures key != "Q" && slot.None? ==> forall j :: 0 <= j < |inventory| ==> !IsWeaponNamed(inventory[j], key)
      ensures old(EquippedInInventory()) ==> EquippedInInventory()
    {
      if key == "Q" {
        return None;
      }
      slot := FindWeapon(inventory, key);
      if slot.Some? {
        currentWeapon := Some(inventory[slot.value].weapon);
      }
    }
  }
}
