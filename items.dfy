/**
 * Inventory entries: the `Weapon` class with its record form, and the loot
 * table that produces new entries after a won battle.
 */
module Items {
  import opened Wrappers
  import opened Json

  /**
   * A weapon. Its two attributes hold whatever the record it was read from
   * held, so both are JSON values; weapons made by the loot table carry a
   * string name and the list [5, 15] as damage range.
   */
  datatype Weapon = Weapon(name: Json, damageRange: Json)

  /** An inventory entry: a weapon object, or any other value kept as it is ("Gold"). */
  datatype Item = WeaponItem(weapon: Weapon) | Plain(value: Json)

  /** `Weapon.to_json`: the record with exactly the keys "name" and "damage_range". */
  function ToJson(w: Weapon): (r: Json)
    ensures r.Obj? && r.fields.Keys == {"name", "damage_range"}
    ensures r.fields["name"] == w.name && r.fields["damage_range"] == w.damageRange
  {
    Obj(map["name" := w.name, "damage_range" := w.damageRange])
  }

  /** A value `from_dict` turns into a weapon. */
  predicate WeaponShaped(v: Json)
  {
    v.Obj? && "name" in v.fields && "damage_range" in v.fields
  }

  /**
   * `Weapon.from_dict`: a weapon exactly when the value is an object with
   * both keys; other keys are ignored; anything else gives None.
   */
  function FromDict(v: Json): (r: Option<Weapon>)
    ensures r.Some? <==> WeaponShaped(v)
    ensures r.Some? ==> ToJson(r.value).fields == map k | k in {"name", "damage_range"} :: v.fields[k]
  {
    if WeaponShaped(v) then Some(Weapon(v.fields["name"], v.fields["damage_range"])) else None
  }

  /** Reading back the record of a weapon gives the same weapon. */
  lemma WeaponRoundTrip(w: Weapon)
    ensures WeaponShaped(ToJson(w))
    ensures FromDict(ToJson(w)) == Some(w)
  {
  }

  /**
   * Reading a record, writing it and reading it again gives what the first
   * read gave: extra keys are dropped once, and nothing else is lost.
   */
  lemma FromDictStable(v: Json)
    requires WeaponShaped(v)
    ensures FromDict(ToJson(FromDict(v).value)) == FromDict(v)
  {
  }

  /** `random.choice` over this list picks the loot of `generate_loot`. */
  const LootTypes: seq<string> := ["Gold", "Health Potion", "Sword", "Axe", "Bow"]

  /** The damage range every looted weapon gets. */
  const LootDamage: Json := Arr([Num(5), Num(15)])

  /** The name shown for an entry: a weapon's name, or the entry itself. */
  function Label(it: Item): Json
  {
    match it
    case WeaponItem(w) => w.name
    case Plain(v) => v
  }

  /**
   * `generate_loot`, given the index `roll` that `random.choice` drew:
   * "Gold" or "Health Potion" as plain strings, or a Sword, Axe or Bow
   * weapon with damage range [5, 15].
   */
  function GenerateLoot(roll: nat): (loot: Item)
    requires roll < |LootTypes|
    ensures loot == Plain(Str("Gold")) || loot == Plain(Str("Health Potion"))
         || (loot.WeaponItem? && loot.weapon.damageRange == LootDamage &&
             loot.weapon.name in [Str("Sword"), Str("Axe"), Str("Bow")])
    ensures Label(loot) == Str(LootTypes[roll])
    ensures loot.WeaponItem? <==> roll >= 2
  {
    var name := LootTypes[roll];
    if name in ["Sword", "Axe", "Bow"] then WeaponItem(Weapon(Str(name), LootDamage)) else Plain(Str(name))
  }

  /** Every one of the five outcomes is drawn by exactly one roll. */
  lemma LootRollsDistinct(i: nat, j: nat)
    requires i < |LootTypes| && j < |LootTypes|
    ensures GenerateLoot(i) == GenerateLoot(j) <==> i == j
  {
  }
}
