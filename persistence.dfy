/**
 * The record transformations of `save_character` and `load_character`:
 * weapons become records on save, and records with "name" and
 * "damage_range" become weapons again on load. Opening, writing and
 * parsing the file are not part of this model.
 */
module Persistence {
  import opened Wrappers
  import opened Json
  import opened Items
  import opened Bonus
  import opened Characters

  /** An inventory entry as it is saved: weapons as records, the rest as is. */
  function SaveItem(it: Item): (r: Json)
    ensures it.WeaponItem? ==> r.Obj? && r.fields.Keys == {"name", "damage_range"}
    ensures it.WeaponItem? ==> FromDict(r) == Some(it.weapon)
    ensures it.Plain? ==> r == it.value
  {
    match it
    case WeaponItem(w) => ToJson(w)
    case Plain(v) => v
  }

  /** A saved entry as it is loaded: a weapon if `from_dict` accepts it. */
  function LoadItem(v: Json): (r: Item)
    ensures r.WeaponItem? <==> WeaponShaped(v)
    ensures r.WeaponItem? ==> Some(r.weapon) == FromDict(v)
    ensures r.Plain? ==> r.value == v
  {
    match FromDict(v)
    case Some(w) => WeaponItem(w)
    case None => Plain(v)
  }

  /** The inventory list comprehension of `save_character`. */
  function SaveInventory(items: seq<Item>): (r: seq<Json>)
    ensures |r| == |items|
    ensures forall i :: 0 <= i < |items| && items[i].WeaponItem? ==> r[i] == ToJson(items[i].weapon)
    ensures forall i :: 0 <= i < |items| && items[i].WeaponItem? ==> FromDict(r[i]) == Some(items[i].weapon)
    ensures forall i :: 0 <= i < |items| && items[i].Plain? ==> r[i] == items[i].value
  {
    seq(|items|, i requires 0 <= i < |items| => SaveItem(items[i]))
  }

  /** The inventory list comprehension of `load_character`. */
  function LoadInventory(values: seq<Json>): (r: seq<Item>)
    ensures |r| == |values|
    ensures forall i :: 0 <= i < |values| ==> (r[i].WeaponItem? <==> WeaponShaped(values[i]))
    ensures forall i :: 0 <= i < |values| && r[i].Plain? ==> r[i].value == values[i]
    ensures forall i :: 0 <= i < |values| && r[i].WeaponItem? ==> Some(r[i].weapon) == FromDict(values[i])
  {
    seq(|values|, i requires 0 <= i < |values| => LoadItem(values[i]))
  }

  /** No plain entry would be read back as a weapon. */
  predicate NoWeaponShapedPlain(items: seq<Item>)
  {
    forall i :: 0 <= i < |items| && items[i].Plain? ==> !WeaponShaped(items[i].value)
  }

  /** The keys of a saved character. */
  const SavedKeys: set<string> := {"name", "health", "strength", "intelligence", "dexterity",
                                   "level", "exp", "bonus_points", "current_weapon", "inventory"}

  /** `save_character` without the file: the record `json.dump` would write. */
  function SaveCharacter(s: CharacterState): (r: map<string, Json>)
    ensures r.Keys == SavedKeys
    ensures s.currentWeapon.None? <==> r["current_weapon"] == Null
    ensures s.currentWeapon.Some? ==> r["current_weapon"] == ToJson(s.currentWeapon.value)
    ensures s.currentWeapon.Some? ==> FromDict(r["current_weapon"]) == s.currentWeapon
    ensures r["inventory"] == Arr(SaveInventory(s.inventory))
  {
    map["name" := Str(s.name),
        "health" := Num(s.attributes.health),
        "strength" := Num(s.attributes.strength),
        "intelligence" := Num(s.attributes.intelligence),
        "dexterity" := Num(s.attributes.dexterity),
        "level" := Num(s.level),
        "exp" := Num(s.exp),
        "bonus_points" := Num(s.attributes.bonusPoints),
        "current_weapon" := if s.currentWeapon.Some? then ToJson(s.currentWeapon.value) else Null,
        "inventory" := Arr(SaveInventory(s.inventory))]
  }

  /**
   * What `load_character` returns: the record's other keys unchanged, the
   * current weapon and the inventory converted.
   */
  datatype Loaded = Loaded(fields: map<string, Json>, currentWeapon: Option<Weapon>, inventory: seq<Item>)

  /**
   * The entries `for item in ...` visits: a list's elements, or a string's
   * characters; None where the loop raises (null, a number, a boolean) or
   * where the order of the entries is not modelled (an object).
   */
  function InventoryEntries(v: Json): (r: Option<seq<Json>>)
    ensures r.Some? <==> v.Arr? || v.Str?
    ensures v.Arr? ==> r == Some(v.elems)
    ensures v.Str? ==> |r.value| == |v.s| && forall i :: 0 <= i < |v.s| ==> r.value[i] == Str([v.s[i]])
  {
    match v
    case Arr(es) => Some(es)
    case Str(s) => Some(seq(|s|, i requires 0 <= i < |s| => Str([s[i]])))
    case _ => None
  }

  /**
   * `load_character` without the file, given the decoded value: None (the
   * `except` branches) unless it is an object with both keys "current_weapon"
   * and "inventory" and the latter is iterable.
   */
  function LoadCharacter(data: Json): (r: Option<Loaded>)
    ensures r.Some? <==> data.Obj? && "current_weapon" in data.fields && "inventory" in data.fields
                         && InventoryEntries(data.fields["inventory"]).Some?
    ensures r.Some? ==> r.value.fields == data.fields - {"current_weapon", "inventory"}
    ensures r.Some? ==> (r.value.currentWeapon.Some? <==>
                         Truthy(data.fields["current_weapon"]) && WeaponShaped(data.fields["current_weapon"]))
    ensures r.Some? && r.value.currentWeapon.Some? ==>
              Some(r.value.currentWeapon.value) == FromDict(data.fields["current_weapon"])
    ensures r.Some? ==> r.value.inventory == LoadInventory(InventoryEntries(data.fields["inventory"]).value)
  {
    if !data.Obj? || "current_weapon" !in data.fields || "inventory" !in data.fields then None
    else
      var cw := data.fields["current_weapon"];
      match InventoryEntries(data.fields["inventory"])
      case None => None
      case Some(entries) =>
        Some(Loaded(data.fields - {"current_weapon", "inventory"},
                    if Truthy(cw) then FromDict(cw) else None,
                    LoadInventory(entries)))
  }

  /**
   * The typed character a loaded record describes, when its fields have the
   * types a saved character gives them.
   */
  function ToState(l: Loaded): Option<CharacterState>
  {
    var f := l.fields;
    if "name" in f && f["name"].Str? && "level" in f && f["level"].Num? && "exp" in f && f["exp"].Num?
       && "health" in f && f["health"].Num? && "strength" in f && f["strength"].Num?
       && "intelligence" in f && f["intelligence"].Num? && "dexterity" in f && f["dexterity"].Num?
       && "bonus_points" in f && f["bonus_points"].Num?
    then Some(CharacterState(f["name"].s, f["level"].n, f["exp"].n,
                             Attributes(f["health"].n, f["strength"].n, f["intelligence"].n,
                                        f["dexterity"].n, f["bonus_points"].n),
                             l.currentWeapon, l.inventory))
    else None
  }

  /**
   * Saving and loading an inventory keeps its length and order: weapons come
   * back equal, plain entries come back unchanged unless `from_dict` accepts
   * them, in which case they come back as that weapon.
   */
  lemma InventoryRoundTrip(items: seq<Item>)
    ensures |LoadInventory(SaveInventory(items))| == |items|
    ensures forall i :: 0 <= i < |items| && (items[i].WeaponItem? || !WeaponShaped(items[i].value)) ==>
              LoadInventory(SaveInventory(items))[i] == items[i]
    ensures forall i :: 0 <= i < |items| && items[i].Plain? && WeaponShaped(items[i].value) ==>
              LoadInventory(SaveInventory(items))[i] == WeaponItem(FromDict(items[i].value).value)
    ensures NoWeaponShapedPlain(items) ==> LoadInventory(SaveInventory(items)) == items
  {
  }

  /**
   * Loading a saved character gives back the same character, provided no
   * plain inventory entry is shaped like a weapon record.
   */
  lemma CharacterRoundTrip(s: CharacterState)
    requires NoWeaponShapedPlain(s.inventory)
    ensures LoadCharacter(Obj(SaveCharacter(s))).Some?
    ensures ToState(LoadCharacter(Obj(SaveCharacter(s))).value) == Some(s)
  {
    var r := SaveCharacter(s);
    InventoryRoundTrip(s.inventory);
    if s.currentWeapon.Some? {
      assert Truthy(r["current_weapon"]) by {
        assert "name" in r["current_weapon"].fields;
      }
    }
  }

  /**
   * Save and load keep the equipped weapon among the inventory's weapons
   * (as an equal value: the loaded weapon is a new object).
   */
  lemma EquippedSurvivesReload(s: CharacterState)
    requires EquippedIn(s.currentWeapon, s.inventory)
    ensures LoadCharacter(Obj(SaveCharacter(s))).Some?
    ensures var l := LoadCharacter(Obj(SaveCharacter(s))).value;
            l.currentWeapon == s.currentWeapon && EquippedIn(l.currentWeapon, l.inventory)
  {
  }

  /** A loaded inventory saved and loaded again comes back the same. */
  lemma ReloadStable(values: seq<Json>)
    ensures LoadInventory(SaveInventory(LoadInventory(values))) == LoadInventory(values)
  {
  }

  /** A record missing "current_weapon" or "inventory" does not load. */
  lemma MissingKeyFails(data: Json)
    requires data.Obj? && ("current_weapon" !in data.fields || "inventory" !in data.fields)
    ensures LoadCharacter(data) == None
  {
  }

  /** Loot never adds an entry that a reload would change. */
  lemma LootSurvivesReload(items: seq<Item>, roll: nat)
    requires roll < |LootTypes| && NoWeaponShapedPlain(items)
    ensures NoWeaponShapedPlain(items + [GenerateLoot(roll)])
  {
  }
}
