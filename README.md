# Text-Adventure-Engine progression core, in Dafny

This project models the progression logic of the text RPG in `main.py`:

- the `Weapon` class and its record form (`to_json` / `from_dict`);
- the record transformations of `save_character` / `load_character`;
- the character dict from `create_character`, updated in place by `level_up`, `allocate_bonus_points` and `add_to_inventory`, and by the equip search of the inventory menu;
- the encounter rules: `run_away`, the binary strength comparison of `battle`, `generate_loot` and `explore_area`.

Layout, one module per file:

- `json.dfy`: the decoded JSON values.
- `items.dfy`: weapons, inventory entries and the loot table.
- `bonus.dfy`: the menu answers of the bonus-point allocation.
- `characters.dfy`: the `Character` class and the equip search.
- `encounters.dfy`: fleeing, battle and exploring.
- `persistence.dfy`: save and load.
- `wrappers.dfy`: `Option`.

Every random draw is a parameter, and a `requires` clause bounds it to the range the code draws from. These are the 5..10 and 1..3 level-up increments, the 10..20 experience gain, the loot index 0..4, the flee roll 1..100, the coin flip and the enemy strength 5..15. Console input is a parameter too: the player's name, a list of menu answers for the allocation, and the already capitalized equip input.

Weapons are never mutated in `main.py`, so they are modelled as values. `Equip` returns the index of the inventory entry it equipped, so "the equipped weapon is that inventory entry" can be stated as equality with that entry.

In a few places the code behaves differently from what a reader might expect, and the model follows the code:

- A record missing `current_weapon` or `inventory` does not load. The `KeyError` is caught and `load_character` returns None (`Persistence.MissingKeyFails`).
- Battles are a single strength comparison. There are no rounds, durability or critical hits.
- Loot is one of five equally likely outcomes. It is never "nothing".
- `run_away` is never called from the menu.

## Model

| member | source | states |
|---|---|---|
| `Items.FromDict` | main.py:16-20 | a weapon exactly when the value is an object with both "name" and "damage_range", taken from those two keys with any other key ignored; None otherwise |
| `Items.ToJson` | main.py:10-14 | the record has exactly the keys "name" and "damage_range", holding the weapon's two attributes; `Items.WeaponRoundTrip` states that `from_dict` reads it back as the same weapon |
| `Items.WeaponRoundTrip` | main.py:10-20 | `from_dict(w.to_json())` is a weapon with the same name and damage range |
| `Items.FromDictStable` | main.py:10-20 | reading, writing and reading a record again gives what the first read gave |
| `Items.GenerateLoot` | main.py:176-181 | loot is "Gold" or "Health Potion" as a string, or a Sword, Axe or Bow weapon with damage range [5, 15]; its label is the drawn list element; it is a weapon exactly for the last three |
| `Items.LootRollsDistinct` | main.py:176-181 | the five rolls give five different loot entries |
| `Bonus.ChoiceAttribute` | main.py:109-118 | an answer selects an attribute exactly when it is "1", "2", "3" or "4" |
| `Bonus.ApplyChoice` | main.py:108-124 | a valid answer takes exactly one bonus point and adds exactly 1 to exactly the chosen attribute; any other answer changes nothing |
| `Bonus.Allocate` | main.py:101-121 | with no bonus points the loop body never runs; `Bonus.AllocateConserves`, `Bonus.AllocateSpends` and `Bonus.AllocateFinished` state what the loop does with points |
| `Bonus.AllocateConserves` | main.py:101-121 | over the whole loop, the four attributes plus the bonus points keep their total |
| `Bonus.AllocateSpends` | main.py:101-121 | the loop keeps the points between 0 and the start value and never lowers an attribute; it ends with 0 points exactly when there are at least as many valid answers as points |
| `Bonus.AllocateSnoc` | main.py:101-121 | while points are left, reading one more answer is one more step of the loop |
| `Bonus.AllocateFinished` | main.py:100-124 | with enough valid answers the loop ends with 0 bonus points, and the four attributes have grown by the starting bonus points |
| `Bonus.StepAsWritten` | main.py:109-124 | the loop body as written only ever allocates to one of the four character keys; `Bonus.AsWrittenAgrees` gives its crash, re-prompt and allocate cases |
| `Bonus.LeadingZeroChoiceCrashes` | main.py:109-120 | the answer "01" passes the guard, selects no attribute and crashes on the key "" |
| `Bonus.AsWrittenAgrees` | main.py:109-124 | the loop body as written crashes exactly on the answers the guard accepts that are not "1".."4"; it re-prompts exactly when the guard fails; on "1".."4" it allocates the key of the chosen attribute |
| `Characters.FindWeapon` | main.py:225-231 | the index of the first weapon entry whose name equals the input, or None when no entry is such a weapon |
| `Characters.Character.constructor` | main.py:30-46 | the fresh character: health 100, strength, intelligence and dexterity 10, level 1, 0 experience and bonus points, no weapon, empty inventory |
| `Characters.Character.Restore` | main.py:201-207 | a character continued from a loaded record has exactly that record's state |
| `Characters.Character.LevelUp` | main.py:89-97 | level +1, experience 0, bonus points +1, health +5..10 and strength, intelligence and dexterity +1..3, each by its draw; weapon and inventory unchanged |
| `Characters.Character.AllocateBonusPoints` | main.py:100-124 | the attributes become the loop's allocation over the answers; `consumed` is the number of answers read: points were left before each of them, and the attributes are the allocation over exactly those; points remain only if every answer was read; level, experience, weapon and inventory unchanged |
| `Characters.Character.ApplyAnswer` | main.py:108-124 | one pass of the loop body changes the attributes exactly as `ApplyChoice` says, and nothing else |
| `Characters.Character.AddToInventory` | main.py:184-189 | the loot is appended at the end; nothing else changes; an equipped weapon stays in the inventory |
| `Characters.Character.Equip` | main.py:222-231 | "Q" changes nothing; otherwise the current weapon becomes the first inventory weapon named by the input, whose index is returned; without one nothing changes |
| `Encounters.RunAway` | main.py:156-158 | a roll escapes exactly when it is at most `dexterity * 2` clamped to 0..100; `Encounters.RunAwayOdds` and `Encounters.RunAwayExtremes` state the resulting odds |
| `Encounters.RunAwayExtremes` | main.py:156-158 | from dexterity 50 on every roll escapes; at dexterity 0 or below none does |
| `Encounters.EscapesUpTo` | main.py:156-158 | of the rolls 1 to n, `dexterity * 2` escape, clamped to 0..n |
| `Encounters.RunAwayOdds` | main.py:156-158 | the escape chance is `dexterity * 2` percent, clamped to 0..100 |
| `Encounters.Battle` | main.py:161-173 | a stronger enemy leaves the character unchanged. A win adds the gain. At 50 or more it levels up and allocates: level +1, experience 0, attributes as allocated after the level-up. Exactly the loot is appended, experience ends below 50, and the equipped weapon is kept |
| `Encounters.Explore` | main.py:192-197 | tails changes nothing. Heads fights the battle: a stronger enemy changes nothing, and a win appends exactly the loot, adds the gain or levels up and allocates exactly as `Battle` does, and keeps the equipped weapon |
| `Persistence.SaveItem` | main.py:55 | a weapon becomes a record with exactly the keys "name" and "damage_range" that `from_dict` reads back as it; any other entry is kept as it is |
| `Persistence.SaveInventory` | main.py:54-57 | same length; each weapon becomes its `to_json` record, which `from_dict` reads back as that weapon; other entries are kept as they are |
| `Persistence.LoadItem` | main.py:74 | a weapon exactly for a weapon-shaped value, namely `from_dict`'s weapon; any other value is kept as it is |
| `Persistence.LoadInventory` | main.py:73-76 | same length; an entry becomes a weapon exactly when it is weapon-shaped, that weapon being `from_dict`'s result; other entries are kept as they are |
| `Persistence.SaveCharacter` | main.py:49-59 | the record has exactly the ten character keys; the current weapon is null when none is equipped, otherwise its `to_json` record, which reads back as that weapon; the inventory is the saved list |
| `Persistence.InventoryEntries` | main.py:73-76 | the loop visits a list's elements, or a string's characters as one-character strings; every other value fails to load |
| `Persistence.LoadCharacter` | main.py:62-86 | loading succeeds exactly for an object with "current_weapon" and an iterable "inventory". Its other keys are kept. A current weapon appears exactly when the stored value is truthy and weapon-shaped, and it is `from_dict`'s weapon for that value. The inventory is the converted list |
| `Persistence.InventoryRoundTrip` | main.py:54-76 | save then load keeps length and order. Weapons come back equal, and non-weapon entries come back unchanged unless they are weapon-shaped records, which come back as weapons |
| `Persistence.CharacterRoundTrip` | main.py:49-78 | loading a saved character gives back the same character when no plain entry is weapon-shaped |
| `Persistence.EquippedSurvivesReload` | main.py:53-71 | after save and load the current weapon is equal to the saved one and still among the inventory's weapons |
| `Persistence.ReloadStable` | main.py:73-76 | a loaded inventory that is saved and loaded again comes back the same |
| `Persistence.MissingKeyFails` | main.py:62-86 | a record without "current_weapon" or "inventory" does not load |
| `Persistence.LootSurvivesReload` | main.py:176-185 | appending loot keeps an inventory free of weapon-shaped plain entries, so it still round-trips |

## Left out

- File I/O: `open`, `json.dump` / `json.load` and the file name. The `FileNotFoundError` and `JSONDecodeError` branches are not modelled separately; every failure of the record transformation is the single None result of `LoadCharacter`.
- `WeaponEncoder`: it is a hook into Python's JSON library.
- Console I/O: `print_character_info`, the menu loop of `main`, and all prompt and narration text.
- The `random` module itself: each draw is a bounded parameter, as described above.
- `str.capitalize()`: the equip input is given already capitalized.
- JSON floating point numbers are not modelled.
- Persistence.LoadCharacter: an inventory stored as a JSON object (Python would iterate its keys in insertion order) is modelled as a failed load, because the model's objects are unordered maps.
- Bonus.GuardAsWritten: `str.isdigit()` and `int()` are modelled for ASCII digits only. An answer made of other Unicode decimal digits, such as "٣", passes the guard in Python and then crashes with `KeyError` as "01" does; the model re-prompts on it instead. A digit that is not decimal, such as "²", passes `isdigit()` but makes `int()` raise an uncaught `ValueError`; the model re-prompts on it instead of crashing.
- Persistence.SaveCharacter: keys beyond the ten character keys, which a loaded file may carry and `**character` would write back, are not carried, because the model's character state has exactly the ten fields.
- Persistence.ToState: the typing step from a loaded record to a character state is the model's. Python keeps using the loaded dict as it is.
- Object identity: after a reload Python's current weapon is a new object, not the inventory entry. Weapons are never mutated, so this is not observable, and the model compares weapons by value.
- Characters.Character.AllocateBonusPoints: the answers are a finite list, so with too few valid answers the loop ends with points left. Python would keep prompting.
- Characters.Character.AllocateBonusPoints: it follows the corrected answer rule of the finding below. It re-prompts on "01" where the code crashes.

## Findings

| source | as written | input that shows it | evidently intended | confidence | as-written member | corrected member |
|---|---|---|---|---|---|---|
| main.py:109-120 | the guard `choice.isdigit() and 1 <= int(choice) <= 4` accepts any digit string of value 1 to 4, but the branches test only "1".."4"; otherwise `attribute` stays "" and `character[""] += 1` raises an uncaught `KeyError`, ending the game | the answer "01" | answers other than "1".."4" are refused and re-prompted without changing anything | not executed | `Bonus.LeadingZeroChoiceCrashes` | `Bonus.ApplyChoice` |
