/**
 * Bonus-point allocation (`allocate_bonus_points`): each menu answer either
 * moves one bonus point into one of the four attributes or is refused.
 */
module Bonus {
  import opened Wrappers

  /** The four attributes a bonus point can go to. */
  datatype Attr = Health | Strength | Intelligence | Dexterity

  /** The part of a character that allocation reads and writes. */
  datatype Attributes = Attributes(health: int, strength: int, intelligence: int, dexterity: int, bonusPoints: int)

  function Get(a: Attributes, k: Attr): int
  {
    match k
    case Health => a.health
    case Strength => a.strength
    case Intelligence => a.intelligence
    case Dexterity => a.dexterity
  }

  /** The sum of the four attributes. */
  function Sum(a: Attributes): int
  {
    a.health + a.strength + a.intelligence + a.dexterity
  }

  /** The character key each attribute is stored under. */
  function Key(k: Attr): string
  {
    match k
    case Health => "health"
    case Strength => "strength"
    case Intelligence => "intelligence"
    case Dexterity => "dexterity"
  }

  /** The menu answer that selects an attribute: exactly "1" to "4". */
  function ChoiceAttribute(choice: string): (r: Option<Attr>)
    ensures r.Some? <==> choice in ["1", "2", "3", "4"]
  {
    if choice == "1" then Some(Health)
    else if choice == "2" then Some(Strength)
    else if choice == "3" then Some(Intelligence)
    else if choice == "4" then Some(Dexterity)
    else None
  }

  /**
   * One answer: a valid one takes one bonus point and adds exactly one to
   * exactly the chosen attribute; any other answer changes nothing.
   */
  function ApplyChoice(a: Attributes, choice: string): (r: Attributes)
    ensures forall k :: Get(r, k) == Get(a, k) + (if ChoiceAttribute(choice) == Some(k) then 1 else 0)
    ensures r.bonusPoints == a.bonusPoints - (if ChoiceAttribute(choice).Some? then 1 else 0)
    ensures ChoiceAttribute(choice).None? ==> r == a
  {
    match ChoiceAttribute(choice)
    case None => a
    case Some(Health) => a.(health := a.health + 1, bonusPoints := a.bonusPoints - 1)
    case Some(Strength) => a.(strength := a.strength + 1, bonusPoints := a.bonusPoints - 1)
    case Some(Intelligence) => a.(intelligence := a.intelligence + 1, bonusPoints := a.bonusPoints - 1)
    case Some(Dexterity) => a.(dexterity := a.dexterity + 1, bonusPoints := a.bonusPoints - 1)
  }

  /**
   * The whole `while bonus_points > 0` loop over a list of answers: it stops
   * when no bonus point is left or when the answers run out.
   */
  function Allocate(a: Attributes, choices: seq<string>): (r: Attributes)
    ensures a.bonusPoints <= 0 ==> r == a
    decreases |choices|
  {
    if a.bonusPoints <= 0 || choices == [] then a
    else Allocate(ApplyChoice(a, choices[0]), choices[1..])
  }

  /** While points are left, one more answer is one more step of the loop. */
  lemma {:induction false} AllocateSnoc(a: Attributes, prefix: seq<string>, choice: string)
    requires Allocate(a, prefix).bonusPoints > 0
    ensures Allocate(a, prefix + [choice]) == ApplyChoice(Allocate(a, prefix), choice)
    decreases |prefix|
  {
    if prefix == [] {
      assert prefix + [choice] == [choice];
    } else {
      assert (prefix + [choice])[1..] == prefix[1..] + [choice];
      AllocateSnoc(ApplyChoice(a, prefix[0]), prefix[1..], choice);
    }
  }

  /** How many of the answers are valid ones. */
  function ValidCount(choices: seq<string>): nat
  {
    if choices == [] then 0
    else (if ChoiceAttribute(choices[0]).Some? then 1 else 0) + ValidCount(choices[1..])
  }

  /** Allocation moves points and never creates or loses one. */
  lemma {:induction false} AllocateConserves(a: Attributes, choices: seq<string>)
    ensures Sum(Allocate(a, choices)) + Allocate(a, choices).bonusPoints == Sum(a) + a.bonusPoints
    decreases |choices|
  {
    if a.bonusPoints > 0 && choices != [] {
      AllocateConserves(ApplyChoice(a, choices[0]), choices[1..]);
    }
  }

  /**
   * Allocation never takes the points below zero or any attribute down, and
   * it spends every point exactly when there are enough valid answers.
   */
  lemma {:induction false} AllocateSpends(a: Attributes, choices: seq<string>)
    requires a.bonusPoints >= 0
    ensures 0 <= Allocate(a, choices).bonusPoints <= a.bonusPoints
    ensures forall k :: Get(Allocate(a, choices), k) >= Get(a, k)
    ensures Allocate(a, choices).bonusPoints == 0 <==> ValidCount(choices) >= a.bonusPoints
    decreases |choices|
  {
    if a.bonusPoints > 0 && choices != [] {
      AllocateSpends(ApplyChoice(a, choices[0]), choices[1..]);
    }
  }

  /**
   * When the loop ends with no points left, the four attributes together
   * have grown by exactly the points there were at the start.
   */
  lemma AllocateFinished(a: Attributes, choices: seq<string>)
    requires a.bonusPoints >= 0 && ValidCount(choices) >= a.bonusPoints
    ensures Allocate(a, choices).bonusPoints == 0
    ensures Sum(Allocate(a, choices)) == Sum(a) + a.bonusPoints
  {
    AllocateSpends(a, choices);
    AllocateConserves(a, choices);
  }

  // The loop body as the source writes it. Its guard accepts every string of
  // decimal digits whose value is 1 to 4, but only "1" to "4" name a key.

  predicate IsAsciiDigits(s: string)
  {
    |s| > 0 && forall i :: 0 <= i < |s| ==> '0' <= s[i] <= '9'
  }

  /** `int(s)` for a string of decimal digits. */
  function DecimalValue(s: string): nat
    requires IsAsciiDigits(s)
    decreases |s|
  {
    var d := (s[|s| - 1] as int) - ('0' as int);
    if |s| == 1 then d else DecimalValue(s[..|s| - 1]) * 10 + d
  }

  /** What one pass of the loop body does with an answer, as written. */
  datatype StepOutcome = Reprompt | Allocated(key: string) | KeyErrorCrash

  /** `choice.isdigit() and 1 <= int(choice) <= 4`, for ASCII digits. */
  predicate GuardAsWritten(choice: string)
  {
    IsAsciiDigits(choice) && 1 <= DecimalValue(choice) <= 4
  }

  /** The `if`/`elif` chain that picks the key; "" when no branch matches. */
  function KeyAsWritten(choice: string): string
  {
    if choice == "1" then "health"
    else if choice == "2" then "strength"
    else if choice == "3" then "intelligence"
    else if choice == "4" then "dexterity"
    else ""
  }

  /** `character[attribute] += 1` raises KeyError for the key "". */
  function StepAsWritten(choice: string): (r: StepOutcome)
    ensures r.Allocated? ==> r.key in ["health", "strength", "intelligence", "dexterity"]
  {
    if !GuardAsWritten(choice) then Reprompt
    else if KeyAsWritten(choice) == "" then KeyErrorCrash
    else Allocated(KeyAsWritten(choice))
  }

  /** The answer "01" passes the guard, matches no branch and crashes the game. */
  lemma LeadingZeroChoiceCrashes()
    ensures GuardAsWritten("01")
    ensures StepAsWritten("01") == KeyErrorCrash
    ensures ChoiceAttribute("01") == None
  {
  }

  /**
   * The written body crashes exactly on the answers the guard lets through
   * that are not "1" to "4"; on every other answer it agrees with
   * ChoiceAttribute.
   */
  lemma AsWrittenAgrees(choice: string)
    ensures StepAsWritten(choice) == KeyErrorCrash <==> GuardAsWritten(choice) && ChoiceAttribute(choice).None?
    ensures StepAsWritten(choice) == Reprompt <==> !GuardAsWritten(choice)
    ensures ChoiceAttribute(choice).Some? ==> StepAsWritten(choice) == Allocated(Key(ChoiceAttribute(choice).value))
  {
  }
}
