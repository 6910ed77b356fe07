/** The dice engine of client/src/utils/diceRoller.js. `Math.floor(Math.random() * sides) + 1` is an
    oracle: every draw is an arbitrary integer among the faces `IsFace` allows, chosen afresh. */
module DiceEngine {
  import opened Text
  import opened DiceFormula

  /** The values `Math.floor(Math.random() * sides) + 1` can take for an integer `sides`: 1 to
      `sides` for a real die; for `sides <= 0` the product lies in `(sides, 0]`, so the draw lies
      between `sides + 1` and 1. */
  predicate IsFace(d: int, sides: int) {
    if sides >= 1 then 1 <= d <= sides else sides + 1 <= d <= 1
  }

  predicate AllFaces(rolls: seq<int>, sides: int) {
    forall i :: 0 <= i < |rolls| ==> IsFace(rolls[i], sides)
  }

  /** `rolls.reduce((a, b) => a + b, 0)`. */
  function Sum(rolls: seq<int>): int {
    if rolls == [] then 0 else Sum(rolls[..|rolls| - 1]) + rolls[|rolls| - 1]
  }

  /** Number of iterations of `for (let i = 0; i < quantity; i++)`. */
  function Count(quantity: int): nat {
    if quantity > 0 then quantity else 0
  }

  lemma {:induction false} SumBounds(rolls: seq<int>, sides: int)
    requires sides >= 1 && AllFaces(rolls, sides)
    ensures |rolls| <= Sum(rolls) <= |rolls| * sides
  {
    if rolls != [] {
      SumBounds(rolls[..|rolls| - 1], sides);
    }
  }

  /** `rollDice(quantity, sides)`: one fresh draw per iteration, pushed at the end. */
  method RollDice(quantity: int, sides: int) returns (rolls: seq<int>)
    ensures |rolls| == Count(quantity)
    ensures AllFaces(rolls, sides)
  {
    rolls := [];
    var i := 0;
    while i < quantity
      invariant 0 <= i && |rolls| == i
      invariant i <= Count(quantity)
      invariant AllFaces(rolls, sides)
    {
      assert IsFace(1, sides);
      var d :| IsFace(d, sides);
      rolls := rolls + [d];
      i := i + 1;
    }
  }

  /** `rollD20()`: the first die of one d20. */
  method RollD20() returns (roll: int)
    ensures 1 <= roll <= 20
  {
    var rolls := RollDice(1, 20);
    roll := rolls[0];
  }

  datatype AttributeRoll = AttributeRoll(
    roll: int, attributeValue: int, skillBonus: int, total: int, isCritical: bool, isFumble: bool)

  /** The record `rollAttribute` builds around the face `roll` of its d20. */
  function AttributeResult(roll: int, attributeValue: int, skillBonus: int): AttributeRoll {
    AttributeRoll(roll, attributeValue, skillBonus, roll + attributeValue + skillBonus,
                  roll == 20, roll == 1)
  }

  /** `rollAttribute(attributeValue, skillBonus = 0)`. */
  method RollAttribute(attributeValue: int, skillBonus: int := 0) returns (r: AttributeRoll)
    ensures 1 <= r.roll <= 20
    ensures r.attributeValue == attributeValue && r.skillBonus == skillBonus
    ensures r.total == r.roll + attributeValue + skillBonus
    ensures r.isCritical <==> r.roll == 20
    ensures r.isFumble <==> r.roll == 1
  {
    var roll := RollD20();
    r := AttributeResult(roll, attributeValue, skillBonus);
  }

  /** Critical and fumble are decided by the die face alone: whatever the attribute and bonus, a
      natural 20 is critical and a natural 1 a fumble, and no roll is both. */
  lemma CriticalAndFumbleIgnoreTotal(roll: int, a1: int, b1: int, a2: int, b2: int)
    ensures AttributeResult(roll, a1, b1).isCritical == AttributeResult(roll, a2, b2).isCritical
    ensures AttributeResult(roll, a1, b1).isFumble == AttributeResult(roll, a2, b2).isFumble
    ensures !(AttributeResult(roll, a1, b1).isCritical && AttributeResult(roll, a1, b1).isFumble)
  {
  }

  lemma AttributeRollExamples()
    ensures AttributeResult(20, 3, 5) == AttributeRoll(20, 3, 5, 28, true, false)
    ensures AttributeResult(1, 3, 5) == AttributeRoll(1, 3, 5, 9, false, true)
    ensures AttributeResult(20, -30, 0).isCritical
  {
  }

  datatype FormulaRoll = FormulaRoll(rolls: seq<int>, modifier: int, total: int, formula: string)

  /** `rollFormula(formula)`; `None` is the `null` returned when the formula does not parse. */
  method RollFormula(formula: string) returns (r: Option<FormulaRoll>)
    ensures r.None? <==> ParseDiceFormula(formula).None?
    ensures r.Some? ==>
      var p := ParseDiceFormula(formula).value;
      && |r.value.rolls| == Count(p.quantity)
      && AllFaces(r.value.rolls, p.sides)
      && r.value.modifier == p.modifier
      && r.value.total == Sum(r.value.rolls) + p.modifier
      && r.value.formula == formula
  {
    var parsed := ParseDiceFormula(formula);
    if parsed.None? {
      return None;
    }
    var rolls := RollDice(parsed.value.quantity, parsed.value.sides);
    r := Some(FormulaRoll(rolls, parsed.value.modifier, Sum(rolls) + parsed.value.modifier, formula));
  }

  datatype DamageRoll = DamageRoll(
    rolls: seq<int>, modifier: int, total: int, formula: string, attributeBonus: int)

  /** `{...result, total: result.total + attributeBonus, attributeBonus}`. */
  function WithAttributeBonus(result: FormulaRoll, attributeBonus: int): DamageRoll {
    DamageRoll(result.rolls, result.modifier, result.total + attributeBonus, result.formula, attributeBonus)
  }

  /** `calculateDamage(weaponDamage, attributeBonus = 0)`. */
  method CalculateDamage(weaponDamage: string, attributeBonus: int := 0) returns (r: Option<DamageRoll>)
    ensures r.None? <==> ParseDiceFormula(weaponDamage).None?
    ensures r.Some? ==>
      var p := ParseDiceFormula(weaponDamage).value;
      && |r.value.rolls| == Count(p.quantity)
      && AllFaces(r.value.rolls, p.sides)
      && r.value.modifier == p.modifier
      && r.value.total == Sum(r.value.rolls) + p.modifier + attributeBonus
      && r.value.formula == weaponDamage
      && r.value.attributeBonus == attributeBonus
  {
    var result := RollFormula(weaponDamage);
    if result.None? {
      return None;
    }
    r := Some(WithAttributeBonus(result.value, attributeBonus));
  }

  /** A formula roll of `n` dice with `sides >= 1` totals between `n + modifier` (every die a 1)
      and `n * sides + modifier` (every die at its maximum). */
  lemma FormulaTotalRange(result: FormulaRoll, sides: int)
    requires sides >= 1 && AllFaces(result.rolls, sides)
    requires result.total == Sum(result.rolls) + result.modifier
    ensures |result.rolls| + result.modifier <= result.total <= |result.rolls| * sides + result.modifier
  {
    SumBounds(result.rolls, sides);
  }
}
