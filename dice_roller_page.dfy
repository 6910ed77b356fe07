/** The dice page of client/src/pages/DiceRoller.jsx: three numeric inputs, a custom roll and the
    quick rolls, and a history of results with the newest first. `Date.now()` is passed in as
    `now`; the printed time of day is left out. */
module DiceRollerPage {
  import opened Text
  import opened Js
  import opened DiceFormula
  import opened DiceEngine

  datatype PageRoll = PageRoll(
    id: int, rolls: seq<int>, quantity: int, sides: int, modifier: int, sum: int, total: int,
    formula: string)

  /** The dice faces of the quick-roll buttons, each rolled as `handleQuickRoll(1, d)`. */
  const CommonDice: seq<int> := [4, 6, 8, 10, 12, 20, 100]

  /** The `critical` class of the total: some die shows the number of sides. */
  predicate CriticalClass(r: PageRoll) {
    r.sides in r.rolls
  }

  /** The `fumble` class: a single die that shows 1. */
  predicate FumbleClass(r: PageRoll) {
    1 in r.rolls && r.quantity == 1
  }

  /** The CRÍTICO text: a single die that shows the number of sides. */
  predicate ShowsCritico(r: PageRoll) {
    r.sides in r.rolls && r.quantity == 1
  }

  /** The FALHA text: a single d20 that shows 1. */
  predicate ShowsFalha(r: PageRoll) {
    1 in r.rolls && r.quantity == 1 && r.sides == 20
  }

  /** For a single die the texts are about its face alone; a d20 can never show both, while a
      one-sided die always shows CRÍTICO together with the fumble class. */
  lemma SingleDieDisplay(r: PageRoll)
    requires r.quantity == 1 && |r.rolls| == 1
    ensures ShowsCritico(r) <==> r.rolls[0] == r.sides
    ensures ShowsFalha(r) <==> r.rolls[0] == 1 && r.sides == 20
    ensures r.sides == 20 ==> !(ShowsCritico(r) && ShowsFalha(r))
    ensures r.sides == 1 && r.rolls[0] == 1 ==> ShowsCritico(r) && FumbleClass(r) && CriticalClass(r)
  {
    assert r.rolls == [r.rolls[0]];
  }

  /** With several dice neither text appears, whatever they show. */
  lemma TextsNeedOneDie(r: PageRoll)
    requires r.quantity != 1
    ensures !ShowsCritico(r) && !ShowsFalha(r) && !FumbleClass(r)
  {
  }

  /** What the page prints for non-negative inputs reads back as those inputs. */
  lemma FormattedInputsParseBack(quantity: int, sides: int, modifier: int)
    ensures quantity >= 0 && sides >= 0 ==>
      ParseDiceFormula(FormatFormula(quantity, sides, modifier)) == Some(Parsed(quantity, sides, modifier))
  {
    if quantity >= 0 && sides >= 0 {
      FormatRoundTrip(quantity, sides, modifier);
    }
  }

  class DicePage {
    var quantity: int
    var sides: int
    var modifier: int
    /** `results`, newest first. */
    var results: seq<PageRoll>

    constructor ()
      ensures quantity == 1 && sides == 20 && modifier == 0 && results == []
    {
      quantity := 1;
      sides := 20;
      modifier := 0;
      results := [];
    }

    /** The quantity input: `parseInt(value) || 1`. */
    method SetQuantity(parsed: Option<int>)
      modifies this`quantity
      ensures quantity == IntOr(parsed, 1) && quantity != 0
    {
      quantity := IntOr(parsed, 1);
    }

    /** The sides input: `parseInt(value) || 20`. */
    method SetSides(parsed: Option<int>)
      modifies this`sides
      ensures sides == IntOr(parsed, 20) && sides != 0
    {
      sides := IntOr(parsed, 20);
    }

    /** The modifier input: `parseInt(value) || 0`. */
    method SetModifier(parsed: Option<int>)
      modifies this`modifier
      ensures modifier == IntOr(parsed, 0)
      ensures parsed.None? ==> modifier == 0
    {
      modifier := IntOr(parsed, 0);
    }

    /** The label of the roll button: the word, then the formula the roll will record, which
        parses back to the inputs. */
    function ButtonLabel(): (caption: string)
      reads this
      ensures |caption| > 6 && caption[..6] == "Rolar "
      ensures quantity >= 0 && sides >= 0 ==>
        ParseDiceFormula(caption[6..]) == Some(Parsed(quantity, sides, modifier))
    {
      FormattedInputsParseBack(quantity, sides, modifier);
      assert ("Rolar " + FormatFormula(quantity, sides, modifier))[6..] == FormatFormula(quantity, sides, modifier);
      "Rolar " + FormatFormula(quantity, sides, modifier)
    }

    /** `handleRoll()`: roll the current inputs and put the result in front of the history. */
    method HandleRoll(now: int)
      modifies this`results
      ensures |results| == |old(results)| + 1 && results[1..] == old(results)
      ensures var r := results[0];
        && r.id == now && r.quantity == quantity && r.sides == sides && r.modifier == modifier
        && |r.rolls| == Count(quantity) && AllFaces(r.rolls, sides)
        && r.sum == Sum(r.rolls) && r.total == r.sum + modifier
        && r.formula == FormatFormula(quantity, sides, modifier)
        && (quantity >= 0 && sides >= 0 ==> ParseDiceFormula(r.formula) == Some(Parsed(quantity, sides, modifier)))
    {
      var rolls := RollDice(quantity, sides);
      var sum := Sum(rolls);
      var formula := IntToDecimal(quantity) + "d" + IntToDecimal(sides) + ModifierText(modifier);
      FormattedInputsParseBack(quantity, sides, modifier);
      var result := PageRoll(now, rolls, quantity, sides, modifier, sum, sum + modifier, formula);
      results := [result] + results;
    }

    /** `handleQuickRoll(q, s)`: no modifier, so the total is the sum and the formula has no sign. */
    method HandleQuickRoll(q: int, s: int, now: int)
      modifies this`results
      ensures |results| == |old(results)| + 1 && results[1..] == old(results)
      ensures var r := results[0];
        && r.id == now && r.quantity == q && r.sides == s && r.modifier == 0
        && |r.rolls| == Count(q) && AllFaces(r.rolls, s)
        && r.sum == Sum(r.rolls) && r.total == r.sum
        && r.formula == FormatFormula(q, s, 0)
    {
      var rolls := RollDice(q, s);
      var sum := Sum(rolls);
      var result := PageRoll(now, rolls, q, s, 0, sum, sum, IntToDecimal(q) + "d" + IntToDecimal(s));
      results := [result] + results;
    }

    /** `clearHistory()`. */
    method ClearHistory()
      modifies this`results
      ensures results == []
    {
      results := [];
    }
  }

  /** The quick-roll buttons record one die of the button's size as `1d<size>`, which parses back. */
  lemma QuickRollFormula(d: int)
    requires d in CommonDice
    ensures FormatFormula(1, d, 0) == "1d" + NatToDecimal(d)
    ensures ParseDiceFormula(FormatFormula(1, d, 0)) == Some(Parsed(1, d, 0))
  {
    FormatRoundTrip(1, d, 0);
  }
}
