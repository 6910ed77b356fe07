/** Dice notation `QdS±M`: the parser `parseDiceFormula` (client/src/utils/diceRoller.js), which is
    the regular expression `(\d+)d(\d+)([+-]\d+)?` searched for anywhere in the text, and the
    formula string the roll handlers print (`${quantity}d${sides}` plus a signed modifier). */
module DiceFormula {
  import opened Text

  datatype Parsed = Parsed(quantity: int, sides: int, modifier: int)

  /** End of the maximal run of digits that starts at `i` (the greedy `\d+`). */
  function DigitRunEnd(s: string, i: nat): (j: nat)
    requires i <= |s|
    ensures i <= j <= |s|
    ensures forall k :: i <= k < j ==> IsDigit(s[k])
    ensures j == |s| || !IsDigit(s[j])
    decreases |s| - i
  {
    if i < |s| && IsDigit(s[i]) then DigitRunEnd(s, i + 1) else i
  }

  /** The optional group `([+-]\d+)?` at position `i`: the signed value, or 0 when it is absent. */
  function ModifierAt(s: string, i: nat): int
    requires i <= |s|
  {
    if i + 1 < |s| && (s[i] == '+' || s[i] == '-') && IsDigit(s[i + 1]) then
      var v := DecimalValue(s[i + 1..DigitRunEnd(s, i + 1)]);
      if s[i] == '+' then v else -v
    else 0
  }

  /** The pattern matched with its first character at `p`. Every quantifier is greedy, and
      backtracking cannot produce any other match: a shorter first digit run is followed by a
      digit, not by `d`. */
  function MatchAt(s: string, p: nat): Option<Parsed>
    requires p <= |s|
  {
    var e1 := DigitRunEnd(s, p);
    if e1 == p || e1 + 1 >= |s| || s[e1] != 'd' || !IsDigit(s[e1 + 1]) then None
    else
      var e2 := DigitRunEnd(s, e1 + 1);
      Some(Parsed(DecimalValue(s[p..e1]), DecimalValue(s[e1 + 1..e2]), ModifierAt(s, e2)))
  }

  /** The unanchored search: the match that starts leftmost, at or after `p`. */
  function ParseFrom(s: string, p: nat): Option<Parsed>
    requires p <= |s|
    decreases |s| - p
  {
    if p == |s| then None
    else if MatchAt(s, p).Some? then MatchAt(s, p)
    else ParseFrom(s, p + 1)
  }

  /** `parseDiceFormula(formula)`; `None` stands for the `null` it returns without a match. */
  function ParseDiceFormula(formula: string): Option<Parsed> {
    ParseFrom(formula, 0)
  }

  /** A lower-case `d` with a digit immediately on each side: the shortest text the pattern matches
      is exactly such a `d` with its two neighbours. */
  predicate DiceSeparatorAt(s: string, i: int) {
    0 < i < |s| - 1 && s[i] == 'd' && IsDigit(s[i - 1]) && IsDigit(s[i + 1])
  }

  ghost predicate HasDicePattern(s: string) {
    exists i :: DiceSeparatorAt(s, i)
  }

  lemma MatchAtSomeIff(s: string, p: nat)
    requires p <= |s|
    ensures MatchAt(s, p).Some? <==> p < |s| && IsDigit(s[p]) && DiceSeparatorAt(s, DigitRunEnd(s, p))
  {
  }

  lemma {:induction false} ParseFromNoneIff(s: string, p: nat)
    requires p <= |s|
    ensures ParseFrom(s, p).None? <==> forall i :: p < i ==> !DiceSeparatorAt(s, i)
    decreases |s| - p
  {
    MatchAtSomeIff(s, p);
    if p == |s| {
    } else if MatchAt(s, p).Some? {
      assert DiceSeparatorAt(s, DigitRunEnd(s, p));
    } else {
      ParseFromNoneIff(s, p + 1);
    }
  }

  /** The parser returns `null` exactly when the text holds no `digits d digits`, wherever it is. */
  lemma ParseFailsIffNoPattern(s: string)
    ensures ParseDiceFormula(s).None? <==> !HasDicePattern(s)
  {
    ParseFromNoneIff(s, 0);
  }

  lemma {:induction false} ParseFromIsFirstMatch(s: string, p: nat)
    requires p <= |s|
    requires ParseFrom(s, p).Some?
    ensures exists k :: p <= k < |s| && ParseFrom(s, p) == MatchAt(s, k) &&
                        forall j :: p <= j < k ==> MatchAt(s, j).None?
    decreases |s| - p
  {
    if MatchAt(s, p).Some? {
      assert ParseFrom(s, p) == MatchAt(s, p);
    } else {
      ParseFromIsFirstMatch(s, p + 1);
      var k :| p + 1 <= k < |s| && ParseFrom(s, p + 1) == MatchAt(s, k) &&
               forall j :: p + 1 <= j < k ==> MatchAt(s, j).None?;
      assert forall j :: p <= j < k ==> MatchAt(s, j).None?;
    }
  }

  /** A successful parse is the match whose first character is leftmost. */
  lemma ParseIsLeftmostMatch(s: string)
    requires ParseDiceFormula(s).Some?
    ensures exists k :: 0 <= k < |s| && ParseDiceFormula(s) == MatchAt(s, k) &&
                        forall j :: 0 <= j < k ==> MatchAt(s, j).None?
  {
    ParseFromIsFirstMatch(s, 0);
  }

  // ---------------------------------------------------------------------------------------------
  // The printed formula

  /** `modifier !== 0 ? (modifier > 0 ? '+' : '') + modifier : ''`. */
  function ModifierText(modifier: int): string {
    if modifier != 0 then (if modifier > 0 then "+" else "") + IntToDecimal(modifier) else ""
  }

  /** `${quantity}d${sides}` followed by the modifier text. */
  function FormatFormula(quantity: int, sides: int, modifier: int): string {
    IntToDecimal(quantity) + "d" + IntToDecimal(sides) + ModifierText(modifier)
  }

  lemma {:induction false} DigitRunEndAt(s: string, i: nat, j: nat)
    requires i <= j <= |s|
    requires forall k :: i <= k < j ==> IsDigit(s[k])
    requires j == |s| || !IsDigit(s[j])
    ensures DigitRunEnd(s, i) == j
    decreases j - i
  {
    if i < j {
      DigitRunEndAt(s, i + 1, j);
    }
  }

  /** The modifier text is empty, or a sign followed by the digits of the magnitude. */
  lemma ModifierTextShape(m: int)
    ensures m == 0 ==> ModifierText(m) == ""
    ensures m > 0 ==> ModifierText(m) == "+" + NatToDecimal(m)
    ensures m < 0 ==> ModifierText(m) == "-" + NatToDecimal(-m)
  {
  }

  lemma {:induction false} ModifierAtFormatted(s: string, i: nat, m: int)
    requires i <= |s| && s[i..] == ModifierText(m)
    ensures ModifierAt(s, i) == m
  {
    ModifierTextShape(m);
    if m != 0 {
      var mag := if m > 0 then m else -m;
      var digits := NatToDecimal(mag);
      assert s[i..] == [s[i]] + digits;
      assert s[i + 1..] == digits;
      assert s[i + 1] == digits[0];
      DigitRunEndAt(s, i + 1, |s|);
      assert s[i + 1..|s|] == digits;
      DecimalRoundTrip(mag);
    }
  }

  /** The pattern read at the first digit of a printed formula gives back its three numbers. */
  lemma {:induction false} MatchAtFormatted(pre: string, q: nat, sd: nat, m: int)
    ensures MatchAt(pre + NatToDecimal(q) + "d" + NatToDecimal(sd) + ModifierText(m), |pre|) ==
            Some(Parsed(q, sd, m))
  {
    var a, b, mt := NatToDecimal(q), NatToDecimal(sd), ModifierText(m);
    var s := pre + a + "d" + b + mt;
    var p := |pre|;
    var e1 := p + |a|;
    var e2 := e1 + 1 + |b|;
    assert s[p..e1] == a;
    assert s[e1] == 'd';
    assert s[e1 + 1..e2] == b;
    assert s[e2..] == mt;
    assert forall k :: p <= k < e1 ==> s[k] == a[k - p];
    DigitRunEndAt(s, p, e1);
    assert s[e1 + 1] == b[0];
    ModifierTextShape(m);
    assert e2 < |s| ==> s[e2] == mt[0];
    assert forall k :: e1 + 1 <= k < e2 ==> s[k] == b[k - e1 - 1];
    DigitRunEndAt(s, e1 + 1, e2);
    DecimalRoundTrip(q);
    DecimalRoundTrip(sd);
    ModifierAtFormatted(s, e2, m);
  }

  /** The formula the roll handlers print parses back to the numbers it was printed from. */
  lemma FormatRoundTrip(q: nat, sd: nat, m: int)
    ensures ParseDiceFormula(FormatFormula(q, sd, m)) == Some(Parsed(q, sd, m))
  {
    MatchAtFormatted("", q, sd, m);
    assert "" + NatToDecimal(q) == NatToDecimal(q);
  }

  /** A negative quantity prints with a minus sign, which the pattern does not read: the parse
      starts one character later and gives the magnitude. */
  lemma NegativeQuantityParsesAsMagnitude(q: int, sd: nat, m: int)
    requires q < 0
    ensures ParseDiceFormula(FormatFormula(q, sd, m)) == Some(Parsed(-q, sd, m))
  {
    var x, y, z := NatToDecimal(-q), NatToDecimal(sd), ModifierText(m);
    assert IntToDecimal(q) == "-" + x;
    assert IntToDecimal(sd) == y;
    var s := FormatFormula(q, sd, m);
    assert s == "-" + x + "d" + y + z;
    MatchAtFormatted("-", -q, sd, m);
    assert s[0] == '-';
    assert DigitRunEnd(s, 0) == 0;
    assert MatchAt(s, 0).None?;
    assert MatchAt(s, 1) == Some(Parsed(-q, sd, m));
    assert ParseFrom(s, 1) == MatchAt(s, 1);
    assert ParseFrom(s, 0) == ParseFrom(s, 1);
  }

  predicate FreeOfSeparator(x: string) {
    forall k :: 0 <= k < |x| ==> x[k] != 'd'
  }

  lemma FreeOfSeparatorConcat(x: string, y: string)
    requires FreeOfSeparator(x) && FreeOfSeparator(y)
    ensures FreeOfSeparator(x + y)
  {
    assert forall k :: 0 <= k < |x + y| ==> (x + y)[k] == if k < |x| then x[k] else y[k - |x|];
  }

  lemma NumberFreeOfSeparator(n: int)
    ensures FreeOfSeparator(IntToDecimal(n))
    ensures FreeOfSeparator(ModifierText(n))
  {
    var digits := NatToDecimal(if n < 0 then -n else n);
    assert FreeOfSeparator(digits);
    FreeOfSeparatorConcat("-", digits);
    FreeOfSeparatorConcat("+", digits);
    ModifierTextShape(n);
  }

  lemma SeparatorBeforeMinusIsNoPattern(a: string, t: string)
    requires FreeOfSeparator(a) && FreeOfSeparator(t)
    requires |t| > 0 && t[0] == '-'
    ensures !HasDicePattern(a + "d" + t)
  {
    var s := a + "d" + t;
    assert forall i :: 0 <= i < |s| && i != |a| ==> s[i] != 'd';
  }

  /** With a negative number of sides the only `d` is followed by `-`, so nothing parses. */
  lemma NegativeSidesNeverParse(q: int, sd: int, m: int)
    requires sd < 0
    ensures ParseDiceFormula(FormatFormula(q, sd, m)).None?
  {
    var a := IntToDecimal(q);
    var t := IntToDecimal(sd) + ModifierText(m);
    assert FormatFormula(q, sd, m) == a + "d" + t;
    NumberFreeOfSeparator(q);
    NumberFreeOfSeparator(sd);
    NumberFreeOfSeparator(m);
    FreeOfSeparatorConcat(IntToDecimal(sd), ModifierText(m));
    SeparatorBeforeMinusIsNoPattern(a, t);
    ParseFailsIffNoPattern(a + "d" + t);
  }

  lemma ParseExampleLeadingText()
    ensures ParseDiceFormula("dano 2d6") == Some(Parsed(2, 6, 0))
  {
  }

  lemma ParseExampleModifiers()
    ensures ParseDiceFormula("3d8+5") == Some(Parsed(3, 8, 5))
    ensures ParseDiceFormula("1d12-2") == Some(Parsed(1, 12, -2))
    ensures ParseDiceFormula("2d6+") == Some(Parsed(2, 6, 0))
  {
  }

  lemma ParseExampleFailures()
    ensures ParseDiceFormula("d20").None?
    ensures ParseDiceFormula("2d").None?
    ensures ParseDiceFormula("2D6").None?
  {
  }
}
