# RPG character manager: a verified model

This project models the rule-bearing core of an "Ordem Paranormal" tabletop RPG character manager
(a React client and an Express server over JSON files), and proves properties of it in Dafny.
The model covers:

- **Dice engine** (`DiceFormula`, `DiceEngine`): `rollDice`, `rollD20`, `rollAttribute`, the
  `/(\d+)d(\d+)([+-]\d+)?/` formula parser, `rollFormula` and `calculateDamage`. `Math.random`
  becomes a free choice among the faces the expression can produce.
- **Derived stats** (`Rules`): the per-trilha pool maxima, plus defence and movement from Agility.
- **Character creation** (`CharacterCreate`): the form as a class whose attribute budget is an
  invariant (every attribute in 1..5 and ten points in all). It also covers skill toggling under
  the skill cap, the Combatente radio pairs, and the submitted record.
- **Game-master editor** (`AdminCharacters`): field and attribute edits with the recomputed
  maxima, evaluated with JavaScript `+`/`NaN` semantics. It also covers skill tiers, ability
  add/remove/offers, and the list updates on save and delete.
- **Character sheet** (`CharacterSheet`): the clamped pool adjustments, training bonuses, the
  displayed skill totals and the skill and attribute rolls.
- **Dice page** (`DiceRollerPage`): the input fallbacks, the history (newest first), the
  formula text and the critical/fumble display predicates.
- **Reference browser** (`DatabasePage`): the case-insensitive search filter and the tab counts.
- **Server** (`Server`): the character collection (GET/POST/PUT/DELETE); the admin token check;
  index-based PUT/DELETE on the admin collections with JavaScript array semantics; and
  `POST /api/roll`, whose printed formula parses back to its inputs.
- **Migration** (`Migrate`): the mappers that reshape the JSON data into database rows.

Dynamic JavaScript values are the datatype `Js.Value` (objects are `map<string, Value>`). Its
helpers `Or`, `Truthy`, `Plus`, `Spread` and `StrictEquals` give `||`, truthiness, `+`,
object spread and `===`. `Seqs.Filter` is `Array.prototype.filter`, with its laws proved once.

## Model

| member | source | states |
|---|---|---|
| Text.NatToDecimal | client/src/pages/DiceRoller.jsx:54 | a number prints as a non-empty digit string with no leading zero |
| Text.DecimalRoundTrip | client/src/utils/diceRoller.js:30-31 | `parseInt` of the printed digits gives the number back |
| Text.DecimalValueNonNegative | client/src/utils/diceRoller.js:30-31 | a digit run never parses to a negative number |
| Text.DigitChar | client/src/pages/DiceRoller.jsx:54 | the digit printed for a value below ten is a decimal digit with that value |
| Text.Lower | client/src/pages/Database.jsx:55-56 | `toLowerCase` keeps the length and lower-cases each ASCII letter in place |
| Text.LowerChar | client/src/pages/Database.jsx:55-56 | the result is never an upper-case ASCII letter, and only an upper-case letter changes, to the lower-case letter 32 code points above it |
| Text.LowerIdempotent | client/src/pages/Database.jsx:55-56 | lower-casing twice is lower-casing once |
| Text.IndexOfFrom | server/index.js:243 | the search finds the first occurrence of the pattern at or after the start, or reports that there is none |
| Text.ReplaceFirstOfPrefix | server/index.js:243 | `replace('Bearer ', '')` on a header that starts with the prefix leaves exactly the rest |
| Js.Or | migrate-data.js:150 | `a \|\| b` is one of its two operands, and it is truthy exactly when either operand is |
| Js.OrAssociative | migrate-data.js:154 | a chain `a \|\| b \|\| c` means the same however it is grouped, and a falsy first operand drops out |
| Js.IntOr | client/src/pages/DiceRoller.jsx:101 | `parseInt(v) \|\| d` is either the parsed number or `d`, and it is never 0 when `d` is not, so a fallback of 1 or 20 rules out a 0 quantity or 0 sides |
| Js.Spread | server/index.js:186-191 | `{...a, ...b}` has the keys of both, and `b` wins on shared keys |
| Js.Plus | client/src/pages/AdminCharacters.jsx:128-142 | `+` gives a string exactly when an operand is a string, array or object, and otherwise a number or `NaN`; an `undefined` or `NaN` operand beside a non-text one gives `NaN` from either side |
| Js.PlusCommutesOnNumbers | client/src/pages/AdminCharacters.jsx:128-142 | without a text operand `+` commutes, and adding 0 keeps a number |
| Seqs.Filter | client/src/pages/Database.jsx:54-57 | `filter` never lengthens a list |
| Seqs.FilterMembers | client/src/pages/Database.jsx:54-57 | exactly the elements that pass the test survive |
| Seqs.FilterCons | server/index.js:204 | filtering a list with a head element handles the head first, then the rest |
| Seqs.FilterDistributes | server/index.js:204 | filtering keeps order: it distributes over concatenation |
| Seqs.FilterKeepsAll | server/index.js:204-206 | when every element passes, the list is unchanged |
| Seqs.FilterDropsAll | server/index.js:204 | when no element passes, nothing is left |
| Seqs.FilterSameLengthKeepsAll | server/index.js:204-206 | an unchanged length means every element passed |
| Seqs.FilterIdempotent | client/src/pages/Database.jsx:54-57 | filtering twice with the same test is filtering once |
| DiceFormula.DigitRunEnd | client/src/utils/diceRoller.js:27 | `\d+` is greedy: it ends at the first non-digit |
| DiceFormula.MatchAtSomeIff | client/src/utils/diceRoller.js:27 | the pattern matches at a position iff a digit run starting there is followed by `d` and a digit |
| DiceFormula.ParseFromNoneIff | client/src/utils/diceRoller.js:27-28 | no match from a position on iff no `d` after it has a digit on each side |
| DiceFormula.ParseFailsIffNoPattern | client/src/utils/diceRoller.js:27-28 | `parseDiceFormula` returns `null` exactly when the text has no digits-`d`-digits substring |
| DiceFormula.ParseFromIsFirstMatch | client/src/utils/diceRoller.js:27 | the scan returns the match at the first position where one starts |
| DiceFormula.ParseIsLeftmostMatch | client/src/utils/diceRoller.js:27-34 | the parse is the match at the leftmost matching position, unanchored |
| DiceFormula.DigitRunEndAt | client/src/utils/diceRoller.js:27 | a maximal digit run ends where the digits stop |
| DiceFormula.ModifierTextShape | client/src/pages/DiceRoller.jsx:54 | the modifier prints as nothing for 0, `+m` when positive and `-\|m\|` when negative |
| DiceFormula.ModifierAtFormatted | client/src/utils/diceRoller.js:32 | the printed modifier parses back to the same number, and no modifier gives 0 |
| DiceFormula.MatchAtFormatted | client/src/utils/diceRoller.js:27-34 | a printed formula after any prefix matches at the start of the formula, giving its three numbers |
| DiceFormula.FormatRoundTrip | client/src/utils/diceRoller.js:27-34 | for `q, s >= 0`, the printed `qds±m` parses back to `(q, s, m)` |
| DiceFormula.NegativeQuantityParsesAsMagnitude | client/src/utils/diceRoller.js:27-31 | a negative quantity prints a `-` that the pattern skips, so it parses as its magnitude |
| DiceFormula.FreeOfSeparatorConcat | client/src/utils/diceRoller.js:27 | joining two texts with no `d` gives a text with no `d` |
| DiceFormula.NumberFreeOfSeparator | client/src/pages/DiceRoller.jsx:54 | printed numbers and modifiers contain no `d` |
| DiceFormula.SeparatorBeforeMinusIsNoPattern | client/src/utils/diceRoller.js:27 | a `d` followed by `-` is no dice pattern |
| DiceFormula.NegativeSidesNeverParse | client/src/utils/diceRoller.js:27-28 | a formula printed with negative sides never parses |
| DiceFormula.ParseExampleLeadingText | client/src/utils/diceRoller.js:27-34 | `"dano 2d6"` parses as 2d6 |
| DiceFormula.ParseExampleModifiers | client/src/utils/diceRoller.js:26-34 | `3d8+5`, `1d12-2` and `2d6+` parse with modifiers 5, -2 and 0 |
| DiceFormula.ParseExampleFailures | client/src/utils/diceRoller.js:27-28 | `d20`, `2d` and `2D6` do not parse |
| DiceEngine.SumBounds | client/src/utils/diceRoller.js:2-8 | `n` faces of a die with `s >= 1` sides sum to between `n` and `n * s` |
| DiceEngine.RollDice | client/src/utils/diceRoller.js:2-8 | `max(quantity, 0)` draws, each a face of the die |
| DiceEngine.RollD20 | client/src/utils/diceRoller.js:10 | the d20 shows 1 to 20 |
| DiceEngine.RollAttribute | client/src/utils/diceRoller.js:12-23 | total = die + attribute + skill bonus (default 0); critical iff the die is 20, fumble iff it is 1 |
| DiceEngine.CriticalAndFumbleIgnoreTotal | client/src/utils/diceRoller.js:20-21 | critical and fumble depend on the die alone and are never both true |
| DiceEngine.AttributeRollExamples | client/src/utils/diceRoller.js:12-23 | a natural 20 is critical even when the total is negative |
| DiceEngine.RollFormula | client/src/utils/diceRoller.js:37-51 | `null` iff the formula does not parse; otherwise the parsed count of dice, total = sum + modifier, and the formula echoed |
| DiceEngine.CalculateDamage | client/src/utils/diceRoller.js:53-62 | `null` iff the formula does not parse; otherwise the formula roll with the attribute bonus added |
| DiceEngine.FormulaTotalRange | client/src/utils/diceRoller.js:41-43 | a formula total lies between `n + m` and `n * s + m` |
| Rules.UnknownTrilhaIsEspecialista | client/src/pages/CharacterCreate.jsx:191-203 | any trilha other than Combatente or Ocultista takes the Especialista row |
| Rules.MaximaFollowAttributes | client/src/pages/CharacterCreate.jsx:191-203 | PV follows Vigor and PE follows Presence point for point; SAN follows neither |
| Rules.CombatenteToOcultista | client/src/pages/CharacterCreate.jsx:191-198 | switching Combatente to Ocultista gives SAN 12 to 20, PE +2 and PV -8 |
| Rules.CombatenteExample | client/src/pages/CharacterCreate.jsx:191-206 | a Combatente with VIG 3, PRE 2 and AGI 4 has PV 23, PE 4, SAN 12, defence 14 and movement 13 |
| CharacterCreate.Atributos.Set | client/src/pages/CharacterCreate.jsx:142 | `{...atributos, [attr]: v}` changes that attribute alone |
| CharacterCreate.TotalAfterSet | client/src/pages/CharacterCreate.jsx:139-147 | setting one attribute changes the total by exactly the difference |
| CharacterCreate.OriginSkills | client/src/pages/CharacterCreate.jsx:121-125 | exactly the origin skills that are not placeholders (nor an Ocultista's mandatory skills) are counted |
| CharacterCreate.FindOrigem | client/src/pages/CharacterCreate.jsx:105 | the origin found has the selected id, and none is found only when no origin has it |
| CharacterCreate.PericiasDisponiveis | client/src/pages/CharacterCreate.jsx:104-130 | the cap is at least the trilha's base and exceeds it by at most the number of skills the origin lists; with no origin it is the base |
| CharacterCreate.SkillCountExamples | client/src/pages/CharacterCreate.jsx:108-117 | with no origin the caps are 3+INT, 7+INT, 3+INT, and 0 for an unknown trilha |
| CharacterCreate.OcultistaMandatorySkillsNotCounted | client/src/pages/CharacterCreate.jsx:124 | an origin listing only Ocultismo/Vontade adds nothing for an Ocultista |
| CharacterCreate.FilterOut | client/src/pages/CharacterCreate.jsx:515 | filtering out a pair keeps exactly the other names |
| CharacterCreate.FilterOutNothingBanned | client/src/pages/CharacterCreate.jsx:515 | with neither member of the pair selected the filter is the identity |
| CharacterCreate.RadioGrowsSelection | client/src/pages/CharacterCreate.jsx:514-516 | choosing a pair for the first time adds exactly one skill |
| CharacterCreate.BuildPericias | client/src/pages/CharacterCreate.jsx:209-231 | the skills object has exactly the mandatory, counted origin and selected skills as keys, each `'treinado'` |
| CharacterCreate.CharacterForm.constructor | client/src/pages/CharacterCreate.jsx:11-45 | the initial form: every entry of the initial `formData` (empty texts, `nex` 5, empty skills and lists, `deslocamento` 9, `defesa` 10), attributes all 1, 5 points left, Especialista, Recruta, nothing selected |
| CharacterCreate.CharacterForm.LoadOrigens | client/src/pages/CharacterCreate.jsx:84-93 | the loaded origins replace the list |
| CharacterCreate.CharacterForm.HandleChange | client/src/pages/CharacterCreate.jsx:132-134 | a free entry is set and nothing else changes |
| CharacterCreate.CharacterForm.SetOrigem | client/src/pages/CharacterCreate.jsx:299 | the origin select sets the origin id |
| CharacterCreate.CharacterForm.SetPatente | client/src/pages/CharacterCreate.jsx:339 | the patente select sets the patente |
| CharacterCreate.CharacterForm.ChangeTrilha | client/src/pages/CharacterCreate.jsx:314-317 | changing trilha empties the skill selection |
| CharacterCreate.CharacterForm.RecomputeCombatStats | client/src/pages/CharacterCreate.jsx:74-81 | the form's `defesa` and `deslocamento` follow Agility, and no other entry changes |
| CharacterCreate.CharacterForm.HandleAtributoChange | client/src/pages/CharacterCreate.jsx:136-149 | the budget invariant is kept; a change within 1..5 that the points cover is applied and paid for, anything else changes nothing |
| CharacterCreate.CharacterForm.TogglePericia | client/src/pages/CharacterCreate.jsx:151-176 | mandatory and origin skills are not toggled; a selected skill is removed; a new one is added only below the cap |
| CharacterCreate.CharacterForm.SelectRadio | client/src/pages/CharacterCreate.jsx:514-536 | the other member of the pair is dropped and the choice appended |
| CharacterCreate.CharacterForm.HandleSubmit | client/src/pages/CharacterCreate.jsx:178-250 | refused iff points remain; otherwise the record has full pools from the trilha table, defence and movement from Agility, prestige and used space 0, `espacoTotal` by patente, the trilha, attributes and patente, the origin object and its powers (or `[]`), the skills object with every key `'treinado'`, the selection as `periciasTrainadas`, and every other form entry as it stands |
| CharacterCreate.SkillAndStatKeysDisjoint | client/src/pages/CharacterCreate.jsx:233-250 | the skill and stat keys written after `...formData` are distinct, and distinct from trilha and atributos |
| CharacterCreate.SubmittedEntries | client/src/pages/CharacterCreate.jsx:233-250 | each entry of the submitted record comes from the last spread that has it: the skill and stat entries, then the typed form entries, then the free form entries |
| AdminCharacters.EditorMaxima | client/src/pages/AdminCharacters.jsx:99-139 | with numeric attributes, the editor's maxima are the trilha table's |
| AdminCharacters.MissingVigorGivesNaN | client/src/pages/AdminCharacters.jsx:101-128 | a missing Vigor makes PV `NaN` unless `\|\| 0` supplies a number |
| AdminCharacters.TrilhaNameIsStrictEquality | client/src/pages/AdminCharacters.jsx:100-127 | a row of the table is chosen only by `===` on the exact string |
| AdminCharacters.ClampAttribute | client/src/pages/AdminCharacters.jsx:122 | `Math.max(1, Math.min(5, n))` lies in 1..5 and is `n` when `n` is already there |
| AdminCharacters.ReplaceById | client/src/pages/AdminCharacters.jsx:63-65 | same length; each record with the saved id is replaced and the others are kept |
| AdminCharacters.ReplaceByIdIsPointUpdate | client/src/pages/AdminCharacters.jsx:63-65 | with unique ids, saving is a point update at the record's position |
| AdminCharacters.ReplaceUnknownIdIsIdentity | client/src/pages/AdminCharacters.jsx:63-65 | saving an id that is not in the list changes nothing |
| AdminCharacters.RemoveById | client/src/pages/AdminCharacters.jsx:86 | deleting never lengthens the list |
| AdminCharacters.RemoveByIdKeepsOthersInOrder | client/src/pages/AdminCharacters.jsx:86 | exactly the records with other ids survive, in order |
| AdminCharacters.RemoveByIdShortensIffPresent | client/src/pages/AdminCharacters.jsx:86 | the list gets shorter iff some record has the id |
| AdminCharacters.FilterIndexRemovesOne | client/src/pages/AdminCharacters.jsx:494 | removing by position drops exactly that element; an index out of range changes nothing |
| AdminCharacters.AbilityOffers | client/src/pages/AdminCharacters.jsx:520-531 | exactly the catalogue entries the offer test accepts, in catalogue order |
| AdminCharacters.OffersExcludeOwned | client/src/pages/AdminCharacters.jsx:522-525 | an owned ability is never offered, and a `Geral` one not owned always is |
| AdminCharacters.OffersByTrilhaSubstring | client/src/pages/AdminCharacters.jsx:527 | a tipo that mentions the trilha anywhere is offered |
| AdminCharacters.Editor.constructor | client/src/pages/AdminCharacters.jsx:9-12 | empty list, nothing selected, not editing |
| AdminCharacters.Editor.LoadCharacters | client/src/pages/AdminCharacters.jsx:41-50 | the loaded list replaces the characters |
| AdminCharacters.Editor.HandleEdit | client/src/pages/AdminCharacters.jsx:52-55 | the character becomes the selection, in edit mode |
| AdminCharacters.Editor.HandleSave | client/src/pages/AdminCharacters.jsx:57-74 | on success the list has the edit applied by id and the editor closes; on failure nothing changes |
| AdminCharacters.Editor.HandleDelete | client/src/pages/AdminCharacters.jsx:76-92 | the list loses the id's records only when the deletion is confirmed and succeeds |
| AdminCharacters.Editor.UpdateCharField | client/src/pages/AdminCharacters.jsx:94-119 | the field is set; a new trilha also recomputes PV/PE/SAN from the table, with missing attributes counted as 0 |
| AdminCharacters.Editor.UpdateAtributo | client/src/pages/AdminCharacters.jsx:121-153 | the clamped attribute is stored, and maxima, defence and movement are recomputed with JavaScript `+` |
| AdminCharacters.Editor.SetSkillLevel | client/src/pages/AdminCharacters.jsx:461-469 | an empty tier deletes the skill's key; any other tier sets it; other skills are kept |
| AdminCharacters.Editor.RemoveAbility | client/src/pages/AdminCharacters.jsx:493-496 | the ability at that position is removed and the others stay in order |
| AdminCharacters.Editor.AddAbility | client/src/pages/AdminCharacters.jsx:511-516 | a non-empty choice is appended to `[...(habilidadesClasse \|\| [])]`: after the old list when it is an array, alone when it is falsy, after its characters when it is a string; for any other value the spread throws and nothing changes |
| AdminCharacters.AddToStringListSplitsIt | client/src/pages/AdminCharacters.jsx:513 | spreading the string `ab` gives its two one-character strings |
| CharacterSheet.Clamp | client/src/pages/CharacterSheet.jsx:87 | the new pool is never negative, never above a non-negative maximum, and exactly `cur + amount` when that fits |
| CharacterSheet.ClampZeroKeepsInRange | client/src/pages/CharacterSheet.jsx:87 | adjusting an in-range pool by 0 leaves it unchanged |
| CharacterSheet.ClampIdempotent | client/src/pages/CharacterSheet.jsx:87 | a clamped pool is a fixed point of clamping |
| CharacterSheet.ClampComposesInRange | client/src/pages/CharacterSheet.jsx:87 | two adjustments that stay in range add up |
| CharacterSheet.TrainingBonus | client/src/pages/CharacterSheet.jsx:71-75 | the bonus is 0, 5, 10 or 15, and 0 exactly for anything but the three tiers |
| CharacterSheet.TrainingBonusTable | client/src/pages/CharacterSheet.jsx:294-297 | treinado 5, veterano 10, expert 15; `null`, `undefined` and a capitalised tier give 0 |
| CharacterSheet.SkillLevel | client/src/pages/CharacterSheet.jsx:69 | the level read is a truthy value or `null` |
| CharacterSheet.DisplayedSkillTotal | client/src/pages/CharacterSheet.jsx:290-299 | the shown total lies between the attribute (0 if missing) and that plus 15, exceeds it by a multiple of 5, and exceeds it only for a skill shown as trained |
| CharacterSheet.TrainedMeansTruthyLevel | client/src/pages/CharacterSheet.jsx:300 | a skill shows as trained iff its stored level is truthy; an unknown tier is trained with bonus 0 |
| CharacterSheet.FindByNome | client/src/pages/CharacterSheet.jsx:67 | the entry found has that name, and none is found only when no entry has it |
| CharacterSheet.FindByNomeFindsMember | client/src/pages/CharacterSheet.jsx:67 | a catalogue entry is always found by its own name |
| CharacterSheet.Sheet.constructor | client/src/pages/CharacterSheet.jsx:11-15 | the sheet starts with the loaded character and no roll |
| CharacterSheet.Sheet.UpdateCharacter | client/src/pages/CharacterSheet.jsx:43-51 | the request carries `{...character, ...updates}`; the response replaces the character, and a failure keeps it |
| CharacterSheet.Sheet.HandleStatChange | client/src/pages/CharacterSheet.jsx:53-55 | the stat is sent as `parseInt(value) \|\| 0` |
| CharacterSheet.Sheet.AdjustPool | client/src/pages/CharacterSheet.jsx:86-99 | only the current pool changes, to the clamped value within `[0, max]` |
| CharacterSheet.Sheet.AdjustHP | client/src/pages/CharacterSheet.jsx:86-89 | `pvAtual` moves by the amount, clamped to `[0, pvMax]` |
| CharacterSheet.Sheet.AdjustSAN | client/src/pages/CharacterSheet.jsx:91-94 | `sanAtual` moves by the amount, clamped to `[0, sanMax]` |
| CharacterSheet.Sheet.AdjustPE | client/src/pages/CharacterSheet.jsx:96-99 | `peAtual` moves by the amount, clamped to `[0, peMax]` |
| CharacterSheet.Sheet.HandleRollAttribute | client/src/pages/CharacterSheet.jsx:57-64 | a d20 plus the stored attribute under JavaScript `+`, with no skill bonus, titled `Teste de <attr>`: a numeric attribute adds, a missing one gives a `NaN` total; critical and fumble follow the die; with no `atributos` object the handler throws and the last roll stays |
| CharacterSheet.Sheet.HandleRollPericia | client/src/pages/CharacterSheet.jsx:66-84 | a d20 plus the skill's attribute and training bonus; besides the die, the total equals the displayed skill total |
| DiceRollerPage.SingleDieDisplay | client/src/pages/DiceRoller.jsx:178-181 | for one die, CRÍTICO iff it shows the sides and FALHA iff a d20 shows 1; a 1-sided die is critical and fumble at once |
| DiceRollerPage.TextsNeedOneDie | client/src/pages/DiceRoller.jsx:178-181 | with more than one die no CRÍTICO, FALHA or fumble class appears |
| DiceRollerPage.FormattedInputsParseBack | client/src/pages/DiceRoller.jsx:54 | the printed formula of non-negative inputs parses back to them |
| DiceRollerPage.DicePage.constructor | client/src/pages/DiceRoller.jsx:6-9 | 1d20+0 with an empty history |
| DiceRollerPage.DicePage.SetQuantity | client/src/pages/DiceRoller.jsx:101 | a `NaN` or 0 quantity becomes 1, and the quantity is never 0 |
| DiceRollerPage.DicePage.SetSides | client/src/pages/DiceRoller.jsx:112 | `NaN` or 0 sides become 20, and the sides are never 0 |
| DiceRollerPage.DicePage.SetModifier | client/src/pages/DiceRoller.jsx:123 | a `NaN` modifier becomes 0 |
| DiceRollerPage.DicePage.ButtonLabel | client/src/pages/DiceRoller.jsx:127-129 | the button reads `Rolar ` followed by a formula that parses back to the inputs |
| DiceRollerPage.DicePage.HandleRoll | client/src/pages/DiceRoller.jsx:41-60 | the new result is prepended to the unchanged history; sum = Σ rolls, total = sum + modifier, and the formula parses back |
| DiceRollerPage.DicePage.HandleQuickRoll | client/src/pages/DiceRoller.jsx:62-80 | prepended with modifier 0, total = sum, formula `qds` |
| DiceRollerPage.DicePage.ClearHistory | client/src/pages/DiceRoller.jsx:82-84 | the history is empty |
| DiceRollerPage.QuickRollFormula | client/src/pages/DiceRoller.jsx:134-137 | each quick button records `1d<size>`, which parses back |
| DatabasePage.FilterData | client/src/pages/Database.jsx:52-58 | an empty term shows everything, and filtering never adds items |
| DatabasePage.FilterDataSelects | client/src/pages/Database.jsx:54-57 | with a term, exactly the items whose name or description contains it (ignoring case) are kept, in order |
| DatabasePage.FilterDataIdempotent | client/src/pages/Database.jsx:52-58 | searching the results again with the same term changes nothing |
| DatabasePage.NoTextNeverMatches | client/src/pages/Database.jsx:55-56 | an item with no name and no description matches no non-empty term |
| DatabasePage.SearchIgnoresCase | client/src/pages/Database.jsx:55-56 | an item is found by its own name in any case |
| DatabasePage.Tabs | client/src/pages/Database.jsx:60-68 | seven tabs in order, each counting its whole list |
| DatabasePage.TabCountBoundsSearch | client/src/pages/Database.jsx:60-68 | a tab's count bounds what any search shows in it |
| Server.FindIndexById | server/index.js:144-180 | the index found is the first record with the id; none only when no record has it |
| Server.NewCharacter | server/index.js:160-165 | the generated id unless the body has one, every body field, and the two timestamps, each its own clock reading, written last |
| Server.Merged | server/index.js:186-191 | the old fields, overwritten by the body, with the path id and a new update time forced |
| Server.CharacterStore.constructor | server/index.js:143 | the store holds the characters read |
| Server.CharacterStore.GetById | server/index.js:141-154 | 404 iff no record has the id, otherwise 200 with the first such record |
| Server.CharacterStore.Create | server/index.js:157-174 | exactly one record appended, 201 with it |
| Server.CharacterStore.Update | server/index.js:177-198 | unknown id: 404 and no write; otherwise that record is merged and the rest kept |
| Server.CharacterStore.Delete | server/index.js:201-215 | unchanged length: 404 and no write; otherwise the survivors are written |
| Server.UpdateTouchesOnlyItsRecord | server/index.js:186-193 | a merge keeps the length, every other record and the path id |
| Server.DeleteFindsIffPresent | server/index.js:204-210 | DELETE gives 404 iff no record has the id, and the survivors are the records with other ids |
| Server.BearerHeaderAcceptedIffToken | server/index.js:243-248 | `Bearer <t>` is let through iff `t` is the stored token |
| Server.MissingHeader | server/index.js:243-248 | a request with no header is let through iff the store has no token |
| Server.RawTokenAccepted | server/index.js:243-248 | the token alone, without the prefix, is also accepted |
| Server.StoreAt | server/index.js:273-274 | `arr[i] = body` replaces an in-range index, pads with `null` beyond the end, and stores nothing for `NaN` or a negative index |
| Server.StoreAtReplacesOnlyIndex | server/index.js:273-274 | an in-range PUT keeps the length and every other element |
| Server.SpliceStart | server/index.js:286 | `splice` starts at 0 for `NaN`, counts a negative index from the end, and stops at the length |
| Server.SpliceOne | server/index.js:286 | at most the element at the start leaves, and the rest keep their order |
| Server.SpliceRemovesExactlyOne | server/index.js:284-286 | deleting an existing index removes exactly that element |
| Server.SpliceExamples | server/index.js:284-286 | index -1 removes the last element, `NaN` the first, and the length nothing |
| Server.AdminCollection.constructor | server/index.js:261 | the collection holds the items read |
| Server.AdminCollection.Add | server/index.js:259-268 | with the admin token the body is appended (201); otherwise 403 and no change |
| Server.AdminCollection.Replace | server/index.js:270-280 | with the token the index is stored as `arr[i] = body` (200); otherwise 403 and no change |
| Server.AdminCollection.Remove | server/index.js:282-292 | with the token `splice(i, 1)` is applied (200 and the message); otherwise 403 and no change |
| Server.RollRoute | server/index.js:407-427 | 400 iff quantity or sides is missing or 0; otherwise `max(q,0)` faces, total = Σ + modifier (default 0), and a formula that parses back; api/index.js (lines 403-423) repeats this handler unchanged |
| Migrate.InsanidadeEntry | migrate-data.js:113-117 | each entry has exactly a name starting with `Efeito `, tipo `Paranormal`, and a description that is never `undefined` |
| Migrate.Insanidade | migrate-data.js:113 | one entry per effect, in order |
| Migrate.UnnumberedEffectNamedByPosition | migrate-data.js:114 | an effect with no id is named by its 1-based position |
| Migrate.NumberedEffectKeepsId | migrate-data.js:114 | a truthy numeric or string id names the effect |
| Migrate.EffectTextPreferred | migrate-data.js:116 | the description is `efeito`, else `descricao`, else `''` |
| Migrate.UnnumberedEffectsHaveDistinctNames | migrate-data.js:113-114 | effects without ids get pairwise distinct names |
| Migrate.DificuldadeEntry | migrate-data.js:128-132 | each test becomes `{nome: tipo, dt: DT, descricao}` |
| Migrate.Dificuldades | migrate-data.js:128-132 | with `testes`, one row per test in order; without it, the data pass through |
| Migrate.FlatDificuldadesPassThrough | migrate-data.js:128-132 | a flat array, or an object whose `testes` is falsy (such as `''`), is left as it is; `testes: []` is truthy and gives no rows |
| Migrate.CharactersFormatted | migrate-data.js:142-144 | rows are built only when there are characters, one per character, in order |
| Migrate.CharactersFormattedAppend | migrate-data.js:144 | migrating two lists one after the other gives their rows in order |
| Migrate.PassThroughFieldsCopied | migrate-data.js:145-167 | the descriptive fields are copied unchanged, falsy values included |
| Migrate.DefaultsWhenFalsy | migrate-data.js:150-174 | a falsy patente, nex, pericias, deslocamento, defesa, inventario or prestigio becomes its default |
| Migrate.CamelCasePreferred | migrate-data.js:154-176 | each renamed column reads camelCase first, then snake_case, then its default |
| Migrate.EmptyCharacterDefaults | migrate-data.js:144-177 | an empty character gets every default and no pools |
| Migrate.ZeroCountsAsAbsent | migrate-data.js:151-176 | a stored 0 is falsy: `nex: 0` gives 5, and `pvAtual: 0` falls to `pv_atual` |
| Migrate.MigrationIsIdempotent | migrate-data.js:144-177 | migrating a migrated row read back changes nothing |

## Left out

- File and database I/O: `readJSON`/`writeJSON` are not defined in server/index.js. The store is an in-memory sequence, and every 500 response (a failing read or write) is left out. So are the reference-data GET routes and the admin login route.
- The Supabase client (utils/supabase.js), the HTTP client (client/src/utils/api.js), and every api/index.js route other than `/api/roll`.
- `Math.random`: a draw is any face the expression `Math.floor(Math.random() * sides) + 1` can produce for integer `sides`. Floating-point numbers, and JSON numbers that are not integers, are left out.
- `Date.now()` ids and ISO timestamps are parameters; `toLocaleTimeString` is left out.
- React: rendering, effects and their scheduling, `alert`/`confirm`, scrolling and async timing. Each handler is one synchronous step. The tab labels and emoji are not modelled.
- The pool maxima computed and discarded at client/src/pages/CharacterCreate.jsx:57-82. The model uses the values `handleSubmit` stores.
- JavaScript reference equality: `===` on objects and arrays is structural here.
- `toLowerCase` covers ASCII letters only; there is no full Unicode case mapping.
- Spreading a string or an array into an object (`{...'abc'}`) gives `{}` in the model.
- CharacterCreate.CharacterForm.HandleChange: requires a free-text entry. The typed entries (origem, trilha, patente, atributos) are set through their own methods.
- CharacterSheet.Sheet.AdjustPool: requires numeric pools. With a missing pool the source computes `NaN`, which the model does not represent there; AdjustHP, AdjustSAN and AdjustPE inherit this.
- CharacterSheet.Sheet.HandleRollPericia: requires the skill to be in the catalogue and attributes that are numbers or missing. The source throws when the entry is missing there, and concatenates strings for a text attribute.
- CharacterSheet.AttributeOrZero: requires a numeric (or missing) attribute, for the same reason.
- DatabasePage.FilterData: requires names and descriptions to be strings or absent. Other values make `toLowerCase` throw in the source.
- Server.RollRoute: the body fields are integers or absent. String bodies, where JavaScript would compare or concatenate text, and a `null` modifier are not modelled.
- Migrate.Dificuldades: requires `testes` to be an array of non-null values, since anything else throws in the source.
- AdminCharacters.AbilityOffers: requires `habilidadesClasse` and each `tipo` to be strings, arrays or absent; `includes` on other values throws in the source.
- CharacterCreate.OrigemPericias: a truthy `pericias` that is not an array (where the source would throw on `filter`) counts as no skills.

## Findings

None. The parser accepts its own formulas for non-negative inputs, and the clamps and caps do what their code says.
