/** The character sheet of client/src/pages/CharacterSheet.jsx: pool adjustments clamped to
    `[0, max]`, stat edits, attribute and skill rolls with their training bonus, and the skill
    totals the sheet displays. Every change is sent to the store as `{...character, ...updates}`;
    the sheet then shows whatever record the store answers with. */
module CharacterSheet {
  import opened Text
  import opened Js
  import opened DiceEngine

  /** `Math.max(0, Math.min(max, cur + amount))`. */
  function Clamp(cur: int, amount: int, max: int): (r: int)
    ensures r >= 0
    ensures max >= 0 ==> r <= max
    ensures 0 <= cur + amount <= max ==> r == cur + amount
    ensures cur + amount > max ==> r == (if max > 0 then max else 0)
    ensures cur + amount < 0 ==> r == 0
  {
    var m := if max < cur + amount then max else cur + amount;
    if m > 0 then m else 0
  }

  /** Adjusting an in-range pool by 0 leaves it as it is. */
  lemma ClampZeroKeepsInRange(cur: int, max: int)
    requires 0 <= cur <= max
    ensures Clamp(cur, 0, max) == cur
  {
  }

  /** A clamped pool is a fixed point: clamping it again, by 0, changes nothing. */
  lemma ClampIdempotent(cur: int, amount: int, max: int)
    requires max >= 0
    ensures Clamp(Clamp(cur, amount, max), 0, max) == Clamp(cur, amount, max)
  {
  }

  /** Two adjustments that stay inside the pool add up. */
  lemma ClampComposesInRange(cur: int, a: int, b: int, max: int)
    requires 0 <= cur + a <= max && 0 <= cur + a + b <= max
    ensures Clamp(Clamp(cur, a, max), b, max) == Clamp(cur, a + b, max)
  {
  }

  /** The bonus of a training level: the `let` chain of `if`s of the roll and of the display. */
  function TrainingBonus(nivel: Value): (b: int)
    ensures 0 <= b <= 15 && b % 5 == 0
    ensures b == 0 <==> nivel != Str("treinado") && nivel != Str("veterano") && nivel != Str("expert")
  {
    if nivel == Str("treinado") then 5
    else if nivel == Str("veterano") then 10
    else if nivel == Str("expert") then 15
    else 0
  }

  lemma TrainingBonusTable()
    ensures TrainingBonus(Str("treinado")) == 5
    ensures TrainingBonus(Str("veterano")) == 10
    ensures TrainingBonus(Str("expert")) == 15
    ensures TrainingBonus(Null) == 0 && TrainingBonus(Undefined) == 0 && TrainingBonus(Str("Treinado")) == 0
  {
  }

  /** `character.pericias?.[nome] || null`. */
  function SkillLevel(character: Record, nome: Value): (v: Value)
    ensures Truthy(v) || v == Null
  {
    Or(Field(Get(character, "pericias"), ToJsString(nome)), Null)
  }

  /** `character.atributos[key] || 0`, for an attribute that is a number or is missing. */
  function AttributeOrZero(character: Record, key: Value): int
    requires Or(Field(Get(character, "atributos"), ToJsString(key)), Num(0)).Num?
  {
    Or(Field(Get(character, "atributos"), ToJsString(key)), Num(0)).n
  }

  predicate AttributeReadable(character: Record, key: Value) {
    Get(character, "atributos").Obj? && Or(Field(Get(character, "atributos"), ToJsString(key)), Num(0)).Num?
  }

  /** The total shown beside a skill: its attribute plus its training bonus. */
  function DisplayedSkillTotal(character: Record, pericia: Record): (t: int)
    requires AttributeReadable(character, Get(pericia, "atributo"))
    ensures AttributeOrZero(character, Get(pericia, "atributo")) <= t <= AttributeOrZero(character, Get(pericia, "atributo")) + 15
    ensures (t - AttributeOrZero(character, Get(pericia, "atributo"))) % 5 == 0
    ensures t > AttributeOrZero(character, Get(pericia, "atributo")) ==> IsTrained(character, Get(pericia, "nome"))
  {
    AttributeOrZero(character, Get(pericia, "atributo")) + TrainingBonus(SkillLevel(character, Get(pericia, "nome")))
  }

  /** `isTreinada`: the level is not `null`. */
  predicate IsTrained(character: Record, nome: Value) {
    SkillLevel(character, nome) != Null
  }

  /** A skill is shown as trained exactly when its stored level is truthy, and a skill that
      earns a bonus is always shown as trained; a trained skill with an unknown level earns none. */
  lemma TrainedMeansTruthyLevel(character: Record, nome: Value)
    ensures IsTrained(character, nome) <==> Truthy(Field(Get(character, "pericias"), ToJsString(nome)))
    ensures TrainingBonus(SkillLevel(character, nome)) > 0 ==> IsTrained(character, nome)
    ensures Field(Get(character, "pericias"), ToJsString(nome)) == Str("mestre") ==>
              IsTrained(character, nome) && TrainingBonus(SkillLevel(character, nome)) == 0
  {
  }

  /** `pericias.find(p => p.nome === nome)`. */
  function FindByNome(catalog: seq<Record>, nome: Value): (r: Option<Record>)
    ensures r.Some? ==> r.value in catalog && StrictEquals(Get(r.value, "nome"), nome)
    ensures r.None? ==> forall p :: p in catalog ==> !StrictEquals(Get(p, "nome"), nome)
  {
    if catalog == [] then None
    else if StrictEquals(Get(catalog[0], "nome"), nome) then Some(catalog[0])
    else FindByNome(catalog[1..], nome)
  }

  /** A catalogue entry whose name is a string is always found (possibly as an earlier entry with
      the same name). */
  lemma {:induction false} FindByNomeFindsMember(catalog: seq<Record>, p: Record)
    requires p in catalog && !Get(p, "nome").NaN?
    ensures FindByNome(catalog, Get(p, "nome")).Some?
  {
    if catalog[0] != p {
      assert p in catalog[1..];
      FindByNomeFindsMember(catalog[1..], p);
    }
  }

  /** The record of the last roll; the timestamp is left out. The attribute and the total are
      JavaScript values, because `handleRollAttribute` hands `rollAttribute` whatever is stored. */
  datatype SheetRoll = SheetRoll(
    tipo: string, roll: int, attributeValue: Value, skillBonus: int, total: Value,
    isCritical: bool, isFumble: bool)

  /** The record shown for an engine roll, whose attribute and total are numbers. */
  function FromAttributeRoll(tipo: string, r: AttributeRoll): SheetRoll {
    SheetRoll(tipo, r.roll, Num(r.attributeValue), r.skillBonus, Num(r.total), r.isCritical, r.isFumble)
  }

  class Sheet {
    var character: Record
    /** The skill catalogue (`pericias`). */
    var catalog: seq<Record>
    var lastRoll: Option<SheetRoll>

    constructor (loaded: Record, skills: seq<Record>)
      ensures character == loaded && catalog == skills && lastRoll == None
    {
      character := loaded;
      catalog := skills;
      lastRoll := None;
    }

    /** `updateCharacter(updates)`: `sent` is the body of the update request; `response` is the
        record the store answers with, `None` when the request fails. */
    method UpdateCharacter(updates: Record, response: Option<Record>) returns (sent: Record)
      modifies this`character
      ensures sent == Spread(old(character), updates)
      ensures character == if response.Some? then response.value else old(character)
    {
      sent := Spread(character, updates);
      if response.Some? {
        character := response.value;
      }
    }

    /** `handleStatChange(stat, value)`; `parsed` is `parseInt(value)`, `None` for `NaN`. */
    method HandleStatChange(stat: string, parsed: Option<int>, response: Option<Record>) returns (sent: Record)
      modifies this`character
      ensures sent == old(character)[stat := Num(IntOr(parsed, 0))]
      ensures character == if response.Some? then response.value else old(character)
    {
      sent := UpdateCharacter(map[stat := Num(IntOr(parsed, 0))], response);
      assert sent == old(character)[stat := Num(IntOr(parsed, 0))];
    }

    /** One of `adjustHP`, `adjustSAN`, `adjustPE`: the current pool `cur` moves by `amount`,
        clamped to `[0, max]`, and only that field changes in the request. */
    method AdjustPool(cur: string, max: string, amount: int, response: Option<Record>) returns (sent: Record)
      requires Get(character, cur).Num? && Get(character, max).Num?
      modifies this`character
      ensures sent == old(character)[cur := Num(Clamp(Get(old(character), cur).n, amount, Get(old(character), max).n))]
      ensures Get(old(character), max).n >= 0 ==> 0 <= Get(sent, cur).n <= Get(old(character), max).n
      ensures forall k :: k in old(character) && k != cur ==> sent[k] == old(character)[k]
      ensures character == if response.Some? then response.value else old(character)
    {
      var v := Clamp(Get(character, cur).n, amount, Get(character, max).n);
      sent := UpdateCharacter(map[cur := Num(v)], response);
      assert sent == old(character)[cur := Num(v)];
    }

    /** `adjustHP(amount)`. */
    method AdjustHP(amount: int, response: Option<Record>) returns (sent: Record)
      requires Get(character, "pvAtual").Num? && Get(character, "pvMax").Num?
      modifies this`character
      ensures sent == old(character)["pvAtual" := Num(Clamp(Get(old(character), "pvAtual").n, amount, Get(old(character), "pvMax").n))]
      ensures character == if response.Some? then response.value else old(character)
    {
      sent := AdjustPool("pvAtual", "pvMax", amount, response);
    }

    /** `adjustSAN(amount)`. */
    method AdjustSAN(amount: int, response: Option<Record>) returns (sent: Record)
      requires Get(character, "sanAtual").Num? && Get(character, "sanMax").Num?
      modifies this`character
      ensures sent == old(character)["sanAtual" := Num(Clamp(Get(old(character), "sanAtual").n, amount, Get(old(character), "sanMax").n))]
      ensures character == if response.Some? then response.value else old(character)
    {
      sent := AdjustPool("sanAtual", "sanMax", amount, response);
    }

    /** `adjustPE(amount)`. */
    method AdjustPE(amount: int, response: Option<Record>) returns (sent: Record)
      requires Get(character, "peAtual").Num? && Get(character, "peMax").Num?
      modifies this`character
      ensures sent == old(character)["peAtual" := Num(Clamp(Get(old(character), "peAtual").n, amount, Get(old(character), "peMax").n))]
      ensures character == if response.Some? then response.value else old(character)
    {
      sent := AdjustPool("peAtual", "peMax", amount, response);
    }

    /** `handleRollAttribute(atributo)`: a d20 plus the stored attribute, with no skill bonus.
        `roll + attributeValue + skillBonus` is JavaScript's `+`: a numeric attribute adds, a
        missing one makes the total `NaN`. With no `atributos` object at all the handler throws
        and the last roll stays as it was. */
    method HandleRollAttribute(atributo: string)
      modifies this`lastRoll
      ensures var atrs := Get(character, "atributos");
        if atrs.Undefined? || atrs.Null? then lastRoll == old(lastRoll)
        else
          var a := Field(atrs, atributo);
          && lastRoll.Some? && lastRoll.value.tipo == "Teste de " + atributo
          && var r := lastRoll.value;
             && 1 <= r.roll <= 20 && r.attributeValue == a && r.skillBonus == 0
             && r.total == Plus(Plus(Num(r.roll), a), Num(0))
             && (a.Num? ==> r.total == Num(r.roll + a.n))
             && (a.Undefined? ==> r.total == NaN)
             && (r.isCritical <==> r.roll == 20) && (r.isFumble <==> r.roll == 1)
    {
      var atrs := Get(character, "atributos");
      if atrs.Undefined? || atrs.Null? {
        return;
      }
      var a := Field(atrs, atributo);
      var roll := RollD20();
      var total := Plus(Plus(Num(roll), a), Num(0));
      lastRoll := Some(SheetRoll("Teste de " + atributo, roll, a, 0, total, roll == 20, roll == 1));
    }

    /** `handleRollPericia(pericia)`: a d20 plus the skill's attribute plus its training bonus;
        the die aside, the total is the one the sheet displays for that skill. */
    method HandleRollPericia(pericia: Record)
      requires pericia in catalog && !Get(pericia, "nome").NaN?
      requires forall p :: p in catalog ==> AttributeReadable(character, Get(p, "atributo"))
      modifies this`lastRoll
      ensures var data := FindByNome(catalog, Get(pericia, "nome"));
        && data.Some? && data.value in catalog
        && AttributeReadable(character, Get(data.value, "atributo"))
        && lastRoll.Some?
        && lastRoll.value.tipo
             == "Teste de " + ToJsString(Get(pericia, "nome")) + " (" + ToJsString(Get(data.value, "atributo")) + ")"
        && var r := lastRoll.value;
           && 1 <= r.roll <= 20
           && r.attributeValue == Num(AttributeOrZero(character, Get(data.value, "atributo")))
           && r.skillBonus == TrainingBonus(SkillLevel(character, Get(pericia, "nome")))
           && r.total == Num(r.roll + DisplayedSkillTotal(character, data.value))
           && (r.isCritical <==> r.roll == 20) && (r.isFumble <==> r.roll == 1)
    {
      FindByNomeFindsMember(catalog, pericia);
      var periciaData := FindByNome(catalog, Get(pericia, "nome")).value;
      var atributoValue := AttributeOrZero(character, Get(periciaData, "atributo"));
      var nivelTreinamento := SkillLevel(character, Get(pericia, "nome"));
      var skillBonus := TrainingBonus(nivelTreinamento);
      var result := RollAttribute(atributoValue, skillBonus);
      var tipo := "Teste de " + ToJsString(Get(pericia, "nome")) + " (" + ToJsString(Get(periciaData, "atributo")) + ")";
      lastRoll := Some(FromAttributeRoll(tipo, result));
    }
  }
}
