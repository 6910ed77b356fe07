/** The character-creation form of client/src/pages/CharacterCreate.jsx: a five-point attribute
    budget, the skill selection capped by the computed number of skills, and the character record
    `handleSubmit` assembles. The form state (`formData`, `pontosDisponiveis`,
    `periciasSelecionadas`) is the class `CharacterForm`; each handler is one state transition. */
module CharacterCreate {
  import opened Text
  import opened Js
  import opened Rules

  datatype Attr = FOR | AGI | INT | PRE | VIG

  datatype Atributos = Atributos(for_: int, agi: int, int_: int, pre: int, vig: int) {
    function Get(a: Attr): int {
      match a
      case FOR => for_
      case AGI => agi
      case INT => int_
      case PRE => pre
      case VIG => vig
    }

    function Set(a: Attr, v: int): (r: Atributos)
      ensures r.Get(a) == v
      ensures forall b :: b != a ==> r.Get(b) == Get(b)
    {
      match a
      case FOR => this.(for_ := v)
      case AGI => this.(agi := v)
      case INT => this.(int_ := v)
      case PRE => this.(pre := v)
      case VIG => this.(vig := v)
    }

    function Total(): int {
      for_ + agi + int_ + pre + vig
    }

    predicate InRange() {
      forall a :: 1 <= Get(a) <= 5
    }

    /** The `atributos` object as it is submitted. */
    function ToValue(): Value {
      Obj(map["FOR" := Num(for_), "AGI" := Num(agi), "INT" := Num(int_), "PRE" := Num(pre), "VIG" := Num(vig)])
    }
  }

  lemma TotalAfterSet(atrs: Atributos, a: Attr, v: int)
    ensures atrs.Set(a, v).Total() == atrs.Total() - atrs.Get(a) + v
  {
  }

  const OriginPlaceholder1 := "Duas a sua escolha de mestre"
  const OriginPlaceholder2 := "Duas à escolha do mestre"

  /** The filter applied to an origin's skills: the two "chosen by the game master" placeholders
      never count, and for an Ocultista neither do Ocultismo and Vontade, which it has anyway. */
  predicate CountsAsOriginSkill(p: Value, trilha: string) {
    && p != Str(OriginPlaceholder1)
    && p != Str(OriginPlaceholder2)
    && !(trilha == "Ocultista" && (p == Str("Ocultismo") || p == Str("Vontade")))
  }

  function OriginSkills(pericias: seq<Value>, trilha: string): (r: seq<Value>)
    ensures |r| <= |pericias|
    ensures forall p :: p in r <==> p in pericias && CountsAsOriginSkill(p, trilha)
  {
    if pericias == [] then []
    else (if CountsAsOriginSkill(pericias[0], trilha) then [pericias[0]] else [])
         + OriginSkills(pericias[1..], trilha)
  }

  /** `origens.find(o => o.id === formData.origem)`: the first origin whose id is that string. */
  function FindOrigem(origens: seq<Record>, id: string): (r: Option<Record>)
    ensures r.Some? ==> r.value in origens && Get(r.value, "id") == Str(id)
    ensures r.None? ==> forall o :: o in origens ==> Get(o, "id") != Str(id)
  {
    if origens == [] then None
    else if Get(origens[0], "id") == Str(id) then Some(origens[0])
    else FindOrigem(origens[1..], id)
  }

  /** `origemSelecionada?.pericias` when it is an array; no origin, or no array, gives none. */
  function OrigemPericias(origem: Option<Record>): seq<Value> {
    if origem.Some? && Get(origem.value, "pericias").Arr? then Get(origem.value, "pericias").items else []
  }

  /** The base of `calcularPericiasDisponiveis`, before the origin's skills are added. */
  function BaseSkillCount(trilha: string, intelecto: int): int {
    if trilha == "Combatente" then 1 + 1 + 1 + intelecto
    else if trilha == "Especialista" then 7 + intelecto
    else if trilha == "Ocultista" then 3 + intelecto
    else 0
  }

  /** `calcularPericiasDisponiveis()`: the trilha's base, raised by at most one per skill the
      origin lists, and by none without an origin. */
  function PericiasDisponiveis(trilha: string, intelecto: int, origem: Option<Record>): (n: int)
    ensures BaseSkillCount(trilha, intelecto) <= n <= BaseSkillCount(trilha, intelecto) + |OrigemPericias(origem)|
    ensures origem.None? ==> n == BaseSkillCount(trilha, intelecto)
  {
    BaseSkillCount(trilha, intelecto) + |OriginSkills(OrigemPericias(origem), trilha)|
  }

  lemma SkillCountExamples(intelecto: int)
    ensures PericiasDisponiveis("Combatente", intelecto, None) == 3 + intelecto
    ensures PericiasDisponiveis("Especialista", intelecto, None) == 7 + intelecto
    ensures PericiasDisponiveis("Ocultista", intelecto, None) == 3 + intelecto
    ensures PericiasDisponiveis("Mundano", intelecto, None) == 0
  {
  }

  /** An Ocultista's origin listing Ocultismo or Vontade adds nothing for them. */
  lemma {:induction false} OcultistaMandatorySkillsNotCounted(pericias: seq<Value>)
    requires forall p :: p in pericias ==> p == Str("Ocultismo") || p == Str("Vontade")
    ensures OriginSkills(pericias, "Ocultista") == []
  {
    if pericias != [] {
      assert pericias[0] in pericias;
      assert forall p :: p in pericias[1..] ==> p in pericias;
      OcultistaMandatorySkillsNotCounted(pericias[1..]);
    }
  }

  /** `list.filter(p => !banned.includes(p))`. */
  function FilterOut(list: seq<string>, banned: set<string>): (r: seq<string>)
    ensures |r| <= |list|
    ensures forall x :: x in r <==> x in list && x !in banned
  {
    if list == [] then []
    else (if list[0] in banned then [] else [list[0]]) + FilterOut(list[1..], banned)
  }

  lemma {:induction false} FilterOutNothingBanned(list: seq<string>, banned: set<string>)
    requires forall x :: x in list ==> x !in banned
    ensures FilterOut(list, banned) == list
  {
    if list != [] {
      assert list[0] in list;
      assert forall x :: x in list[1..] ==> x in list;
      FilterOutNothingBanned(list[1..], banned);
    }
  }

  /** The radio buttons for `Luta`/`Pontaria` and `Fortitude`/`Reflexos` replace the pair in the
      selection and never consult the cap: with neither of the pair selected, the selection simply
      grows by one, even when it was already full. */
  lemma RadioGrowsSelection(selecionadas: seq<string>, a: string, b: string, per: string)
    requires a !in selecionadas && b !in selecionadas
    ensures |FilterOut(selecionadas, {a, b}) + [per]| == |selecionadas| + 1
  {
    FilterOutNothingBanned(selecionadas, {a, b});
  }

  function MandatorySkills(trilha: string): set<string> {
    if trilha == "Ocultista" then {"Ocultismo", "Vontade"} else {}
  }

  /** The keys the submitted `pericias` object has: an Ocultista's two mandatory skills, the origin
      skills that survive the filter (as object keys, so as strings), and every selected skill. */
  ghost function SubmittedSkillKeys(trilha: string, origemPericias: seq<Value>, selecionadas: seq<string>): set<string> {
    MandatorySkills(trilha)
    + (set p | p in origemPericias && CountsAsOriginSkill(p, trilha) :: ToJsString(p))
    + (set s | s in selecionadas)
  }

  /** The `periciasObj` loops of `handleSubmit`: every key it sets is set to `'treinado'`. */
  method BuildPericias(trilha: string, origemPericias: seq<Value>, selecionadas: seq<string>)
    returns (obj: map<string, string>)
    ensures obj.Keys == SubmittedSkillKeys(trilha, origemPericias, selecionadas)
    ensures forall k :: k in obj ==> obj[k] == "treinado"
  {
    obj := map[];
    if trilha == "Ocultista" {
      obj := obj["Ocultismo" := "treinado"]["Vontade" := "treinado"];
    }
    for i := 0 to |origemPericias|
      invariant obj.Keys == MandatorySkills(trilha)
        + (set p | p in origemPericias[..i] && CountsAsOriginSkill(p, trilha) :: ToJsString(p))
      invariant forall k :: k in obj ==> obj[k] == "treinado"
    {
      assert origemPericias[..i + 1] == origemPericias[..i] + [origemPericias[i]];
      if CountsAsOriginSkill(origemPericias[i], trilha) {
        obj := obj[ToJsString(origemPericias[i]) := "treinado"];
      }
    }
    assert origemPericias[..|origemPericias|] == origemPericias;
    for i := 0 to |selecionadas|
      invariant obj.Keys == MandatorySkills(trilha)
        + (set p | p in origemPericias && CountsAsOriginSkill(p, trilha) :: ToJsString(p))
        + (set s | s in selecionadas[..i])
      invariant forall k :: k in obj ==> obj[k] == "treinado"
    {
      assert selecionadas[..i + 1] == selecionadas[..i] + [selecionadas[i]];
      obj := obj[selecionadas[i] := "treinado"];
    }
    assert selecionadas[..|selecionadas|] == selecionadas;
  }

  /** `espacoTotal` by patente. */
  function EspacoTotal(patente: string): int {
    if patente == "Recruta" then 10 else if patente == "Operador" then 15 else 20
  }

  const TypedKeys: set<string> := {"origem", "trilha", "patente", "atributos"}

  /** The entries of the initial `formData` other than the typed ones. */
  const InitialFields: Record := map[
    "nome" := Str(""), "jogador" := Str(""), "classe" := Str(""), "nex" := Num(5),
    "pericias" := Obj(map[]), "periciasTrainadas" := Arr([]),
    "descricao" := Str(""), "historia" := Str(""), "idade" := Str(""), "aniversario" := Str(""),
    "local" := Str(""), "peso" := Str(""), "deslocamento" := Num(9), "defesa" := Num(10),
    "poderesOrigem" := Arr([]), "habilidadesClasse" := Arr([]), "inventario" := Arr([]),
    "rituaisConhecidos" := Arr([]), "anotacoes" := Str("")]

  class CharacterForm {
    /** The free-text and numeric entries of `formData` (nome, jogador, classe, nex, ...). */
    var fields: Record
    var origem: string
    var trilha: string
    var patente: string
    var atributos: Atributos
    /** `pontosDisponiveis`. */
    var pontos: int
    /** `periciasSelecionadas`. */
    var selecionadas: seq<string>
    /** The origins loaded from the reference-data collaborator. */
    var origens: seq<Record>

    /** The attribute budget: every attribute in 1..5, no debt, and ten points in all. */
    ghost predicate Valid()
      reads this
    {
      && atributos.InRange()
      && pontos >= 0
      && atributos.Total() + pontos == 10
    }

    function SelectedOrigem(): Option<Record>
      reads this
    {
      FindOrigem(origens, origem)
    }

    function MaxPericias(): int
      reads this
    {
      PericiasDisponiveis(trilha, atributos.int_, SelectedOrigem())
    }

    constructor ()
      ensures Valid()
      ensures atributos == Atributos(1, 1, 1, 1, 1) && pontos == 5
      ensures trilha == "Especialista" && patente == "Recruta" && origem == ""
      ensures selecionadas == [] && origens == []
      ensures fields == InitialFields
    {
      fields := InitialFields;
      origem := "";
      trilha := "Especialista";
      patente := "Recruta";
      atributos := Atributos(1, 1, 1, 1, 1);
      pontos := 5;
      selecionadas := [];
      origens := [];
    }

    /** `setOrigens(response.data)` once the origins arrive. */
    method LoadOrigens(list: seq<Record>)
      modifies this`origens
      ensures origens == list
    {
      origens := list;
    }

    /** `handleChange(field, value)` for the free entries of the form. */
    method HandleChange(field: string, value: Value)
      requires field !in TypedKeys
      modifies this`fields
      ensures fields == old(fields)[field := value]
    {
      fields := fields[field := value];
    }

    method SetOrigem(id: string)
      modifies this`origem
      ensures origem == id
    {
      origem := id;
    }

    method SetPatente(p: string)
      modifies this`patente
      ensures patente == p
    {
      patente := p;
    }

    /** The trilha select: `handleChange('trilha', ...)` and the selection is emptied. */
    method ChangeTrilha(t: string)
      modifies this`trilha, this`selecionadas
      ensures trilha == t && selecionadas == []
    {
      trilha := t;
      selecionadas := [];
    }

    /** The effect that follows every change of trilha or attributes: `defesa` and
        `deslocamento` of the form follow Agility, and no other entry changes. */
    method RecomputeCombatStats()
      modifies this`fields
      ensures fields == old(fields)["defesa" := Num(Defesa(atributos.agi))]
                                   ["deslocamento" := Num(Deslocamento(atributos.agi))]
    {
      fields := fields["defesa" := Num(Defesa(atributos.agi))]["deslocamento" := Num(Deslocamento(atributos.agi))];
    }

    /** `handleAtributoChange(attr, value)`; `value` is `None` when the input is not a number.
        The change applies only if the value is in 1..5 and the points cover it. */
    method HandleAtributoChange(attr: Attr, value: Option<int>)
      requires Valid()
      modifies this`atributos, this`pontos
      ensures Valid()
      ensures var v := IntOr(value, 1);
              var difference := v - old(atributos).Get(attr);
              if old(pontos) - difference >= 0 && 1 <= v <= 5 then
                atributos == old(atributos).Set(attr, v) && pontos == old(pontos) - difference
              else
                atributos == old(atributos) && pontos == old(pontos)
    {
      var numValue := IntOr(value, 1);
      var difference := numValue - atributos.Get(attr);
      if pontos - difference >= 0 && numValue >= 1 && numValue <= 5 {
        TotalAfterSet(atributos, attr, numValue);
        atributos := atributos.Set(attr, numValue);
        pontos := pontos - difference;
      }
    }

    /** `togglePericia(periciaNome)`. */
    method TogglePericia(nome: string)
      modifies this`selecionadas
      ensures var isOrigem := Str(nome) in OrigemPericias(SelectedOrigem());
              if trilha == "Ocultista" && (nome == "Ocultismo" || nome == "Vontade") then
                selecionadas == old(selecionadas)
              else if isOrigem && nome !in old(selecionadas) then
                selecionadas == old(selecionadas)
              else if nome in old(selecionadas) then
                selecionadas == FilterOut(old(selecionadas), {nome})
              else if |old(selecionadas)| < MaxPericias() then
                selecionadas == old(selecionadas) + [nome]
              else
                selecionadas == old(selecionadas)
      ensures |selecionadas| > |old(selecionadas)| ==> |selecionadas| <= MaxPericias()
      ensures nome in old(selecionadas) && !(trilha == "Ocultista" && (nome == "Ocultismo" || nome == "Vontade"))
              ==> nome !in selecionadas
    {
      if trilha == "Ocultista" && (nome == "Ocultismo" || nome == "Vontade") {
        return;
      }
      var isOrigem := Str(nome) in OrigemPericias(SelectedOrigem());
      if isOrigem && nome !in selecionadas {
        return;
      }
      var maxPericias := MaxPericias();
      if nome in selecionadas {
        selecionadas := FilterOut(selecionadas, {nome});
      } else if |selecionadas| < maxPericias {
        selecionadas := selecionadas + [nome];
      }
    }

    /** A Combatente radio button: the other member of its pair `a`/`b` is dropped, `per` appended. */
    method SelectRadio(a: string, b: string, per: string)
      modifies this`selecionadas
      ensures selecionadas == FilterOut(old(selecionadas), {a, b}) + [per]
    {
      selecionadas := FilterOut(selecionadas, {a, b}) + [per];
    }

    /** `handleSubmit`: refused (`None`) while points remain; otherwise the character record sent
        to the store, `{...formData, origem, poderesOrigem, pericias, ...}`. */
    method HandleSubmit() returns (c: Option<Record>)
      requires Valid()
      ensures c.None? <==> pontos > 0
      ensures c.Some? ==> SubmittedStats(c.value, PoolMaxima(trilha, atributos.vig, atributos.pre), atributos.agi, patente)
      ensures c.Some? ==>
        && Get(c.value, "trilha") == Str(trilha) && Get(c.value, "atributos") == atributos.ToValue()
        && Get(c.value, "patente") == Str(patente)
      ensures c.Some? ==>
        SubmittedSkills(c.value, SelectedOrigem(),
                        SubmittedSkillKeys(trilha, OrigemPericias(SelectedOrigem()), selecionadas), selecionadas)
      ensures c.Some? ==> forall k :: k in fields && k !in SubmittedKeys ==> Get(c.value, k) == fields[k]
    {
      if pontos > 0 {
        return None;
      }
      var origemSelecionada := SelectedOrigem();
      var periciasObj := BuildPericias(trilha, OrigemPericias(origemSelecionada), selecionadas);
      var form := FormEntries(origem, trilha, patente, atributos);
      var skills := SkillEntries(origemSelecionada, periciasObj, selecionadas);
      var stats := StatEntries(PoolMaxima(trilha, atributos.vig, atributos.pre), atributos.agi, patente);
      var m := PoolMaxima(trilha, atributos.vig, atributos.pre);
      c := Some(Submitted(fields, form, skills, stats));
      assert SubmittedStats(c.value, m, atributos.agi, patente) by {
        SkillAndStatKeysDisjoint();
        SubmittedEntries(fields, form, skills, stats);
        SubmittedStatsCarried(c.value, stats, m, atributos.agi, patente);
      }
      assert SubmittedSkills(c.value, origemSelecionada, periciasObj.Keys, selecionadas) by {
        SkillAndStatKeysDisjoint();
        SubmittedEntries(fields, form, skills, stats);
        SubmittedSkillsCarried(c.value, skills, origemSelecionada, periciasObj, selecionadas);
      }
      assert forall k :: k in fields && k !in SubmittedKeys ==> Get(c.value, k) == fields[k] by {
        SkillAndStatKeysDisjoint();
        SubmittedEntries(fields, form, skills, stats);
      }
      assert Get(c.value, "trilha") == Str(trilha) && Get(c.value, "atributos") == atributos.ToValue()
          && Get(c.value, "patente") == Str(patente) by {
        SkillAndStatKeysDisjoint();
        SubmittedEntries(fields, form, skills, stats);
      }
    }
  }

  const FormKeys: set<string> := {"origem", "trilha", "patente", "atributos"}
  const SkillKeys: set<string> := {"origem", "poderesOrigem", "pericias", "periciasTrainadas"}
  const StatKeys: set<string> := {
    "pvMax", "pvAtual", "sanMax", "sanAtual", "peMax", "peAtual",
    "defesa", "deslocamento", "prestigio", "espacoUsado", "espacoTotal"}

  /** The stat entries of a submitted character: each pool starts full, defence and movement
      follow Agility, prestige and used space are 0, and the space follows the patente. */
  predicate SubmittedStats(c: Record, m: Maxima, agi: int, patente: string) {
    && Get(c, "pvMax") == Num(m.pvMax) && Get(c, "pvAtual") == Num(m.pvMax)
    && Get(c, "sanMax") == Num(m.sanMax) && Get(c, "sanAtual") == Num(m.sanMax)
    && Get(c, "peMax") == Num(m.peMax) && Get(c, "peAtual") == Num(m.peMax)
    && Get(c, "defesa") == Num(Defesa(agi)) && Get(c, "deslocamento") == Num(Deslocamento(agi))
    && Get(c, "prestigio") == Num(0) && Get(c, "espacoUsado") == Num(0)
    && Get(c, "espacoTotal") == Num(EspacoTotal(patente))
  }

  /** The origin and skill entries of a submitted character: the origin object (or `undefined`),
      its powers or `[]`, a `pericias` object with exactly `keys`, each `treinado`, and the
      selection as an array. */
  predicate SubmittedSkills(c: Record, origem: Option<Record>, keys: set<string>, selecionadas: seq<string>) {
    && Get(c, "origem") == (if origem.Some? then Obj(origem.value) else Undefined)
    && Get(c, "poderesOrigem") == Or(if origem.Some? then Get(origem.value, "poderes") else Undefined, Arr([]))
    && Get(c, "periciasTrainadas") == StrList(selecionadas)
    && Get(c, "pericias").Obj?
    && Get(c, "pericias").fields.Keys == keys
    && forall k :: k in Get(c, "pericias").fields ==> Get(c, "pericias").fields[k] == Str("treinado")
  }

  lemma SubmittedStatsCarried(c: Record, stats: Record, m: Maxima, agi: int, patente: string)
    requires stats == StatEntries(m, agi, patente)
    requires forall k :: k in stats ==> Get(c, k) == stats[k]
    ensures SubmittedStats(c, m, agi, patente)
  {
  }

  lemma SubmittedSkillsCarried(c: Record, skills: Record, origem: Option<Record>, pericias: map<string, string>, selecionadas: seq<string>)
    requires forall k :: k in pericias ==> pericias[k] == "treinado"
    requires skills == SkillEntries(origem, pericias, selecionadas)
    requires forall k :: k in skills ==> Get(c, k) == skills[k]
    ensures SubmittedSkills(c, origem, pericias.Keys, selecionadas)
  {
  }

  /** `{...formData, origem, poderesOrigem, pericias, ..., espacoTotal}`. */
  function Submitted(fields: Record, form: Record, skills: Record, stats: Record): Record {
    Spread(Spread(fields, form), Spread(skills, stats))
  }

  lemma SkillAndStatKeysDisjoint()
    ensures SkillKeys !! StatKeys
    ensures forall k :: k in FormKeys - SkillKeys ==> k !in StatKeys
    ensures "trilha" !in SkillKeys + StatKeys && "atributos" !in SkillKeys + StatKeys
    ensures "patente" !in SkillKeys + StatKeys
  {
  }

  /** Where each entry of the submitted record comes from: the skill and stat entries written
      last, then the typed form entries, then the remaining free entries of the form. */
  lemma SubmittedEntries(fields: Record, form: Record, skills: Record, stats: Record)
    requires skills.Keys !! stats.Keys
    ensures forall k :: k in skills ==> Get(Submitted(fields, form, skills, stats), k) == skills[k]
    ensures forall k :: k in stats ==> Get(Submitted(fields, form, skills, stats), k) == stats[k]
    ensures forall k :: k in form && k !in skills && k !in stats ==> Get(Submitted(fields, form, skills, stats), k) == form[k]
    ensures forall k :: k in fields && k !in form && k !in skills && k !in stats ==>
              Get(Submitted(fields, form, skills, stats), k) == fields[k]
  {
  }

  /** The typed entries of `formData`, as `...formData` spreads them. */
  function FormEntries(origem: string, trilha: string, patente: string, atributos: Atributos): (r: Record)
    ensures r.Keys == FormKeys
    ensures r["trilha"] == Str(trilha) && r["atributos"] == atributos.ToValue() && r["patente"] == Str(patente)
  {
    map["origem" := Str(origem), "trilha" := Str(trilha), "patente" := Str(patente),
        "atributos" := atributos.ToValue()]
  }

  /** A list of names as the JavaScript array of strings it is. */
  function StrList(names: seq<string>): (v: Value)
    ensures v.Arr? && |v.items| == |names|
    ensures forall i :: 0 <= i < |names| ==> v.items[i] == Str(names[i])
  {
    Arr(seq(|names|, i requires 0 <= i < |names| => Str(names[i])))
  }

  /** The origin and skill entries of the submitted character: the origin object itself (or
      `undefined`), its powers or `[]`, the `pericias` object and the selection as an array. */
  function SkillEntries(origem: Option<Record>, pericias: map<string, string>, selecionadas: seq<string>): (r: Record)
    ensures r.Keys == SkillKeys
    ensures r["origem"] == (if origem.Some? then Obj(origem.value) else Undefined)
    ensures r["pericias"].Obj? && r["pericias"].fields.Keys == pericias.Keys
    ensures forall k :: k in pericias ==> r["pericias"].fields[k] == Str(pericias[k])
    ensures r["poderesOrigem"] == Or(if origem.Some? then Get(origem.value, "poderes") else Undefined, Arr([]))
    ensures r["periciasTrainadas"] == StrList(selecionadas)
  {
    var poderes := if origem.Some? then Get(origem.value, "poderes") else Undefined;
    map[
      "origem" := (if origem.Some? then Obj(origem.value) else Undefined),
      "poderesOrigem" := Or(poderes, Arr([])),
      "pericias" := Obj(map k | k in pericias :: Str(pericias[k])),
      "periciasTrainadas" := StrList(selecionadas)]
  }

  /** The pools, each starting full, defence, movement, and the empty inventory sized by patente. */
  function StatEntries(m: Maxima, agi: int, patente: string): (r: Record)
    ensures r.Keys == StatKeys
    ensures r["pvMax"] == Num(m.pvMax) && r["pvAtual"] == Num(m.pvMax)
    ensures r["sanMax"] == Num(m.sanMax) && r["sanAtual"] == Num(m.sanMax)
    ensures r["peMax"] == Num(m.peMax) && r["peAtual"] == Num(m.peMax)
    ensures r["defesa"] == Num(Defesa(agi)) && r["deslocamento"] == Num(Deslocamento(agi))
    ensures r["prestigio"] == Num(0) && r["espacoUsado"] == Num(0)
    ensures r["espacoTotal"] == Num(EspacoTotal(patente))
  {
    map[
      "pvMax" := Num(m.pvMax), "pvAtual" := Num(m.pvMax),
      "sanMax" := Num(m.sanMax), "sanAtual" := Num(m.sanMax),
      "peMax" := Num(m.peMax), "peAtual" := Num(m.peMax),
      "defesa" := Num(Defesa(agi)), "deslocamento" := Num(Deslocamento(agi)),
      "prestigio" := Num(0), "espacoUsado" := Num(0), "espacoTotal" := Num(EspacoTotal(patente))]
  }

  /** Every key `handleSubmit` writes over the spread of `formData`. */
  const SubmittedKeys: set<string> := FormKeys + SkillKeys + StatKeys
}
