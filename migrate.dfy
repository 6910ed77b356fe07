/** The record mappers of migrate-data.js, which reshape the JSON files before they are inserted
    into the database: effect names for the insanity table, the flattened difficulty tests, and
    the snake_case character rows with their `||` defaults. Reading the files and the inserts
    themselves are left out. */
module Migrate {
  import opened Text
  import opened Js

  // ---------------------------------------------------------------- insanity effects

  /** One entry of `insanidadeFormatted`, for the item at position `index`. */
  function InsanidadeEntry(item: Record, index: nat): (e: Record)
    ensures e.Keys == {"nome", "tipo", "descricao"}
    ensures e["tipo"] == Str("Paranormal")
    ensures e["nome"].Str? && |e["nome"].s| >= 7 && e["nome"].s[..7] == "Efeito "
    ensures Truthy(e["descricao"]) || e["descricao"] == Str("")
  {
    map[
      "nome" := Str("Efeito " + ToJsString(Or(Get(item, "id"), Num(index + 1)))),
      "tipo" := Str("Paranormal"),
      "descricao" := Or(Or(Get(item, "efeito"), Get(item, "descricao")), Str(""))]
  }

  /** `insanidade.map((item, index) => …)`: one entry per item, in order. */
  function Insanidade(items: seq<Record>): (r: seq<Record>)
    ensures |r| == |items|
    ensures forall i :: 0 <= i < |items| ==> r[i] == InsanidadeEntry(items[i], i)
  {
    seq(|items|, i requires 0 <= i < |items| => InsanidadeEntry(items[i], i))
  }

  /** An item without an `id` (or with a falsy one) is named by its 1-based position. */
  lemma UnnumberedEffectNamedByPosition(items: seq<Record>, i: nat)
    requires i < |items| && !Truthy(Get(items[i], "id"))
    ensures Insanidade(items)[i]["nome"] == Str("Efeito " + NatToDecimal(i + 1))
  {
  }

  /** A non-zero numeric `id` or a non-empty string `id` names the effect instead. */
  lemma NumberedEffectKeepsId(item: Record, index: nat)
    ensures Get(item, "id").Num? && Get(item, "id").n != 0 ==>
      InsanidadeEntry(item, index)["nome"] == Str("Efeito " + IntToDecimal(Get(item, "id").n))
    ensures Get(item, "id").Str? && Get(item, "id").s != "" ==>
      InsanidadeEntry(item, index)["nome"] == Str("Efeito " + Get(item, "id").s)
  {
  }

  /** The description is `efeito` when that is set, otherwise `descricao`, otherwise empty. */
  lemma EffectTextPreferred(item: Record, index: nat)
    ensures Truthy(Get(item, "efeito")) ==> InsanidadeEntry(item, index)["descricao"] == Get(item, "efeito")
    ensures !Truthy(Get(item, "efeito")) && Truthy(Get(item, "descricao")) ==>
      InsanidadeEntry(item, index)["descricao"] == Get(item, "descricao")
    ensures !Truthy(Get(item, "efeito")) && !Truthy(Get(item, "descricao")) ==>
      InsanidadeEntry(item, index)["descricao"] == Str("")
  {
  }

  /** When no item carries an id, the position numbers give every entry its own name. */
  lemma UnnumberedEffectsHaveDistinctNames(items: seq<Record>, i: nat, j: nat)
    requires i < |items| && j < |items| && i != j
    requires !Truthy(Get(items[i], "id")) && !Truthy(Get(items[j], "id"))
    ensures Insanidade(items)[i]["nome"] != Insanidade(items)[j]["nome"]
  {
    UnnumberedEffectNamedByPosition(items, i);
    UnnumberedEffectNamedByPosition(items, j);
    if NatToDecimal(i + 1) == NatToDecimal(j + 1) {
      DecimalRoundTrip(i + 1);
      DecimalRoundTrip(j + 1);
    }
    var prefix := "Efeito ";
    assert (prefix + NatToDecimal(i + 1))[7..] == NatToDecimal(i + 1);
    assert (prefix + NatToDecimal(j + 1))[7..] == NatToDecimal(j + 1);
  }

  // ---------------------------------------------------------------- difficulties

  /** `dificuldadesData.testes` is read only from a value that has properties, and mapped only
      when it is an array of values that have properties. */
  predicate DificuldadesDefined(data: Value) {
    && !data.Undefined? && !data.Null?
    && (Truthy(Field(data, "testes")) ==>
          && Field(data, "testes").Arr?
          && forall i :: 0 <= i < |Field(data, "testes").items| ==>
               !Field(data, "testes").items[i].Undefined? && !Field(data, "testes").items[i].Null?)
  }

  /** One test, renamed to the columns of the table. */
  function DificuldadeEntry(teste: Value): (e: Record)
    requires !teste.Undefined? && !teste.Null?
    ensures e.Keys == {"nome", "dt", "descricao"}
    ensures teste.Obj? ==>
      && e["nome"] == Get(teste.fields, "tipo")
      && e["dt"] == Get(teste.fields, "DT")
      && e["descricao"] == Get(teste.fields, "descricao")
    ensures !teste.Obj? ==> e["nome"] == Undefined && e["dt"] == Undefined && e["descricao"] == Undefined
  {
    map["nome" := Field(teste, "tipo"), "dt" := Field(teste, "DT"), "descricao" := Field(teste, "descricao")]
  }

  /** `dificuldades`: the tests flattened to one row each, or the file as it is. */
  function Dificuldades(data: Value): (r: Value)
    requires DificuldadesDefined(data)
    ensures Truthy(Field(data, "testes")) ==>
      && r.Arr? && |r.items| == |Field(data, "testes").items|
      && forall i :: 0 <= i < |r.items| ==> r.items[i] == Obj(DificuldadeEntry(Field(data, "testes").items[i]))
    ensures !Truthy(Field(data, "testes")) ==> r == data
  {
    var testes := Field(data, "testes");
    if Truthy(testes) then
      Arr(seq(|testes.items|, i requires 0 <= i < |testes.items| => Obj(DificuldadeEntry(testes.items[i]))))
    else data
  }

  /** A file that is already a flat array, or an object whose `testes` is falsy (such as `''`),
      is unchanged; an empty array of tests is truthy and gives no rows. */
  lemma FlatDificuldadesPassThrough(rows: seq<Value>, other: Record)
    ensures Dificuldades(Arr(rows)) == Arr(rows)
    ensures Dificuldades(Obj(other["testes" := Str("")])) == Obj(other["testes" := Str("")])
    ensures Dificuldades(Obj(other["testes" := Arr([])])) == Arr([])
  {
  }

  // ---------------------------------------------------------------- characters

  /** One element of `charactersFormatted`: the row the insert sends, one field per column. */
  datatype Row = Row(
    nome: Value, jogador: Value, origem: Value, trilha: Value, classe: Value,
    patente: Value, nex: Value, atributos: Value, pericias: Value, pericias_trainadas: Value,
    descricao: Value, historia: Value, idade: Value, aniversario: Value, local: Value, peso: Value,
    deslocamento: Value, defesa: Value, poderes_origem: Value, habilidades_classe: Value,
    inventario: Value, rituais_conhecidos: Value, anotacoes: Value,
    pv_max: Value, pv_atual: Value, san_max: Value, san_atual: Value, pe_max: Value, pe_atual: Value,
    prestigio: Value, espaco_usado: Value, espaco_total: Value)

  /** `char.<camel> || char.<snake>`: the camelCase field first. */
  function Renamed(c: Record, camel: string, snake: string): Value {
    Or(Get(c, camel), Get(c, snake))
  }

  /** The row for one stored character. */
  function CharacterRow(c: Record): Row {
    Row(
      Get(c, "nome"), Get(c, "jogador"), Get(c, "origem"), Get(c, "trilha"), Get(c, "classe"),
      Or(Get(c, "patente"), Str("Recruta")), Or(Get(c, "nex"), Num(5)), Get(c, "atributos"),
      Or(Get(c, "pericias"), Obj(map[])),
      Or(Renamed(c, "periciasTrainadas", "pericias_trainadas"), Arr([])),
      Get(c, "descricao"), Get(c, "historia"), Get(c, "idade"), Get(c, "aniversario"),
      Get(c, "local"), Get(c, "peso"),
      Or(Get(c, "deslocamento"), Num(9)), Or(Get(c, "defesa"), Num(10)),
      Or(Renamed(c, "poderesOrigem", "poderes_origem"), Arr([])),
      Or(Renamed(c, "habilidadesClasse", "habilidades_classe"), Arr([])),
      Or(Get(c, "inventario"), Arr([])),
      Or(Renamed(c, "rituaisConhecidos", "rituais_conhecidos"), Arr([])),
      Get(c, "anotacoes"),
      Renamed(c, "pvMax", "pv_max"), Renamed(c, "pvAtual", "pv_atual"),
      Renamed(c, "sanMax", "san_max"), Renamed(c, "sanAtual", "san_atual"),
      Renamed(c, "peMax", "pe_max"), Renamed(c, "peAtual", "pe_atual"),
      Or(Get(c, "prestigio"), Num(0)),
      Or(Renamed(c, "espacoUsado", "espaco_usado"), Num(0)),
      Or(Renamed(c, "espacoTotal", "espaco_total"), Num(10)))
  }

  /** `charactersFormatted`, which is built only when there is a character: one row per
      character, in order. */
  function CharactersFormatted(chars: seq<Record>): (rows: Option<seq<Row>>)
    ensures rows.None? <==> chars == []
    ensures rows.Some? ==> |rows.value| == |chars|
    ensures rows.Some? ==> forall i :: 0 <= i < |chars| ==> rows.value[i] == CharacterRow(chars[i])
  {
    if chars == [] then None else Some(seq(|chars|, i requires 0 <= i < |chars| => CharacterRow(chars[i])))
  }

  /** Migrating one list after another gives the rows of both, in order. */
  lemma CharactersFormattedAppend(a: seq<Record>, b: seq<Record>)
    requires a != [] && b != []
    ensures CharactersFormatted(a + b) == Some(CharactersFormatted(a).value + CharactersFormatted(b).value)
  {
    var whole := CharactersFormatted(a + b).value;
    var parts := CharactersFormatted(a).value + CharactersFormatted(b).value;
    assert |whole| == |parts|;
    forall i | 0 <= i < |whole|
      ensures whole[i] == parts[i]
    {
      if i < |a| {
        assert (a + b)[i] == a[i];
      } else {
        assert (a + b)[i] == b[i - |a|];
      }
    }
    assert whole == parts;
  }

  /** The value that lands in a defaulted column: the field when it is truthy, else the default. */
  predicate KeepsOrDefaults(v: Value, field: Value, default: Value) {
    (Truthy(field) ==> v == field) && (!Truthy(field) ==> v == default)
  }

  /** The value that lands in a renamed column: the camelCase field when it is truthy, then the
      snake_case field when it is truthy, then the default, or the snake_case field itself for a
      column without one. */
  predicate PrefersCamel(v: Value, c: Record, camel: string, snake: string, default: Option<Value>) {
    && (Truthy(Get(c, camel)) ==> v == Get(c, camel))
    && (!Truthy(Get(c, camel)) && Truthy(Get(c, snake)) ==> v == Get(c, snake))
    && (!Truthy(Get(c, camel)) && !Truthy(Get(c, snake)) ==>
          v == if default.Some? then default.value else Get(c, snake))
  }

  /** The descriptive fields are copied unchanged, whatever they hold, even falsy values. */
  lemma PassThroughFieldsCopied(c: Record)
    ensures var row := CharacterRow(c);
      && row.nome == Get(c, "nome") && row.jogador == Get(c, "jogador")
      && row.origem == Get(c, "origem") && row.trilha == Get(c, "trilha")
      && row.classe == Get(c, "classe") && row.atributos == Get(c, "atributos")
      && row.descricao == Get(c, "descricao") && row.historia == Get(c, "historia")
      && row.idade == Get(c, "idade") && row.aniversario == Get(c, "aniversario")
      && row.local == Get(c, "local") && row.peso == Get(c, "peso")
      && row.anotacoes == Get(c, "anotacoes")
  {
  }

  /** A field that keeps its name is replaced by its default exactly when it is falsy. */
  lemma DefaultsWhenFalsy(c: Record)
    ensures var row := CharacterRow(c);
      && KeepsOrDefaults(row.patente, Get(c, "patente"), Str("Recruta"))
      && KeepsOrDefaults(row.nex, Get(c, "nex"), Num(5))
      && KeepsOrDefaults(row.pericias, Get(c, "pericias"), Obj(map[]))
      && KeepsOrDefaults(row.deslocamento, Get(c, "deslocamento"), Num(9))
      && KeepsOrDefaults(row.defesa, Get(c, "defesa"), Num(10))
      && KeepsOrDefaults(row.inventario, Get(c, "inventario"), Arr([]))
      && KeepsOrDefaults(row.prestigio, Get(c, "prestigio"), Num(0))
  {
  }

  /** Every renamed column reads the camelCase field first, then the snake_case one. */
  lemma CamelCasePreferred(c: Record)
    ensures var row := CharacterRow(c);
      && PrefersCamel(row.pericias_trainadas, c, "periciasTrainadas", "pericias_trainadas", Some(Arr([])))
      && PrefersCamel(row.poderes_origem, c, "poderesOrigem", "poderes_origem", Some(Arr([])))
      && PrefersCamel(row.habilidades_classe, c, "habilidadesClasse", "habilidades_classe", Some(Arr([])))
      && PrefersCamel(row.rituais_conhecidos, c, "rituaisConhecidos", "rituais_conhecidos", Some(Arr([])))
      && PrefersCamel(row.pv_max, c, "pvMax", "pv_max", None)
      && PrefersCamel(row.pv_atual, c, "pvAtual", "pv_atual", None)
      && PrefersCamel(row.san_max, c, "sanMax", "san_max", None)
      && PrefersCamel(row.san_atual, c, "sanAtual", "san_atual", None)
      && PrefersCamel(row.pe_max, c, "peMax", "pe_max", None)
      && PrefersCamel(row.pe_atual, c, "peAtual", "pe_atual", None)
      && PrefersCamel(row.espaco_usado, c, "espacoUsado", "espaco_usado", Some(Num(0)))
      && PrefersCamel(row.espaco_total, c, "espacoTotal", "espaco_total", Some(Num(10)))
  {
  }

  /** A character with none of the fields gets every default, and no value for the pools. */
  lemma EmptyCharacterDefaults()
    ensures var row := CharacterRow(map[]);
      && row.patente == Str("Recruta") && row.nex == Num(5)
      && row.deslocamento == Num(9) && row.defesa == Num(10)
      && row.prestigio == Num(0) && row.espaco_usado == Num(0) && row.espaco_total == Num(10)
      && row.pericias == Obj(map[]) && row.pericias_trainadas == Arr([]) && row.inventario == Arr([])
      && row.pv_max == Undefined && row.san_atual == Undefined && row.nome == Undefined
  {
  }

  /** A stored 0 is falsy: `nex: 0` becomes 5, `pvAtual: 0` falls through to `pv_atual`, and
      `espacoTotal: 0` with no `espaco_total` becomes 10. */
  lemma ZeroCountsAsAbsent(c: Record)
    ensures Get(c, "nex") == Num(0) ==> CharacterRow(c).nex == Num(5)
    ensures Get(c, "pvAtual") == Num(0) ==> CharacterRow(c).pv_atual == Get(c, "pv_atual")
    ensures Get(c, "espacoTotal") == Num(0) && !Truthy(Get(c, "espaco_total")) ==>
      CharacterRow(c).espaco_total == Num(10)
  {
  }

  /** `c` holds `row` under the column names, with no camelCase field set: a migrated row
      read back as a stored character. */
  predicate StoresRow(c: Record, row: Row) {
    && Get(c, "nome") == row.nome && Get(c, "jogador") == row.jogador
    && Get(c, "origem") == row.origem && Get(c, "trilha") == row.trilha
    && Get(c, "classe") == row.classe && Get(c, "patente") == row.patente
    && Get(c, "nex") == row.nex && Get(c, "atributos") == row.atributos
    && Get(c, "pericias") == row.pericias && Get(c, "pericias_trainadas") == row.pericias_trainadas
    && Get(c, "descricao") == row.descricao && Get(c, "historia") == row.historia
    && Get(c, "idade") == row.idade && Get(c, "aniversario") == row.aniversario
    && Get(c, "local") == row.local && Get(c, "peso") == row.peso
    && Get(c, "deslocamento") == row.deslocamento && Get(c, "defesa") == row.defesa
    && Get(c, "poderes_origem") == row.poderes_origem && Get(c, "habilidades_classe") == row.habilidades_classe
    && Get(c, "inventario") == row.inventario && Get(c, "rituais_conhecidos") == row.rituais_conhecidos
    && Get(c, "anotacoes") == row.anotacoes
    && Get(c, "pv_max") == row.pv_max && Get(c, "pv_atual") == row.pv_atual
    && Get(c, "san_max") == row.san_max && Get(c, "san_atual") == row.san_atual
    && Get(c, "pe_max") == row.pe_max && Get(c, "pe_atual") == row.pe_atual
    && Get(c, "prestigio") == row.prestigio && Get(c, "espaco_usado") == row.espaco_usado
    && Get(c, "espaco_total") == row.espaco_total
    && !Truthy(Get(c, "periciasTrainadas")) && !Truthy(Get(c, "poderesOrigem"))
    && !Truthy(Get(c, "habilidadesClasse")) && !Truthy(Get(c, "rituaisConhecidos"))
    && !Truthy(Get(c, "pvMax")) && !Truthy(Get(c, "pvAtual"))
    && !Truthy(Get(c, "sanMax")) && !Truthy(Get(c, "sanAtual"))
    && !Truthy(Get(c, "peMax")) && !Truthy(Get(c, "peAtual"))
    && !Truthy(Get(c, "espacoUsado")) && !Truthy(Get(c, "espacoTotal"))
  }

  /** Migrating a migrated row again changes nothing: every default already stands where the
      field was falsy, and nothing is left under a camelCase name. */
  lemma MigrationIsIdempotent(c: Record, stored: Record)
    requires StoresRow(stored, CharacterRow(c))
    ensures CharacterRow(stored) == CharacterRow(c)
  {
  }
}
