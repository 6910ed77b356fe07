/** The game master's character editor of client/src/pages/AdminCharacters.jsx: the loaded list
    of characters, the character being edited, and the edits applied to it. Characters are the
    stored records as they come back from the store, so every field is a `Js.Value`. */
module AdminCharacters {
  import opened Text
  import opened Js
  import opened Rules
  import opened Seqs

  /** The trilha as the table compares it: `x === 'Combatente'` holds only for that string, so a
      value that is not a string takes the fallback row. */
  function TrilhaName(trilha: Value): string {
    if trilha.Str? then trilha.s else ""
  }

  datatype PoolValues = PoolValues(pvMax: Value, peMax: Value, sanMax: Value)

  /** The trilha table as the editor evaluates it: the constant of the row, then `+` the stored
      attribute value, whatever that value is. */
  function EditorMaxima(trilha: Value, vig: Value, pre: Value): (p: PoolValues)
    ensures vig.Num? && pre.Num? ==>
      var m := PoolMaxima(TrilhaName(trilha), vig.n, pre.n);
      p == PoolValues(Num(m.pvMax), Num(m.peMax), Num(m.sanMax))
  {
    var base := PoolMaxima(TrilhaName(trilha), 0, 0);
    PoolValues(Plus(Num(base.pvMax), vig), Plus(Num(base.peMax), pre), Num(base.sanMax))
  }

  /** A missing attribute is not a number: the maxima become `NaN` unless `|| 0` supplies one. */
  lemma MissingVigorGivesNaN(trilha: Value, pre: Value)
    ensures EditorMaxima(trilha, Undefined, pre).pvMax == NaN
    ensures EditorMaxima(trilha, Or(Undefined, Num(0)), Num(0)) == EditorMaxima(Str("Especialista"), Num(0), Num(0))
         || TrilhaName(trilha) == "Combatente" || TrilhaName(trilha) == "Ocultista"
  {
  }

  /** `value === 'Combatente'` is the only way into the Combatente row. */
  lemma TrilhaNameIsStrictEquality(trilha: Value, name: string)
    ensures TrilhaName(trilha) == name && name != "" <==> StrictEquals(trilha, Str(name)) && name != ""
  {
  }

  /** `Math.max(1, Math.min(5, n))`. */
  function ClampAttribute(n: int): (r: int)
    ensures 1 <= r <= 5
    ensures 1 <= n <= 5 ==> r == n
    ensures n < 1 ==> r == 1
    ensures n > 5 ==> r == 5
  {
    if n < 1 then 1 else if n > 5 then 5 else n
  }

  /** `characters.map(c => c.id === updated.id ? updated : c)`. */
  function ReplaceById(list: seq<Record>, updated: Record): (r: seq<Record>)
    ensures |r| == |list|
    ensures forall i :: 0 <= i < |list| ==>
      r[i] == (if StrictEquals(Get(list[i], "id"), Get(updated, "id")) then updated else list[i])
  {
    seq(|list|, i requires 0 <= i < |list| =>
      if StrictEquals(Get(list[i], "id"), Get(updated, "id")) then updated else list[i])
  }

  predicate UniqueIds(list: seq<Record>) {
    forall i, j :: 0 <= i < j < |list| ==> !StrictEquals(Get(list[i], "id"), Get(list[j], "id"))
  }

  /** With unique ids, saving one character is a point update of the list at its position. */
  lemma ReplaceByIdIsPointUpdate(list: seq<Record>, updated: Record, k: nat)
    requires UniqueIds(list)
    requires k < |list| && StrictEquals(Get(list[k], "id"), Get(updated, "id"))
    ensures ReplaceById(list, updated) == list[k := updated]
  {
  }

  /** A save whose id is not in the list changes nothing. */
  lemma ReplaceUnknownIdIsIdentity(list: seq<Record>, updated: Record)
    requires forall i :: 0 <= i < |list| ==> !StrictEquals(Get(list[i], "id"), Get(updated, "id"))
    ensures ReplaceById(list, updated) == list
  {
  }

  /** `characters.filter(c => c.id !== id)`. */
  function RemoveById(list: seq<Record>, id: Value): (r: seq<Record>)
    ensures |r| <= |list|
  {
    Filter(list, (c: Record) => !StrictEquals(Get(c, "id"), id))
  }

  /** Exactly the records with another id survive a deletion, in their original order. */
  lemma RemoveByIdKeepsOthersInOrder(a: seq<Record>, b: seq<Record>, id: Value)
    ensures forall c :: c in RemoveById(a, id) <==> c in a && !StrictEquals(Get(c, "id"), id)
    ensures RemoveById(a + b, id) == RemoveById(a, id) + RemoveById(b, id)
  {
    FilterMembers(a, (c: Record) => !StrictEquals(Get(c, "id"), id));
    FilterDistributes(a, b, (c: Record) => !StrictEquals(Get(c, "id"), id));
  }

  /** A deletion shortens the list exactly when some record has the id. */
  lemma RemoveByIdShortensIffPresent(list: seq<Record>, id: Value)
    ensures |RemoveById(list, id)| == |list| <==> forall i :: 0 <= i < |list| ==> !StrictEquals(Get(list[i], "id"), id)
  {
    var keep := (c: Record) => !StrictEquals(Get(c, "id"), id);
    if |RemoveById(list, id)| == |list| {
      FilterSameLengthKeepsAll(list, keep);
    } else if forall i :: 0 <= i < |list| ==> !StrictEquals(Get(list[i], "id"), id) {
      FilterKeepsAll(list, keep);
    }
  }

  /** `list.filter((_, i) => i !== index)`. */
  function FilterIndex(list: seq<Value>, index: int): (r: seq<Value>)
    decreases |list|
  {
    if list == [] then []
    else (if index == 0 then [] else [list[0]]) + FilterIndex(list[1..], index - 1)
  }

  /** Removing by position drops exactly that element and keeps the others in order. */
  lemma {:induction false} FilterIndexRemovesOne(list: seq<Value>, index: int)
    ensures 0 <= index < |list| ==> FilterIndex(list, index) == list[..index] + list[index + 1..]
    ensures !(0 <= index < |list|) ==> FilterIndex(list, index) == list
    decreases |list|
  {
    if list != [] {
      FilterIndexRemovesOne(list[1..], index - 1);
      if 0 < index < |list| {
        assert list[1..][..index - 1] == list[1..index];
        assert list[1..][index..] == list[index + 1..];
        assert [list[0]] + list[1..index] == list[..index];
      }
    }
  }

  /** `container?.includes(x)`: substring test on strings, membership on arrays, nothing on
      `undefined`/`null`. */
  predicate Includes(container: Value, x: Value)
    requires container.Str? || container.Arr? || container.Undefined? || container.Null?
  {
    if container.Str? then Contains(container.s, ToJsString(x))
    else if container.Arr? then x in container.items
    else false
  }

  predicate IncludesDefined(container: Value) {
    container.Str? || container.Arr? || container.Undefined? || container.Null?
  }

  /** The offer filter's test for one catalogue entry `h`, for a character with `owned` as its
      `habilidadesClasse` and `trilha` as its trilha. */
  predicate Offered(h: Record, owned: Value, trilha: Value)
    requires IncludesDefined(owned) && IncludesDefined(Get(h, "tipo"))
  {
    var tipo := Get(h, "tipo");
    && !Includes(owned, Get(h, "nome"))
    && (|| StrictEquals(tipo, Str("Geral"))
        || StrictEquals(tipo, trilha)
        || Includes(tipo, trilha)
        || StrictEquals(tipo, Str("Poder de " + ToJsString(trilha))))
  }

  /** The abilities offered for adding, in catalogue order. */
  function AbilityOffers(catalog: seq<Record>, owned: Value, trilha: Value): (r: seq<Record>)
    requires IncludesDefined(owned)
    requires forall h :: h in catalog ==> IncludesDefined(Get(h, "tipo"))
    ensures |r| <= |catalog|
    ensures forall h :: h in r <==> h in catalog && Offered(h, owned, trilha)
  {
    if catalog == [] then []
    else
      assert catalog[0] in catalog;
      assert forall h :: h in catalog[1..] ==> h in catalog;
      (if Offered(catalog[0], owned, trilha) then [catalog[0]] else []) + AbilityOffers(catalog[1..], owned, trilha)
  }

  /** No owned ability is offered again, and a general ability not yet owned always is. */
  lemma OffersExcludeOwned(catalog: seq<Record>, owned: Value, trilha: Value, h: Record)
    requires IncludesDefined(owned)
    requires forall x :: x in catalog ==> IncludesDefined(Get(x, "tipo"))
    requires h in catalog
    ensures Includes(owned, Get(h, "nome")) ==> h !in AbilityOffers(catalog, owned, trilha)
    ensures !Includes(owned, Get(h, "nome")) && Get(h, "tipo") == Str("Geral") ==> h in AbilityOffers(catalog, owned, trilha)
  {
  }

  /** For a string trilha, an ability whose tipo mentions it anywhere is offered. */
  lemma OffersByTrilhaSubstring(h: Record, trilha: string)
    requires Get(h, "tipo").Str? && Contains(Get(h, "tipo").s, trilha)
    ensures !Includes(Arr([]), Get(h, "nome")) ==> Offered(h, Arr([]), Str(trilha))
  {
  }

  /** `[...v]`: an array gives its items and a string its characters, each a one-character
      string; any other value is not iterable and the spread throws (`None`). */
  function SpreadItems(v: Value): (r: Option<seq<Value>>)
    ensures r.Some? <==> v.Arr? || v.Str?
    ensures v.Arr? ==> r == Some(v.items)
    ensures v.Str? ==> |r.value| == |v.s| && forall i :: 0 <= i < |v.s| ==> r.value[i] == Str([v.s[i]])
  {
    match v
    case Arr(items) => Some(items)
    case Str(text) => Some(seq(|text|, i requires 0 <= i < |text| => Str([text[i]])))
    case _ => None
  }

  /** A list stored as a string is broken into characters by the add select: adding to `"ab"`
      gives three entries, the two characters and the new ability. */
  lemma AddToStringListSplitsIt()
    ensures SpreadItems(Or(Str("ab"), Arr([]))) == Some([Str("a"), Str("b")])
  {
    var r := SpreadItems(Str("ab")).value;
    assert r[0] == Str(['a']) && r[1] == Str(['b']);
    assert r == [Str("a"), Str("b")];
  }

  class Editor {
    var characters: seq<Record>
    /** `selectedChar`; `None` is `null`. */
    var selected: Option<Record>
    var editMode: bool

    constructor ()
      ensures characters == [] && selected == None && !editMode
    {
      characters := [];
      selected := None;
      editMode := false;
    }

    /** `setCharacters(response.data)` once the list arrives. */
    method LoadCharacters(list: seq<Record>)
      modifies this`characters
      ensures characters == list
    {
      characters := list;
    }

    /** `handleEdit(char)`: a copy of the character becomes the one being edited. */
    method HandleEdit(ch: Record)
      modifies this`selected, this`editMode
      ensures selected == Some(ch) && editMode
    {
      selected := Some(ch);
      editMode := true;
    }

    /** `handleSave()`; `ok` says whether the store accepted the update. */
    method HandleSave(ok: bool)
      requires selected.Some?
      modifies this
      ensures ok ==> (characters == ReplaceById(old(characters), old(selected).value)
                      && selected == None && !editMode)
      ensures !ok ==> characters == old(characters) && selected == old(selected) && editMode == old(editMode)
    {
      if ok {
        characters := ReplaceById(characters, selected.value);
        editMode := false;
        selected := None;
      }
    }

    /** `handleDelete(id, nome)`; `confirmed` is the answer to the confirmation dialog and `ok`
        whether the store accepted the deletion. */
    method HandleDelete(id: Value, confirmed: bool, ok: bool)
      modifies this`characters
      ensures characters == if confirmed && ok then RemoveById(old(characters), id) else old(characters)
    {
      if !confirmed {
        return;
      }
      if ok {
        characters := RemoveById(characters, id);
      }
    }

    /** `updateCharField(field, value)`: the field is set, and a new trilha also recomputes the
        three maxima, with a missing Vigor or Presence counted as 0. */
    method UpdateCharField(field: string, value: Value)
      requires selected.Some?
      modifies this`selected
      ensures selected.Some?
      ensures var s := selected.value; var o := old(selected).value;
        && Get(s, field) == value
        && (field != "trilha" ==> s == o[field := value])
        && (field == "trilha" ==>
              var atrs := Get(o[field := value], "atributos");
              var p := EditorMaxima(value, Or(Field(atrs, "VIG"), Num(0)), Or(Field(atrs, "PRE"), Num(0)));
              s == o[field := value]["pvMax" := p.pvMax]["peMax" := p.peMax]["sanMax" := p.sanMax])
    {
      var updated := selected.value[field := value];
      if field == "trilha" {
        var atrs := Get(updated, "atributos");
        var p := EditorMaxima(value, Or(Field(atrs, "VIG"), Num(0)), Or(Field(atrs, "PRE"), Num(0)));
        updated := updated["pvMax" := p.pvMax];
        updated := updated["peMax" := p.peMax];
        updated := updated["sanMax" := p.sanMax];
      }
      selected := Some(updated);
    }

    /** `updateAtributo(attr, value)`; `input` is `parseInt` of the entered text (`None` for
        `NaN`). The page already applies `|| 1`, after which the handler's own `parseInt(value) || 1`
        gives the same number back. */
    method UpdateAtributo(attr: string, input: Option<int>)
      requires selected.Some?
      modifies this`selected
      ensures selected.Some?
      ensures var o := old(selected).value;
        var v := ClampAttribute(IntOr(input, 1));
        var atrs := OwnFields(Get(o, "atributos"))[attr := Num(v)];
        var p := EditorMaxima(Get(o, "trilha"), Get(atrs, "VIG"), Get(atrs, "PRE"));
        selected.value == o["atributos" := Obj(atrs)]["pvMax" := p.pvMax]["peMax" := p.peMax]
          ["sanMax" := p.sanMax]["defesa" := Plus(Num(10), Get(atrs, "AGI"))]
          ["deslocamento" := Plus(Num(9), Get(atrs, "AGI"))]
    {
      var o := selected.value;
      var numValue := ClampAttribute(IntOr(input, 1));
      var novos := OwnFields(Get(o, "atributos"))[attr := Num(numValue)];
      var p := EditorMaxima(Get(o, "trilha"), Get(novos, "VIG"), Get(novos, "PRE"));
      selected := Some(o["atributos" := Obj(novos)]["pvMax" := p.pvMax]["peMax" := p.peMax]
        ["sanMax" := p.sanMax]["defesa" := Plus(Num(10), Get(novos, "AGI"))]
        ["deslocamento" := Plus(Num(9), Get(novos, "AGI"))]);
    }

    /** The skill-tier select: `''` deletes the skill's key, any other level sets it. */
    method SetSkillLevel(nome: string, level: string)
      requires selected.Some?
      modifies this`selected
      ensures selected.Some?
      ensures var o := old(selected).value;
        var before := OwnFields(Get(o, "pericias"));
        var after := if level == "" then before - {nome} else before[nome := Str(level)];
        selected.value == o["pericias" := Obj(after)]
    {
      var o := selected.value;
      var novas := OwnFields(Get(o, "pericias"));
      if level == "" {
        novas := novas - {nome};
      } else {
        novas := novas[nome := Str(level)];
      }
      selected := Some(o["pericias" := Obj(novas)]);
    }

    /** The remove button of the ability at `index`. */
    method RemoveAbility(index: nat)
      requires selected.Some? && Get(selected.value, "habilidadesClasse").Arr?
      requires index < |Get(selected.value, "habilidadesClasse").items|
      modifies this`selected
      ensures selected.Some?
      ensures var o := old(selected).value; var items := Get(o, "habilidadesClasse").items;
        selected.value == o["habilidadesClasse" := Arr(items[..index] + items[index + 1..])]
    {
      var o := selected.value;
      var items := Get(o, "habilidadesClasse").items;
      FilterIndexRemovesOne(items, index);
      selected := Some(o["habilidadesClasse" := Arr(FilterIndex(items, index))]);
    }

    /** The add select: a non-empty choice is appended to `[...(habilidadesClasse || [])]`. A
        string list is spread into its characters first; a truthy value that is not iterable
        makes the spread throw, and then nothing changes. */
    method AddAbility(nome: string)
      requires selected.Some?
      modifies this`selected
      ensures selected.Some?
      ensures var o := old(selected).value;
        var spread := SpreadItems(Or(Get(o, "habilidadesClasse"), Arr([])));
        selected.value == if nome == "" || spread.None? then o
                          else o["habilidadesClasse" := Arr(spread.value + [Str(nome)])]
      ensures var h := Get(old(selected).value, "habilidadesClasse");
        nome != "" && (h.Arr? || !Truthy(h)) ==>
          var before := if h.Arr? then h.items else [];
          && Get(selected.value, "habilidadesClasse").Arr?
          && Get(selected.value, "habilidadesClasse").items[..|before|] == before
          && Get(selected.value, "habilidadesClasse").items == before + [Str(nome)]
    {
      if nome != "" {
        var o := selected.value;
        var spread := SpreadItems(Or(Get(o, "habilidadesClasse"), Arr([])));
        if spread.Some? {
          selected := Some(o["habilidadesClasse" := Arr(spread.value + [Str(nome)])]);
        }
      }
    }
  }
}
