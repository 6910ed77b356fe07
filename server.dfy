/** The collection routes of server/index.js over its JSON store. `readJSON`/`writeJSON` are not
    defined in that file, so each collection is an in-memory sequence that a route reads and
    writes back as a whole; `Date.now()` ids and ISO timestamps are passed in as strings. */
module Server {
  import opened Text
  import opened Js
  import opened Seqs
  import opened DiceFormula
  import opened DiceEngine

  datatype Response = Response(status: int, body: Value)

  /** `characters.findIndex(c => c.id === id)`, `None` for `-1`. */
  function FindIndexById(list: seq<Record>, id: string): (r: Option<nat>)
    ensures r.Some? ==> r.value < |list| && Get(list[r.value], "id") == Str(id)
    ensures r.Some? ==> forall j :: 0 <= j < r.value ==> Get(list[j], "id") != Str(id)
    ensures r.None? ==> forall j :: 0 <= j < |list| ==> Get(list[j], "id") != Str(id)
  {
    if list == [] then None
    else if Get(list[0], "id") == Str(id) then Some(0)
    else match FindIndexById(list[1..], id)
      case None => None
      case Some(k) => Some(k + 1)
  }

  /** The record a POST stores: a generated id that the body may override, then the body, then
      the two timestamps (each from its own clock reading), which the body cannot override. */
  function NewCharacter(body: Record, generatedId: string, createdAt: string, updatedAt: string): (c: Record)
    ensures c.Keys == body.Keys + {"id", "createdAt", "updatedAt"}
    ensures c["id"] == if "id" in body then body["id"] else Str(generatedId)
    ensures c["createdAt"] == Str(createdAt) && c["updatedAt"] == Str(updatedAt)
    ensures forall k :: k in body && k != "createdAt" && k != "updatedAt" ==> c[k] == body[k]
  {
    Spread(Spread(map["id" := Str(generatedId)], body), map["createdAt" := Str(createdAt), "updatedAt" := Str(updatedAt)])
  }

  /** The record a PUT stores: the old record, overwritten by the body, with the path id and a
      new update time forced last. */
  function Merged(previous: Record, body: Record, id: string, now: string): (c: Record)
    ensures c.Keys == previous.Keys + body.Keys + {"id", "updatedAt"}
    ensures c["id"] == Str(id) && c["updatedAt"] == Str(now)
    ensures forall k :: k in body && k != "id" && k != "updatedAt" ==> c[k] == body[k]
    ensures forall k :: k in previous && k !in body && k != "id" && k != "updatedAt" ==> c[k] == previous[k]
  {
    Spread(Spread(previous, body), map["id" := Str(id), "updatedAt" := Str(now)])
  }

  /** The test of the DELETE route's filter: `c.id !== id`. */
  function KeepOtherId(id: string): Record -> bool {
    (c: Record) => Get(c, "id") != Str(id)
  }

  class CharacterStore {
    /** The contents of `characters.json`. */
    var characters: seq<Record>

    constructor (stored: seq<Record>)
      ensures characters == stored
    {
      characters := stored;
    }

    /** `GET /api/characters/:id`: the first record with that id, or 404. */
    method GetById(id: string) returns (resp: Response)
      ensures var i := FindIndexById(characters, id);
        if i.None? then resp.status == 404 else resp == Response(200, Obj(characters[i.value]))
    {
      var i := FindIndexById(characters, id);
      if i.None? {
        return Response(404, Obj(map["error" := Str("Personagem não encontrado")]));
      }
      resp := Response(200, Obj(characters[i.value]));
    }

    /** `POST /api/characters`: exactly one record appended. */
    method Create(body: Record, generatedId: string, createdAt: string, updatedAt: string) returns (resp: Response)
      modifies this
      ensures characters == old(characters) + [NewCharacter(body, generatedId, createdAt, updatedAt)]
      ensures resp == Response(201, Obj(NewCharacter(body, generatedId, createdAt, updatedAt)))
    {
      var newCharacter := NewCharacter(body, generatedId, createdAt, updatedAt);
      characters := characters + [newCharacter];
      resp := Response(201, Obj(newCharacter));
    }

    /** `PUT /api/characters/:id`: 404 and no write for an unknown id; otherwise the first
        record with the id is merged with the body, and nothing else changes. */
    method Update(id: string, body: Record, now: string) returns (resp: Response)
      modifies this
      ensures var i := FindIndexById(old(characters), id);
        if i.None? then resp.status == 404 && characters == old(characters)
        else
          && characters == old(characters)[i.value := Merged(old(characters)[i.value], body, id, now)]
          && resp == Response(200, Obj(characters[i.value]))
    {
      var index := FindIndexById(characters, id);
      if index.None? {
        return Response(404, Obj(map["error" := Str("Personagem não encontrado")]));
      }
      characters := characters[index.value := Merged(characters[index.value], body, id, now)];
      resp := Response(200, Obj(characters[index.value]));
    }

    /** `DELETE /api/characters/:id`: every record with the id goes; when none did, 404 and no
        write. */
    method Delete(id: string) returns (resp: Response)
      modifies this
      ensures var filtered := Filter(old(characters), KeepOtherId(id));
        if |filtered| == |old(characters)| then resp.status == 404 && characters == old(characters)
        else resp.status == 200 && characters == filtered
    {
      var filtered := Filter(characters, KeepOtherId(id));
      if |characters| == |filtered| {
        return Response(404, Obj(map["error" := Str("Personagem não encontrado")]));
      }
      characters := filtered;
      resp := Response(200, Obj(map["message" := Str("Personagem deletado com sucesso")]));
    }
  }

  /** A merge keeps the list's length, and the records at other positions. */
  lemma UpdateTouchesOnlyItsRecord(list: seq<Record>, id: string, body: Record, now: string)
    requires FindIndexById(list, id).Some?
    ensures var i := FindIndexById(list, id).value;
      var after := list[i := Merged(list[i], body, id, now)];
      && |after| == |list|
      && (forall j :: 0 <= j < |list| && j != i ==> after[j] == list[j])
      && Get(after[i], "id") == Str(id)
  {
  }

  /** DELETE answers 404 exactly when no record has the id; otherwise the survivors are the
      records with other ids, in their original order. */
  lemma DeleteFindsIffPresent(list: seq<Record>, id: string)
    ensures |Filter(list, KeepOtherId(id))| == |list| <==> FindIndexById(list, id).None?
    ensures forall c :: c in Filter(list, KeepOtherId(id)) <==> c in list && Get(c, "id") != Str(id)
  {
    FilterMembers(list, KeepOtherId(id));
    if |Filter(list, KeepOtherId(id))| == |list| {
      FilterSameLengthKeepsAll(list, KeepOtherId(id));
    } else if FindIndexById(list, id).None? {
      FilterKeepsAll(list, KeepOtherId(id));
    }
  }

  /** `req.headers.authorization?.replace('Bearer ', '')`: `undefined` without the header. */
  function BearerToken(authorization: Option<string>): Value {
    if authorization.None? then Undefined else Str(ReplaceFirst(authorization.value, "Bearer ", ""))
  }

  /** `authenticateAdmin`: the request goes on exactly when the token equals `admin.token`. */
  predicate Authorized(authorization: Option<string>, adminToken: Value) {
    StrictEquals(BearerToken(authorization), adminToken)
  }

  /** The header `Bearer <t>` is accepted exactly for the stored token `t`. */
  lemma BearerHeaderAcceptedIffToken(t: string, u: string)
    ensures Authorized(Some("Bearer " + u), Str(t)) <==> u == t
  {
    ReplaceFirstOfPrefix("Bearer ", u);
  }

  /** Without the header the token is `undefined`, which only an `admin.json` with no token
      matches: then every request is let through. */
  lemma MissingHeader(adminToken: Value)
    ensures Authorized(None, adminToken) <==> adminToken == Undefined
  {
  }

  /** The prefix is optional: a header holding just the token is accepted too. */
  lemma RawTokenAccepted(t: string)
    requires forall j :: 0 <= j <= |t| ==> !("Bearer " <= t[j..])
    ensures Authorized(Some(t), Str(t))
  {
  }

  /** The largest array index; a larger `index` names a plain property. */
  const MaxArrayIndex := 0xFFFF_FFFE

  /** `items[index] = body`, as `JSON.stringify` then writes the array: an index inside the array
      replaces that element, one past the end or further appends with `null` in the gap, and a
      `NaN`, negative or too large index sets a property the file does not keep. */
  function StoreAt(items: seq<Value>, index: Option<int>, body: Value): (r: seq<Value>)
    ensures index.Some? && 0 <= index.value < |items| && index.value <= MaxArrayIndex ==> r == items[index.value := body]
    ensures index.None? || index.value < 0 || index.value > MaxArrayIndex ==> r == items
    ensures index.Some? && |items| <= index.value <= MaxArrayIndex ==>
      && |r| == index.value + 1 && r[..|items|] == items && r[index.value] == body
      && forall j :: |items| <= j < index.value ==> r[j] == Null
  {
    if index.None? || index.value < 0 || index.value > MaxArrayIndex then items
    else if index.value < |items| then items[index.value := body]
    else items + seq(index.value - |items|, _ => Null) + [body]
  }

  /** The start `splice(index, 1)` uses: `NaN` is 0, a negative index counts from the end (but
      not before 0), and a large one stops at the end. */
  function SpliceStart(length: nat, index: Option<int>): (start: nat)
    ensures start <= length
    ensures index.None? ==> start == 0
    ensures index.Some? && 0 <= index.value <= length ==> start == index.value
    ensures index.Some? && -(length as int) <= index.value < 0 ==> start == length + index.value
    ensures index.Some? && index.value < -(length as int) ==> start == 0
  {
    if index.None? then 0
    else if index.value < 0 then (if length + index.value < 0 then 0 else length + index.value)
    else if index.value > length then length
    else index.value
  }

  /** `items.splice(index, 1)`: at most one element leaves, the others keep their order. */
  function SpliceOne(items: seq<Value>, index: Option<int>): (r: seq<Value>)
    ensures var s := SpliceStart(|items|, index);
      if s < |items| then r == items[..s] + items[s + 1..] else r == items
  {
    var s := SpliceStart(|items|, index);
    if s < |items| then items[..s] + items[s + 1..] else items
  }

  /** Deleting an existing index removes exactly that element: one less, the earlier elements
      unchanged, the later ones moved down by one. */
  lemma SpliceRemovesExactlyOne(items: seq<Value>, i: nat)
    requires i < |items|
    ensures |SpliceOne(items, Some(i))| == |items| - 1
    ensures forall j :: 0 <= j < i ==> SpliceOne(items, Some(i))[j] == items[j]
    ensures forall j :: i <= j < |items| - 1 ==> SpliceOne(items, Some(i))[j] == items[j + 1]
  {
  }

  lemma SpliceExamples(items: seq<Value>)
    requires |items| >= 2
    ensures SpliceOne(items, Some(-1)) == items[..|items| - 1]
    ensures SpliceOne(items, None) == items[1..]
    ensures SpliceOne(items, Some(|items|)) == items
  {
    assert items[..0] == [];
  }

  /** Storing inside the array keeps its length and every other element. */
  lemma StoreAtReplacesOnlyIndex(items: seq<Value>, i: nat, body: Value)
    requires i < |items|
    ensures |StoreAt(items, Some(i), body)| == |items|
    ensures forall j :: 0 <= j < |items| && j != i ==> StoreAt(items, Some(i), body)[j] == items[j]
  {
  }

  /** One of the admin collections (`habilidades`, `armas`, `rituais`, `equipamentos`): the
      four route triples are the same code over different files. */
  class AdminCollection {
    var items: seq<Value>
    /** The message of a successful DELETE, which names the kind of item. */
    const removedMessage: string

    constructor (stored: seq<Value>, removedMessage: string)
      ensures items == stored && this.removedMessage == removedMessage
    {
      items := stored;
      this.removedMessage := removedMessage;
    }

    /** `POST /api/admin/<collection>`: the body appended, 403 without the admin token. */
    method Add(authorization: Option<string>, adminToken: Value, body: Value) returns (resp: Response)
      modifies this
      ensures Authorized(authorization, adminToken) ==> items == old(items) + [body] && resp == Response(201, body)
      ensures !Authorized(authorization, adminToken) ==> items == old(items) && resp.status == 403
    {
      if !Authorized(authorization, adminToken) {
        return Response(403, Obj(map["error" := Str("Acesso negado")]));
      }
      items := items + [body];
      resp := Response(201, body);
    }

    /** `PUT /api/admin/<collection>/:index`; `index` is `parseInt` of the path (`None` for `NaN`). */
    method Replace(authorization: Option<string>, adminToken: Value, index: Option<int>, body: Value)
      returns (resp: Response)
      modifies this
      ensures Authorized(authorization, adminToken) ==> items == StoreAt(old(items), index, body) && resp == Response(200, body)
      ensures !Authorized(authorization, adminToken) ==> items == old(items) && resp.status == 403
    {
      if !Authorized(authorization, adminToken) {
        return Response(403, Obj(map["error" := Str("Acesso negado")]));
      }
      items := StoreAt(items, index, body);
      resp := Response(200, body);
    }

    /** `DELETE /api/admin/<collection>/:index`: 200 even when nothing was removed. */
    method Remove(authorization: Option<string>, adminToken: Value, index: Option<int>) returns (resp: Response)
      modifies this
      ensures Authorized(authorization, adminToken) ==>
        items == SpliceOne(old(items), index) && resp == Response(200, Obj(map["message" := Str(removedMessage)]))
      ensures !Authorized(authorization, adminToken) ==> items == old(items) && resp.status == 403
    {
      if !Authorized(authorization, adminToken) {
        return Response(403, Obj(map["error" := Str("Acesso negado")]));
      }
      items := SpliceOne(items, index);
      resp := Response(200, Obj(map["message" := Str(removedMessage)]));
    }
  }

  datatype RollResult =
    | BadRequest
    | Rolled(rolls: seq<int>, modifier: int, total: int, formula: string)

  /** `POST /api/roll`, the same handler in server/index.js and api/index.js. A field is `None`
      when the body lacks it; `modifier` defaults to 0 only then. */
  method RollRoute(quantity: Option<int>, sides: Option<int>, modifier: Option<int>) returns (r: RollResult)
    ensures r.BadRequest? <==> IntOr(quantity, 0) == 0 || IntOr(sides, 0) == 0
    ensures r.Rolled? ==>
      var q := quantity.value; var s := sides.value;
      var m := if modifier.Some? then modifier.value else 0;
      && |r.rolls| == Count(q) && AllFaces(r.rolls, s)
      && r.modifier == m && r.total == Sum(r.rolls) + m
      && r.formula == FormatFormula(q, s, m)
      && (q >= 1 && s >= 1 ==> ParseDiceFormula(r.formula) == Some(Parsed(q, s, m)))
  {
    if IntOr(quantity, 0) == 0 || IntOr(sides, 0) == 0 {
      return BadRequest;
    }
    var m := if modifier.Some? then modifier.value else 0;
    var q, s := quantity.value, sides.value;
    var rolls := RollDice(q, s);
    if q >= 1 && s >= 1 {
      FormatRoundTrip(q, s, m);
    }
    r := Rolled(rolls, m, Sum(rolls) + m, FormatFormula(q, s, m));
  }
}
