/** The reference browser of client/src/pages/Database.jsx: seven lists loaded from the store,
    one tab per list with its size, and the search filter over names and descriptions. */
module DatabasePage {
  import opened Text
  import opened Js
  import opened Seqs

  /** `field?.toLowerCase()` needs a string (or nothing) there. */
  predicate SearchableField(v: Value) {
    v.Str? || v.Undefined? || v.Null?
  }

  predicate Searchable(item: Record) {
    SearchableField(Get(item, "nome")) && SearchableField(Get(item, "descricao"))
  }

  /** `field?.toLowerCase().includes(term.toLowerCase())`; a missing field gives `undefined`. */
  predicate FieldMatches(v: Value, term: string) {
    v.Str? && Contains(Lower(v.s), Lower(term))
  }

  predicate Matches(item: Record, term: string) {
    FieldMatches(Get(item, "nome"), term) || FieldMatches(Get(item, "descricao"), term)
  }

  /** `filterData(items)` with the current `searchTerm`. */
  function FilterData(items: seq<Record>, searchTerm: string): (r: seq<Record>)
    requires forall i :: 0 <= i < |items| ==> Searchable(items[i])
    ensures |r| <= |items|
    ensures searchTerm == "" ==> r == items
  {
    if searchTerm == "" then items else Filter(items, (item: Record) => Matches(item, searchTerm))
  }

  /** With a term, exactly the items whose name or description contains it (ignoring case)
      survive, and they keep their order. */
  lemma FilterDataSelects(a: seq<Record>, b: seq<Record>, term: string)
    requires term != ""
    requires forall i :: 0 <= i < |a| ==> Searchable(a[i])
    requires forall i :: 0 <= i < |b| ==> Searchable(b[i])
    ensures forall x :: x in FilterData(a, term) <==> x in a && Matches(x, term)
    ensures forall i :: 0 <= i < |a + b| ==> Searchable((a + b)[i])
    ensures FilterData(a + b, term) == FilterData(a, term) + FilterData(b, term)
  {
    var keep := (item: Record) => Matches(item, term);
    FilterMembers(a, keep);
    FilterDistributes(a, b, keep);
  }

  /** Filtering the filtered list again with the same term changes nothing. */
  lemma FilterDataIdempotent(items: seq<Record>, term: string)
    requires forall i :: 0 <= i < |items| ==> Searchable(items[i])
    ensures forall i :: 0 <= i < |FilterData(items, term)| ==> Searchable(FilterData(items, term)[i])
    ensures FilterData(FilterData(items, term), term) == FilterData(items, term)
  {
    if term != "" {
      var keep := (item: Record) => Matches(item, term);
      FilterMembers(items, keep);
      var r := FilterData(items, term);
      forall i | 0 <= i < |r|
        ensures Searchable(r[i])
      {
        var x := r[i];
        assert x in r;
        assert x in Filter(items, keep);
        assert x in items;
      }
      FilterIdempotent(items, keep);
    }
  }

  /** An item whose name and description are both absent or empty matches no non-empty term. */
  lemma NoTextNeverMatches(item: Record, term: string)
    requires term != ""
    requires Get(item, "nome") in {Undefined, Null, Str("")}
    requires Get(item, "descricao") in {Undefined, Null, Str("")}
    ensures !Matches(item, term)
  {
    assert |Lower(term)| > 0;
    assert Lower("") == "";
  }

  /** The search ignores case on both sides. */
  lemma SearchIgnoresCase(item: Record, term: string)
    requires Get(item, "nome") == Str(term)
    ensures Matches(item, term)
    ensures Matches(item, Lower(term))
  {
    var l := Lower(term);
    assert l <= l[0..];
    LowerIdempotent(term);
  }

  datatype Data = Data(
    armas: seq<Record>, municoes: seq<Record>, protecoes: seq<Record>, equipamentos: seq<Record>,
    rituais: seq<Record>, origens: seq<Record>, pericias: seq<Record>)

  const TabIds: seq<string> := ["armas", "municoes", "protecoes", "equipamentos", "rituais", "origens", "pericias"]

  /** The list a tab shows. */
  function ListOf(data: Data, tab: nat): seq<Record>
    requires tab < 7
  {
    match tab
    case 0 => data.armas
    case 1 => data.municoes
    case 2 => data.protecoes
    case 3 => data.equipamentos
    case 4 => data.rituais
    case 5 => data.origens
    case _ => data.pericias
  }

  datatype Tab = Tab(id: string, count: nat)

  /** `tabs`: one per list, in the order of `TabIds`, each counting its whole list. */
  function Tabs(data: Data): (tabs: seq<Tab>)
    ensures |tabs| == |TabIds|
    ensures forall i :: 0 <= i < 7 ==> tabs[i] == Tab(TabIds[i], |ListOf(data, i)|)
  {
    seq(7, i requires 0 <= i < 7 => Tab(TabIds[i], |ListOf(data, i)|))
  }

  /** A tab's count is that of the unfiltered list, so it bounds what any search shows there. */
  lemma TabCountBoundsSearch(data: Data, tab: nat, term: string)
    requires tab < 7
    requires forall i :: 0 <= i < |ListOf(data, tab)| ==> Searchable(ListOf(data, tab)[i])
    ensures |FilterData(ListOf(data, tab), term)| <= Tabs(data)[tab].count
  {
  }
}
