/** The equipment list page: the filter applied to the list loaded from the
    backend, the distinct categories offered in the category select, and the
    status tables. */
module Equipamentos {
  import opened Text
  import opened Seqs

  /** An equipment record as the list receives it; every property may be
      null or missing. */
  datatype Equipamento = Equipamento(
    id: Option<string>,
    codigo: Option<string>,
    nome: Option<string>,
    modelo: Option<string>,
    fabricante: Option<string>,
    categoria: Option<string>,
    status: Option<string>)

  /** The search box and the two selects (`''` means "all"). */
  datatype Query = Query(searchTerm: string, statusFilter: string, categoriaFilter: string)

  // ---------------------------------------------------------------------
  // Filtering
  // ---------------------------------------------------------------------

  predicate MatchesSearch(e: Equipamento, term: string)
  {
    Includes(e.nome, term) || Includes(e.codigo, term) || Includes(e.fabricante, term) || Includes(e.modelo, term)
  }

  predicate Matches(e: Equipamento, q: Query)
  {
    && MatchesSearch(e, q.searchTerm)
    && (q.statusFilter == "" || e.status == Some(q.statusFilter))
    && (q.categoriaFilter == "" || e.categoria == Some(q.categoriaFilter))
  }

  /** `filteredEquipamentos`: the loaded records that pass every active
      filter, in their original order. */
  function Filtered(es: seq<Equipamento>, q: Query): (r: seq<Equipamento>)
    ensures IsSubsequence(r, es)
    ensures forall e :: e in r <==> e in es && Matches(e, q)
    ensures forall e :: multiset(r)[e] == if Matches(e, q) then multiset(es)[e] else 0
    ensures forall e :: e in r ==>
              && (q.statusFilter != "" ==> e.status == Some(q.statusFilter))
              && (q.categoriaFilter != "" ==> e.categoria == Some(q.categoriaFilter))
  {
    Filter(es, (e: Equipamento) => Matches(e, q))
  }

  /** The field holds the term, ignoring case. */
  ghost predicate FieldHolds(field: Option<string>, term: string)
  {
    field.Some? && exists i :: OccursAt(Lower(field.value), Lower(term), i)
  }

  /** A record matches the search exactly when the lower-cased term occurs
      in the lower-cased nome, codigo, fabricante or modelo; a missing field
      never matches. */
  lemma SearchIff(e: Equipamento, term: string)
    ensures MatchesSearch(e, term) <==>
              FieldHolds(e.nome, term) || FieldHolds(e.codigo, term)
              || FieldHolds(e.fabricante, term) || FieldHolds(e.modelo, term)
  {
    IncludesIff(e.nome, term);
    IncludesIff(e.codigo, term);
    IncludesIff(e.fabricante, term);
    IncludesIff(e.modelo, term);
  }

  /** The search ignores the case of what was typed. */
  lemma SearchIgnoresCase(es: seq<Equipamento>, q: Query)
    ensures Filtered(es, q.(searchTerm := Lower(q.searchTerm))) == Filtered(es, q)
  {
    var q' := q.(searchTerm := Lower(q.searchTerm));
    forall e | e in es
      ensures Matches(e, q') == Matches(e, q)
    {
      IncludesCaseInsensitive(e.nome, q.searchTerm);
      IncludesCaseInsensitive(e.codigo, q.searchTerm);
      IncludesCaseInsensitive(e.fabricante, q.searchTerm);
      IncludesCaseInsensitive(e.modelo, q.searchTerm);
    }
    FilterExt(es, (e: Equipamento) => Matches(e, q'), (e: Equipamento) => Matches(e, q));
  }

  /** `narrow` keeps the search of `wide` and agrees with each select that
      `wide` has set. */
  predicate Narrows(narrow: Query, wide: Query)
  {
    && narrow.searchTerm == wide.searchTerm
    && (wide.statusFilter == "" || narrow.statusFilter == wide.statusFilter)
    && (wide.categoriaFilter == "" || narrow.categoriaFilter == wide.categoriaFilter)
  }

  /** Choosing a status or a category only removes records, and never
      reorders those that stay. */
  lemma NarrowingShrinks(es: seq<Equipamento>, narrow: Query, wide: Query)
    requires Narrows(narrow, wide)
    ensures IsSubsequence(Filtered(es, narrow), Filtered(es, wide))
  {
    FilterNarrowing(es, (e: Equipamento) => Matches(e, narrow), (e: Equipamento) => Matches(e, wide));
  }

  // ---------------------------------------------------------------------
  // Categories for the select
  // ---------------------------------------------------------------------

  /** `[...new Set(equipamentos.map(e => e.categoria).filter(Boolean))]`:
      a Set keeps the order in which values were first inserted, so the
      list is built by visiting the records in order and appending each
      truthy category not seen before. */
  function Categorias(es: seq<Equipamento>): (r: seq<string>)
    ensures forall i, j :: 0 <= i < j < |r| ==> r[i] != r[j]
    ensures "" !in r
    ensures forall e :: e in es && Truthy(e.categoria) ==> e.categoria.value in r
    ensures forall c :: c in r ==> exists e :: e in es && e.categoria == Some(c)
  {
    if es == [] then []
    else
      var seen := Categorias(es[..|es| - 1]);
      var last := es[|es| - 1];
      assert forall e :: e in es ==> e in es[..|es| - 1] || e == last;
      assert forall e :: e in es[..|es| - 1] ==> e in es;
      if Truthy(last.categoria) && last.categoria.value !in seen then seen + [last.categoria.value]
      else seen
  }

  /** Position of the first record whose category is `c` (`|es|` if none). */
  function FirstWith(es: seq<Equipamento>, c: string): (k: nat)
    ensures k <= |es|
    ensures k < |es| ==> es[k].categoria == Some(c)
    ensures forall i :: 0 <= i < k ==> es[i].categoria != Some(c)
  {
    if es == [] then 0
    else if es[0].categoria == Some(c) then 0
    else 1 + FirstWith(es[1..], c)
  }

  /** The categories appear in the order of their first occurrence among
      the records. */
  lemma {:induction false} CategoriasFirstAppearance(es: seq<Equipamento>, i: nat, j: nat)
    requires i < j < |Categorias(es)|
    ensures FirstWith(es, Categorias(es)[i]) < FirstWith(es, Categorias(es)[j])
  {
    var p, last := es[..|es| - 1], es[|es| - 1];
    assert es == p + [last];
    var seen := Categorias(p);
    var r := Categorias(es);
    assert r == seen || (Truthy(last.categoria) && last.categoria.value !in seen && r == seen + [last.categoria.value]);
    assert r[i] == seen[i];
    CategoriaPosition(p, seen[i]);
    if j < |seen| {
      assert r[j] == seen[j];
      CategoriasFirstAppearance(p, i, j);
      CategoriaPosition(p, seen[j]);
    } else {
      // r[j] is the category of the last record, and of no earlier one
      var y := last.categoria.value;
      assert r[j] == y;
      assert forall k :: 0 <= k < |p| ==> p[k] in p;
      assert es[|p|].categoria == Some(y);
      assert FirstWith(es, y) == |p|;
    }
  }

  /** A listed category first occurs at a real position, the same in every
      extension of the records. */
  lemma CategoriaPosition(es: seq<Equipamento>, c: string)
    requires c in Categorias(es)
    ensures FirstWith(es, c) < |es|
    ensures forall e :: FirstWith(es + [e], c) == FirstWith(es, c)
  {
    var k :| 0 <= k < |es| && es[k].categoria == Some(c);
    forall e
      ensures FirstWith(es + [e], c) == FirstWith(es, c)
    {
      var t := es + [e];
      assert t[k] == es[k];
      assert forall i :: 0 <= i < FirstWith(t, c) && i < |es| ==> t[i] == es[i];
    }
  }

  // ---------------------------------------------------------------------
  // Lookup tables
  // ---------------------------------------------------------------------

  const StatusCodes: seq<string> := ["ativo", "inativo", "manutencao", "defeito"]

  /** `getStatusText`. */
  function StatusText(status: string): (r: string)
    ensures status in StatusCodes ==> r != status && r != ""
    ensures status !in StatusCodes ==> r == status
  {
    match status
    case "ativo" => "Ativo"
    case "inativo" => "Inativo"
    case "manutencao" => "Em Manutenção"
    case "defeito" => "Defeito"
    case _ => status
  }

  /** `getStatusColor`. */
  function StatusColor(status: string): (r: string)
    ensures r != "" <==> status in StatusCodes
    ensures r != "" ==> r == "status-" + status
  {
    match status
    case "ativo" => "status-ativo"
    case "inativo" => "status-inativo"
    case "manutencao" => "status-manutencao"
    case "defeito" => "status-defeito"
    case _ => ""
  }

  /** Distinct statuses get distinct labels and distinct classes. */
  lemma StatusTablesInjective(a: string, b: string)
    requires a in StatusCodes && b in StatusCodes && a != b
    ensures StatusText(a) != StatusText(b)
    ensures StatusColor(a) != StatusColor(b)
  {
  }
}
