/** The maintenance list page: the filter applied to the list loaded from
    the backend, the counters in the footer, the actions offered on each
    card, and the tables from codes to labels and CSS classes. */
module Manutencoes {
  import opened Text
  import opened Seqs

  /** A maintenance record as the list receives it; every property may be
      null or missing. */
  datatype Manutencao = Manutencao(
    id: Option<string>,
    equipamentoId: Option<string>,
    nomeEquipamento: Option<string>,
    codigoEquipamento: Option<string>,
    tipo: Option<string>,
    descricao: Option<string>,
    prioridade: Option<string>,
    status: Option<string>,
    responsavel: Option<string>)

  /** The page's filter state: the search box, the two selects (`''` means
      "all") and the `equipamentoId` route parameter. */
  datatype Query = Query(
    searchTerm: string,
    statusFilter: string,
    tipoFilter: string,
    routeEquipamentoId: Option<string>)

  /** No text typed, nothing selected, no equipment in the route. */
  const Unfiltered: Query := Query("", "", "", None)

  // ---------------------------------------------------------------------
  // Filtering
  // ---------------------------------------------------------------------

  predicate MatchesSearch(m: Manutencao, term: string)
  {
    || Includes(m.descricao, term)
    || Includes(m.nomeEquipamento, term)
    || Includes(m.codigoEquipamento, term)
    || Includes(m.responsavel, term)
  }

  predicate MatchesStatus(m: Manutencao, statusFilter: string)
  {
    statusFilter == "" || m.status == Some(statusFilter)
  }

  predicate MatchesTipo(m: Manutencao, tipoFilter: string)
  {
    tipoFilter == "" || m.tipo == Some(tipoFilter)
  }

  predicate MatchesEquipamento(m: Manutencao, routeId: Option<string>)
  {
    !Truthy(routeId) || m.equipamentoId == routeId
  }

  predicate Matches(m: Manutencao, q: Query)
  {
    && MatchesSearch(m, q.searchTerm)
    && MatchesStatus(m, q.statusFilter)
    && MatchesTipo(m, q.tipoFilter)
    && MatchesEquipamento(m, q.routeEquipamentoId)
  }

  /** `filteredManutencoes`: the loaded records that pass every active
      filter, in their original order. */
  function Filtered(ms: seq<Manutencao>, q: Query): (r: seq<Manutencao>)
    ensures IsSubsequence(r, ms)
    ensures forall m :: m in r <==> m in ms && Matches(m, q)
    ensures forall m :: multiset(r)[m] == if Matches(m, q) then multiset(ms)[m] else 0
    ensures forall m :: m in r ==>
              && (q.statusFilter != "" ==> m.status == Some(q.statusFilter))
              && (q.tipoFilter != "" ==> m.tipo == Some(q.tipoFilter))
              && (Truthy(q.routeEquipamentoId) ==> m.equipamentoId == q.routeEquipamentoId)
  {
    Filter(ms, (m: Manutencao) => Matches(m, q))
  }

  /** The search ignores the case of what was typed. */
  lemma SearchIgnoresCase(ms: seq<Manutencao>, q: Query)
    ensures Filtered(ms, q.(searchTerm := Lower(q.searchTerm))) == Filtered(ms, q)
  {
    var q' := q.(searchTerm := Lower(q.searchTerm));
    forall m | m in ms
      ensures Matches(m, q') == Matches(m, q)
    {
      IncludesCaseInsensitive(m.descricao, q.searchTerm);
      IncludesCaseInsensitive(m.nomeEquipamento, q.searchTerm);
      IncludesCaseInsensitive(m.codigoEquipamento, q.searchTerm);
      IncludesCaseInsensitive(m.responsavel, q.searchTerm);
    }
    FilterExt(ms, (m: Manutencao) => Matches(m, q'), (m: Manutencao) => Matches(m, q));
  }

  /** A record has one of the four fields the search looks at. */
  predicate HasSearchableField(m: Manutencao)
  {
    m.descricao.Some? || m.nomeEquipamento.Some? || m.codigoEquipamento.Some? || m.responsavel.Some?
  }

  /** With nothing typed and nothing selected the page still hides every
      record whose descricao, nome_equipamento, codigo_equipamento and
      responsavel are all missing: optional chaining makes them fail the
      search even for the empty term. */
  lemma UnfilteredKeepsSearchable(ms: seq<Manutencao>)
    ensures Filtered(ms, Unfiltered) == Filter(ms, HasSearchableField)
  {
    forall m | m in ms
      ensures Matches(m, Unfiltered) == HasSearchableField(m)
    {
      IncludesEmptyTerm(m.descricao);
      IncludesEmptyTerm(m.nomeEquipamento);
      IncludesEmptyTerm(m.codigoEquipamento);
      IncludesEmptyTerm(m.responsavel);
    }
    FilterExt(ms, (m: Manutencao) => Matches(m, Unfiltered), HasSearchableField);
  }

  /** `narrow` asks for at least what `wide` asks for: the same search, and
      each of its selects and its route id either agrees with `wide`'s or
      is set where `wide`'s is not. */
  predicate Narrows(narrow: Query, wide: Query)
  {
    && narrow.searchTerm == wide.searchTerm
    && (wide.statusFilter == "" || narrow.statusFilter == wide.statusFilter)
    && (wide.tipoFilter == "" || narrow.tipoFilter == wide.tipoFilter)
    && (!Truthy(wide.routeEquipamentoId) || narrow.routeEquipamentoId == wide.routeEquipamentoId)
  }

  /** Choosing a status, a type or an equipment only removes records, and
      never reorders those that stay. */
  lemma NarrowingShrinks(ms: seq<Manutencao>, narrow: Query, wide: Query)
    requires Narrows(narrow, wide)
    ensures IsSubsequence(Filtered(ms, narrow), Filtered(ms, wide))
  {
    FilterNarrowing(ms, (m: Manutencao) => Matches(m, narrow), (m: Manutencao) => Matches(m, wide));
  }

  // ---------------------------------------------------------------------
  // Footer
  // ---------------------------------------------------------------------

  /** The statuses of the records, in order. */
  function Statuses(ms: seq<Manutencao>): (r: seq<Option<string>>)
  {
    seq(|ms|, i requires 0 <= i < |ms| => ms[i].status)
  }

  /** `filtered.filter(m => m.status === code).length`: the number of
      records whose status is `code`. */
  function CountStatus(ms: seq<Manutencao>, code: string): (n: nat)
    ensures n <= |ms|
    ensures n == multiset(Statuses(ms))[Some(code)]
  {
    CountIsMultiplicity(ms, code);
    |Filter(ms, (m: Manutencao) => m.status == Some(code))|
  }

  lemma {:induction false} CountIsMultiplicity(ms: seq<Manutencao>, code: string)
    ensures |Filter(ms, (m: Manutencao) => m.status == Some(code))| == multiset(Statuses(ms))[Some(code)]
  {
    if ms != [] {
      CountIsMultiplicity(ms[1..], code);
      assert Statuses(ms) == [ms[0].status] + Statuses(ms[1..]);
    }
  }

  datatype Breakdown = Breakdown(agendadas: nat, emAndamento: nat, concluidas: nat)

  /** The footer: the total, and the per-status breakdown shown only when
      the filtered list is not empty. */
  datatype Footer = Footer(total: nat, details: Option<Breakdown>)

  function FooterOf(filtered: seq<Manutencao>): (f: Footer)
    ensures f.total == |filtered|
    ensures f.details.Some? <==> |filtered| > 0
    ensures f.details.Some? ==>
              f.details.value.agendadas + f.details.value.emAndamento + f.details.value.concluidas
                <= f.total
    ensures f.details.Some? ==>
              && f.details.value.agendadas == multiset(Statuses(filtered))[Some("agendada")]
              && f.details.value.emAndamento == multiset(Statuses(filtered))[Some("em_andamento")]
              && f.details.value.concluidas == multiset(Statuses(filtered))[Some("concluida")]
  {
    if |filtered| == 0 then Footer(0, None)
    else
      StatusCountsBounded(filtered);
      Footer(|filtered|, Some(Breakdown(
        CountStatus(filtered, "agendada"),
        CountStatus(filtered, "em_andamento"),
        CountStatus(filtered, "concluida"))))
  }

  /** A record has one status, so the three counters never exceed the
      number of records. */
  lemma StatusCountsBounded(ms: seq<Manutencao>)
    ensures CountStatus(ms, "agendada") + CountStatus(ms, "em_andamento") + CountStatus(ms, "concluida") <= |ms|
  {
    FilterDisjointCounts(ms,
      (m: Manutencao) => m.status == Some("agendada"),
      (m: Manutencao) => m.status == Some("em_andamento"),
      (m: Manutencao) => m.status == Some("concluida"));
  }

  // ---------------------------------------------------------------------
  // Card actions
  // ---------------------------------------------------------------------

  datatype Action = Editar | Concluir | Excluir

  /** The buttons of a card: Editar always; Concluir and Excluir only for a
      maintenance that is still scheduled. */
  function CardActions(m: Manutencao): (r: seq<Action>)
    ensures Editar in r
    ensures Concluir in r <==> m.status == Some("agendada")
    ensures Excluir in r <==> m.status == Some("agendada")
    ensures m.status != Some("agendada") ==> r == [Editar]
  {
    [Editar] + (if m.status == Some("agendada") then [Concluir, Excluir] else [])
  }

  // ---------------------------------------------------------------------
  // Lookup tables
  // ---------------------------------------------------------------------

  const StatusCodes: seq<string> := ["agendada", "em_andamento", "concluida", "cancelada"]

  /** `getStatusText`. */
  function StatusText(status: string): (r: string)
    ensures status in StatusCodes ==> r != status && r != ""
    ensures status !in StatusCodes ==> r == status
  {
    match status
    case "agendada" => "Agendada"
    case "em_andamento" => "Em Andamento"
    case "concluida" => "Concluída"
    case "cancelada" => "Cancelada"
    case _ => status
  }

  /** `getStatusColor`. */
  function StatusColor(status: string): (r: string)
    ensures r != "" <==> status in StatusCodes
    ensures r != "" ==> "status-" <= r
  {
    match status
    case "agendada" => "status-agendada"
    case "em_andamento" => "status-andamento"
    case "concluida" => "status-concluida"
    case "cancelada" => "status-cancelada"
    case _ => ""
  }

  /** Distinct statuses get distinct labels and distinct classes. */
  lemma StatusTablesInjective(a: string, b: string)
    requires a in StatusCodes && b in StatusCodes && a != b
    ensures StatusText(a) != StatusText(b)
    ensures StatusColor(a) != StatusColor(b)
  {
  }

  const TipoCodes: seq<string> := ["preventiva", "corretiva", "calibracao"]

  /** `getTipoText`. */
  function TipoText(tipo: string): (r: string)
    ensures tipo in TipoCodes ==> r != tipo && r != ""
    ensures tipo !in TipoCodes ==> r == tipo
  {
    match tipo
    case "preventiva" => "Preventiva"
    case "corretiva" => "Corretiva"
    case "calibracao" => "Calibração"
    case _ => tipo
  }

  const PrioridadeCodes: seq<string> := ["baixa", "media", "alta", "critica"]

  /** `getPrioridadeColor`. */
  function PrioridadeColor(prioridade: string): (r: string)
    ensures r != "" <==> prioridade in PrioridadeCodes
    ensures r != "" ==> r == "prioridade-" + prioridade
  {
    match prioridade
    case "baixa" => "prioridade-baixa"
    case "media" => "prioridade-media"
    case "alta" => "prioridade-alta"
    case "critica" => "prioridade-critica"
    case _ => ""
  }

  /** The options of the two filter selects, after their "all" entry. */
  const StatusSelect: seq<SelectOption> := [
    SelectOption("agendada", "Agendada"), SelectOption("em_andamento", "Em Andamento"),
    SelectOption("concluida", "Concluída"), SelectOption("cancelada", "Cancelada")]
  const TipoSelect: seq<SelectOption> := [
    SelectOption("preventiva", "Preventiva"), SelectOption("corretiva", "Corretiva"),
    SelectOption("calibracao", "Calibração")]

  /** The selects offer exactly the codes the tables know, under the labels
      the cards show for them. */
  lemma SelectsAgreeWithTables()
    ensures forall o :: o in StatusSelect ==> StatusText(o.value) == o.text
    ensures forall o :: o in TipoSelect ==> TipoText(o.value) == o.text
    ensures forall c :: c in StatusCodes <==> exists o :: o in StatusSelect && o.value == c
    ensures forall c :: c in TipoCodes <==> exists o :: o in TipoSelect && o.value == c
  {
    assert StatusSelect[0].value == "agendada" && StatusSelect[1].value == "em_andamento";
    assert StatusSelect[2].value == "concluida" && StatusSelect[3].value == "cancelada";
    assert TipoSelect[0].value == "preventiva" && TipoSelect[1].value == "corretiva";
    assert TipoSelect[2].value == "calibracao";
  }
}
