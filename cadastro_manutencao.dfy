/** The maintenance registration form: its initial state, the change
    handler, the normalisation of a record loaded for editing, and the
    submit handler with its chain of checks and its request. */
module CadastroManutencao {
  import opened Text
  import opened Forms
  import Manutencoes

  const FieldNames: seq<string> := [
    "equipamento_id", "tipo", "descricao", "data_agendada", "prioridade",
    "responsavel", "fornecedor", "custo", "observacoes"]

  /** The state of a new form: type preventiva, priority media, everything
      else empty. */
  function Initial(): (f: Fields)
    ensures f.Keys == set k | k in FieldNames
    ensures f["tipo"] == "preventiva" && f["prioridade"] == "media"
    ensures forall k :: k in f && k != "tipo" && k != "prioridade" ==> f[k] == ""
  {
    map[
      "equipamento_id" := "", "tipo" := "preventiva", "descricao" := "",
      "data_agendada" := "", "prioridade" := "media", "responsavel" := "",
      "fornecedor" := "", "custo" := "", "observacoes" := ""]
  }

  /** `tiposManutencao` and `prioridades`: the options of the type and
      priority selects. */
  const TiposManutencao: seq<SelectOption> := [
    SelectOption("preventiva", "Preventiva"), SelectOption("corretiva", "Corretiva"),
    SelectOption("calibracao", "Calibração"), SelectOption("limpeza", "Limpeza"),
    SelectOption("revisao", "Revisão")]
  const Prioridades: seq<SelectOption> := [
    SelectOption("baixa", "Baixa"), SelectOption("media", "Média"),
    SelectOption("alta", "Alta"), SelectOption("critica", "Crítica")]

  /** The initial type and priority are offered by the selects; every
      priority gets a badge class in the list. The list labels a type as the
      form does exactly when it is one of its three known types: limpeza and
      revisao are shown as their raw codes. */
  lemma OptionsAgainstList()
    ensures exists o :: o in TiposManutencao && o.value == Initial()["tipo"]
    ensures exists o :: o in Prioridades && o.value == Initial()["prioridade"]
    ensures forall o :: o in Prioridades ==> Manutencoes.PrioridadeColor(o.value) != ""
    ensures forall o :: o in TiposManutencao ==>
              (Manutencoes.TipoText(o.value) == o.text <==> o.value in Manutencoes.TipoCodes)
    ensures Manutencoes.TipoText("limpeza") == "limpeza" && Manutencoes.TipoText("revisao") == "revisao"
  {
    assert TiposManutencao[0].value == "preventiva";
    assert Prioridades[1].value == "media";
  }

  /** A record from the backend made ready for the form: its scheduled
      timestamp cut down to the date, everything else as received. */
  function Loaded(data: Fields): (f: Fields)
    ensures f.Keys == data.Keys + {"data_agendada"}
    ensures forall k :: k in data && k != "data_agendada" ==> f[k] == data[k]
    ensures 'T' !in f["data_agendada"]
    ensures f["data_agendada"] != "" ==> Has(data, "data_agendada") && f["data_agendada"] <= data["data_agendada"]
    ensures !Has(data, "data_agendada") ==> f["data_agendada"] == ""
    ensures Has(data, "data_agendada") ==>
              && f["data_agendada"] <= data["data_agendada"]
              && (|f["data_agendada"]| < |data["data_agendada"]| ==>
                    data["data_agendada"][|f["data_agendada"]|] == 'T')
  {
    WithDateOnly(data, "data_agendada")
  }

  lemma LoadedIdempotent(data: Fields)
    ensures Loaded(Loaded(data)) == Loaded(data)
  {
  }

  const MsgEquipamento: string := "Selecione um equipamento"
  const MsgDescricao: string := "A descrição é obrigatória"
  const MsgDataAgendada: string := "A data agendada é obrigatória"

  /** The checks of `handleSubmit` in their order; the first that fails is
      the only one reported. `descricao.trim()` throws when the property is
      missing. */
  function Validate(f: Fields): (r: Option<Rejection>)
    ensures r == Some(Alert(MsgEquipamento)) <==> !Has(f, "equipamento_id")
    ensures r == Some(TypeError) <==> Has(f, "equipamento_id") && "descricao" !in f
    ensures r == Some(Alert(MsgDescricao)) <==>
              Has(f, "equipamento_id") && "descricao" in f && AllSpace(f["descricao"])
    ensures r == Some(Alert(MsgDataAgendada)) <==>
              Has(f, "equipamento_id") && "descricao" in f && !AllSpace(f["descricao"])
              && !Has(f, "data_agendada")
    ensures r == None <==>
              Has(f, "equipamento_id") && "descricao" in f && !AllSpace(f["descricao"])
              && Has(f, "data_agendada")
  {
    if !Has(f, "equipamento_id") then Some(Alert(MsgEquipamento))
    else if "descricao" !in f then Some(TypeError)
    else
      TrimEmptyIff(f["descricao"]);
      if Blank(f, "descricao") then Some(Alert(MsgDescricao))
      else if !Has(f, "data_agendada") then Some(Alert(MsgDataAgendada))
      else None
  }

  /** A form nobody has touched is refused for its missing equipment. */
  lemma InitialRefused()
    ensures Validate(Initial()) == Some(Alert(MsgEquipamento))
  {
    assert !Has(Initial(), "equipamento_id");
  }

  /** The request `handleSubmit` sends once every check passes: PUT to the
      record when there is an id, POST to the collection otherwise; the body
      is the form with `custo` replaced by a number, 0 when it is empty. */
  function Payload(f: Fields, id: Option<string>): (r: Request)
    ensures r.verb == Put <==> Editing(id)
    ensures Editing(id) ==> r.url == BaseUrl + "/manutencoes/" + id.value
    ensures !Editing(id) ==> r.url == BaseUrl + "/manutencoes"
    ensures r.body.Keys == f.Keys + {"custo"}
    ensures forall k :: k in f && k != "custo" ==> r.body[k] == JString(f[k])
    ensures !Has(f, "custo") ==> r.body["custo"] == JZero
    ensures Has(f, "custo") ==> r.body["custo"] == JParseFloat(f["custo"])
  {
    var (verb, url) := Target("/manutencoes", id);
    var body := map k | k in f :: JString(f[k]);
    Request(verb, url, body["custo" := if Has(f, "custo") then JParseFloat(f["custo"]) else JZero])
  }

  /** The page's `manutencao` state. */
  class ManutencaoForm {
    var fields: Fields

    constructor ()
      ensures fields == Initial()
    {
      fields := Initial();
    }

    /** `handleChange`: sets the named field and nothing else. */
    method Change(name: string, value: string)
      modifies this
      ensures fields == old(fields)[name := value]
      ensures name in fields && fields[name] == value
      ensures forall k :: k != name ==> (k in fields <==> k in old(fields))
      ensures forall k :: k != name && k in fields ==> fields[k] == old(fields)[k]
    {
      fields := fields[name := value];
    }

    /** `fetchManutencao` on success: the loaded record replaces the state. */
    method Load(data: Fields)
      modifies this
      ensures fields == Loaded(data)
    {
      fields := Loaded(data);
    }

    /** `handleSubmit`: the checks run one after the other and the first
      failure returns; a request is built only when all of them pass. */
    method Submit(id: Option<string>) returns (outcome: Outcome)
      ensures outcome.Sent? <==> Validate(fields) == None
      ensures outcome.Rejected? ==> Validate(fields) == Some(outcome.why)
      ensures outcome.Sent? ==> outcome.request == Payload(fields, id)
    {
      if !Has(fields, "equipamento_id") {
        return Rejected(Alert(MsgEquipamento));
      }
      if "descricao" !in fields {
        return Rejected(TypeError);
      }
      if Blank(fields, "descricao") {
        return Rejected(Alert(MsgDescricao));
      }
      if !Has(fields, "data_agendada") {
        return Rejected(Alert(MsgDataAgendada));
      }
      return Sent(Payload(fields, id));
    }
  }
}
