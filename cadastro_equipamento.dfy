/** The equipment registration form: its initial state, the status options,
    the change handler, the normalisation of a record loaded for editing,
    and the submit handler with its checks and its request. */
module CadastroEquipamento {
  import opened Text
  import opened Forms
  import Equipamentos

  const FieldNames: seq<string> := [
    "codigo", "nome", "modelo", "fabricante", "numero_serie", "categoria",
    "localizacao", "status", "data_aquisicao", "valor_aquisicao", "garantia_ate",
    "especificacoes_tecnicas", "observacoes"]

  /** The state of a new form: status ativo, everything else empty. */
  function Initial(): (f: Fields)
    ensures f.Keys == set k | k in FieldNames
    ensures f["status"] == "ativo"
    ensures forall k :: k in f && k != "status" ==> f[k] == ""
  {
    map[
      "codigo" := "", "nome" := "", "modelo" := "", "fabricante" := "",
      "numero_serie" := "", "categoria" := "", "localizacao" := "",
      "status" := "ativo", "data_aquisicao" := "", "valor_aquisicao" := "",
      "garantia_ate" := "", "especificacoes_tecnicas" := "", "observacoes" := ""]
  }

  /** `statusOptions`. */
  const StatusOptions: seq<SelectOption> := [
    SelectOption("ativo", "Ativo"), SelectOption("inativo", "Inativo"),
    SelectOption("manutencao", "Em Manutenção"), SelectOption("defeito", "Defeito")]

  /** The form offers exactly the four status codes the list knows, each
      under the label the list shows for it, and the initial status is one
      of them. */
  lemma StatusOptionsAgreeWithList()
    ensures forall c :: c in Equipamentos.StatusCodes <==> exists o :: o in StatusOptions && o.value == c
    ensures forall o :: o in StatusOptions ==> Equipamentos.StatusText(o.value) == o.text
    ensures Initial()["status"] in Equipamentos.StatusCodes
  {
  }

  /** A record from the backend made ready for the form: the acquisition and
      warranty timestamps cut down to dates, everything else as received. */
  function Loaded(data: Fields): (f: Fields)
    ensures f.Keys == data.Keys + {"data_aquisicao", "garantia_ate"}
    ensures forall k :: k in data && k != "data_aquisicao" && k != "garantia_ate" ==> f[k] == data[k]
    ensures 'T' !in f["data_aquisicao"] && 'T' !in f["garantia_ate"]
    ensures !Has(data, "data_aquisicao") ==> f["data_aquisicao"] == ""
    ensures !Has(data, "garantia_ate") ==> f["garantia_ate"] == ""
    ensures f["data_aquisicao"] != "" ==> f["data_aquisicao"] <= data["data_aquisicao"]
    ensures f["garantia_ate"] != "" ==> f["garantia_ate"] <= data["garantia_ate"]
    ensures Has(data, "data_aquisicao") ==>
              && f["data_aquisicao"] <= data["data_aquisicao"]
              && (|f["data_aquisicao"]| < |data["data_aquisicao"]| ==>
                    data["data_aquisicao"][|f["data_aquisicao"]|] == 'T')
    ensures Has(data, "garantia_ate") ==>
              && f["garantia_ate"] <= data["garantia_ate"]
              && (|f["garantia_ate"]| < |data["garantia_ate"]| ==>
                    data["garantia_ate"][|f["garantia_ate"]|] == 'T')
  {
    WithDateOnly(WithDateOnly(data, "data_aquisicao"), "garantia_ate")
  }

  lemma LoadedIdempotent(data: Fields)
    ensures Loaded(Loaded(data)) == Loaded(data)
  {
  }

  const MsgNome: string := "O nome do equipamento é obrigatório"
  const MsgCodigo: string := "O código do equipamento é obrigatório"

  /** The checks of `handleSubmit` in their order: nome first, then codigo;
      `.trim()` throws when the property is missing. */
  function Validate(f: Fields): (r: Option<Rejection>)
    ensures r == Some(TypeError) <==>
              "nome" !in f || (!AllSpace(f["nome"]) && "codigo" !in f)
    ensures r == Some(Alert(MsgNome)) <==> "nome" in f && AllSpace(f["nome"])
    ensures r == Some(Alert(MsgCodigo)) <==>
              "nome" in f && !AllSpace(f["nome"]) && "codigo" in f && AllSpace(f["codigo"])
    ensures r == None <==>
              "nome" in f && !AllSpace(f["nome"]) && "codigo" in f && !AllSpace(f["codigo"])
  {
    if "nome" !in f then Some(TypeError)
    else
      TrimEmptyIff(f["nome"]);
      if Blank(f, "nome") then Some(Alert(MsgNome))
      else if "codigo" !in f then Some(TypeError)
      else
        TrimEmptyIff(f["codigo"]);
        if Blank(f, "codigo") then Some(Alert(MsgCodigo))
        else None
  }

  /** A form nobody has touched is refused for its missing name. */
  lemma InitialRefused()
    ensures Validate(Initial()) == Some(Alert(MsgNome))
  {
    assert "nome" in Initial() && AllSpace(Initial()["nome"]);
  }

  /** The request `handleSubmit` sends once both checks pass: PUT to the
      record when there is an id, POST to the collection otherwise; the body
      is the form as it stands. */
  function Payload(f: Fields, id: Option<string>): (r: Request)
    ensures r.verb == Put <==> Editing(id)
    ensures Editing(id) ==> r.url == BaseUrl + "/equipamentos/" + id.value
    ensures !Editing(id) ==> r.url == BaseUrl + "/equipamentos"
    ensures r.body.Keys == f.Keys
    ensures forall k :: k in f ==> r.body[k] == JString(f[k])
  {
    var (verb, url) := Target("/equipamentos", id);
    Request(verb, url, map k | k in f :: JString(f[k]))
  }

  /** The page's `equipamento` state. */
  class EquipamentoForm {
    var fields: Fields

    constructor ()
      ensures fields == Initial()
    {
      fields := Initial();
    }

    /** `handleInputChange`: sets the named field and nothing else. */
    method Change(name: string, value: string)
      modifies this
      ensures fields == old(fields)[name := value]
      ensures name in fields && fields[name] == value
      ensures forall k :: k != name ==> (k in fields <==> k in old(fields))
      ensures forall k :: k != name && k in fields ==> fields[k] == old(fields)[k]
    {
      fields := fields[name := value];
    }

    /** `fetchEquipamento` on success: the loaded record replaces the state. */
    method Load(data: Fields)
      modifies this
      ensures fields == Loaded(data)
    {
      fields := Loaded(data);
    }

    /** `handleSubmit`: nome is checked, then codigo; the first failure
      returns, and a request is built only when both pass. */
    method Submit(id: Option<string>) returns (outcome: Outcome)
      ensures outcome.Sent? <==> Validate(fields) == None
      ensures outcome.Rejected? ==> Validate(fields) == Some(outcome.why)
      ensures outcome.Sent? ==> outcome.request == Payload(fields, id)
    {
      if "nome" !in fields {
        return Rejected(TypeError);
      }
      if Blank(fields, "nome") {
        return Rejected(Alert(MsgNome));
      }
      if "codigo" !in fields {
        return Rejected(TypeError);
      }
      if Blank(fields, "codigo") {
        return Rejected(Alert(MsgCodigo));
      }
      return Sent(Payload(fields, id));
    }
  }
}
