/** The patient-management page: the name-or-contact search, the payload
    built from the form, the create-versus-update decision, and the form
    state when editing starts and when it is cleared. */
module Utentes {
  import opened Wrappers
  import opened Common
  import opened Records
  import opened Strings
  import Search

  /** The form; `dataNascimento` holds the date-time input's text
      ("YYYY-MM-DDTHH:MM") or "". */
  datatype Form = Form(
    nome: string,
    dataNascimento: string,
    sexo: string,
    contacto: string,
    localizacao: string,
    idLocal: string,
    senha: string)

  const FormVazio: Form := Form("", "", "M", "", "", "", "")

  /** The request body: the form with the birth date completed to a full
      timestamp, or null when the field is empty. */
  datatype Dados = Dados(
    nome: string,
    dataNascimento: Option<string>,
    sexo: string,
    contacto: string,
    localizacao: string,
    idLocal: string,
    senha: string)

  /** A submission either creates a patient or updates the one being edited. */
  datatype Pedido = Criar(dados: Dados) | Atualizar(id: int, dados: Dados)

  datatype Estado = Estado(form: Form, editando: Option<int>, busca: string, loading: bool, erro: string, sucesso: string)

  /** The payload: every field copied, the birth date completed with
      ":00.000Z" when filled in and null otherwise. */
  function DadosParaEnviar(f: Form): (d: Dados)
    ensures d.dataNascimento.None? <==> f.dataNascimento == ""
    ensures d.dataNascimento.Some? ==> d.dataNascimento.value == f.dataNascimento + IsoSeconds
    ensures d.nome == f.nome && d.sexo == f.sexo && d.contacto == f.contacto
    ensures d.localizacao == f.localizacao && d.idLocal == f.idLocal && d.senha == f.senha
  {
    Dados(f.nome, if f.dataNascimento != "" then Some(f.dataNascimento + IsoSeconds) else None,
          f.sexo, f.contacto, f.localizacao, f.idLocal, f.senha)
  }

  /** Recovers the form from a payload: the suffix comes off the birth date
      and a null birth date reads as "". */
  function FormDe(d: Dados): (f: Form)
    requires d.dataNascimento.Some? ==> |d.dataNascimento.value| >= |IsoSeconds|
  {
    var dn := match d.dataNascimento
      case None => ""
      case Some(s) => s[..|s| - |IsoSeconds|];
    Form(d.nome, dn, d.sexo, d.contacto, d.localizacao, d.idLocal, d.senha)
  }

  /** Nothing typed into the form is lost in the payload. */
  lemma PayloadRoundTrip(f: Form)
    ensures var d := DadosParaEnviar(f);
            (d.dataNascimento.Some? ==> |d.dataNascimento.value| >= |IsoSeconds|) && FormDe(d) == f
  {
    var d := DadosParaEnviar(f);
    if f.dataNascimento != "" {
      assert d.dataNascimento.value[..|f.dataNascimento|] == f.dataNascimento;
    }
  }

  /** A truthy `editando` id updates that patient; otherwise (none, or id 0)
      a new patient is created. The payload is the same either way. */
  function PedidoDe(editando: Option<int>, f: Form): (p: Pedido)
    ensures p.Atualizar? <==> IdSet(editando)
    ensures p.Atualizar? ==> p.id == editando.value
    ensures p.dados == DadosParaEnviar(f)
  {
    if IdSet(editando) then Atualizar(editando.value, DadosParaEnviar(f)) else Criar(DadosParaEnviar(f))
  }

  /** Clearing: the default form (sexo "M", everything else "") and nothing
      being edited. */
  function Limpar(st: Estado): (st': Estado)
    ensures st'.form.sexo == "M" && st'.form.nome == "" && st'.form.dataNascimento == "" && st'.form.contacto == ""
    ensures st'.form.localizacao == "" && st'.form.idLocal == "" && st'.form.senha == ""
    ensures st'.editando.None?
    ensures st'.busca == st.busca && st'.erro == st.erro && st'.sucesso == st.sucesso
  {
    st.(form := FormVazio, editando := None)
  }

  /** Starting to edit `u`: its fields fill the form, the password is left
      empty, a missing local id becomes "", and the birth date is shown at
      minute precision through `isoMinutes` (host date formatting); a missing
      or empty birth date shows as "". The patient's id becomes `editando`. */
  function Editar(st: Estado, u: Utente, isoMinutes: string -> string): (st': Estado)
    requires u.contacto.Some?
    ensures st'.form.nome == u.nome && st'.form.sexo == u.sexo && st'.form.contacto == u.contacto.value
    ensures st'.form.localizacao == u.localizacao && st'.form.senha == ""
    ensures st'.form.idLocal == u.idLocal.GetOr("")
    ensures u.dataNascimento.None? || u.dataNascimento.value == "" ==> st'.form.dataNascimento == ""
    ensures u.dataNascimento.Some? && u.dataNascimento.value != "" ==>
              st'.form.dataNascimento == isoMinutes(u.dataNascimento.value)
    ensures st'.editando == Some(u.id)
    ensures st'.busca == st.busca && st'.erro == st.erro
  {
    var dn := if u.dataNascimento.Some? && u.dataNascimento.value != "" then isoMinutes(u.dataNascimento.value) else "";
    st.(form := Form(u.nome, dn, u.sexo, u.contacto.value, u.localizacao, u.idLocal.GetOr(""), ""),
        editando := Some(u.id))
  }

  /** Saving right after starting to edit `u` updates `u` (unless its id is 0,
      which the truthiness test reads as "not editing") and resends its own
      fields, with an empty password. */
  lemma EditThenSubmit(st: Estado, u: Utente, isoMinutes: string -> string)
    requires u.contacto.Some?
    ensures var p := PedidoDe(Editar(st, u, isoMinutes).editando, Editar(st, u, isoMinutes).form);
            && (p.Atualizar? <==> u.id != 0)
            && (p.Atualizar? ==> p.id == u.id)
            && p.dados.nome == u.nome && p.dados.contacto == u.contacto.value && p.dados.sexo == u.sexo
            && p.dados.localizacao == u.localizacao && p.dados.idLocal == u.idLocal.GetOr("") && p.dados.senha == ""
  {
  }

  /** After clearing, saving creates a new patient. */
  lemma SubmitAfterClearCreates(st: Estado)
    ensures PedidoDe(Limpar(st).editando, Limpar(st).form).Criar?
  {
  }

  /** Patients listed: the name-or-contact search. */
  function UtentesFiltrados(us: seq<Utente>, busca: string): (r: seq<Utente>)
    requires Search.ContactoReadable(us, busca)
    ensures forall i :: 0 <= i < |r| ==> r[i] in us && Search.NomeOuContactoMatches(r[i], busca)
    ensures forall i :: 0 <= i < |us| && Search.NomeOuContactoMatches(us[i], busca) ==> us[i] in r
    ensures forall u :: multiset(r)[u] == if Search.NomeOuContactoMatches(u, busca) then multiset(us)[u] else 0
  {
    Search.ByNomeOuContacto(us, busca)
  }

  /** The list keeps the server's order: a patient added at the end (with a
      contact, or a matching name) is listed last exactly when it matches. */
  lemma UtentesFiltradosInOrder(us: seq<Utente>, u: Utente, busca: string)
    requires Search.ContactoReadable(us, busca)
    requires Contains(ToLower(u.nome), ToLower(busca)) || u.contacto.Some?
    ensures UtentesFiltrados([], busca) == []
    ensures Search.ContactoReadable(us + [u], busca) &&
            UtentesFiltrados(us + [u], busca) == UtentesFiltrados(us, busca) + (if Search.NomeOuContactoMatches(u, busca) then [u] else [])
  {
    Search.ByNomeOuContactoInOrder(us, u, busca);
  }

  /** The page after saving with the server's answer `outcome`: on success the
      form is cleared with a message that tells update from creation; on
      failure the form and the edited id stay. */
  function AposSalvar(st: Estado, outcome: ApiOutcome): (st': Estado)
    ensures !st'.loading
    ensures outcome.Ok? ==> st'.form == FormVazio && st'.editando.None? && st'.erro == ""
    ensures outcome.Ok? ==> (st'.sucesso == "Utente atualizado!" <==> IdSet(st.editando))
    ensures outcome.Ok? && !IdSet(st.editando) ==> st'.sucesso == "Utente criado!"
    ensures outcome.Failed? ==>
              && st'.form == st.form && st'.editando == st.editando && st'.sucesso == ""
              && st'.erro == ErrorText(outcome.serverError, "Erro na operação")
  {
    var enviando := st.(erro := "", sucesso := "", loading := true);
    match outcome
    case Ok =>
      var msg := if IdSet(st.editando) then "Utente atualizado!" else "Utente criado!";
      Limpar(enviando.(sucesso := msg)).(loading := false)
    case Failed(e) => enviando.(erro := ErrorText(e, "Erro na operação"), loading := false)
  }
}
