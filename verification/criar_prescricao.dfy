/** The physician's prescription page: a role guard, the physician's attended
    appointments of the day, a patient search over them, and the
    prescription form with its submit guard and reset. */
module CriarPrescricao {
  import opened Wrappers
  import opened Strings
  import opened Common
  import opened Records
  import Seqs
  import Routes
  import App

  /** Only the role is checked: any stored user whose role is not "medico"
      (an absent user included) is sent to the login redirect. */
  function Guard(u: Usuario): (g: GuardOutcome)
    ensures g == Proceed <==> u.papel == "medico"
    ensures g.Redirect? ==> g.path == LoginRedirect
  {
    if u.papel != "medico" then Redirect(LoginRedirect) else Proceed
  }

  /** The guard lets in exactly the roles the route table admits to the
      prescriptions page, whatever the user's id; its redirect target is not
      a page of the router. */
  lemma GuardAgreesWithTable(u: Usuario)
    ensures Guard(u) == Proceed <==> App.Reachable(Some(u.papel), "/prescricoes")
    ensures Guard(u).Redirect? ==> App.Resolve(Guard(u).path) == App.NotFound
  {
    Routes.MedicoOnlyPaths(u.papel);
    App.ReachableIffAdmits(u.papel, "/prescricoes");
    App.DanglingPaths();
  }

  predicate Prescritivel(c: Consulta, u: Usuario)
  {
    SameId(c.profissionalId, u.id) && c.realizada
  }

  /** The appointments a prescription can be written for: among the day's,
      exactly the user's own that were attended, in the server's order. */
  function Carregadas(todas: Option<seq<Consulta>>, u: Usuario): (r: seq<Consulta>)
    ensures forall i :: 0 <= i < |r| ==> r[i] in OrEmpty(todas) && SameId(r[i].profissionalId, u.id) && r[i].realizada
    ensures forall i :: 0 <= i < |OrEmpty(todas)| && SameId(OrEmpty(todas)[i].profissionalId, u.id) && OrEmpty(todas)[i].realizada ==>
              OrEmpty(todas)[i] in r
    ensures u.id.None? ==> r == []
    ensures forall c :: multiset(r)[c] == if SameId(c.profissionalId, u.id) && c.realizada then multiset(OrEmpty(todas))[c] else 0
  {
    Seqs.FilterMultiset(OrEmpty(todas), (c: Consulta) => Prescritivel(c, u));
    var r := Seqs.Filter(OrEmpty(todas), (c: Consulta) => Prescritivel(c, u));
    if u.id.None? then
      Seqs.FilterNone(OrEmpty(todas), (c: Consulta) => Prescritivel(c, u));
      r
    else r
  }

  /** The loaded list keeps the server's order: an appointment added at the
      end of the day's list is listed last exactly when it is the user's own
      and attended. */
  lemma CarregadasInOrder(cs: seq<Consulta>, c: Consulta, u: Usuario)
    ensures Carregadas(Some([]), u) == []
    ensures Carregadas(Some(cs + [c]), u) == Carregadas(Some(cs), u) + (if SameId(c.profissionalId, u.id) && c.realizada then [c] else [])
  {
    Seqs.FilterSnoc(cs, c, (d: Consulta) => Prescritivel(d, u));
  }

  predicate NomeCasa(c: Consulta, q: string)
  {
    Contains(ToLower(c.utente.nome), ToLower(q))
  }

  predicate PacienteCasa(c: Consulta, q: string)
  {
    NomeCasa(c, q) || (c.utente.contacto.Some? && Contains(c.utente.contacto.value, q))
  }

  /** The search reads the patient's contact without a null check once the
      name misses, so such patients must have one. */
  predicate ContactoLegivel(cs: seq<Consulta>, q: string)
  {
    forall i :: 0 <= i < |cs| ==> NomeCasa(cs[i], q) || cs[i].utente.contacto.Some?
  }

  /** The search keeps, in order, exactly the appointments whose patient's
      lower-cased name contains the lower-cased query or whose patient's
      contact contains the query. */
  function Filtradas(cs: seq<Consulta>, q: string): (r: seq<Consulta>)
    requires ContactoLegivel(cs, q)
    ensures forall i :: 0 <= i < |r| ==> r[i] in cs && PacienteCasa(r[i], q)
    ensures forall i :: 0 <= i < |cs| && PacienteCasa(cs[i], q) ==> cs[i] in r
    ensures forall c :: multiset(r)[c] == if PacienteCasa(c, q) then multiset(cs)[c] else 0
  {
    Seqs.FilterMultiset(cs, (c: Consulta) => PacienteCasa(c, q));
    Seqs.Filter(cs, (c: Consulta) => PacienteCasa(c, q))
  }

  /** The search keeps the list's order: an appointment added at the end
      (with a contact, or a matching name) is listed last exactly when it
      matches. */
  lemma FiltradasInOrder(cs: seq<Consulta>, c: Consulta, q: string)
    requires ContactoLegivel(cs, q)
    requires NomeCasa(c, q) || c.utente.contacto.Some?
    ensures Filtradas([], q) == []
    ensures ContactoLegivel(cs + [c], q) &&
            Filtradas(cs + [c], q) == Filtradas(cs, q) + (if PacienteCasa(c, q) then [c] else [])
  {
    assert forall i :: 0 <= i < |cs| ==> (cs + [c])[i] == cs[i];
    Seqs.FilterSnoc(cs, c, (d: Consulta) => PacienteCasa(d, q));
  }

  /** The empty query keeps every appointment, whatever the contacts. */
  lemma EmptyQueryKeepsAll(cs: seq<Consulta>)
    ensures ContactoLegivel(cs, "") && Filtradas(cs, "") == cs
  {
    forall c: Consulta { ContainsEmpty(ToLower(c.utente.nome)); }
    Seqs.FilterAll(cs, (c: Consulta) => PacienteCasa(c, ""));
  }

  datatype Form = Form(medicamento: string, dosagem: string, duracao: string, observacoes: string)

  const FormVazio: Form := Form("", "", "", "")

  datatype Estado = Estado(
    consultas: seq<Consulta>,
    busca: string,
    selecionada: Option<Consulta>,
    form: Form,
    loading: bool,
    erro: string,
    sucesso: string)

  /** The request body of a new prescription. */
  datatype Payload = Payload(consultaId: int, medicamento: string, dosagem: string, duracao: string, observacoes: string)

  /** Choosing an appointment selects it and clears the search box. */
  function Selecionar(st: Estado, c: Consulta): (st': Estado)
    ensures st'.selecionada == Some(c) && st'.busca == ""
    ensures st'.form == st.form && st'.consultas == st.consultas && st'.loading == st.loading
  {
    st.(selecionada := Some(c), busca := "")
  }

  /** What submitting sends: nothing without a selected appointment;
      otherwise the appointment's id and the four form fields unchanged. */
  function Enviar(st: Estado): (s: Submission<Payload>)
    ensures s.Rejected? <==> st.selecionada.None?
    ensures s.Rejected? ==> s.erro == "Selecione uma consulta primeiro"
    ensures s.Sent? ==> s.payload == Payload(st.selecionada.value.id, st.form.medicamento, st.form.dosagem,
                                             st.form.duracao, st.form.observacoes)
  {
    match st.selecionada
    case None => Rejected("Selecione uma consulta primeiro")
    case Some(c) => Sent(Payload(c.id, st.form.medicamento, st.form.dosagem, st.form.duracao, st.form.observacoes))
  }

  /** The submit button is enabled only when nothing is in flight and an
      appointment is selected; an enabled button never hits the error path. */
  function BotaoAtivo(st: Estado): (b: bool)
    ensures b ==> Enviar(st).Sent?
    ensures st.loading ==> !b
    ensures Enviar(st).Rejected? ==> !b
  {
    !st.loading && st.selecionada.Some?
  }

  /** The page after a submission with the server's answer `outcome`: without
      a selection only the error is set; after a save the form is empty and
      the selection cleared; after a failed save the form and selection stay. */
  function AposEnviar(st: Estado, outcome: ApiOutcome): (st': Estado)
    ensures st.selecionada.None? ==> st' == st.(erro := "Selecione uma consulta primeiro")
    ensures st.selecionada.Some? ==> !st'.loading && st'.consultas == st.consultas && st'.busca == st.busca
    ensures st.selecionada.Some? && outcome.Ok? ==>
              st'.form == FormVazio && st'.selecionada.None? && st'.erro == "" && st'.sucesso == "Prescrição criada com sucesso!"
    ensures st.selecionada.Some? && outcome.Failed? ==>
              && st'.form == st.form && st'.selecionada == st.selecionada && st'.sucesso == ""
              && st'.erro == ErrorText(outcome.serverError, "Erro ao criar prescrição")
  {
    if st.selecionada.None? then st.(erro := "Selecione uma consulta primeiro")
    else
      var enviando := st.(loading := true, erro := "", sucesso := "");
      match outcome
      case Ok =>
        enviando.(sucesso := "Prescrição criada com sucesso!", form := FormVazio, selecionada := None, loading := false)
      case Failed(e) =>
        enviando.(erro := ErrorText(e, "Erro ao criar prescrição"), loading := false)
  }

  /** Choosing an appointment and submitting sends exactly that appointment's
      id with the form as typed. */
  lemma SelectThenSubmit(st: Estado, c: Consulta)
    ensures Enviar(Selecionar(st, c)) ==
            Sent(Payload(c.id, st.form.medicamento, st.form.dosagem, st.form.duracao, st.form.observacoes))
  {
  }

  /** After a successful prescription the page cannot submit again until a
      new appointment is chosen, and a failed one can be retried as is. */
  lemma NoResubmitAfterSuccess(st: Estado, e: Option<string>)
    requires st.selecionada.Some?
    ensures Enviar(AposEnviar(st, Ok)).Rejected? && !BotaoAtivo(AposEnviar(st, Ok))
    ensures Enviar(AposEnviar(st, Failed(e))) == Enviar(st) && BotaoAtivo(AposEnviar(st, Failed(e)))
  {
  }
}
