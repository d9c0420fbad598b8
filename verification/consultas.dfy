/** The appointment-scheduling page: physician display names, the timestamp
    and payload of a new appointment, the contact search, and the form reset. */
module Consultas {
  import opened Wrappers
  import opened Common
  import opened Records

  /** The index of the first physician with id `id`, if any. */
  function PrimeiroMedico(medicos: seq<Medico>, id: int): (r: Option<nat>)
    ensures r.Some? ==> r.value < |medicos| && medicos[r.value].id == id
    ensures r.Some? ==> forall j :: 0 <= j < r.value ==> medicos[j].id != id
    ensures r.None? ==> forall j :: 0 <= j < |medicos| ==> medicos[j].id != id
  {
    if |medicos| == 0 then None
    else if medicos[0].id == id then Some(0)
    else
      match PrimeiroMedico(medicos[1..], id)
      case None => None
      case Some(k) => Some(k + 1)
  }

  const Automatico: string := "Automático"
  const Alocado: string := "Médico alocado"
  const TituloMedico: string := "Dr(a). "

  /** The physician column of an appointment: "Automático" when no physician
      was chosen (null, absent or 0), the titled name of the first listed
      physician with that id, or "Médico alocado" when none is listed. */
  function NomeMedico(medicos: seq<Medico>, profissionalId: Option<int>): (nome: string)
    ensures !IdSet(profissionalId) ==> nome == Automatico
    ensures IdSet(profissionalId) ==>
              forall i :: 0 <= i < |medicos| && medicos[i].id == profissionalId.value &&
                          (forall j :: 0 <= j < i ==> medicos[j].id != profissionalId.value) ==>
                nome == TituloMedico + medicos[i].nome
    ensures IdSet(profissionalId) && (forall i :: 0 <= i < |medicos| ==> medicos[i].id != profissionalId.value) ==>
              nome == Alocado
  {
    if !IdSet(profissionalId) then Automatico
    else
      match PrimeiroMedico(medicos, profissionalId.value)
      case Some(i) => TituloMedico + medicos[i].nome
      case None => Alocado
  }

  /** The three kinds of physician column can be told apart: "Automático"
      appears exactly when no physician was chosen, and a listed physician
      always shows with the title. */
  lemma NomeMedicoDistinguishes(medicos: seq<Medico>, profissionalId: Option<int>)
    ensures NomeMedico(medicos, profissionalId) == Automatico <==> !IdSet(profissionalId)
    ensures NomeMedico(medicos, profissionalId) == Alocado ==> IdSet(profissionalId)
    ensures NomeMedico(medicos, profissionalId) != Alocado && IdSet(profissionalId) ==>
              |NomeMedico(medicos, profissionalId)| >= |TituloMedico| &&
              NomeMedico(medicos, profissionalId)[..|TituloMedico|] == TituloMedico
  {
    var nome := NomeMedico(medicos, profissionalId);
    if IdSet(profissionalId) {
      match PrimeiroMedico(medicos, profissionalId.value)
      case Some(i) =>
        assert nome[0] == 'D' && Automatico[0] == 'A';
        assert nome[..|TituloMedico|] == TituloMedico;
      case None =>
        assert Alocado[0] == 'M' && Automatico[0] == 'A';
    }
  }

  /** The appointment timestamp: `data + "T" + hora + ":00.000Z"`. */
  function DataHora(data: string, hora: string): (s: string)
    ensures |s| == |data| + 1 + |hora| + |IsoSeconds|
    ensures s[..|data|] == data && s[|data|] == 'T'
  {
    data + "T" + hora + IsoSeconds
  }

  /** The position of the first 'T' in `s`, if any. */
  function PrimeiroT(s: string): (r: Option<nat>)
    ensures r.Some? ==> r.value < |s| && s[r.value] == 'T' && forall j :: 0 <= j < r.value ==> s[j] != 'T'
    ensures r.None? ==> forall j :: 0 <= j < |s| ==> s[j] != 'T'
  {
    if |s| == 0 then None
    else if s[0] == 'T' then Some(0)
    else
      match PrimeiroT(s[1..])
      case None => None
      case Some(k) => Some(k + 1)
  }

  /** Reads a timestamp back into its date and time fields: the date is
      everything before the first 'T', the time what lies between it and the
      trailing ":00.000Z". */
  function SepararDataHora(s: string): (r: Option<(string, string)>)
    ensures r.Some? ==> DataHora(r.value.0, r.value.1) == s
  {
    match PrimeiroT(s)
    case None => None
    case Some(t) =>
      if |s| - t - 1 >= |IsoSeconds| && s[|s| - |IsoSeconds|..] == IsoSeconds then
        var r := (s[..t], s[t + 1..|s| - |IsoSeconds|]);
        assert DataHora(r.0, r.1) == s;
        Some(r)
      else None
  }

  /** A date field without a 'T' (as a date input yields) is recovered
      together with the time field from the timestamp sent. */
  lemma DataHoraRoundTrip(data: string, hora: string)
    requires forall j :: 0 <= j < |data| ==> data[j] != 'T'
    ensures SepararDataHora(DataHora(data, hora)) == Some((data, hora))
  {
    var s := DataHora(data, hora);
    assert s == data + "T" + hora + IsoSeconds;
    assert forall j :: 0 <= j < |data| ==> s[j] == data[j];
    assert PrimeiroT(s) == Some(|data|);
    assert s[|s| - |IsoSeconds|..] == IsoSeconds;
    assert s[..|data|] == data;
    assert s[|data| + 1..|s| - |IsoSeconds|] == hora;
  }

  /** The scheduling form; `profissionalId` is the selected option's text,
      "" for automatic allocation. */
  datatype Form = Form(tipo: string, data: string, hora: string, profissionalId: string)

  const FormInicial: Form := Form("teleconsulta", "", "", "")

  datatype Estado = Estado(
    busca: string,
    selecionado: Option<Utente>,
    triagens: seq<RegistoTriagem>,
    form: Form,
    loading: bool,
    erro: string,
    sucesso: string)

  /** The request body of a new appointment; a null physician asks the server
      to allocate one. */
  datatype Payload = Payload(utenteId: int, profissionalId: Option<string>, tipo: string, data: string)

  /** Choosing a patient selects it, clears the search box and shows the
      patient's triages as the server returned them (none when the request
      failed). */
  function Selecionar(st: Estado, u: Utente, triagensDoUtente: Option<seq<RegistoTriagem>>): (st': Estado)
    ensures st'.selecionado == Some(u) && st'.busca == ""
    ensures triagensDoUtente.None? ==> st'.triagens == []
    ensures triagensDoUtente.Some? ==> st'.triagens == triagensDoUtente.value
    ensures st'.form == st.form && st'.erro == st.erro && st'.sucesso == st.sucesso
  {
    st.(selecionado := Some(u), busca := "", triagens := OrEmpty(triagensDoUtente))
  }

  /** What scheduling sends: nothing without a selected patient; otherwise
      the patient's id, the physician (null when none was chosen), the type,
      and the timestamp built from the date and time fields. */
  function Agendar(st: Estado): (s: Submission<Payload>)
    ensures s.Rejected? <==> st.selecionado.None?
    ensures s.Rejected? ==> s.erro == "Selecione um utente"
    ensures s.Sent? ==> s.payload.utenteId == st.selecionado.value.id && s.payload.tipo == st.form.tipo
    ensures s.Sent? ==> (s.payload.profissionalId.None? <==> st.form.profissionalId == "")
    ensures s.Sent? && s.payload.profissionalId.Some? ==> s.payload.profissionalId.value == st.form.profissionalId
    ensures s.Sent? ==> s.payload.data == DataHora(st.form.data, st.form.hora)
  {
    match st.selecionado
    case None => Rejected("Selecione um utente")
    case Some(u) =>
      Sent(Payload(u.id, EmptyToNull(st.form.profissionalId), st.form.tipo, DataHora(st.form.data, st.form.hora)))
  }

  /** Clearing the form: the initial type with empty fields, no patient and
      no triages. */
  function Limpar(st: Estado): (st': Estado)
    ensures st'.form == Form("teleconsulta", "", "", "") && st'.selecionado.None? && st'.triagens == []
    ensures st'.busca == st.busca && st'.erro == st.erro && st'.sucesso == st.sucesso && st'.loading == st.loading
  {
    st.(form := FormInicial, selecionado := None, triagens := [])
  }

  /** The page after scheduling with the server's answer `outcome`. */
  function AposAgendar(st: Estado, outcome: ApiOutcome): (st': Estado)
    ensures st.selecionado.None? ==> st' == st.(erro := "Selecione um utente")
    ensures st.selecionado.Some? ==> !st'.loading
    ensures st.selecionado.Some? && outcome.Ok? ==>
              st'.form == FormInicial && st'.selecionado.None? && st'.erro == "" && st'.sucesso == "Consulta agendada com sucesso!"
    ensures st.selecionado.Some? && outcome.Failed? ==>
              && st'.form == st.form && st'.selecionado == st.selecionado && st'.sucesso == ""
              && st'.erro == ErrorText(outcome.serverError, "Erro ao agendar")
  {
    if st.selecionado.None? then st.(erro := "Selecione um utente")
    else
      var enviando := st.(loading := true, erro := "", sucesso := "");
      match outcome
      case Ok => Limpar(enviando.(sucesso := "Consulta agendada com sucesso!")).(loading := false)
      case Failed(e) => enviando.(erro := ErrorText(e, "Erro ao agendar"), loading := false)
  }

  /** The timestamp sent for a patient chosen and scheduled reads back as the
      date and time typed, provided the date has no 'T'. */
  lemma ScheduledTimestampRoundTrip(st: Estado)
    requires st.selecionado.Some?
    requires forall j :: 0 <= j < |st.form.data| ==> st.form.data[j] != 'T'
    ensures Agendar(st).Sent? && SepararDataHora(Agendar(st).payload.data) == Some((st.form.data, st.form.hora))
  {
    DataHoraRoundTrip(st.form.data, st.form.hora);
  }

  /** After a successful booking a new one needs a new patient. */
  lemma NoRebookAfterSuccess(st: Estado)
    requires st.selecionado.Some?
    ensures Agendar(AposAgendar(st, Ok)).Rejected?
  {
  }
}
