/** The physician's dashboard: a role guard, the physician's own appointments
    of the day with three counters, the day's critical triages, and the
    "mark as attended" action. */
module DashboardMedico {
  import opened Wrappers
  import opened Common
  import opened Records
  import Seqs
  import Routes
  import App
  import Triagem

  /** Without an id, or with a role other than "medico", the page leaves for
      the login redirect before loading anything. */
  function Guard(u: Usuario): (g: GuardOutcome)
    ensures g == Proceed <==> IdSet(u.id) && u.papel == "medico"
    ensures g.Redirect? ==> g.path == LoginRedirect
  {
    if !IdSet(u.id) || u.papel != "medico" then Redirect(LoginRedirect) else Proceed
  }

  /** For a user with an id, the page guard lets in exactly the roles the
      route table admits to this page; the redirect target itself is not a
      page of the router. */
  lemma GuardAgreesWithTable(u: Usuario)
    requires IdSet(u.id)
    ensures Guard(u) == Proceed <==> App.Reachable(Some(u.papel), "/dashboard/medico")
    ensures Guard(u).Redirect? ==> App.Resolve(Guard(u).path) == App.NotFound
  {
    Routes.MedicoOnlyPaths(u.papel);
    App.ReachableIffAdmits(u.papel, "/dashboard/medico");
    App.DanglingPaths();
  }

  predicate DaMedica(c: Consulta, u: Usuario)
  {
    SameId(c.profissionalId, u.id)
  }

  /** The physician's own appointments among the day's: exactly those whose
      physician id is the user's, in the server's order. */
  function MinhasConsultas(todas: Option<seq<Consulta>>, u: Usuario): (r: seq<Consulta>)
    ensures forall i :: 0 <= i < |r| ==> r[i] in OrEmpty(todas) && SameId(r[i].profissionalId, u.id)
    ensures forall i :: 0 <= i < |OrEmpty(todas)| && SameId(OrEmpty(todas)[i].profissionalId, u.id) ==> OrEmpty(todas)[i] in r
    ensures todas.None? ==> r == []
    ensures forall c :: multiset(r)[c] == if SameId(c.profissionalId, u.id) then multiset(OrEmpty(todas))[c] else 0
  {
    Seqs.FilterMultiset(OrEmpty(todas), (c: Consulta) => DaMedica(c, u));
    Seqs.Filter(OrEmpty(todas), (c: Consulta) => DaMedica(c, u))
  }

  /** The physician's list keeps the server's order: an appointment added at
      the end of the day's list is listed last exactly when it is the
      physician's. */
  lemma MinhasConsultasInOrder(cs: seq<Consulta>, c: Consulta, u: Usuario)
    ensures MinhasConsultas(Some([]), u) == []
    ensures MinhasConsultas(Some(cs + [c]), u) == MinhasConsultas(Some(cs), u) + (if SameId(c.profissionalId, u.id) then [c] else [])
  {
    Seqs.FilterSnoc(cs, c, (d: Consulta) => DaMedica(d, u));
  }

  predicate Pendente(c: Consulta)
  {
    !c.realizada
  }

  predicate Realizada(c: Consulta)
  {
    c.realizada
  }

  lemma PositionsByState(cs: seq<Consulta>)
    ensures Seqs.Positions(cs, Pendente) == set i | 0 <= i < |cs| && !cs[i].realizada
    ensures Seqs.Positions(cs, Realizada) == set i | 0 <= i < |cs| && cs[i].realizada
  {
  }

  datatype Stats = Stats(consultasHoje: int, consultasPendentes: int, pacientesAtendidos: int)

  /** The three counters, computed from a list of appointments: all of them,
      the pending ones and the attended ones; the last two add up to the first. */
  function Contar(cs: seq<Consulta>): (s: Stats)
    ensures s.consultasHoje == |cs|
    ensures s.consultasPendentes == |set i | 0 <= i < |cs| && !cs[i].realizada|
    ensures s.pacientesAtendidos == |set i | 0 <= i < |cs| && cs[i].realizada|
    ensures s.consultasPendentes + s.pacientesAtendidos == s.consultasHoje
  {
    Seqs.FilterPartition(cs, Pendente, Realizada);
    Seqs.CountPositions(cs, Pendente);
    Seqs.CountPositions(cs, Realizada);
    PositionsByState(cs);
    Stats(|cs|, Seqs.Count(cs, Pendente), Seqs.Count(cs, Realizada))
  }

  /** The result labels the dashboard treats as critical. */
  const Criticos: seq<string> := ["ATENÇÃO", "URGÊNCIA"]

  predicate Critica(t: RegistoTriagem)
  {
    t.resultado in Criticos
  }

  /** The critical triages shown: the first five of the day's triages whose
      result is "ATENÇÃO" or "URGÊNCIA", in the server's order. */
  function Criticas(triagens: Option<seq<RegistoTriagem>>): (r: seq<RegistoTriagem>)
    ensures |r| <= 5
    ensures forall i :: 0 <= i < |r| ==> r[i] in OrEmpty(triagens) && r[i].resultado in Criticos
    ensures var all := Seqs.Filter(OrEmpty(triagens), Critica);
            |r| == (if |all| < 5 then |all| else 5) && forall i :: 0 <= i < |r| ==> r[i] == all[i]
  {
    Seqs.Take(Seqs.Filter(OrEmpty(triagens), Critica), 5)
  }

  /** None of the labels the triage page stores is one of the critical labels,
      so triages saved from that page never reach this list. */
  lemma ScorerLabelsNeverCritical(t: Triagem.Tier)
    ensures Triagem.Label(t) !in Criticos
  {
  }

  /** The answer to the appointments request, whose list is read as
      `data.consultas || []`: the request threw, or `data` came back null or
      undefined (reading `consultas` from it throws), or `data` is a value
      whose `consultas` field is `campo` (a missing field is falsy). */
  datatype RespostaConsultas = FalhouConsultas | DadosNulos | ComConsultas(campo: Corpo<Consulta>)

  /** The appointments step completes: its answer holds a list or a falsy
      field; any other value has no `filter` and throws. */
  predicate ConsultasLegiveis(rc: RespostaConsultas)
  {
    rc.ComConsultas? && !rc.campo.OutroValor?
  }

  /** The triage step completes: the answer is a list or falsy (`|| []`). */
  predicate TriagensLegiveis(rt: Resposta<RegistoTriagem>)
  {
    rt.Recebida? && !rt.corpo.OutroValor?
  }

  /** The page's appointments, counters and critical triages. */
  datatype Carga = Carga(consultasHoje: seq<Consulta>, stats: Stats, triagensPendentes: seq<RegistoTriagem>)

  const CargaInicial: Carga := Carga([], Stats(0, 0, 0), [])

  /** The dashboard after its load, one `try` block run in order: the
      appointments and their counters are set once the appointments step
      completes, and only then is the triage request made, whose critical
      list is set once that step completes; a throw leaves everything not
      yet set at its initial value. */
  function Carregar(rc: RespostaConsultas, rt: Resposta<RegistoTriagem>, u: Usuario): (c: Carga)
    ensures !ConsultasLegiveis(rc) ==> c == CargaInicial
    ensures ConsultasLegiveis(rc) ==>
              c.consultasHoje == MinhasConsultas(ListaDe(rc.campo), u) && c.stats == Contar(c.consultasHoje)
    ensures ConsultasLegiveis(rc) && TriagensLegiveis(rt) ==> c.triagensPendentes == Criticas(ListaDe(rt.corpo))
    ensures !TriagensLegiveis(rt) ==> c.triagensPendentes == []
  {
    if !ConsultasLegiveis(rc) then CargaInicial
    else
      var minhas := MinhasConsultas(ListaDe(rc.campo), u);
      var criticas := if TriagensLegiveis(rt) then Criticas(ListaDe(rt.corpo)) else [];
      Carga(minhas, Contar(minhas), criticas)
  }

  /** The critical list depends on the appointments step: when it throws,
      no critical triage is shown, however many the triage answer holds. */
  lemma CriticasWaitForAppointments(rc: RespostaConsultas, ts: seq<RegistoTriagem>, u: Usuario)
    requires !ConsultasLegiveis(rc)
    requires |Criticas(Some(ts))| > 0
    ensures Carregar(rc, Recebida(Lista(ts)), u).triagensPendentes == []
    ensures Carregar(ComConsultas(Falsy), Recebida(Lista(ts)), u).triagensPendentes == Criticas(Some(ts))
  {
    assert ConsultasLegiveis(ComConsultas(Falsy));
    assert TriagensLegiveis(Recebida(Lista(ts)));
  }

  /** Once the appointments step completes the counters agree with the
      list shown, whatever the triage answer. */
  lemma LoadedCountersMatchList(rc: RespostaConsultas, rt: Resposta<RegistoTriagem>, u: Usuario)
    requires ConsultasLegiveis(rc)
    ensures var c := Carregar(rc, rt, u);
            c.stats.consultasHoje == |c.consultasHoje|
            && c.stats.consultasPendentes + c.stats.pacientesAtendidos == |c.consultasHoje|
  {
  }

  /** Marking appointment `id` as attended in the displayed list. */
  function Marcar(cs: seq<Consulta>, id: int): (r: seq<Consulta>)
    ensures |r| == |cs|
    ensures forall i :: 0 <= i < |cs| && cs[i].id != id ==> r[i] == cs[i]
    ensures forall i :: 0 <= i < |cs| && cs[i].id == id ==> r[i] == cs[i].(realizada := true)
  {
    seq(|cs|, i requires 0 <= i < |cs| => if cs[i].id == id then cs[i].(realizada := true) else cs[i])
  }

  /** The counter update the action performs, without recounting. */
  function Ajustar(s: Stats): (r: Stats)
    ensures r.consultasHoje == s.consultasHoje
    ensures r.pacientesAtendidos == s.pacientesAtendidos + 1 && r.consultasPendentes == s.consultasPendentes - 1
  {
    Stats(s.consultasHoje, s.consultasPendentes - 1, s.pacientesAtendidos + 1)
  }

  /** When `id` names exactly one appointment and it is still pending, as the
      page guarantees by offering the button only on pending appointments, the
      adjusted counters equal a recount of the updated list. */
  lemma {:induction false} AjustarMatchesRecount(cs: seq<Consulta>, id: int, k: int)
    requires 0 <= k < |cs| && cs[k].id == id && !cs[k].realizada
    requires forall i :: 0 <= i < |cs| && i != k ==> cs[i].id != id
    ensures Contar(Marcar(cs, id)) == Ajustar(Contar(cs))
  {
    var m := Marcar(cs, id);
    MarcarAddsOneAttended(cs, id, k);
    Seqs.FilterPartition(cs, Pendente, Realizada);
    Seqs.FilterPartition(m, Pendente, Realizada);
    assert Contar(m) == Stats(|m|, Seqs.Count(m, Pendente), Seqs.Count(m, Realizada));
    assert Contar(cs) == Stats(|cs|, Seqs.Count(cs, Pendente), Seqs.Count(cs, Realizada));
  }

  /** Marking the one pending appointment `k` adds exactly one attended appointment. */
  lemma MarcarAddsOneAttended(cs: seq<Consulta>, id: int, k: int)
    requires 0 <= k < |cs| && cs[k].id == id && !cs[k].realizada
    requires forall i :: 0 <= i < |cs| && i != k ==> cs[i].id != id
    ensures |Marcar(cs, id)| == |cs|
    ensures |Seqs.Filter(Marcar(cs, id), Realizada)| == |Seqs.Filter(cs, Realizada)| + 1
  {
    var m := Marcar(cs, id);
    assert m[..k] == cs[..k];
    assert m[k + 1..] == cs[k + 1..];
    Seqs.CountAround(cs, k, Realizada);
    Seqs.CountAround(m, k, Realizada);
  }

  /** Marking an appointment that is already attended changes no recount,
      yet the counter update still moves one appointment from pending to
      attended: the two disagree, which is why the button is hidden there. */
  lemma AjustarOnAttendedDrifts(cs: seq<Consulta>, id: int, k: int)
    requires 0 <= k < |cs| && cs[k].id == id && cs[k].realizada
    requires forall i :: 0 <= i < |cs| && i != k ==> cs[i].id != id
    ensures Marcar(cs, id) == cs
    ensures Contar(Marcar(cs, id)) != Ajustar(Contar(cs))
  {
    assert Marcar(cs, id) == cs;
  }

  /** What the page holds after the action: the list, the counters, and the
      alert it showed, if any. */
  datatype Painel = Painel(consultas: seq<Consulta>, stats: Stats, alerta: Option<string>)

  const ErroMarcar: string := "Erro ao marcar consulta"

  /** `marcarComoRealizada`: once the server accepts the mark, the list is
      marked and the counters adjusted; when the request fails the page
      alerts and keeps both the list and the counters. */
  function MarcarComoRealizada(cs: seq<Consulta>, s: Stats, id: int, outcome: ApiOutcome): (p: Painel)
    ensures outcome.Ok? ==> p.consultas == Marcar(cs, id) && p.stats == Ajustar(s) && p.alerta.None?
    ensures outcome.Failed? ==> p.consultas == cs && p.stats == s && p.alerta == Some(ErroMarcar)
  {
    match outcome
    case Ok => Painel(Marcar(cs, id), Ajustar(s), None)
    case Failed(_) => Painel(cs, s, Some(ErroMarcar))
  }

  /** Whatever the server answers, counters that agreed with the list before
      the action on a unique pending appointment agree with it afterwards. */
  lemma MarcarComoRealizadaKeepsRecount(cs: seq<Consulta>, id: int, k: int, outcome: ApiOutcome)
    requires 0 <= k < |cs| && cs[k].id == id && !cs[k].realizada
    requires forall i :: 0 <= i < |cs| && i != k ==> cs[i].id != id
    ensures var p := MarcarComoRealizada(cs, Contar(cs), id, outcome);
            p.stats == Contar(p.consultas)
  {
    if outcome.Ok? {
      AjustarMatchesRecount(cs, id, k);
    }
  }
}
