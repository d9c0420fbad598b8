/** The dashboard of nurses and community agents: a role guard, the day's
    triages visible to the user with three counters, the day's readings, and
    quick links. A nurse sees everyone's entries; an agent only their own. */
module DashboardProfissional {
  import opened Wrappers
  import opened Common
  import opened Records
  import Seqs
  import Roles
  import Routes
  import App

  const PapeisValidos: seq<string> := ["agente", "enfermeiro"]

  /** Without an id, or with a role other than agent or nurse, the page leaves
      for the login redirect. */
  function Guard(u: Usuario): (g: GuardOutcome)
    ensures g == Proceed <==> IdSet(u.id) && (u.papel == "agente" || u.papel == "enfermeiro")
    ensures g.Redirect? ==> g.path == LoginRedirect
  {
    if !IdSet(u.id) || u.papel !in PapeisValidos then Redirect(LoginRedirect) else Proceed
  }

  /** For a user with an id, the guard lets in exactly the roles the route
      table admits to this page. */
  lemma GuardAgreesWithTable(u: Usuario)
    requires IdSet(u.id)
    ensures Guard(u) == Proceed <==> App.Reachable(Some(u.papel), "/dashboard/profissional")
  {
    Routes.ProfissionalPaths(u.papel);
    App.ReachableIffAdmits(u.papel, "/dashboard/profissional");
  }

  /** An entry is visible to a nurse always, and to anyone else only if they entered it. */
  predicate Visivel(inseridoPor: Option<int>, u: Usuario)
  {
    SameId(inseridoPor, u.id) || u.papel == "enfermeiro"
  }

  predicate TriagemVisivel(t: RegistoTriagem, u: Usuario)
  {
    Visivel(t.inseridoPor, u)
  }

  /** The day's triages visible to the user, in the server's order; a
      response that is not a list counts as none. */
  function MinhasTriagens(resposta: Option<seq<RegistoTriagem>>, u: Usuario): (r: seq<RegistoTriagem>)
    ensures forall i :: 0 <= i < |r| ==> r[i] in OrEmpty(resposta) && Visivel(r[i].inseridoPor, u)
    ensures forall i :: 0 <= i < |OrEmpty(resposta)| && Visivel(OrEmpty(resposta)[i].inseridoPor, u) ==> OrEmpty(resposta)[i] in r
    ensures resposta.None? ==> r == []
    ensures forall t :: multiset(r)[t] == if Visivel(t.inseridoPor, u) then multiset(OrEmpty(resposta))[t] else 0
  {
    Seqs.FilterMultiset(OrEmpty(resposta), (t: RegistoTriagem) => TriagemVisivel(t, u));
    Seqs.Filter(OrEmpty(resposta), (t: RegistoTriagem) => TriagemVisivel(t, u))
  }

  /** The visible list keeps the server's order: a triage added at the end of
      the day's list is listed last exactly when it is visible to the user. */
  lemma MinhasTriagensInOrder(ts: seq<RegistoTriagem>, t: RegistoTriagem, u: Usuario)
    ensures MinhasTriagens(Some([]), u) == []
    ensures MinhasTriagens(Some(ts + [t]), u) == MinhasTriagens(Some(ts), u) + (if Visivel(t.inseridoPor, u) then [t] else [])
  {
    Seqs.FilterSnoc(ts, t, (x: RegistoTriagem) => TriagemVisivel(x, u));
  }

  /** A nurse sees every triage of the day. */
  lemma NurseSeesAll(ts: seq<RegistoTriagem>, u: Usuario)
    requires u.papel == "enfermeiro"
    ensures MinhasTriagens(Some(ts), u) == ts
  {
    Seqs.FilterAll(ts, (t: RegistoTriagem) => TriagemVisivel(t, u));
  }

  predicate Urgente(t: RegistoTriagem)
  {
    t.resultado == "URGÊNCIA"
  }

  function UtenteDe(t: RegistoTriagem): int
  {
    t.utenteId
  }

  datatype Stats = Stats(triagensHoje: nat, pacientesAtendidos: nat, urgencias: nat)

  lemma PatientKeys(ts: seq<RegistoTriagem>)
    ensures Seqs.Image(ts, UtenteDe) == set t | t in ts :: t.utenteId
  {
    Seqs.ImageIsKeys(ts, UtenteDe);
  }

  lemma UrgentPositions(ts: seq<RegistoTriagem>)
    ensures Seqs.Positions(ts, Urgente) == set i | 0 <= i < |ts| && ts[i].resultado == "URGÊNCIA"
  {
  }

  /** The counters: the visible triages, the distinct patients they are
      about, and the urgent ones. Neither of the last two exceeds the first,
      and any triage means at least one patient. */
  function Contar(minhas: seq<RegistoTriagem>): (s: Stats)
    ensures s.triagensHoje == |minhas|
    ensures s.pacientesAtendidos == |set t | t in minhas :: t.utenteId|
    ensures s.urgencias == |set i | 0 <= i < |minhas| && minhas[i].resultado == "URGÊNCIA"|
    ensures s.urgencias <= s.triagensHoje && s.pacientesAtendidos <= s.triagensHoje
    ensures s.triagensHoje > 0 ==> s.pacientesAtendidos > 0
  {
    PatientKeys(minhas);
    Seqs.CountPositions(minhas, Urgente);
    UrgentPositions(minhas);
    Stats(|minhas|, |Seqs.Image(minhas, UtenteDe)|, Seqs.Count(minhas, Urgente))
  }

  predicate LeituraVisivel(l: Leitura, u: Usuario, hoje: string -> bool)
  {
    hoje(l.data) && Visivel(l.inseridoPor, u)
  }

  /** The readings shown: at most five of the readings dated today (the date
      test `hoje` stands for the page's day comparison) and visible to the user. */
  function MinhasLeituras(resposta: Option<seq<Leitura>>, u: Usuario, hoje: string -> bool): (r: seq<Leitura>)
    ensures |r| <= 5
    ensures forall i :: 0 <= i < |r| ==> r[i] in OrEmpty(resposta) && hoje(r[i].data) && Visivel(r[i].inseridoPor, u)
    ensures var all := Seqs.Filter(OrEmpty(resposta), (l: Leitura) => LeituraVisivel(l, u, hoje));
            |r| == (if |all| < 5 then |all| else 5) && forall i :: 0 <= i < |r| ==> r[i] == all[i]
  {
    Seqs.Take(Seqs.Filter(OrEmpty(resposta), (l: Leitura) => LeituraVisivel(l, u, hoje)), 5)
  }

  /** The triage list shows the first five visible triages. */
  function TriagensMostradas(minhas: seq<RegistoTriagem>): (r: seq<RegistoTriagem>)
    ensures |r| == if |minhas| < 5 then |minhas| else 5
    ensures forall i :: 0 <= i < |r| ==> r[i] == minhas[i]
  {
    Seqs.Take(minhas, 5)
  }

  /** The page's lists and counters. */
  datatype Painel = Painel(triagensHoje: seq<RegistoTriagem>, leiturasHoje: seq<Leitura>, stats: Stats)

  const PainelInicial: Painel := Painel([], [], Stats(0, 0, 0))

  /** The readings step completes: the request answered with a list or a
      falsy body (which `|| []` turns into the empty list; any other body has
      no `filter` and throws), and every reading's date converts
      (`new Date(l.data).toISOString()` throws on an invalid date, and the
      day test runs on every reading before the visibility test). */
  predicate LeiturasLegiveis(rl: Resposta<Leitura>, dataValida: string -> bool)
  {
    rl.Recebida? && !rl.corpo.OutroValor?
    && forall i :: 0 <= i < |OrEmpty(ListaDe(rl.corpo))| ==> dataValida(OrEmpty(ListaDe(rl.corpo))[i].data)
  }

  /** The dashboard after its load, one `try` block: the triage list is set
      as soon as the triages arrive (a body that is not a list counts as
      none, by `Array.isArray`), but the readings and the counters only once
      the readings step completes; a throw at any point leaves the rest at
      its initial value. */
  function Carregar(rt: Resposta<RegistoTriagem>, rl: Resposta<Leitura>, u: Usuario,
                    hoje: string -> bool, dataValida: string -> bool): (p: Painel)
    ensures rt.Falhou? ==> p == PainelInicial
    ensures rt.Recebida? ==> p.triagensHoje == MinhasTriagens(ListaDe(rt.corpo), u)
    ensures rt.Recebida? && LeiturasLegiveis(rl, dataValida) ==>
              p.leiturasHoje == MinhasLeituras(ListaDe(rl.corpo), u, hoje) && p.stats == Contar(p.triagensHoje)
    ensures rt.Recebida? && !LeiturasLegiveis(rl, dataValida) ==>
              p.leiturasHoje == [] && p.stats == PainelInicial.stats
    ensures rl.Recebida? && rl.corpo.OutroValor? ==> p.stats == PainelInicial.stats
  {
    match rt
    case Falhou => PainelInicial
    case Recebida(corpo) =>
      var minhas := MinhasTriagens(ListaDe(corpo), u);
      if LeiturasLegiveis(rl, dataValida) then
        Painel(minhas, MinhasLeituras(ListaDe(rl.corpo), u, hoje), Contar(minhas))
      else
        PainelInicial.(triagensHoje := minhas)
  }

  /** When the triages arrive but the readings step throws, the page lists
      triages while its triage counter still reads 0. */
  lemma CountersLagWhenReadingsFail(rt: Resposta<RegistoTriagem>, rl: Resposta<Leitura>, u: Usuario,
                                    hoje: string -> bool, dataValida: string -> bool)
    requires rt.Recebida? && |MinhasTriagens(ListaDe(rt.corpo), u)| > 0
    requires !LeiturasLegiveis(rl, dataValida)
    ensures var p := Carregar(rt, rl, u, hoje, dataValida);
            |p.triagensHoje| > 0 && p.stats.triagensHoje == 0
  {
  }

  /** When both steps complete, the counters agree with the list shown. */
  lemma CountersMatchListWhenLoaded(rt: Resposta<RegistoTriagem>, rl: Resposta<Leitura>, u: Usuario,
                                    hoje: string -> bool, dataValida: string -> bool)
    requires rt.Recebida? && LeiturasLegiveis(rl, dataValida)
    ensures var p := Carregar(rt, rl, u, hoje, dataValida);
            p.stats.triagensHoje == |p.triagensHoje| && p.stats.urgencias <= |p.triagensHoje|
  {
  }

  /** A falsy readings body reads as no readings, so the step completes and
      the counters are set; a body that is some other non-list value throws
      and they stay at 0. */
  lemma FalsyReadingsComplete(rt: Resposta<RegistoTriagem>, u: Usuario,
                              hoje: string -> bool, dataValida: string -> bool)
    requires rt.Recebida?
    ensures var p := Carregar(rt, Recebida(Falsy), u, hoje, dataValida);
            p.leiturasHoje == [] && p.stats == Contar(p.triagensHoje)
    ensures var p := Carregar(rt, Recebida(OutroValor), u, hoje, dataValida);
            p.leiturasHoje == [] && p.stats == Stats(0, 0, 0)
  {
  }

  const AtalhosRapidos: seq<string> := ["/utentes/criar", "/triagens", "/leituras-clinicas", "/consultas"]

  /** The "new patient" quick link points at a path the router does not know. */
  lemma NewPatientLinkDangles()
    ensures AtalhosRapidos[0] == "/utentes/criar" && App.Resolve(AtalhosRapidos[0]) == App.NotFound
  {
    App.DanglingPaths();
  }

  /** The other three quick links lead to pages both nurse and agent can reach. */
  lemma QuickLinkReachable(papel: string, k: nat)
    requires papel in PapeisValidos && 1 <= k < |AtalhosRapidos|
    ensures App.Reachable(Some(papel), AtalhosRapidos[k])
  {
    assert Roles.IsRoleTag(papel) by {
      if papel == "agente" { Roles.ParseTag(Roles.Agente); } else { Roles.ParseTag(Roles.Enfermeiro); }
    }
    if k == 1 {
      SharedReachable(papel, "/triagens");
    } else if k == 2 {
      SharedReachable(papel, "/leituras-clinicas");
    } else {
      SharedReachable(papel, "/consultas");
    }
  }

  lemma SharedReachable(papel: string, p: string)
    requires Roles.IsRoleTag(papel)
    requires p == "/triagens" || p == "/leituras-clinicas" || p == "/consultas"
    ensures App.Reachable(Some(papel), p)
  {
    Routes.SharedPaths(papel);
    assert p != "/" by { assert |p| > 1; }
    App.ReachableIffAdmits(papel, p);
  }
}
