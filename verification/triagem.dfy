/** The clinical triage page: six symptom answers are scored against a fixed
    point table, the total is classified into one of four tiers by first-match
    thresholds, and the tier label and recommendation are sent to the server
    together with the answers. */
module Triagem {
  import opened Wrappers
  import opened Strings
  import opened Common
  import opened Records

  datatype Symptom = Febre | Tosse | DorGarganta | FaltaAr | Fadiga | DorCorpo

  /** The answers as the form holds them: free strings, "" before any choice
      and "nao" for the explicit negative option. */
  datatype Respostas = Respostas(
    febre: string,
    tosse: string,
    dorGarganta: string,
    faltaAr: string,
    fadiga: string,
    dorCorpo: string)

  /** The order in which the scorer examines the symptoms. */
  function Index(s: Symptom): nat
  {
    match s
    case Febre => 0
    case Tosse => 1
    case DorGarganta => 2
    case FaltaAr => 3
    case Fadiga => 4
    case DorCorpo => 5
  }

  function SymptomAt(k: nat): (s: Symptom)
    requires k < 6
    ensures Index(s) == k
  {
    [Febre, Tosse, DorGarganta, FaltaAr, Fadiga, DorCorpo][k]
  }

  function Answer(r: Respostas, s: Symptom): string
  {
    match s
    case Febre => r.febre
    case Tosse => r.tosse
    case DorGarganta => r.dorGarganta
    case FaltaAr => r.faltaAr
    case Fadiga => r.fadiga
    case DorCorpo => r.dorCorpo
  }

  /** The point table: the only (symptom, answer) pairs that score anything. */
  const PointTable: map<(Symptom, string), nat> := map[
    (Febre, "alta") := 3, (Febre, "moderada") := 2, (Febre, "baixa") := 1,
    (Tosse, "frequente") := 2, (Tosse, "ocasional") := 1,
    (DorGarganta, "sim") := 1,
    (FaltaAr, "sim") := 3,
    (Fadiga, "sim") := 1,
    (DorCorpo, "sim") := 1
  ]

  function TablePoints(s: Symptom, a: string): nat
  {
    if (s, a) in PointTable then PointTable[(s, a)] else 0
  }

  /** The score the table assigns to a whole answer set. */
  function ReferenceScore(r: Respostas): nat
  {
    TablePoints(Febre, r.febre) + TablePoints(Tosse, r.tosse) + TablePoints(DorGarganta, r.dorGarganta)
    + TablePoints(FaltaAr, r.faltaAr) + TablePoints(Fadiga, r.fadiga) + TablePoints(DorCorpo, r.dorCorpo)
  }

  /** What one symptom adds: points, and possibly a line for the detail list. */
  datatype Contribution = Contribution(points: nat, detail: Option<string>)

  /** One symptom's branch of the scorer. */
  function Contribute(s: Symptom, a: string): Contribution
  {
    match s
    case Febre =>
      if a == "alta" then Contribution(3, Some("Febre alta"))
      else if a == "moderada" then Contribution(2, Some("Febre moderada"))
      else if a == "baixa" then Contribution(1, Some("Febre baixa"))
      else Contribution(0, None)
    case Tosse =>
      if a == "frequente" then Contribution(2, Some("Tosse frequente"))
      else if a == "ocasional" then Contribution(1, None)
      else Contribution(0, None)
    case DorGarganta =>
      if a == "sim" then Contribution(1, Some("Dor de garganta")) else Contribution(0, None)
    case FaltaAr =>
      if a == "sim" then Contribution(3, Some("Falta de ar")) else Contribution(0, None)
    case Fadiga =>
      if a == "sim" then Contribution(1, Some("Fadiga")) else Contribution(0, None)
    case DorCorpo =>
      if a == "sim" then Contribution(1, Some("Dor no corpo")) else Contribution(0, None)
  }

  /** Each branch scores exactly what the table says, adds a detail line only
      when it scores (an occasional cough scores without one), and that line
      names its own symptom. */
  lemma ContributeAgreesWithTable(s: Symptom, a: string)
    ensures Contribute(s, a).points == TablePoints(s, a)
    ensures Contribute(s, a).detail.Some? <==> (TablePoints(s, a) > 0 && !(s == Tosse && a == "ocasional"))
  {
  }

  /** Any answer outside the recognised values, including "" and "nao", adds nothing. */
  lemma UnrecognisedAnswerScoresNothing(s: Symptom, a: string)
    requires (s, a) !in PointTable
    ensures Contribute(s, a) == Contribution(0, None)
  {
  }

  /** The most one symptom can add. */
  function MaxPoints(s: Symptom): nat
  {
    match s
    case Febre => 3
    case Tosse => 2
    case DorGarganta => 1
    case FaltaAr => 3
    case Fadiga => 1
    case DorCorpo => 1
  }

  lemma ContributeBound(s: Symptom, a: string)
    ensures Contribute(s, a).points <= MaxPoints(s)
  {
  }

  /** Running total and detail list; `sintomas[i]` is the symptom the line
      `detalhes[i]` was written for. */
  datatype Tally = Tally(pontos: nat, detalhes: seq<string>, sintomas: seq<Symptom>)

  /** One symptom's block of the scorer: add its points and push its line, if
      it writes one. */
  function Step(t: Tally, r: Respostas, s: Symptom): Tally
  {
    var c := Contribute(s, Answer(r, s));
    if c.detail.Some? then Tally(t.pontos + c.points, t.detalhes + [c.detail.value], t.sintomas + [s])
    else Tally(t.pontos + c.points, t.detalhes, t.sintomas)
  }

  /** The scorer's six blocks, run in order from an empty tally. */
  function Pass(r: Respostas): Tally
  {
    Step(Step(Step(Step(Step(Step(Tally(0, [], []), r, Febre), r, Tosse), r, DorGarganta), r, FaltaAr), r, Fadiga), r, DorCorpo)
  }

  /** What the tally promises once the blocks before position `k` have run:
      one symptom per line, each line the one its symptom's block writes, the
      symptoms in the fixed order, and every symptom before `k` whose block
      writes a line listed. */
  predicate Listed(t: Tally, r: Respostas, k: nat)
  {
    && |t.sintomas| == |t.detalhes|
    && (forall i :: 0 <= i < |t.sintomas| ==> Index(t.sintomas[i]) < k)
    && (forall i :: 0 <= i < |t.sintomas| ==> Contribute(t.sintomas[i], Answer(r, t.sintomas[i])).detail == Some(t.detalhes[i]))
    && (forall i, j :: 0 <= i < j < |t.sintomas| ==> Index(t.sintomas[i]) < Index(t.sintomas[j]))
    && (forall s: Symptom :: Index(s) < k && Contribute(s, Answer(r, s)).detail.Some? ==> s in t.sintomas)
  }

  /** Each block adds its table points and at most one line. */
  lemma StepAdds(t: Tally, r: Respostas, s: Symptom)
    ensures Step(t, r, s).pontos == t.pontos + TablePoints(s, Answer(r, s))
    ensures |Step(t, r, s).detalhes| <= |t.detalhes| + 1
  {
    ContributeAgreesWithTable(s, Answer(r, s));
  }

  /** Each block keeps the promise one position further. */
  lemma StepKeepsListed(t: Tally, r: Respostas, s: Symptom, k: nat)
    requires Index(s) == k && Listed(t, r, k)
    ensures Listed(Step(t, r, s), r, k + 1)
  {
    var t' := Step(t, r, s);
    var c := Contribute(s, Answer(r, s));
    if c.detail.Some? {
      assert t'.sintomas[|t.sintomas|] == s;
    }
    forall s2: Symptom | Index(s2) < k + 1 && Contribute(s2, Answer(r, s2)).detail.Some?
      ensures s2 in t'.sintomas
    {
      if s2 != s {
        assert s2 in t.sintomas;
      }
    }
  }

  /** After the six blocks every line is accounted for. */
  lemma PassListsLines(r: Respostas)
    ensures Listed(Pass(r), r, 6)
  {
    var t0 := Tally(0, [], []);
    var t1 := Step(t0, r, Febre);
    StepKeepsListed(t0, r, Febre, 0);
    var t2 := Step(t1, r, Tosse);
    StepKeepsListed(t1, r, Tosse, 1);
    var t3 := Step(t2, r, DorGarganta);
    StepKeepsListed(t2, r, DorGarganta, 2);
    var t4 := Step(t3, r, FaltaAr);
    StepKeepsListed(t3, r, FaltaAr, 3);
    var t5 := Step(t4, r, Fadiga);
    StepKeepsListed(t4, r, Fadiga, 4);
    StepKeepsListed(t5, r, DorCorpo, 5);
  }

  /** After the six blocks the total is the table's sum, over at most six lines. */
  lemma PassSumsTable(r: Respostas)
    ensures Pass(r).pontos == ReferenceScore(r)
    ensures |Pass(r).detalhes| <= 6
  {
    var t0 := Tally(0, [], []);
    var t1 := Step(t0, r, Febre);
    StepAdds(t0, r, Febre);
    var t2 := Step(t1, r, Tosse);
    StepAdds(t1, r, Tosse);
    var t3 := Step(t2, r, DorGarganta);
    StepAdds(t2, r, DorGarganta);
    var t4 := Step(t3, r, FaltaAr);
    StepAdds(t3, r, FaltaAr);
    var t5 := Step(t4, r, Fadiga);
    StepAdds(t4, r, Fadiga);
    StepAdds(t5, r, DorCorpo);
  }

  /** No answer set scores more than 11. */
  lemma ReferenceScoreBound(r: Respostas)
    ensures ReferenceScore(r) <= 11
  {
    forall s: Symptom
      ensures TablePoints(s, Answer(r, s)) <= MaxPoints(s)
    {
      ContributeAgreesWithTable(s, Answer(r, s));
      ContributeBound(s, Answer(r, s));
    }
    assert TablePoints(Febre, r.febre) <= 3 && TablePoints(Tosse, r.tosse) <= 2 && TablePoints(DorGarganta, r.dorGarganta) <= 1;
    assert TablePoints(FaltaAr, r.faltaAr) <= 3 && TablePoints(Fadiga, r.fadiga) <= 1 && TablePoints(DorCorpo, r.dorCorpo) <= 1;
  }

  /** The four tiers, mildest first. */
  datatype Tier = SemSintomas | Leve | Moderado | Grave

  function Rank(t: Tier): nat
  {
    match t
    case SemSintomas => 0
    case Leve => 1
    case Moderado => 2
    case Grave => 3
  }

  /** First-match classification, thresholds checked from the top. */
  function Classify(pontos: nat): Tier
  {
    if pontos >= 6 then Grave
    else if pontos >= 3 then Moderado
    else if pontos >= 1 then Leve
    else SemSintomas
  }

  /** The label stored as the triage result. */
  function Label(t: Tier): string
  {
    match t
    case Grave => "Grave"
    case Moderado => "Moderado"
    case Leve => "Leve"
    case SemSintomas => "Sem sintomas"
  }

  function Recomendacao(t: Tier): string
  {
    match t
    case Grave => "Agendar teleconsulta URGENTE com médico"
    case Moderado => "Agendar consulta em até 24h"
    case Leve => "Auto-cuidado e monitoramento"
    case SemSintomas => "Continuar com medidas preventivas"
  }

  const TierLabels: seq<string> := ["Grave", "Moderado", "Leve", "Sem sintomas"]

  /** The scorer's result. */
  datatype Avaliacao = Avaliacao(pontos: nat, tier: Tier, detalhes: seq<string>)

  /** Scores an answer set: the total is the table's sum (so at most 11), the
      tier is the classification of that total, and at most one detail line
      per symptom is listed. */
  function Calcular(r: Respostas): (a: Avaliacao)
    ensures a.pontos == ReferenceScore(r)
    ensures a.pontos <= 11
    ensures a.tier == Classify(a.pontos)
    ensures |a.detalhes| <= 6
  {
    var t := Pass(r);
    PassSumsTable(r);
    ReferenceScoreBound(r);
    Avaliacao(t.pontos, Classify(t.pontos), t.detalhes)
  }

  /** The detail lines are those of the symptoms whose block writes one, in
      the fixed order, one line each. */
  lemma DetailLines(r: Respostas)
    ensures Calcular(r).detalhes == Pass(r).detalhes && Listed(Pass(r), r, 6)
  {
    PassListsLines(r);
  }

  /** The tier thresholds, both ways. */
  lemma ClassifyThresholds(p: nat)
    ensures Classify(p) == Grave <==> p >= 6
    ensures Classify(p) == Moderado <==> 3 <= p < 6
    ensures Classify(p) == Leve <==> 1 <= p < 3
    ensures Classify(p) == SemSintomas <==> p == 0
  {
  }

  /** The label and recommendation attached to each score range. */
  lemma TierOutputs(p: nat)
    ensures p >= 6 ==> Label(Classify(p)) == "Grave" && Recomendacao(Classify(p)) == "Agendar teleconsulta URGENTE com médico"
    ensures 3 <= p < 6 ==> Label(Classify(p)) == "Moderado" && Recomendacao(Classify(p)) == "Agendar consulta em até 24h"
    ensures 1 <= p < 3 ==> Label(Classify(p)) == "Leve" && Recomendacao(Classify(p)) == "Auto-cuidado e monitoramento"
    ensures p == 0 ==> Label(Classify(p)) == "Sem sintomas" && Recomendacao(Classify(p)) == "Continuar com medidas preventivas"
    ensures Label(Classify(p)) in TierLabels
  {
  }

  /** A higher score never gives a milder tier. */
  lemma TierMonotone(p: nat, q: nat)
    requires p <= q
    ensures Rank(Classify(p)) <= Rank(Classify(q))
  {
  }

  /** The detail list is empty exactly when nothing scored except, possibly,
      an occasional cough, so an empty list does not mean a zero score. */
  lemma EmptyDetailsIffOnlyOccasionalCough(r: Respostas)
    ensures Calcular(r).detalhes == [] <==> ReferenceScore(r) == TablePoints(Tosse, r.tosse) && r.tosse != "frequente"
  {
    var t := Pass(r);
    PassListsLines(r);
    PassSumsTable(r);
    forall s: Symptom { ContributeAgreesWithTable(s, Answer(r, s)); }
    if t.detalhes == [] {
      assert t.sintomas == [];
      assert forall s: Symptom :: Contribute(s, Answer(r, s)).detail.None?;
    } else {
      var sym := t.sintomas[0];
      assert Contribute(sym, Answer(r, sym)).detail.Some?;
    }
  }

  /** The text shown on the page: label and total. */
  function Display(a: Avaliacao): string
  {
    Label(a.tier) + " (" + NatToString(a.pontos) + " pontos)"
  }

  /** The stored result is the bare label: a proper prefix of the text shown,
      which also carries the total in decimal. */
  lemma StoredLabelPrefixesDisplay(a: Avaliacao)
    ensures IsPrefix(Label(a.tier), Display(a))
    ensures |Label(a.tier)| < |Display(a)|
    ensures var n := NatToString(a.pontos);
            Display(a)[|Label(a.tier)| + 2..|Label(a.tier)| + 2 + |n|] == n && DigitsValue(n) == a.pontos
  {
    var n := NatToString(a.pontos);
    assert Display(a) == Label(a.tier) + " (" + n + " pontos)";
    assert Display(a)[..|Label(a.tier)|] == Label(a.tier);
    assert Display(a)[|Label(a.tier)| + 2..|Label(a.tier)| + 2 + |n|] == n;
    NatToStringRoundTrip(a.pontos);
  }

  /** The page's state. `resultado` holds the displayed text. */
  datatype Estado = Estado(
    busca: string,
    selecionado: Option<Utente>,
    respostas: Respostas,
    resultado: string,
    recomendacao: string,
    erro: string,
    sucesso: string)

  const RespostasVazias: Respostas := Respostas("", "", "", "", "", "")

  /** The request body sent when a triage is saved. */
  datatype Payload = Payload(utenteId: int, respostas: Respostas, resultado: string, recomendacao: string)

  /** Choosing a patient selects it and clears the search box; nothing else changes. */
  function Selecionar(st: Estado, u: Utente): (st': Estado)
    ensures st'.selecionado == Some(u) && st'.busca == ""
    ensures st'.respostas == st.respostas && st'.resultado == st.resultado && st'.erro == st.erro
  {
    st.(selecionado := Some(u), busca := "")
  }

  /** What submitting sends: nothing without a selected patient; otherwise the
      patient's id, the answers, and the bare tier label and recommendation. */
  function Enviar(st: Estado): (s: Submission<Payload>)
    ensures s.Rejected? <==> st.selecionado.None?
    ensures s.Rejected? ==> s.erro == "Selecione um utente"
    ensures s.Sent? ==> s.payload.utenteId == st.selecionado.value.id && s.payload.respostas == st.respostas
    ensures s.Sent? ==> s.payload.resultado in TierLabels
    ensures s.Sent? ==> s.payload.resultado == Label(Classify(ReferenceScore(st.respostas)))
    ensures s.Sent? ==> s.payload.recomendacao == Recomendacao(Classify(ReferenceScore(st.respostas)))
  {
    match st.selecionado
    case None => Rejected("Selecione um utente")
    case Some(u) =>
      var a := Calcular(st.respostas);
      Sent(Payload(u.id, st.respostas, Label(a.tier), Recomendacao(a.tier)))
  }

  /** Clearing the triage: no selection, every answer back to "", no result
      shown; the search box and messages are left as they were. */
  function Limpar(st: Estado): (st': Estado)
    ensures st'.selecionado.None? && st'.resultado == "" && st'.recomendacao == ""
    ensures forall s: Symptom :: Answer(st'.respostas, s) == ""
    ensures st'.busca == st.busca && st'.erro == st.erro && st'.sucesso == st.sucesso
  {
    st.(selecionado := None, respostas := RespostasVazias, resultado := "", recomendacao := "")
  }

  /** The page after a submission with the server's answer `outcome`: without
      a patient only the error is set; after a save the form is cleared; after
      a failed save the computed result stays on screen with the error. */
  function AposEnviar(st: Estado, outcome: ApiOutcome): (st': Estado)
    ensures st.selecionado.None? ==> st' == st.(erro := "Selecione um utente")
    ensures st.selecionado.Some? && outcome.Ok? ==>
              && st'.selecionado.None? && st'.respostas == RespostasVazias && st'.resultado == ""
              && st'.sucesso == "Triagem salva com sucesso!" && st'.erro == ""
    ensures st.selecionado.Some? && outcome.Failed? ==>
              && st'.respostas == st.respostas && st'.selecionado == st.selecionado && st'.sucesso == ""
              && st'.resultado == Display(Calcular(st.respostas))
              && st'.recomendacao == Recomendacao(Classify(ReferenceScore(st.respostas)))
              && st'.erro == ErrorText(outcome.serverError, "Erro ao salvar triagem")
  {
    if st.selecionado.None? then st.(erro := "Selecione um utente")
    else
      var a := Calcular(st.respostas);
      var shown := st.(erro := "", sucesso := "", resultado := Display(a), recomendacao := Recomendacao(a.tier));
      match outcome
      case Ok => Limpar(shown.(sucesso := "Triagem salva com sucesso!"))
      case Failed(e) =>
        var msg := ErrorText(e, "Erro ao salvar triagem");
        shown.(erro := msg)
  }

  /** "nao" adds nothing, for every symptom. */
  lemma NaoScoresNothing(s: Symptom)
    ensures Contribute(s, "nao") == Contribution(0, None)
  {
    UnrecognisedAnswerScoresNothing(s, "nao");
  }

  /** Shortness of breath alone scores 3, a moderate case. */
  lemma ShortnessOfBreathAlone()
    ensures Calcular(Respostas("nao", "nao", "nao", "sim", "nao", "nao")) == Avaliacao(3, Moderado, ["Falta de ar"])
  {
    var r := Respostas("nao", "nao", "nao", "sim", "nao", "nao");
    forall s: Symptom | s != FaltaAr { NaoScoresNothing(s); }
    assert Contribute(FaltaAr, "sim") == Contribution(3, Some("Falta de ar"));
    assert Pass(r) == Tally(3, ["Falta de ar"], [FaltaAr]);
  }

  /** Every answer at its maximum scores 11, a severe case listing all six symptoms. */
  lemma AllAnswersAtMaximum()
    ensures Calcular(Respostas("alta", "frequente", "sim", "sim", "sim", "sim")) ==
            Avaliacao(11, Grave, ["Febre alta", "Tosse frequente", "Dor de garganta", "Falta de ar", "Fadiga", "Dor no corpo"])
  {
    var r := Respostas("alta", "frequente", "sim", "sim", "sim", "sim");
    assert Contribute(Febre, "alta") == Contribution(3, Some("Febre alta"));
    assert Contribute(Tosse, "frequente") == Contribution(2, Some("Tosse frequente"));
    assert Pass(r).pontos == 11;
  }

  /** An occasional cough alone scores 1 point, a mild case, with no detail line. */
  lemma OccasionalCoughAlone()
    ensures Calcular(Respostas("nao", "ocasional", "nao", "nao", "nao", "nao")) == Avaliacao(1, Leve, [])
  {
    var r := Respostas("nao", "ocasional", "nao", "nao", "nao", "nao");
    forall s: Symptom | s != Tosse { NaoScoresNothing(s); }
    assert Contribute(Tosse, "ocasional") == Contribution(1, None);
    assert Pass(r) == Tally(1, [], []);
  }

  /** Low fever with an occasional cough reaches 2 points: still mild, and
      only the fever is listed. */
  lemma LowFeverOccasionalCough()
    ensures Calcular(Respostas("baixa", "ocasional", "nao", "nao", "nao", "nao")) == Avaliacao(2, Leve, ["Febre baixa"])
  {
    var r := Respostas("baixa", "ocasional", "nao", "nao", "nao", "nao");
    forall s: Symptom | s != Febre && s != Tosse { NaoScoresNothing(s); }
    assert Contribute(Febre, "baixa") == Contribution(1, Some("Febre baixa"));
    assert Contribute(Tosse, "ocasional") == Contribution(1, None);
    assert Pass(r) == Tally(2, ["Febre baixa"], [Febre]);
  }

  /** Moderate fever, frequent cough and a sore throat reach 5 points, one
      short of a severe case. */
  lemma JustBelowSevere()
    ensures Calcular(Respostas("moderada", "frequente", "sim", "nao", "nao", "nao")) ==
            Avaliacao(5, Moderado, ["Febre moderada", "Tosse frequente", "Dor de garganta"])
  {
    var r := Respostas("moderada", "frequente", "sim", "nao", "nao", "nao");
    forall s: Symptom | s == FaltaAr || s == Fadiga || s == DorCorpo { NaoScoresNothing(s); }
    assert Contribute(Febre, "moderada") == Contribution(2, Some("Febre moderada"));
    assert Contribute(Tosse, "frequente") == Contribution(2, Some("Tosse frequente"));
    assert Pass(r).pontos == 5;
  }

  /** Answers the table does not know, whatever they are, score nothing. */
  lemma NothingRecognised(r: Respostas)
    requires forall s: Symptom :: (s, Answer(r, s)) !in PointTable
    ensures Calcular(r) == Avaliacao(0, SemSintomas, [])
  {
    forall s: Symptom { UnrecognisedAnswerScoresNothing(s, Answer(r, s)); }
  }

  /** The untouched form scores nothing. */
  lemma UntouchedFormScoresNothing()
    ensures Calcular(RespostasVazias) == Avaliacao(0, SemSintomas, [])
  {
    forall s: Symptom
      ensures (s, Answer(RespostasVazias, s)) !in PointTable
    {
      assert Answer(RespostasVazias, s) == "";
    }
    NothingRecognised(RespostasVazias);
  }
}
