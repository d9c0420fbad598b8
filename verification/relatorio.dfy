/** The surveillance report page: the request built from the form, the
    colour of each result row, and the count of attention/urgency cases. */
module Relatorio {
  import opened Wrappers
  import opened Common
  import Seqs
  import Triagem

  /** One row of the per-result breakdown the server returns. */
  datatype Item = Item(resultado: string, total: int)

  /** `reduce((acc, t) => acc + t.total, 0)`. */
  function Soma(items: seq<Item>): (r: int)
    ensures |items| == 0 ==> r == 0
    ensures |items| > 0 ==> r == Soma(items[..|items| - 1]) + items[|items| - 1].total
  {
    if |items| == 0 then 0
    else if |items| == 1 then items[0].total
    else
      DropFirstTakeAllButLast(items);
      items[0].total + Soma(items[1..])
  }

  lemma DropFirstTakeAllButLast(items: seq<Item>)
    requires |items| >= 2
    ensures items[1..][..|items| - 2] == items[..|items| - 1][1..]
    ensures items[..|items| - 1][0] == items[0]
    ensures items[1..][|items| - 2] == items[|items| - 1]
  {
  }

  predicate Normal(t: Item)
  {
    t.resultado == "NORMAL"
  }

  predicate Atencao(t: Item)
  {
    t.resultado != "NORMAL"
  }

  /** The "attention/urgency cases" figure: the totals of the rows whose
      result is not "NORMAL". */
  function CasosAtencao(items: seq<Item>): (r: int)
    ensures r == Soma(items) - Soma(Seqs.Filter(items, Normal))
  {
    AtencaoMaisNormal(items);
    Soma(Seqs.Filter(items, Atencao))
  }

  /** The attention figure and the NORMAL rows' totals add up to the grand
      total: every row is counted on exactly one side. */
  lemma {:induction false} AtencaoMaisNormal(items: seq<Item>)
    ensures Soma(Seqs.Filter(items, Atencao)) + Soma(Seqs.Filter(items, Normal)) == Soma(items)
  {
    if |items| > 0 {
      AtencaoMaisNormal(items[1..]);
      if Normal(items[0]) {
        assert Seqs.Filter(items, Normal) == [items[0]] + Seqs.Filter(items[1..], Normal);
        assert Seqs.Filter(items, Atencao) == Seqs.Filter(items[1..], Atencao);
        assert Soma([items[0]] + Seqs.Filter(items[1..], Normal)) == items[0].total + Soma(Seqs.Filter(items[1..], Normal));
      } else {
        assert Seqs.Filter(items, Atencao) == [items[0]] + Seqs.Filter(items[1..], Atencao);
        assert Seqs.Filter(items, Normal) == Seqs.Filter(items[1..], Normal);
        assert Soma([items[0]] + Seqs.Filter(items[1..], Atencao)) == items[0].total + Soma(Seqs.Filter(items[1..], Atencao));
      }
    }
  }

  predicate TotaisNaoNegativos(items: seq<Item>)
  {
    forall i :: 0 <= i < |items| ==> items[i].total >= 0
  }

  lemma {:induction false} SomaNaoNegativa(items: seq<Item>)
    requires TotaisNaoNegativos(items)
    ensures Soma(items) >= 0
  {
    if |items| > 0 {
      assert TotaisNaoNegativos(items[1..]);
      SomaNaoNegativa(items[1..]);
    }
  }

  /** With non-negative totals the attention figure lies between 0 and the
      grand total. */
  lemma AtencaoLimitada(items: seq<Item>)
    requires TotaisNaoNegativos(items)
    ensures 0 <= CasosAtencao(items) <= Soma(items)
  {
    AtencaoMaisNormal(items);
    var a := Seqs.Filter(items, Atencao);
    var n := Seqs.Filter(items, Normal);
    assert TotaisNaoNegativos(a);
    assert TotaisNaoNegativos(n);
    SomaNaoNegativa(a);
    SomaNaoNegativa(n);
  }

  /** When every row is NORMAL there are no attention cases. */
  lemma TodosNormais(items: seq<Item>)
    requires forall i :: 0 <= i < |items| ==> Normal(items[i])
    ensures CasosAtencao(items) == 0
  {
    Seqs.FilterNone(items, Atencao);
  }

  const Verde: string := "#27ae60"
  const Amarelo: string := "#f1c40f"
  const Vermelho: string := "#e74c3c"

  /** A row's colour: green for "NORMAL", yellow for "ATENÇÃO", red for
      anything else. */
  function Cor(resultado: string): (c: string)
    ensures c == Verde <==> resultado == "NORMAL"
    ensures c == Amarelo <==> resultado == "ATENÇÃO"
    ensures c == Vermelho <==> resultado != "NORMAL" && resultado != "ATENÇÃO"
  {
    if resultado == "NORMAL" then Verde
    else if resultado == "ATENÇÃO" then Amarelo
    else Vermelho
  }

  /** A row counts towards the attention figure exactly when it is not
      coloured green. */
  lemma ColouredIffCounted(t: Item)
    ensures Cor(t.resultado) != Verde <==> Atencao(t)
  {
  }

  /** Every label the triage scorer stores is coloured red, and counted as an
      attention case, even "Sem sintomas": the report's vocabulary ("NORMAL",
      "ATENÇÃO") is not the scorer's. */
  lemma ScorerLabelsAreRed(tier: Triagem.Tier)
    ensures Cor(Triagem.Label(tier)) == Vermelho
    ensures Atencao(Item(Triagem.Label(tier), 0))
  {
  }

  /** The report request; an empty zone selection is sent as null, meaning
      every zone. */
  datatype Form = Form(zonaId: string, periodoInicio: string, periodoFim: string)

  datatype Pedido = Pedido(zonaId: Option<string>, periodoInicio: string, periodoFim: string)

  function PedidoDe(f: Form): (p: Pedido)
    ensures p.zonaId.None? <==> f.zonaId == ""
    ensures p.zonaId.Some? ==> p.zonaId.value == f.zonaId
    ensures p.periodoInicio == f.periodoInicio && p.periodoFim == f.periodoFim
  {
    Pedido(EmptyToNull(f.zonaId), f.periodoInicio, f.periodoFim)
  }

  /** What the page shows after asking for a report: the data, or the error
      message with no data. */
  datatype Tela = Tela(dados: Option<seq<Item>>, erro: string)

  function AposGerar(resposta: Option<seq<Item>>, serverError: Option<string>): (t: Tela)
    ensures resposta.Some? ==> t.dados == resposta && t.erro == ""
    ensures resposta.None? ==> t.dados.None? && t.erro == ErrorText(serverError, "Erro ao gerar relatório")
  {
    match resposta
    case Some(items) => Tela(Some(items), "")
    case None => Tela(None, ErrorText(serverError, "Erro ao gerar relatório"))
  }
}
