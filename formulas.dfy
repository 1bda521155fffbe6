/**
 * The formula library: shared base quantities, the legacy CO/QL/SE/PR cost
 * formulas, the three V2.0 formulas whose bodies are fixed by the tests
 * (F01, F02, F07) and the financial indicators (payback, N-year ROI, gain).
 *
 * Amounts are `real` with exact arithmetic; counts the source types as `int`
 * (shifts, days, people, occurrences) are `int`.
 */
module Formulas {

  import opened Wrappers

  // ---------------------------------------------------------------------------
  // Constants
  // ---------------------------------------------------------------------------

  /** Operating days per month used to estimate monthly production from a cadence. */
  const DiasOperacaoMesPadrao: int := 21

  /** Legal (CLT) monthly hours: the divisor of the overtime formula F02 only. */
  const HorasClt: real := 220.0

  /** Overtime premium applied by F02. */
  const FatorHoraExtra: real := 1.5

  // ---------------------------------------------------------------------------
  // Shared bases
  // ---------------------------------------------------------------------------

  /** Annual operating hours: hours per shift x shifts per day x days per year. */
  function HorasAnuais(horasTurno: real, turnosDia: int, diasAno: int): (r: real)
    ensures 1.0 <= horasTurno <= 24.0 && 1 <= turnosDia <= 3 && 1 <= diasAno <= 365 ==>
              1.0 <= r <= 24.0 * 3.0 * 365.0
    ensures turnosDia == 0 || diasAno == 0 ==> r == 0.0
  {
    HorasAnuaisNoIntervalo(horasTurno, turnosDia, diasAno);
    horasTurno * turnosDia as real * diasAno as real
  }

  /** Annual production in pieces from a cadence in pieces per minute. */
  function ProducaoAnual(cadencia: real, horasTurno: real, turnosDia: int, diasAno: int): (r: real)
    ensures cadencia >= 0.0 && horasTurno >= 0.0 && turnosDia >= 0 && diasAno >= 0 ==> r >= 0.0
    ensures cadencia == 0.0 || horasTurno == 0.0 || turnosDia == 0 || diasAno == 0 ==> r == 0.0
  {
    ProdutoNaoNegativo(cadencia * 60.0 * horasTurno, turnosDia as real);
    ProdutoNaoNegativo(cadencia * 60.0 * horasTurno * turnosDia as real, diasAno as real);
    cadencia * 60.0 * horasTurno * turnosDia as real * diasAno as real
  }

  /** Monthly production estimated from a cadence over `diasMes` operating days. */
  function ProducaoMensalPorCadencia(cadencia: real, horasTurno: real, turnosDia: int, diasMes: int): (r: real)
    ensures cadencia >= 0.0 && horasTurno >= 0.0 && turnosDia >= 0 && diasMes >= 0 ==> r >= 0.0
    ensures cadencia == 0.0 || horasTurno == 0.0 || turnosDia == 0 || diasMes == 0 ==> r == 0.0
    // twelve such months produce what a year of 12 x `diasMes` operating days produces
    ensures r * 12.0 == ProducaoAnual(cadencia, horasTurno, turnosDia, 12 * diasMes)
  {
    ProdutoNaoNegativo(cadencia * 60.0 * horasTurno, turnosDia as real);
    ProdutoNaoNegativo(cadencia * 60.0 * horasTurno * turnosDia as real, diasMes as real);
    assert (cadencia * 60.0 * horasTurno * turnosDia as real) * diasMes as real * 12.0
        == (cadencia * 60.0 * horasTurno * turnosDia as real) * (12 * diasMes) as real;
    cadencia * 60.0 * horasTurno * turnosDia as real * diasMes as real
  }

  /** Exposed headcount: people per shift x shifts per day. */
  function PessoasExpostas(pessoasTurno: int, turnosDia: int): (r: int)
    ensures turnosDia == 0 ==> r == 0
    ensures pessoasTurno >= 0 && turnosDia >= 1 ==> r >= pessoasTurno
  {
    pessoasTurno * turnosDia
  }

  /**
   * Legacy hourly operator cost: salary over monthly worked hours; `None`
   * stands for the division by zero the source raises with no hours.
   */
  function CustoHoraOperador(salario: real, horasMes: real): (r: Option<real>)
    ensures r.None? <==> horasMes == 0.0
    // a month of hours at this rate costs one salary
    ensures r.Some? ==> r.value * horasMes == salario
  {
    if horasMes == 0.0 then None else Some(salario / horasMes)
  }

  /**
   * Cost of one absence day: annual salary spread over the operating days;
   * `None` stands for the division by zero the source raises with no day.
   */
  function CustoDiaAbsenteismo(salario: real, diasAno: int): (r: Option<real>)
    ensures r.None? <==> diasAno == 0
    // a full year of operating days at this cost equals twelve salaries
    ensures r.Some? ==> r.value * diasAno as real == salario * 12.0
  {
    if diasAno == 0 then None else Some((salario * 12.0) / diasAno as real)
  }

  /** Material cost per piece: unit cost x material fraction. */
  function CustoMaterial(custoUnitario: real, fracaoMaterial: real): (r: real)
    ensures custoUnitario >= 0.0 && 0.0 <= fracaoMaterial <= 1.0 ==> 0.0 <= r <= custoUnitario
    ensures fracaoMaterial == 1.0 ==> r == custoUnitario
  {
    custoUnitario * fracaoMaterial
  }

  // ---------------------------------------------------------------------------
  // Legacy CO - operating costs
  // ---------------------------------------------------------------------------

  /** CO-1: direct payroll, people x salary x shifts x 12. */
  function Co1FolhaPagamento(pessoasExpostas: int, salario: real, turnosDia: int): (r: real)
    ensures pessoasExpostas >= 0 && salario >= 0.0 && turnosDia >= 0 ==> r >= 0.0
    ensures pessoasExpostas == 0 || turnosDia == 0 ==> r == 0.0
  {
    ProdutoNaoNegativo(pessoasExpostas as real * salario, turnosDia as real);
    pessoasExpostas as real * salario * turnosDia as real * 12.0
  }

  /** CO-2: outsourced production, volume x unit cost x months. */
  function Co2Terceirizacao(volume: real, custoUnitario: real, meses: int): (r: real)
    ensures volume >= 0.0 && custoUnitario >= 0.0 && meses >= 0 ==> r >= 0.0
    ensures volume == 0.0 || meses == 0 ==> r == 0.0
  {
    ProdutoNaoNegativo(volume * custoUnitario, meses as real);
    volume * custoUnitario * meses as real
  }

  /** CO-3: wasted inputs, annual production x waste share x material cost. */
  function Co3Desperdicio(producaoAnual: real, percentualDesperdicio: real, custoMaterial: real): (r: real)
    ensures producaoAnual >= 0.0 && percentualDesperdicio >= 0.0 && custoMaterial >= 0.0 ==> r >= 0.0
    ensures producaoAnual >= 0.0 && custoMaterial >= 0.0 && percentualDesperdicio <= 1.0 ==>
              r <= producaoAnual * custoMaterial
  {
    ProdutoNaoNegativo(producaoAnual * percentualDesperdicio, custoMaterial);
    ParcelaLimitada(producaoAnual, percentualDesperdicio, custoMaterial);
    producaoAnual * percentualDesperdicio * custoMaterial
  }

  /** CO-4: corrective maintenance, (stops x minutes / 60 x 12) x hourly downtime cost. */
  function Co4Manutencao(paradasMes: int, duracaoMin: real, custoHoraParada: real): (r: real)
    ensures paradasMes >= 0 && duracaoMin >= 0.0 && custoHoraParada >= 0.0 ==> r >= 0.0
    // the downtime hours of a year, priced at the hourly downtime cost
    ensures r * 60.0 == paradasMes as real * duracaoMin * 12.0 * custoHoraParada
  {
    ProdutoNaoNegativo(paradasMes as real * duracaoMin / 60.0 * 12.0, custoHoraParada);
    (paradasMes as real * duracaoMin / 60.0 * 12.0) * custoHoraParada
  }

  // ---------------------------------------------------------------------------
  // Legacy QL - quality
  // ---------------------------------------------------------------------------

  /** QL-1: internal rework, production x rework share x piece cost x rework factor. */
  function Ql1Retrabalho(producaoAnual: real, percentualRetrabalho: real, custoPeca: real, fatorRetrabalho: real): (r: real)
    ensures producaoAnual >= 0.0 && percentualRetrabalho >= 0.0 && custoPeca >= 0.0 && fatorRetrabalho >= 0.0 ==> r >= 0.0
    ensures percentualRetrabalho == 0.0 || fatorRetrabalho == 0.0 ==> r == 0.0
  {
    ProdutoNaoNegativo(producaoAnual * percentualRetrabalho, custoPeca);
    ProdutoNaoNegativo(producaoAnual * percentualRetrabalho * custoPeca, fatorRetrabalho);
    producaoAnual * percentualRetrabalho * custoPeca * fatorRetrabalho
  }

  /** QL-2: scrap, production x scrap share x piece cost. */
  function Ql2Refugo(producaoAnual: real, percentualScrap: real, custoPeca: real): (r: real)
    ensures producaoAnual >= 0.0 && percentualScrap >= 0.0 && custoPeca >= 0.0 ==> r >= 0.0
    ensures producaoAnual >= 0.0 && custoPeca >= 0.0 && percentualScrap <= 1.0 ==> r <= producaoAnual * custoPeca
  {
    ProdutoNaoNegativo(producaoAnual * percentualScrap, custoPeca);
    ParcelaLimitada(producaoAnual, percentualScrap, custoPeca);
    producaoAnual * percentualScrap * custoPeca
  }

  /** QL-3: 100% manual inspection, inspectors x salary x shifts x 12. */
  function Ql3Inspecao(pessoasInspecao: int, salario: real, turnosDia: int): (r: real)
    ensures pessoasInspecao >= 0 && salario >= 0.0 && turnosDia >= 0 ==> r >= 0.0
    ensures pessoasInspecao == 0 || turnosDia == 0 ==> r == 0.0
  {
    ProdutoNaoNegativo(pessoasInspecao as real * salario, turnosDia as real);
    pessoasInspecao as real * salario * turnosDia as real * 12.0
  }

  /** QL-4: reverse logistics, production x return share x logistics cost. */
  function Ql4Logistica(producaoAnual: real, percentualRetorno: real, custoLogistica: real): (r: real)
    ensures producaoAnual >= 0.0 && percentualRetorno >= 0.0 && custoLogistica >= 0.0 ==> r >= 0.0
    ensures producaoAnual >= 0.0 && custoLogistica >= 0.0 && percentualRetorno <= 1.0 ==>
              r <= producaoAnual * custoLogistica
  {
    ProdutoNaoNegativo(producaoAnual * percentualRetorno, custoLogistica);
    ParcelaLimitada(producaoAnual, percentualRetorno, custoLogistica);
    producaoAnual * percentualRetorno * custoLogistica
  }

  /** QL-5: contractual quality fines, occurrences x average fine. */
  function Ql5MultasQualidade(ocorrencias: int, multaMedia: real): (r: real)
    ensures ocorrencias >= 0 && multaMedia >= 0.0 ==> r >= 0.0
    ensures ocorrencias == 0 ==> r == 0.0
  {
    ocorrencias as real * multaMedia
  }

  // ---------------------------------------------------------------------------
  // Legacy SE - safety and ergonomics
  // ---------------------------------------------------------------------------

  /** SE-1: absenteeism, lost days x cost per day. */
  function Se1Absenteismo(diasPerdidos: int, custoDia: real): (r: real)
    ensures diasPerdidos >= 0 && custoDia >= 0.0 ==> r >= 0.0
    ensures diasPerdidos == 0 ==> r == 0.0
  {
    diasPerdidos as real * custoDia
  }

  /** SE-2: turnover, departures x termination cost. */
  function Se2Turnover(desligamentos: int, custoRescisao: real): (r: real)
    ensures desligamentos >= 0 && custoRescisao >= 0.0 ==> r >= 0.0
    ensures desligamentos == 0 ==> r == 0.0
  {
    desligamentos as real * custoRescisao
  }

  /** SE-3: recurring training, departures x training cost. */
  function Se3Treinamentos(desligamentos: int, custoTreinamento: real): (r: real)
    ensures desligamentos >= 0 && custoTreinamento >= 0.0 ==> r >= 0.0
    ensures desligamentos == 0 ==> r == 0.0
  {
    desligamentos as real * custoTreinamento
  }

  /** SE-4: legal liabilities, occurrences x provision. */
  function Se4PassivoJuridico(ocorrencias: int, provisao: real): (r: real)
    ensures ocorrencias >= 0 && provisao >= 0.0 ==> r >= 0.0
    ensures ocorrencias == 0 ==> r == 0.0
  {
    ocorrencias as real * provisao
  }

  // ---------------------------------------------------------------------------
  // Legacy PR - productivity
  // ---------------------------------------------------------------------------

  /** PR-1: recurring overtime, monthly overtime hours x 12 x hourly cost x overtime factor. */
  function Pr1HorasExtras(heTotaisMes: real, custoHora: real, fatorHe: real): (r: real)
    ensures heTotaisMes >= 0.0 && custoHora >= 0.0 && fatorHe >= 0.0 ==> r >= 0.0
    ensures heTotaisMes == 0.0 ==> r == 0.0
  {
    ProdutoNaoNegativo(heTotaisMes * 12.0 * custoHora, fatorHe);
    heTotaisMes * 12.0 * custoHora * fatorHe
  }

  /** PR-2: additional headcount, people x monthly cost x 12. */
  function Pr2Headcount(pessoasAdicionais: int, custoMensal: real): (r: real)
    ensures pessoasAdicionais >= 0 && custoMensal >= 0.0 ==> r >= 0.0
    ensures pessoasAdicionais == 0 ==> r == 0.0
  {
    pessoasAdicionais as real * custoMensal * 12.0
  }

  /** PR-3: lost sales, unmet monthly demand x 12 x margin per piece. */
  function Pr3VendasPerdidas(demandaMes: real, margemPeca: real): (r: real)
    ensures demandaMes >= 0.0 && margemPeca >= 0.0 ==> r >= 0.0
    ensures demandaMes == 0.0 ==> r == 0.0
  {
    demandaMes * 12.0 * margemPeca
  }

  /** PR-4: delay fines, occurrences x fine. */
  function Pr4MultasAtraso(ocorrencias: int, multa: real): (r: real)
    ensures ocorrencias >= 0 && multa >= 0.0 ==> r >= 0.0
    ensures ocorrencias == 0 ==> r == 0.0
  {
    ocorrencias as real * multa
  }

  // ---------------------------------------------------------------------------
  // V2.0 formulas whose bodies the tests fix
  // ---------------------------------------------------------------------------

  /** F01 direct labour: exposed people x salary x burden factor x 12. */
  function F01MaoDeObraDireta(pessoas: int, salario: real, fatorEncargos: real): (r: real)
    ensures pessoas >= 0 && salario >= 0.0 && fatorEncargos >= 0.0 ==> r >= 0.0
    ensures pessoas == 0 || salario == 0.0 ==> r == 0.0
  {
    ProdutoNaoNegativo(pessoas as real * salario, fatorEncargos);
    pessoas as real * salario * fatorEncargos * 12.0
  }

  /** Fully loaded hourly cost on the legal 220-hour month (used only by F02). */
  function CustoHoraClt(salario: real, fatorEncargos: real): (r: real)
    // 220 hours at this rate cost one fully loaded salary
    ensures r * HorasClt == salario * fatorEncargos
  {
    (salario * fatorEncargos) / HorasClt
  }

  /** F02 overtime: people x overtime hours per month x hourly cost (220 h) x 1.5 x 12. */
  function F02HorasExtras(pessoas: int, mediaHeMes: real, salario: real, fatorEncargos: real): (r: real)
    ensures pessoas >= 0 && mediaHeMes >= 0.0 && salario >= 0.0 && fatorEncargos >= 0.0 ==> r >= 0.0
    // divisor 220, premium 1.5, twelve months: 220 r = 18 x people x hours x salary x burden
    ensures r * HorasClt == 18.0 * (pessoas as real * mediaHeMes) * (salario * fatorEncargos)
  {
    var hora := CustoHoraClt(salario, fatorEncargos);
    ProdutoNaoNegativo(pessoas as real * mediaHeMes, hora);
    pessoas as real * mediaHeMes * hora * FatorHoraExtra * 12.0
  }

  /** F07 quality escapes: complaints per year x average cost per complaint. */
  function F07EscapesQualidade(reclamacoesAno: real, custoMedioReclamacao: real): (r: real)
    ensures reclamacoesAno >= 0.0 && custoMedioReclamacao >= 0.0 ==> r >= 0.0
    ensures reclamacoesAno == 0.0 || custoMedioReclamacao == 0.0 ==> r == 0.0
  {
    reclamacoesAno * custoMedioReclamacao
  }

  // ---------------------------------------------------------------------------
  // Financial indicators
  // ---------------------------------------------------------------------------

  /** A payback period in years, or the infinity sentinel. */
  datatype Payback = Finite(anos: real) | Infinite

  /** Simple payback: investment / annual gain, or Infinite when the gain is zero. */
  function CalcularPayback(investimento: real, ganhoAnual: real): (r: Payback)
    ensures r.Infinite? <==> ganhoAnual == 0.0
    // a finite payback is the number of years of gain that repays the investment
    ensures r.Finite? ==> r.anos * ganhoAnual == investimento
  {
    if ganhoAnual == 0.0 then Infinite else Finite(investimento / ganhoAnual)
  }

  /** N-year ROI in percent, 0 when the investment is zero. */
  function CalcularRoi(investimento: real, ganhoAnual: real, anos: int): (r: real)
    ensures investimento == 0.0 ==> r == 0.0
    // r percent of the investment is the net return of `anos` years of gain
    ensures investimento != 0.0 ==> r * investimento == (ganhoAnual * anos as real - investimento) * 100.0
  {
    if investimento == 0.0 then 0.0
    else ((ganhoAnual * anos as real) - investimento) / investimento * 100.0
  }

  /** Annual gain of one cost line: current cost x reduction target. */
  function CalcularGanhoAnual(custoAtual: real, metaReducao: real): (r: real)
    ensures metaReducao == 0.0 || custoAtual == 0.0 ==> r == 0.0
    ensures custoAtual >= 0.0 && 0.0 <= metaReducao <= 1.0 ==> 0.0 <= r <= custoAtual
    ensures metaReducao == 1.0 ==> r == custoAtual
  {
    var r := custoAtual * metaReducao;
    GanhoNoIntervalo(custoAtual, metaReducao, r);
    r
  }

  // ---------------------------------------------------------------------------
  // Arithmetic helpers
  // ---------------------------------------------------------------------------

  lemma ProdutoNaoNegativo(a: real, b: real)
    ensures a >= 0.0 && b >= 0.0 ==> a * b >= 0.0
  {
  }

  lemma SinalProduto(x: real, y: real)
    requires y > 0.0
    ensures x * y >= 0.0 <==> x >= 0.0
  {
    if x < 0.0 {
      ProdutoNaoNegativo(-x, y);
      assert (-x) * y > 0.0 by { assert (-x) * y != 0.0; }
    }
  }

  lemma FracaoLimitaProduto(a: real, f: real)
    ensures a >= 0.0 && 0.0 <= f ==> a * f >= 0.0
    ensures a >= 0.0 && f <= 1.0 ==> a * f <= a
  {
    if a >= 0.0 && f <= 1.0 {
      assert a - a * f == a * (1.0 - f);
      ProdutoNaoNegativo(a, 1.0 - f);
    }
  }

  /** A share in [0, 1] of a non-negative amount lies between 0 and the amount. */
  lemma GanhoNoIntervalo(c: real, m: real, r: real)
    requires r == c * m
    ensures m == 0.0 || c == 0.0 ==> r == 0.0
    ensures c >= 0.0 && 0.0 <= m <= 1.0 ==> 0.0 <= r <= c
    ensures m == 1.0 ==> r == c
  {
    if c >= 0.0 && 0.0 <= m <= 1.0 {
      FracaoLimitaProduto(c, m);
    }
  }

  /** A share of at most one of a non-negative product never exceeds the product. */
  lemma ParcelaLimitada(a: real, f: real, b: real)
    ensures a >= 0.0 && b >= 0.0 && f <= 1.0 ==> a * f * b <= a * b
  {
    if a >= 0.0 && b >= 0.0 && f <= 1.0 {
      ProdutoNaoNegativo(a, b);
      FracaoLimitaProduto(a * b, f);
      assert a * f * b == (a * b) * f;
    }
  }

  lemma HorasAnuaisNoIntervalo(h: real, t: int, d: int)
    ensures 1.0 <= h <= 24.0 && 1 <= t <= 3 && 1 <= d <= 365 ==> 1.0 <= h * t as real * d as real <= 24.0 * 3.0 * 365.0
  {
    if 1.0 <= h <= 24.0 && 1 <= t <= 3 && 1 <= d <= 365 {
      var tr, dr := t as real, d as real;
      assert 1.0 <= h * tr <= 72.0 by {
        assert h * tr <= 24.0 * tr;
        assert h * tr >= tr;
      }
      assert (h * tr) * dr <= 72.0 * dr;
      assert (h * tr) * dr >= h * tr;
    }
  }

  // ---------------------------------------------------------------------------
  // Properties of the indicators
  // ---------------------------------------------------------------------------

  /** With a positive investment and a non-negative gain, ROI never falls as the horizon grows. */
  lemma RoiNaoDecrescenteNosAnos(investimento: real, ganhoAnual: real, anos1: int, anos2: int)
    requires investimento > 0.0 && ganhoAnual >= 0.0 && anos1 <= anos2
    ensures CalcularRoi(investimento, ganhoAnual, anos1) <= CalcularRoi(investimento, ganhoAnual, anos2)
  {
    var r1 := CalcularRoi(investimento, ganhoAnual, anos1);
    var r2 := CalcularRoi(investimento, ganhoAnual, anos2);
    assert ganhoAnual * anos1 as real <= ganhoAnual * anos2 as real by {
      ProdutoNaoNegativo(ganhoAnual, (anos2 - anos1) as real);
    }
    assert (r2 - r1) * investimento == (ganhoAnual * anos2 as real - ganhoAnual * anos1 as real) * 100.0;
    if r2 < r1 {
      ProdutoNaoNegativo(r1 - r2, investimento);
    }
  }

  /** With no gain, every horizon returns -100%: the whole investment is lost. */
  lemma RoiGanhoZero(investimento: real, anos: int)
    requires investimento != 0.0
    ensures CalcularRoi(investimento, 0.0, anos) == -100.0
  {
    var r := CalcularRoi(investimento, 0.0, anos);
    assert r * investimento == -100.0 * investimento;
    assert (r + 100.0) * investimento == 0.0;
  }

  /** ROI and payback agree: the ROI of `anos` years is non-negative exactly when `anos` reaches the payback. */
  lemma RoiNaoNegativoSeAtingePayback(investimento: real, ganhoAnual: real, anos: int)
    requires investimento > 0.0 && ganhoAnual > 0.0
    ensures CalcularPayback(investimento, ganhoAnual).Finite?
    ensures CalcularRoi(investimento, ganhoAnual, anos) >= 0.0 <==>
              anos as real >= CalcularPayback(investimento, ganhoAnual).anos
  {
    var p := CalcularPayback(investimento, ganhoAnual).anos;
    var r := CalcularRoi(investimento, ganhoAnual, anos);
    var n := anos as real;
    assert r * investimento == (ganhoAnual * n - investimento) * 100.0;
    assert p * ganhoAnual == investimento;
    // the sign of r is the sign of (n - p) * ganhoAnual
    assert ganhoAnual * n - investimento == (n - p) * ganhoAnual;
    assert r * investimento == ((n - p) * 100.0) * ganhoAnual;
    SinalProduto(r, investimento);
    SinalProduto((n - p) * 100.0, ganhoAnual);
  }

  /** Gain never falls as the reduction target grows, for a non-negative cost. */
  lemma GanhoNaoDecrescenteNaMeta(custoAtual: real, meta1: real, meta2: real)
    requires custoAtual >= 0.0 && meta1 <= meta2
    ensures CalcularGanhoAnual(custoAtual, meta1) <= CalcularGanhoAnual(custoAtual, meta2)
  {
    ProdutoNaoNegativo(custoAtual, meta2 - meta1);
    assert custoAtual * meta2 - custoAtual * meta1 == custoAtual * (meta2 - meta1);
  }

  /** Annual production is additive in the operating days: the days of two periods produce their sum. */
  lemma ProducaoAnualAditivaNosDias(cadencia: real, horasTurno: real, turnosDia: int, dias1: int, dias2: int)
    ensures ProducaoAnual(cadencia, horasTurno, turnosDia, dias1 + dias2)
            == ProducaoAnual(cadencia, horasTurno, turnosDia, dias1) + ProducaoAnual(cadencia, horasTurno, turnosDia, dias2)
  {
    var base := cadencia * 60.0 * horasTurno * turnosDia as real;
    assert ProducaoAnual(cadencia, horasTurno, turnosDia, dias1 + dias2) == base * (dias1 + dias2) as real;
    assert ProducaoAnual(cadencia, horasTurno, turnosDia, dias1) == base * dias1 as real;
    assert ProducaoAnual(cadencia, horasTurno, turnosDia, dias2) == base * dias2 as real;
    assert base * (dias1 + dias2) as real == base * dias1 as real + base * dias2 as real;
  }

  /** Monthly and annual production from the same cadence differ only in the number of days. */
  lemma ProducaoMensalEAnualProporcionais(cadencia: real, horasTurno: real, turnosDia: int, diasAno: int, diasMes: int)
    ensures ProducaoAnual(cadencia, horasTurno, turnosDia, diasAno) * diasMes as real ==
            ProducaoMensalPorCadencia(cadencia, horasTurno, turnosDia, diasMes) * diasAno as real
  {
    var base := cadencia * 60.0 * horasTurno * turnosDia as real;
    assert ProducaoAnual(cadencia, horasTurno, turnosDia, diasAno) == base * diasAno as real;
    assert ProducaoMensalPorCadencia(cadencia, horasTurno, turnosDia, diasMes) == base * diasMes as real;
  }

  // ---------------------------------------------------------------------------
  // The worked examples of the unit tests
  // ---------------------------------------------------------------------------

  lemma ExemplosBases()
    ensures ProducaoAnual(10.0, 8.0, 2, 250) == 2400000.0
    ensures HorasAnuais(8.0, 2, 250) == 4000.0
    ensures PessoasExpostas(5, 2) == 10
    ensures CustoDiaAbsenteismo(5000.0, 250) == Some(240.0)
    ensures CustoMaterial(100.0, 0.6) == 60.0
    ensures ProducaoMensalPorCadencia(10.0, 8.0, 2, DiasOperacaoMesPadrao) == 201600.0
  {
  }

  lemma ExemplosLegados()
    ensures Co1FolhaPagamento(10, 5000.0, 2) == 1200000.0
    ensures Co2Terceirizacao(1000.0, 50.0, 3) == 150000.0
    ensures Co3Desperdicio(2400000.0, 0.02, 60.0) == 2880000.0
    ensures Co4Manutencao(4, 30.0, 150.0) == 3600.0
    ensures Ql1Retrabalho(2400000.0, 0.03, 100.0, 0.2) == 1440000.0
    ensures Ql2Refugo(2400000.0, 0.01, 100.0) == 2400000.0
    ensures Ql3Inspecao(2, 5000.0, 2) == 240000.0
    ensures Ql4Logistica(2400000.0, 0.005, 15.0) == 180000.0
    ensures Ql5MultasQualidade(6, 500.0) == 3000.0
    ensures Se1Absenteismo(10, 240.0) == 2400.0
    ensures Se2Turnover(3, 10000.0) == 30000.0
    ensures Se3Treinamentos(3, 1200.0) == 3600.0
    ensures Se4PassivoJuridico(2, 35000.0) == 70000.0
    ensures Pr2Headcount(3, 5000.0) == 180000.0
    ensures Pr3VendasPerdidas(500.0, 30.0) == 180000.0
    ensures Pr4MultasAtraso(4, 1000.0) == 4000.0
  {
  }

  lemma ExemploF01Valor()
    ensures F01MaoDeObraDireta(10, 2500.0, 1.7) == 510000.0
  {
  }

  lemma ExemploF02Valor()
    ensures CustoHoraClt(2200.0, 2.0) == 20.0
    ensures F02HorasExtras(10, 10.0, 2200.0, 2.0) == 36000.0
  {
    assert CustoHoraClt(2200.0, 2.0) == 20.0;
  }

  lemma ExemploF07Valor()
    ensures F07EscapesQualidade(12.0, 2000.0) == 24000.0
  {
  }

  lemma ExemplosIndicadores()
    ensures CalcularPayback(500000.0, 250000.0) == Finite(2.0)
    ensures CalcularPayback(500000.0, 0.0) == Infinite
    ensures CalcularRoi(500000.0, 250000.0, 1) == -50.0
    ensures CalcularRoi(500000.0, 250000.0, 3) == 50.0
    ensures CalcularRoi(500000.0, 250000.0, 5) == 150.0
    ensures CalcularRoi(0.0, 250000.0, 3) == 0.0
    ensures CalcularGanhoAnual(1000000.0, 0.3) == 300000.0
  {
  }
}
