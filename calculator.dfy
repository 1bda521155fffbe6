/**
 * The V2.0 engine (`ROICalculator`): the common bases, the gated evaluation
 * of F01 .. F18 into the five per-pain records, the pain and grand totals, the
 * annual gain over the 18 (cost, target) pairs, and payback and ROI for one to
 * five years from the average investment.
 *
 * The specification is a family of functions: one per `if` block of
 * `calcular` (`LinhaF01` .. `LinhaF18`), the totals, the gain and the
 * breakdowns over the vector of the 18 lines, and `ResultadosDe`. The
 * methods fill the records block by block as the source does and are proved
 * to produce exactly those values.
 */
module Calculator {
  import opened Wrappers
  import opened Inputs
  import opened Formulas
  import opened Calculations
  import Validators

  /**
   * The functions the engine imports whose bodies are not part of this model,
   * and the default turnover factor it imports, as parameters.
   */
  datatype Dependencias = Dependencias(
    custoHoraOperador: (real, real) -> real,              // (salario, fator_encargos)
    custoHoraParada: Option<real> -> real,                // (faturamento_mensal_linha)
    fatorCustoTurnoverPadrao: real,
    f03CurvaAprendizagem: (real, real, real, real, real, real) -> real,
    f04Turnover: (real, real, real) -> real,
    f05RefugoRetrabalho: (real, real, real, real, real, real) -> (real, real, real),
    f06InspecaoManual: (int, real, real) -> real,
    f08CustoOportunidade: (real, real, real) -> real,
    f09OciosidadeSilenciosa: (int, real, real, int) -> real,
    f10ParadasLinha: (real, real, real) -> real,
    f11SetupChangeover: (real, real, real) -> real,
    f12RiscosAcidentes: (real, real, real, real, real, real) -> (real, real, real, real),
    f13FrotaEmpilhadeiras: (real, real, real, real, real) -> real,
    f14Supervisao: (real, real, real) -> real,
    f15ComplianceEpis: (int, real, real) -> real,
    f16Energia: (real, real) -> real,
    f17EspacoFisico: (real, real, real) -> real,
    f18GestaoDados: (real, real, real, int) -> real)

  // ---------------------------------------------------------------------------
  // Common bases
  // ---------------------------------------------------------------------------

  /**
   * `_calcular_bases`: the monthly production given takes precedence, then the
   * estimate from the cadence, then zero.
   */
  function CalcularBases(c: Cliente, p: Processo, dep: Dependencias): (b: Bases)
    ensures Validators.TemProducaoMensal(p) ==>
              b.producaoMensal == p.producaoMensal.value && b.producaoAnual == b.producaoMensal * 12.0
    ensures !Validators.TemProducaoMensal(p) && Validators.TemCadencia(p) ==>
              b.producaoAnual == ProducaoAnual(p.cadenciaProducao.value, p.horasPorTurno, p.turnosPorDia, p.diasOperacaoAno)
              && b.producaoMensal == ProducaoMensalPorCadencia(p.cadenciaProducao.value, p.horasPorTurno, p.turnosPorDia, DiasOperacaoMesPadrao)
              && b.producaoAnual * DiasOperacaoMesPadrao as real == b.producaoMensal * p.diasOperacaoAno as real
    ensures !Validators.TemProducaoMensal(p) && !Validators.TemCadencia(p) ==>
              b.producaoMensal == 0.0 && b.producaoAnual == 0.0
    ensures b.pessoasExpostasProcesso == p.pessoasProcessoTurno * p.turnosPorDia
    ensures b.pessoasExpostasInspecao == p.pessoasInspecaoTurno * p.turnosPorDia
    ensures b.horasAnuaisOperacao == HorasAnuais(p.horasPorTurno, p.turnosPorDia, p.diasOperacaoAno)
    ensures b.custoHoraOperador == dep.custoHoraOperador(p.salarioMedioOperador, c.fatorEncargos)
    ensures b.custoHoraParada == dep.custoHoraParada(p.faturamentoMensalLinha)
    ensures b.fatorEncargos == c.fatorEncargos
  {
    var cadencia := p.cadenciaProducao.GetOr(0.0);
    ProducaoMensalEAnualProporcionais(cadencia, p.horasPorTurno, p.turnosPorDia, p.diasOperacaoAno, DiasOperacaoMesPadrao);
    var mensal :=
      if Validators.TemProducaoMensal(p) then p.producaoMensal.value
      else if Validators.TemCadencia(p) then
        ProducaoMensalPorCadencia(cadencia, p.horasPorTurno, p.turnosPorDia, DiasOperacaoMesPadrao)
      else 0.0;
    var anual :=
      if Validators.TemProducaoMensal(p) then mensal * 12.0
      else if Validators.TemCadencia(p) then ProducaoAnual(cadencia, p.horasPorTurno, p.turnosPorDia, p.diasOperacaoAno)
      else 0.0;
    Bases(
      anual,
      mensal,
      HorasAnuais(p.horasPorTurno, p.turnosPorDia, p.diasOperacaoAno),
      PessoasExpostas(p.pessoasProcessoTurno, p.turnosPorDia),
      PessoasExpostas(p.pessoasInspecaoTurno, p.turnosPorDia),
      dep.custoHoraOperador(p.salarioMedioOperador, c.fatorEncargos),
      dep.custoHoraParada(p.faturamentoMensalLinha),
      c.fatorEncargos)
  }

  /** The process of the unit tests: cadence 10, 8 h, 2 shifts, 250 days, 5 + 1 people per shift. */
  const ProcessoExemplo: Processo := Processo(
    Some(10.0), None, 8.0, 2, 250, 5, 1, 2500.0, 3000.0, 5000.0, 100.0, 15.0, Some(1760000.0))

  /** The base values the unit tests fix for that process. */
  lemma ExemploBases(c: Cliente, dep: Dependencias)
    ensures CalcularBases(c, ProcessoExemplo, dep).producaoAnual == 2400000.0
    ensures CalcularBases(c, ProcessoExemplo, dep).producaoMensal == 201600.0
    ensures CalcularBases(c, ProcessoExemplo, dep).pessoasExpostasProcesso == 10
    ensures CalcularBases(c, ProcessoExemplo, dep).pessoasExpostasInspecao == 2
  {
    ExemplosBases();
  }

  // ---------------------------------------------------------------------------
  // The cost lines
  // ---------------------------------------------------------------------------

  /** The inputs of one calculation; the detailed parameters as a map, as in `Parametros`. */
  datatype Entradas = Entradas(
    cliente: Cliente,
    processo: Processo,
    dores: Dores,
    valores: map<Campo, real>,
    investimento: Investimento,
    metas: Metas)

  /** Python's `params.c or y`: `y` when the field is None or 0. */
  function CampoOu(v: map<Campo, real>, c: Campo, y: real): real {
    if c in v && v[c] != 0.0 then v[c] else y
  }

  /**
   * The parameters `calcular` tests, besides the flag, before it evaluates
   * formula `f`. F01 and F06 need none. F03's alternatives "own salary or the
   * process salary" always hold, since the process salaries are always given.
   */
  function CamposExigidos(f: Formula): seq<Campo> {
    match f
    case F01 => []
    case F02 => [F02MediaHeMesPorPessoa]
    case F03 => [F03NovasContratacoesAno, F03MesesCurva, F03PercentualTempoSupervisor]
    case F04 => [F04DesligamentosAno]
    case F05 => [F05PercentualRefugo, F05PercentualRetrabalho, F05HorasRetrabalhoPorUnidade]
    case F06 => []
    case F07 => [F07ReclamacoesClientesAno, F07CustoMedioPorReclamacao]
    case F08 => [F08PercentualDemandaReprimida, F08MargemContribuicao]
    case F09 => [F09MinutosOciososPorDia]
    case F10 => [F10ParadasMes, F10DuracaoMediaParadaHoras]
    case F11 => [F11SetupsMes, F11HorasPorSetup]
    case F12 => [F12AfastamentosAno, F12CustoMedioAfastamento, F12AcidentesComLesaoAno, F12CustoMedioAcidente,
                 F12ProbabilidadeProcesso, F12CustoEstimadoProcesso]
    case F13 => [F13NumEmpilhadeiras, F13CustoOperadorMes, F13CustoEquipamentoMes, F13CustoEnergiaMes,
                 F13CustoManutencaoMes]
    case F14 => [F14NumSupervisores]
    case F15 => [F15CustoEpiAnoPorPessoa, F15CustoExamesAnoPorPessoa]
    case F16 => [F16AreaOperacaoM2, F16CustoEnergiaM2Ano]
    case F17 => [F17AreaM2, F17CustoM2Ano, F17PercentualReducaoAutomacao]
    case F18 => [F18PessoasEnvolvidas, F18HorasDiaTarefasDados]
  }

  /** The parameters of `f` are given, and for F08 the line revenue too. */
  predicate Exigidos(f: Formula, v: map<Campo, real>, p: Processo) {
    (forall c :: c in CamposExigidos(f) ==> c in v) && (f == F08 ==> p.faturamentoMensalLinha.Some?)
  }

  /** Formula `f` is evaluated: its flag is set and its parameters are given. */
  predicate Pronta(e: Entradas, f: Formula) {
    e.dores.Marcada(f) && Exigidos(f, e.valores, e.processo)
  }

  /** The downtime cost F10 / F11 use: their own field when given and > 0, else the base. */
  function CustoParada(v: map<Campo, real>, c: Campo, b: Bases): (r: real)
    ensures r == b.custoHoraParada || (c in v && r == v[c] > 0.0)
    ensures !Validators.Positivo(v, c) ==> r == b.custoHoraParada
  {
    if Validators.Positivo(v, c) then v[c] else b.custoHoraParada
  }

  /** The three F05 amounts (scrap, rework, total), or zeros when F05 is not evaluated. */
  function ComponentesF05(e: Entradas, dep: Dependencias, b: Bases): (real, real, real) {
    if e.dores.f05RefugoRetrabalho && F05PercentualRefugo in e.valores && F05PercentualRetrabalho in e.valores
       && F05HorasRetrabalhoPorUnidade in e.valores then
      dep.f05RefugoRetrabalho(b.producaoMensal, e.valores[F05PercentualRefugo], e.processo.custoMateriaPrimaPeca,
                              e.valores[F05PercentualRetrabalho], e.valores[F05HorasRetrabalhoPorUnidade],
                              b.custoHoraOperador)
    else (0.0, 0.0, 0.0)
  }

  /** The four F12 amounts (leaves, accidents, legal risk, total), or zeros when F12 is not evaluated. */
  function ComponentesF12(e: Entradas, dep: Dependencias): (real, real, real, real) {
    if e.dores.f12RiscosAcidentes && F12AfastamentosAno in e.valores && F12CustoMedioAfastamento in e.valores
       && F12AcidentesComLesaoAno in e.valores && F12CustoMedioAcidente in e.valores
       && F12ProbabilidadeProcesso in e.valores && F12CustoEstimadoProcesso in e.valores then
      dep.f12RiscosAcidentes(e.valores[F12AfastamentosAno], e.valores[F12CustoMedioAfastamento],
                             e.valores[F12AcidentesComLesaoAno], e.valores[F12CustoMedioAcidente],
                             e.valores[F12ProbabilidadeProcesso], e.valores[F12CustoEstimadoProcesso])
    else (0.0, 0.0, 0.0, 0.0)
  }

  // One function per `if` block of `calcular`: the amount the block stores in
  // its record field when the flag is set and the parameters are given, and
  // the record's default 0 otherwise.

  function LinhaF01(e: Entradas, dep: Dependencias, b: Bases): real {
    if e.dores.f01MaoDeObraDireta then
      F01MaoDeObraDireta(b.pessoasExpostasProcesso, e.processo.salarioMedioOperador, e.cliente.fatorEncargos)
    else 0.0
  }

  function LinhaF02(e: Entradas, dep: Dependencias, b: Bases): real {
    if e.dores.f02HorasExtras && F02MediaHeMesPorPessoa in e.valores then
      F02HorasExtras(b.pessoasExpostasProcesso, e.valores[F02MediaHeMesPorPessoa], e.processo.salarioMedioOperador,
                     e.cliente.fatorEncargos)
    else 0.0
  }

  function LinhaF03(e: Entradas, dep: Dependencias, b: Bases): real {
    var v := e.valores;
    var p := e.processo;
    if e.dores.f03CurvaAprendizagem && F03NovasContratacoesAno in v && F03MesesCurva in v
       && F03PercentualTempoSupervisor in v then
      dep.f03CurvaAprendizagem(v[F03NovasContratacoesAno], CampoOu(v, F03SalarioNovato, p.salarioMedioOperador),
                               e.cliente.fatorEncargos, v[F03MesesCurva],
                               CampoOu(v, F03SalarioSupervisor, p.salarioMedioSupervisor),
                               v[F03PercentualTempoSupervisor])
    else 0.0
  }

  function LinhaF04(e: Entradas, dep: Dependencias, b: Bases): real {
    var v := e.valores;
    if e.dores.f04Turnover && F04DesligamentosAno in v then
      dep.f04Turnover(v[F04DesligamentosAno], e.processo.salarioMedioOperador,
                      CampoOu(v, F04FatorCustoTurnover, dep.fatorCustoTurnoverPadrao))
    else 0.0
  }

  /** F05 stores the total of its three amounts. */
  function LinhaF05(e: Entradas, dep: Dependencias, b: Bases): real {
    ComponentesF05(e, dep, b).2
  }

  function LinhaF06(e: Entradas, dep: Dependencias, b: Bases): real {
    if e.dores.f06InspecaoManual then
      dep.f06InspecaoManual(b.pessoasExpostasInspecao, e.processo.salarioMedioInspetor, e.cliente.fatorEncargos)
    else 0.0
  }

  function LinhaF07(e: Entradas, dep: Dependencias, b: Bases): real {
    if e.dores.f07EscapesQualidade && F07ReclamacoesClientesAno in e.valores && F07CustoMedioPorReclamacao in e.valores then
      F07EscapesQualidade(e.valores[F07ReclamacoesClientesAno], e.valores[F07CustoMedioPorReclamacao])
    else 0.0
  }

  function LinhaF08(e: Entradas, dep: Dependencias, b: Bases): real {
    if e.dores.f08CustoOportunidade && e.processo.faturamentoMensalLinha.Some?
       && F08PercentualDemandaReprimida in e.valores && F08MargemContribuicao in e.valores then
      dep.f08CustoOportunidade(e.processo.faturamentoMensalLinha.value, e.valores[F08PercentualDemandaReprimida],
                               e.valores[F08MargemContribuicao])
    else 0.0
  }

  function LinhaF09(e: Entradas, dep: Dependencias, b: Bases): real {
    if e.dores.f09OciosidadeSilenciosa && F09MinutosOciososPorDia in e.valores then
      dep.f09OciosidadeSilenciosa(b.pessoasExpostasProcesso, e.valores[F09MinutosOciososPorDia], b.custoHoraOperador,
                                  e.processo.diasOperacaoAno)
    else 0.0
  }

  function LinhaF10(e: Entradas, dep: Dependencias, b: Bases): real {
    var v := e.valores;
    if e.dores.f10ParadasLinha && F10ParadasMes in v && F10DuracaoMediaParadaHoras in v then
      dep.f10ParadasLinha(v[F10ParadasMes], v[F10DuracaoMediaParadaHoras], CustoParada(v, F10CustoHoraParada, b))
    else 0.0
  }

  function LinhaF11(e: Entradas, dep: Dependencias, b: Bases): real {
    var v := e.valores;
    if e.dores.f11SetupChangeover && F11SetupsMes in v && F11HorasPorSetup in v then
      dep.f11SetupChangeover(v[F11SetupsMes], v[F11HorasPorSetup], CustoParada(v, F11CustoHoraParada, b))
    else 0.0
  }

  /** F12 stores the total of its four amounts. */
  function LinhaF12(e: Entradas, dep: Dependencias, b: Bases): real {
    ComponentesF12(e, dep).3
  }

  function LinhaF13(e: Entradas, dep: Dependencias, b: Bases): real {
    var v := e.valores;
    if e.dores.f13FrotaEmpilhadeiras && F13NumEmpilhadeiras in v && F13CustoOperadorMes in v
       && F13CustoEquipamentoMes in v && F13CustoEnergiaMes in v && F13CustoManutencaoMes in v then
      dep.f13FrotaEmpilhadeiras(v[F13NumEmpilhadeiras], v[F13CustoOperadorMes], v[F13CustoEquipamentoMes],
                                v[F13CustoEnergiaMes], v[F13CustoManutencaoMes])
    else 0.0
  }

  /** The supervisors of all shifts: the per-shift count times the shifts. */
  function SupervisoresTotais(porTurno: real, turnos: int): real {
    porTurno * turnos as real
  }

  /** F14 counts the supervisors of every shift. */
  function LinhaF14(e: Entradas, dep: Dependencias, b: Bases): real {
    var v := e.valores;
    var p := e.processo;
    if e.dores.f14Supervisao && F14NumSupervisores in v then
      dep.f14Supervisao(SupervisoresTotais(v[F14NumSupervisores], p.turnosPorDia),
                        CampoOu(v, F14SalarioSupervisor, p.salarioMedioSupervisor), e.cliente.fatorEncargos)
    else 0.0
  }

  function LinhaF15(e: Entradas, dep: Dependencias, b: Bases): real {
    if e.dores.f15ComplianceEpis && F15CustoEpiAnoPorPessoa in e.valores && F15CustoExamesAnoPorPessoa in e.valores then
      dep.f15ComplianceEpis(b.pessoasExpostasProcesso, e.valores[F15CustoEpiAnoPorPessoa],
                            e.valores[F15CustoExamesAnoPorPessoa])
    else 0.0
  }

  function LinhaF16(e: Entradas, dep: Dependencias, b: Bases): real {
    if e.dores.f16EnergiaUtilidades && F16AreaOperacaoM2 in e.valores && F16CustoEnergiaM2Ano in e.valores then dep.f16Energia(e.valores[F16AreaOperacaoM2], e.valores[F16CustoEnergiaM2Ano]) else 0.0
  }

  function LinhaF17(e: Entradas, dep: Dependencias, b: Bases): real {
    var v := e.valores;
    if e.dores.f17EspacoFisico && F17AreaM2 in v && F17CustoM2Ano in v && F17PercentualReducaoAutomacao in v then dep.f17EspacoFisico(v[F17AreaM2], v[F17CustoM2Ano], v[F17PercentualReducaoAutomacao])
    else 0.0
  }

  function LinhaF18(e: Entradas, dep: Dependencias, b: Bases): real {
    if e.dores.f18GestaoDados && F18PessoasEnvolvidas in e.valores && F18HorasDiaTarefasDados in e.valores then
      dep.f18GestaoDados(e.valores[F18PessoasEnvolvidas], e.valores[F18HorasDiaTarefasDados], b.custoHoraOperador,
                         e.processo.diasOperacaoAno)
    else 0.0
  }

  /** The cost line of formula `f`. */
  function Linha(e: Entradas, dep: Dependencias, b: Bases, f: Formula): real {
    match f
    case F01 => LinhaF01(e, dep, b)
    case F02 => LinhaF02(e, dep, b)
    case F03 => LinhaF03(e, dep, b)
    case F04 => LinhaF04(e, dep, b)
    case F05 => LinhaF05(e, dep, b)
    case F06 => LinhaF06(e, dep, b)
    case F07 => LinhaF07(e, dep, b)
    case F08 => LinhaF08(e, dep, b)
    case F09 => LinhaF09(e, dep, b)
    case F10 => LinhaF10(e, dep, b)
    case F11 => LinhaF11(e, dep, b)
    case F12 => LinhaF12(e, dep, b)
    case F13 => LinhaF13(e, dep, b)
    case F14 => LinhaF14(e, dep, b)
    case F15 => LinhaF15(e, dep, b)
    case F16 => LinhaF16(e, dep, b)
    case F17 => LinhaF17(e, dep, b)
    case F18 => LinhaF18(e, dep, b)
  }

  /** A formula that is not selected, or whose parameters are missing, contributes 0. */
  lemma LinhaForaDePronta(e: Entradas, dep: Dependencias, b: Bases, f: Formula)
    requires !Pronta(e, f)
    ensures Linha(e, dep, b, f) == 0.0
  {
    match f
    case F01 =>
    case F02 =>
    case F03 =>
    case F04 =>
    case F05 =>
    case F06 =>
    case F07 =>
    case F08 =>
    case F09 =>
    case F10 =>
    case F11 =>
    case F12 =>
    case F13 =>
    case F14 =>
    case F15 =>
    case F16 =>
    case F17 =>
    case F18 =>
  }

  /** The 18 cost lines, in formula order: the record fields `calcular` fills. */
  function CustosLinhas(e: Entradas, dep: Dependencias, b: Bases): (ls: seq<real>)
    ensures |ls| == NumFormulas
  {
    [     LinhaF01(e, dep, b),
     LinhaF02(e, dep, b),
     LinhaF03(e, dep, b),
     LinhaF04(e, dep, b),
     LinhaF05(e, dep, b),
     LinhaF06(e, dep, b),
     LinhaF07(e, dep, b),
     LinhaF08(e, dep, b),
     LinhaF09(e, dep, b),
     LinhaF10(e, dep, b),
     LinhaF11(e, dep, b),
     LinhaF12(e, dep, b),
     LinhaF13(e, dep, b),
     LinhaF14(e, dep, b),
     LinhaF15(e, dep, b),
     LinhaF16(e, dep, b),
     LinhaF17(e, dep, b),
     LinhaF18(e, dep, b)]
  }

  /** Position `IndiceDe(f)` of the line vector holds the line of `f`. */
  lemma CustosLinhasPorFormula(e: Entradas, dep: Dependencias, b: Bases, f: Formula)
    ensures CustosLinhas(e, dep, b)[IndiceDe(f)] == Linha(e, dep, b, f)
  {
    match f
    case F01 =>
    case F02 =>
    case F03 =>
    case F04 =>
    case F05 =>
    case F06 =>
    case F07 =>
    case F08 =>
    case F09 =>
    case F10 =>
    case F11 =>
    case F12 =>
    case F13 =>
    case F14 =>
    case F15 =>
    case F16 =>
    case F17 =>
    case F18 =>
  }

  /** The 18 reduction targets, in formula order. */
  function MetasEmOrdem(m: Metas): (ms: seq<real>)
    ensures |ms| == NumFormulas
    ensures forall f: Formula :: ms[IndiceDe(f)] == m.Meta(f)
  {
    [m.metaF01, m.metaF02, m.metaF03, m.metaF04, m.metaF05, m.metaF06, m.metaF07, m.metaF08, m.metaF09, m.metaF10, m.metaF11, m.metaF12, m.metaF13, m.metaF14, m.metaF15, m.metaF16, m.metaF17, m.metaF18]
  }

  // ---------------------------------------------------------------------------
  // Totals and gain over the line values
  // ---------------------------------------------------------------------------

  /** The total of one pain record, as `calcular` adds its fields. */
  function TotalDor(ls: seq<real>, dor: Dor): real
    requires |ls| == NumFormulas
  {
    match dor
    case Dor1MaoDeObra => ls[0] + ls[1] + ls[2] + ls[3]
    case Dor2Qualidade => ls[4] + ls[5] + ls[6]
    case Dor3Produtividade => ls[7] + ls[8] + ls[9] + ls[10]
    case Dor4Seguranca => ls[11] + ls[12]
    case Dor5CustosOcultos => ls[13] + ls[14] + ls[15] + ls[16] + ls[17]
  }

  /** `custo_total_anual_inacao`: the sum of the five pain totals. */
  function CustoTotal(ls: seq<real>): real
    requires |ls| == NumFormulas
  {
    TotalDor(ls, Dor1MaoDeObra) + TotalDor(ls, Dor2Qualidade) + TotalDor(ls, Dor3Produtividade)
    + TotalDor(ls, Dor4Seguranca) + TotalDor(ls, Dor5CustosOcultos)
  }

  /** `ganho_anual_potencial`: the 18 line gains accumulated in the order of `calcular`. */
  function GanhoAnual(ls: seq<real>, ms: seq<real>): real
    requires |ls| == NumFormulas && |ms| == NumFormulas
  {
    0.0
    + CalcularGanhoAnual(ls[0], ms[0])
    + CalcularGanhoAnual(ls[1], ms[1])
    + CalcularGanhoAnual(ls[2], ms[2])
    + CalcularGanhoAnual(ls[3], ms[3])
    + CalcularGanhoAnual(ls[4], ms[4])
    + CalcularGanhoAnual(ls[5], ms[5])
    + CalcularGanhoAnual(ls[6], ms[6])
    + CalcularGanhoAnual(ls[7], ms[7])
    + CalcularGanhoAnual(ls[8], ms[8])
    + CalcularGanhoAnual(ls[9], ms[9])
    + CalcularGanhoAnual(ls[10], ms[10])
    + CalcularGanhoAnual(ls[11], ms[11])
    + CalcularGanhoAnual(ls[12], ms[12])
    + CalcularGanhoAnual(ls[13], ms[13])
    + CalcularGanhoAnual(ls[14], ms[14])
    + CalcularGanhoAnual(ls[15], ms[15])
    + CalcularGanhoAnual(ls[16], ms[16])
    + CalcularGanhoAnual(ls[17], ms[17])
  }

  /** The sum of the first `k` lines. */
  function SomaAte(ls: seq<real>, k: nat): real
    requires k <= |ls|
  {
    if k == 0 then 0.0 else SomaAte(ls, k - 1) + ls[k - 1]
  }

  /** The gain of the first `k` lines, each line's cost times its target. */
  function GanhoAte(ls: seq<real>, ms: seq<real>, k: nat): real
    requires k <= |ls| && k <= |ms|
  {
    if k == 0 then 0.0 else GanhoAte(ls, ms, k - 1) + CalcularGanhoAnual(ls[k - 1], ms[k - 1])
  }

  /** `custo_total_anual_inacao` is the sum of all 18 lines: no line is counted twice or left out. */
  lemma CustoTotalSomaLinhas(ls: seq<real>)
    requires |ls| == NumFormulas
    ensures CustoTotal(ls) == SomaAte(ls, NumFormulas)
  {
    assert SomaAte(ls, 4) == TotalDor(ls, Dor1MaoDeObra) by {
      assert SomaAte(ls, 1) == ls[0];
      assert SomaAte(ls, 2) == SomaAte(ls, 1) + ls[1];
      assert SomaAte(ls, 3) == SomaAte(ls, 2) + ls[2];
    }
    assert SomaAte(ls, 7) == SomaAte(ls, 4) + TotalDor(ls, Dor2Qualidade) by {
      assert SomaAte(ls, 5) == SomaAte(ls, 4) + ls[4];
      assert SomaAte(ls, 6) == SomaAte(ls, 5) + ls[5];
    }
    assert SomaAte(ls, 11) == SomaAte(ls, 7) + TotalDor(ls, Dor3Produtividade) by {
      assert SomaAte(ls, 8) == SomaAte(ls, 7) + ls[7];
      assert SomaAte(ls, 9) == SomaAte(ls, 8) + ls[8];
      assert SomaAte(ls, 10) == SomaAte(ls, 9) + ls[9];
    }
    assert SomaAte(ls, 13) == SomaAte(ls, 11) + TotalDor(ls, Dor4Seguranca) by {
      assert SomaAte(ls, 12) == SomaAte(ls, 11) + ls[11];
    }
    assert SomaAte(ls, 18) == SomaAte(ls, 13) + TotalDor(ls, Dor5CustosOcultos) by {
      assert SomaAte(ls, 14) == SomaAte(ls, 13) + ls[13];
      assert SomaAte(ls, 15) == SomaAte(ls, 14) + ls[14];
      assert SomaAte(ls, 16) == SomaAte(ls, 15) + ls[15];
      assert SomaAte(ls, 17) == SomaAte(ls, 16) + ls[16];
    }
  }

  /** `ganho_anual_potencial` is the sum of the 18 line gains. */
  lemma GanhoAnualSomaGanhos(ls: seq<real>, ms: seq<real>)
    requires |ls| == NumFormulas && |ms| == NumFormulas
    ensures GanhoAnual(ls, ms) == GanhoAte(ls, ms, NumFormulas)
  {
    assert GanhoAte(ls, ms, 1) == GanhoAte(ls, ms, 0) + CalcularGanhoAnual(ls[0], ms[0]);
    assert GanhoAte(ls, ms, 2) == GanhoAte(ls, ms, 1) + CalcularGanhoAnual(ls[1], ms[1]);
    assert GanhoAte(ls, ms, 3) == GanhoAte(ls, ms, 2) + CalcularGanhoAnual(ls[2], ms[2]);
    assert GanhoAte(ls, ms, 4) == GanhoAte(ls, ms, 3) + CalcularGanhoAnual(ls[3], ms[3]);
    assert GanhoAte(ls, ms, 5) == GanhoAte(ls, ms, 4) + CalcularGanhoAnual(ls[4], ms[4]);
    assert GanhoAte(ls, ms, 6) == GanhoAte(ls, ms, 5) + CalcularGanhoAnual(ls[5], ms[5]);
    assert GanhoAte(ls, ms, 7) == GanhoAte(ls, ms, 6) + CalcularGanhoAnual(ls[6], ms[6]);
    assert GanhoAte(ls, ms, 8) == GanhoAte(ls, ms, 7) + CalcularGanhoAnual(ls[7], ms[7]);
    assert GanhoAte(ls, ms, 9) == GanhoAte(ls, ms, 8) + CalcularGanhoAnual(ls[8], ms[8]);
    assert GanhoAte(ls, ms, 10) == GanhoAte(ls, ms, 9) + CalcularGanhoAnual(ls[9], ms[9]);
    assert GanhoAte(ls, ms, 11) == GanhoAte(ls, ms, 10) + CalcularGanhoAnual(ls[10], ms[10]);
    assert GanhoAte(ls, ms, 12) == GanhoAte(ls, ms, 11) + CalcularGanhoAnual(ls[11], ms[11]);
    assert GanhoAte(ls, ms, 13) == GanhoAte(ls, ms, 12) + CalcularGanhoAnual(ls[12], ms[12]);
    assert GanhoAte(ls, ms, 14) == GanhoAte(ls, ms, 13) + CalcularGanhoAnual(ls[13], ms[13]);
    assert GanhoAte(ls, ms, 15) == GanhoAte(ls, ms, 14) + CalcularGanhoAnual(ls[14], ms[14]);
    assert GanhoAte(ls, ms, 16) == GanhoAte(ls, ms, 15) + CalcularGanhoAnual(ls[15], ms[15]);
    assert GanhoAte(ls, ms, 17) == GanhoAte(ls, ms, 16) + CalcularGanhoAnual(ls[16], ms[16]);
    assert GanhoAte(ls, ms, 18) == GanhoAte(ls, ms, 17) + CalcularGanhoAnual(ls[17], ms[17]);
  }

  /** With non-negative lines and targets in [0, 1], the gain is non-negative and at most the cost. */
  lemma {:induction false} GanhoAteLimitado(ls: seq<real>, ms: seq<real>, k: nat)
    requires k <= |ls| && k <= |ms|
    requires forall i :: 0 <= i < |ls| ==> ls[i] >= 0.0
    requires forall i :: 0 <= i < |ms| ==> 0.0 <= ms[i] <= 1.0
    ensures 0.0 <= GanhoAte(ls, ms, k) <= SomaAte(ls, k)
  {
    if k > 0 {
      GanhoAteLimitado(ls, ms, k - 1);
    }
  }

  /** Raising targets on non-negative lines never lowers the gain. */
  lemma {:induction false} GanhoAteMonotono(ls: seq<real>, ms1: seq<real>, ms2: seq<real>, k: nat)
    requires k <= |ls| && k <= |ms1| && k <= |ms2|
    requires forall i :: 0 <= i < |ls| ==> ls[i] >= 0.0
    requires forall i :: 0 <= i < k ==> ms1[i] <= ms2[i]
    ensures GanhoAte(ls, ms1, k) <= GanhoAte(ls, ms2, k)
  {
    if k > 0 {
      GanhoAteMonotono(ls, ms1, ms2, k - 1);
      GanhoNaoDecrescenteNaMeta(ls[k - 1], ms1[k - 1], ms2[k - 1]);
    }
  }

  /** Full reduction targets recover the whole cost. */
  lemma {:induction false} GanhoAteMetaTotal(ls: seq<real>, ms: seq<real>, k: nat)
    requires k <= |ls| && k <= |ms|
    requires forall i :: 0 <= i < k ==> ms[i] == 1.0
    ensures GanhoAte(ls, ms, k) == SomaAte(ls, k)
  {
    if k > 0 {
      GanhoAteMetaTotal(ls, ms, k - 1);
    }
  }

  /** With no cost on any line there is no cost and no gain. */
  lemma {:induction false} SemCustoSemGanho(ls: seq<real>, ms: seq<real>, k: nat)
    requires k <= |ls| && k <= |ms|
    requires forall i :: 0 <= i < k ==> ls[i] == 0.0
    ensures SomaAte(ls, k) == 0.0 && GanhoAte(ls, ms, k) == 0.0
  {
    if k > 0 {
      SemCustoSemGanho(ls, ms, k - 1);
    }
  }

  /** The annual gain is between 0 and the total cost when the lines are non-negative and the targets fractions. */
  lemma GanhoLimitadoPeloCusto(ls: seq<real>, ms: seq<real>)
    requires |ls| == NumFormulas && |ms| == NumFormulas
    requires forall i :: 0 <= i < |ls| ==> ls[i] >= 0.0
    requires forall i :: 0 <= i < |ms| ==> 0.0 <= ms[i] <= 1.0
    ensures 0.0 <= GanhoAnual(ls, ms) <= CustoTotal(ls)
  {
    GanhoAnualSomaGanhos(ls, ms);
    CustoTotalSomaLinhas(ls);
    GanhoAteLimitado(ls, ms, NumFormulas);
  }

  /** The annual gain does not decrease when targets are raised, on non-negative lines. */
  lemma GanhoNaoDecrescenteNasMetas(ls: seq<real>, ms1: seq<real>, ms2: seq<real>)
    requires |ls| == NumFormulas && |ms1| == NumFormulas && |ms2| == NumFormulas
    requires forall i :: 0 <= i < |ls| ==> ls[i] >= 0.0
    requires forall i :: 0 <= i < NumFormulas ==> ms1[i] <= ms2[i]
    ensures GanhoAnual(ls, ms1) <= GanhoAnual(ls, ms2)
  {
    GanhoAnualSomaGanhos(ls, ms1);
    GanhoAnualSomaGanhos(ls, ms2);
    GanhoAteMonotono(ls, ms1, ms2, NumFormulas);
  }

  /** Raising the target of one formula never lowers the annual gain, on non-negative lines. */
  lemma GanhoNaoDecrescenteNaMetaDe(ls: seq<real>, m: Metas, f: Formula, meta: real)
    requires |ls| == NumFormulas
    requires forall i :: 0 <= i < |ls| ==> ls[i] >= 0.0
    requires m.Meta(f) <= meta
    ensures GanhoAnual(ls, MetasEmOrdem(m)) <= GanhoAnual(ls, MetasEmOrdem(m.ComMeta(f, meta)))
  {
    var ms1, ms2 := MetasEmOrdem(m), MetasEmOrdem(m.ComMeta(f, meta));
    forall i | 0 <= i < NumFormulas
      ensures ms1[i] <= ms2[i]
    {
      var g := FormulaEm(i);
      assert ms1[i] == m.Meta(g) && ms2[i] == m.ComMeta(f, meta).Meta(g);
    }
    GanhoNaoDecrescenteNasMetas(ls, ms1, ms2);
  }

  /** With every target at 100%, the annual gain is the whole total cost. */
  lemma GanhoComMetaTotal(ls: seq<real>, ms: seq<real>)
    requires |ls| == NumFormulas && |ms| == NumFormulas
    requires forall i :: 0 <= i < NumFormulas ==> ms[i] == 1.0
    ensures GanhoAnual(ls, ms) == CustoTotal(ls)
  {
    GanhoAnualSomaGanhos(ls, ms);
    CustoTotalSomaLinhas(ls);
    GanhoAteMetaTotal(ls, ms, NumFormulas);
  }

  /** With every line at 0, the total cost and the annual gain are 0. */
  lemma SemCustoGanhoZero(ls: seq<real>, ms: seq<real>)
    requires |ls| == NumFormulas && |ms| == NumFormulas
    requires forall i :: 0 <= i < NumFormulas ==> ls[i] == 0.0
    ensures CustoTotal(ls) == 0.0 && GanhoAnual(ls, ms) == 0.0
  {
    GanhoAnualSomaGanhos(ls, ms);
    CustoTotalSomaLinhas(ls);
    SemCustoSemGanho(ls, ms, NumFormulas);
  }

  // ---------------------------------------------------------------------------
  // Results
  // ---------------------------------------------------------------------------

  /** One labelled amount of a breakdown. */
  datatype Parcela = Parcela(rotulo: string, valor: real)

  /** The sum of the amounts of a breakdown. */
  function SomaParcelas(ps: seq<Parcela>): real {
    if ps == [] then 0.0 else ps[0].valor + SomaParcelas(ps[1..])
  }

  /** A four-amount breakdown sums its amounts. */
  lemma SomaQuatroParcelas(p0: Parcela, p1: Parcela, p2: Parcela, p3: Parcela)
    ensures SomaParcelas([p0, p1, p2, p3]) == p0.valor + p1.valor + p2.valor + p3.valor
  {
    assert [p0, p1, p2, p3][1..] == [p1, p2, p3];
    assert [p1, p2, p3][1..] == [p2, p3];
    assert [p2, p3][1..] == [p3];
    assert SomaParcelas([p3]) == p3.valor by {
      assert [p3][1..] == [];
    }
    assert SomaParcelas([p2, p3]) == p2.valor + SomaParcelas([p3]);
    assert SomaParcelas([p1, p2, p3]) == p1.valor + SomaParcelas([p2, p3]);
  }

  /** A five-amount breakdown sums its amounts. */
  lemma SomaCincoParcelas(p0: Parcela, p1: Parcela, p2: Parcela, p3: Parcela, p4: Parcela)
    ensures SomaParcelas([p0, p1, p2, p3, p4]) == p0.valor + p1.valor + p2.valor + p3.valor + p4.valor
  {
    assert [p0, p1, p2, p3, p4][1..] == [p1, p2, p3, p4];
    SomaQuatroParcelas(p1, p2, p3, p4);
  }

  /** The consolidated results `calcular` returns. */
  datatype Resultados = Resultados(
    totalDor1: real,
    totalDor2: real,
    totalDor3: real,
    totalDor4: real,
    totalDor5: real,
    custoTotalAnualInacao: real,
    ganhoAnualPotencial: real,
    investimentoMedio: real,
    paybackAnos: Payback,
    roi1Ano: real,
    roi2Anos: real,
    roi3Anos: real,
    roi4Anos: real,
    roi5Anos: real,
    custoHoraParada: real,
    faturamentoMensalLinha: real,
    breakdownDor1: seq<Parcela>,
    breakdownDor2: seq<Parcela>,
    breakdownDor3: seq<Parcela>,
    breakdownDor4: seq<Parcela>,
    breakdownDor5: seq<Parcela>,
    areaAtuacao: Option<string>,
    porteEmpresa: string,
    fatorEncargosUsado: real)

  /** The breakdown of pain 1. */
  function BreakdownDor1(ls: seq<real>): seq<Parcela>
    requires |ls| == NumFormulas
  {
    [Parcela("F01 - Mão de Obra Direta", ls[0]),
     Parcela("F02 - Horas Extras", ls[1]),
     Parcela("F03 - Curva de Aprendizagem", ls[2]),
     Parcela("F04 - Turnover", ls[3])]
  }

  /** The breakdown of pain 2: F05 by its scrap and rework amounts `c5`. */
  function BreakdownDor2(ls: seq<real>, c5: (real, real, real)): seq<Parcela>
    requires |ls| == NumFormulas
  {
    [Parcela("F05 - Refugo", c5.0),
     Parcela("F05 - Retrabalho", c5.1),
     Parcela("F06 - Inspeção Manual", ls[5]),
     Parcela("F07 - Escapes de Qualidade", ls[6])]
  }

  /** The breakdown of pain 3. */
  function BreakdownDor3(ls: seq<real>): seq<Parcela>
    requires |ls| == NumFormulas
  {
    [Parcela("F08 - Custo de Oportunidade", ls[7]),
     Parcela("F09 - Ociosidade Silenciosa", ls[8]),
     Parcela("F10 - Paradas de Linha", ls[9]),
     Parcela("F11 - Setup/Changeover", ls[10])]
  }

  /** The breakdown of pain 4: F12 by its leave, accident and legal-risk amounts `c12`. */
  function BreakdownDor4(ls: seq<real>, c12: (real, real, real, real)): seq<Parcela>
    requires |ls| == NumFormulas
  {
    [Parcela("F12 - Afastamentos", c12.0),
     Parcela("F12 - Acidentes", c12.1),
     Parcela("F12 - Risco Legal", c12.2),
     Parcela("F13 - Frota de Empilhadeiras", ls[12])]
  }

  /** The breakdown of pain 5. */
  function BreakdownDor5(ls: seq<real>): seq<Parcela>
    requires |ls| == NumFormulas
  {
    [Parcela("F14 - Supervisão", ls[13]),
     Parcela("F15 - Compliance/EPIs", ls[14]),
     Parcela("F16 - Energia e Utilidades", ls[15]),
     Parcela("F17 - Espaço Físico", ls[16]),
     Parcela("F18 - Gestão de Dados", ls[17])]
  }

  /**
   * Each breakdown adds up to its pain total; for pains 2 and 4 exactly when
   * the component amounts add up to the formula's total line.
   */
  lemma BreakdownsSomamTotais(ls: seq<real>, c5: (real, real, real), c12: (real, real, real, real))
    requires |ls| == NumFormulas
    ensures SomaParcelas(BreakdownDor1(ls)) == TotalDor(ls, Dor1MaoDeObra)
    ensures SomaParcelas(BreakdownDor2(ls, c5)) == TotalDor(ls, Dor2Qualidade) <==> c5.0 + c5.1 == ls[4]
    ensures SomaParcelas(BreakdownDor3(ls)) == TotalDor(ls, Dor3Produtividade)
    ensures SomaParcelas(BreakdownDor4(ls, c12)) == TotalDor(ls, Dor4Seguranca) <==> c12.0 + c12.1 + c12.2 == ls[11]
    ensures SomaParcelas(BreakdownDor5(ls)) == TotalDor(ls, Dor5CustosOcultos)
  {
    var b1, b2, b3, b4, b5 := BreakdownDor1(ls), BreakdownDor2(ls, c5), BreakdownDor3(ls), BreakdownDor4(ls, c12),
                              BreakdownDor5(ls);
    SomaQuatroParcelas(b1[0], b1[1], b1[2], b1[3]);
    SomaQuatroParcelas(b2[0], b2[1], b2[2], b2[3]);
    SomaQuatroParcelas(b3[0], b3[1], b3[2], b3[3]);
    SomaQuatroParcelas(b4[0], b4[1], b4[2], b4[3]);
    SomaCincoParcelas(b5[0], b5[1], b5[2], b5[3], b5[4]);
  }

  /**
   * The results `calcular` assembles from the 18 lines `ls`, the F05 and F12
   * component amounts, the inputs and the bases.
   */
  function ResultadosDeLinhas(ls: seq<real>, c5: (real, real, real), c12: (real, real, real, real),
                              e: Entradas, b: Bases): Resultados
    requires |ls| == NumFormulas
  {
    var ganho := GanhoAnual(ls, MetasEmOrdem(e.metas));
    var medio := e.investimento.ValorInvestimentoMedio();
    Resultados(
      TotalDor(ls, Dor1MaoDeObra),
      TotalDor(ls, Dor2Qualidade),
      TotalDor(ls, Dor3Produtividade),
      TotalDor(ls, Dor4Seguranca),
      TotalDor(ls, Dor5CustosOcultos),
      CustoTotal(ls),
      ganho,
      medio,
      CalcularPayback(medio, ganho),
      CalcularRoi(medio, ganho, 1),
      CalcularRoi(medio, ganho, 2),
      CalcularRoi(medio, ganho, 3),
      CalcularRoi(medio, ganho, 4),
      CalcularRoi(medio, ganho, 5),
      b.custoHoraParada,
      e.processo.faturamentoMensalLinha.GetOr(0.0),
      BreakdownDor1(ls),
      BreakdownDor2(ls, c5),
      BreakdownDor3(ls),
      BreakdownDor4(ls, c12),
      BreakdownDor5(ls),
      e.cliente.areaAtuacao,
      e.cliente.porteEmpresa,
      e.cliente.fatorEncargos)
  }

  /** The results of `calcular` on inputs `e`, with the bases of `_calcular_bases`. */
  function ResultadosDe(e: Entradas, dep: Dependencias): Resultados {
    var b := CalcularBases(e.cliente, e.processo, dep);
    ResultadosDeLinhas(CustosLinhas(e, dep, b), ComponentesF05(e, dep, b), ComponentesF12(e, dep), e, b)
  }

  // ---------------------------------------------------------------------------
  // Properties of the results
  // ---------------------------------------------------------------------------

  /**
   * Every parameter `calcular` tests for a formula other than F14 belongs to
   * that formula's validation block and is one the block requires.
   */
  lemma CamposExigidosRequeridos(f: Formula, c: Campo)
    requires f != F14 && c in CamposExigidos(f)
    ensures Dono(c) == f && Validators.Requerido(c)
  {
    match f
    case F01 =>
    case F02 =>
      assert c == F02MediaHeMesPorPessoa;
    case F03 =>
      assert c == F03NovasContratacoesAno || c == F03MesesCurva || c == F03PercentualTempoSupervisor;
    case F04 =>
      assert c == F04DesligamentosAno;
    case F05 =>
      assert c == F05PercentualRefugo || c == F05PercentualRetrabalho || c == F05HorasRetrabalhoPorUnidade;
    case F06 =>
    case F07 =>
      assert c == F07ReclamacoesClientesAno || c == F07CustoMedioPorReclamacao;
    case F08 =>
      assert c == F08PercentualDemandaReprimida || c == F08MargemContribuicao;
    case F09 =>
      assert c == F09MinutosOciososPorDia;
    case F10 =>
      assert c == F10ParadasMes || c == F10DuracaoMediaParadaHoras;
    case F11 =>
      assert c == F11SetupsMes || c == F11HorasPorSetup;
    case F12 =>
      assert c == F12AfastamentosAno || c == F12CustoMedioAfastamento || c == F12AcidentesComLesaoAno
             || c == F12CustoMedioAcidente || c == F12ProbabilidadeProcesso || c == F12CustoEstimadoProcesso;
    case F13 =>
      assert c == F13NumEmpilhadeiras || c == F13CustoOperadorMes || c == F13CustoEquipamentoMes
             || c == F13CustoEnergiaMes || c == F13CustoManutencaoMes;
    case F14 =>
    case F15 =>
      assert c == F15CustoEpiAnoPorPessoa || c == F15CustoExamesAnoPorPessoa;
    case F16 =>
      assert c == F16AreaOperacaoM2 || c == F16CustoEnergiaM2Ano;
    case F17 =>
      assert c == F17AreaM2 || c == F17CustoM2Ano || c == F17PercentualReducaoAutomacao;
    case F18 =>
      assert c == F18PessoasEnvolvidas || c == F18HorasDiaTarefasDados;
  }

  /**
   * Parameters that pass validation let `calcular` evaluate every selected
   * formula except F14, whose supervisor count the validator does not demand.
   */
  lemma ValidacaoGaranteCalculo(e: Entradas, f: Formula)
    requires Validators.ErrosParametros(e.dores, e.valores, e.processo) == []
    requires e.dores.Marcada(f) && f != F14
    ensures Pronta(e, f)
  {
    Validators.SemErrosCamposValidos(e.dores, e.valores, e.processo);
    Validators.SemErrosEspeciaisValidos(e.dores, e.valores, e.processo);
    forall c | c in CamposExigidos(f)
      ensures c in e.valores
    {
      CamposExigidosRequeridos(f, c);
    }
  }

  /** F14 without a supervisor count passes validation on its own and costs 0. */
  lemma F14SemSupervisoresCustoZero(e: Entradas, dep: Dependencias, b: Bases)
    requires F14NumSupervisores !in e.valores
    ensures Validators.Obrigatorio(F14NumSupervisores) !in Validators.ErrosParametros(e.dores, e.valores, e.processo)
    ensures LinhaF14(e, dep, b) == 0.0
  {
    Validators.F14SemObrigatorios(e.dores, e.valores, e.processo, F14NumSupervisores);
  }

  /**
   * When the line has no revenue, validated F10 / F11 parameters carry their
   * own positive downtime cost, and that is the cost the formula uses.
   */
  lemma ValidacaoGaranteCustoParada(e: Entradas, b: Bases, f: Formula)
    requires Validators.ErrosParametros(e.dores, e.valores, e.processo) == []
    requires f == F10 || f == F11
    requires e.dores.Marcada(f) && Validators.SemFaturamento(e.processo)
    ensures var c := if f == F10 then F10CustoHoraParada else F11CustoHoraParada;
            c in e.valores && CustoParada(e.valores, c, b) == e.valores[c] > 0.0
  {
    Validators.SemErrosEspeciaisValidos(e.dores, e.valores, e.processo);
  }

  /** With no pain selected every cost is 0, the gain is 0 and the payback infinite. */
  lemma SemDoresSemCusto(e: Entradas, dep: Dependencias)
    requires e.dores == DoresPadrao()
    ensures var r := ResultadosDe(e, dep);
            r.totalDor1 == 0.0 && r.totalDor2 == 0.0 && r.totalDor3 == 0.0 && r.totalDor4 == 0.0
            && r.totalDor5 == 0.0 && r.custoTotalAnualInacao == 0.0 && r.ganhoAnualPotencial == 0.0
            && r.paybackAnos == Infinite && r.investimentoMedio == e.investimento.ValorInvestimentoMedio()
  {
    var b := CalcularBases(e.cliente, e.processo, dep);
    var ls := CustosLinhas(e, dep, b);
    assert forall i :: 0 <= i < NumFormulas ==> ls[i] == 0.0;
    SemCustoGanhoZero(ls, MetasEmOrdem(e.metas));
  }

  /** The client of the unit tests. */
  const ClienteExemplo: Cliente := Cliente(Some("Cliente X"), Some("Projeto Y"), Some("area_1_linhas_montagem"), "media", 1.7)

  /** The investment range of the unit tests. */
  const InvestimentoExemplo: Investimento := Investimento(400000.0, 600000.0)

  /** The unit test with nothing selected: no cost, no gain, infinite payback, average investment 500 000. */
  lemma ExemploSemDores(dep: Dependencias)
    ensures var r := ResultadosDe(Entradas(ClienteExemplo, ProcessoExemplo, DoresPadrao(), map[],
                                           InvestimentoExemplo, MetasPadrao()), dep);
            r.custoTotalAnualInacao == 0.0 && r.ganhoAnualPotencial == 0.0 && r.paybackAnos == Infinite
            && r.investimentoMedio == 500000.0
  {
    SemDoresSemCusto(Entradas(ClienteExemplo, ProcessoExemplo, DoresPadrao(), map[], InvestimentoExemplo, MetasPadrao()),
                     dep);
    ExemploInvestimentoMedio();
  }

  /**
   * The indicators agree with the totals: the grand total adds the pain totals,
   * payback and ROI are those of the average investment and the gain, ROI
   * does not fall from one horizon to the next when there is something to
   * recover, and it is non-negative exactly from the payback year on.
   */
  lemma IndicadoresConsistentes(ls: seq<real>, c5: (real, real, real), c12: (real, real, real, real),
                                e: Entradas, b: Bases)
    requires |ls| == NumFormulas
    ensures var r := ResultadosDeLinhas(ls, c5, c12, e, b);
            r.custoTotalAnualInacao == r.totalDor1 + r.totalDor2 + r.totalDor3 + r.totalDor4 + r.totalDor5
            && r.investimentoMedio == e.investimento.ValorInvestimentoMedio()
            && r.paybackAnos == CalcularPayback(r.investimentoMedio, r.ganhoAnualPotencial)
            && (r.investimentoMedio > 0.0 && r.ganhoAnualPotencial >= 0.0 ==>
                  r.roi1Ano <= r.roi2Anos <= r.roi3Anos <= r.roi4Anos <= r.roi5Anos)
            && (r.investimentoMedio > 0.0 && r.ganhoAnualPotencial > 0.0 ==>
                  (r.roi3Anos >= 0.0 <==> r.paybackAnos.anos <= 3.0))
  {
    var r := ResultadosDeLinhas(ls, c5, c12, e, b);
    var m, g := r.investimentoMedio, r.ganhoAnualPotencial;
    if m > 0.0 && g >= 0.0 {
      RoiNaoDecrescenteNosAnos(m, g, 1, 2);
      RoiNaoDecrescenteNosAnos(m, g, 2, 3);
      RoiNaoDecrescenteNosAnos(m, g, 3, 4);
      RoiNaoDecrescenteNosAnos(m, g, 4, 5);
    }
    if m > 0.0 && g > 0.0 {
      RoiNaoNegativoSeAtingePayback(m, g, 3);
    }
  }

  /**
   * The gain of the results is the line-by-line sum of cost x target, at most
   * the grand total when costs are non-negative and targets are fractions.
   */
  lemma GanhoDosResultados(ls: seq<real>, c5: (real, real, real), c12: (real, real, real, real),
                           e: Entradas, b: Bases)
    requires |ls| == NumFormulas
    ensures var r := ResultadosDeLinhas(ls, c5, c12, e, b);
            r.ganhoAnualPotencial == GanhoAte(ls, MetasEmOrdem(e.metas), NumFormulas)
            && r.custoTotalAnualInacao == SomaAte(ls, NumFormulas)
            && ((forall i :: 0 <= i < NumFormulas ==> ls[i] >= 0.0)
                && (forall f: Formula :: 0.0 <= e.metas.Meta(f) <= 1.0) ==>
                  0.0 <= r.ganhoAnualPotencial <= r.custoTotalAnualInacao)
  {
    var ms := MetasEmOrdem(e.metas);
    GanhoAnualSomaGanhos(ls, ms);
    CustoTotalSomaLinhas(ls);
    if (forall i :: 0 <= i < NumFormulas ==> ls[i] >= 0.0) && (forall f: Formula :: 0.0 <= e.metas.Meta(f) <= 1.0) {
      forall i | 0 <= i < NumFormulas
        ensures 0.0 <= ms[i] <= 1.0
      {
        assert ms[i] == e.metas.Meta(FormulaEm(i));
      }
      GanhoLimitadoPeloCusto(ls, ms);
    }
  }

  /** Raising the target of one formula never lowers the gain of the results, for non-negative costs. */
  lemma GanhoDosResultadosNaMeta(ls: seq<real>, c5: (real, real, real), c12: (real, real, real, real),
                                 e: Entradas, b: Bases, f: Formula, meta: real)
    requires |ls| == NumFormulas
    requires forall i :: 0 <= i < NumFormulas ==> ls[i] >= 0.0
    requires e.metas.Meta(f) <= meta
    ensures ResultadosDeLinhas(ls, c5, c12, e, b).ganhoAnualPotencial
            <= ResultadosDeLinhas(ls, c5, c12, e.(metas := e.metas.ComMeta(f, meta)), b).ganhoAnualPotencial
  {
    GanhoNaoDecrescenteNaMetaDe(ls, e.metas, f, meta);
  }

  /**
   * The unit test with F01 alone and a 50% target: pain 1 costs 510 000, the
   * gain is 255 000 and the payback 500 000 / 255 000 years.
   */
  lemma ExemploF01(dep: Dependencias)
    ensures var r := ResultadosDe(Entradas(ClienteExemplo, ProcessoExemplo, DoresPadrao().(f01MaoDeObraDireta := true),
                                           map[], InvestimentoExemplo, MetasPadrao().(metaF01 := 0.5)), dep);
            r.totalDor1 == 510000.0 && r.custoTotalAnualInacao == 510000.0 && r.ganhoAnualPotencial == 255000.0
            && r.paybackAnos == Finite(500000.0 / 255000.0)
  {
    var e := Entradas(ClienteExemplo, ProcessoExemplo, DoresPadrao().(f01MaoDeObraDireta := true),
                      map[], InvestimentoExemplo, MetasPadrao().(metaF01 := 0.5));
    var b := CalcularBases(e.cliente, e.processo, dep);
    ExemploBases(e.cliente, dep);
    ExemploF01Valor();
    ExemploInvestimentoMedio();
    var ls := CustosLinhas(e, dep, b);
    assert ls[0] == 510000.0;
    assert forall i :: 1 <= i < NumFormulas ==> ls[i] == 0.0;
  }

  /** The unit test with F01 and F07: their breakdown entries are 510 000 and 24 000. */
  lemma ExemploBreakdown(dep: Dependencias)
    ensures var r := ResultadosDe(Entradas(ClienteExemplo, ProcessoExemplo,
                                           DoresPadrao().(f01MaoDeObraDireta := true, f07EscapesQualidade := true),
                                           map[F07ReclamacoesClientesAno := 12.0, F07CustoMedioPorReclamacao := 2000.0],
                                           InvestimentoExemplo, MetasPadrao()), dep);
            r.breakdownDor1[0] == Parcela("F01 - Mão de Obra Direta", 510000.0)
            && r.breakdownDor2[3] == Parcela("F07 - Escapes de Qualidade", 24000.0)
  {
    ExemploBases(ClienteExemplo, dep);
    ExemploF01Valor();
    ExemploF07Valor();
  }

  // ---------------------------------------------------------------------------
  // The blocks of `calcular`, one per formula
  // ---------------------------------------------------------------------------

  // Each block sets its record field when the flag is set and the parameters
  // are given, and leaves it at the record's default 0 otherwise; it changes
  // no other field.

  method CalcularF01(dor1: CustosDor1MaoDeObra, e: Entradas, dep: Dependencias, b: Bases)
    requires dor1.f01MaoDeObraDireta == 0.0
    modifies dor1`f01MaoDeObraDireta
    ensures dor1.f01MaoDeObraDireta == LinhaF01(e, dep, b)
  {
    if e.dores.f01MaoDeObraDireta {
      dor1.f01MaoDeObraDireta := F01MaoDeObraDireta(b.pessoasExpostasProcesso, e.processo.salarioMedioOperador,
                                                    e.cliente.fatorEncargos);
    }
  }

  method CalcularF02(dor1: CustosDor1MaoDeObra, e: Entradas, dep: Dependencias, b: Bases)
    requires dor1.f02HorasExtras == 0.0
    modifies dor1`f02HorasExtras
    ensures dor1.f02HorasExtras == LinhaF02(e, dep, b)
  {
    var v := e.valores;
    if e.dores.f02HorasExtras && F02MediaHeMesPorPessoa in v {
      dor1.f02HorasExtras := F02HorasExtras(b.pessoasExpostasProcesso, v[F02MediaHeMesPorPessoa],
                                            e.processo.salarioMedioOperador, e.cliente.fatorEncargos);
    }
  }

  method CalcularF03(dor1: CustosDor1MaoDeObra, e: Entradas, dep: Dependencias, b: Bases)
    requires dor1.f03CurvaAprendizagem == 0.0
    modifies dor1`f03CurvaAprendizagem
    ensures dor1.f03CurvaAprendizagem == LinhaF03(e, dep, b)
  {
    var v := e.valores;
    var p := e.processo;
    if e.dores.f03CurvaAprendizagem && F03NovasContratacoesAno in v && F03MesesCurva in v
       && F03PercentualTempoSupervisor in v {
      dor1.f03CurvaAprendizagem := dep.f03CurvaAprendizagem(
        v[F03NovasContratacoesAno], CampoOu(v, F03SalarioNovato, p.salarioMedioOperador), e.cliente.fatorEncargos,
        v[F03MesesCurva], CampoOu(v, F03SalarioSupervisor, p.salarioMedioSupervisor), v[F03PercentualTempoSupervisor]);
    }
  }

  method CalcularF04(dor1: CustosDor1MaoDeObra, e: Entradas, dep: Dependencias, b: Bases)
    requires dor1.f04Turnover == 0.0
    modifies dor1`f04Turnover
    ensures dor1.f04Turnover == LinhaF04(e, dep, b)
  {
    var v := e.valores;
    if e.dores.f04Turnover && F04DesligamentosAno in v {
      dor1.f04Turnover := dep.f04Turnover(v[F04DesligamentosAno], e.processo.salarioMedioOperador,
                                          CampoOu(v, F04FatorCustoTurnover, dep.fatorCustoTurnoverPadrao));
    }
  }

  /** F05 stores its three amounts. */
  method CalcularF05(dor2: CustosDor2Qualidade, e: Entradas, dep: Dependencias, b: Bases)
    requires dor2.f05Refugo == 0.0 && dor2.f05Retrabalho == 0.0 && dor2.f05Total == 0.0
    modifies dor2`f05Refugo, dor2`f05Retrabalho, dor2`f05Total
    ensures dor2.f05Refugo == ComponentesF05(e, dep, b).0
    ensures dor2.f05Retrabalho == ComponentesF05(e, dep, b).1
    ensures dor2.f05Total == LinhaF05(e, dep, b)
  {
    var v := e.valores;
    if e.dores.f05RefugoRetrabalho && F05PercentualRefugo in v && F05PercentualRetrabalho in v
       && F05HorasRetrabalhoPorUnidade in v {
      var componentes := dep.f05RefugoRetrabalho(
        b.producaoMensal, v[F05PercentualRefugo], e.processo.custoMateriaPrimaPeca, v[F05PercentualRetrabalho],
        v[F05HorasRetrabalhoPorUnidade], b.custoHoraOperador);
      dor2.f05Refugo := componentes.0;
      dor2.f05Retrabalho := componentes.1;
      dor2.f05Total := componentes.2;
    }
  }

  method CalcularF06(dor2: CustosDor2Qualidade, e: Entradas, dep: Dependencias, b: Bases)
    requires dor2.f06InspecaoManual == 0.0
    modifies dor2`f06InspecaoManual
    ensures dor2.f06InspecaoManual == LinhaF06(e, dep, b)
  {
    if e.dores.f06InspecaoManual {
      dor2.f06InspecaoManual := dep.f06InspecaoManual(b.pessoasExpostasInspecao, e.processo.salarioMedioInspetor,
                                                      e.cliente.fatorEncargos);
    }
  }

  method CalcularF07(dor2: CustosDor2Qualidade, e: Entradas, dep: Dependencias, b: Bases)
    requires dor2.f07EscapesQualidade == 0.0
    modifies dor2`f07EscapesQualidade
    ensures dor2.f07EscapesQualidade == LinhaF07(e, dep, b)
  {
    var v := e.valores;
    if e.dores.f07EscapesQualidade && F07ReclamacoesClientesAno in v && F07CustoMedioPorReclamacao in v {
      dor2.f07EscapesQualidade := F07EscapesQualidade(v[F07ReclamacoesClientesAno], v[F07CustoMedioPorReclamacao]);
    }
  }

  method CalcularF08(dor3: CustosDor3Produtividade, e: Entradas, dep: Dependencias, b: Bases)
    requires dor3.f08CustoOportunidade == 0.0
    modifies dor3`f08CustoOportunidade
    ensures dor3.f08CustoOportunidade == LinhaF08(e, dep, b)
  {
    var v := e.valores;
    var p := e.processo;
    if e.dores.f08CustoOportunidade && p.faturamentoMensalLinha.Some? && F08PercentualDemandaReprimida in v
       && F08MargemContribuicao in v {
      dor3.f08CustoOportunidade := dep.f08CustoOportunidade(
        p.faturamentoMensalLinha.value, v[F08PercentualDemandaReprimida], v[F08MargemContribuicao]);
    }
  }

  method CalcularF09(dor3: CustosDor3Produtividade, e: Entradas, dep: Dependencias, b: Bases)
    requires dor3.f09Ociosidade == 0.0
    modifies dor3`f09Ociosidade
    ensures dor3.f09Ociosidade == LinhaF09(e, dep, b)
  {
    var v := e.valores;
    if e.dores.f09OciosidadeSilenciosa && F09MinutosOciososPorDia in v {
      dor3.f09Ociosidade := dep.f09OciosidadeSilenciosa(b.pessoasExpostasProcesso, v[F09MinutosOciososPorDia],
                                                         b.custoHoraOperador, e.processo.diasOperacaoAno);
    }
  }

  /** F10 uses its own downtime cost only when it is given and positive. */
  method CalcularF10(dor3: CustosDor3Produtividade, e: Entradas, dep: Dependencias, b: Bases)
    requires dor3.f10ParadasLinha == 0.0
    modifies dor3`f10ParadasLinha
    ensures dor3.f10ParadasLinha == LinhaF10(e, dep, b)
  {
    var v := e.valores;
    if e.dores.f10ParadasLinha && F10ParadasMes in v && F10DuracaoMediaParadaHoras in v {
      var custoHoraParada := if F10CustoHoraParada in v && v[F10CustoHoraParada] > 0.0 then v[F10CustoHoraParada]
                             else b.custoHoraParada;
      dor3.f10ParadasLinha := dep.f10ParadasLinha(v[F10ParadasMes], v[F10DuracaoMediaParadaHoras], custoHoraParada);
    }
  }

  /** F11 uses its own downtime cost only when it is given and positive. */
  method CalcularF11(dor3: CustosDor3Produtividade, e: Entradas, dep: Dependencias, b: Bases)
    requires dor3.f11SetupChangeover == 0.0
    modifies dor3`f11SetupChangeover
    ensures dor3.f11SetupChangeover == LinhaF11(e, dep, b)
  {
    var v := e.valores;
    if e.dores.f11SetupChangeover && F11SetupsMes in v && F11HorasPorSetup in v {
      var custoHoraParada := if F11CustoHoraParada in v && v[F11CustoHoraParada] > 0.0 then v[F11CustoHoraParada]
                             else b.custoHoraParada;
      dor3.f11SetupChangeover := dep.f11SetupChangeover(v[F11SetupsMes], v[F11HorasPorSetup], custoHoraParada);
    }
  }

  /** F12 stores its four amounts. */
  method CalcularF12(dor4: CustosDor4Seguranca, e: Entradas, dep: Dependencias, b: Bases)
    requires dor4.f12Afastamentos == 0.0 && dor4.f12Acidentes == 0.0
    requires dor4.f12RiscoLegal == 0.0 && dor4.f12Total == 0.0
    modifies dor4`f12Afastamentos, dor4`f12Acidentes, dor4`f12RiscoLegal, dor4`f12Total
    ensures dor4.f12Afastamentos == ComponentesF12(e, dep).0
    ensures dor4.f12Acidentes == ComponentesF12(e, dep).1
    ensures dor4.f12RiscoLegal == ComponentesF12(e, dep).2
    ensures dor4.f12Total == LinhaF12(e, dep, b)
  {
    var v := e.valores;
    if e.dores.f12RiscosAcidentes && F12AfastamentosAno in v && F12CustoMedioAfastamento in v
       && F12AcidentesComLesaoAno in v && F12CustoMedioAcidente in v && F12ProbabilidadeProcesso in v
       && F12CustoEstimadoProcesso in v {
      var componentes := dep.f12RiscosAcidentes(
        v[F12AfastamentosAno], v[F12CustoMedioAfastamento], v[F12AcidentesComLesaoAno],
        v[F12CustoMedioAcidente], v[F12ProbabilidadeProcesso], v[F12CustoEstimadoProcesso]);
      dor4.f12Afastamentos := componentes.0;
      dor4.f12Acidentes := componentes.1;
      dor4.f12RiscoLegal := componentes.2;
      dor4.f12Total := componentes.3;
    }
  }

  method CalcularF13(dor4: CustosDor4Seguranca, e: Entradas, dep: Dependencias, b: Bases)
    requires dor4.f13FrotaEmpilhadeiras == 0.0
    modifies dor4`f13FrotaEmpilhadeiras
    ensures dor4.f13FrotaEmpilhadeiras == LinhaF13(e, dep, b)
  {
    var v := e.valores;
    if e.dores.f13FrotaEmpilhadeiras && F13NumEmpilhadeiras in v && F13CustoOperadorMes in v
       && F13CustoEquipamentoMes in v && F13CustoEnergiaMes in v && F13CustoManutencaoMes in v {
      dor4.f13FrotaEmpilhadeiras := dep.f13FrotaEmpilhadeiras(
        v[F13NumEmpilhadeiras], v[F13CustoOperadorMes], v[F13CustoEquipamentoMes], v[F13CustoEnergiaMes],
        v[F13CustoManutencaoMes]);
    }
  }

  /** F14 counts the supervisors of every shift. */
  method CalcularF14(dor5: CustosDor5CustosOcultos, e: Entradas, dep: Dependencias, b: Bases)
    requires dor5.f14Supervisao == 0.0
    modifies dor5`f14Supervisao
    ensures dor5.f14Supervisao == LinhaF14(e, dep, b)
  {
    var v := e.valores;
    var p := e.processo;
    if e.dores.f14Supervisao && F14NumSupervisores in v {
      dor5.f14Supervisao := dep.f14Supervisao(
        SupervisoresTotais(v[F14NumSupervisores], p.turnosPorDia), CampoOu(v, F14SalarioSupervisor, p.salarioMedioSupervisor),
        e.cliente.fatorEncargos);
    }
  }

  method CalcularF15(dor5: CustosDor5CustosOcultos, e: Entradas, dep: Dependencias, b: Bases)
    requires dor5.f15ComplianceEpis == 0.0
    modifies dor5`f15ComplianceEpis
    ensures dor5.f15ComplianceEpis == LinhaF15(e, dep, b)
  {
    var v := e.valores;
    if e.dores.f15ComplianceEpis && F15CustoEpiAnoPorPessoa in v && F15CustoExamesAnoPorPessoa in v {
      dor5.f15ComplianceEpis := dep.f15ComplianceEpis(b.pessoasExpostasProcesso, v[F15CustoEpiAnoPorPessoa],
                                                      v[F15CustoExamesAnoPorPessoa]);
    }
  }

  method CalcularF16(dor5: CustosDor5CustosOcultos, e: Entradas, dep: Dependencias, b: Bases)
    requires dor5.f16Energia == 0.0
    modifies dor5`f16Energia
    ensures dor5.f16Energia == LinhaF16(e, dep, b)
  {
    var v := e.valores;
    if e.dores.f16EnergiaUtilidades && F16AreaOperacaoM2 in v && F16CustoEnergiaM2Ano in v {
      dor5.f16Energia := dep.f16Energia(v[F16AreaOperacaoM2], v[F16CustoEnergiaM2Ano]);
    }
  }

  method CalcularF17(dor5: CustosDor5CustosOcultos, e: Entradas, dep: Dependencias, b: Bases)
    requires dor5.f17EspacoFisico == 0.0
    modifies dor5`f17EspacoFisico
    ensures dor5.f17EspacoFisico == LinhaF17(e, dep, b)
  {
    var v := e.valores;
    if e.dores.f17EspacoFisico && F17AreaM2 in v && F17CustoM2Ano in v && F17PercentualReducaoAutomacao in v {
      dor5.f17EspacoFisico := dep.f17EspacoFisico(v[F17AreaM2], v[F17CustoM2Ano], v[F17PercentualReducaoAutomacao]);
    }
  }

  method CalcularF18(dor5: CustosDor5CustosOcultos, e: Entradas, dep: Dependencias, b: Bases)
    requires dor5.f18GestaoDados == 0.0
    modifies dor5`f18GestaoDados
    ensures dor5.f18GestaoDados == LinhaF18(e, dep, b)
  {
    var v := e.valores;
    if e.dores.f18GestaoDados && F18PessoasEnvolvidas in v && F18HorasDiaTarefasDados in v {
      dor5.f18GestaoDados := dep.f18GestaoDados(v[F18PessoasEnvolvidas], v[F18HorasDiaTarefasDados],
                                                b.custoHoraOperador, e.processo.diasOperacaoAno);
    }
  }

  // ---------------------------------------------------------------------------
  // The five records
  // ---------------------------------------------------------------------------

  /** The pain-1 record: F01 .. F04 and their total. */
  method CalcularDor1(e: Entradas, dep: Dependencias, b: Bases) returns (dor1: CustosDor1MaoDeObra)
    ensures fresh(dor1)
    ensures dor1.f01MaoDeObraDireta == LinhaF01(e, dep, b) && dor1.f02HorasExtras == LinhaF02(e, dep, b)
    ensures dor1.f03CurvaAprendizagem == LinhaF03(e, dep, b) && dor1.f04Turnover == LinhaF04(e, dep, b)
    ensures dor1.total == dor1.f01MaoDeObraDireta + dor1.f02HorasExtras + dor1.f03CurvaAprendizagem + dor1.f04Turnover
  {
    dor1 := new CustosDor1MaoDeObra();
    CalcularF01(dor1, e, dep, b);
    CalcularF02(dor1, e, dep, b);
    CalcularF03(dor1, e, dep, b);
    CalcularF04(dor1, e, dep, b);
    dor1.total := dor1.f01MaoDeObraDireta + dor1.f02HorasExtras + dor1.f03CurvaAprendizagem + dor1.f04Turnover;
  }

  /** The pain-2 record: the F05 amounts, F06, F07 and the total. */
  method CalcularDor2(e: Entradas, dep: Dependencias, b: Bases) returns (dor2: CustosDor2Qualidade)
    ensures fresh(dor2)
    ensures dor2.f05Refugo == ComponentesF05(e, dep, b).0 && dor2.f05Retrabalho == ComponentesF05(e, dep, b).1
    ensures dor2.f05Total == LinhaF05(e, dep, b)
    ensures dor2.f06InspecaoManual == LinhaF06(e, dep, b) && dor2.f07EscapesQualidade == LinhaF07(e, dep, b)
    ensures dor2.total == dor2.f05Total + dor2.f06InspecaoManual + dor2.f07EscapesQualidade
  {
    dor2 := new CustosDor2Qualidade();
    CalcularF05(dor2, e, dep, b);
    CalcularF06(dor2, e, dep, b);
    CalcularF07(dor2, e, dep, b);
    dor2.total := dor2.f05Total + dor2.f06InspecaoManual + dor2.f07EscapesQualidade;
  }

  /** The pain-3 record: F08 .. F11 and their total. */
  method CalcularDor3(e: Entradas, dep: Dependencias, b: Bases) returns (dor3: CustosDor3Produtividade)
    ensures fresh(dor3)
    ensures dor3.f08CustoOportunidade == LinhaF08(e, dep, b) && dor3.f09Ociosidade == LinhaF09(e, dep, b)
    ensures dor3.f10ParadasLinha == LinhaF10(e, dep, b) && dor3.f11SetupChangeover == LinhaF11(e, dep, b)
    ensures dor3.total == dor3.f08CustoOportunidade + dor3.f09Ociosidade + dor3.f10ParadasLinha + dor3.f11SetupChangeover
  {
    dor3 := new CustosDor3Produtividade();
    CalcularF08(dor3, e, dep, b);
    CalcularF09(dor3, e, dep, b);
    CalcularF10(dor3, e, dep, b);
    CalcularF11(dor3, e, dep, b);
    dor3.total := dor3.f08CustoOportunidade + dor3.f09Ociosidade + dor3.f10ParadasLinha + dor3.f11SetupChangeover;
  }

  /** The pain-4 record: the F12 amounts, F13 and the total. */
  method CalcularDor4(e: Entradas, dep: Dependencias, b: Bases) returns (dor4: CustosDor4Seguranca)
    ensures fresh(dor4)
    ensures dor4.f12Afastamentos == ComponentesF12(e, dep).0 && dor4.f12Acidentes == ComponentesF12(e, dep).1
    ensures dor4.f12RiscoLegal == ComponentesF12(e, dep).2 && dor4.f12Total == LinhaF12(e, dep, b)
    ensures dor4.f13FrotaEmpilhadeiras == LinhaF13(e, dep, b)
    ensures dor4.total == dor4.f12Total + dor4.f13FrotaEmpilhadeiras
  {
    dor4 := new CustosDor4Seguranca();
    CalcularF12(dor4, e, dep, b);
    CalcularF13(dor4, e, dep, b);
    dor4.total := dor4.f12Total + dor4.f13FrotaEmpilhadeiras;
  }

  /** The pain-5 record: F14 .. F18 and their total. */
  method CalcularDor5(e: Entradas, dep: Dependencias, b: Bases) returns (dor5: CustosDor5CustosOcultos)
    ensures fresh(dor5)
    ensures dor5.f14Supervisao == LinhaF14(e, dep, b) && dor5.f15ComplianceEpis == LinhaF15(e, dep, b)
    ensures dor5.f16Energia == LinhaF16(e, dep, b) && dor5.f17EspacoFisico == LinhaF17(e, dep, b)
    ensures dor5.f18GestaoDados == LinhaF18(e, dep, b)
    ensures dor5.total == dor5.f14Supervisao + dor5.f15ComplianceEpis + dor5.f16Energia + dor5.f17EspacoFisico
                          + dor5.f18GestaoDados
  {
    dor5 := new CustosDor5CustosOcultos();
    CalcularF14(dor5, e, dep, b);
    CalcularF15(dor5, e, dep, b);
    CalcularF16(dor5, e, dep, b);
    CalcularF17(dor5, e, dep, b);
    CalcularF18(dor5, e, dep, b);
    dor5.total := dor5.f14Supervisao + dor5.f15ComplianceEpis + dor5.f16Energia + dor5.f17EspacoFisico
                  + dor5.f18GestaoDados;
  }

  /** The 18 line fields of the five records, in formula order. */
  function LinhasRegistradas(dor1: CustosDor1MaoDeObra, dor2: CustosDor2Qualidade, dor3: CustosDor3Produtividade,
                             dor4: CustosDor4Seguranca, dor5: CustosDor5CustosOcultos): (ls: seq<real>)
    reads dor1, dor2, dor3, dor4, dor5
    ensures |ls| == NumFormulas
  {
    [     dor1.f01MaoDeObraDireta, dor1.f02HorasExtras, dor1.f03CurvaAprendizagem,
     dor1.f04Turnover, dor2.f05Total, dor2.f06InspecaoManual,
     dor2.f07EscapesQualidade, dor3.f08CustoOportunidade, dor3.f09Ociosidade,
     dor3.f10ParadasLinha, dor3.f11SetupChangeover, dor4.f12Total,
     dor4.f13FrotaEmpilhadeiras, dor5.f14Supervisao, dor5.f15ComplianceEpis,
     dor5.f16Energia, dor5.f17EspacoFisico, dor5.f18GestaoDados]
  }

  /**
   * The end of `calcular`: the grand total, the gain accumulated line by
   * line, the average investment and the indicators, and the result with its
   * breakdowns, all read from the filled records.
   */
  method Consolidar(dor1: CustosDor1MaoDeObra, dor2: CustosDor2Qualidade, dor3: CustosDor3Produtividade,
                    dor4: CustosDor4Seguranca, dor5: CustosDor5CustosOcultos, e: Entradas, b: Bases)
    returns (r: Resultados)
    requires dor1.total == dor1.f01MaoDeObraDireta + dor1.f02HorasExtras + dor1.f03CurvaAprendizagem + dor1.f04Turnover
    requires dor2.total == dor2.f05Total + dor2.f06InspecaoManual + dor2.f07EscapesQualidade
    requires dor3.total == dor3.f08CustoOportunidade + dor3.f09Ociosidade + dor3.f10ParadasLinha + dor3.f11SetupChangeover
    requires dor4.total == dor4.f12Total + dor4.f13FrotaEmpilhadeiras
    requires dor5.total == dor5.f14Supervisao + dor5.f15ComplianceEpis + dor5.f16Energia + dor5.f17EspacoFisico
                           + dor5.f18GestaoDados
    ensures r == ResultadosDeLinhas(LinhasRegistradas(dor1, dor2, dor3, dor4, dor5),
                                    (dor2.f05Refugo, dor2.f05Retrabalho, dor2.f05Total),
                                    (dor4.f12Afastamentos, dor4.f12Acidentes, dor4.f12RiscoLegal, dor4.f12Total), e, b)
  {
    var custoTotal := dor1.total + dor2.total + dor3.total + dor4.total + dor5.total;

    var m := e.metas;
    var ganho := 0.0;
    ganho := ganho + CalcularGanhoAnual(dor1.f01MaoDeObraDireta, m.metaF01);
    ganho := ganho + CalcularGanhoAnual(dor1.f02HorasExtras, m.metaF02);
    ganho := ganho + CalcularGanhoAnual(dor1.f03CurvaAprendizagem, m.metaF03);
    ganho := ganho + CalcularGanhoAnual(dor1.f04Turnover, m.metaF04);
    ganho := ganho + CalcularGanhoAnual(dor2.f05Total, m.metaF05);
    ganho := ganho + CalcularGanhoAnual(dor2.f06InspecaoManual, m.metaF06);
    ganho := ganho + CalcularGanhoAnual(dor2.f07EscapesQualidade, m.metaF07);
    ganho := ganho + CalcularGanhoAnual(dor3.f08CustoOportunidade, m.metaF08);
    ganho := ganho + CalcularGanhoAnual(dor3.f09Ociosidade, m.metaF09);
    ganho := ganho + CalcularGanhoAnual(dor3.f10ParadasLinha, m.metaF10);
    ganho := ganho + CalcularGanhoAnual(dor3.f11SetupChangeover, m.metaF11);
    ganho := ganho + CalcularGanhoAnual(dor4.f12Total, m.metaF12);
    ganho := ganho + CalcularGanhoAnual(dor4.f13FrotaEmpilhadeiras, m.metaF13);
    ganho := ganho + CalcularGanhoAnual(dor5.f14Supervisao, m.metaF14);
    ganho := ganho + CalcularGanhoAnual(dor5.f15ComplianceEpis, m.metaF15);
    ganho := ganho + CalcularGanhoAnual(dor5.f16Energia, m.metaF16);
    ganho := ganho + CalcularGanhoAnual(dor5.f17EspacoFisico, m.metaF17);
    ganho := ganho + CalcularGanhoAnual(dor5.f18GestaoDados, m.metaF18);

    var medio := e.investimento.ValorInvestimentoMedio();

    r := Resultados(
      dor1.total, dor2.total, dor3.total, dor4.total, dor5.total,
      custoTotal,
      ganho,
      medio,
      CalcularPayback(medio, ganho),
      CalcularRoi(medio, ganho, 1),
      CalcularRoi(medio, ganho, 2),
      CalcularRoi(medio, ganho, 3),
      CalcularRoi(medio, ganho, 4),
      CalcularRoi(medio, ganho, 5),
      b.custoHoraParada,
      e.processo.faturamentoMensalLinha.GetOr(0.0),
      [Parcela("F01 - Mão de Obra Direta", dor1.f01MaoDeObraDireta),
       Parcela("F02 - Horas Extras", dor1.f02HorasExtras),
       Parcela("F03 - Curva de Aprendizagem", dor1.f03CurvaAprendizagem),
       Parcela("F04 - Turnover", dor1.f04Turnover)],
      [Parcela("F05 - Refugo", dor2.f05Refugo),
       Parcela("F05 - Retrabalho", dor2.f05Retrabalho),
       Parcela("F06 - Inspeção Manual", dor2.f06InspecaoManual),
       Parcela("F07 - Escapes de Qualidade", dor2.f07EscapesQualidade)],
      [Parcela("F08 - Custo de Oportunidade", dor3.f08CustoOportunidade),
       Parcela("F09 - Ociosidade Silenciosa", dor3.f09Ociosidade),
       Parcela("F10 - Paradas de Linha", dor3.f10ParadasLinha),
       Parcela("F11 - Setup/Changeover", dor3.f11SetupChangeover)],
      [Parcela("F12 - Afastamentos", dor4.f12Afastamentos),
       Parcela("F12 - Acidentes", dor4.f12Acidentes),
       Parcela("F12 - Risco Legal", dor4.f12RiscoLegal),
       Parcela("F13 - Frota de Empilhadeiras", dor4.f13FrotaEmpilhadeiras)],
      [Parcela("F14 - Supervisão", dor5.f14Supervisao),
       Parcela("F15 - Compliance/EPIs", dor5.f15ComplianceEpis),
       Parcela("F16 - Energia e Utilidades", dor5.f16Energia),
       Parcela("F17 - Espaço Físico", dor5.f17EspacoFisico),
       Parcela("F18 - Gestão de Dados", dor5.f18GestaoDados)],
      e.cliente.areaAtuacao,
      e.cliente.porteEmpresa,
      e.cliente.fatorEncargos);
  }

  // ---------------------------------------------------------------------------
  // The calculator object
  // ---------------------------------------------------------------------------

  /** `ROICalculator`: the inputs it is built with and the bases it derives once. */
  class RoiCalculator {
    const cliente: Cliente
    const processo: Processo
    const dores: Dores
    const parametros: Parametros
    const investimento: Investimento
    const metas: Metas
    const dependencias: Dependencias
    const bases: Bases

    /** `__init__`: keeps the inputs and computes the bases. */
    constructor (cliente: Cliente, processo: Processo, dores: Dores, parametros: Parametros,
                 investimento: Investimento, metas: Metas, dependencias: Dependencias)
      ensures this.cliente == cliente && this.processo == processo && this.dores == dores
      ensures this.parametros == parametros && this.investimento == investimento && this.metas == metas
      ensures this.dependencias == dependencias
      ensures bases == CalcularBases(cliente, processo, dependencias)
    {
      this.cliente := cliente;
      this.processo := processo;
      this.dores := dores;
      this.parametros := parametros;
      this.investimento := investimento;
      this.metas := metas;
      this.dependencias := dependencias;
      this.bases := CalcularBases(cliente, processo, dependencias);
    }

    /** The bases are those of the inputs. */
    ghost predicate Valido() {
      bases == CalcularBases(cliente, processo, dependencias)
    }

    /** The current inputs, with the detailed parameters as they are now. */
    function Atuais(): Entradas
      reads parametros
    {
      Entradas(cliente, processo, dores, parametros.valores, investimento, metas)
    }

    /** `calcular`: the five records, the totals, the gain and the indicators. */
    method Calcular() returns (r: Resultados)
      requires Valido()
      ensures r == ResultadosDe(Atuais(), dependencias)
    {
      var e := Atuais();
      var b := bases;
      var dor1 := CalcularDor1(e, dependencias, b);
      var dor2 := CalcularDor2(e, dependencias, b);
      var dor3 := CalcularDor3(e, dependencias, b);
      var dor4 := CalcularDor4(e, dependencias, b);
      var dor5 := CalcularDor5(e, dependencias, b);

      r := Consolidar(dor1, dor2, dor3, dor4, dor5, e, b);
    }
  }
}
