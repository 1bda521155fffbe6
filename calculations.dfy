/**
 * Intermediate calculation records: the legacy category records with their
 * derived totals, the common bases of the V2.0 engine and the five per-pain
 * cost records that the engine fills in field by field.
 */
module Calculations {

  // ---------------------------------------------------------------------------
  // Legacy category records
  // ---------------------------------------------------------------------------

  /** Operational costs (CO-1 .. CO-4); every field defaults to 0. */
  datatype CustosOperacionais = CustosOperacionais(
    co1Folha: real, co2Terceirizacao: real, co3Desperdicio: real, co4Manutencao: real)
  {
    /** The category total. */
    function Total(): (r: real)
      ensures co1Folha >= 0.0 && co2Terceirizacao >= 0.0 && co3Desperdicio >= 0.0 && co4Manutencao >= 0.0 ==>
                0.0 <= r && co1Folha <= r && co2Terceirizacao <= r && co3Desperdicio <= r && co4Manutencao <= r
    {
      co1Folha + co2Terceirizacao + co3Desperdicio + co4Manutencao
    }
  }

  /** Quality costs (QL-1 .. QL-5); every field defaults to 0. */
  datatype CustosQualidade = CustosQualidade(
    ql1Retrabalho: real, ql2Refugo: real, ql3Inspecao: real, ql4Logistica: real, ql5Multas: real)
  {
    /** The category total. */
    function Total(): (r: real)
      ensures ql1Retrabalho >= 0.0 && ql2Refugo >= 0.0 && ql3Inspecao >= 0.0 && ql4Logistica >= 0.0 && ql5Multas >= 0.0 ==>
                0.0 <= r && ql1Retrabalho <= r && ql2Refugo <= r && ql3Inspecao <= r && ql4Logistica <= r && ql5Multas <= r
    {
      ql1Retrabalho + ql2Refugo + ql3Inspecao + ql4Logistica + ql5Multas
    }
  }

  /** Safety / ergonomics costs (SE-1 .. SE-4); every field defaults to 0. */
  datatype CustosSeguranca = CustosSeguranca(
    se1Absenteismo: real, se2Turnover: real, se3Treinamentos: real, se4Passivo: real)
  {
    /** The category total. */
    function Total(): (r: real)
      ensures se1Absenteismo >= 0.0 && se2Turnover >= 0.0 && se3Treinamentos >= 0.0 && se4Passivo >= 0.0 ==>
                0.0 <= r && se1Absenteismo <= r && se2Turnover <= r && se3Treinamentos <= r && se4Passivo <= r
    {
      se1Absenteismo + se2Turnover + se3Treinamentos + se4Passivo
    }
  }

  /** Productivity costs (PR-1 .. PR-4); every field defaults to 0. */
  datatype CustosProdutividade = CustosProdutividade(
    pr1HorasExtras: real, pr2Headcount: real, pr3VendasPerdidas: real, pr4MultasAtraso: real)
  {
    /** The category total. */
    function Total(): (r: real)
      ensures pr1HorasExtras >= 0.0 && pr2Headcount >= 0.0 && pr3VendasPerdidas >= 0.0 && pr4MultasAtraso >= 0.0 ==>
                0.0 <= r && pr1HorasExtras <= r && pr2Headcount <= r && pr3VendasPerdidas <= r && pr4MultasAtraso <= r
    {
      pr1HorasExtras + pr2Headcount + pr3VendasPerdidas + pr4MultasAtraso
    }
  }

  /** The default-constructed legacy records (every field 0). */
  const OperacionaisPadrao := CustosOperacionais(0.0, 0.0, 0.0, 0.0)
  const QualidadePadrao := CustosQualidade(0.0, 0.0, 0.0, 0.0, 0.0)
  const SegurancaPadrao := CustosSeguranca(0.0, 0.0, 0.0, 0.0)
  const ProdutividadePadrao := CustosProdutividade(0.0, 0.0, 0.0, 0.0)

  /** Default-constructed legacy records have total 0. */
  lemma OperacionaisPadraoZero()
    ensures OperacionaisPadrao.Total() == 0.0
  {
  }

  lemma QualidadePadraoZero()
    ensures QualidadePadrao.Total() == 0.0
  {
  }

  lemma SegurancaPadraoZero()
    ensures SegurancaPadrao.Total() == 0.0
  {
  }

  lemma ProdutividadePadraoZero()
    ensures ProdutividadePadrao.Total() == 0.0
  {
  }

  // ---------------------------------------------------------------------------
  // V2.0 records
  // ---------------------------------------------------------------------------

  /** The common bases derived once from the process. */
  datatype Bases = Bases(
    producaoAnual: real,
    producaoMensal: real,
    horasAnuaisOperacao: real,
    pessoasExpostasProcesso: int,
    pessoasExpostasInspecao: int,
    custoHoraOperador: real,
    custoHoraParada: real,
    fatorEncargos: real)

  /** Pain 1, direct labour: F01 .. F04 and their total. */
  class CustosDor1MaoDeObra {
    var f01MaoDeObraDireta: real
    var f02HorasExtras: real
    var f03CurvaAprendizagem: real
    var f04Turnover: real
    var total: real

    constructor ()
      ensures f01MaoDeObraDireta == 0.0 && f02HorasExtras == 0.0 && f03CurvaAprendizagem == 0.0
      ensures f04Turnover == 0.0 && total == 0.0
    {
      f01MaoDeObraDireta, f02HorasExtras, f03CurvaAprendizagem, f04Turnover, total := 0.0, 0.0, 0.0, 0.0, 0.0;
    }
  }

  /** Pain 2, quality: the three F05 components, F06, F07 and the total. */
  class CustosDor2Qualidade {
    var f05Refugo: real
    var f05Retrabalho: real
    var f05Total: real
    var f06InspecaoManual: real
    var f07EscapesQualidade: real
    var total: real

    constructor ()
      ensures f05Refugo == 0.0 && f05Retrabalho == 0.0 && f05Total == 0.0
      ensures f06InspecaoManual == 0.0 && f07EscapesQualidade == 0.0 && total == 0.0
    {
      f05Refugo, f05Retrabalho, f05Total, f06InspecaoManual, f07EscapesQualidade, total := 0.0, 0.0, 0.0, 0.0, 0.0, 0.0;
    }
  }

  /** Pain 3, productivity: F08 .. F11 and their total. */
  class CustosDor3Produtividade {
    var f08CustoOportunidade: real
    var f09Ociosidade: real
    var f10ParadasLinha: real
    var f11SetupChangeover: real
    var total: real

    constructor ()
      ensures f08CustoOportunidade == 0.0 && f09Ociosidade == 0.0 && f10ParadasLinha == 0.0
      ensures f11SetupChangeover == 0.0 && total == 0.0
    {
      f08CustoOportunidade, f09Ociosidade, f10ParadasLinha, f11SetupChangeover, total := 0.0, 0.0, 0.0, 0.0, 0.0;
    }
  }

  /** Pain 4, safety: the four F12 components, F13 and the total. */
  class CustosDor4Seguranca {
    var f12Afastamentos: real
    var f12Acidentes: real
    var f12RiscoLegal: real
    var f12Total: real
    var f13FrotaEmpilhadeiras: real
    var total: real

    constructor ()
      ensures f12Afastamentos == 0.0 && f12Acidentes == 0.0 && f12RiscoLegal == 0.0 && f12Total == 0.0
      ensures f13FrotaEmpilhadeiras == 0.0 && total == 0.0
    {
      f12Afastamentos, f12Acidentes, f12RiscoLegal, f12Total, f13FrotaEmpilhadeiras, total := 0.0, 0.0, 0.0, 0.0, 0.0, 0.0;
    }
  }

  /** Pain 5, hidden costs: F14 .. F18 and their total. */
  class CustosDor5CustosOcultos {
    var f14Supervisao: real
    var f15ComplianceEpis: real
    var f16Energia: real
    var f17EspacoFisico: real
    var f18GestaoDados: real
    var total: real

    constructor ()
      ensures f14Supervisao == 0.0 && f15ComplianceEpis == 0.0 && f16Energia == 0.0
      ensures f17EspacoFisico == 0.0 && f18GestaoDados == 0.0 && total == 0.0
    {
      f14Supervisao, f15ComplianceEpis, f16Energia, f17EspacoFisico, f18GestaoDados, total := 0.0, 0.0, 0.0, 0.0, 0.0, 0.0;
    }
  }
}
