/**
 * Input validation. Every validator appends one error per failed check to a
 * list, in a fixed order. An error is a tag (one per message of the source);
 * the message text is available through `Mensagem`.
 *
 * Each validator is a method that performs the checks one after the other,
 * and a function that states the list the first `n` checks produce; the
 * lemmas beside them say which errors the list holds, that they come in
 * check order, and when the list is empty.
 */
module Validators {
  import opened Wrappers
  import opened Inputs

  // ---------------------------------------------------------------------------
  // Ordered error lists
  // ---------------------------------------------------------------------------

  /** The elements of `s` appear in strictly increasing `ordem`. */
  predicate Crescente<T>(s: seq<T>, ordem: T -> int) {
    forall i, j :: 0 <= i < j < |s| ==> ordem(s[i]) < ordem(s[j])
  }

  /** The error `e` when its check failed, nothing otherwise. */
  function SeFalhou<T>(falhou: bool, e: T): seq<T> {
    if falhou then [e] else []
  }

  /** One check of a validator: `if falhou: erros.append(e)`. */
  method Registrar<T>(erros: seq<T>, falhou: bool, e: T) returns (r: seq<T>)
    ensures r == erros + SeFalhou(falhou, e)
  {
    r := erros;
    if falhou {
      r := r + [e];
    }
  }

  /** Every member of `s` ranks below `k`. */
  ghost predicate Abaixo<T>(s: seq<T>, ordem: T -> int, k: int) {
    forall x :: x in s ==> ordem(x) < k
  }

  /** Appending a check whose position is past every earlier error keeps the order. */
  lemma CrescenteApos<T>(a: seq<T>, falhou: bool, e: T, ordem: T -> int)
    requires Crescente(a, ordem) && Abaixo(a, ordem, ordem(e))
    ensures Crescente(a + SeFalhou(falhou, e), ordem)
    ensures Abaixo(a + SeFalhou(falhou, e), ordem, ordem(e) + 1)
  {
    if falhou {
      forall i, j | 0 <= i < j < |a + [e]|
        ensures ordem((a + [e])[i]) < ordem((a + [e])[j])
      {
        if j == |a| {
          assert (a + [e])[i] in a;
        }
      }
    }
  }

  /**
   * A list in strictly increasing order is determined by its members: a
   * validator whose result has the right members in check order has exactly
   * one possible result.
   */
  lemma {:induction false} OrdemDeterminaLista<T>(a: seq<T>, b: seq<T>, ordem: T -> int)
    requires Crescente(a, ordem) && Crescente(b, ordem)
    requires forall x :: x in a <==> x in b
    ensures a == b
    decreases |a|
  {
    if a != [] {
      assert a[0] in b;
      assert b != [];
      assert b[0] in a;
      var i :| 0 <= i < |a| && a[i] == b[0];
      var j :| 0 <= j < |b| && b[j] == a[0];
      assert a[0] == b[0];
      forall x
        ensures x in a[1..] <==> x in b[1..]
      {
        if x in a[1..] {
          var k :| 1 <= k < |a| && a[k] == x;
          assert ordem(a[0]) < ordem(a[k]);
          assert x in b;
          var m :| 0 <= m < |b| && b[m] == x;
          assert m != 0;
        }
        if x in b[1..] {
          var k :| 1 <= k < |b| && b[k] == x;
          assert ordem(b[0]) < ordem(b[k]);
          assert x in a;
          var m :| 0 <= m < |a| && a[m] == x;
          assert m != 0;
        }
      }
      OrdemDeterminaLista(a[1..], b[1..], ordem);
      assert a == [a[0]] + a[1..];
      assert b == [b[0]] + b[1..];
    }
  }

  // ---------------------------------------------------------------------------
  // Client
  // ---------------------------------------------------------------------------

  /** The characters Python's `str.strip()` removes. */
  predicate EhEspaco(ch: char) {
    ch in {'\t', '\n', '\U{000B}', '\U{000C}', '\r', '\U{001C}', '\U{001D}', '\U{001E}', '\U{001F}', ' ',
           '\U{0085}', '\U{00A0}', '\U{1680}', '\U{2028}', '\U{2029}', '\U{202F}', '\U{205F}', '\U{3000}'}
    || ('\U{2000}' <= ch <= '\U{200A}')
  }

  /** A text that is missing, empty or only whitespace: `not (s or "").strip()`. */
  predicate EmBranco(s: Option<string>) {
    s.None? || forall i :: 0 <= i < |s.value| ==> EhEspaco(s.value[i])
  }

  /** The accepted company sizes. */
  const PortesEmpresa: set<string> := {"pequena", "media", "grande"}

  /** The three accepted payroll burden factors. */
  const FatorEncargosConservador: real := 1.7
  const FatorEncargosMedio: real := 1.85
  const FatorEncargosCompleto: real := 2.0
  const FatoresEncargos: set<real> := {FatorEncargosConservador, FatorEncargosMedio, FatorEncargosCompleto}

  datatype ErroCliente =
    | NomeClienteObrigatorio
    | NomeProjetoObrigatorio
    | AreaAtuacaoObrigatoria
    | PorteInvalido
    | FatorEncargosInvalido
  {
    /** The position of the check in the validator. */
    function Ordem(): int {
      match this
      case NomeClienteObrigatorio => 0
      case NomeProjetoObrigatorio => 1
      case AreaAtuacaoObrigatoria => 2
      case PorteInvalido => 3
      case FatorEncargosInvalido => 4
    }

    function Mensagem(): string {
      match this
      case NomeClienteObrigatorio => "Nome do cliente é obrigatório."
      case NomeProjetoObrigatorio => "Nome do projeto é obrigatório."
      case AreaAtuacaoObrigatoria => "Área de atuação é obrigatória."
      case PorteInvalido => "Porte da empresa deve ser: pequena, média ou grande."
      case FatorEncargosInvalido => "Fator de encargos deve ser 1,7 / 1,85 / 2,0."
    }
  }

  const OrdemErroCliente: ErroCliente -> int := (e: ErroCliente) => e.Ordem()

  /** The condition under which each client error is reported. */
  predicate FalhaCliente(c: Cliente, e: ErroCliente) {
    match e
    case NomeClienteObrigatorio => EmBranco(c.nomeCliente)
    case NomeProjetoObrigatorio => EmBranco(c.nomeProjeto)
    case AreaAtuacaoObrigatoria => EmBranco(c.areaAtuacao)
    case PorteInvalido => c.porteEmpresa !in PortesEmpresa
    case FatorEncargosInvalido => c.fatorEncargos !in FatoresEncargos
  }

  /** A client that passes every check. */
  predicate ClienteValido(c: Cliente) {
    !EmBranco(c.nomeCliente) && !EmBranco(c.nomeProjeto) && !EmBranco(c.areaAtuacao)
    && c.porteEmpresa in PortesEmpresa && c.fatorEncargos in FatoresEncargos
  }

  /** The check at position `k` of the validator. */
  function ChecagemCliente(k: int): (e: ErroCliente)
    requires 0 <= k < 5
    ensures e.Ordem() == k
  {
    if k == 0 then NomeClienteObrigatorio
    else if k == 1 then NomeProjetoObrigatorio
    else if k == 2 then AreaAtuacaoObrigatoria
    else if k == 3 then PorteInvalido
    else FatorEncargosInvalido
  }

  /** Every error is the check at its own position. */
  lemma ChecagemClienteOrdem(e: ErroCliente)
    ensures ChecagemCliente(e.Ordem()) == e
  {
  }

  /** The errors the first `n` checks of `validar_cliente` report. */
  function ErrosClienteAte(c: Cliente, n: nat): seq<ErroCliente>
    requires n <= 5
  {
    if n == 0 then []
    else ErrosClienteAte(c, n - 1) + SeFalhou(FalhaCliente(c, ChecagemCliente(n - 1)), ChecagemCliente(n - 1))
  }

  /** The errors `validar_cliente` reports. */
  function ErrosCliente(c: Cliente): seq<ErroCliente> {
    ErrosClienteAte(c, 5)
  }

  /** `validar_cliente`: every check in order, appending the error of each one that fails. */
  method ValidarCliente(cliente: Cliente) returns (erros: seq<ErroCliente>)
    ensures erros == ErrosCliente(cliente)
  {
    erros := [];
    erros := Registrar(erros, FalhaCliente(cliente, NomeClienteObrigatorio), NomeClienteObrigatorio);
    assert erros == ErrosClienteAte(cliente, 1);
    erros := Registrar(erros, FalhaCliente(cliente, NomeProjetoObrigatorio), NomeProjetoObrigatorio);
    assert erros == ErrosClienteAte(cliente, 2);
    erros := Registrar(erros, FalhaCliente(cliente, AreaAtuacaoObrigatoria), AreaAtuacaoObrigatoria);
    assert erros == ErrosClienteAte(cliente, 3);
    erros := Registrar(erros, FalhaCliente(cliente, PorteInvalido), PorteInvalido);
    assert erros == ErrosClienteAte(cliente, 4);
    erros := Registrar(erros, FalhaCliente(cliente, FatorEncargosInvalido), FatorEncargosInvalido);
    assert erros == ErrosClienteAte(cliente, 5);
  }

  /** After `n` checks, exactly the failing checks among the first `n` are reported. */
  lemma {:induction false} ErrosClienteAteMembros(c: Cliente, n: nat, x: ErroCliente)
    requires n <= 5
    ensures x in ErrosClienteAte(c, n) <==> FalhaCliente(c, x) && x.Ordem() < n
  {
    if n > 0 {
      ErrosClienteAteMembros(c, n - 1, x);
      ChecagemClienteOrdem(x);
    }
  }

  /** A client error is reported exactly when its own check fails. */
  lemma ErrosClienteMembros(c: Cliente, x: ErroCliente)
    ensures x in ErrosCliente(c) <==> FalhaCliente(c, x)
  {
    ErrosClienteAteMembros(c, 5, x);
  }

  /** After `n` checks, the errors are in check order and below position `n`. */
  lemma {:induction false} ErrosClienteAteCrescente(c: Cliente, n: nat)
    requires n <= 5
    ensures Crescente(ErrosClienteAte(c, n), OrdemErroCliente)
    ensures Abaixo(ErrosClienteAte(c, n), OrdemErroCliente, n)
  {
    if n > 0 {
      ErrosClienteAteCrescente(c, n - 1);
      var e := ChecagemCliente(n - 1);
      CrescenteApos(ErrosClienteAte(c, n - 1), FalhaCliente(c, e), e, OrdemErroCliente);
    }
  }

  /** The client errors come in check order, each at most once. */
  lemma ErrosClienteCrescente(c: Cliente)
    ensures Crescente(ErrosCliente(c), OrdemErroCliente)
  {
    ErrosClienteAteCrescente(c, 5);
  }

  /** No client error is reported exactly when every check passes. */
  lemma ErrosClienteVazio(c: Cliente)
    ensures ErrosCliente(c) == [] <==> ClienteValido(c)
  {
    if ErrosCliente(c) != [] {
      ErrosClienteMembros(c, ErrosCliente(c)[0]);
    } else {
      ErrosClienteMembros(c, NomeClienteObrigatorio);
      ErrosClienteMembros(c, NomeProjetoObrigatorio);
      ErrosClienteMembros(c, AreaAtuacaoObrigatoria);
      ErrosClienteMembros(c, PorteInvalido);
      ErrosClienteMembros(c, FatorEncargosInvalido);
    }
  }

  // ---------------------------------------------------------------------------
  // Current process
  // ---------------------------------------------------------------------------

  predicate TemCadencia(p: Processo) {
    p.cadenciaProducao.Some? && p.cadenciaProducao.value > 0.0
  }

  predicate TemProducaoMensal(p: Processo) {
    p.producaoMensal.Some? && p.producaoMensal.value > 0.0
  }

  /** A process that passes every check. */
  predicate ProcessoValido(p: Processo) {
    (TemCadencia(p) || TemProducaoMensal(p))
    && 1.0 <= p.horasPorTurno <= 24.0
    && 1 <= p.turnosPorDia <= 3
    && 1 <= p.diasOperacaoAno <= 365
    && p.pessoasProcessoTurno >= 1
    && p.pessoasInspecaoTurno >= 0
    && p.salarioMedioOperador >= 0.0
    && p.salarioMedioInspetor >= 0.0
    && p.salarioMedioSupervisor >= 0.0
    && p.custoUnitarioPeca >= 0.0
    && p.custoMateriaPrimaPeca >= 0.0
    && (p.faturamentoMensalLinha.Some? ==> p.faturamentoMensalLinha.value >= 0.0)
  }

  datatype ErroProcesso =
    | ProducaoAusente
    | HorasPorTurnoForaDoIntervalo
    | TurnosPorDiaForaDoIntervalo
    | DiasOperacaoForaDoIntervalo
    | SemPessoaNoProcesso
    | InspecaoNegativa
    | SalarioOperadorNegativo
    | SalarioInspetorNegativo
    | SalarioSupervisorNegativo
    | CustoUnitarioNegativo
    | CustoMateriaPrimaNegativo
    | FaturamentoNegativo
  {
    /** The position of the check in the validator. */
    function Ordem(): int {
      match this
      case ProducaoAusente => 0
      case HorasPorTurnoForaDoIntervalo => 1
      case TurnosPorDiaForaDoIntervalo => 2
      case DiasOperacaoForaDoIntervalo => 3
      case SemPessoaNoProcesso => 4
      case InspecaoNegativa => 5
      case SalarioOperadorNegativo => 6
      case SalarioInspetorNegativo => 7
      case SalarioSupervisorNegativo => 8
      case CustoUnitarioNegativo => 9
      case CustoMateriaPrimaNegativo => 10
      case FaturamentoNegativo => 11
    }

    function Mensagem(): string {
      match this
      case ProducaoAusente => "Informe cadência de produção (>0) ou produção mensal (>0)."
      case HorasPorTurnoForaDoIntervalo => "Horas por turno deve estar entre 1 e 24."
      case TurnosPorDiaForaDoIntervalo => "Turnos por dia deve estar entre 1 e 3."
      case DiasOperacaoForaDoIntervalo => "Dias de operação por ano deve estar entre 1 e 365."
      case SemPessoaNoProcesso => "Deve haver pelo menos 1 pessoa no processo por turno."
      case InspecaoNegativa => "Pessoas em inspeção não pode ser negativo."
      case SalarioOperadorNegativo => "Salário médio do operador não pode ser negativo."
      case SalarioInspetorNegativo => "Salário médio do inspetor não pode ser negativo."
      case SalarioSupervisorNegativo => "Salário médio do supervisor não pode ser negativo."
      case CustoUnitarioNegativo => "Custo unitário da peça não pode ser negativo."
      case CustoMateriaPrimaNegativo => "Custo de matéria-prima por peça não pode ser negativo."
      case FaturamentoNegativo => "Faturamento mensal da linha não pode ser negativo."
    }
  }

  const OrdemErroProcesso: ErroProcesso -> int := (e: ErroProcesso) => e.Ordem()

  /** The condition under which each  process error is reported. */
  predicate FalhaProcesso(p: Processo, e: ErroProcesso) {
    match e
    case ProducaoAusente => !(TemCadencia(p) || TemProducaoMensal(p))
    case HorasPorTurnoForaDoIntervalo => !(1.0 <= p.horasPorTurno <= 24.0)
    case TurnosPorDiaForaDoIntervalo => !(1 <= p.turnosPorDia <= 3)
    case DiasOperacaoForaDoIntervalo => !(1 <= p.diasOperacaoAno <= 365)
    case SemPessoaNoProcesso => p.pessoasProcessoTurno < 1
    case InspecaoNegativa => p.pessoasInspecaoTurno < 0
    case SalarioOperadorNegativo => p.salarioMedioOperador < 0.0
    case SalarioInspetorNegativo => p.salarioMedioInspetor < 0.0
    case SalarioSupervisorNegativo => p.salarioMedioSupervisor < 0.0
    case CustoUnitarioNegativo => p.custoUnitarioPeca < 0.0
    case CustoMateriaPrimaNegativo => p.custoMateriaPrimaPeca < 0.0
    case FaturamentoNegativo => p.faturamentoMensalLinha.Some? && p.faturamentoMensalLinha.value < 0.0
  }

  /** The check at position `k` of the validator. */
  function ChecagemProcesso(k: int): (e: ErroProcesso)
    requires 0 <= k < 12
    ensures e.Ordem() == k
  {
    if k == 0 then ProducaoAusente
    else if k == 1 then HorasPorTurnoForaDoIntervalo
    else if k == 2 then TurnosPorDiaForaDoIntervalo
    else if k == 3 then DiasOperacaoForaDoIntervalo
    else if k == 4 then SemPessoaNoProcesso
    else if k == 5 then InspecaoNegativa
    else if k == 6 then SalarioOperadorNegativo
    else if k == 7 then SalarioInspetorNegativo
    else if k == 8 then SalarioSupervisorNegativo
    else if k == 9 then CustoUnitarioNegativo
    else if k == 10 then CustoMateriaPrimaNegativo
    else FaturamentoNegativo
  }

  /** Every error is the check at its own position. */
  lemma ChecagemProcessoOrdem(e: ErroProcesso)
    ensures ChecagemProcesso(e.Ordem()) == e
  {
  }

  /** The errors the first `n` checks of `validar_processo_atual` report. */
  function ErrosProcessoAte(p: Processo, n: nat): seq<ErroProcesso>
    requires n <= 12
  {
    if n == 0 then []
    else ErrosProcessoAte(p, n - 1) + SeFalhou(FalhaProcesso(p, ChecagemProcesso(n - 1)), ChecagemProcesso(n - 1))
  }

  /** The errors `validar_processo_atual` reports. */
  function ErrosProcesso(p: Processo): seq<ErroProcesso> {
    ErrosProcessoAte(p, 12)
  }

  /** `validar_processo_atual`: every check in order, appending the error of each one that fails. */
  method ValidarProcessoAtual(processo: Processo) returns (erros: seq<ErroProcesso>)
    ensures erros == ErrosProcesso(processo)
  {
    erros := [];
    erros := Registrar(erros, FalhaProcesso(processo, ProducaoAusente), ProducaoAusente);
    assert erros == ErrosProcessoAte(processo, 1);
    erros := Registrar(erros, FalhaProcesso(processo, HorasPorTurnoForaDoIntervalo), HorasPorTurnoForaDoIntervalo);
    assert erros == ErrosProcessoAte(processo, 2);
    erros := Registrar(erros, FalhaProcesso(processo, TurnosPorDiaForaDoIntervalo), TurnosPorDiaForaDoIntervalo);
    assert erros == ErrosProcessoAte(processo, 3);
    erros := Registrar(erros, FalhaProcesso(processo, DiasOperacaoForaDoIntervalo), DiasOperacaoForaDoIntervalo);
    assert erros == ErrosProcessoAte(processo, 4);
    erros := Registrar(erros, FalhaProcesso(processo, SemPessoaNoProcesso), SemPessoaNoProcesso);
    assert erros == ErrosProcessoAte(processo, 5);
    erros := Registrar(erros, FalhaProcesso(processo, InspecaoNegativa), InspecaoNegativa);
    assert erros == ErrosProcessoAte(processo, 6);
    erros := Registrar(erros, FalhaProcesso(processo, SalarioOperadorNegativo), SalarioOperadorNegativo);
    assert erros == ErrosProcessoAte(processo, 7);
    erros := Registrar(erros, FalhaProcesso(processo, SalarioInspetorNegativo), SalarioInspetorNegativo);
    assert erros == ErrosProcessoAte(processo, 8);
    erros := Registrar(erros, FalhaProcesso(processo, SalarioSupervisorNegativo), SalarioSupervisorNegativo);
    assert erros == ErrosProcessoAte(processo, 9);
    erros := Registrar(erros, FalhaProcesso(processo, CustoUnitarioNegativo), CustoUnitarioNegativo);
    assert erros == ErrosProcessoAte(processo, 10);
    erros := Registrar(erros, FalhaProcesso(processo, CustoMateriaPrimaNegativo), CustoMateriaPrimaNegativo);
    assert erros == ErrosProcessoAte(processo, 11);
    erros := Registrar(erros, FalhaProcesso(processo, FaturamentoNegativo), FaturamentoNegativo);
    assert erros == ErrosProcessoAte(processo, 12);
  }

  /** After `n` checks, exactly the failing checks among the first `n` are reported. */
  lemma {:induction false} ErrosProcessoAteMembros(p: Processo, n: nat, x: ErroProcesso)
    requires n <= 12
    ensures x in ErrosProcessoAte(p, n) <==> FalhaProcesso(p, x) && x.Ordem() < n
  {
    if n > 0 {
      ErrosProcessoAteMembros(p, n - 1, x);
      ChecagemProcessoOrdem(x);
    }
  }

  /** A process error is reported exactly when its own check fails. */
  lemma ErrosProcessoMembros(p: Processo, x: ErroProcesso)
    ensures x in ErrosProcesso(p) <==> FalhaProcesso(p, x)
  {
    ErrosProcessoAteMembros(p, 12, x);
  }

  /** After `n` checks, the errors are in check order and below position `n`. */
  lemma {:induction false} ErrosProcessoAteCrescente(p: Processo, n: nat)
    requires n <= 12
    ensures Crescente(ErrosProcessoAte(p, n), OrdemErroProcesso)
    ensures Abaixo(ErrosProcessoAte(p, n), OrdemErroProcesso, n)
  {
    if n > 0 {
      ErrosProcessoAteCrescente(p, n - 1);
      var e := ChecagemProcesso(n - 1);
      CrescenteApos(ErrosProcessoAte(p, n - 1), FalhaProcesso(p, e), e, OrdemErroProcesso);
    }
  }

  /** The process errors come in check order, each at most once. */
  lemma ErrosProcessoCrescente(p: Processo)
    ensures Crescente(ErrosProcesso(p), OrdemErroProcesso)
  {
    ErrosProcessoAteCrescente(p, 12);
  }

  /** No process error is reported exactly when every check passes. */
  lemma ErrosProcessoVazio(p: Processo)
    ensures ErrosProcesso(p) == [] <==> ProcessoValido(p)
  {
    if ErrosProcesso(p) != [] {
      ErrosProcessoMembros(p, ErrosProcesso(p)[0]);
    } else {
      ErrosProcessoMembros(p, ProducaoAusente);
      ErrosProcessoMembros(p, HorasPorTurnoForaDoIntervalo);
      ErrosProcessoMembros(p, TurnosPorDiaForaDoIntervalo);
      ErrosProcessoMembros(p, DiasOperacaoForaDoIntervalo);
      ErrosProcessoMembros(p, SemPessoaNoProcesso);
      ErrosProcessoMembros(p, InspecaoNegativa);
      ErrosProcessoMembros(p, SalarioOperadorNegativo);
      ErrosProcessoMembros(p, SalarioInspetorNegativo);
      ErrosProcessoMembros(p, SalarioSupervisorNegativo);
      ErrosProcessoMembros(p, CustoUnitarioNegativo);
      ErrosProcessoMembros(p, CustoMateriaPrimaNegativo);
      ErrosProcessoMembros(p, FaturamentoNegativo);
    }
  }

  // ---------------------------------------------------------------------------
  // Investment
  // ---------------------------------------------------------------------------

  /** An investment range that passes every check. */
  predicate InvestimentoValido(i: Investimento) {
    0.0 < i.valorInvestimentoMin <= i.valorInvestimentoMax
  }

  datatype ErroInvestimento =
    | MinimoNaoPositivo
    | MaximoNaoPositivo
    | MinimoMaiorQueMaximo
  {
    /** The position of the check in the validator. */
    function Ordem(): int {
      match this
      case MinimoNaoPositivo => 0
      case MaximoNaoPositivo => 1
      case MinimoMaiorQueMaximo => 2
    }

    function Mensagem(): string {
      match this
      case MinimoNaoPositivo => "Valor mínimo de investimento deve ser maior que zero."
      case MaximoNaoPositivo => "Valor máximo de investimento deve ser maior que zero."
      case MinimoMaiorQueMaximo => "Valor mínimo não pode ser maior que o valor máximo."
    }
  }

  const OrdemErroInvestimento: ErroInvestimento -> int := (e: ErroInvestimento) => e.Ordem()

  /** The condition under which each n investment error is reported. */
  predicate FalhaInvestimento(i: Investimento, e: ErroInvestimento) {
    match e
    case MinimoNaoPositivo => i.valorInvestimentoMin <= 0.0
    case MaximoNaoPositivo => i.valorInvestimentoMax <= 0.0
    case MinimoMaiorQueMaximo => i.valorInvestimentoMin > i.valorInvestimentoMax
  }

  /** The check at position `k` of the validator. */
  function ChecagemInvestimento(k: int): (e: ErroInvestimento)
    requires 0 <= k < 3
    ensures e.Ordem() == k
  {
    if k == 0 then MinimoNaoPositivo
    else if k == 1 then MaximoNaoPositivo
    else MinimoMaiorQueMaximo
  }

  /** Every error is the check at its own position. */
  lemma ChecagemInvestimentoOrdem(e: ErroInvestimento)
    ensures ChecagemInvestimento(e.Ordem()) == e
  {
  }

  /** The errors the first `n` checks of `validar_investimento` report. */
  function ErrosInvestimentoAte(i: Investimento, n: nat): seq<ErroInvestimento>
    requires n <= 3
  {
    if n == 0 then []
    else ErrosInvestimentoAte(i, n - 1) + SeFalhou(FalhaInvestimento(i, ChecagemInvestimento(n - 1)), ChecagemInvestimento(n - 1))
  }

  /** The errors `validar_investimento` reports. */
  function ErrosInvestimento(i: Investimento): seq<ErroInvestimento> {
    ErrosInvestimentoAte(i, 3)
  }

  /** `validar_investimento`: every check in order, appending the error of each one that fails. */
  method ValidarInvestimento(investimento: Investimento) returns (erros: seq<ErroInvestimento>)
    ensures erros == ErrosInvestimento(investimento)
  {
    erros := [];
    erros := Registrar(erros, FalhaInvestimento(investimento, MinimoNaoPositivo), MinimoNaoPositivo);
    assert erros == ErrosInvestimentoAte(investimento, 1);
    erros := Registrar(erros, FalhaInvestimento(investimento, MaximoNaoPositivo), MaximoNaoPositivo);
    assert erros == ErrosInvestimentoAte(investimento, 2);
    erros := Registrar(erros, FalhaInvestimento(investimento, MinimoMaiorQueMaximo), MinimoMaiorQueMaximo);
    assert erros == ErrosInvestimentoAte(investimento, 3);
  }

  /** After `n` checks, exactly the failing checks among the first `n` are reported. */
  lemma {:induction false} ErrosInvestimentoAteMembros(i: Investimento, n: nat, x: ErroInvestimento)
    requires n <= 3
    ensures x in ErrosInvestimentoAte(i, n) <==> FalhaInvestimento(i, x) && x.Ordem() < n
  {
    if n > 0 {
      ErrosInvestimentoAteMembros(i, n - 1, x);
      ChecagemInvestimentoOrdem(x);
    }
  }

  /** An investment error is reported exactly when its own check fails. */
  lemma ErrosInvestimentoMembros(i: Investimento, x: ErroInvestimento)
    ensures x in ErrosInvestimento(i) <==> FalhaInvestimento(i, x)
  {
    ErrosInvestimentoAteMembros(i, 3, x);
  }

  /** After `n` checks, the errors are in check order and below position `n`. */
  lemma {:induction false} ErrosInvestimentoAteCrescente(i: Investimento, n: nat)
    requires n <= 3
    ensures Crescente(ErrosInvestimentoAte(i, n), OrdemErroInvestimento)
    ensures Abaixo(ErrosInvestimentoAte(i, n), OrdemErroInvestimento, n)
  {
    if n > 0 {
      ErrosInvestimentoAteCrescente(i, n - 1);
      var e := ChecagemInvestimento(n - 1);
      CrescenteApos(ErrosInvestimentoAte(i, n - 1), FalhaInvestimento(i, e), e, OrdemErroInvestimento);
    }
  }

  /** The investment errors come in check order, each at most once. */
  lemma ErrosInvestimentoCrescente(i: Investimento)
    ensures Crescente(ErrosInvestimento(i), OrdemErroInvestimento)
  {
    ErrosInvestimentoAteCrescente(i, 3);
  }

  /** No investment error is reported exactly when every check passes. */
  lemma ErrosInvestimentoVazio(i: Investimento)
    ensures ErrosInvestimento(i) == [] <==> InvestimentoValido(i)
  {
    if ErrosInvestimento(i) != [] {
      ErrosInvestimentoMembros(i, ErrosInvestimento(i)[0]);
    } else {
      ErrosInvestimentoMembros(i, MinimoNaoPositivo);
      ErrosInvestimentoMembros(i, MaximoNaoPositivo);
      ErrosInvestimentoMembros(i, MinimoMaiorQueMaximo);
    }
  }

  // ---------------------------------------------------------------------------
  // Detailed parameters
  // ---------------------------------------------------------------------------

  /** The label of a parameter in the messages. */
  function Rotulo(c: Campo): string {
    match c
    case F02MediaHeMesPorPessoa => "F02: Média de horas extras por mês por pessoa"
    case F03NovasContratacoesAno => "F03: Novas contratações por ano"
    case F03SalarioNovato => "F03: Salário do novato"
    case F03MesesCurva => "F03: Meses de curva de aprendizagem"
    case F03PercentualTempoSupervisor => "F03: Percentual de tempo do supervisor"
    case F03SalarioSupervisor => "F03: Salário do supervisor"
    case F04DesligamentosAno => "F04: Desligamentos por ano"
    case F04FatorCustoTurnover => "F04: Fator de custo de turnover"
    case F05PercentualRefugo => "F05: Percentual de refugo"
    case F05PercentualRetrabalho => "F05: Percentual de retrabalho"
    case F05HorasRetrabalhoPorUnidade => "F05: Horas de retrabalho por unidade"
    case F07ReclamacoesClientesAno => "F07: Reclamações de clientes por ano"
    case F07CustoMedioPorReclamacao => "F07: Custo médio por reclamação"
    case F08PercentualDemandaReprimida => "F08: Percentual de demanda reprimida"
    case F08MargemContribuicao => "F08: Margem de contribuição"
    case F09MinutosOciososPorDia => "F09: Minutos ociosos por dia"
    case F10ParadasMes => "F10: Paradas por mês"
    case F10DuracaoMediaParadaHoras => "F10: Duração média da parada (h)"
    case F10CustoHoraParada => "F10: Custo hora parada (se informado)"
    case F11SetupsMes => "F11: Setups por mês"
    case F11HorasPorSetup => "F11: Horas por setup"
    case F11CustoHoraParada => "F11: Custo hora parada (se informado)"
    case F12AfastamentosAno => "F12: Afastamentos por ano"
    case F12CustoMedioAfastamento => "F12: Custo médio por afastamento"
    case F12AcidentesComLesaoAno => "F12: Acidentes com lesão por ano"
    case F12CustoMedioAcidente => "F12: Custo médio por acidente"
    case F12ProbabilidadeProcesso => "F12: Probabilidade de processo"
    case F12CustoEstimadoProcesso => "F12: Custo estimado do processo"
    case F13NumEmpilhadeiras => "F13: Número de empilhadeiras"
    case F13CustoOperadorMes => "F13: Custo operador/mês"
    case F13CustoEquipamentoMes => "F13: Custo equipamento/mês"
    case F13CustoEnergiaMes => "F13: Custo energia/mês"
    case F13CustoManutencaoMes => "F13: Custo manutenção/mês"
    case F14NumSupervisores => "F14: Número de supervisores"
    case F14SalarioSupervisor => "F14: Salário do supervisor (se informado)"
    case F15CustoEpiAnoPorPessoa => "F15: Custo de EPI/ano por pessoa"
    case F15CustoExamesAnoPorPessoa => "F15: Custo de exames/ano por pessoa"
    case F16AreaOperacaoM2 => "F16: Área de operação (m²)"
    case F16CustoEnergiaM2Ano => "F16: Custo energia por m²/ano"
    case F17AreaM2 => "F17: Área (m²)"
    case F17CustoM2Ano => "F17: Custo m²/ano"
    case F17PercentualReducaoAutomacao => "F17: Percentual de redução com automação"
    case F18PessoasEnvolvidas => "F18: Pessoas envolvidas"
    case F18HorasDiaTarefasDados => "F18: Horas/dia em tarefas de dados"
  }

  /** The block of the parameter's formula demands a value (`_req`). */
  predicate Requerido(c: Campo) {
    match c
    case F03SalarioSupervisor | F04FatorCustoTurnover | F10CustoHoraParada | F11CustoHoraParada
       | F14NumSupervisores | F14SalarioSupervisor => false
    case _ => true
  }

  /**
   * The parameter is a percentage: normalised to a fraction and then checked
   * to lie in [0, 1]. Every other parameter is checked to be non-negative.
   */
  predicate EhFracao(c: Campo) {
    match c
    case F03PercentualTempoSupervisor | F05PercentualRefugo | F05PercentualRetrabalho
       | F08PercentualDemandaReprimida | F08MargemContribuicao | F12ProbabilidadeProcesso
       | F17PercentualReducaoAutomacao => true
    case _ => false
  }

  /** `_normalize_fraction` on a present value: a value in (1, 100] is a percentage. */
  function NormalizarValor(x: real): real {
    if 1.0 < x <= 100.0 then x / 100.0 else x
  }

  /** Normalising twice is normalising once. */
  lemma NormalizarIdempotente(x: real)
    ensures NormalizarValor(NormalizarValor(x)) == NormalizarValor(x)
  {
  }

  /** A normalised value is a fraction exactly when the raw value is a percentage in [0, 100]. */
  lemma NormalizarFaixa(x: real)
    ensures 0.0 <= NormalizarValor(x) <= 1.0 <==> 0.0 <= x <= 100.0
    ensures 0.0 <= x <= 1.0 ==> NormalizarValor(x) == x
    ensures 1.0 < x <= 100.0 ==> NormalizarValor(x) * 100.0 == x
  {
  }

  datatype ErroParametro =
    | Obrigatorio(campo: Campo)
    | Negativo(campo: Campo)
    | ForaDeFracao(campo: Campo)
    | F08SemFaturamento
    | F10SemCustoHoraParada
    | F11SemCustoHoraParada
  {
    /** The formula whose block reports the error. */
    function Bloco(): Formula {
      match this
      case Obrigatorio(c) => Dono(c)
      case Negativo(c) => Dono(c)
      case ForaDeFracao(c) => Dono(c)
      case F08SemFaturamento => F08
      case F10SemCustoHoraParada => F10
      case F11SemCustoHoraParada => F11
    }

    function Mensagem(): string {
      match this
      case Obrigatorio(c) => Rotulo(c) + " é obrigatório."
      case Negativo(c) => Rotulo(c) + " não pode ser negativo."
      case ForaDeFracao(c) => Rotulo(c) + " deve estar entre 0% e 100%."
      case F08SemFaturamento => "F08: Informe o faturamento mensal da linha (senão a fórmula fica zerada)."
      case F10SemCustoHoraParada => "F10: Informe faturamento mensal da linha ou preencha um Custo hora parada (> 0)."
      case F11SemCustoHoraParada => "F11: Informe faturamento mensal da linha ou preencha um Custo hora parada (> 0)."
    }
  }

  /** `not processo.faturamento_mensal_linha`: the monthly revenue is missing or zero. */
  predicate SemFaturamento(p: Processo) {
    p.faturamentoMensalLinha.None? || p.faturamentoMensalLinha.value == 0.0
  }

  /** `params.c and params.c > 0`: the field holds a positive value. */
  predicate Positivo(v: map<Campo, real>, c: Campo) {
    c in v && v[c] > 0.0
  }

  /** The required-field errors of the fields `cs`, in order. */
  function Obrigatorios(cs: seq<Campo>, v: map<Campo, real>): seq<ErroParametro> {
    if cs == [] then []
    else Obrigatorios(cs[..|cs| - 1], v) + SeFalhou(Requerido(cs[|cs| - 1]) && cs[|cs| - 1] !in v, Obrigatorio(cs[|cs| - 1]))
  }

  /**
   * The value check of one field on its value before normalisation: the range
   * check of a percentage reads the normalised value.
   */
  function Verificacao(c: Campo, v: map<Campo, real>): seq<ErroParametro> {
    if EhFracao(c) then SeFalhou(c in v && !(0.0 <= NormalizarValor(v[c]) <= 1.0), ForaDeFracao(c))
    else SeFalhou(c in v && v[c] < 0.0, Negativo(c))
  }

  /** The value checks of the fields `cs`, in order. */
  function Verificacoes(cs: seq<Campo>, v: map<Campo, real>): seq<ErroParametro> {
    if cs == [] then []
    else Verificacoes(cs[..|cs| - 1], v) + Verificacao(cs[|cs| - 1], v)
  }

  /** The check particular to a block, after its field checks. */
  function Especiais(f: Formula, v: map<Campo, real>, p: Processo): seq<ErroParametro> {
    match f
    case F08 => SeFalhou(SemFaturamento(p), F08SemFaturamento)
    case F10 => SeFalhou(SemFaturamento(p) && !Positivo(v, F10CustoHoraParada), F10SemCustoHoraParada)
    case F11 => SeFalhou(SemFaturamento(p) && !Positivo(v, F11CustoHoraParada), F11SemCustoHoraParada)
    case _ => []
  }

  /** The errors of the block of formula `f`, on the parameters as they were. */
  function ErrosBloco(f: Formula, v: map<Campo, real>, p: Processo): seq<ErroParametro> {
    Obrigatorios(CamposDe(f), v) + Verificacoes(CamposDe(f), v) + Especiais(f, v, p)
  }

  /** The errors of the blocks of the first `k` formulas. */
  function ErrosAte(d: Dores, v: map<Campo, real>, p: Processo, k: nat): seq<ErroParametro>
    requires k <= NumFormulas
  {
    if k == 0 then []
    else ErrosAte(d, v, p, k - 1) + (if d.Marcada(FormulaEm(k - 1)) then ErrosBloco(FormulaEm(k - 1), v, p) else [])
  }

  /** The errors `validar_parametros_detalhados` reports. */
  function ErrosParametros(d: Dores, v: map<Campo, real>, p: Processo): seq<ErroParametro> {
    ErrosAte(d, v, p, NumFormulas)
  }

  /** The values once the percentages among the fields `cs` are normalised. */
  function NormalizarEntre(v: map<Campo, real>, cs: seq<Campo>): map<Campo, real> {
    map c | c in v :: if EhFracao(c) && c in cs then NormalizarValor(v[c]) else v[c]
  }

  /** The values once the blocks of the first `k` formulas have run. */
  function NormalizarAte(v: map<Campo, real>, d: Dores, k: nat): map<Campo, real>
    requires k <= NumFormulas
  {
    if k == 0 then v
    else if d.Marcada(FormulaEm(k - 1)) then NormalizarEntre(NormalizarAte(v, d, k - 1), CamposDe(FormulaEm(k - 1)))
    else NormalizarAte(v, d, k - 1)
  }

  /** The values `validar_parametros_detalhados` leaves behind. */
  function NormalizarSelecionadas(v: map<Campo, real>, d: Dores): map<Campo, real> {
    NormalizarAte(v, d, NumFormulas)
  }

  /** `_normalize_fraction(campo)`. */
  method NormalizarFracao(params: Parametros, c: Campo)
    modifies params
    ensures c in old(params.valores) ==> params.valores == old(params.valores)[c := NormalizarValor(old(params.valores)[c])]
    ensures c !in old(params.valores) ==> params.valores == old(params.valores)
  {
    var valor := params.Valor(c);
    if valor.Some? && valor.value > 1.0 && valor.value <= 100.0 {
      params.valores := params.valores[c := valor.value / 100.0];
    } else if valor.Some? {
      assert params.valores[c := NormalizarValor(params.valores[c])] == params.valores;
    }
  }

  /** One percentage-normalisation step of a block. */
  lemma NormalizarEntrePasso(v: map<Campo, real>, cs: seq<Campo>, i: nat)
    requires i < |cs|
    ensures cs[i] in NormalizarEntre(v, cs[..i]) <==> cs[i] in v
    ensures EhFracao(cs[i]) && cs[i] in v ==>
              NormalizarEntre(v, cs[..i + 1])
              == NormalizarEntre(v, cs[..i])[cs[i] := NormalizarValor(NormalizarEntre(v, cs[..i])[cs[i]])]
    ensures !EhFracao(cs[i]) || cs[i] !in v ==> NormalizarEntre(v, cs[..i + 1]) == NormalizarEntre(v, cs[..i])
  {
    assert forall c :: c in cs[..i + 1] <==> c in cs[..i] || c == cs[i] by {
      assert cs[..i + 1] == cs[..i] + [cs[i]];
    }
    if cs[i] in v {
      NormalizarIdempotente(v[cs[i]]);
    }
  }

  /** The `_req` calls of a block, one per field in order. */
  method ChecarObrigatorios(params: Parametros, cs: seq<Campo>) returns (erros: seq<ErroParametro>)
    ensures erros == Obrigatorios(cs, params.valores)
  {
    erros := [];
    for i := 0 to |cs|
      invariant erros == Obrigatorios(cs[..i], params.valores)
    {
      assert cs[..i + 1][..i] == cs[..i];
      erros := Registrar(erros, Requerido(cs[i]) && params.Valor(cs[i]).None?, Obrigatorio(cs[i]));
    }
    assert cs[..|cs|] == cs;
  }

  /**
   * The value checks of a block, one per field in order: `_nonneg`, or
   * `_normalize_fraction` followed by `_fraction` for a percentage.
   */
  method ChecarValores(params: Parametros, cs: seq<Campo>) returns (erros: seq<ErroParametro>)
    modifies params
    ensures params.valores == NormalizarEntre(old(params.valores), cs)
    ensures erros == Verificacoes(cs, old(params.valores))
  {
    ghost var v0 := params.valores;
    erros := [];
    assert NormalizarEntre(v0, cs[..0]) == v0;
    for i := 0 to |cs|
      invariant params.valores == NormalizarEntre(v0, cs[..i])
      invariant erros == Verificacoes(cs[..i], v0)
    {
      var c := cs[i];
      assert cs[..i + 1][..i] == cs[..i];
      NormalizarEntrePasso(v0, cs, i);
      if EhFracao(c) {
        NormalizarFracao(params, c);
        var valor := params.Valor(c);
        erros := Registrar(erros, valor.Some? && !(0.0 <= valor.value <= 1.0), ForaDeFracao(c));
      } else {
        var valor := params.Valor(c);
        erros := Registrar(erros, valor.Some? && valor.value < 0.0, Negativo(c));
      }
    }
    assert cs[..|cs|] == cs;
  }

  /** The check particular to the block of `f`, if it has one. */
  method ChecarEspecial(params: Parametros, f: Formula, processo: Processo) returns (erros: seq<ErroParametro>)
    ensures erros == Especiais(f, params.valores, processo)
  {
    erros := [];
    if f == F08 {
      erros := Registrar(erros, SemFaturamento(processo), F08SemFaturamento);
    } else if f == F10 {
      var custo := params.Valor(F10CustoHoraParada);
      erros := Registrar(erros, SemFaturamento(processo) && !(custo.Some? && custo.value > 0.0), F10SemCustoHoraParada);
    } else if f == F11 {
      var custo := params.Valor(F11CustoHoraParada);
      erros := Registrar(erros, SemFaturamento(processo) && !(custo.Some? && custo.value > 0.0), F11SemCustoHoraParada);
    }
  }

  /** Normalising percentages leaves the particular checks unchanged: they read no percentage. */
  lemma EspeciaisNormalizar(f: Formula, v: map<Campo, real>, cs: seq<Campo>, p: Processo)
    ensures Especiais(f, NormalizarEntre(v, cs), p) == Especiais(f, v, p)
  {
  }

  /**
   * The block of formula `f` (`if dores.<flag>: ...`): the required-field
   * checks, the value checks, then the block's particular check.
   */
  method ValidarBloco(params: Parametros, f: Formula, processo: Processo) returns (erros: seq<ErroParametro>)
    modifies params
    ensures params.valores == NormalizarEntre(old(params.valores), CamposDe(f))
    ensures erros == ErrosBloco(f, old(params.valores), processo)
  {
    var cs := CamposDe(f);
    erros := ChecarObrigatorios(params, cs);
    var valores := ChecarValores(params, cs);
    var especial := ChecarEspecial(params, f, processo);
    EspeciaisNormalizar(f, old(params.valores), cs, processo);
    erros := erros + valores + especial;
  }

  /** Two parameter maps agree on the fields of formula `f`. */
  ghost predicate IguaisEm(v: map<Campo, real>, w: map<Campo, real>, f: Formula) {
    forall c :: c in CamposDe(f) ==> (c in v <==> c in w) && (c in v ==> v[c] == w[c])
  }

  /** The required-field checks read only which of their fields are present. */
  lemma {:induction false} ObrigatoriosLocal(cs: seq<Campo>, v: map<Campo, real>, w: map<Campo, real>)
    requires forall c :: c in cs ==> (c in v <==> c in w)
    ensures Obrigatorios(cs, v) == Obrigatorios(cs, w)
  {
    if cs != [] {
      ObrigatoriosLocal(cs[..|cs| - 1], v, w);
    }
  }

  /** The value checks read only their own fields. */
  lemma {:induction false} VerificacoesLocal(cs: seq<Campo>, v: map<Campo, real>, w: map<Campo, real>)
    requires forall c :: c in cs ==> (c in v <==> c in w) && (c in v ==> v[c] == w[c])
    ensures Verificacoes(cs, v) == Verificacoes(cs, w)
  {
    if cs != [] {
      VerificacoesLocal(cs[..|cs| - 1], v, w);
    }
  }

  /** A block reads only the fields of its own formula. */
  lemma ErrosBlocoLocal(f: Formula, v: map<Campo, real>, w: map<Campo, real>, p: Processo)
    requires IguaisEm(v, w, f)
    ensures ErrosBloco(f, v, p) == ErrosBloco(f, w, p)
  {
    ObrigatoriosLocal(CamposDe(f), v, w);
    VerificacoesLocal(CamposDe(f), v, w);
  }

  /** A field whose formula comes at or after position `k` is still as given. */
  lemma {:induction false} NormalizarAteFora(v0: map<Campo, real>, d: Dores, k: nat, c: Campo)
    requires k <= IndiceDe(Dono(c))
    ensures c in NormalizarAte(v0, d, k) <==> c in v0
    ensures c in v0 ==> NormalizarAte(v0, d, k)[c] == v0[c]
  {
    if k > 0 {
      var f := FormulaEm(k - 1);
      NormalizarAteFora(v0, d, k - 1, c);
      PassoNormalizar(NormalizarAte(v0, d, k - 1), CamposDe(f), c, d.Marcada(f), NormalizarAte(v0, d, k));
      CampoListado(c, f);
    }
  }

  /**
   * The values after the first `k` blocks: the percentages of the selected
   * formulas among the first `k` are normalised, every other value is kept.
   */
  lemma {:induction false} NormalizarAteValores(v0: map<Campo, real>, d: Dores, k: nat, c: Campo)
    requires k <= NumFormulas
    ensures c in NormalizarAte(v0, d, k) <==> c in v0
    ensures c in v0 ==> NormalizarAte(v0, d, k)[c]
                        == if EhFracao(c) && d.Marcada(Dono(c)) && IndiceDe(Dono(c)) < k then NormalizarValor(v0[c]) else v0[c]
  {
    if k > 0 {
      var f := FormulaEm(k - 1);
      NormalizarAteValores(v0, d, k - 1, c);
      PassoNormalizar(NormalizarAte(v0, d, k - 1), CamposDe(f), c, d.Marcada(f), NormalizarAte(v0, d, k));
      CampoListado(c, f);
      FormulaEmIndice(Dono(c));
    }
  }

  /** One block's normalisation, selected or not, at a single field. */
  lemma PassoNormalizar(w: map<Campo, real>, cs: seq<Campo>, c: Campo, marcada: bool, u: map<Campo, real>)
    requires u == if marcada then NormalizarEntre(w, cs) else w
    ensures c in u <==> c in w
    ensures c in w ==> u[c] == if marcada && EhFracao(c) && c in cs then NormalizarValor(w[c]) else w[c]
  {
  }

  /**
   * One step of the detailed validation, at the position of formula `f`:
   * the block of `f` sees its own fields as they were given.
   */
  lemma PassoParametros(v0: map<Campo, real>, d: Dores, f: Formula)
    ensures IguaisEm(NormalizarAte(v0, d, IndiceDe(f)), v0, f)
  {
    forall c | c in CamposDe(f)
      ensures (c in NormalizarAte(v0, d, IndiceDe(f)) <==> c in v0)
      ensures c in v0 ==> NormalizarAte(v0, d, IndiceDe(f))[c] == v0[c]
    {
      CampoListado(c, f);
      NormalizarAteFora(v0, d, IndiceDe(f), c);
    }
  }

  /** F01 and F06 take no detailed parameters: the source has no block for them. */
  lemma FormulaSemBloco(v0: map<Campo, real>, d: Dores, p: Processo, f: Formula)
    requires f == F01 || f == F06
    ensures NormalizarAte(v0, d, IndiceDe(f) + 1) == NormalizarAte(v0, d, IndiceDe(f))
    ensures ErrosAte(d, v0, p, IndiceDe(f) + 1) == ErrosAte(d, v0, p, IndiceDe(f))
  {
    FormulaEmIndice(f);
  }

  /** `if dores.<flag>:` followed by the block of the formula at position `k`. */
  method ValidarSeMarcada(params: Parametros, dores: Dores, k: nat, processo: Processo,
                          ghost v0: map<Campo, real>, erros: seq<ErroParametro>) returns (r: seq<ErroParametro>)
    requires k < NumFormulas
    requires params.valores == NormalizarAte(v0, dores, k)
    requires erros == ErrosAte(dores, v0, processo, k)
    modifies params
    ensures params.valores == NormalizarAte(v0, dores, k + 1)
    ensures r == ErrosAte(dores, v0, processo, k + 1)
  {
    var f := FormulaEm(k);
    PassoParametros(v0, dores, f);
    if dores.Marcada(f) {
      var bloco := ValidarBloco(params, f, processo);
      ErrosBlocoLocal(f, NormalizarAte(v0, dores, k), v0, processo);
      r := erros + bloco;
    } else {
      r := erros;
    }
  }

  /** The blocks of the labour formulas F01 .. F04, in order. */
  method ValidarMaoDeObra(params: Parametros, dores: Dores, processo: Processo,
            ghost v0: map<Campo, real>, erros: seq<ErroParametro>) returns (r: seq<ErroParametro>)
    requires params.valores == NormalizarAte(v0, dores, 0)
    requires erros == ErrosAte(dores, v0, processo, 0)
    modifies params
    ensures params.valores == NormalizarAte(v0, dores, 4)
    ensures r == ErrosAte(dores, v0, processo, 4)
  {
    r := erros;
    FormulaSemBloco(v0, dores, processo, F01);
    r := ValidarSeMarcada(params, dores, 1, processo, v0, r);
    r := ValidarSeMarcada(params, dores, 2, processo, v0, r);
    r := ValidarSeMarcada(params, dores, 3, processo, v0, r);
  }

  /** The blocks of the quality formulas F05 .. F07, in order. */
  method ValidarQualidade(params: Parametros, dores: Dores, processo: Processo,
            ghost v0: map<Campo, real>, erros: seq<ErroParametro>) returns (r: seq<ErroParametro>)
    requires params.valores == NormalizarAte(v0, dores, 4)
    requires erros == ErrosAte(dores, v0, processo, 4)
    modifies params
    ensures params.valores == NormalizarAte(v0, dores, 7)
    ensures r == ErrosAte(dores, v0, processo, 7)
  {
    r := erros;
    r := ValidarSeMarcada(params, dores, 4, processo, v0, r);
    FormulaSemBloco(v0, dores, processo, F06);
    r := ValidarSeMarcada(params, dores, 6, processo, v0, r);
  }

  /** The blocks of the productivity formulas F08 .. F11, in order. */
  method ValidarProdutividade(params: Parametros, dores: Dores, processo: Processo,
            ghost v0: map<Campo, real>, erros: seq<ErroParametro>) returns (r: seq<ErroParametro>)
    requires params.valores == NormalizarAte(v0, dores, 7)
    requires erros == ErrosAte(dores, v0, processo, 7)
    modifies params
    ensures params.valores == NormalizarAte(v0, dores, 11)
    ensures r == ErrosAte(dores, v0, processo, 11)
  {
    r := erros;
    r := ValidarSeMarcada(params, dores, 7, processo, v0, r);
    r := ValidarSeMarcada(params, dores, 8, processo, v0, r);
    r := ValidarSeMarcada(params, dores, 9, processo, v0, r);
    r := ValidarSeMarcada(params, dores, 10, processo, v0, r);
  }

  /** The blocks of the safety formulas F12 .. F13, in order. */
  method ValidarSeguranca(params: Parametros, dores: Dores, processo: Processo,
            ghost v0: map<Campo, real>, erros: seq<ErroParametro>) returns (r: seq<ErroParametro>)
    requires params.valores == NormalizarAte(v0, dores, 11)
    requires erros == ErrosAte(dores, v0, processo, 11)
    modifies params
    ensures params.valores == NormalizarAte(v0, dores, 13)
    ensures r == ErrosAte(dores, v0, processo, 13)
  {
    r := erros;
    r := ValidarSeMarcada(params, dores, 11, processo, v0, r);
    r := ValidarSeMarcada(params, dores, 12, processo, v0, r);
  }

  /** The blocks of the hidden-cost formulas F14 .. F18, in order. */
  method ValidarOcultos(params: Parametros, dores: Dores, processo: Processo,
            ghost v0: map<Campo, real>, erros: seq<ErroParametro>) returns (r: seq<ErroParametro>)
    requires params.valores == NormalizarAte(v0, dores, 13)
    requires erros == ErrosAte(dores, v0, processo, 13)
    modifies params
    ensures params.valores == NormalizarAte(v0, dores, 18)
    ensures r == ErrosAte(dores, v0, processo, 18)
  {
    r := erros;
    r := ValidarSeMarcada(params, dores, 13, processo, v0, r);
    r := ValidarSeMarcada(params, dores, 14, processo, v0, r);
    r := ValidarSeMarcada(params, dores, 15, processo, v0, r);
    r := ValidarSeMarcada(params, dores, 16, processo, v0, r);
    r := ValidarSeMarcada(params, dores, 17, processo, v0, r);
  }

  /**
   * `validar_parametros_detalhados`: the blocks of the selected formulas in
   * order; percentages are normalised in place as their blocks run.
   */
  method ValidarParametrosDetalhados(params: Parametros, dores: Dores, processo: Processo)
    returns (erros: seq<ErroParametro>)
    modifies params
    ensures params.valores == NormalizarSelecionadas(old(params.valores), dores)
    ensures erros == ErrosParametros(dores, old(params.valores), processo)
  {
    ghost var v0 := params.valores;
    erros := [];
    erros := ValidarMaoDeObra(params, dores, processo, v0, erros);
    erros := ValidarQualidade(params, dores, processo, v0, erros);
    erros := ValidarProdutividade(params, dores, processo, v0, erros);
    erros := ValidarSeguranca(params, dores, processo, v0, erros);
    erros := ValidarOcultos(params, dores, processo, v0, erros);
  }

  // The detailed validation, error by error.

  /**
   * When the block of formula `f` reports `e`, on the values as given: a
   * required field that is missing, a negative value, a percentage outside
   * [0, 100] (a fraction outside [0, 1] once normalised), or the block's
   * particular check.
   */
  predicate FalhaNoBloco(f: Formula, v: map<Campo, real>, p: Processo, e: ErroParametro) {
    e.Bloco() == f &&
    match e
    case Obrigatorio(c) => Requerido(c) && c !in v
    case Negativo(c) => !EhFracao(c) && c in v && v[c] < 0.0
    case ForaDeFracao(c) => EhFracao(c) && c in v && !(0.0 <= v[c] <= 100.0)
    case F08SemFaturamento => SemFaturamento(p)
    case F10SemCustoHoraParada => SemFaturamento(p) && !Positivo(v, F10CustoHoraParada)
    case F11SemCustoHoraParada => SemFaturamento(p) && !Positivo(v, F11CustoHoraParada)
  }

  /** The required-field errors of `cs` are those of its required fields without a value. */
  lemma {:induction false} ObrigatoriosMembros(cs: seq<Campo>, v: map<Campo, real>, e: ErroParametro)
    ensures e in Obrigatorios(cs, v) <==> e.Obrigatorio? && e.campo in cs && Requerido(e.campo) && e.campo !in v
  {
    if cs != [] {
      ObrigatoriosMembros(cs[..|cs| - 1], v, e);
      assert cs == cs[..|cs| - 1] + [cs[|cs| - 1]];
    }
  }

  /** The value errors of `cs` are those of its negative values and its percentages out of range. */
  lemma {:induction false} VerificacoesMembros(cs: seq<Campo>, v: map<Campo, real>, e: ErroParametro)
    ensures e in Verificacoes(cs, v) <==>
              (e.Negativo? && e.campo in cs && !EhFracao(e.campo) && e.campo in v && v[e.campo] < 0.0)
              || (e.ForaDeFracao? && e.campo in cs && EhFracao(e.campo) && e.campo in v
                  && !(0.0 <= NormalizarValor(v[e.campo]) <= 1.0))
  {
    if cs != [] {
      VerificacoesMembros(cs[..|cs| - 1], v, e);
      assert cs == cs[..|cs| - 1] + [cs[|cs| - 1]];
    }
  }

  /** The particular checks report only the F08, F10 and F11 tags, each in its own block. */
  lemma EspeciaisMembros(f: Formula, v: map<Campo, real>, p: Processo, e: ErroParametro)
    ensures e in Especiais(f, v, p) <==>
              FalhaNoBloco(f, v, p, e) && !(e.Obrigatorio? || e.Negativo? || e.ForaDeFracao?)
  {
  }

  /** The block of `f` reports exactly the errors `FalhaNoBloco` describes. */
  lemma BlocoMembros(f: Formula, v: map<Campo, real>, p: Processo, e: ErroParametro)
    ensures e in ErrosBloco(f, v, p) <==> FalhaNoBloco(f, v, p, e)
  {
    ObrigatoriosMembros(CamposDe(f), v, e);
    VerificacoesMembros(CamposDe(f), v, e);
    EspeciaisMembros(f, v, p, e);
    if e.Obrigatorio? || e.Negativo? || e.ForaDeFracao? {
      CampoListado(e.campo, f);
      if e.campo in v {
        NormalizarFaixa(v[e.campo]);
      }
    }
  }

  /** The first `k` blocks report the errors of the selected formulas among the first `k`. */
  lemma {:induction false} ErrosAteMembros(d: Dores, v: map<Campo, real>, p: Processo, k: nat, e: ErroParametro)
    requires k <= NumFormulas
    ensures e in ErrosAte(d, v, p, k) <==>
              d.Marcada(e.Bloco()) && IndiceDe(e.Bloco()) < k && FalhaNoBloco(e.Bloco(), v, p, e)
  {
    if k > 0 {
      ErrosAteMembros(d, v, p, k - 1, e);
      BlocoMembros(FormulaEm(k - 1), v, p, e);
      FormulaEmIndice(e.Bloco());
    }
  }

  /**
   * `validar_parametros_detalhados` reports an error exactly when its formula
   * is selected and the error's condition holds of the values as given.
   */
  lemma ErrosParametrosMembros(d: Dores, v: map<Campo, real>, p: Processo, e: ErroParametro)
    ensures e in ErrosParametros(d, v, p) <==> d.Marcada(e.Bloco()) && FalhaNoBloco(e.Bloco(), v, p, e)
  {
    ErrosAteMembros(d, v, p, NumFormulas, e);
  }

  /** The fields of the selected formulas are present when required and in range when given. */
  ghost predicate CamposValidos(d: Dores, v: map<Campo, real>) {
    (forall c :: d.Marcada(Dono(c)) && Requerido(c) ==> c in v)
    && (forall c :: d.Marcada(Dono(c)) && c in v ==> if EhFracao(c) then 0.0 <= v[c] <= 100.0 else 0.0 <= v[c])
  }

  /** The particular checks of the selected formulas F08, F10 and F11 pass. */
  predicate EspeciaisValidos(d: Dores, v: map<Campo, real>, p: Processo) {
    (d.Marcada(F08) ==> !SemFaturamento(p))
    && (d.Marcada(F10) ==> !SemFaturamento(p) || Positivo(v, F10CustoHoraParada))
    && (d.Marcada(F11) ==> !SemFaturamento(p) || Positivo(v, F11CustoHoraParada))
  }

  /** An error that is reported shows which condition fails. */
  lemma ComErrosInvalidos(d: Dores, v: map<Campo, real>, p: Processo)
    requires ErrosParametros(d, v, p) != []
    ensures !CamposValidos(d, v) || !EspeciaisValidos(d, v, p)
  {
    var e := ErrosParametros(d, v, p)[0];
    ErrosParametrosMembros(d, v, p, e);
    if e.Obrigatorio? || e.Negativo? || e.ForaDeFracao? {
      assert !CamposValidos(d, v) by {
        assert d.Marcada(Dono(e.campo));
      }
    }
  }

  /** With no error reported, every field of a selected formula is acceptable. */
  lemma SemErrosCamposValidos(d: Dores, v: map<Campo, real>, p: Processo)
    requires ErrosParametros(d, v, p) == []
    ensures CamposValidos(d, v)
  {
    forall c | d.Marcada(Dono(c))
      ensures Requerido(c) ==> c in v
      ensures c in v ==> if EhFracao(c) then 0.0 <= v[c] <= 100.0 else 0.0 <= v[c]
    {
      ErrosParametrosMembros(d, v, p, Obrigatorio(c));
      ErrosParametrosMembros(d, v, p, Negativo(c));
      ErrosParametrosMembros(d, v, p, ForaDeFracao(c));
    }
  }

  /** With no error reported, the particular checks pass. */
  lemma SemErrosEspeciaisValidos(d: Dores, v: map<Campo, real>, p: Processo)
    requires ErrosParametros(d, v, p) == []
    ensures EspeciaisValidos(d, v, p)
  {
    ErrosParametrosMembros(d, v, p, F08SemFaturamento);
    ErrosParametrosMembros(d, v, p, F10SemCustoHoraParada);
    ErrosParametrosMembros(d, v, p, F11SemCustoHoraParada);
  }

  /** No error is reported exactly when the parameters are acceptable. */
  lemma ErrosParametrosVazio(d: Dores, v: map<Campo, real>, p: Processo)
    ensures ErrosParametros(d, v, p) == [] <==> CamposValidos(d, v) && EspeciaisValidos(d, v, p)
  {
    if ErrosParametros(d, v, p) != [] {
      ComErrosInvalidos(d, v, p);
    } else {
      SemErrosCamposValidos(d, v, p);
      SemErrosEspeciaisValidos(d, v, p);
    }
  }

  /** F14 has no required field: zero supervisors, or none given, is valid. */
  lemma F14SemObrigatorios(d: Dores, v: map<Campo, real>, p: Processo, c: Campo)
    requires Dono(c) == F14
    ensures Obrigatorio(c) !in ErrosParametros(d, v, p)
  {
    ErrosParametrosMembros(d, v, p, Obrigatorio(c));
  }

  /**
   * The values `validar_parametros_detalhados` leaves behind: the percentages
   * of the selected formulas are normalised and nothing else changes.
   */
  lemma NormalizarSelecionadasValores(v: map<Campo, real>, d: Dores, c: Campo)
    ensures c in NormalizarSelecionadas(v, d) <==> c in v
    ensures c in v ==> NormalizarSelecionadas(v, d)[c]
                       == if EhFracao(c) && d.Marcada(Dono(c)) then NormalizarValor(v[c]) else v[c]
  {
    NormalizarAteValores(v, d, NumFormulas, c);
  }

  /** Once no error is reported, the required fields are present and every checked value is in range. */
  lemma GarantiaParametros(d: Dores, v: map<Campo, real>, p: Processo, c: Campo)
    requires ErrosParametros(d, v, p) == []
    requires d.Marcada(Dono(c))
    ensures Requerido(c) ==> c in v
    ensures c in v ==> c in NormalizarSelecionadas(v, d)
    ensures c in v && EhFracao(c) ==> 0.0 <= NormalizarSelecionadas(v, d)[c] <= 1.0
    ensures c in v && !EhFracao(c) ==> NormalizarSelecionadas(v, d)[c] == v[c] && 0.0 <= v[c]
  {
    SemErrosCamposValidos(d, v, p);
    NormalizarSelecionadasValores(v, d, c);
    if c in v {
      NormalizarFaixa(v[c]);
    }
  }

  /** Validating again after the rewrite changes nothing further. */
  lemma NormalizarSelecionadasIdempotente(v: map<Campo, real>, d: Dores)
    ensures NormalizarSelecionadas(NormalizarSelecionadas(v, d), d) == NormalizarSelecionadas(v, d)
  {
    var w := NormalizarSelecionadas(v, d);
    forall c
      ensures c in NormalizarSelecionadas(w, d) <==> c in w
      ensures c in w ==> NormalizarSelecionadas(w, d)[c] == w[c]
    {
      NormalizarSelecionadasValores(v, d, c);
      NormalizarSelecionadasValores(w, d, c);
      if c in v {
        NormalizarIdempotente(v[c]);
      }
    }
  }

  /** The rewritten values report the same errors as the values given. */
  lemma RevalidarNormalizados(d: Dores, v: map<Campo, real>, p: Processo, e: ErroParametro)
    ensures e in ErrosParametros(d, NormalizarSelecionadas(v, d), p) <==> e in ErrosParametros(d, v, p)
  {
    ErrosParametrosMembros(d, v, p, e);
    ErrosParametrosMembros(d, NormalizarSelecionadas(v, d), p, e);
    NormalizarSelecionadasValores(v, d, F10CustoHoraParada);
    NormalizarSelecionadasValores(v, d, F11CustoHoraParada);
    if e.Obrigatorio? || e.Negativo? || e.ForaDeFracao? {
      NormalizarSelecionadasValores(v, d, e.campo);
      if e.campo in v {
        NormalizarFaixa(v[e.campo]);
      }
    }
  }

  /** The selection of F08 alone. */
  function SoF08(): (d: Dores)
    ensures forall f :: d.Marcada(f) <==> f == F08
  {
    DoresPadrao().(f08CustoOportunidade := true)
  }

  /** F08 alone, with 10 and 30 as percentages and revenue given: no error is reported. */
  lemma ExemploPercentuaisF08Erros(p: Processo)
    requires p.faturamentoMensalLinha == Some(1000000.0)
    ensures ErrosParametros(SoF08(), map[F08PercentualDemandaReprimida := 10.0, F08MargemContribuicao := 30.0], p) == []
  {
    var v := map[F08PercentualDemandaReprimida := 10.0, F08MargemContribuicao := 30.0];
    forall c | SoF08().Marcada(Dono(c))
      ensures Requerido(c) ==> c in v
      ensures c in v ==> 0.0 <= v[c] <= 100.0
    {
      CampoListado(c, F08);
    }
    ErrosParametrosVazio(SoF08(), v, p);
  }

  /** F08 alone, with 10 and 30 as percentages: the fractions 0.10 and 0.30 are stored. */
  lemma ExemploPercentuaisF08Valores()
    ensures NormalizarSelecionadas(map[F08PercentualDemandaReprimida := 10.0, F08MargemContribuicao := 30.0], SoF08())
            == map[F08PercentualDemandaReprimida := 0.1, F08MargemContribuicao := 0.3]
  {
    var v := map[F08PercentualDemandaReprimida := 10.0, F08MargemContribuicao := 30.0];
    forall c
      ensures c in NormalizarSelecionadas(v, SoF08()) <==> c in v
      ensures c in v ==> NormalizarSelecionadas(v, SoF08())[c] == map[F08PercentualDemandaReprimida := 0.1, F08MargemContribuicao := 0.3][c]
    {
      NormalizarSelecionadasValores(v, SoF08(), c);
    }
  }
}
