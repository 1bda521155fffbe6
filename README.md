# ROI / cost-of-inaction calculation engine, in Dafny

This project models the calculation engine of an ROI calculator for industrial automation. The engine estimates the
annual "cost of inaction" of a manual process and the payback and ROI of automating it. The model covers:

- the formula library: shared bases, the legacy CO/QL/SE/PR cost formulas, payback, N-year ROI and gain;
- the validators of client, process, investment range and detailed parameters, with the in-place rewriting of
  percentages to fractions;
- the V2.0 orchestrator `ROICalculator`. It derives the common bases and evaluates the formulas F01–F18 only when
  each is selected and its parameters are given. It fills the five per-pain ("dor") records, adds the pain and
  grand totals, and accumulates the gain over the 18 (cost, target) pairs. It then computes payback and ROI for
  one to five years from the average investment;
- the input and intermediate records: the average investment, the default-valued selections, parameters and
  targets, and the category totals.

Modules, one `.dfy` file each:

- `Wrappers` (`wrappers.dfy`): `Option`.
- `Formulas` (`formulas.dfy`): pure functions over `real`, with payback as `Finite(anos) | Infinite`.
- `Inputs` (`inputs.dfy`): the input records. `Parametros` is a class whose detailed parameters are a field
  `valores: map<Campo, real>`; a name without a value is a field that is `None`.
- `Calculations` (`calculations.dfy`): the legacy category records with their totals, the bases, and the five
  per-pain record classes.
- `Validators` (`validators.dfy`): each validator is a method appending one error tag per failed check. A function
  states the list it produces, and lemmas state for each error when it is reported, that errors come in check
  order and when the list is empty. The detailed-parameter validator rewrites `Parametros.valores` in place.
- `Calculator` (`calculator.dfy`): the specification functions (`CalcularBases`, `LinhaF01` .. `LinhaF18`, the
  totals and gain over the vector of 18 lines, `ResultadosDe`). The methods fill the records block by block and
  are proved to produce exactly those values.

The V2.0 formula bodies F03–F06 and F08–F18 and the engine's hourly operator and downtime cost functions are not
part of this model. `Calculator.Dependencias` holds them as function-valued parameters together with the default
turnover factor, so every property of the orchestrator holds whatever those bodies are. F01, F02 (220-hour divisor,
1.5 overtime premium) and F07 are concrete, as are the 21 operating days per month the cadence estimate uses.

## Model

| member | source | states |
|---|---|---|
| Formulas.HorasAnuais | core/formulas.py:19-25 | annual hours are within [1, 24·3·365] for valid shift hours, shifts and days, and 0 with no shift or no day |
| Formulas.ProducaoAnual | core/formulas.py:10-16 | annual production is ≥ 0 for non-negative inputs and 0 with no cadence, no hour, no shift or no day |
| Formulas.ProducaoAnualAditivaNosDias | core/formulas.py:10-16 | annual production is additive in the operating days: d1 + d2 days produce what d1 days and d2 days produce together |
| Formulas.ProducaoMensalPorCadencia | core/calculator.py:84-90 | monthly production is ≥ 0 for non-negative inputs, 0 with no cadence, hour, shift or day, and twelve such months produce the annual production of 12 × `diasMes` days |
| Formulas.ProducaoMensalEAnualProporcionais | core/calculator.py:84-96 | monthly and annual production from the same cadence are in the ratio of month days to year days |
| Formulas.PessoasExpostas | core/formulas.py:28-32 | the integer headcount is 0 with no shift and at least the per-shift count with one or more shifts |
| Formulas.CustoHoraOperador | core/formulas.py:35-39 | fails (the source's division by zero) exactly when the monthly hours are 0; otherwise a month of hours at the hourly cost costs one salary |
| Formulas.CustoDiaAbsenteismo | core/formulas.py:42-46 | fails (the source's division by zero) exactly when there is no operating day; otherwise a year of operating days at the day cost equals twelve salaries |
| Formulas.CustoMaterial | core/formulas.py:49-53 | the material cost lies between 0 and the unit cost for a fraction in [0, 1], and equals the unit cost at 1 |
| Formulas.Co1FolhaPagamento | core/formulas.py:60-66 | payroll is non-negative for non-negative inputs and 0 with no people or no shift |
| Formulas.Co2Terceirizacao | core/formulas.py:69-75 | outsourcing is non-negative for non-negative inputs and 0 with no volume or no month |
| Formulas.Co3Desperdicio | core/formulas.py:78-84 | waste is non-negative and at most production × material cost when the share is at most 1 |
| Formulas.Co4Manutencao | core/formulas.py:87-93 | 60 × the cost equals stops × minutes × 12 × the hourly downtime cost; it is non-negative for non-negative inputs |
| Formulas.Ql1Retrabalho | core/formulas.py:100-109 | rework is non-negative for non-negative inputs and 0 with no rework share or factor |
| Formulas.Ql2Refugo | core/formulas.py:112-118 | scrap is non-negative and at most production × piece cost when the share is at most 1 |
| Formulas.Ql3Inspecao | core/formulas.py:121-127 | inspection is non-negative for non-negative inputs and 0 with no inspector or no shift |
| Formulas.Ql4Logistica | core/formulas.py:130-136 | reverse logistics is non-negative and at most production × logistics cost when the share is at most 1 |
| Formulas.Ql5MultasQualidade | core/formulas.py:139-143 | fines are non-negative for non-negative inputs and 0 with no occurrence |
| Formulas.Se1Absenteismo | core/formulas.py:150-154 | absenteeism is non-negative for non-negative inputs and 0 with no lost day |
| Formulas.Se2Turnover | core/formulas.py:157-161 | turnover is non-negative for non-negative inputs and 0 with no departure |
| Formulas.Se3Treinamentos | core/formulas.py:164-168 | training is non-negative for non-negative inputs and 0 with no departure |
| Formulas.Se4PassivoJuridico | core/formulas.py:171-175 | legal liability is non-negative for non-negative inputs and 0 with no occurrence |
| Formulas.Pr1HorasExtras | core/formulas.py:182-188 | overtime is non-negative for non-negative inputs and 0 with no overtime hour |
| Formulas.Pr2Headcount | core/formulas.py:191-195 | extra headcount is non-negative for non-negative inputs and 0 with no extra person |
| Formulas.Pr3VendasPerdidas | core/formulas.py:198-202 | lost sales are non-negative for non-negative inputs and 0 with no unmet demand |
| Formulas.Pr4MultasAtraso | core/formulas.py:205-209 | delay fines are non-negative for non-negative inputs and 0 with no occurrence |
| Formulas.ExemplosBases | tests/test_formulas.py:40-62 | the worked bases: production 2 400 000, hours 4 000, people 10, day cost 240, material 60, and monthly production 201 600 |
| Formulas.ExemplosLegados | tests/test_formulas.py:68-147 | the worked legacy formulas, e.g. CO-4 (4, 30, 150) gives 3 600 |
| Formulas.F01MaoDeObraDireta | tests/test_calculations.py:116-117 | F01 is non-negative for non-negative inputs and 0 with no people or no salary |
| Formulas.CustoHoraClt | tests/test_sanity_ranges.py:33 | 220 hours at the hourly cost cost one fully loaded salary |
| Formulas.F02HorasExtras | tests/test_sanity_ranges.py:27-36 | 220 × F02 equals 18 × people × hours × salary × burden (divisor 220, premium 1.5, 12 months) |
| Formulas.F07EscapesQualidade | tests/test_calculations.py:144-145 | F07 is non-negative for non-negative inputs and 0 with no complaint or no cost |
| Formulas.ExemploF01Valor | tests/test_calculations.py:116-117 | F01 (10, 2500, 1.7) is 510 000 |
| Formulas.ExemploF02Valor | tests/test_sanity_ranges.py:27-36 | the hourly CLT cost of 2200 at burden 2 is 20, and F02 (10, 10, 2200, 2) is 36 000 |
| Formulas.ExemploF07Valor | tests/test_calculations.py:144-145 | F07 (12, 2000) is 24 000 |
| Formulas.CalcularPayback | core/formulas.py:216-222 | payback is Infinite exactly when the gain is 0; otherwise its years times the gain repay the investment |
| Formulas.CalcularRoi | core/formulas.py:225-231 | ROI is 0 for zero investment; otherwise ROI percent of the investment is the net return of N years of gain |
| Formulas.CalcularGanhoAnual | core/formulas.py:234-238 | the gain is 0 with a zero target or cost, lies in [0, cost] for a target in [0, 1], and equals the cost at target 1 |
| Formulas.RoiNaoDecrescenteNosAnos | core/formulas.py:225-231 | with positive investment and non-negative gain, ROI does not fall as the horizon grows |
| Formulas.RoiGanhoZero | core/formulas.py:225-231 | with no gain, ROI is −100 for every horizon |
| Formulas.RoiNaoNegativoSeAtingePayback | core/formulas.py:216-231 | with positive investment and gain, the N-year ROI is ≥ 0 exactly when N reaches the payback |
| Formulas.GanhoNaoDecrescenteNaMeta | core/formulas.py:234-238 | for a non-negative cost, the gain does not fall as the target grows |
| Formulas.ExemplosIndicadores | tests/test_formulas.py:153-177 | payback (500k, 250k) is 2 and is Infinite at gain 0; ROI is −50 / 50 / 150 for 1 / 3 / 5 years and 0 at zero investment; gain (1M, 0.3) is 300k |
| Inputs.DoresPadrao | models/inputs.py:29-55 | a default selection has every flag false |
| Inputs.Parametros.constructor | models/inputs.py:58-108 | a default parameter record has every field None |
| Inputs.Parametros.Valor | core/validators.py:99 | reading a field gives its value when given and None exactly when it is absent |
| Inputs.CampoListado | core/validators.py:119-260 | a parameter is handled by the block of formula f exactly when it belongs to f |
| Inputs.Investimento.ValorInvestimentoMedio | models/inputs.py:117-119 | the average is as far from the minimum as from the maximum, and lies between them when min ≤ max |
| Inputs.MedioSimetrico | models/inputs.py:117-119 | the average is symmetric in minimum and maximum |
| Inputs.ExemploInvestimentoMedio | tests/test_calculations.py:148-154 | 400 000 and 600 000 average to 500 000 |
| Inputs.MetasPadrao | models/results.py:9-34 | default targets are all 0 |
| Inputs.Metas.ComMeta | core/calculator.py:326-345 | replacing one formula's target changes that target only |
| Calculations.CustosOperacionais.Total | models/calculations.py:29-31 | with non-negative fields the category total is ≥ 0 and at least each of its fields |
| Calculations.CustosQualidade.Total | models/calculations.py:43-51 | with non-negative fields the category total is ≥ 0 and at least each of its fields |
| Calculations.CustosSeguranca.Total | models/calculations.py:62-64 | with non-negative fields the category total is ≥ 0 and at least each of its fields |
| Calculations.CustosProdutividade.Total | models/calculations.py:75-82 | with non-negative fields the category total is ≥ 0 and at least each of its fields |
| Calculations.OperacionaisPadraoZero | models/calculations.py:21-31 | a default operating-cost record totals 0 |
| Calculations.QualidadePadraoZero | models/calculations.py:34-51 | a default quality record totals 0 |
| Calculations.SegurancaPadraoZero | models/calculations.py:54-64 | a default safety record totals 0 |
| Calculations.ProdutividadePadraoZero | models/calculations.py:67-82 | a default productivity record totals 0 |
| Calculations.CustosDor1MaoDeObra.constructor | core/calculator.py:121 | a new pain-1 record has every field 0 |
| Calculations.CustosDor2Qualidade.constructor | core/calculator.py:122 | a new pain-2 record has every field 0 |
| Calculations.CustosDor3Produtividade.constructor | core/calculator.py:123 | a new pain-3 record has every field 0 |
| Calculations.CustosDor4Seguranca.constructor | core/calculator.py:124 | a new pain-4 record has every field 0 |
| Calculations.CustosDor5CustosOcultos.constructor | core/calculator.py:125 | a new pain-5 record has every field 0 |
| Validators.Registrar | core/validators.py:17-18 | one check appends its error exactly when it fails |
| Validators.OrdemDeterminaLista | core/validators.py:15-31 | two lists in strictly increasing check order with the same members are equal, so membership and order fix a validator's result |
| Validators.ValidarCliente | core/validators.py:12-31 | the client validator returns exactly the list of its five checks in order |
| Validators.ErrosClienteAteMembros | core/validators.py:17-29 | after n checks, an error is listed exactly when it fails and its check is among the first n |
| Validators.ErrosClienteMembros | core/validators.py:17-29 | a client error is reported iff its condition holds: a blank (None or whitespace-only) name, project or area, a size outside {pequena, media, grande}, a burden outside {1.7, 1.85, 2.0} |
| Validators.ErrosClienteAteCrescente | core/validators.py:15-31 | after n checks, the errors are in strictly increasing check order and all come from the first n checks |
| Validators.ErrosClienteCrescente | core/validators.py:15-31 | client errors come in check order, each at most once |
| Validators.ErrosClienteVazio | core/validators.py:12-31 | no client error iff every client check passes |
| Validators.ValidarProcessoAtual | core/validators.py:34-67 | the process validator returns exactly the list of its twelve checks in order |
| Validators.ErrosProcessoAteMembros | core/validators.py:38-65 | after n checks, an error is listed exactly when it fails and its check is among the first n |
| Validators.ErrosProcessoMembros | core/validators.py:38-65 | a process error is reported iff its condition holds: neither cadence > 0 nor monthly production > 0; an inclusive range for hours 1–24, shifts 1–3 or days 1–365 violated; process people < 1; inspection people, a salary or a cost negative; a given line revenue negative |
| Validators.ErrosProcessoAteCrescente | core/validators.py:36-67 | after n checks, the errors are in strictly increasing check order and all come from the first n checks |
| Validators.ErrosProcessoCrescente | core/validators.py:36-67 | process errors come in check order, each at most once |
| Validators.ErrosProcessoVazio | core/validators.py:34-67 | no process error iff every process check passes |
| Validators.ValidarInvestimento | core/validators.py:70-81 | the investment validator returns exactly the list of its three checks in order |
| Validators.ErrosInvestimentoAteMembros | core/validators.py:74-79 | after n checks, an error is listed exactly when it fails and its check is among the first n |
| Validators.ErrosInvestimentoMembros | core/validators.py:74-79 | one error each for min ≤ 0, max ≤ 0 and min > max, reported exactly when it holds |
| Validators.ErrosInvestimentoAteCrescente | core/validators.py:72-81 | after n checks, the errors are in strictly increasing check order and all come from the first n checks |
| Validators.ErrosInvestimentoCrescente | core/validators.py:72-81 | investment errors come in check order, each at most once |
| Validators.ErrosInvestimentoVazio | core/validators.py:70-81 | no investment error iff 0 < min ≤ max |
| Validators.NormalizarIdempotente | core/validators.py:93-103 | normalising a percentage twice is normalising it once |
| Validators.NormalizarFaixa | core/validators.py:93-117 | a normalised value lies in [0, 1] iff the raw value lies in [0, 100]; values in [0, 1] are kept and values in (1, 100] are divided by 100 |
| Validators.NormalizarFracao | core/validators.py:93-103 | `_normalize_fraction` rewrites only its own field, to its normalised value, and leaves an absent field absent |
| Validators.ChecarObrigatorios | core/validators.py:105-107 | the `_req` calls of a block produce the required-field errors of its fields in order |
| Validators.ObrigatoriosMembros | core/validators.py:105-107 | a required-field error is reported exactly for a required field of the block that has no value |
| Validators.ChecarValores | core/validators.py:109-117 | the value checks of a block normalise its percentages in place and report each negative value or out-of-range fraction in field order |
| Validators.VerificacoesMembros | core/validators.py:109-117 | a value error is reported exactly for a negative non-percentage or for a percentage whose normalised value is outside [0, 1] |
| Validators.ChecarEspecial | core/validators.py:161-195 | the particular checks of F08, F10 and F11 give the errors of their conditions |
| Validators.EspeciaisMembros | core/validators.py:169-195 | F08 errors when revenue is falsy; F10 and F11 error when revenue is falsy and their own downtime cost is not > 0 |
| Validators.EspeciaisNormalizar | core/validators.py:169-195 | normalising percentages does not change the particular checks |
| Validators.ValidarBloco | core/validators.py:119-260 | one block normalises the percentages of its formula and reports its required-field, value and particular errors, on the values as given |
| Validators.ObrigatoriosLocal | core/validators.py:105-107 | the required-field checks read only which of their fields are present |
| Validators.VerificacoesLocal | core/validators.py:109-117 | the value checks read only their own fields |
| Validators.ErrosBlocoLocal | core/validators.py:119-260 | a block reads only the fields of its own formula |
| Validators.PassoParametros | core/validators.py:119-260 | each block sees its own fields as given, untouched by the earlier blocks |
| Validators.FormulaSemBloco | core/validators.py:119-124 | F01 and F06 have no block: they neither change nor report anything |
| Validators.ValidarSeMarcada | core/validators.py:119-260 | the step at formula k runs that formula's block only if it is selected |
| Validators.ValidarMaoDeObra | core/validators.py:119-141 | the F02–F04 blocks, in order |
| Validators.ValidarQualidade | core/validators.py:143-159 | the F05 and F07 blocks, in order |
| Validators.ValidarProdutividade | core/validators.py:161-195 | the F08–F11 blocks, in order |
| Validators.ValidarSeguranca | core/validators.py:197-224 | the F12–F13 blocks, in order |
| Validators.ValidarOcultos | core/validators.py:226-260 | the F14–F18 blocks, in order |
| Validators.ValidarParametrosDetalhados | core/validators.py:84-262 | the detailed validator leaves the percentages of the selected formulas normalised and returns the errors of their blocks in order |
| Validators.BlocoMembros | core/validators.py:119-260 | a block reports exactly the errors whose condition holds on the values as given |
| Validators.ErrosAteMembros | core/validators.py:119-260 | the first k blocks report exactly the failing errors of selected formulas among the first k |
| Validators.ErrosParametrosMembros | core/validators.py:84-262 | an error is reported iff its formula is selected and its condition holds on the values as given; unselected formulas' fields are never checked |
| Validators.ComErrosInvalidos | core/validators.py:84-262 | a reported error means a selected formula's field or particular check fails |
| Validators.SemErrosCamposValidos | core/validators.py:84-262 | with no error, every required field of a selected formula is given, and every given one is in range |
| Validators.SemErrosEspeciaisValidos | core/validators.py:161-195 | with no error, the F08, F10 and F11 particular checks pass |
| Validators.ErrosParametrosVazio | core/validators.py:84-262 | no detailed error iff the selected formulas' fields and particular checks are acceptable |
| Validators.F14SemObrigatorios | core/validators.py:226-229 | F14 never reports a required-field error |
| Validators.NormalizarSelecionadasValores | core/validators.py:93-103 | after validation, exactly the percentages of selected formulas are normalised; every other value and every absent field is unchanged |
| Validators.GarantiaParametros | core/validators.py:105-117 | with no error, a required field of a selected formula is present; a stored percentage is in [0, 1]; any other field is unchanged and ≥ 0 |
| Validators.NormalizarSelecionadasIdempotente | core/validators.py:93-103 | validating a second time rewrites nothing further |
| Validators.RevalidarNormalizados | core/validators.py:93-117 | the rewritten values report the same errors as the values given |
| Validators.SoF08 | tests/test_sanity_ranges.py:40-41 | the selection of F08 alone |
| Validators.ExemploPercentuaisF08Erros | tests/test_sanity_ranges.py:39-67 | F08 with 10 and 30 given as percentages and revenue present reports no error |
| Validators.ExemploPercentuaisF08Valores | tests/test_sanity_ranges.py:66-69 | F08 with 10 and 30 given as percentages stores 0.10 and 0.30 |
| Calculator.CalcularBases | core/calculator.py:72-110 | monthly production given and > 0 gives annual = monthly × 12; else cadence > 0 gives the cadence estimates (monthly over 21 days whatever the operating days, annual over the operating days); else both 0. Headcounts are per shift × shifts, and the burden is the client's |
| Calculator.ExemploBases | tests/test_calculations.py:55-80 | the test process gives annual 2 400 000, monthly 201 600, and headcounts 10 and 2 |
| Calculator.CustoParada | core/calculator.py:229 | F10 / F11 use their own downtime cost only when it is given and > 0, otherwise the base |
| Calculator.LinhaForaDePronta | core/calculator.py:127-320 | a formula not selected, or with a required parameter missing, leaves its line at 0 |
| Calculator.CustosLinhasPorFormula | core/calculator.py:127-320 | position i of the line vector holds the line of the i-th formula |
| Calculator.MetasEmOrdem | core/calculator.py:326-345 | the target vector pairs each line with its own formula's target |
| Calculator.CustoTotalSomaLinhas | core/calculator.py:166-324 | the grand total (the sum of the five pain totals) is the sum of the 18 lines |
| Calculator.GanhoAnualSomaGanhos | core/calculator.py:326-345 | the gain is the left-to-right accumulation of cost × target over the 18 lines |
| Calculator.GanhoAteLimitado | core/calculator.py:326-345 | with non-negative costs and targets in [0, 1], the partial gain lies between 0 and the partial cost |
| Calculator.GanhoAteMonotono | core/calculator.py:326-345 | with non-negative costs, raising targets never lowers the partial gain |
| Calculator.GanhoAteMetaTotal | core/calculator.py:326-345 | with every target 1, the partial gain equals the partial cost |
| Calculator.SemCustoSemGanho | core/calculator.py:326-345 | zero lines give zero partial cost and zero partial gain |
| Calculator.GanhoLimitadoPeloCusto | core/calculator.py:324-345 | with non-negative costs and targets in [0, 1], 0 ≤ gain ≤ grand total |
| Calculator.GanhoNaoDecrescenteNasMetas | core/calculator.py:326-345 | with non-negative costs, pointwise larger targets give at least the gain |
| Calculator.GanhoNaoDecrescenteNaMetaDe | core/calculator.py:326-345 | with non-negative costs, raising any single formula's target never lowers the gain |
| Calculator.GanhoComMetaTotal | core/calculator.py:324-345 | with every target 1, the gain equals the grand total |
| Calculator.SemCustoGanhoZero | core/calculator.py:324-345 | zero lines give zero total and zero gain |
| Calculator.BreakdownsSomamTotais | core/calculator.py:366-396 | the breakdowns of pains 1, 3 and 5 add up to their totals; those of pains 2 and 4 do so exactly when the F05 / F12 components add up to the F05 / F12 total line |
| Calculator.CamposExigidosRequeridos | core/validators.py:119-260 | every parameter the calculator tests for a formula other than F14 belongs to that formula's block, which requires it |
| Calculator.ValidacaoGaranteCalculo | core/calculator.py:127-320 | parameters that pass validation let every selected formula except F14 be evaluated |
| Calculator.F14SemSupervisoresCustoZero | core/validators.py:226-229 | F14 without a supervisor count raises no required-field error and costs 0 |
| Calculator.ValidacaoGaranteCustoParada | core/validators.py:177-195 | with no revenue, validated F10 / F11 carry their own downtime cost > 0, and that is the cost used |
| Calculator.SemDoresSemCusto | core/calculator.py:127-363 | with no pain selected, every total, the grand total and the gain are 0, the payback is Infinite, and the average investment is reported |
| Calculator.ExemploSemDores | tests/test_calculations.py:84-98 | the test inputs with nothing selected give cost 0, gain 0, payback Infinite and an average investment of 500 000 |
| Calculator.IndicadoresConsistentes | core/calculator.py:347-363 | the grand total adds the pain totals; payback and ROI are those of the average investment and the gain; ROI is non-decreasing over years 1–5; the 3-year ROI is ≥ 0 iff the payback is ≤ 3 |
| Calculator.GanhoDosResultados | core/calculator.py:324-356 | the reported gain is the accumulation of cost × target over the 18 lines and the grand total is their sum; with non-negative costs and targets in [0, 1], 0 ≤ gain ≤ grand total |
| Calculator.GanhoDosResultadosNaMeta | core/calculator.py:326-345 | raising one formula's target never lowers the reported gain, for non-negative costs |
| Calculator.ExemploF01 | tests/test_calculations.py:101-121 | F01 alone at target 0.5 gives pain 1 cost 510 000, grand total 510 000, gain 255 000 and payback 500 000 / 255 000 |
| Calculator.ExemploBreakdown | tests/test_calculations.py:123-145 | F01 and F07 give breakdown entries "F01 - Mão de Obra Direta" 510 000 and "F07 - Escapes de Qualidade" 24 000 |
| Calculator.CalcularF01 | core/calculator.py:128-133 | the F01 block stores F01's line and changes no other field |
| Calculator.CalcularF02 | core/calculator.py:135-141 | the F02 block stores F02's line and changes no other field |
| Calculator.CalcularF03 | core/calculator.py:143-157 | the F03 block stores F03's line and changes no other field |
| Calculator.CalcularF04 | core/calculator.py:159-164 | the F04 block stores F04's line and changes no other field |
| Calculator.CalcularF05 | core/calculator.py:169-184 | the F05 block stores the three F05 amounts and changes no other field |
| Calculator.CalcularF06 | core/calculator.py:186-191 | the F06 block stores F06's line and changes no other field |
| Calculator.CalcularF07 | core/calculator.py:193-199 | the F07 block stores F07's line and changes no other field |
| Calculator.CalcularF08 | core/calculator.py:204-213 | the F08 block stores F08's line and changes no other field |
| Calculator.CalcularF09 | core/calculator.py:215-221 | the F09 block stores F09's line and changes no other field |
| Calculator.CalcularF10 | core/calculator.py:223-230 | the F10 block stores F10's line and changes no other field |
| Calculator.CalcularF11 | core/calculator.py:232-237 | the F11 block stores F11's line and changes no other field |
| Calculator.CalcularF12 | core/calculator.py:242-261 | the F12 block stores the four F12 amounts and changes no other field |
| Calculator.CalcularF13 | core/calculator.py:263-276 | the F13 block stores F13's line and changes no other field |
| Calculator.CalcularF14 | core/calculator.py:281-286 | the F14 block stores F14's line (supervisors × shifts) and changes no other field |
| Calculator.CalcularF15 | core/calculator.py:288-295 | the F15 block stores F15's line and changes no other field |
| Calculator.CalcularF16 | core/calculator.py:297-301 | the F16 block stores F16's line and changes no other field |
| Calculator.CalcularF17 | core/calculator.py:303-312 | the F17 block stores F17's line and changes no other field |
| Calculator.CalcularF18 | core/calculator.py:314-320 | the F18 block stores F18's line and changes no other field |
| Calculator.CalcularDor1 | core/calculator.py:127-166 | a new pain-1 record holds the F01–F04 lines and their exact sum |
| Calculator.CalcularDor2 | core/calculator.py:168-201 | a new pain-2 record holds the F05 amounts and the F06 and F07 lines, with total F05 + F06 + F07 |
| Calculator.CalcularDor3 | core/calculator.py:203-239 | a new pain-3 record holds the F08–F11 lines and their exact sum |
| Calculator.CalcularDor4 | core/calculator.py:241-278 | a new pain-4 record holds the F12 amounts and the F13 line, with total F12 + F13 |
| Calculator.CalcularDor5 | core/calculator.py:280-322 | a new pain-5 record holds the F14–F18 lines and their exact sum |
| Calculator.Consolidar | core/calculator.py:324-400 | from the filled records: the grand total, the gain accumulated over the 18 pairs, payback and ROI 1–5 of the average investment, and the breakdowns |
| Calculator.RoiCalculator.constructor | core/calculator.py:54-70 | the calculator keeps its inputs and derives the bases once |
| Calculator.RoiCalculator.Calcular | core/calculator.py:112-400 | `calcular` returns exactly the results the specification functions give for the current inputs |

## Left out

- The bodies of the V2.0 formulas F03–F06 and F08–F18 are not part of this model, and neither are the engine's
  `calcular_custo_hora_operador(salario, fator)` and `calcular_custo_hora_parada(faturamento)`. They are parameters
  in `Calculator.Dependencias`. The shown `calcular_custo_hora_operador` divides a salary by monthly hours, while the
  engine calls it with the burden factor; `Formulas.CustoHoraOperador` models the shown one.
- The default turnover factor imported from the constants module is not part of this model and is a field of
  `Dependencias`. The 21 operating days per month, the three burden factors (1.7, 1.85, 2.0) and the 1.5 overtime
  premium are named constants.
- Amounts are exact `real`s: floating-point rounding, `float("inf")` and approximate test comparisons are not
  modelled. The infinity sentinel of payback is the `Infinite` constructor.
- The breakdown dictionaries are sequences of (label, value) pairs in insertion order, not hash maps.
- `Calculator.BreakdownsSomamTotais`: the pain-2 and pain-4 breakdowns add up to their totals only when the
  components F05 and F12 return add up to their own totals. Their bodies are not part of this model, so the lemma
  states that condition rather than the equality.
- `calcular` is one flat method in the source. The model splits it into one method per `if` block, one per pain
  record and `Calculator.Consolidar`, in the same order and with the same assignments.
- F03 tests "own salary or the process salary" for the novice and the supervisor. The process salaries are always
  given, so those alternatives always hold and are not part of the gate. `params.x or y` falls back to `y` when
  the field is None or 0, as in Python.
- F14 is evaluated only when the supervisor count is given, but its block does not require it: a selected F14
  without a count passes validation and costs 0 (`Calculator.F14SemSupervisoresCustoZero`).
- One test looks up the breakdown keys `"F01"` and `"F07"`, while the code uses the full labels
  (`"F01 - Mão de Obra Direta"`). The model follows the code.
- The V2.0 client, process, selection, parameter and target records are not in the shown models; their fields are
  taken from their use in the engine and the validators. The process salaries and costs are always present, and
  cadence, monthly production and line revenue are optional, as the validators treat them.
- The user interface, application flow, presentation export, area presets and the results declarations module
  are not part of this model: they display or store results and compute nothing the engine relies on.
