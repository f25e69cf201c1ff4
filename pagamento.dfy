/** The payment report: the incentive prizes and the box prizes of every collaborator merged
    by code into one row per code, with the total to pay. */
module Pagamento {
  import opened Wrappers
  import opened Text
  import opened Collections
  import opened Reports
  import Calendar
  import Analysis
  import Caixas
  import Incentivo

  // ---------------------------------------------------------------------------
  // The two sides of the merge

  /** A line of either report reduced to the columns the merge keeps: cod, nome, cpf and
      total_premio. */
  datatype Prize = Prize(cod: int, nome: Cell, cpf: Cell, prize: real)

  function PrizeCod(p: Prize): int { p.cod }
  function PrizeLine(p: Prize): Prize { p }

  function FromIncentive(l: Incentivo.IncentiveLine): Prize { Prize(l.cod, Str(l.nome), l.cpf, l.totalPrize) }
  function FromBoxes(l: Caixas.BoxesLine): Prize { Prize(l.cod, Str(l.nome), Str(l.cpf), l.totalPrize) }

  /** No two lines of a side share a code. */
  ghost predicate DistinctCodes(ps: seq<Prize>) {
    forall i, j :: 0 <= i < j < |ps| ==> ps[i].cod != ps[j].cod
  }

  /** The lines of one side by code, a later line of a repeated code overwriting an earlier one. */
  function ByCode(ps: seq<Prize>): map<int, Prize> { ToDict(ps, PrizeCod, PrizeLine) }

  lemma ByCodeKeys(ps: seq<Prize>, c: int)
    ensures c in ByCode(ps) <==> exists p :: p in ps && p.cod == c
  {
    ToDictKeys(ps, PrizeCod, PrizeLine);
    KeyWitness(ps, PrizeCod, c);
  }

  /** What a code holds is a line of that code. */
  lemma {:induction false} ByCodeFrom(ps: seq<Prize>, c: int)
    requires c in ByCode(ps)
    ensures ByCode(ps)[c] in ps && ByCode(ps)[c].cod == c
  {
    var init := ps[..|ps| - 1];
    var last := ps[|ps| - 1];
    assert ps == init + [last];
    if last.cod != c {
      ByCodeFrom(init, c);
    }
  }

  /** When the codes of a side are distinct, each code holds its own line. */
  lemma ByCodeLookup(ps: seq<Prize>, p: Prize)
    requires DistinctCodes(ps) && p in ps
    ensures p.cod in ByCode(ps) && ByCode(ps)[p.cod] == p
  {
    forall q | q in ps && PrizeCod(q) == PrizeCod(p) ensures q == p {
      var a :| 0 <= a < |ps| && ps[a] == p;
      var b :| 0 <= b < |ps| && ps[b] == q;
      assert a == b;
    }
    ToDictUnique(ps, PrizeCod, PrizeLine, p);
  }

  // ---------------------------------------------------------------------------
  // The merged rows

  /** One row of the payment report, total_a_pagar = premio_kpi + premio_caixas. */
  datatype PaymentRow = PaymentRow(cod: int, nome: Cell, cpf: Cell, premioKpi: real, premioCaixas: real,
                                   totalAPagar: real)

  /** str(row["cpf"]) */
  function RowCpfText(r: PaymentRow): string { CellText(r.cpf) }

  /** The prize of a code on one side; 0 where the outer join left it empty. */
  function PrizeAt(m: map<int, Prize>, c: int): real { if c in m then m[c].prize else 0.0 }

  function NomeAt(m: map<int, Prize>, c: int): Option<Cell> { if c in m then Some(m[c].nome) else None }
  function CpfAt(m: map<int, Prize>, c: int): Option<Cell> { if c in m then Some(m[c].cpf) else None }

  /** The name or CPF of a merged row: the incentive side's when it has one, else the boxes
      side's, else the empty text the final fillna writes. */
  function Consolidate(kpi: Option<Cell>, cx: Option<Cell>): (r: Cell)
    ensures !r.Null?
    ensures kpi.Some? && !kpi.value.Null? ==> r == kpi.value
    ensures (kpi.None? || kpi.value.Null?) && cx.Some? && !cx.value.Null? ==> r == cx.value
    ensures (kpi.None? || kpi.value.Null?) && (cx.None? || cx.value.Null?) ==> r == Str("")
  {
    if kpi.Some? && !kpi.value.Null? then kpi.value
    else if cx.Some? && !cx.value.Null? then cx.value
    else Str("")
  }

  function RowOf(km: map<int, Prize>, xm: map<int, Prize>, c: int): PaymentRow {
    var k := PrizeAt(km, c);
    var x := PrizeAt(xm, c);
    PaymentRow(c, Consolidate(NomeAt(km, c), NomeAt(xm, c)), Consolidate(CpfAt(km, c), CpfAt(xm, c)), k, x, k + x)
  }

  /** The codes of the outer join, in ascending order. */
  function Codes(kpi: seq<Prize>, cx: seq<Prize>): seq<int> {
    SortedDistinct(MapSeq(kpi, PrizeCod) + MapSeq(cx, PrizeCod))
  }

  /** One row per code, in the order of the codes. */
  function RowsOf(km: map<int, Prize>, xm: map<int, Prize>, cs: seq<int>): (r: seq<PaymentRow>)
    ensures |r| == |cs|
  {
    if |cs| == 0 then [] else RowsOf(km, xm, cs[..|cs| - 1]) + [RowOf(km, xm, cs[|cs| - 1])]
  }

  /** The outer merge of the incentive side and the boxes side on cod. */
  function Merge(kpi: seq<Prize>, cx: seq<Prize>): (r: seq<PaymentRow>)
    ensures |r| == |Codes(kpi, cx)|
  {
    RowsOf(ByCode(kpi), ByCode(cx), Codes(kpi, cx))
  }

  lemma {:induction false} RowsOfAt(km: map<int, Prize>, xm: map<int, Prize>, cs: seq<int>, i: int)
    requires 0 <= i < |cs|
    ensures RowsOf(km, xm, cs)[i] == RowOf(km, xm, cs[i])
  {
    if i < |cs| - 1 {
      RowsOfAt(km, xm, cs[..|cs| - 1], i);
    }
  }

  lemma RowsOfPush(km: map<int, Prize>, xm: map<int, Prize>, cs: seq<int>, i: int)
    requires 0 <= i < |cs|
    ensures RowsOf(km, xm, cs[..i + 1]) == RowsOf(km, xm, cs[..i]) + [RowOf(km, xm, cs[i])]
  {
    assert cs[..i + 1][..i] == cs[..i];
  }

  lemma MergeAt(kpi: seq<Prize>, cx: seq<Prize>, i: int)
    requires 0 <= i < |Merge(kpi, cx)|
    ensures Merge(kpi, cx)[i] == RowOf(ByCode(kpi), ByCode(cx), Codes(kpi, cx)[i])
  {
    RowsOfAt(ByCode(kpi), ByCode(cx), Codes(kpi, cx), i);
  }

  /** A code has a row iff it has a line on either side. */
  lemma MergeCovers(kpi: seq<Prize>, cx: seq<Prize>, c: int)
    ensures (exists i :: 0 <= i < |Merge(kpi, cx)| && Merge(kpi, cx)[i].cod == c) <==>
            (exists p :: p in kpi && p.cod == c) || (exists p :: p in cx && p.cod == c)
  {
    var m := Merge(kpi, cx);
    var cs := Codes(kpi, cx);
    KeyInMapSeq(kpi, PrizeCod, c);
    KeyInMapSeq(cx, PrizeCod, c);
    KeyWitness(kpi, PrizeCod, c);
    KeyWitness(cx, PrizeCod, c);
    if exists i :: 0 <= i < |m| && m[i].cod == c {
      var i :| 0 <= i < |m| && m[i].cod == c;
      MergeAt(kpi, cx, i);
      assert cs[i] in cs;
    }
    if c in cs {
      var i :| 0 <= i < |cs| && cs[i] == c;
      MergeAt(kpi, cx, i);
      assert m[i].cod == c;
    }
  }

  /** The rows come in strictly ascending code order, so no code has two rows. */
  lemma MergeAscending(kpi: seq<Prize>, cx: seq<Prize>, i: int, j: int)
    requires 0 <= i < j < |Merge(kpi, cx)|
    ensures Merge(kpi, cx)[i].cod < Merge(kpi, cx)[j].cod
  {
    MergeAt(kpi, cx, i);
    MergeAt(kpi, cx, j);
  }

  /** Every row pays the sum of its two prizes, a side without the code contributes 0, and the
      name and CPF are never empty cells: "" where neither side has a value. */
  lemma MergeRowFacts(kpi: seq<Prize>, cx: seq<Prize>, i: int)
    requires 0 <= i < |Merge(kpi, cx)|
    ensures var r := Merge(kpi, cx)[i];
            && r.totalAPagar == r.premioKpi + r.premioCaixas
            && ((forall p :: p in kpi ==> p.cod != r.cod) ==> r.premioKpi == 0.0)
            && ((forall p :: p in cx ==> p.cod != r.cod) ==> r.premioCaixas == 0.0)
            && !r.nome.Null? && !r.cpf.Null?
            && (((forall p :: p in kpi && p.cod == r.cod ==> p.nome.Null?) &&
                 (forall p :: p in cx && p.cod == r.cod ==> p.nome.Null?)) ==> r.nome == Str(""))
            && (((forall p :: p in kpi && p.cod == r.cod ==> p.cpf.Null?) &&
                 (forall p :: p in cx && p.cod == r.cod ==> p.cpf.Null?)) ==> r.cpf == Str(""))
  {
    var c := Codes(kpi, cx)[i];
    MergeAt(kpi, cx, i);
    ByCodeKeys(kpi, c);
    ByCodeKeys(cx, c);
    if c in ByCode(kpi) { ByCodeFrom(kpi, c); }
    if c in ByCode(cx) { ByCodeFrom(cx, c); }
  }

  /** Each incentive line of a side with distinct codes is paid on the row of its code, whose
      name and CPF are the line's own where it has them. */
  lemma MergePaysIncentive(kpi: seq<Prize>, cx: seq<Prize>, p: Prize)
    requires DistinctCodes(kpi) && p in kpi
    ensures exists i :: 0 <= i < |Merge(kpi, cx)| &&
              var r := Merge(kpi, cx)[i];
              && r.cod == p.cod && r.premioKpi == p.prize
              && (!p.nome.Null? ==> r.nome == p.nome)
              && (!p.cpf.Null? ==> r.cpf == p.cpf)
  {
    MergeCovers(kpi, cx, p.cod);
    var i :| 0 <= i < |Merge(kpi, cx)| && Merge(kpi, cx)[i].cod == p.cod;
    MergeAt(kpi, cx, i);
    ByCodeLookup(kpi, p);
  }

  /** Each boxes line of a side with distinct codes is paid on the row of its code, whose name
      and CPF are the line's own where the incentive side has none. */
  lemma MergePaysBoxes(kpi: seq<Prize>, cx: seq<Prize>, p: Prize)
    requires DistinctCodes(cx) && p in cx
    ensures exists i :: 0 <= i < |Merge(kpi, cx)| &&
              var r := Merge(kpi, cx)[i];
              && r.cod == p.cod && r.premioCaixas == p.prize
              && ((forall q :: q in kpi && q.cod == p.cod ==> q.nome.Null?) && !p.nome.Null? ==> r.nome == p.nome)
              && ((forall q :: q in kpi && q.cod == p.cod ==> q.cpf.Null?) && !p.cpf.Null? ==> r.cpf == p.cpf)
  {
    MergeCovers(kpi, cx, p.cod);
    var i :| 0 <= i < |Merge(kpi, cx)| && Merge(kpi, cx)[i].cod == p.cod;
    MergeAt(kpi, cx, i);
    ByCodeLookup(cx, p);
    if p.cod in ByCode(kpi) { ByCodeFrom(kpi, p.cod); }
  }

  /** The apply over one merged table: the row of each code of the join, in order. */
  method MergeSide(kpi: seq<Prize>, cx: seq<Prize>) returns (rows: seq<PaymentRow>)
    ensures rows == Merge(kpi, cx)
  {
    var km := ByCode(kpi);
    var xm := ByCode(cx);
    var cs := Codes(kpi, cx);
    rows := [];
    for i := 0 to |cs|
      invariant rows == RowsOf(km, xm, cs[..i])
    {
      RowsOfPush(km, xm, cs, i);
      rows := rows + [RowOf(km, xm, cs[i])];
    }
    assert cs[..|cs|] == cs;
  }

  /** The merge of one role's incentive lines with its box lines. */
  function MergeLines(kpi: seq<Incentivo.IncentiveLine>, cx: seq<Caixas.BoxesLine>): seq<PaymentRow> {
    Merge(MapSeq(kpi, FromIncentive), MapSeq(cx, FromBoxes))
  }

  /** _merge_resultados: the drivers' merge and the helpers' merge. */
  method MergeResults(mKpi: seq<Incentivo.IncentiveLine>, aKpi: seq<Incentivo.IncentiveLine>,
                      mCx: seq<Caixas.BoxesLine>, aCx: seq<Caixas.BoxesLine>)
    returns (dfM: seq<PaymentRow>, dfA: seq<PaymentRow>)
    ensures dfM == MergeLines(mKpi, mCx)
    ensures dfA == MergeLines(aKpi, aCx)
  {
    dfM := MergeSide(MapSeq(mKpi, FromIncentive), MapSeq(mCx, FromBoxes));
    dfA := MergeSide(MapSeq(aKpi, FromIncentive), MapSeq(aCx, FromBoxes));
  }

  // ---------------------------------------------------------------------------
  // The report

  datatype Payments = Payments(motoristas: seq<PaymentRow>, ajudantes: seq<PaymentRow>)

  /** The incentive list of a role. */
  function IncentiveSide(inc: Incentivo.Incentives, helpers: bool): seq<Incentivo.IncentiveLine> {
    if helpers then inc.ajudantes else inc.motoristas
  }

  function RowsFor(p: Payments, helpers: bool): seq<PaymentRow> { if helpers then p.ajudantes else p.motoristas }

  /** Both merged lists over the de-duplicated trips; None when the incentive computation raises. */
  function PaymentReport(t: Analysis.Table, registry: Option<seq<Caixas.RegistryRow>>,
                         kpis: Option<seq<Incentivo.KpiRow>>, boxes: Option<seq<Caixas.BoxRow>>, metas: Metas)
    : Option<Payments>
  {
    match Incentivo.IncentiveReport(Some(t), registry, kpis, metas)
    case None => None
    case Some(inc) =>
      Some(Payments(MergeLines(inc.motoristas, Caixas.Report(t, registry, boxes, metas, false)),
                    MergeLines(inc.ajudantes, Caixas.Report(t, registry, boxes, metas, true))))
  }

  lemma PrizesDistinct<T>(ls: seq<T>, cod: T -> int, f: T -> Prize)
    requires forall i, j :: 0 <= i < j < |ls| ==> cod(ls[i]) != cod(ls[j])
    requires forall l :: f(l).cod == cod(l)
    ensures DistinctCodes(MapSeq(ls, f))
  {
  }

  lemma HelperSideDistinct(assocs: seq<Analysis.Assoc>, ds: seq<Analysis.Trip>,
                           registry: Option<seq<Caixas.RegistryRow>>, idx: map<Cell, Incentivo.Kpi>, metas: Metas)
    ensures var r := Incentivo.HelperReport(assocs, ds, registry, idx, metas);
            forall i, j :: 0 <= i < j < |r| ==> r[i].cod != r[j].cod
  {
    var r := Incentivo.HelperReport(assocs, ds, registry, idx, metas);
    forall i, j | 0 <= i < j < |r| ensures r[i].cod != r[j].cod {
      Incentivo.HelperReportDistinct(assocs, ds, registry, idx, metas, i, j);
    }
  }

  /** Sorting an incentive list by name keeps its codes distinct. */
  lemma SortedLinesDistinct(ls: seq<Incentivo.IncentiveLine>)
    requires forall i, j :: 0 <= i < j < |ls| ==> ls[i].cod != ls[j].cod
    ensures var r := SortBy(ls, Incentivo.LineNome);
            forall i, j :: 0 <= i < j < |r| ==> r[i].cod != r[j].cod
  {
    DistinctKeysPermuted(ls, SortBy(ls, Incentivo.LineNome), (l: Incentivo.IncentiveLine) => l.cod);
  }

  /** Each incentive list holds one line per code. */
  lemma IncentiveSideDistinct(t: Analysis.Table, registry: Option<seq<Caixas.RegistryRow>>,
                              kpis: Option<seq<Incentivo.KpiRow>>, metas: Metas, helpers: bool)
    requires Incentivo.IncentiveReport(Some(t), registry, kpis, metas).Some?
    ensures var r := IncentiveSide(Incentivo.IncentiveReport(Some(t), registry, kpis, metas).value, helpers);
            forall i, j :: 0 <= i < j < |r| ==> r[i].cod != r[j].cod
  {
    var idx := Incentivo.IndicatorIndex(kpis).value;
    var r := IncentiveSide(Incentivo.IncentiveReport(Some(t), registry, kpis, metas).value, helpers);
    if |t.trips| == 0 {
      assert r == [];
    } else if helpers {
      var ls := Incentivo.HelperReport(Analysis.Associations(t), Analysis.Drivers(t), registry, idx, metas);
      HelperSideDistinct(Analysis.Associations(t), Analysis.Drivers(t), registry, idx, metas);
      SortedLinesDistinct(ls);
      assert r == SortBy(ls, Incentivo.LineNome);
    } else {
      var ls := Incentivo.DriverReport(t, registry, idx, metas);
      Incentivo.DriverReportDistinct(t, registry, idx, metas);
      SortedLinesDistinct(ls);
      assert r == SortBy(ls, Incentivo.LineNome);
    }
  }

  /** An incentive line of a list with distinct codes is paid, in full, on the merged row of its code. */
  lemma MergeLinesPaysIncentive(kpi: seq<Incentivo.IncentiveLine>, cx: seq<Caixas.BoxesLine>, l: Incentivo.IncentiveLine)
    requires forall i, j :: 0 <= i < j < |kpi| ==> kpi[i].cod != kpi[j].cod
    requires l in kpi
    ensures exists r :: r in MergeLines(kpi, cx) && r.cod == l.cod && r.premioKpi == l.totalPrize
  {
    PrizesDistinct(kpi, (x: Incentivo.IncentiveLine) => x.cod, FromIncentive);
    var ps := MapSeq(kpi, FromIncentive);
    var xs := MapSeq(cx, FromBoxes);
    var k :| 0 <= k < |kpi| && kpi[k] == l;
    assert ps[k] == FromIncentive(l);
    MergePaysIncentive(ps, xs, FromIncentive(l));
    var i :| 0 <= i < |Merge(ps, xs)| && Merge(ps, xs)[i].cod == l.cod && Merge(ps, xs)[i].premioKpi == l.totalPrize;
    assert Merge(ps, xs)[i] in Merge(ps, xs);
  }

  /** A box line of a list with distinct codes is paid, in full, on the merged row of its code. */
  lemma MergeLinesPaysBoxes(kpi: seq<Incentivo.IncentiveLine>, cx: seq<Caixas.BoxesLine>, l: Caixas.BoxesLine)
    requires forall i, j :: 0 <= i < j < |cx| ==> cx[i].cod != cx[j].cod
    requires l in cx
    ensures exists r :: r in MergeLines(kpi, cx) && r.cod == l.cod && r.premioCaixas == l.totalPrize
  {
    PrizesDistinct(cx, (x: Caixas.BoxesLine) => x.cod, FromBoxes);
    var ps := MapSeq(kpi, FromIncentive);
    var xs := MapSeq(cx, FromBoxes);
    var k :| 0 <= k < |cx| && cx[k] == l;
    assert xs[k] == FromBoxes(l);
    MergePaysBoxes(ps, xs, FromBoxes(l));
    var i :| 0 <= i < |Merge(ps, xs)| && Merge(ps, xs)[i].cod == l.cod && Merge(ps, xs)[i].premioCaixas == l.totalPrize;
    assert Merge(ps, xs)[i] in Merge(ps, xs);
  }

  /** Every incentive line of the period is paid, in full, on the payment row of its code. */
  lemma PaymentPaysIncentive(t: Analysis.Table, registry: Option<seq<Caixas.RegistryRow>>,
                             kpis: Option<seq<Incentivo.KpiRow>>, boxes: Option<seq<Caixas.BoxRow>>, metas: Metas,
                             helpers: bool, l: Incentivo.IncentiveLine)
    requires Incentivo.IncentiveReport(Some(t), registry, kpis, metas).Some?
    requires l in IncentiveSide(Incentivo.IncentiveReport(Some(t), registry, kpis, metas).value, helpers)
    ensures PaymentReport(t, registry, kpis, boxes, metas).Some?
    ensures exists r :: r in RowsFor(PaymentReport(t, registry, kpis, boxes, metas).value, helpers) &&
                        r.cod == l.cod && r.premioKpi == l.totalPrize
  {
    var inc := Incentivo.IncentiveReport(Some(t), registry, kpis, metas).value;
    IncentiveSideDistinct(t, registry, kpis, metas, helpers);
    MergeLinesPaysIncentive(IncentiveSide(inc, helpers), Caixas.Report(t, registry, boxes, metas, helpers), l);
    assert RowsFor(PaymentReport(t, registry, kpis, boxes, metas).value, helpers) ==
           MergeLines(IncentiveSide(inc, helpers), Caixas.Report(t, registry, boxes, metas, helpers));
  }

  /** Every box line of the period is paid, in full, on the payment row of its code. */
  lemma PaymentPaysBoxes(t: Analysis.Table, registry: Option<seq<Caixas.RegistryRow>>,
                         kpis: Option<seq<Incentivo.KpiRow>>, boxes: Option<seq<Caixas.BoxRow>>, metas: Metas,
                         helpers: bool, l: Caixas.BoxesLine)
    requires Incentivo.IncentiveReport(Some(t), registry, kpis, metas).Some?
    requires l in Caixas.Report(t, registry, boxes, metas, helpers)
    ensures PaymentReport(t, registry, kpis, boxes, metas).Some?
    ensures exists r :: r in RowsFor(PaymentReport(t, registry, kpis, boxes, metas).value, helpers) &&
                        r.cod == l.cod && r.premioCaixas == l.totalPrize
  {
    var inc := Incentivo.IncentiveReport(Some(t), registry, kpis, metas).value;
    Caixas.ReportDistinct(t, registry, boxes, metas, helpers);
    MergeLinesPaysBoxes(IncentiveSide(inc, helpers), Caixas.Report(t, registry, boxes, metas, helpers), l);
    assert RowsFor(PaymentReport(t, registry, kpis, boxes, metas).value, helpers) ==
           MergeLines(IncentiveSide(inc, helpers), Caixas.Report(t, registry, boxes, metas, helpers));
  }

  /** Both computations and the merge over the de-duplicated trips; None when the incentive
      computation raises. */
  method ProcessPayments(t: Analysis.Table, registry: Option<seq<Caixas.RegistryRow>>,
                         kpis: Option<seq<Incentivo.KpiRow>>, boxes: Option<seq<Caixas.BoxRow>>, metas: Metas)
    returns (p: Option<Payments>)
    ensures p == PaymentReport(t, registry, kpis, boxes, metas)
  {
    var inc := Incentivo.ProcessIncentives(Some(t), registry, kpis, metas);
    if inc.None? {
      return None;
    }
    var mCx, aCx := Caixas.ProcessBoxes(t, registry, boxes, metas);
    var dfM, dfA := MergeResults(inc.value.motoristas, inc.value.ajudantes, mCx, aCx);
    p := Some(Payments(dfM, dfA));
  }

  // ---------------------------------------------------------------------------
  // The route

  const InternalError: string := "Erro interno no servidor."

  datatype PaymentResponse = PaymentResponse(motoristas: seq<PaymentRow>, ajudantes: seq<PaymentRow>,
                                             error: Option<string>)

  /** GET /pagamento over the tables the period's queries returned: an overflowing cycle, a
      missing trips table and an exception of the incentive computation all end in the internal
      error; a query error is answered with empty lists; otherwise both merged lists, filtered
      down to the user's own CPF unless the user is an administrator. */
  method PaymentRoute(user: User, dataInicio: string, dataFim: string, err1: Option<string>, err2: Option<string>,
                      err3: Option<string>, err4: Option<string>, tab: Option<Analysis.Table>,
                      registry: Option<seq<Caixas.RegistryRow>>, kpis: Option<seq<Incentivo.KpiRow>>,
                      boxes: Option<seq<Caixas.BoxRow>>, metas: Metas)
    returns (resp: PaymentResponse)
    ensures Calendar.PeriodCatchingValueError(dataInicio, dataFim).Raised? ==>
              resp == PaymentResponse([], [], Some(InternalError))
    ensures var error := FirstTruthy([err1, err2, err3, err4]);
            Calendar.PeriodCatchingValueError(dataInicio, dataFim).Computed? && Truthy(error) ==>
              resp == PaymentResponse([], [], error)
    ensures var error := FirstTruthy([err1, err2, err3, err4]);
            Calendar.PeriodCatchingValueError(dataInicio, dataFim).Computed? && !Truthy(error) ==>
              match tab
              case None => resp == PaymentResponse([], [], Some(InternalError))
              case Some(t) =>
                match PaymentReport(DedupTrips(t), registry, kpis, boxes, metas)
                case None => resp == PaymentResponse([], [], Some(InternalError))
                case Some(p) => resp == PaymentResponse(CpfFilter(p.motoristas, RowCpfText, user),
                                                        CpfFilter(p.ajudantes, RowCpfText, user), None)
  {
    if Calendar.PeriodCatchingValueError(dataInicio, dataFim).Raised? {
      return PaymentResponse([], [], Some(InternalError));
    }
    var error := FirstTruthy([err1, err2, err3, err4]);
    if Truthy(error) {
      return PaymentResponse([], [], error);
    }
    if tab.None? {
      return PaymentResponse([], [], Some(InternalError));
    }
    var p := ProcessPayments(DedupTrips(tab.value), registry, kpis, boxes, metas);
    if p.None? {
      return PaymentResponse([], [], Some(InternalError));
    }
    resp := PaymentResponse(CpfFilter(p.value.motoristas, RowCpfText, user),
                            CpfFilter(p.value.ajudantes, RowCpfText, user), None);
  }
}
