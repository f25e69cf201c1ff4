/** The KPI incentive of routers/incentivo.py. Each driver of the period is judged on three
    indicators (returns at the point of sale, rating and refused goods) against the drivers'
    goals and paid the prize of every indicator that passed; each helper inherits the outcome
    of its dominant driver and is paid the helpers' prizes for the indicators that driver
    passed. */
module Incentivo {
  import opened Wrappers
  import opened Text
  import opened Collections
  import opened Reports
  import Caixas
  import Analysis

  // ---------------------------------------------------------------------------
  // The indicators table

  /** One row of the indicators table: Codigo_M as read, and dev_pdv, Rating_tx and refugo after
      pd.to_numeric(errors='coerce'), None where absent or not a number. */
  datatype KpiRow = KpiRow(codigo: Cell, dev: Option<real>, rating: Option<real>, refugo: Option<real>)

  /** The indicators of one driver. */
  datatype Kpi = Kpi(dev: Option<real>, rating: Option<real>, refugo: Option<real>)

  /** What a driver without indicators gets: indicadores_map.get(cod, {}). */
  const NoKpi: Kpi := Kpi(None, None, None)

  function KpiCode(r: KpiRow): Cell { r.codigo }
  function KpiOf(r: KpiRow): Kpi { Kpi(r.dev, r.rating, r.refugo) }

  predicate UniqueCodes(rows: seq<KpiRow>) {
    forall i, j :: 0 <= i < j < |rows| ==> rows[i].codigo != rows[j].codigo
  }

  /** indicadores_map, set_index('Codigo_M').to_dict('index'): empty without a table, and None
      when a code repeats, since that conversion raises on a repeated index. */
  function IndicatorIndex(kpis: Option<seq<KpiRow>>): Option<map<Cell, Kpi>> {
    match kpis
    case None => Some(map[])
    case Some(rows) => if UniqueCodes(rows) then Some(ToDict(rows, KpiCode, KpiOf)) else None
  }

  /** The index exists exactly when no code repeats; it then holds every code once, with the
      indicators of its row. */
  lemma IndicatorIndexLookup(rows: seq<KpiRow>, r: KpiRow)
    ensures IndicatorIndex(Some(rows)).Some? <==> UniqueCodes(rows)
    ensures UniqueCodes(rows) ==>
              && IndicatorIndex(Some(rows)).value.Keys == KeySet(rows, KpiCode)
              && (r in rows ==> IndicatorIndex(Some(rows)).value[r.codigo] == KpiOf(r))
  {
    if UniqueCodes(rows) {
      ToDictKeys(rows, KpiCode, KpiOf);
      if r in rows {
        forall y | y in rows && KpiCode(y) == KpiCode(r) ensures y == r {
          var i :| 0 <= i < |rows| && rows[i] == y;
          var j :| 0 <= j < |rows| && rows[j] == r;
          assert !(i < j) && !(j < i);
        }
        ToDictUnique(rows, KpiCode, KpiOf, r);
      }
    }
  }

  /** The indicators of a driver code: the lookup is by the integer code. */
  function KpiFor(idx: map<Cell, Kpi>, cod: int): Kpi { if Int(cod) in idx then idx[Int(cod)] else NoKpi }

  // ---------------------------------------------------------------------------
  // Judging the indicators

  /** What an indicator shows: "N/A", or its percentage (rendered with two decimals). */
  datatype Shown = NotAvailable | Percent(value: real)

  /** The indicator times 100, when present. */
  function Percentage(x: Option<real>): Option<real> {
    match x
    case None => None
    case Some(v) => Some(v * 100.0)
  }

  function ShownOf(p: Option<real>): Shown {
    match p
    case None => NotAvailable
    case Some(v) => Percent(v)
  }

  /** The outcome of a driver's indicators, as kept in premio_motorista_map. */
  datatype Outcome = Outcome(devShown: Shown, devPassed: bool, ratingShown: Shown, ratingPassed: bool,
                             refugoShown: Shown, refugoPassed: bool)

  /** default_premio_info: nothing shown, nothing passed. */
  const AllFail: Outcome := Outcome(NotAvailable, false, NotAvailable, false, NotAvailable, false)

  predicate AtMost(p: Option<real>, goal: real) { p.Some? && p.value <= goal }
  predicate AtLeast(p: Option<real>, goal: real) { p.Some? && p.value >= goal }

  function DevGoal(g: Goals): real { Goal(g, "dev_pdv_meta_perc", 0.0) }
  function RatingGoal(g: Goals): real { Goal(g, "rating_meta_perc", 0.0) }
  function RefugoGoal(g: Goals): real { Goal(g, "refugo_meta_perc", 0.0) }

  /** The judgement of processar_motoristas: returns and refused goods pass at or below their
      goal, the rating at or above it. */
  function Assess(k: Kpi, g: Goals): Outcome {
    var dev := Percentage(k.dev);
    var rating := Percentage(k.rating);
    var refugo := Percentage(k.refugo);
    Outcome(ShownOf(dev), AtMost(dev, DevGoal(g)),
            ShownOf(rating), AtLeast(rating, RatingGoal(g)),
            ShownOf(refugo), AtMost(refugo, RefugoGoal(g)))
  }

  /** An absent indicator shows "N/A" and never passes; a present one passes iff 100 times it
      is within its goal, on the side that goal is meant. */
  lemma AssessRules(k: Kpi, g: Goals)
    ensures var o := Assess(k, g);
            && (o.devPassed <==> k.dev.Some? && 100.0 * k.dev.value <= DevGoal(g))
            && (o.ratingPassed <==> k.rating.Some? && 100.0 * k.rating.value >= RatingGoal(g))
            && (o.refugoPassed <==> k.refugo.Some? && 100.0 * k.refugo.value <= RefugoGoal(g))
            && (o.devShown == NotAvailable <==> k.dev.None?)
            && (o.ratingShown == NotAvailable <==> k.rating.None?)
            && (o.refugoShown == NotAvailable <==> k.refugo.None?)
  {
  }

  /** Better indicators never lose a pass: fewer returns, a higher rating or less refused goods
      pass whenever the worse value passed. */
  lemma AssessMonotone(k1: Kpi, k2: Kpi, g: Goals)
    requires k1.dev.Some? && k2.dev.Some? && k1.dev.value <= k2.dev.value
    requires k1.rating.Some? && k2.rating.Some? && k1.rating.value >= k2.rating.value
    requires k1.refugo.Some? && k2.refugo.Some? && k1.refugo.value <= k2.refugo.value
    ensures Assess(k2, g).devPassed ==> Assess(k1, g).devPassed
    ensures Assess(k2, g).ratingPassed ==> Assess(k1, g).ratingPassed
    ensures Assess(k2, g).refugoPassed ==> Assess(k1, g).refugoPassed
  {
  }

  // ---------------------------------------------------------------------------
  // Incentive lines

  /** One line of either list: the CPF cell as the registry holds it ("" when the code is not
      there), the code, the name, and per indicator what is shown and the prize paid. */
  datatype IncentiveLine = IncentiveLine(cpf: Cell, cod: int, nome: string,
                                         devShown: Shown, devPrize: real,
                                         ratingShown: Shown, ratingPrize: real,
                                         refugoShown: Shown, refugoPrize: real,
                                         totalPrize: real)

  function LineNome(l: IncentiveLine): string { l.nome }

  /** str(line["cpf"]) */
  function LineCpfText(l: IncentiveLine): string { CellText(l.cpf) }

  /** The goal's prize if the indicator passed, else 0. */
  function PrizeIf(passed: bool, g: Goals, key: string): real { if passed then Goal(g, key, 0.0) else 0.0 }

  /** The line of one collaborator with a given outcome, paid from the goals of its role. */
  function LineFor(cpf: Cell, cod: int, nome: string, o: Outcome, g: Goals): IncentiveLine {
    var dev := PrizeIf(o.devPassed, g, "dev_pdv_premio");
    var rating := PrizeIf(o.ratingPassed, g, "rating_premio");
    var refugo := PrizeIf(o.refugoPassed, g, "refugo_premio");
    IncentiveLine(cpf, cod, nome, o.devShown, dev, o.ratingShown, rating, o.refugoShown, refugo,
                  dev + rating + refugo)
  }

  /** Each prize is the goal's prize iff its indicator passed (0 by default), and the total is
      the sum of the three. */
  lemma LinePays(cpf: Cell, cod: int, nome: string, o: Outcome, g: Goals)
    ensures var l := LineFor(cpf, cod, nome, o, g);
            && l.devPrize == (if o.devPassed then Goal(g, "dev_pdv_premio", 0.0) else 0.0)
            && l.ratingPrize == (if o.ratingPassed then Goal(g, "rating_premio", 0.0) else 0.0)
            && l.refugoPrize == (if o.refugoPassed then Goal(g, "refugo_premio", 0.0) else 0.0)
            && l.totalPrize == l.devPrize + l.ratingPrize + l.refugoPrize
            && l.devShown == o.devShown && l.ratingShown == o.ratingShown && l.refugoShown == o.refugoShown
  {
  }

  /** The all-fail default pays nothing, whatever the goals. */
  lemma AllFailPaysNothing(cpf: Cell, cod: int, nome: string, g: Goals)
    ensures var l := LineFor(cpf, cod, nome, AllFail, g);
            l.devPrize == 0.0 && l.ratingPrize == 0.0 && l.refugoPrize == 0.0 && l.totalPrize == 0.0
  {
  }

  // ---------------------------------------------------------------------------
  // CPFs from the registry

  function CpfOf(p: Caixas.Person): Cell { p.cpf }

  /** cpf_motorista_map / cpf_ajudante_map: the CPF cell of the first row of each raw code,
      keyed by the code coerced to an integer (0 included), a later row overwriting an earlier
      one that coerces alike. */
  function CpfMap(people: seq<Caixas.Person>): map<int, Cell> {
    ToDict(Caixas.Listed(people), Caixas.CodeOf, CpfOf)
  }

  /** The CPF map of a role; empty when there is no registry table. */
  function RoleCpfs(registry: Option<seq<Caixas.RegistryRow>>, helpers: bool): map<int, Cell> {
    match registry
    case None => map[]
    case Some(rows) => CpfMap(MapSeq(rows, if helpers then Caixas.HelperOf else Caixas.DriverOf))
  }

  /** cpf_map.get(cod, "") */
  function CpfLookup(m: map<int, Cell>, cod: int): Cell { if cod in m then m[cod] else Str("") }

  /** A code has a CPF iff some registry row with a code coerces to it. */
  lemma CpfMapKeys(people: seq<Caixas.Person>, c: int)
    ensures c in CpfMap(people) <==> exists p :: p in people && Caixas.HasCode(p) && Caixas.CodeOf(p) == c
  {
    var f := Filter(people, Caixas.HasCode);
    var l := Caixas.Listed(people);
    FilterMembership(people, Caixas.HasCode);
    ToDictKeys(l, Caixas.CodeOf, CpfOf);
    if exists p :: p in people && Caixas.HasCode(p) && Caixas.CodeOf(p) == c {
      var p :| p in people && Caixas.HasCode(p) && Caixas.CodeOf(p) == c;
      assert Caixas.RawCode(p) in KeySet(f, Caixas.RawCode);
      var y :| y in l && Caixas.RawCode(y) == Caixas.RawCode(p);
      assert Caixas.CodeOf(y) == c;
    }
  }

  // ---------------------------------------------------------------------------
  // Drivers (processar_motoristas)

  /** str(MOTORISTA).strip() */
  function DriverNome(t: Analysis.Trip): string { Strip(CellText(Analysis.At(t, "MOTORISTA"))) }

  /** The line of one driver: its own indicators against the drivers' goals. */
  function DriverLine(t: Analysis.Trip, cpfs: map<int, Cell>, idx: map<Cell, Kpi>, g: Goals): IncentiveLine {
    LineFor(CpfLookup(cpfs, t.cod), t.cod, DriverNome(t), Assess(KpiFor(idx, t.cod), g), g)
  }

  /** incentivo_motoristas: one line per driver row, in order. */
  function DriverLines(ds: seq<Analysis.Trip>, cpfs: map<int, Cell>, idx: map<Cell, Kpi>, g: Goals)
    : (r: seq<IncentiveLine>)
    ensures |r| == |ds|
  {
    if |ds| == 0 then [] else DriverLines(ds[..|ds| - 1], cpfs, idx, g) + [DriverLine(ds[|ds| - 1], cpfs, idx, g)]
  }

  /** premio_motorista_map: the outcome of every driver whose code is not 0. */
  function Inheritance(ds: seq<Analysis.Trip>, idx: map<Cell, Kpi>, g: Goals): map<int, Outcome> {
    if |ds| == 0 then map[]
    else
      var m := Inheritance(ds[..|ds| - 1], idx, g);
      var t := ds[|ds| - 1];
      if t.cod != 0 then m[t.cod := Assess(KpiFor(idx, t.cod), g)] else m
  }

  lemma DriverLinesPush(ds: seq<Analysis.Trip>, cpfs: map<int, Cell>, idx: map<Cell, Kpi>, g: Goals, i: int)
    requires 0 <= i < |ds|
    ensures DriverLines(ds[..i + 1], cpfs, idx, g) == DriverLines(ds[..i], cpfs, idx, g) + [DriverLine(ds[i], cpfs, idx, g)]
  {
    assert ds[..i + 1][..i] == ds[..i];
  }

  lemma InheritancePush(ds: seq<Analysis.Trip>, idx: map<Cell, Kpi>, g: Goals, i: int)
    requires 0 <= i < |ds|
    ensures Inheritance(ds[..i + 1], idx, g) ==
            if ds[i].cod != 0 then Inheritance(ds[..i], idx, g)[ds[i].cod := Assess(KpiFor(idx, ds[i].cod), g)]
            else Inheritance(ds[..i], idx, g)
  {
    assert ds[..i + 1][..i] == ds[..i];
  }

  /** The loop of processar_motoristas: append each driver's line and, for a nonzero code,
      record its outcome. */
  method ProcessDrivers(ds: seq<Analysis.Trip>, cpfs: map<int, Cell>, idx: map<Cell, Kpi>, g: Goals)
    returns (lines: seq<IncentiveLine>, inherit: map<int, Outcome>)
    ensures lines == DriverLines(ds, cpfs, idx, g)
    ensures inherit == Inheritance(ds, idx, g)
  {
    lines := [];
    inherit := map[];
    for i := 0 to |ds|
      invariant lines == DriverLines(ds[..i], cpfs, idx, g)
      invariant inherit == Inheritance(ds[..i], idx, g)
    {
      var t := ds[i];
      DriverLinesPush(ds, cpfs, idx, g, i);
      InheritancePush(ds, idx, g, i);
      var o := Assess(KpiFor(idx, t.cod), g);
      lines := lines + [LineFor(CpfLookup(cpfs, t.cod), t.cod, DriverNome(t), o, g)];
      if t.cod != 0 {
        inherit := inherit[t.cod := o];
      }
    }
    assert ds[..|ds|] == ds;
  }

  lemma {:induction false} DriverLinesAt(ds: seq<Analysis.Trip>, cpfs: map<int, Cell>, idx: map<Cell, Kpi>,
                                         g: Goals, i: int)
    requires 0 <= i < |ds|
    ensures DriverLines(ds, cpfs, idx, g)[i] == DriverLine(ds[i], cpfs, idx, g)
    decreases |ds|
  {
    if i < |ds| - 1 {
      DriverLinesAt(ds[..|ds| - 1], cpfs, idx, g, i);
    }
  }

  /** A code is in the inheritance map iff it is not 0 and some driver row has it; it then holds
      that driver's outcome, which depends on the code alone. */
  lemma {:induction false} InheritanceFacts(ds: seq<Analysis.Trip>, idx: map<Cell, Kpi>, g: Goals, c: int)
    ensures c in Inheritance(ds, idx, g) <==> c != 0 && exists t :: t in ds && t.cod == c
    ensures c in Inheritance(ds, idx, g) ==> Inheritance(ds, idx, g)[c] == Assess(KpiFor(idx, c), g)
    decreases |ds|
  {
    if |ds| > 0 {
      var init := ds[..|ds| - 1];
      InheritanceFacts(init, idx, g, c);
      assert ds == init + [ds[|ds| - 1]];
      if c != 0 && exists t :: t in ds && t.cod == c {
        var t :| t in ds && t.cod == c;
        if t != ds[|ds| - 1] {
          assert t in init;
        }
      }
    }
  }

  // ---------------------------------------------------------------------------
  // Helpers (the inheritance loop of processar_incentivos_sincrono)

  /** The outcome a helper inherits: its dominant driver's, when that driver is known, not 0
      and in the inheritance map; the all-fail default otherwise. */
  function InheritedBy(dominant: map<int, Option<int>>, inherit: map<int, Outcome>, h: int): Outcome {
    if h in dominant && dominant[h].Some? && dominant[h].value != 0 && dominant[h].value in inherit
    then inherit[dominant[h].value]
    else AllFail
  }

  /** The line of one helper: the inherited outcome against the helpers' goals. */
  function HelperLine(a: Analysis.Assoc, cpfs: map<int, Cell>, dominant: map<int, Option<int>>,
                      inherit: map<int, Outcome>, g: Goals): IncentiveLine
  {
    LineFor(CpfLookup(cpfs, a.helperCod), a.helperCod, a.helperName, InheritedBy(dominant, inherit, a.helperCod), g)
  }

  /** incentivo_ajudantes: one line per association visited, in order. */
  function HelperLines(hs: seq<Analysis.Assoc>, cpfs: map<int, Cell>, dominant: map<int, Option<int>>,
                       inherit: map<int, Outcome>, g: Goals): (r: seq<IncentiveLine>)
    ensures |r| == |hs|
  {
    if |hs| == 0 then []
    else HelperLines(hs[..|hs| - 1], cpfs, dominant, inherit, g) + [HelperLine(hs[|hs| - 1], cpfs, dominant, inherit, g)]
  }

  lemma HelpersPush(hs: seq<Analysis.Assoc>, cpfs: map<int, Cell>, dominant: map<int, Option<int>>,
                    inherit: map<int, Outcome>, g: Goals, i: int)
    requires 0 <= i < |hs|
    ensures HelperLines(hs[..i + 1], cpfs, dominant, inherit, g)
         == HelperLines(hs[..i], cpfs, dominant, inherit, g) + [HelperLine(hs[i], cpfs, dominant, inherit, g)]
  {
    assert hs[..i + 1][..i] == hs[..i];
  }

  lemma {:induction false} HelperLinesAt(hs: seq<Analysis.Assoc>, cpfs: map<int, Cell>,
                                         dominant: map<int, Option<int>>, inherit: map<int, Outcome>,
                                         g: Goals, i: int)
    requires 0 <= i < |hs|
    ensures HelperLines(hs, cpfs, dominant, inherit, g)[i] == HelperLine(hs[i], cpfs, dominant, inherit, g)
    decreases |hs|
  {
    if i < |hs| - 1 {
      HelperLinesAt(hs[..|hs| - 1], cpfs, dominant, inherit, g, i);
    }
  }

  /** The helper loop: look up the dominant driver, inherit its outcome and append the line. */
  method ProcessHelpers(hs: seq<Analysis.Assoc>, cpfs: map<int, Cell>, dominant: map<int, Option<int>>,
                        inherit: map<int, Outcome>, g: Goals)
    returns (lines: seq<IncentiveLine>)
    ensures lines == HelperLines(hs, cpfs, dominant, inherit, g)
  {
    lines := [];
    for i := 0 to |hs|
      invariant lines == HelperLines(hs[..i], cpfs, dominant, inherit, g)
    {
      var a := hs[i];
      HelpersPush(hs, cpfs, dominant, inherit, g, i);
      var herdado := AllFail;
      if a.helperCod in dominant {
        var codMot := dominant[a.helperCod];
        if codMot.Some? && codMot.value != 0 && codMot.value in inherit {
          herdado := inherit[codMot.value];
        }
      }
      lines := lines + [LineFor(CpfLookup(cpfs, a.helperCod), a.helperCod, a.helperName, herdado, g)];
    }
    assert hs[..|hs|] == hs;
  }

  /** A helper inherits from the period's drivers exactly: the outcome of its dominant driver
      when that driver is not 0 and drove in the period, the all-fail default otherwise. */
  lemma InheritedByRule(ds: seq<Analysis.Trip>, idx: map<Cell, Kpi>, gm: Goals,
                        dominant: map<int, Option<int>>, h: int)
    ensures InheritedBy(dominant, Inheritance(ds, idx, gm), h) ==
            if h in dominant && dominant[h].Some? && dominant[h].value != 0 &&
               exists t :: t in ds && t.cod == dominant[h].value
            then Assess(KpiFor(idx, dominant[h].value), gm)
            else AllFail
  {
    if h in dominant && dominant[h].Some? {
      InheritanceFacts(ds, idx, gm, dominant[h].value);
    }
  }

  // ---------------------------------------------------------------------------
  // Both lists (processar_incentivos_sincrono)

  datatype Incentives = Incentives(motoristas: seq<IncentiveLine>, ajudantes: seq<IncentiveLine>)

  /** The drivers' lines, unsorted. */
  function DriverReport(t: Analysis.Table, registry: Option<seq<Caixas.RegistryRow>>, idx: map<Cell, Kpi>,
                        metas: Metas): seq<IncentiveLine>
  {
    DriverLines(Analysis.Drivers(t), RoleCpfs(registry, false), idx, GoalsOf(metas, "motorista"))
  }

  /** The helpers' lines, unsorted: the first association of each helper code, inheriting from
      the period's driver rows ds. */
  function HelperReport(assocs: seq<Analysis.Assoc>, ds: seq<Analysis.Trip>,
                        registry: Option<seq<Caixas.RegistryRow>>, idx: map<Cell, Kpi>, metas: Metas)
    : seq<IncentiveLine>
  {
    HelperLines(DedupBy(assocs, Analysis.AssocHelper), RoleCpfs(registry, true), Analysis.DominantDriverMap(assocs),
                Inheritance(ds, idx, GoalsOf(metas, "motorista")), GoalsOf(metas, "ajudante"))
  }

  /** Both lists sorted by name; None when an exception escapes: a repeated indicator code, or
      trips without a MOTORISTA column. No trips, or an empty table, give two empty lists. */
  function IncentiveReport(tab: Option<Analysis.Table>, registry: Option<seq<Caixas.RegistryRow>>,
                           kpis: Option<seq<KpiRow>>, metas: Metas): Option<Incentives>
  {
    match IndicatorIndex(kpis)
    case None => None
    case Some(idx) =>
      if tab.None? || |tab.value.trips| == 0 then Some(Incentives([], []))
      else if "MOTORISTA" !in tab.value.columns then None
      else Some(Incentives(SortBy(DriverReport(tab.value, registry, idx, metas), LineNome),
                           SortBy(HelperReport(Analysis.Associations(tab.value), Analysis.Drivers(tab.value), registry,
                                                idx, metas), LineNome)))
  }

  lemma DominantOfReferenceMaps(assocs: seq<Analysis.Assoc>, t: Analysis.Table)
    ensures Analysis.ReferenceMaps(assocs, t).dominantDriver == Analysis.DominantDriverMap(assocs)
  {
  }

  /** The call to gerar_dashboard_e_mapas: the associations (df_melted) and the dominant
      driver of each helper (motorista_fixo_map, {} when the maps are empty). */
  method DashboardMaps(t: Analysis.Table) returns (assocs: seq<Analysis.Assoc>, dominant: map<int, Option<int>>)
    ensures assocs == Analysis.Associations(t)
    ensures dominant == Analysis.DominantDriverMap(assocs)
  {
    var d := Analysis.GenerateDashboard(t);
    assocs := d.assocs;
    DominantOfReferenceMaps(assocs, t);
    dominant := map[];
    if d.maps.Some? {
      dominant := d.maps.value.dominantDriver;
    } else {
      assert KeySet(assocs, Analysis.AssocHelper) == {};
    }
  }

  /** processar_incentivos_sincrono */
  method ProcessIncentives(tab: Option<Analysis.Table>, registry: Option<seq<Caixas.RegistryRow>>,
                           kpis: Option<seq<KpiRow>>, metas: Metas)
    returns (r: Option<Incentives>)
    ensures r == IncentiveReport(tab, registry, kpis, metas)
  {
    var index := IndicatorIndex(kpis);
    if index.None? {
      return None;
    }
    var idx := index.value;
    if tab.None? || |tab.value.trips| == 0 {
      return Some(Incentives([], []));
    }
    var t := tab.value;
    if "MOTORISTA" !in t.columns {
      return None;
    }
    var gm := GoalsOf(metas, "motorista");
    var drivers, inherit := ProcessDrivers(Analysis.Drivers(t), RoleCpfs(registry, false), idx, gm);
    var assocs, dominant := DashboardMaps(t);
    var helpers := ProcessHelpers(DedupBy(assocs, Analysis.AssocHelper), RoleCpfs(registry, true), dominant,
                                  inherit, GoalsOf(metas, "ajudante"));
    assert drivers == DriverReport(t, registry, idx, metas);
    assert helpers == HelperReport(assocs, Analysis.Drivers(t), registry, idx, metas);
    r := Some(Incentives(SortBy(drivers, LineNome), SortBy(helpers, LineNome)));
  }

  // Facts about the lines of any sequence of rows

  lemma DriverLinesDistinct(ds: seq<Analysis.Trip>, cpfs: map<int, Cell>, idx: map<Cell, Kpi>, g: Goals)
    requires forall i, j :: 0 <= i < j < |ds| ==> ds[i].cod != ds[j].cod
    ensures var r := DriverLines(ds, cpfs, idx, g);
            forall i, j :: 0 <= i < j < |r| ==> r[i].cod != r[j].cod
  {
    var r := DriverLines(ds, cpfs, idx, g);
    forall i, j | 0 <= i < j < |r| ensures r[i].cod != r[j].cod {
      DriverLinesAt(ds, cpfs, idx, g, i);
      DriverLinesAt(ds, cpfs, idx, g, j);
    }
  }

  lemma DriverLinesMember(ds: seq<Analysis.Trip>, cpfs: map<int, Cell>, idx: map<Cell, Kpi>, g: Goals,
                          l: IncentiveLine)
    requires l in DriverLines(ds, cpfs, idx, g)
    ensures exists t :: t in ds && l == DriverLine(t, cpfs, idx, g)
  {
    var r := DriverLines(ds, cpfs, idx, g);
    var i :| 0 <= i < |r| && r[i] == l;
    DriverLinesAt(ds, cpfs, idx, g, i);
    assert ds[i] in ds;
  }

  lemma DriverLinesCover(ds: seq<Analysis.Trip>, cpfs: map<int, Cell>, idx: map<Cell, Kpi>, g: Goals, c: int)
    ensures (exists l :: l in DriverLines(ds, cpfs, idx, g) && l.cod == c) <==> exists t :: t in ds && t.cod == c
  {
    var r := DriverLines(ds, cpfs, idx, g);
    if exists l :: l in r && l.cod == c {
      var l :| l in r && l.cod == c;
      DriverLinesMember(ds, cpfs, idx, g, l);
    }
    if exists t :: t in ds && t.cod == c {
      var t :| t in ds && t.cod == c;
      var i :| 0 <= i < |ds| && ds[i] == t;
      DriverLinesAt(ds, cpfs, idx, g, i);
      assert r[i] in r;
    }
  }

  lemma HelperLinesMember(hs: seq<Analysis.Assoc>, cpfs: map<int, Cell>, dominant: map<int, Option<int>>,
                          inherit: map<int, Outcome>, g: Goals, l: IncentiveLine)
    requires l in HelperLines(hs, cpfs, dominant, inherit, g)
    ensures exists a :: a in hs && l == HelperLine(a, cpfs, dominant, inherit, g)
  {
    var r := HelperLines(hs, cpfs, dominant, inherit, g);
    var i :| 0 <= i < |r| && r[i] == l;
    HelperLinesAt(hs, cpfs, dominant, inherit, g, i);
    assert hs[i] in hs;
  }

  lemma HelperLinesCover(hs: seq<Analysis.Assoc>, cpfs: map<int, Cell>, dominant: map<int, Option<int>>,
                         inherit: map<int, Outcome>, g: Goals, c: int)
    ensures (exists l :: l in HelperLines(hs, cpfs, dominant, inherit, g) && l.cod == c) <==>
            exists a :: a in hs && a.helperCod == c
  {
    var r := HelperLines(hs, cpfs, dominant, inherit, g);
    if exists l :: l in r && l.cod == c {
      var l :| l in r && l.cod == c;
      HelperLinesMember(hs, cpfs, dominant, inherit, g, l);
    }
    if exists a :: a in hs && a.helperCod == c {
      var a :| a in hs && a.helperCod == c;
      var i :| 0 <= i < |hs| && hs[i] == a;
      HelperLinesAt(hs, cpfs, dominant, inherit, g, i);
      assert r[i] in r;
    }
  }

  // The lists of the report

  /** No two lines of the drivers' list share a code. */
  lemma DriverReportDistinct(t: Analysis.Table, registry: Option<seq<Caixas.RegistryRow>>, idx: map<Cell, Kpi>,
                             metas: Metas)
    ensures var r := DriverReport(t, registry, idx, metas);
            forall i, j :: 0 <= i < j < |r| ==> r[i].cod != r[j].cod
  {
    var ds := Analysis.Drivers(t);
    assert ds == DedupBy(t.trips, Analysis.Cod);
    assert forall i, j :: 0 <= i < j < |ds| ==> ds[i].cod != ds[j].cod by {
      forall i, j | 0 <= i < j < |ds| ensures ds[i].cod != ds[j].cod {
        assert Analysis.Cod(ds[i]) != Analysis.Cod(ds[j]);
      }
    }
    var cpfs, g := RoleCpfs(registry, false), GoalsOf(metas, "motorista");
    assert DriverReport(t, registry, idx, metas) == DriverLines(ds, cpfs, idx, g);
    DriverLinesDistinct(ds, cpfs, idx, g);
  }

  /** Every line of the drivers' list is the line of the first trip of its code. */
  lemma DriverReportLine(t: Analysis.Table, registry: Option<seq<Caixas.RegistryRow>>, idx: map<Cell, Kpi>,
                         metas: Metas, l: IncentiveLine)
    requires l in DriverReport(t, registry, idx, metas)
    ensures l.cod in KeySet(t.trips, Analysis.Cod)
    ensures l == DriverLine(FirstWith(t.trips, Analysis.Cod, l.cod), RoleCpfs(registry, false), idx,
                            GoalsOf(metas, "motorista"))
  {
    var ds := Analysis.Drivers(t);
    DriverLinesMember(ds, RoleCpfs(registry, false), idx, GoalsOf(metas, "motorista"), l);
    var d :| d in ds && l == DriverLine(d, RoleCpfs(registry, false), idx, GoalsOf(metas, "motorista"));
    assert l.cod == Analysis.Cod(d);
  }

  /** A code has a line in the drivers' list iff some trip of the table has it. */
  lemma DriverReportCovers(t: Analysis.Table, registry: Option<seq<Caixas.RegistryRow>>, idx: map<Cell, Kpi>,
                           metas: Metas, c: int)
    ensures (exists l :: l in DriverReport(t, registry, idx, metas) && l.cod == c) <==>
            c in KeySet(t.trips, Analysis.Cod)
  {
    var ds := Analysis.Drivers(t);
    DriverLinesCover(ds, RoleCpfs(registry, false), idx, GoalsOf(metas, "motorista"), c);
    KeyWitness(ds, Analysis.Cod, c);
  }

  /** No two lines of the helpers' list share a code. */
  lemma HelperReportDistinct(assocs: seq<Analysis.Assoc>, ds: seq<Analysis.Trip>,
                             registry: Option<seq<Caixas.RegistryRow>>, idx: map<Cell, Kpi>, metas: Metas,
                             i: int, j: int)
    requires 0 <= i < j < |HelperReport(assocs, ds, registry, idx, metas)|
    ensures HelperReport(assocs, ds, registry, idx, metas)[i].cod != HelperReport(assocs, ds, registry, idx, metas)[j].cod
  {
    var hs := DedupBy(assocs, Analysis.AssocHelper);
    var cpfs := RoleCpfs(registry, true);
    var dominant := Analysis.DominantDriverMap(assocs);
    var inherit := Inheritance(ds, idx, GoalsOf(metas, "motorista"));
    var g := GoalsOf(metas, "ajudante");
    HelperLinesAt(hs, cpfs, dominant, inherit, g, i);
    HelperLinesAt(hs, cpfs, dominant, inherit, g, j);
    assert Analysis.AssocHelper(hs[i]) != Analysis.AssocHelper(hs[j]);
  }

  /** Every line of the helpers' list belongs to a helper code of the associations, bears the
      name of that code's first association and is paid from the outcome the code inherits. */
  lemma HelperReportLine(assocs: seq<Analysis.Assoc>, ds: seq<Analysis.Trip>,
                         registry: Option<seq<Caixas.RegistryRow>>, idx: map<Cell, Kpi>, metas: Metas,
                         l: IncentiveLine)
    requires l in HelperReport(assocs, ds, registry, idx, metas)
    ensures l.cod in KeySet(assocs, Analysis.AssocHelper)
    ensures l.nome == FirstWith(assocs, Analysis.AssocHelper, l.cod).helperName
    ensures l == LineFor(CpfLookup(RoleCpfs(registry, true), l.cod), l.cod, l.nome,
                         InheritedBy(Analysis.DominantDriverMap(assocs), Inheritance(ds, idx, GoalsOf(metas, "motorista")),
                                     l.cod),
                         GoalsOf(metas, "ajudante"))
  {
    var hs := DedupBy(assocs, Analysis.AssocHelper);
    var cpfs := RoleCpfs(registry, true);
    var dominant := Analysis.DominantDriverMap(assocs);
    var inherit := Inheritance(ds, idx, GoalsOf(metas, "motorista"));
    var g := GoalsOf(metas, "ajudante");
    HelperLinesMember(hs, cpfs, dominant, inherit, g, l);
    var a :| a in hs && l == HelperLine(a, cpfs, dominant, inherit, g);
    assert l.cod == Analysis.AssocHelper(a);
  }

  /** A code has a line in the helpers' list iff some association has it as its helper. */
  lemma HelperReportCovers(assocs: seq<Analysis.Assoc>, ds: seq<Analysis.Trip>,
                           registry: Option<seq<Caixas.RegistryRow>>, idx: map<Cell, Kpi>, metas: Metas, c: int)
    ensures (exists l :: l in HelperReport(assocs, ds, registry, idx, metas) && l.cod == c) <==>
            c in KeySet(assocs, Analysis.AssocHelper)
  {
    var hs := DedupBy(assocs, Analysis.AssocHelper);
    HelperLinesCover(hs, RoleCpfs(registry, true), Analysis.DominantDriverMap(assocs),
                     Inheritance(ds, idx, GoalsOf(metas, "motorista")), GoalsOf(metas, "ajudante"), c);
    KeyWitness(hs, Analysis.AssocHelper, c);
  }

  /** A helper is paid an indicator's prize only if its dominant driver is a nonzero code that
      drove in the period and passed that indicator. */
  lemma HelperPrizeNeedsDriverPass(assocs: seq<Analysis.Assoc>, ds: seq<Analysis.Trip>,
                                   registry: Option<seq<Caixas.RegistryRow>>, idx: map<Cell, Kpi>, metas: Metas,
                                   l: IncentiveLine)
    requires l in HelperReport(assocs, ds, registry, idx, metas)
    ensures var dominant := Analysis.DominantDriverMap(assocs);
            var gm := GoalsOf(metas, "motorista");
            && (l.devPrize != 0.0 || l.ratingPrize != 0.0 || l.refugoPrize != 0.0 ==>
                  && l.cod in dominant && dominant[l.cod].Some? && dominant[l.cod].value != 0
                  && (exists t :: t in ds && t.cod == dominant[l.cod].value)
                  && (l.devPrize != 0.0 ==> Assess(KpiFor(idx, dominant[l.cod].value), gm).devPassed)
                  && (l.ratingPrize != 0.0 ==> Assess(KpiFor(idx, dominant[l.cod].value), gm).ratingPassed)
                  && (l.refugoPrize != 0.0 ==> Assess(KpiFor(idx, dominant[l.cod].value), gm).refugoPassed))
  {
    var dominant := Analysis.DominantDriverMap(assocs);
    var gm := GoalsOf(metas, "motorista");
    HelperReportLine(assocs, ds, registry, idx, metas, l);
    InheritedByRule(ds, idx, gm, dominant, l.cod);
  }

  // ---------------------------------------------------------------------------
  // The route (ler_relatorio_incentivo)

  datatype IncentiveResponse = IncentiveResponse(motoristas: seq<IncentiveLine>, ajudantes: seq<IncentiveLine>,
                                                 error: Option<string>)

  /** The route once the queries have answered. With an error, or without trips, the lists are
      empty; otherwise both lists are computed over the de-duplicated trips and seen through the
      CPF filter. None stands for an exception escaping the route. */
  method IncentiveRoute(user: User, err1: Option<string>, err2: Option<string>, err3: Option<string>,
                        err4: Option<string>, tab: Option<Analysis.Table>,
                        registry: Option<seq<Caixas.RegistryRow>>, kpis: Option<seq<KpiRow>>, metas: Metas)
    returns (resp: Option<IncentiveResponse>)
    ensures var error := FirstTruthy([err1, err2, err3, err4]);
            (Truthy(error) || tab.None?) ==> resp == Some(IncentiveResponse([], [], error))
    ensures var error := FirstTruthy([err1, err2, err3, err4]);
            !Truthy(error) && tab.Some? ==>
              match IncentiveReport(Some(DedupTrips(tab.value)), registry, kpis, metas)
              case None => resp.None?
              case Some(r) => resp == Some(IncentiveResponse(CpfFilter(r.motoristas, LineCpfText, user),
                                                             CpfFilter(r.ajudantes, LineCpfText, user), error))
  {
    var error := FirstTruthy([err1, err2, err3, err4]);
    var motoristas: seq<IncentiveLine> := [];
    var ajudantes: seq<IncentiveLine> := [];
    if !Truthy(error) && tab.Some? {
      var r := ProcessIncentives(Some(DedupTrips(tab.value)), registry, kpis, metas);
      if r.None? {
        return None;
      }
      motoristas, ajudantes := r.value.motoristas, r.value.ajudantes;
    }
    resp := Some(IncentiveResponse(CpfFilter(motoristas, LineCpfText, user), CpfFilter(ajudantes, LineCpfText, user),
                                   error));
  }
}
