/** The boxes bonus of routers/caixas.py. Every box of a paid map is credited to the trip's
    driver, to its second driver and to each of its helpers, as long as they are in the
    registry; each collaborator is then paid the box total times a value per box that grows
    with seniority. Drivers and helpers are accumulated apart, so one code can be both. */
module Caixas {
  import opened Wrappers
  import opened Text
  import opened Collections
  import opened Reports
  import Analysis
  import Calendar

  // ---------------------------------------------------------------------------
  // The value per box (_get_valor_por_caixa)

  /** The seniority thresholds, in days, and their defaults. */
  function ThresholdN1(g: Goals): real { Goal(g, "meta_cx_dias_n1", 365.0) }
  function ThresholdN2(g: Goals): real { Goal(g, "meta_cx_dias_n2", 730.0) }
  function ThresholdN3(g: Goals): real { Goal(g, "meta_cx_dias_n3", 1825.0) }

  /** The value per box of tier 1 to 4; 0.0 when the goal is not set. */
  function TierValue(g: Goals, tier: int): real {
    if tier <= 1 then Goal(g, "meta_cx_valor_n1", 0.0)
    else if tier == 2 then Goal(g, "meta_cx_valor_n2", 0.0)
    else if tier == 3 then Goal(g, "meta_cx_valor_n3", 0.0)
    else Goal(g, "meta_cx_valor_n4", 0.0)
  }

  /** The tiers are checked from the top down, each with a strict comparison. */
  function ValuePerBox(days: int, g: Goals): (v: real)
    ensures v == TierValue(g, 1) || v == TierValue(g, 2) || v == TierValue(g, 3) || v == TierValue(g, 4)
  {
    if days as real > ThresholdN3(g) then TierValue(g, 4)
    else if days as real > ThresholdN2(g) then TierValue(g, 3)
    else if days as real > ThresholdN1(g) then TierValue(g, 2)
    else TierValue(g, 1)
  }

  /** The tier as a count: one plus the number of thresholds the seniority is above. */
  function Tier(days: int, g: Goals): int {
    1 + (if days as real > ThresholdN1(g) then 1 else 0)
      + (if days as real > ThresholdN2(g) then 1 else 0)
      + (if days as real > ThresholdN3(g) then 1 else 0)
  }

  predicate AscendingThresholds(g: Goals) { ThresholdN1(g) <= ThresholdN2(g) <= ThresholdN3(g) }

  /** With ascending thresholds, the if-chain pays the tier of the seniority. */
  lemma ValuePerBoxIsTier(days: int, g: Goals)
    requires AscendingThresholds(g)
    ensures ValuePerBox(days, g) == TierValue(g, Tier(days, g))
  {
  }

  /** With ascending thresholds and ascending tier values, more seniority never pays less. */
  lemma ValuePerBoxMonotone(d1: int, d2: int, g: Goals)
    requires AscendingThresholds(g) && d1 <= d2
    requires TierValue(g, 1) <= TierValue(g, 2) <= TierValue(g, 3) <= TierValue(g, 4)
    ensures ValuePerBox(d1, g) <= ValuePerBox(d2, g)
  {
    ValuePerBoxIsTier(d1, g);
    ValuePerBoxIsTier(d2, g);
  }

  /** With the default thresholds the comparisons are strict: 365 days is still tier 1, 366
      tier 2, 731 tier 3 and 1826 tier 4. */
  lemma DefaultThresholdBoundaries(g: Goals)
    requires "meta_cx_dias_n1" !in g && "meta_cx_dias_n2" !in g && "meta_cx_dias_n3" !in g
    ensures ValuePerBox(365, g) == TierValue(g, 1) && ValuePerBox(366, g) == TierValue(g, 2)
    ensures ValuePerBox(730, g) == TierValue(g, 2) && ValuePerBox(731, g) == TierValue(g, 3)
    ensures ValuePerBox(1825, g) == TierValue(g, 3) && ValuePerBox(1826, g) == TierValue(g, 4)
  {
  }

  /** Without tier values every box is worth 0.0. */
  lemma MissingTierValuesPayNothing(days: int, g: Goals)
    requires forall k :: k in g ==> k in {"meta_cx_dias_n1", "meta_cx_dias_n2", "meta_cx_dias_n3"}
    ensures ValuePerBox(days, g) == 0.0
  {
  }

  // ---------------------------------------------------------------------------
  // The registries of drivers and helpers

  /** One person's columns in a registry row: the code (Codigo_M or Codigo_J), the seniority in
      days (today minus the admission date, None when that date is missing or does not parse),
      the name and the CPF. */
  datatype Person = Person(code: Cell, seniority: Option<int>, name: Cell, cpf: Cell)

  /** A registry row holds a driver's columns and a helper's columns. */
  datatype RegistryRow = RegistryRow(driver: Person, helper: Person)

  function DriverOf(r: RegistryRow): Person { r.driver }
  function HelperOf(r: RegistryRow): Person { r.helper }

  /** What the registry keeps per code: the seniority in days and the stripped name and CPF. */
  datatype Entry = Entry(seniority: int, nome: string, cpf: string)

  function RawCode(p: Person): Cell { p.code }
  predicate HasCode(p: Person) { !p.code.Null? }

  /** pd.to_numeric(errors='coerce').fillna(0).astype(int) */
  function CodeOf(p: Person): int { match ToNumeric(p.code) case Some(k) => k case None => 0 }

  predicate Registered(p: Person) { CodeOf(p) != 0 }

  function EntryOf(p: Person): Entry {
    Entry(match p.seniority case Some(d) => d case None => 0, Strip(CellText(p.name)), Strip(CellText(p.cpf)))
  }

  /** The rows the loop visits: the rows with a code, the first row of each raw code. */
  function Listed(people: seq<Person>): seq<Person> { DedupBy(Filter(people, HasCode), RawCode) }

  /** The seniority and info maps of one role; both get the same keys, so they are one map here. */
  function RegistryOf(people: seq<Person>): map<int, Entry> {
    ToDict(Filter(Listed(people), Registered), CodeOf, EntryOf)
  }

  /** The loop over the registry rows: a code that coerces to 0 is skipped. */
  method BuildRegistry(people: seq<Person>) returns (reg: map<int, Entry>)
    ensures reg == RegistryOf(people)
  {
    var rows := Listed(people);
    reg := map[];
    for i := 0 to |rows|
      invariant reg == ToDict(Filter(rows[..i], Registered), CodeOf, EntryOf)
    {
      var p := rows[i];
      ToDictFilterPush(rows, Registered, CodeOf, EntryOf, i);
      if CodeOf(p) == 0 {
        continue;
      }
      reg := reg[CodeOf(p) := EntryOf(p)];
    }
    assert rows[..|rows|] == rows;
  }

  /** A code is registered iff it is not 0 and some row with a code has it. */
  lemma RegistryKeys(people: seq<Person>, c: int)
    ensures c in RegistryOf(people) <==> c != 0 && exists p :: p in people && HasCode(p) && CodeOf(p) == c
  {
    var f := Filter(people, HasCode);
    var l := Listed(people);
    var g := Filter(l, Registered);
    FilterMembership(people, HasCode);
    FilterMembership(l, Registered);
    ToDictKeys(g, CodeOf, EntryOf);
    if c != 0 && exists p :: p in people && HasCode(p) && CodeOf(p) == c {
      var p :| p in people && HasCode(p) && CodeOf(p) == c;
      assert RawCode(p) in KeySet(f, RawCode);
      var y :| y in l && RawCode(y) == RawCode(p);
      assert y in g;
    }
  }

  /** The first row of a code wins, whenever no other raw code coerces to the same number. */
  lemma RegistryFirstRowWins(people: seq<Person>, p: Person)
    requires p in people && HasCode(p) && Registered(p)
    requires forall q :: q in people && HasCode(q) && CodeOf(q) == CodeOf(p) ==> q.code == p.code
    ensures CodeOf(p) in RegistryOf(people)
    ensures p.code in KeySet(Filter(people, HasCode), RawCode)
    ensures RegistryOf(people)[CodeOf(p)] == EntryOf(FirstWith(Filter(people, HasCode), RawCode, p.code))
  {
    var f := Filter(people, HasCode);
    var l := Listed(people);
    var g := Filter(l, Registered);
    FilterMembership(people, HasCode);
    FilterMembership(l, Registered);
    assert RawCode(p) in KeySet(f, RawCode);
    var y :| y in l && RawCode(y) == RawCode(p);
    assert y in g;
    forall z | z in g && CodeOf(z) == CodeOf(y) ensures z == y {
      assert z in f;
    }
    ToDictUnique(g, CodeOf, EntryOf, y);
  }

  /** The registry of a role: empty when there is no registry table. */
  function RoleRegistry(registry: Option<seq<RegistryRow>>, helpers: bool): map<int, Entry> {
    match registry
    case None => map[]
    case Some(rows) => RegistryOf(MapSeq(rows, if helpers then HelperOf else DriverOf))
  }

  // ---------------------------------------------------------------------------
  // Boxes per map

  /** One row of the boxes table: the map and its box count. */
  datatype BoxRow = BoxRow(mapa: Cell, boxes: real)

  function Mapa(b: BoxRow): Cell { b.mapa }
  function Boxes(b: BoxRow): real { b.boxes }

  /** mapa_caixas_total: the box count of the first row of each map. */
  function BoxMapOf(boxes: Option<seq<BoxRow>>): map<Cell, real> {
    match boxes
    case None => map[]
    case Some(bs) => ToDict(DedupBy(bs, Mapa), Mapa, Boxes)
  }

  lemma BoxMapFirstRowWins(bs: seq<BoxRow>, b: BoxRow)
    requires b in bs
    ensures b.mapa in BoxMapOf(Some(bs))
    ensures BoxMapOf(Some(bs))[b.mapa] == FirstWith(bs, Mapa, b.mapa).boxes
  {
    var d := DedupBy(bs, Mapa);
    assert Mapa(b) in KeySet(bs, Mapa);
    var y :| y in d && Mapa(y) == Mapa(b);
    forall z | z in d && Mapa(z) == Mapa(y) ensures z == y {
      var i :| 0 <= i < |d| && d[i] == z;
      var j :| 0 <= j < |d| && d[j] == y;
      assert i == j;
    }
    ToDictUnique(d, Mapa, Boxes, y);
  }

  /** str(viagem.get('MAPA', '')) */
  function MapaId(tab: Analysis.Table, t: Analysis.Trip): string {
    if "MAPA" in tab.columns then CellText(Analysis.At(t, "MAPA")) else ""
  }

  /** The trip's box count: the boxes table is looked up with the text of the map, so only a
      text key can match; 0.0 when nothing matches. */
  function TripBoxes(tab: Analysis.Table, bm: map<Cell, real>, t: Analysis.Trip): real {
    if Str(MapaId(tab, t)) in bm then bm[Str(MapaId(tab, t))] else 0.0
  }

  /** The numeric COD_2 of a trip, if any. */
  function SecondDriver(tab: Analysis.Table, t: Analysis.Trip): Option<int> {
    ToNumeric(Analysis.Field(tab, t, "COD_2"))
  }

  predicate IsCodjColumn(col: string) { |col| >= 5 && col[..5] == Analysis.CodePrefix }

  /** The columns starting with CODJ_, in table order. */
  function CodjColumns(tab: Analysis.Table): seq<string> { Filter(tab.columns, IsCodjColumn) }

  /** The helper code a CODJ_ cell credits: numeric and not 0. */
  function HelperCode(tab: Analysis.Table, t: Analysis.Trip, col: string): Option<int> {
    match ToNumeric(Analysis.Field(tab, t, col))
    case Some(k) => if k != 0 then Some(k) else None
    case None => None
  }

  // ---------------------------------------------------------------------------
  // The accumulated boxes

  /** A dict of box totals: its keys in insertion order, and the totals. */
  datatype Tally = Tally(keys: seq<int>, sums: map<int, real>)

  const EmptyTally: Tally := Tally([], map[])

  ghost predicate ValidTally(acc: Tally) {
    && (forall i, j :: 0 <= i < j < |acc.keys| ==> acc.keys[i] != acc.keys[j])
    && (forall k :: k in acc.sums <==> k in acc.keys)
  }

  /** acc.get(k, 0) */
  function Get(acc: Tally, k: int): real { if k in acc.sums then acc.sums[k] else 0.0 }

  /** acc[k] = acc.get(k, 0) + x */
  function Credit(acc: Tally, k: int, x: real): Tally {
    Tally(if k in acc.sums then acc.keys else acc.keys + [k], acc.sums[k := Get(acc, k) + x])
  }

  /** Credits k only when it is registered. */
  function CreditIfIn(acc: Tally, reg: map<int, Entry>, k: int, x: real): Tally {
    if k in reg then Credit(acc, k, x) else acc
  }

  lemma CreditValid(acc: Tally, k: int, x: real)
    requires ValidTally(acc)
    ensures ValidTally(Credit(acc, k, x))
    ensures forall c :: Get(Credit(acc, k, x), c) == Get(acc, c) + (if c == k then x else 0.0)
    ensures forall c :: c in Credit(acc, k, x).sums <==> c in acc.sums || c == k
  {
  }

  /** One trip's credit to the drivers: COD, then COD_2. */
  function CreditDrivers(tab: Analysis.Table, reg: map<int, Entry>, t: Analysis.Trip, x: real, acc: Tally): Tally {
    var a := CreditIfIn(acc, reg, t.cod, x);
    match SecondDriver(tab, t)
    case Some(k) => CreditIfIn(a, reg, k, x)
    case None => a
  }

  /** One trip's credit to the helpers: each CODJ_ column in turn. */
  function CreditHelpers(tab: Analysis.Table, reg: map<int, Entry>, t: Analysis.Trip, cols: seq<string>,
                         x: real, acc: Tally): Tally
  {
    if |cols| == 0 then acc
    else
      var a := CreditHelpers(tab, reg, t, cols[..|cols| - 1], x, acc);
      match HelperCode(tab, t, cols[|cols| - 1])
      case Some(k) => CreditIfIn(a, reg, k, x)
      case None => a
  }

  /** One trip's credit to one role; a trip without boxes credits nobody. */
  function CreditTrip(tab: Analysis.Table, reg: map<int, Entry>, bm: map<Cell, real>, helpers: bool,
                      t: Analysis.Trip, acc: Tally): Tally
  {
    var x := TripBoxes(tab, bm, t);
    if x == 0.0 then acc
    else if helpers then CreditHelpers(tab, reg, t, CodjColumns(tab), x, acc)
    else CreditDrivers(tab, reg, t, x, acc)
  }

  /** The accumulated boxes of one role over the trips, in order. */
  function TallyOf(tab: Analysis.Table, reg: map<int, Entry>, bm: map<Cell, real>, helpers: bool,
                   ts: seq<Analysis.Trip>): Tally
  {
    if |ts| == 0 then EmptyTally
    else CreditTrip(tab, reg, bm, helpers, ts[|ts| - 1], TallyOf(tab, reg, bm, helpers, ts[..|ts| - 1]))
  }

  /** The inner loop over the CODJ_ columns of one trip. */
  method CreditColumns(tab: Analysis.Table, hreg: map<int, Entry>, t: Analysis.Trip, cols: seq<string>,
                       x: real, acc: Tally) returns (hlp: Tally)
    ensures hlp == CreditHelpers(tab, hreg, t, cols, x, acc)
  {
    hlp := acc;
    for j := 0 to |cols|
      invariant hlp == CreditHelpers(tab, hreg, t, cols[..j], x, acc)
    {
      assert cols[..j + 1][..j] == cols[..j];
      var k := HelperCode(tab, t, cols[j]);
      if k.Some? && k.value in hreg {
        hlp := Credit(hlp, k.value, x);
      }
    }
    assert cols[..|cols|] == cols;
  }

  /** The accumulation loop (both roles in one pass over the trips). */
  method Accumulate(tab: Analysis.Table, dreg: map<int, Entry>, hreg: map<int, Entry>, bm: map<Cell, real>)
    returns (drv: Tally, hlp: Tally)
    ensures drv == TallyOf(tab, dreg, bm, false, tab.trips)
    ensures hlp == TallyOf(tab, hreg, bm, true, tab.trips)
  {
    var cols := CodjColumns(tab);
    var ts := tab.trips;
    drv, hlp := EmptyTally, EmptyTally;
    for i := 0 to |ts|
      invariant drv == TallyOf(tab, dreg, bm, false, ts[..i])
      invariant hlp == TallyOf(tab, hreg, bm, true, ts[..i])
    {
      var t := ts[i];
      assert ts[..i + 1][..i] == ts[..i];
      var x := TripBoxes(tab, bm, t);
      if x == 0.0 {
        continue;
      }
      if t.cod in dreg {
        drv := Credit(drv, t.cod, x);
      }
      var cod2 := SecondDriver(tab, t);
      if cod2.Some? && cod2.value in dreg {
        drv := Credit(drv, cod2.value, x);
      }
      hlp := CreditColumns(tab, hreg, t, cols, x, hlp);
    }
    assert ts[..|ts|] == ts;
  }

  // ---------------------------------------------------------------------------
  // What the accumulation adds up to

  /** What one trip credits code c as a driver: the full box count for COD and again for COD_2. */
  function DriverShare(tab: Analysis.Table, t: Analysis.Trip, x: real, c: int): real {
    (if t.cod == c then x else 0.0) + (if SecondDriver(tab, t) == Some(c) then x else 0.0)
  }

  /** What one trip credits code c as a helper: the full box count for each column naming c. */
  function HelperShare(tab: Analysis.Table, t: Analysis.Trip, cols: seq<string>, x: real, c: int): real {
    if |cols| == 0 then 0.0
    else HelperShare(tab, t, cols[..|cols| - 1], x, c) + (if HelperCode(tab, t, cols[|cols| - 1]) == Some(c) then x else 0.0)
  }

  function Share(tab: Analysis.Table, bm: map<Cell, real>, helpers: bool, t: Analysis.Trip, c: int): real {
    if helpers then HelperShare(tab, t, CodjColumns(tab), TripBoxes(tab, bm, t), c)
    else DriverShare(tab, t, TripBoxes(tab, bm, t), c)
  }

  /** The boxes a code earns in one role over the trips: the sum of its shares. */
  function Total(tab: Analysis.Table, bm: map<Cell, real>, helpers: bool, ts: seq<Analysis.Trip>, c: int): real {
    if |ts| == 0 then 0.0 else Total(tab, bm, helpers, ts[..|ts| - 1], c) + Share(tab, bm, helpers, ts[|ts| - 1], c)
  }

  /** The codes a trip names in one role. */
  predicate Names(tab: Analysis.Table, helpers: bool, t: Analysis.Trip, c: int) {
    if helpers then exists col :: col in CodjColumns(tab) && HelperCode(tab, t, col) == Some(c)
    else t.cod == c || SecondDriver(tab, t) == Some(c)
  }

  /** A code is credited by a trip of a paid map that names it. */
  predicate Credited(tab: Analysis.Table, bm: map<Cell, real>, helpers: bool, t: Analysis.Trip, c: int) {
    TripBoxes(tab, bm, t) != 0.0 && Names(tab, helpers, t, c)
  }

  lemma {:induction false} CreditHelpersFacts(tab: Analysis.Table, reg: map<int, Entry>, t: Analysis.Trip,
                                               cols: seq<string>, x: real, acc: Tally)
    requires ValidTally(acc)
    ensures var r := CreditHelpers(tab, reg, t, cols, x, acc);
            && ValidTally(r)
            && (forall c :: Get(r, c) == Get(acc, c) + (if c in reg then HelperShare(tab, t, cols, x, c) else 0.0))
            && (forall c :: c in r.sums <==>
                  c in acc.sums || (c in reg && exists col :: col in cols && HelperCode(tab, t, col) == Some(c)))
  {
    if |cols| > 0 {
      var init := cols[..|cols| - 1];
      var last := cols[|cols| - 1];
      assert cols == init + [last];
      CreditHelpersFacts(tab, reg, t, init, x, acc);
      var a := CreditHelpers(tab, reg, t, init, x, acc);
      match HelperCode(tab, t, last)
      case Some(k) => if k in reg { CreditValid(a, k, x); }
      case None =>
    }
  }

  lemma CreditTripFacts(tab: Analysis.Table, reg: map<int, Entry>, bm: map<Cell, real>, helpers: bool,
                        t: Analysis.Trip, acc: Tally)
    requires ValidTally(acc)
    ensures var r := CreditTrip(tab, reg, bm, helpers, t, acc);
            && ValidTally(r)
            && (forall c :: Get(r, c) == Get(acc, c) + (if c in reg then Share(tab, bm, helpers, t, c) else 0.0))
            && (forall c :: c in r.sums <==> c in acc.sums || (c in reg && Credited(tab, bm, helpers, t, c)))
  {
    var x := TripBoxes(tab, bm, t);
    if x == 0.0 {
      if helpers {
        HelperShareZero(tab, t, CodjColumns(tab));
      }
    } else if helpers {
      CreditHelpersFacts(tab, reg, t, CodjColumns(tab), x, acc);
    } else {
      var a := CreditIfIn(acc, reg, t.cod, x);
      if t.cod in reg { CreditValid(acc, t.cod, x); }
      match SecondDriver(tab, t)
      case Some(k) => if k in reg { CreditValid(a, k, x); }
      case None =>
    }
  }

  lemma {:induction false} HelperShareZero(tab: Analysis.Table, t: Analysis.Trip, cols: seq<string>)
    ensures forall c :: HelperShare(tab, t, cols, 0.0, c) == 0.0
  {
    if |cols| > 0 {
      HelperShareZero(tab, t, cols[..|cols| - 1]);
    }
  }

  /** The accumulated total of every code is the sum of its shares when the code is
      registered, and 0 otherwise; the keys are told apart and are exactly the registered
      codes that some paid trip names. */
  lemma {:induction false} TallyFacts(tab: Analysis.Table, reg: map<int, Entry>, bm: map<Cell, real>, helpers: bool,
                                      ts: seq<Analysis.Trip>)
    ensures var r := TallyOf(tab, reg, bm, helpers, ts);
            && ValidTally(r)
            && (forall c :: Get(r, c) == if c in reg then Total(tab, bm, helpers, ts, c) else 0.0)
            && (forall c :: c in r.sums <==>
                  c in reg && exists i :: 0 <= i < |ts| && Credited(tab, bm, helpers, ts[i], c))
  {
    if |ts| > 0 {
      var init := ts[..|ts| - 1];
      var t := ts[|ts| - 1];
      TallyFacts(tab, reg, bm, helpers, init);
      CreditTripFacts(tab, reg, bm, helpers, t, TallyOf(tab, reg, bm, helpers, init));
      forall c ensures (exists i :: 0 <= i < |ts| && Credited(tab, bm, helpers, ts[i], c)) <==>
                       (exists i :: 0 <= i < |init| && Credited(tab, bm, helpers, init[i], c)) || Credited(tab, bm, helpers, t, c)
      {
        if exists i :: 0 <= i < |ts| && Credited(tab, bm, helpers, ts[i], c) {
          var i :| 0 <= i < |ts| && Credited(tab, bm, helpers, ts[i], c);
          if i < |init| { assert init[i] == ts[i]; }
        }
        if exists i :: 0 <= i < |init| && Credited(tab, bm, helpers, init[i], c) {
          var i :| 0 <= i < |init| && Credited(tab, bm, helpers, init[i], c);
          assert ts[i] == init[i];
        }
      }
    }
  }

  lemma TallyValid(tab: Analysis.Table, reg: map<int, Entry>, bm: map<Cell, real>, helpers: bool,
                   ts: seq<Analysis.Trip>)
    ensures ValidTally(TallyOf(tab, reg, bm, helpers, ts))
    ensures forall c :: c in TallyOf(tab, reg, bm, helpers, ts).sums ==> c in reg
  {
    TallyFacts(tab, reg, bm, helpers, ts);
  }

  lemma TallyTotal(tab: Analysis.Table, reg: map<int, Entry>, bm: map<Cell, real>, helpers: bool,
                   ts: seq<Analysis.Trip>, c: int)
    ensures Get(TallyOf(tab, reg, bm, helpers, ts), c) == if c in reg then Total(tab, bm, helpers, ts, c) else 0.0
  {
    TallyFacts(tab, reg, bm, helpers, ts);
  }

  lemma TallyKey(tab: Analysis.Table, reg: map<int, Entry>, bm: map<Cell, real>, helpers: bool,
                 ts: seq<Analysis.Trip>, c: int)
    ensures c in TallyOf(tab, reg, bm, helpers, ts).sums <==>
            c in reg && exists i :: 0 <= i < |ts| && Credited(tab, bm, helpers, ts[i], c)
  {
    TallyFacts(tab, reg, bm, helpers, ts);
  }

  /** A trip of a map without boxes can be dropped anywhere without changing any total. */
  lemma {:induction false} TripWithoutBoxesIgnored(tab: Analysis.Table, reg: map<int, Entry>, bm: map<Cell, real>,
                                                   helpers: bool, a: seq<Analysis.Trip>, t: Analysis.Trip,
                                                   b: seq<Analysis.Trip>)
    requires TripBoxes(tab, bm, t) == 0.0
    ensures TallyOf(tab, reg, bm, helpers, a + [t] + b) == TallyOf(tab, reg, bm, helpers, a + b)
    decreases |b|
  {
    var s := a + [t] + b;
    if |b| == 0 {
      assert s[..|s| - 1] == a && a + b == a;
    } else {
      var b0 := b[..|b| - 1];
      assert s[..|s| - 1] == a + [t] + b0;
      assert (a + b)[..|a + b| - 1] == a + b0;
      TripWithoutBoxesIgnored(tab, reg, bm, helpers, a, t, b0);
    }
  }

  // ---------------------------------------------------------------------------
  // The result lists

  /** One line of the report. */
  datatype BoxesLine = BoxesLine(tipo: string, cpf: string, cod: int, nome: string, totalBoxes: real,
                                 valuePerBox: real, totalPrize: real, seniority: int)

  function Nome(l: BoxesLine): string { l.nome }
  function LineCpf(l: BoxesLine): string { l.cpf }

  /** The entry of a code, or the placeholder the source falls back to. */
  function InfoOf(reg: map<int, Entry>, cod: int): Entry {
    if cod in reg then reg[cod] else Entry(0, "COD " + IntToString(cod), "N/A")
  }

  function LineOf(tipo: string, reg: map<int, Entry>, g: Goals, acc: Tally, cod: int): BoxesLine {
    var e := InfoOf(reg, cod);
    var v := ValuePerBox(e.seniority, g);
    BoxesLine(tipo, e.cpf, cod, e.nome, Get(acc, cod), v, Get(acc, cod) * v, e.seniority)
  }

  lemma LineOfShape(tipo: string, reg: map<int, Entry>, g: Goals, acc: Tally, cod: int)
    requires cod in reg
    ensures var l := LineOf(tipo, reg, g, acc, cod);
            && l.tipo == tipo && l.cod == cod
            && l.nome == reg[cod].nome && l.cpf == reg[cod].cpf && l.seniority == reg[cod].seniority
            && l.totalBoxes == Get(acc, cod)
            && l.valuePerBox == ValuePerBox(l.seniority, g)
            && l.totalPrize == l.totalBoxes * l.valuePerBox
  {
  }

  /** total_premio = total_caixas * valor_por_caixa */
  predicate PrizeIsProduct(l: BoxesLine) { l.totalPrize == l.totalBoxes * l.valuePerBox }

  lemma LinePrize(tipo: string, reg: map<int, Entry>, g: Goals, acc: Tally, cod: int)
    ensures PrizeIsProduct(LineOf(tipo, reg, g, acc, cod))
  {
  }

  /** One line per key, in the order of the keys. */
  function Lines(tipo: string, reg: map<int, Entry>, g: Goals, acc: Tally, keys: seq<int>): (r: seq<BoxesLine>)
    ensures |r| == |keys|
  {
    if |keys| == 0 then []
    else Lines(tipo, reg, g, acc, keys[..|keys| - 1]) + [LineOf(tipo, reg, g, acc, keys[|keys| - 1])]
  }

  lemma {:induction false} LinesAt(tipo: string, reg: map<int, Entry>, g: Goals, acc: Tally, keys: seq<int>, i: int)
    requires 0 <= i < |keys|
    ensures Lines(tipo, reg, g, acc, keys)[i] == LineOf(tipo, reg, g, acc, keys[i])
  {
    if i < |keys| - 1 {
      LinesAt(tipo, reg, g, acc, keys[..|keys| - 1], i);
    }
  }

  lemma LinesPush(tipo: string, reg: map<int, Entry>, g: Goals, acc: Tally, keys: seq<int>, i: int)
    requires 0 <= i < |keys|
    ensures Lines(tipo, reg, g, acc, keys[..i + 1]) == Lines(tipo, reg, g, acc, keys[..i]) + [LineOf(tipo, reg, g, acc, keys[i])]
  {
    assert keys[..i + 1][..i] == keys[..i];
  }

  /** The loop over the accumulated dict. */
  method BuildLines(tipo: string, reg: map<int, Entry>, g: Goals, acc: Tally) returns (rows: seq<BoxesLine>)
    ensures rows == Lines(tipo, reg, g, acc, acc.keys)
  {
    rows := [];
    for i := 0 to |acc.keys|
      invariant rows == Lines(tipo, reg, g, acc, acc.keys[..i])
    {
      LinesPush(tipo, reg, g, acc, acc.keys, i);
      rows := rows + [LineOf(tipo, reg, g, acc, acc.keys[i])];
    }
    assert acc.keys[..|acc.keys|] == acc.keys;
  }

  function RoleName(helpers: bool): string { if helpers then "Ajudante" else "Motorista" }
  function RoleKey(helpers: bool): string { if helpers then "ajudante" else "motorista" }

  /** The report of one role: one line per accumulated code, sorted by name. */
  function Report(tab: Analysis.Table, registry: Option<seq<RegistryRow>>, boxes: Option<seq<BoxRow>>,
                  metas: Metas, helpers: bool): seq<BoxesLine>
  {
    var reg := RoleRegistry(registry, helpers);
    var acc := TallyOf(tab, reg, BoxMapOf(boxes), helpers, tab.trips);
    SortBy(Lines(RoleName(helpers), reg, GoalsOf(metas, RoleKey(helpers)), acc, acc.keys), Nome)
  }

  /** processar_caixas_sincrono: the drivers' report and the helpers' report. */
  method ProcessBoxes(tab: Analysis.Table, registry: Option<seq<RegistryRow>>, boxes: Option<seq<BoxRow>>,
                      metas: Metas)
    returns (drivers: seq<BoxesLine>, helpers: seq<BoxesLine>)
    ensures drivers == Report(tab, registry, boxes, metas, false)
    ensures helpers == Report(tab, registry, boxes, metas, true)
  {
    var dreg: map<int, Entry> := map[];
    var hreg: map<int, Entry> := map[];
    if registry.Some? {
      dreg := BuildRegistry(MapSeq(registry.value, DriverOf));
      hreg := BuildRegistry(MapSeq(registry.value, HelperOf));
    }
    var bm := BoxMapOf(boxes);
    var drv, hlp := Accumulate(tab, dreg, hreg, bm);
    var dl := BuildLines("Motorista", dreg, GoalsOf(metas, "motorista"), drv);
    var hl := BuildLines("Ajudante", hreg, GoalsOf(metas, "ajudante"), hlp);
    drivers := SortBy(dl, Nome);
    helpers := SortBy(hl, Nome);
  }

  /** Every line of a report is a registered collaborator of that role, with their name, CPF
      and seniority, their box total, the value per box of their seniority and the product. */
  lemma ReportLine(tab: Analysis.Table, registry: Option<seq<RegistryRow>>, boxes: Option<seq<BoxRow>>,
                   metas: Metas, helpers: bool, l: BoxesLine)
    requires l in Report(tab, registry, boxes, metas, helpers)
    ensures var reg := RoleRegistry(registry, helpers);
            && l.cod in reg
            && l.tipo == RoleName(helpers)
            && l.nome == reg[l.cod].nome && l.cpf == reg[l.cod].cpf && l.seniority == reg[l.cod].seniority
            && l.totalBoxes == Total(tab, BoxMapOf(boxes), helpers, tab.trips, l.cod)
            && l.valuePerBox == ValuePerBox(l.seniority, GoalsOf(metas, RoleKey(helpers)))
  {
    var reg := RoleRegistry(registry, helpers);
    var bm := BoxMapOf(boxes);
    var g := GoalsOf(metas, RoleKey(helpers));
    var acc := TallyOf(tab, reg, bm, helpers, tab.trips);
    var ls := Lines(RoleName(helpers), reg, g, acc, acc.keys);
    assert l in multiset(ls);
    var i :| 0 <= i < |ls| && ls[i] == l;
    LinesAt(RoleName(helpers), reg, g, acc, acc.keys, i);
    var k := acc.keys[i];
    assert l == LineOf(RoleName(helpers), reg, g, acc, k);
    TallyValid(tab, reg, bm, helpers, tab.trips);
    assert k in acc.sums;
    TallyTotal(tab, reg, bm, helpers, tab.trips, k);
    LineOfShape(RoleName(helpers), reg, g, acc, k);
  }

  /** The prize of every line is its box total times its value per box. */
  lemma ReportPrize(tab: Analysis.Table, registry: Option<seq<RegistryRow>>, boxes: Option<seq<BoxRow>>,
                    metas: Metas, helpers: bool, l: BoxesLine)
    requires l in Report(tab, registry, boxes, metas, helpers)
    ensures PrizeIsProduct(l)
  {
    var reg := RoleRegistry(registry, helpers);
    var g := GoalsOf(metas, RoleKey(helpers));
    var acc := TallyOf(tab, reg, BoxMapOf(boxes), helpers, tab.trips);
    var ls := Lines(RoleName(helpers), reg, g, acc, acc.keys);
    assert l in multiset(ls);
    var i :| 0 <= i < |ls| && ls[i] == l;
    LinesAt(RoleName(helpers), reg, g, acc, acc.keys, i);
    LinePrize(RoleName(helpers), reg, g, acc, acc.keys[i]);
  }

  /** A code has a line iff it is registered in that role and a paid trip names it in that role. */
  lemma ReportCovers(tab: Analysis.Table, registry: Option<seq<RegistryRow>>, boxes: Option<seq<BoxRow>>,
                     metas: Metas, helpers: bool, c: int)
    ensures (exists l :: l in Report(tab, registry, boxes, metas, helpers) && l.cod == c) <==>
            c in RoleRegistry(registry, helpers) &&
            exists i :: 0 <= i < |tab.trips| && Credited(tab, BoxMapOf(boxes), helpers, tab.trips[i], c)
  {
    var reg := RoleRegistry(registry, helpers);
    var acc := TallyOf(tab, reg, BoxMapOf(boxes), helpers, tab.trips);
    var ls := Lines(RoleName(helpers), reg, GoalsOf(metas, RoleKey(helpers)), acc, acc.keys);
    var r := Report(tab, registry, boxes, metas, helpers);
    assert multiset(r) == multiset(ls);
    TallyValid(tab, reg, BoxMapOf(boxes), helpers, tab.trips);
    TallyKey(tab, reg, BoxMapOf(boxes), helpers, tab.trips, c);
    if exists l :: l in r && l.cod == c {
      var l :| l in r && l.cod == c;
      assert l in multiset(ls);
      var i :| 0 <= i < |ls| && ls[i] == l;
      LinesAt(RoleName(helpers), reg, GoalsOf(metas, RoleKey(helpers)), acc, acc.keys, i);
      assert acc.keys[i] in acc.sums;
    }
    if c in acc.sums {
      var i :| 0 <= i < |acc.keys| && acc.keys[i] == c;
      LinesAt(RoleName(helpers), reg, GoalsOf(metas, RoleKey(helpers)), acc, acc.keys, i);
      assert ls[i] in multiset(r);
    }
  }

  /** No two lines of a report share a code. */
  lemma ReportDistinct(tab: Analysis.Table, registry: Option<seq<RegistryRow>>, boxes: Option<seq<BoxRow>>,
                       metas: Metas, helpers: bool)
    ensures var r := Report(tab, registry, boxes, metas, helpers);
            forall i, j :: 0 <= i < j < |r| ==> r[i].cod != r[j].cod
  {
    var reg := RoleRegistry(registry, helpers);
    var acc := TallyOf(tab, reg, BoxMapOf(boxes), helpers, tab.trips);
    var ls := Lines(RoleName(helpers), reg, GoalsOf(metas, RoleKey(helpers)), acc, acc.keys);
    TallyFacts(tab, reg, BoxMapOf(boxes), helpers, tab.trips);
    forall i, j | 0 <= i < j < |ls| ensures ls[i].cod != ls[j].cod {
      LinesAt(RoleName(helpers), reg, GoalsOf(metas, RoleKey(helpers)), acc, acc.keys, i);
      LinesAt(RoleName(helpers), reg, GoalsOf(metas, RoleKey(helpers)), acc, acc.keys, j);
    }
    DistinctKeysPermuted(ls, SortBy(ls, Nome), (l: BoxesLine) => l.cod);
  }

  /** Drivers and helpers do not mix: a driver's total counts only the trips naming the code in
      COD or COD_2, a helper's only those naming it in a CODJ_ column, and each list holds only
      codes of its own registry. */
  lemma RolesApart(tab: Analysis.Table, registry: Option<seq<RegistryRow>>, boxes: Option<seq<BoxRow>>,
                   metas: Metas, l: BoxesLine)
    ensures l in Report(tab, registry, boxes, metas, false) ==>
              l.cod in RoleRegistry(registry, false) && l.totalBoxes == Total(tab, BoxMapOf(boxes), false, tab.trips, l.cod)
    ensures l in Report(tab, registry, boxes, metas, true) ==>
              l.cod in RoleRegistry(registry, true) && l.totalBoxes == Total(tab, BoxMapOf(boxes), true, tab.trips, l.cod)
  {
    if l in Report(tab, registry, boxes, metas, false) { ReportLine(tab, registry, boxes, metas, false, l); }
    if l in Report(tab, registry, boxes, metas, true) { ReportLine(tab, registry, boxes, metas, true, l); }
  }

  // ---------------------------------------------------------------------------
  // The route (ler_relatorio_caixas)

  /** The trips of the boxes report: the first trip of each MAPA, when the table has rows and
      a MAPA column. */
  function DedupByMapa(tab: Analysis.Table): (r: Analysis.Table)
    ensures r.columns == tab.columns
  {
    if |tab.trips| > 0 && "MAPA" in tab.columns then Analysis.Table(tab.columns, DedupBy(tab.trips, MapaCell))
    else tab
  }

  /** After the de-duplication each map has one trip, so a map is paid once. */
  lemma EachMapPaidOnce(tab: Analysis.Table)
    requires "MAPA" in tab.columns
    ensures var r := DedupByMapa(tab).trips;
            && (forall i, j :: 0 <= i < j < |r| ==> MapaCell(r[i]) != MapaCell(r[j]))
            && KeySet(r, MapaCell) == KeySet(tab.trips, MapaCell)
  {
  }

  datatype BoxesResponse = BoxesResponse(motoristas: seq<BoxesLine>, ajudantes: seq<BoxesLine>, error: Option<string>)

  /** GET /caixas over the tables the period's queries returned. With a query error, empty lists
      and the error; otherwise both reports over the de-duplicated trips, seen through the CPF
      filter. None stands for an exception escaping the route: the overflow of the cycle, which
      only ValueError is caught around, and a missing trips table, whose columns are read before
      it is checked. */
  method BoxesRoute(user: User, dataInicio: string, dataFim: string,
                    err1: Option<string>, err2: Option<string>, err3: Option<string>,
                    tab: Option<Analysis.Table>, registry: Option<seq<RegistryRow>>, boxes: Option<seq<BoxRow>>,
                    metas: Metas)
    returns (resp: Option<BoxesResponse>)
    ensures Calendar.PeriodCatchingValueError(dataInicio, dataFim).Raised? ==> resp.None?
    ensures var error := FirstTruthy([err1, err2, err3]);
            Calendar.PeriodCatchingValueError(dataInicio, dataFim).Computed? && Truthy(error) ==>
              resp == Some(BoxesResponse([], [], error))
    ensures var error := FirstTruthy([err1, err2, err3]);
            Calendar.PeriodCatchingValueError(dataInicio, dataFim).Computed? && !Truthy(error) ==>
              match tab
              case None => resp.None?
              case Some(t) =>
                resp == Some(BoxesResponse(CpfFilter(Report(DedupByMapa(t), registry, boxes, metas, false), LineCpf, user),
                                           CpfFilter(Report(DedupByMapa(t), registry, boxes, metas, true), LineCpf, user),
                                           error))
  {
    if Calendar.PeriodCatchingValueError(dataInicio, dataFim).Raised? {
      return None;
    }
    var error := FirstTruthy([err1, err2, err3]);
    var motoristas: seq<BoxesLine> := [];
    var ajudantes: seq<BoxesLine> := [];
    if !Truthy(error) {
      if tab.None? {
        return None;
      }
      motoristas, ajudantes := ProcessBoxes(DedupByMapa(tab.value), registry, boxes, metas);
    }
    resp := Some(BoxesResponse(CpfFilter(motoristas, LineCpf, user), CpfFilter(ajudantes, LineCpf, user), error));
  }
}
