/** The team-affinity classifier of core/analysis.py. Trip rows name a driver (COD, MOTORISTA)
    and up to n helpers in the column pairs AJUDANTE_n / CODJ_n. The classifier reshapes them
    into driver-helper associations, finds each helper's dominant driver, position and name,
    counts the trips of every driver-helper pair, splits each driver's pairs into fixed helpers
    and visitors, and builds one dashboard row per driver. */
module Analysis {
  import opened Wrappers
  import opened Text
  import opened Collections

  // ---------------------------------------------------------------------------
  // The trip table

  /** One trip row: the driver's code (COD) and the other cells by column name; a column the
      row has no entry for holds a missing value. */
  datatype Trip = Trip(cod: int, cells: map<string, Cell>)

  /** The trip table: the names of its columns besides COD, and its rows. */
  datatype Table = Table(columns: seq<string>, trips: seq<Trip>)

  function At(t: Trip, col: string): Cell { if col in t.cells then t.cells[col] else Null }

  /** row.get(col) on a row of the table: a missing value when the table has no such column. */
  function Field(tab: Table, t: Trip, col: string): (c: Cell)
    ensures col !in tab.columns ==> c == Null
  {
    if col in tab.columns then At(t, col) else Null
  }

  function Cod(t: Trip): int { t.cod }

  const HelperPrefix: string := "AJUDANTE_"
  const CodePrefix: string := "CODJ_"
  const PositionPrefix: string := "AJUDANTE "

  /** A column name the pattern ^AJUDANTE_\d+$ matches. */
  predicate IsHelperColumn(col: string) {
    |col| > |HelperPrefix| && col[..|HelperPrefix|] == HelperPrefix && AllDigits(col[|HelperPrefix|..])
  }

  /** aj_col.split('_')[-1]: the slot number of a helper column. */
  function SlotNumber(col: string): string { AfterLast(col, '_') }

  lemma SlotNumberOfHelperColumn(col: string)
    requires IsHelperColumn(col)
    ensures SlotNumber(col) == col[|HelperPrefix|..] && AllDigits(SlotNumber(col))
  {
    var n := col[|HelperPrefix|..];
    assert col == "AJUDANTE" + ['_'] + n;
    assert '_' !in n by {
      forall i | 0 <= i < |n| ensures n[i] != '_' { assert IsDigit(n[i]); }
    }
    AfterLastOfSuffix("AJUDANTE", '_', n);
  }

  /** The helper columns in sorted order of their names. */
  function HelperColumns(tab: Table): (cols: seq<string>)
    ensures forall col :: col in cols <==> col in tab.columns && IsHelperColumn(col)
  {
    FilterMembership(tab.columns, IsHelperColumn);
    var r := SortBy(Filter(tab.columns, IsHelperColumn), Identity);
    assert forall col :: col in r <==> col in multiset(Filter(tab.columns, IsHelperColumn));
    r
  }

  /** A helper column is melted when its CODJ_n partner exists; selecting the columns raises
      KeyError, and the column is skipped, when the table has no MOTORISTA column. */
  predicate Melted(tab: Table, col: string) {
    CodePrefix + SlotNumber(col) in tab.columns && "MOTORISTA" in tab.columns
  }

  // ---------------------------------------------------------------------------
  // Driver-helper associations (_preparar_dataframe_ajudantes)

  /** One row of the melted frame before sanitisation. */
  datatype RawAssoc = RawAssoc(driverCod: int, driverName: Cell, helperName: Cell, helperCode: Cell,
                               position: string)

  /** One driver-helper association: the helper's name and code and the position label
      "AJUDANTE n" of the slot it was found in. */
  datatype Assoc = Assoc(driverCod: int, driverName: Cell, helperName: string, helperCod: int,
                         position: string)

  function RawOf(t: Trip, col: string): RawAssoc {
    var num := SlotNumber(col);
    RawAssoc(t.cod, At(t, "MOTORISTA"), At(t, col), At(t, CodePrefix + num), PositionPrefix + num)
  }

  /** The block a melted column contributes: one raw row per trip. */
  function SlotBlock(tab: Table, col: string): seq<RawAssoc> {
    MapSeq(tab.trips, t => RawOf(t, col))
  }

  /** pd.concat of the blocks of the melted columns among cols, in order. */
  function RawRows(tab: Table, cols: seq<string>): seq<RawAssoc> {
    if |cols| == 0 then []
    else
      var col := cols[|cols| - 1];
      RawRows(tab, cols[..|cols| - 1]) + (if Melted(tab, col) then SlotBlock(tab, col) else [])
  }

  lemma {:induction false} RawRowsMembership(tab: Table, cols: seq<string>, r: RawAssoc)
    ensures r in RawRows(tab, cols) <==>
              exists col, t :: col in cols && Melted(tab, col) && t in tab.trips && r == RawOf(t, col)
  {
    if |cols| > 0 {
      var init := cols[..|cols| - 1];
      var col := cols[|cols| - 1];
      RawRowsMembership(tab, init, r);
      assert cols == init + [col];
      if Melted(tab, col) {
        var b := SlotBlock(tab, col);
        if r in b {
          var i :| 0 <= i < |b| && b[i] == r;
          assert tab.trips[i] in tab.trips && r == RawOf(tab.trips[i], col);
        }
        if exists t :: t in tab.trips && r == RawOf(t, col) {
          var t :| t in tab.trips && r == RawOf(t, col);
          var i :| 0 <= i < |tab.trips| && tab.trips[i] == t;
          assert b[i] == r;
        }
      }
    }
  }

  /** Steps 1 and 2 of the sanitisation: str() of the cell, then for a composite name the
      stripped text before the first '/'. */
  function HelperNameText(c: Cell): (s: string)
    ensures '/' !in CellText(c) ==> s == CellText(c)
    ensures '/' in CellText(c) ==> '/' !in s
  {
    var x := CellText(c);
    match IndexOf(x, '/')
    case None => x
    case Some(i) => StripKeepsAbsent(x[..i], '/'); Strip(x[..i])
  }

  /** The remaining steps for one row: a blank name drops the row, the code goes through
      pd.to_numeric(errors='coerce') and a code that does not convert drops the row. */
  function Sanitize(raw: RawAssoc): (r: Option<Assoc>)
    ensures r.Some? <==> Strip(HelperNameText(raw.helperName)) != "" && ToNumeric(raw.helperCode).Some?
    ensures r.Some? ==> r.value == Assoc(raw.driverCod, raw.driverName, HelperNameText(raw.helperName),
                                         ToNumeric(raw.helperCode).value, raw.position)
  {
    var name := HelperNameText(raw.helperName);
    if Strip(name) == "" then None
    else
      match ToNumeric(raw.helperCode)
      case None => None
      case Some(k) => Some(Assoc(raw.driverCod, raw.driverName, name, k, raw.position))
  }

  /** The associations of a table: the sanitised melted rows with exact duplicates removed. */
  function Associations(tab: Table): seq<Assoc> {
    Dedup(FilterMap(RawRows(tab, HelperColumns(tab)), Sanitize))
  }

  /** _preparar_dataframe_ajudantes: melts the helper columns one by one, then sanitises the
      whole frame and drops duplicate rows. */
  method PrepareAssociations(tab: Table) returns (assocs: seq<Assoc>)
    ensures assocs == Associations(tab)
  {
    var cols := HelperColumns(tab);
    var raw: seq<RawAssoc> := [];
    var i := 0;
    while i < |cols|
      invariant 0 <= i <= |cols|
      invariant raw == RawRows(tab, cols[..i])
    {
      var col := cols[i];
      assert cols[..i + 1][..i] == cols[..i];
      if CodePrefix + SlotNumber(col) in tab.columns && "MOTORISTA" in tab.columns {
        raw := raw + SlotBlock(tab, col);
      }
      i := i + 1;
    }
    assert cols[..|cols|] == cols;
    assocs := Dedup(FilterMap(raw, Sanitize));
  }

  /** An association exists exactly when some trip, in some melted helper column, holds a
      helper whose sanitised name is not blank and whose code is numeric. */
  lemma AssociationsMembership(tab: Table, a: Assoc)
    ensures a in Associations(tab) <==>
              exists col, t :: col in tab.columns && IsHelperColumn(col) && Melted(tab, col)
                               && t in tab.trips && Sanitize(RawOf(t, col)) == Some(a)
  {
    var cols := HelperColumns(tab);
    var raw := RawRows(tab, cols);
    if a in Associations(tab) {
      var r :| r in raw && Sanitize(r) == Some(a);
      RawRowsMembership(tab, cols, r);
      var col, t :| col in cols && Melted(tab, col) && t in tab.trips && r == RawOf(t, col);
      assert col in tab.columns && IsHelperColumn(col);
    }
    if exists col, t :: col in tab.columns && IsHelperColumn(col) && Melted(tab, col)
                        && t in tab.trips && Sanitize(RawOf(t, col)) == Some(a) {
      var col, t :| col in tab.columns && IsHelperColumn(col) && Melted(tab, col)
                    && t in tab.trips && Sanitize(RawOf(t, col)) == Some(a);
      RawRowsMembership(tab, cols, RawOf(t, col));
      assert RawOf(t, col) in raw;
    }
  }

  /** No association survives the sanitisation with a blank name or outside an "AJUDANTE n"
      label, and each belongs to a driver of the table. */
  predicate IsPositionLabel(l: string) {
    |l| > |PositionPrefix| && l[..|PositionPrefix|] == PositionPrefix && AllDigits(l[|PositionPrefix|..])
  }

  lemma AssociationShape(tab: Table, a: Assoc)
    requires a in Associations(tab)
    ensures Strip(a.helperName) != ""
    ensures IsPositionLabel(a.position)
    ensures a.driverCod in KeySet(tab.trips, Cod)
  {
    AssociationsMembership(tab, a);
    var col, t :| col in tab.columns && IsHelperColumn(col) && Melted(tab, col)
                  && t in tab.trips && Sanitize(RawOf(t, col)) == Some(a);
    SlotNumberOfHelperColumn(col);
    var n := SlotNumber(col);
    assert a.position == PositionPrefix + n;
    assert (PositionPrefix + n)[|PositionPrefix|..] == n;
  }

  /** Without a helper column that has its CODJ_n partner there are no associations. */
  lemma NoMeltedColumnNoAssociations(tab: Table)
    requires forall col :: col in tab.columns && IsHelperColumn(col) ==> !Melted(tab, col)
    ensures Associations(tab) == []
  {
    if Associations(tab) != [] {
      AssociationsMembership(tab, Associations(tab)[0]);
    }
  }

  /** A composite name "A / B" keeps its first name A (as in "MARIA / JOAO" becoming MARIA),
      and a code written as an integer's text converts to that integer. */
  lemma CompositeNameKeepsFirst(raw: RawAssoc, first: string, rest: string, k: int)
    requires raw.helperName == Str(first + " / " + rest)
    requires '/' !in first && |first| > 0 && !IsSpace(first[0]) && !IsSpace(first[|first| - 1])
    requires raw.helperCode == Str(IntToString(k))
    ensures Sanitize(raw) == Some(Assoc(raw.driverCod, raw.driverName, first, k, raw.position))
  {
    var s := first + " / " + rest;
    var n := |first|;
    assert s[..n + 1] == first + " ";
    assert s[n + 1] == '/';
    IndexOfFirst(s, '/', n + 1);
    assert TrimLeft(first + " ") == first + " ";
    TrimRightSpace(first);
    StripUntrimmed(first);
    assert HelperNameText(raw.helperName) == first;
    assert "" + IntToString(k) + "" == IntToString(k);
    ToNumericOfPaddedInt("", k, "");
  }

  // ---------------------------------------------------------------------------
  // Reference maps (_calcular_mapas_referencia)

  function AssocHelper(a: Assoc): int { a.helperCod }
  function AssocDriver(a: Assoc): int { a.driverCod }
  function AssocPosition(a: Assoc): string { a.position }
  function AssocName(a: Assoc): string { a.helperName }

  /** The associations of one helper code: its groupby group. */
  function Group(assocs: seq<Assoc>, h: int): (g: seq<Assoc>)
    ensures forall a :: a in g <==> a in assocs && a.helperCod == h
    ensures h in KeySet(assocs, AssocHelper) ==> |g| > 0
  {
    KeyWitness(assocs, AssocHelper, h);
    var mine := (a: Assoc) => a.helperCod == h;
    FilterMembership(assocs, mine);
    Filter(assocs, mine)
  }

  /** The helper's most frequent driver; None for an empty group. */
  function DominantDriver(assocs: seq<Assoc>, h: int): Option<int> {
    var g := Group(assocs, h);
    if |g| > 0 then Some(Mode(MapSeq(g, AssocDriver), IntLt)) else None
  }

  /** The helper's most frequent position; "AJUDANTE 1" for an empty group. */
  function DominantPosition(assocs: seq<Assoc>, h: int): string {
    var g := Group(assocs, h);
    if |g| > 0 then Mode(MapSeq(g, AssocPosition), StrLt) else "AJUDANTE 1"
  }

  /** The helper's most frequent name; "" for an empty group. */
  function DominantName(assocs: seq<Assoc>, h: int): string {
    var g := Group(assocs, h);
    if |g| > 0 then Mode(MapSeq(g, AssocName), StrLt) else ""
  }

  /** value_counts() of COD: every trip row counts, with helpers or without. */
  function TripCount(tab: Table, c: int): (n: nat)
    ensures c in KeySet(tab.trips, Cod) ==> n >= 1
  {
    KeyInMapSeq(tab.trips, Cod, c);
    multiset(MapSeq(tab.trips, Cod))[c]
  }

  datatype RefMaps = RefMaps(dominantDriver: map<int, Option<int>>, dominantPosition: map<int, string>,
                             helperName: map<int, string>, tripCount: map<int, nat>,
                             driverName: map<int, Cell>)

  function DominantDriverMap(assocs: seq<Assoc>): map<int, Option<int>> {
    map h | h in KeySet(assocs, AssocHelper) :: DominantDriver(assocs, h)
  }

  function DominantPositionMap(assocs: seq<Assoc>): map<int, string> {
    map h | h in KeySet(assocs, AssocHelper) :: DominantPosition(assocs, h)
  }

  function HelperNameMap(assocs: seq<Assoc>): map<int, string> {
    map h | h in KeySet(assocs, AssocHelper) :: DominantName(assocs, h)
  }

  /** contagem_viagens_motorista: the number of trip rows of each driver. */
  function TripCounts(tab: Table): (m: map<int, nat>)
    ensures forall c :: c in m ==> m[c] >= 1
  {
    map c | c in KeySet(tab.trips, Cod) :: TripCount(tab, c)
  }

  /** motorista_nome_map: the MOTORISTA cell of each driver's first row; empty when the table
      has no rows or no MOTORISTA column. */
  function DriverNames(tab: Table): (m: map<int, Cell>)
    ensures forall c :: c in m ==> c in KeySet(tab.trips, Cod) && m[c] == At(FirstWith(tab.trips, Cod, c), "MOTORISTA")
  {
    if |tab.trips| > 0 && "MOTORISTA" in tab.columns
    then map c | c in KeySet(tab.trips, Cod) :: At(FirstWith(tab.trips, Cod, c), "MOTORISTA")
    else map[]
  }

  /** The five maps, keyed by helper code or by driver code. */
  function ReferenceMaps(assocs: seq<Assoc>, tab: Table): RefMaps {
    RefMaps(DominantDriverMap(assocs), DominantPositionMap(assocs), HelperNameMap(assocs),
            TripCounts(tab), DriverNames(tab))
  }

  /** For every helper, the dominant driver, position and name are what Series.mode().iloc[0]
      gives over the helper's associations: the most frequent value, the least among ties. */
  lemma DominantValuesAreModes(assocs: seq<Assoc>, tab: Table, h: int)
    requires h in KeySet(assocs, AssocHelper)
    ensures var m := ReferenceMaps(assocs, tab);
            var g := Group(assocs, h);
            && m.dominantDriver[h].Some?
            && IsPandasMode(MapSeq(g, AssocDriver), m.dominantDriver[h].value, IntLt)
            && IsPandasMode(MapSeq(g, AssocPosition), m.dominantPosition[h], StrLt)
            && IsPandasMode(MapSeq(g, AssocName), m.helperName[h], StrLt)
  {
    var g := Group(assocs, h);
    IntLtIsStrictTotalOrder();
    StrLtIsStrictTotalOrder();
    ModeIsPandasMode(MapSeq(g, AssocDriver), IntLt);
    ModeIsPandasMode(MapSeq(g, AssocPosition), StrLt);
    ModeIsPandasMode(MapSeq(g, AssocName), StrLt);
  }

  /** Adding a trip increments its driver's count, whatever its helper columns hold. */
  lemma TripCountOfAddedTrip(tab: Table, t: Trip, c: int)
    ensures TripCount(Table(tab.columns, tab.trips + [t]), c)
            == TripCount(tab, c) + (if t.cod == c then 1 else 0)
  {
    assert MapSeq(tab.trips + [t], Cod) == MapSeq(tab.trips, Cod) + [t.cod];
  }

  /** A map whose every value is an "AJUDANTE n" label. */
  ghost predicate LabelsOnly(m: map<int, string>) {
    forall h :: h in m ==> IsPositionLabel(m[h])
  }

  /** A helper's dominant position is the position of one of its associations, so it is an
      "AJUDANTE n" label. */
  lemma DominantPositionIsLabel(tab: Table, h: int)
    requires h in KeySet(Associations(tab), AssocHelper)
    ensures IsPositionLabel(DominantPosition(Associations(tab), h))
  {
    var assocs := Associations(tab);
    var g := Group(assocs, h);
    var ps := MapSeq(g, AssocPosition);
    var i :| 0 <= i < |ps| && ps[i] == Mode(ps, StrLt);
    assert g[i] in assocs;
    AssociationShape(tab, g[i]);
  }

  /** Every dominant position is an "AJUDANTE n" label. */
  lemma DominantPositionsAreLabels(tab: Table)
    ensures LabelsOnly(DominantPositionMap(Associations(tab)))
  {
    var assocs := Associations(tab);
    forall h | h in DominantPositionMap(assocs) ensures IsPositionLabel(DominantPositionMap(assocs)[h]) {
      DominantPositionIsLabel(tab, h);
    }
  }

  // ---------------------------------------------------------------------------
  // Trips per driver-helper pair

  /** A row of contagem_viagens_ajudantes for one driver: the helper, its dominant name and the
      number of associations of the pair. */
  datatype Pair = Pair(helperCod: int, helperName: string, trips: nat)

  function PairCount(assocs: seq<Assoc>, d: int, h: int): nat {
    |Filter(assocs, (a: Assoc) => a.driverCod == d && a.helperCod == h)|
  }

  /** The helpers of driver d in ascending code order, as groupby returns them. */
  function PartnerCodes(assocs: seq<Assoc>, d: int): (hs: seq<int>)
    ensures StrictlyIncreasing(hs)
    ensures forall h :: h in hs <==> exists a :: a in assocs && a.driverCod == d && a.helperCod == h
  {
    var ofDriver := (a: Assoc) => a.driverCod == d;
    FilterMembership(assocs, ofDriver);
    var mine := Filter(assocs, ofDriver);
    MapSeqMembership(mine, AssocHelper);
    SortedDistinct(MapSeq(mine, AssocHelper))
  }

  /** viagens_com_motorista: the pairs of driver d. */
  function DriverPairs(assocs: seq<Assoc>, d: int): seq<Pair> {
    MapSeq(PartnerCodes(assocs, d), h => Pair(h, DominantName(assocs, h), PairCount(assocs, d, h)))
  }

  /** Each pair of driver d is a helper it shares associations with, carrying the number of
      those associations (at least one) and the helper's dominant name. */
  lemma DriverPairAt(assocs: seq<Assoc>, d: int, i: int)
    requires 0 <= i < |DriverPairs(assocs, d)|
    ensures var p := DriverPairs(assocs, d)[i];
            && p.helperCod == PartnerCodes(assocs, d)[i]
            && (exists a :: a in assocs && a.driverCod == d && a.helperCod == p.helperCod)
            && p.trips == PairCount(assocs, d, p.helperCod) && p.trips >= 1
            && p.helperName == DominantName(assocs, p.helperCod)
  {
    var hs := PartnerCodes(assocs, d);
    var h := hs[i];
    assert h in hs;
    var a :| a in assocs && a.driverCod == d && a.helperCod == h;
    var ofPair := (a: Assoc) => a.driverCod == d && a.helperCod == h;
    FilterMembership(assocs, ofPair);
    assert a in Filter(assocs, ofPair);
  }

  /** Every helper driver d shares an association with has a pair. */
  lemma DriverPairsCover(assocs: seq<Assoc>, d: int, a: Assoc)
    requires a in assocs && a.driverCod == d
    ensures exists i :: 0 <= i < |DriverPairs(assocs, d)| && DriverPairs(assocs, d)[i].helperCod == a.helperCod
  {
    var hs := PartnerCodes(assocs, d);
    assert a.helperCod in hs;
    var i :| 0 <= i < |hs| && hs[i] == a.helperCod;
    assert DriverPairs(assocs, d)[i].helperCod == a.helperCod;
  }

  /** The pairs come in strictly ascending helper code order. */
  lemma DriverPairsAscending(assocs: seq<Assoc>, d: int, i: int, j: int)
    requires 0 <= i < j < |DriverPairs(assocs, d)|
    ensures DriverPairs(assocs, d)[i].helperCod < DriverPairs(assocs, d)[j].helperCod
  {
    var hs := PartnerCodes(assocs, d);
    assert hs[i] < hs[j];
  }

  // ---------------------------------------------------------------------------
  // Classification (_classificar_e_atribuir_viagens)

  datatype Rules = Rules(significance: real, strongFixedMin: int, strictDriverMin: int,
                         strictVisitorLimit: int, defaultVisitorLimit: int)

  /** RATIO_SIGNIFICANCIA_FIXO, MIN_VIAGENS_PARA_ATIVAR_REGRA_ESTRITA,
      MIN_VIAGENS_MOTORISTA_REGRA_ESTRITA, LIMITE_VISITANTE_ESTRITO, LIMITE_VISITANTE_PADRAO. */
  const SourceRules: Rules := Rules(0.40, 10, 15, 2, 1)

  /** What the classifier of one driver knows: the driver's code and trip total, the maps and
      the rules. */
  datatype Ctx = Ctx(cod: int, total: nat, maps: RefMaps, rules: Rules)

  /** A column of the dashboard row holding a helper code: '' or the code. */
  datatype CodeField = NoCode | Code(c: int)

  /** info_linha: the row of one driver. A slot or code column absent from the maps reads
      as ''. */
  datatype DriverRow = DriverRow(motorista: string, cod: int, motorista2: Cell, cod2: Cell,
                                 slots: map<string, string>, codes: map<string, CodeField>,
                                 visitors: seq<string>)

  function SlotText(row: DriverRow, k: string): string { if k in row.slots then row.slots[k] else "" }
  function CodeAt(row: DriverRow, k: string): CodeField { if k in row.codes then row.codes[k] else NoCode }

  /** num_viagens / total_viagens, and 0 when the driver has no trips. */
  function Ratio(n: nat, total: nat): real { if total > 0 then (n as real) / (total as real) else 0.0 }

  /** A pair is fixed when the helper's dominant driver is this one or the pair's share of the
      driver's trips is above the significance ratio. */
  predicate IsFixed(c: Ctx, p: Pair) {
    (p.helperCod in c.maps.dominantDriver && c.maps.dominantDriver[p.helperCod] == Some(c.cod))
    || Ratio(p.trips, c.total) > c.rules.significance
  }

  function FixedPairs(c: Ctx, pairs: seq<Pair>): (r: seq<Pair>)
    ensures forall p :: p in r <==> p in pairs && IsFixed(c, p)
  {
    var fixed := (p: Pair) => IsFixed(c, p);
    FilterMembership(pairs, fixed);
    Filter(pairs, fixed)
  }

  function VisitorPairs(c: Ctx, pairs: seq<Pair>): (r: seq<Pair>)
    ensures forall p :: p in r <==> p in pairs && !IsFixed(c, p)
  {
    var visitor := (p: Pair) => !IsFixed(c, p);
    FilterMembership(pairs, visitor);
    Filter(pairs, visitor)
  }

  /** Each pair is either fixed or a visitor, never both and never neither. */
  lemma PairsPartition(c: Ctx, pairs: seq<Pair>)
    ensures multiset(FixedPairs(c, pairs)) + multiset(VisitorPairs(c, pairs)) == multiset(pairs)
  {
    FilterComplement(pairs, p => IsFixed(c, p), p => !IsFixed(c, p));
  }

  /** The position of a fixed helper: its dominant position, "AJUDANTE 1" by default. */
  function PositionOf(c: Ctx, h: int): string {
    if h in c.maps.dominantPosition then c.maps.dominantPosition[h] else "AJUDANTE 1"
  }

  /** The slot column of a position label: spaces become underscores. */
  function SlotKey(pos: string): string { ReplaceChar(pos, ' ', '_') }

  /** The code column of a position label: CODJ_ and the text after the slot column's last '_'. */
  function CodeKey(pos: string): string { CodePrefix + AfterLast(SlotKey(pos), '_') }

  /** "AJUDANTE n" goes to the columns AJUDANTE_n and CODJ_n. */
  lemma PositionKeys(n: string)
    requires AllDigits(n)
    ensures SlotKey(PositionPrefix + n) == HelperPrefix + n
    ensures CodeKey(PositionPrefix + n) == CodePrefix + n
  {
    assert ' ' !in n && '_' !in n by {
      forall i | 0 <= i < |n| ensures n[i] != ' ' && n[i] != '_' { assert IsDigit(n[i]); }
    }
    assert PositionPrefix == "AJUDANTE" + " ";
    ReplaceCharAppend(PositionPrefix, n, ' ', '_');
    ReplaceCharAppend("AJUDANTE", " ", ' ', '_');
    ReplaceCharAbsent("AJUDANTE", ' ', '_');
    ReplaceCharAbsent(n, ' ', '_');
    assert " "[..0] == "";
    assert ReplaceChar(" ", ' ', '_') == "_";
    assert HelperPrefix + n == "AJUDANTE" + ['_'] + n;
    AfterLastOfSuffix("AJUDANTE", '_', n);
  }

  function FixedText(p: Pair): string { Strip(p.helperName) + " (" + NatToString(p.trips) + ")" }
  function VisitorText(p: Pair): string { Strip(p.helperName) + " (" + NatToString(p.trips) + "x)" }

  /** One step of the second loop: the first helper at a position sets the slot text and the
      code; a later one appends " / " and its text to the slot. */
  function PlaceOne(row: DriverRow, c: Ctx, p: Pair): DriverRow {
    var pos := PositionOf(c, p.helperCod);
    var k := SlotKey(pos);
    if SlotText(row, k) != "" then
      row.(slots := row.slots[k := row.slots[k] + " / " + FixedText(p)])
    else
      row.(slots := row.slots[k := FixedText(p)], codes := row.codes[CodeKey(pos) := Code(p.helperCod)])
  }

  function PlaceAll(row: DriverRow, c: Ctx, fixed: seq<Pair>): DriverRow {
    if |fixed| == 0 then row else PlaceOne(PlaceAll(row, c, fixed[..|fixed| - 1]), c, fixed[|fixed| - 1])
  }

  /** The texts of the fixed helpers placed in slot column k, in order. */
  function SlotEntries(c: Ctx, fixed: seq<Pair>, k: string): (r: seq<string>)
    ensures forall i :: 0 <= i < |r| ==> |r[i]| > 0
  {
    if |fixed| == 0 then []
    else
      var p := fixed[|fixed| - 1];
      SlotEntries(c, fixed[..|fixed| - 1], k) + (if SlotKey(PositionOf(c, p.helperCod)) == k then [FixedText(p)] else [])
  }

  /** " / ".join(xs) */
  function JoinSlash(xs: seq<string>): string {
    if |xs| == 0 then "" else if |xs| == 1 then xs[0] else JoinSlash(xs[..|xs| - 1]) + " / " + xs[|xs| - 1]
  }

  lemma JoinSlashEmpty(xs: seq<string>)
    requires forall i :: 0 <= i < |xs| ==> |xs[i]| > 0
    ensures JoinSlash(xs) == "" <==> |xs| == 0
  {
    if |xs| == 1 { assert |xs[0]| > 0; }
  }

  /** What one placement does to slot column k. */
  lemma PlaceOneSlot(row: DriverRow, c: Ctx, p: Pair, k: string)
    ensures SlotText(PlaceOne(row, c, p), k)
            == if SlotKey(PositionOf(c, p.helperCod)) != k then SlotText(row, k)
               else if SlotText(row, k) == "" then FixedText(p)
               else SlotText(row, k) + " / " + FixedText(p)
  {
  }

  /** What one placement does to code column kc: only the first helper at a position writes
      its code. */
  lemma PlaceOneCode(row: DriverRow, c: Ctx, p: Pair, kc: string)
    ensures var pos := PositionOf(c, p.helperCod);
            CodeAt(PlaceOne(row, c, p), kc)
            == if SlotText(row, SlotKey(pos)) == "" && CodeKey(pos) == kc then Code(p.helperCod)
               else CodeAt(row, kc)
  {
  }

  /** A slot that starts empty ends up holding the " / "-join of the texts of the fixed helpers
      whose position maps to it. */
  lemma {:induction false} SlotIsJoin(row: DriverRow, c: Ctx, fixed: seq<Pair>, k: string)
    requires SlotText(row, k) == ""
    ensures SlotText(PlaceAll(row, c, fixed), k) == JoinSlash(SlotEntries(c, fixed, k))
  {
    if |fixed| > 0 {
      var init := fixed[..|fixed| - 1];
      var p := fixed[|fixed| - 1];
      SlotIsJoin(row, c, init, k);
      var prev := PlaceAll(row, c, init);
      assert PlaceAll(row, c, fixed) == PlaceOne(prev, c, p);
      PlaceOneSlot(prev, c, p, k);
      var e := SlotEntries(c, init, k);
      var t := FixedText(p);
      JoinSlashEmpty(e);
      if SlotKey(PositionOf(c, p.helperCod)) == k {
        assert SlotEntries(c, fixed, k) == e + [t];
        if |e| == 0 {
          assert e + [t] == [t];
          assert SlotText(prev, k) == "";
        } else {
          assert (e + [t])[..|e|] == e;
          assert JoinSlash(e + [t]) == JoinSlash(e) + " / " + t;
          assert SlotText(prev, k) != "";
        }
      } else {
        assert SlotEntries(c, fixed, k) == e;
      }
    }
  }

  /** The code of the first fixed helper placed in slot column k. */
  function FirstCodeAt(c: Ctx, fixed: seq<Pair>, k: string): Option<int> {
    if |fixed| == 0 then None
    else
      var prev := FirstCodeAt(c, fixed[..|fixed| - 1], k);
      var p := fixed[|fixed| - 1];
      if prev.Some? then prev else if SlotKey(PositionOf(c, p.helperCod)) == k then Some(p.helperCod) else None
  }

  lemma {:induction false} FirstCodeIffEntries(c: Ctx, fixed: seq<Pair>, k: string)
    ensures FirstCodeAt(c, fixed, k).None? <==> |SlotEntries(c, fixed, k)| == 0
  {
    if |fixed| > 0 { FirstCodeIffEntries(c, fixed[..|fixed| - 1], k); }
  }

  /** Every position the classifier can assign is an "AJUDANTE n" label. */
  ghost predicate PositionsAreLabels(c: Ctx) {
    LabelsOnly(c.maps.dominantPosition)
  }

  lemma PositionOfIsLabel(c: Ctx, h: int)
    requires PositionsAreLabels(c)
    ensures var l := PositionOf(c, h);
            IsPositionLabel(l) && l == PositionPrefix + l[|PositionPrefix|..]
  {
    var l := PositionOf(c, h);
    if h !in c.maps.dominantPosition {
      assert l[|PositionPrefix|..] == "1" && IsDigit('1');
    }
  }

  /** The code column CODJ_n keeps the code of the first fixed helper placed in AJUDANTE_n; the
      helpers after it never overwrite it, and a slot nobody is placed in leaves it as it was. */
  lemma {:induction false} FirstFixedSetsCode(row: DriverRow, c: Ctx, fixed: seq<Pair>, n: string)
    requires AllDigits(n) && PositionsAreLabels(c) && SlotText(row, HelperPrefix + n) == ""
    ensures CodeAt(PlaceAll(row, c, fixed), CodePrefix + n)
            == match FirstCodeAt(c, fixed, HelperPrefix + n)
               case Some(h) => Code(h)
               case None => CodeAt(row, CodePrefix + n)
  {
    if |fixed| > 0 {
      var init := fixed[..|fixed| - 1];
      var p := fixed[|fixed| - 1];
      var k := HelperPrefix + n;
      FirstFixedSetsCode(row, c, init, n);
      var l := PositionOf(c, p.helperCod);
      PositionOfIsLabel(c, p.helperCod);
      var m := l[|PositionPrefix|..];
      PositionKeys(m);
      var prev := PlaceAll(row, c, init);
      assert PlaceAll(row, c, fixed) == PlaceOne(prev, c, p);
      PlaceOneCode(prev, c, p, CodePrefix + n);
      SlotIsJoin(row, c, init, k);
      JoinSlashEmpty(SlotEntries(c, init, k));
      FirstCodeIffEntries(c, init, k);
      if m != n {
        assert (HelperPrefix + m)[|HelperPrefix|..] == m && (HelperPrefix + n)[|HelperPrefix|..] == n;
        assert (CodePrefix + m)[|CodePrefix|..] == m && (CodePrefix + n)[|CodePrefix|..] == n;
        assert SlotKey(l) != k && CodeKey(l) != CodePrefix + n;
        assert FirstCodeAt(c, fixed, k) == FirstCodeAt(c, init, k);
      } else {
        assert SlotKey(l) == k && CodeKey(l) == CodePrefix + n;
        assert SlotText(prev, k) == "" <==> FirstCodeAt(c, init, k).None?;
      }
    }
  }

  /** tem_fixo_acima_de_10, as the loop computes it. */
  function HasStrongFixed(fixed: seq<Pair>, min: int): bool {
    if |fixed| == 0 then false
    else HasStrongFixed(fixed[..|fixed| - 1], min) || fixed[|fixed| - 1].trips > min
  }

  lemma {:induction false} HasStrongFixedIff(fixed: seq<Pair>, min: int)
    ensures HasStrongFixed(fixed, min) <==> exists p :: p in fixed && p.trips > min
  {
    if |fixed| > 0 {
      HasStrongFixedIff(fixed[..|fixed| - 1], min);
      assert fixed == fixed[..|fixed| - 1] + [fixed[|fixed| - 1]];
    }
  }

  /** The visitor threshold: the strict one when the driver has many trips and a strong fixed
      helper, the default one otherwise. */
  function VisitorLimit(c: Ctx, fixed: seq<Pair>): int {
    if c.total > c.rules.strictDriverMin && HasStrongFixed(fixed, c.rules.strongFixedMin)
    then c.rules.strictVisitorLimit else c.rules.defaultVisitorLimit
  }

  /** With the source's rules the limit is 2 exactly when the driver has more than 15 trips and
      some fixed pair more than 10; it is 1 otherwise. */
  lemma VisitorLimitRule(c: Ctx, pairs: seq<Pair>)
    requires c.rules == SourceRules
    ensures VisitorLimit(c, FixedPairs(c, pairs)) == 2 <==>
              c.total > 15 && exists p :: p in pairs && IsFixed(c, p) && p.trips > 10
    ensures VisitorLimit(c, FixedPairs(c, pairs)) != 2 ==> VisitorLimit(c, FixedPairs(c, pairs)) == 1
  {
    HasStrongFixedIff(FixedPairs(c, pairs), 10);
  }

  /** The lines added to VISITANTES, in order. */
  function VisitorEntries(visitors: seq<Pair>, limit: int): seq<string> {
    if |visitors| == 0 then []
    else
      var v := visitors[|visitors| - 1];
      VisitorEntries(visitors[..|visitors| - 1], limit) + (if v.trips > limit then [VisitorText(v)] else [])
  }

  /** A visitor is listed exactly when its trip count is above the limit. */
  lemma {:induction false} VisitorListedIff(visitors: seq<Pair>, limit: int, e: string)
    ensures e in VisitorEntries(visitors, limit) <==>
              exists v :: v in visitors && v.trips > limit && e == VisitorText(v)
  {
    if |visitors| > 0 {
      VisitorListedIff(visitors[..|visitors| - 1], limit, e);
      assert visitors == visitors[..|visitors| - 1] + [visitors[|visitors| - 1]];
    }
  }

  function HelperCodes(ps: seq<Pair>): set<int> {
    if |ps| == 0 then {} else HelperCodes(ps[..|ps| - 1]) + {ps[|ps| - 1].helperCod}
  }

  function ListedCodes(visitors: seq<Pair>, limit: int): set<int> {
    if |visitors| == 0 then {}
    else
      var v := visitors[|visitors| - 1];
      ListedCodes(visitors[..|visitors| - 1], limit) + (if v.trips > limit then {v.helperCod} else {})
  }

  lemma {:induction false} HelperCodesIff(ps: seq<Pair>, h: int)
    ensures h in HelperCodes(ps) <==> exists p :: p in ps && p.helperCod == h
  {
    if |ps| > 0 {
      HelperCodesIff(ps[..|ps| - 1], h);
      assert ps == ps[..|ps| - 1] + [ps[|ps| - 1]];
    }
  }

  lemma {:induction false} ListedCodesIff(visitors: seq<Pair>, limit: int, h: int)
    ensures h in ListedCodes(visitors, limit) <==> exists v :: v in visitors && v.trips > limit && v.helperCod == h
  {
    if |visitors| > 0 {
      ListedCodesIff(visitors[..|visitors| - 1], limit, h);
      assert visitors == visitors[..|visitors| - 1] + [visitors[|visitors| - 1]];
    }
  }

  /** The row after classification: fixed helpers placed, listed visitors appended. */
  function Classified(row: DriverRow, pairs: seq<Pair>, c: Ctx): DriverRow {
    var fixed := FixedPairs(c, pairs);
    var placed := PlaceAll(row, c, fixed);
    placed.(visitors := placed.visitors + VisitorEntries(VisitorPairs(c, pairs), VisitorLimit(c, fixed)))
  }

  /** The helper codes the classification adds to ids_visiveis. */
  function VisibleOf(pairs: seq<Pair>, c: Ctx): set<int> {
    var fixed := FixedPairs(c, pairs);
    HelperCodes(fixed) + ListedCodes(VisitorPairs(c, pairs), VisitorLimit(c, fixed))
  }

  /** A helper becomes visible exactly when one of its pairs is fixed or is a visitor above the
      limit. */
  lemma VisibleIff(pairs: seq<Pair>, c: Ctx, h: int)
    ensures h in VisibleOf(pairs, c) <==>
              exists p :: p in pairs && p.helperCod == h
                          && (IsFixed(c, p) || p.trips > VisitorLimit(c, FixedPairs(c, pairs)))
  {
    var fixed := FixedPairs(c, pairs);
    HelperCodesIff(fixed, h);
    ListedCodesIff(VisitorPairs(c, pairs), VisitorLimit(c, fixed), h);
  }

  /** Placing fixed helpers touches neither the visitors nor the display, and removes no key. */
  lemma {:induction false} PlaceAllKeeps(row: DriverRow, c: Ctx, fixed: seq<Pair>)
    ensures var r := PlaceAll(row, c, fixed);
            && r.visitors == row.visitors && r.motorista == row.motorista && r.cod == row.cod
            && r.motorista2 == row.motorista2 && r.cod2 == row.cod2
            && row.slots.Keys <= r.slots.Keys && row.codes.Keys <= r.codes.Keys
  {
    if |fixed| > 0 { PlaceAllKeeps(row, c, fixed[..|fixed| - 1]); }
  }

  /** The first loop: splits the pairs into fixed helpers and visitors and records the fixed
      helpers as visible. */
  method SplitPairs(pairs: seq<Pair>, c: Ctx) returns (fixed: seq<Pair>, visitors: seq<Pair>, visible: set<int>)
    ensures fixed == FixedPairs(c, pairs) && visitors == VisitorPairs(c, pairs)
    ensures visible == HelperCodes(fixed)
  {
    fixed, visitors, visible := [], [], {};
    var i := 0;
    while i < |pairs|
      invariant 0 <= i <= |pairs|
      invariant fixed == FixedPairs(c, pairs[..i])
      invariant visitors == VisitorPairs(c, pairs[..i])
      invariant visible == HelperCodes(fixed)
    {
      var p := pairs[i];
      assert pairs[..i + 1][..i] == pairs[..i];
      if IsFixed(c, p) {
        assert (fixed + [p])[..|fixed|] == fixed;
        fixed := fixed + [p];
        visible := visible + {p.helperCod};
      } else {
        visitors := visitors + [p];
      }
      i := i + 1;
    }
    assert pairs[..|pairs|] == pairs;
  }

  /** The second loop: places each fixed helper in its slot and notes whether one of them has
      more trips than the strong-fixed minimum. */
  method PlaceFixed(row: DriverRow, c: Ctx, fixed: seq<Pair>) returns (r: DriverRow, strong: bool)
    ensures r == PlaceAll(row, c, fixed)
    ensures strong == HasStrongFixed(fixed, c.rules.strongFixedMin)
  {
    strong := false;
    r := row;
    var i := 0;
    while i < |fixed|
      invariant 0 <= i <= |fixed|
      invariant strong == HasStrongFixed(fixed[..i], c.rules.strongFixedMin)
      invariant r == PlaceAll(row, c, fixed[..i])
    {
      var f := fixed[i];
      assert fixed[..i + 1][..i] == fixed[..i];
      if f.trips > c.rules.strongFixedMin {
        strong := true;
      }
      var pos := PositionOf(c, f.helperCod);
      var k := SlotKey(pos);
      if SlotText(r, k) != "" {
        r := r.(slots := r.slots[k := r.slots[k] + " / " + FixedText(f)]);
      } else {
        r := r.(slots := r.slots[k := FixedText(f)], codes := r.codes[CodeKey(pos) := Code(f.helperCod)]);
      }
      i := i + 1;
    }
    assert fixed[..|fixed|] == fixed;
  }

  /** The third loop: lists the visitors above the limit and records them as visible. */
  method ListVisitors(row: DriverRow, visitors: seq<Pair>, limit: int, visible: set<int>)
    returns (r: DriverRow, visible': set<int>)
    ensures r == row.(visitors := row.visitors + VisitorEntries(visitors, limit))
    ensures visible' == visible + ListedCodes(visitors, limit)
  {
    r, visible' := row, visible;
    var i := 0;
    while i < |visitors|
      invariant 0 <= i <= |visitors|
      invariant r == row.(visitors := row.visitors + VisitorEntries(visitors[..i], limit))
      invariant visible' == visible + ListedCodes(visitors[..i], limit)
    {
      var v := visitors[i];
      assert visitors[..i + 1][..i] == visitors[..i];
      if v.trips > limit {
        r := r.(visitors := r.visitors + [VisitorText(v)]);
        visible' := visible' + {v.helperCod};
      }
      i := i + 1;
    }
    assert visitors[..|visitors|] == visitors;
  }

  /** _classificar_e_atribuir_viagens on one driver's row: returns the row with its fixed helpers
      and visitors, and the helper codes it makes visible. */
  method ClassifyAndAssign(row: DriverRow, pairs: seq<Pair>, c: Ctx) returns (r: DriverRow, visible: set<int>)
    ensures r == Classified(row, pairs, c)
    ensures visible == VisibleOf(pairs, c)
  {
    var fixed, visitors, vis := SplitPairs(pairs, c);
    var placed, strong := PlaceFixed(row, c, fixed);
    var limit := c.rules.defaultVisitorLimit;
    if c.total > c.rules.strictDriverMin && strong {
      limit := c.rules.strictVisitorLimit;
    }
    r, visible := ListVisitors(placed, visitors, limit, vis);
  }

  // ---------------------------------------------------------------------------
  // The dashboard (gerar_dashboard_e_mapas)

  /** max(3, number of distinct positions). */
  function MaxPos(assocs: seq<Assoc>): (n: nat)
    ensures n >= 3 && n >= |KeySet(assocs, AssocPosition)|
  {
    var k := |KeySet(assocs, AssocPosition)|;
    if k < 3 then 3 else k
  }

  /** AJUDANTE_1 .. AJUDANTE_n, all ''. */
  function BlankSlots(n: nat): (m: map<string, string>)
    ensures forall i :: 1 <= i <= n ==> HelperPrefix + NatToString(i) in m
    ensures forall k :: k in m ==> m[k] == ""
  {
    if n == 0 then map[] else BlankSlots(n - 1)[HelperPrefix + NatToString(n) := ""]
  }

  /** CODJ_1 .. CODJ_n, all ''. */
  function BlankCodes(n: nat): (m: map<string, CodeField>)
    ensures forall i :: 1 <= i <= n ==> CodePrefix + NatToString(i) in m
    ensures forall k :: k in m ==> m[k] == NoCode
  {
    if n == 0 then map[] else BlankCodes(n - 1)[CodePrefix + NatToString(n) := NoCode]
  }

  /** "name (total)", or "COD: c (total)" when the driver's name is missing or blank. */
  function DisplayName(tab: Table, t: Trip, total: nat): string {
    var nome := Field(tab, t, "MOTORISTA");
    if !nome.Null? && Strip(CellText(nome)) != "" then CellText(nome) + " (" + NatToString(total) + ")"
    else "COD: " + IntToString(t.cod) + " (" + NatToString(total) + ")"
  }

  function TotalTrips(maps: RefMaps, cod: int): nat {
    if cod in maps.tripCount then maps.tripCount[cod] else 0
  }

  function InitialRow(tab: Table, t: Trip, total: nat, maxPos: nat): DriverRow {
    DriverRow(DisplayName(tab, t, total), t.cod, Field(tab, t, "MOTORISTA_2"), Field(tab, t, "COD_2"),
              BlankSlots(maxPos), BlankCodes(maxPos), [])
  }

  /** info_linha before classification: the display text, the driver's columns, and the slots
      AJUDANTE_1 .. AJUDANTE_max with their CODJ_ partners set to ''. */
  method NewDriverRow(tab: Table, t: Trip, total: nat, maxPos: nat) returns (row: DriverRow)
    ensures row == InitialRow(tab, t, total, maxPos)
  {
    var slots: map<string, string> := map[];
    var codes: map<string, CodeField> := map[];
    var j := 1;
    while j <= maxPos
      invariant 1 <= j <= maxPos + 1
      invariant slots == BlankSlots(j - 1) && codes == BlankCodes(j - 1)
    {
      slots := slots[HelperPrefix + NatToString(j) := ""];
      codes := codes[CodePrefix + NatToString(j) := NoCode];
      j := j + 1;
    }
    row := DriverRow(DisplayName(tab, t, total), t.cod, Field(tab, t, "MOTORISTA_2"), Field(tab, t, "COD_2"),
                     slots, codes, []);
  }

  /** fillna(""): a missing MOTORISTA_2 or COD_2 becomes ''. */
  function FillNa(row: DriverRow): DriverRow {
    row.(motorista2 := if row.motorista2.Null? then Str("") else row.motorista2,
         cod2 := if row.cod2.Null? then Str("") else row.cod2)
  }

  function DriverCtx(maps: RefMaps, cod: int): Ctx { Ctx(cod, TotalTrips(maps, cod), maps, SourceRules) }

  /** The dashboard row of the driver of trip t; it keeps the driver's code. */
  function DriverRowOf(tab: Table, assocs: seq<Assoc>, maps: RefMaps, t: Trip): (r: DriverRow)
    ensures r.cod == t.cod
  {
    var c := DriverCtx(maps, t.cod);
    var row0 := InitialRow(tab, t, c.total, MaxPos(assocs));
    PlaceAllKeeps(row0, c, FixedPairs(c, DriverPairs(assocs, t.cod)));
    FillNa(Classified(row0, DriverPairs(assocs, t.cod), c))
  }

  /** drop_duplicates(subset=['COD']): the first row of each driver, in order. */
  function Drivers(tab: Table): seq<Trip> { DedupBy(tab.trips, Cod) }

  /** One dashboard row per trip of ds, in order. */
  function DriverRows(tab: Table, assocs: seq<Assoc>, maps: RefMaps, ds: seq<Trip>): seq<DriverRow> {
    MapSeq(ds, (t: Trip) => DriverRowOf(tab, assocs, maps, t))
  }

  function VisibleAcross(tab: Table, assocs: seq<Assoc>, maps: RefMaps, ds: seq<Trip>): set<int> {
    if |ds| == 0 then {}
    else
      var t := ds[|ds| - 1];
      VisibleAcross(tab, assocs, maps, ds[..|ds| - 1]) + VisibleOf(DriverPairs(assocs, t.cod), DriverCtx(maps, t.cod))
  }

  function Display(row: DriverRow): string { row.motorista }

  datatype Dashboard = Dashboard(rows: seq<DriverRow>, maps: Option<RefMaps>, assocs: seq<Assoc>, visible: set<int>)

  lemma DriverRowsStep(tab: Table, assocs: seq<Assoc>, maps: RefMaps, ds: seq<Trip>, i: int)
    requires 0 <= i < |ds|
    ensures VisibleAcross(tab, assocs, maps, ds[..i + 1])
            == VisibleAcross(tab, assocs, maps, ds[..i]) + VisibleOf(DriverPairs(assocs, ds[i].cod), DriverCtx(maps, ds[i].cod))
  {
    assert ds[..i + 1][..i] == ds[..i];
  }

  lemma DriverRowsPush(tab: Table, assocs: seq<Assoc>, maps: RefMaps, ds: seq<Trip>, i: int)
    requires 0 <= i < |ds|
    ensures DriverRows(tab, assocs, maps, ds[..i + 1])
            == DriverRows(tab, assocs, maps, ds[..i]) + [DriverRowOf(tab, assocs, maps, ds[i])]
  {
    MapSeqPush(ds, (t: Trip) => DriverRowOf(tab, assocs, maps, t), i);
  }

  /** The body of the loop over the drivers: a fresh row for the driver of trip t, classified,
      with its missing MOTORISTA_2 and COD_2 written as ''. */
  method DriverStep(tab: Table, assocs: seq<Assoc>, maps: RefMaps, t: Trip) returns (row: DriverRow, vis: set<int>)
    ensures row == DriverRowOf(tab, assocs, maps, t)
    ensures vis == VisibleOf(DriverPairs(assocs, t.cod), DriverCtx(maps, t.cod))
  {
    var c := DriverCtx(maps, t.cod);
    var row0 := NewDriverRow(tab, t, c.total, MaxPos(assocs));
    var r;
    r, vis := ClassifyAndAssign(row0, DriverPairs(assocs, t.cod), c);
    row := FillNa(r);
  }

  /** The loop over the drivers: one classified row per driver, in the order of their first
      trips, and the union of the helper ids each classification made visible. */
  method BuildRows(tab: Table, assocs: seq<Assoc>, maps: RefMaps, drivers: seq<Trip>)
    returns (rows: seq<DriverRow>, visible: set<int>)
    ensures rows == DriverRows(tab, assocs, maps, drivers)
    ensures visible == VisibleAcross(tab, assocs, maps, drivers)
  {
    rows := [];
    visible := {};
    var i := 0;
    while i < |drivers|
      invariant 0 <= i <= |drivers|
      invariant rows == DriverRows(tab, assocs, maps, drivers[..i])
      invariant visible == VisibleAcross(tab, assocs, maps, drivers[..i])
    {
      var row, vis := DriverStep(tab, assocs, maps, drivers[i]);
      DriverRowsStep(tab, assocs, maps, drivers, i);
      DriverRowsPush(tab, assocs, maps, drivers, i);
      rows := rows + [row];
      visible := visible + vis;
      i := i + 1;
    }
    assert drivers[..|drivers|] == drivers;
  }

  /** gerar_dashboard_e_mapas: empty when there are no associations; otherwise one row per
      driver, sorted by its display text, with the maps, the associations and the visible
      helper ids. The sort is not promised to be stable. */
  method GenerateDashboard(tab: Table) returns (d: Dashboard)
    ensures Associations(tab) == [] ==> d == Dashboard([], None, [], {})
    ensures Associations(tab) != [] ==>
              && d.assocs == Associations(tab)
              && d.maps == Some(ReferenceMaps(d.assocs, tab))
              && multiset(d.rows) == multiset(DriverRows(tab, d.assocs, d.maps.value, Drivers(tab)))
              && SortedBy(d.rows, Display)
              && d.visible == VisibleAcross(tab, d.assocs, d.maps.value, Drivers(tab))
  {
    var assocs := PrepareAssociations(tab);
    if |assocs| == 0 {
      return Dashboard([], None, [], {});
    }
    var maps := ReferenceMaps(assocs, tab);
    var rows, visible := BuildRows(tab, assocs, maps, Drivers(tab));
    d := Dashboard(SortBy(rows, Display), Some(maps), assocs, visible);
  }

  /** The dashboard has one row per distinct COD of the table: no two rows share a code... */
  lemma DriverRowsDistinct(tab: Table, assocs: seq<Assoc>, maps: RefMaps, i: int, j: int)
    requires 0 <= i < j < |DriverRows(tab, assocs, maps, Drivers(tab))|
    ensures DriverRows(tab, assocs, maps, Drivers(tab))[i].cod != DriverRows(tab, assocs, maps, Drivers(tab))[j].cod
  {
    var ds := Drivers(tab);
    assert Cod(ds[i]) != Cod(ds[j]);
  }

  /** ...every driver of the table has a row... */
  lemma DriverHasRow(tab: Table, assocs: seq<Assoc>, maps: RefMaps, c: int)
    requires c in KeySet(tab.trips, Cod)
    ensures exists i :: 0 <= i < |DriverRows(tab, assocs, maps, Drivers(tab))|
                        && DriverRows(tab, assocs, maps, Drivers(tab))[i].cod == c
  {
    var ds := Drivers(tab);
    var rows := DriverRows(tab, assocs, maps, ds);
    assert c in KeySet(ds, Cod);
    var t :| t in ds && Cod(t) == c;
    var i :| 0 <= i < |ds| && ds[i] == t;
    assert rows[i].cod == c;
  }

  /** ...and every row belongs to a driver of the table. */
  lemma RowHasDriver(tab: Table, assocs: seq<Assoc>, maps: RefMaps, i: int)
    requires 0 <= i < |DriverRows(tab, assocs, maps, Drivers(tab))|
    ensures DriverRows(tab, assocs, maps, Drivers(tab))[i].cod in KeySet(tab.trips, Cod)
  {
    var ds := Drivers(tab);
    assert ds[i] in ds;
  }

  /** In the dashboard row of a driver, AJUDANTE_1 .. AJUDANTE_max exist; every slot AJUDANTE_n
      holds the " / "-join of the fixed helpers placed there, and CODJ_n the code of the first of
      them, or '' when nobody is placed there. */
  lemma RowSlots(tab: Table, t: Trip, n: string)
    requires AllDigits(n)
    ensures var assocs := Associations(tab);
            var maps := ReferenceMaps(assocs, tab);
            var row := DriverRowOf(tab, assocs, maps, t);
            var c := DriverCtx(maps, t.cod);
            var fixed := FixedPairs(c, DriverPairs(assocs, t.cod));
            && (forall i :: 1 <= i <= MaxPos(assocs) ==> HelperPrefix + NatToString(i) in row.slots)
            && SlotText(row, HelperPrefix + n) == JoinSlash(SlotEntries(c, fixed, HelperPrefix + n))
            && CodeAt(row, CodePrefix + n) == match FirstCodeAt(c, fixed, HelperPrefix + n)
                                              case Some(h) => Code(h)
                                              case None => NoCode
  {
    var assocs := Associations(tab);
    var maps := ReferenceMaps(assocs, tab);
    var c := DriverCtx(maps, t.cod);
    var fixed := FixedPairs(c, DriverPairs(assocs, t.cod));
    var row0 := InitialRow(tab, t, c.total, MaxPos(assocs));
    DominantPositionsAreLabels(tab);
    PlaceAllKeeps(row0, c, fixed);
    SlotIsJoin(row0, c, fixed, HelperPrefix + n);
    FirstFixedSetsCode(row0, c, fixed, n);
  }
}
