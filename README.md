# Bonus reports of a delivery-logistics backend, modelled in Dafny

The backend pays its delivery teams. A trip row has:

- a driver (`COD`, `MOTORISTA`, optionally a second driver `COD_2`);
- the map it served (`MAPA`);
- up to n helpers in slot columns `AJUDANTE_n` / `CODJ_n`.

Over the trips of a pay cycle it produces four things:

- **The team-affinity dashboard** (`core/analysis.py`). It reshapes the trip rows into driver–helper associations, then works out:
  - each helper's dominant driver, position and name (pandas modes);
  - each driver's trip count.

  It then classifies every driver–helper pair as a fixed helper or a visitor, using a ratio rule and an escalating visitor threshold. It returns one row per driver and the set of helper ids the dashboard shows.
- **The boxes bonus** (`routers/caixas.py`). Each registered driver and helper is credited with the boxes of every map they worked. That total is paid at a value per box chosen by a seniority tier.
- **The KPI incentive** (`routers/incentivo.py`). A driver is paid each indicator prize (returns, rating, refused goods) whose goal they met. A helper inherits the outcome of their dominant driver.
- **The payment report** (`routers/pagamento.py`). It merges the incentive and box prizes of every collaborator by code.

Shared behaviour:

- **The pay-cycle rule** (26th of one month to the 25th of the next) is written three times.
- **The query-error chain** and the **de-duplication of trips by map** are shared by the routes.
- **The CPF access filter** lets a non-administrator see only their own lines.

The model follows the code's own structure:

- Where the code is pure (pandas expressions, the if-chains, the cycle arithmetic), it is a set of functions.
- Where the code works step by step (the slot-filling classifier, the accumulation loops, the registry and result loops, the merge over keys), it is a set of methods with loop invariants. Each method is proved equal to a specification function, and the lemmas state what the source promises of those functions.

Modules, one per concern:

- `Wrappers`: `Option`.
- `Text`: pandas cells, `str()`, `to_numeric`, `strip`, the CPF normalisation and Python's string order.
- `Collections`: `drop_duplicates`, stable `sorted`, `mode().iloc[0]`, dictionaries built key by key, filters.
- `Calendar`: dates, `datetime` overflow and the three copies of the cycle rule.
- `Analysis`: the dashboard.
- `Reports`: goals, the error chain, the trip de-duplication and the CPF filter.
- `Caixas`, `Incentivo`, `Pagamento`: the three report routes.

A route's queries, the clock and the users are parameters:

- Each query result is an `Option` table: `None` is a failed or empty query.
- Each query error is an `Option<string>`.
- The goals are a map of numbers per role.
- Seniority is given in days.
- An exception that escapes a route, i.e. an HTTP 500, is a `None` response.

A helper inherits their dominant driver's KPI outcome whether or not the dashboard shows that helper (`routers/incentivo.py:79-86` never consults the visible ids).

## Model

| member | source | states |
|---|---|---|
| Text.CellText | core/analysis.py:41 | `str()` of a cell: a text is itself, a missing value renders "None" |
| Text.CellTextOfInt | core/analysis.py:41 | an integer cell's text parses back to the same integer |
| Text.ParseIntOfIntToString | core/analysis.py:51-53 | parsing the decimal rendering of any integer gives the integer back |
| Text.ToNumeric | core/analysis.py:51-53 | `to_numeric(errors='coerce')`: a missing value coerces to NaN (None), an integer stays itself, a text is read as an integer past the ASCII blanks at either end |
| Text.TrimAscii | core/analysis.py:51 | the number parser's view of a text is no longer than it and neither starts nor ends with an ASCII blank |
| Text.TrimAsciiPadded | core/analysis.py:51 | ASCII blanks around a text without blank ends are all dropped, and nothing else is |
| Text.TrimAsciiBlank | core/analysis.py:51 | a text of ASCII blanks only is nothing to the number parser |
| Text.IntToStringEnds | core/analysis.py:51-53 | the decimal rendering of an integer neither starts nor ends with an ASCII blank |
| Text.ToNumericOfPaddedInt | core/analysis.py:51-53 | an integer's text padded with ASCII blanks coerces to that integer |
| Text.ToNumericOfBlank | core/analysis.py:51-52 | a blank text coerces to NaN (None) |
| Text.CleanText | core/analysis.py:5-11 | `limpar_texto`: a non-text is returned unchanged, a text goes through the normaliser and stays a text |
| Text.StripShape | core/analysis.py:46 | `strip()` returns a contiguous piece of the text that neither starts nor ends with whitespace, and everything it drops is whitespace; whitespace is `str.isspace()`, the ASCII blanks, `\x1c`-`\x1f` and the Unicode spaces |
| Text.StripEmptyIffBlank | core/analysis.py:50 | a name strips to '' exactly when it is all whitespace |
| Text.StripIdempotent | core/analysis.py:46 | stripping twice is stripping once |
| Text.StripUntrimmed | core/analysis.py:46 | a text with no whitespace at either end is its own strip |
| Text.StripKeepsAbsent | core/analysis.py:46 | stripping introduces no character, so a name without '/' has no '/' after stripping |
| Text.IndexOf | core/analysis.py:46 | the index found is the first occurrence of the separator; None iff there is none |
| Text.IndexOfFirst | core/analysis.py:46 | any first occurrence is the one found |
| Text.RemoveDotsAndDashes | routers/caixas.py:190-191 | the normalised CPF holds no '.' and no '-' and is no longer than the input |
| Text.RemoveDotsAndDashesIdempotent | routers/pagamento.py:158-162 | normalising a normalised CPF changes nothing |
| Text.RemoveDotsAndDashesFixes | routers/pagamento.py:158-162 | a CPF already free of separators is left as it is |
| Text.ReplaceCharAppend | core/analysis.py:116 | `replace(' ', '_')` distributes over concatenation |
| Text.ReplaceCharAbsent | core/analysis.py:116 | a text without the character is not changed by `replace` |
| Text.AfterLastOfSuffix | core/analysis.py:18 | `split('_')[-1]` of `p + '_' + n` with no '_' in n is n |
| Text.StrLtTotal | routers/caixas.py:142 | Python's string order is total on distinct texts |
| Text.StrLtTransitive | routers/caixas.py:142 | Python's string order is transitive |
| Text.StrLtCommonPrefix | core/analysis.py:62-64 | texts with a common prefix compare as their remainders do, so the mode over "AJUDANTE n" labels is the mode over slot numbers |
| Collections.FilterMembership | routers/caixas.py:190-191 | a list comprehension with a condition keeps exactly the elements satisfying it |
| Collections.FilterComplement | core/analysis.py:104-109 | filtering by a predicate and by its negation splits the elements between the two results |
| Collections.FilterMap | core/analysis.py:49-53 | the rows kept by a per-row conversion are exactly the successful conversions |
| Collections.FirstWith | core/analysis.py:74 | the first element of a key is an element with that key |
| Collections.DedupBy | core/analysis.py:168 | `drop_duplicates(subset=key)`: only input rows, no two with the same key, every key kept, each kept row the first of its key |
| Collections.Dedup | core/analysis.py:55 | `drop_duplicates()`: the same rows, each once |
| Collections.SortBy | routers/caixas.py:142 | `sorted(key=...)`: a permutation of the input, sorted by the key |
| Collections.SortByStable | routers/incentivo.py:101 | the sort is stable: the elements of any one key come out in input order |
| Collections.MostFrequent | core/analysis.py:58-60 | the candidate chosen is at least as frequent as every other candidate |
| Collections.ModeIsLeastAmongMostFrequent | core/analysis.py:58-60 | among equally frequent values the mode is the least one |
| Collections.ModeIsPandasMode | core/analysis.py:58-68 | `mode().iloc[0]`: a value of the series, none more frequent, and below every other value as frequent |
| Collections.IntLtIsStrictTotalOrder | core/analysis.py:58-60 | ties among driver codes are broken by a strict total order |
| Collections.StrLtIsStrictTotalOrder | core/analysis.py:62-68 | ties among positions and names are broken by a strict total order |
| Collections.SortedDistinct | routers/pagamento.py:104-105 | the merge keys: strictly ascending, exactly the codes of either side |
| Collections.InsertInt | core/analysis.py:156 | inserting a code into a sorted key list keeps it strictly ascending, with exactly the old codes and the new one |
| Collections.ToDictKeys | routers/caixas.py:74 | a dictionary built row by row has exactly the keys of the rows |
| Collections.ToDictUnique | routers/incentivo.py:50 | a key that only one row carries holds that row's value |
| Collections.DistinctKeysPermuted | routers/caixas.py:142 | sorting keeps the codes of a report distinct |
| Calendar.DaysInMonth | routers/pagamento.py:37 | the length of a month is 28 to 31 days |
| Calendar.ReplaceDay | routers/pagamento.py:35 | `replace(day=k)` for k ≤ 28 is a valid date of the same month |
| Calendar.PrevDay | routers/pagamento.py:37 | `- timedelta(days=1)` is an earlier valid date; it overflows exactly on 0001-01-01 |
| Calendar.FirstOfNextMonth | routers/pagamento.py:43 | the next month's first day exists except in December 9999 |
| Calendar.AddDays | routers/pagamento.py:43 | `+ timedelta(days=n)` is a valid date when it does not overflow |
| Calendar.AddDaysIntoNextMonth | routers/pagamento.py:43 | adding more days than remain in the month, but fewer than reach the month after, lands in the next month, or overflows past year 9999 |
| Calendar.CycleContainsDate | routers/pagamento.py:33-44 | the cycle of a date runs from a 26th to the 25th of the following month and contains the date |
| Calendar.CycleMissingOnlyAtTheEnds | routers/pagamento.py:37 | only January of year 1 before the 26th and December of 9999 from the 26th have no cycle |
| Calendar.CycleCrossesYearEnd | routers/pagamento.py:33-44 | January before the 26th belongs to 26 December–25 January; December from the 26th to 26 December–25 January of the next year |
| Calendar.CycleByFourDaysIsCycle | routers/pagamento.py:33-44 | the payment and boxes reports' arithmetic yields exactly the cycle of the date |
| Calendar.CycleByThirtyTwoDaysIsCycle | routers/incentivo.py:152-157 | the incentive route's arithmetic yields the same cycle |
| Calendar.FormatIso | routers/pagamento.py:46 | `isoformat()` is ten characters |
| Calendar.ParseIso | routers/pagamento.py:29 | `fromisoformat` yields only valid dates |
| Calendar.Digits4Value | routers/pagamento.py:46 | a four-digit year field reads back as its value |
| Calendar.ParseFormatIso | routers/pagamento.py:29 | reading back the ISO text of any valid date gives the date |
| Calendar.PeriodCatchingValueError | routers/pagamento.py:28-49 | an unparseable start date passes both strings through; otherwise the ISO cycle, or an uncaught overflow |
| Calendar.PeriodCatchingAll | routers/incentivo.py:150-160 | the same cycle, and the raw strings on any exception, overflow included |
| Calendar.PeriodsAgree | routers/caixas.py:155-167 | the three copies agree wherever the first two do not raise; where they raise, the incentive route falls back to the raw strings |
| Calendar.PeriodIsIsoCycle | routers/pagamento.py:46 | a computed period is two ISO dates that parse back to a 26th and a 25th |
| Analysis.Field | core/analysis.py:182-183 | `row.get(col)` of an absent column is a missing value |
| Analysis.SlotNumberOfHelperColumn | core/analysis.py:18 | the slot number of `AJUDANTE_n` is the digit string n |
| Analysis.HelperColumns | core/analysis.py:15 | the melted columns are exactly the table's `AJUDANTE_<digits>` columns |
| Analysis.RawRowsMembership | core/analysis.py:16-37 | a raw association exists iff some trip has it in some helper column whose `CODJ_n` partner exists |
| Analysis.HelperNameText | core/analysis.py:41-47 | a name without '/' is kept as its text; a composite name loses everything from the first '/' |
| Analysis.Sanitize | core/analysis.py:41-53 | a row survives iff its cut name is not blank and its code is numeric, and then carries the cut name and the integer code |
| Analysis.PrepareAssociations | core/analysis.py:13-55 | the melt loop returns the sanitised, de-duplicated associations |
| Analysis.AssociationsMembership | core/analysis.py:13-55 | an association exists iff some trip, in some melted helper column, holds a helper that sanitises to it |
| Analysis.AssociationShape | core/analysis.py:28 | every association has a non-blank name, an "AJUDANTE n" label and a driver of the table |
| Analysis.NoMeltedColumnNoAssociations | core/analysis.py:34-35 | without a helper column that has its `CODJ_n` partner there are no associations |
| Analysis.CompositeNameKeepsFirst | core/analysis.py:45-47 | "A / B" with code text k becomes helper A with integer code k (so "MARIA / JOAO", 55 becomes MARIA, 55) |
| Analysis.Group | core/analysis.py:58 | a helper's group is exactly its associations, non-empty for a helper that occurs |
| Analysis.TripCount | core/analysis.py:70 | a driver of the table has at least one trip |
| Analysis.TripCountOfAddedTrip | core/analysis.py:70 | every trip row counts for its driver, whether or not it has helpers |
| Analysis.TripCounts | core/analysis.py:70 | every count in `value_counts()` is at least one |
| Analysis.DriverNames | core/analysis.py:72-74 | a driver's name is the `MOTORISTA` cell of its first row |
| Analysis.DominantValuesAreModes | core/analysis.py:57-68 | a helper's dominant driver, position and name are the pandas modes of its associations |
| Analysis.DominantPositionIsLabel | core/analysis.py:62-64 | a dominant position is an "AJUDANTE n" label |
| Analysis.DominantPositionsAreLabels | core/analysis.py:62-64 | every value of the position map is such a label |
| Analysis.PartnerCodes | core/analysis.py:156 | a driver's helpers come in strictly ascending code order, exactly those it shares an association with |
| Analysis.DriverPairAt | core/analysis.py:156-157 | each pair carries its association count (at least one) and the helper's dominant name |
| Analysis.DriverPairsCover | core/analysis.py:193 | every helper a driver shares an association with has a pair |
| Analysis.DriverPairsAscending | core/analysis.py:156 | pairs are in strictly ascending helper code order |
| Analysis.FixedPairs | core/analysis.py:101-106 | the fixed pairs are those whose helper's dominant driver is the driver, or whose ratio is above the significance |
| Analysis.VisitorPairs | core/analysis.py:108-109 | the visitors are exactly the pairs that are not fixed |
| Analysis.PairsPartition | core/analysis.py:95-109 | each pair is in exactly one of the two lists |
| Analysis.PositionKeys | core/analysis.py:116-117 | "AJUDANTE n" goes to the columns `AJUDANTE_n` and `CODJ_n` |
| Analysis.SlotEntries | core/analysis.py:120-122 | every entry placed in a slot is non-empty |
| Analysis.JoinSlashEmpty | core/analysis.py:119-122 | a join of non-empty entries is empty iff there are none |
| Analysis.PlaceOneSlot | core/analysis.py:116-122 | a fixed helper writes "name (n)" into an empty slot, appends " / name (n)" to a filled one, and touches no other slot |
| Analysis.PlaceOneCode | core/analysis.py:119-123 | the code column is written only by the first helper placed at its position |
| Analysis.SlotIsJoin | core/analysis.py:112-123 | an empty slot ends up holding the " / "-join of the fixed helpers whose position maps to it |
| Analysis.FirstCodeIffEntries | core/analysis.py:119-123 | a slot has a first code iff some fixed helper is placed in it |
| Analysis.PositionOfIsLabel | core/analysis.py:105 | every position a fixed helper is given is an "AJUDANTE n" label |
| Analysis.FirstFixedSetsCode | core/analysis.py:112-123 | `CODJ_n` keeps the code of the first fixed helper placed in `AJUDANTE_n`; later ones never overwrite it |
| Analysis.HasStrongFixedIff | core/analysis.py:111-114 | the flag is set iff some fixed pair has more trips than the minimum |
| Analysis.VisitorLimitRule | core/analysis.py:125-129 | with the source's rules the limit is 2 iff the driver has more than 15 trips and some fixed pair more than 10, and 1 otherwise |
| Analysis.VisitorListedIff | core/analysis.py:131-133 | a visitor is listed as "name (nx)" iff its count is above the limit |
| Analysis.HelperCodesIff | core/analysis.py:107 | the fixed helpers added to the visible ids are exactly the fixed pairs' codes |
| Analysis.ListedCodesIff | core/analysis.py:134 | the visitors added are exactly those above the limit |
| Analysis.VisibleIff | core/analysis.py:101-134 | a helper becomes visible iff one of its pairs is fixed or is a visitor above the limit |
| Analysis.PlaceAllKeeps | core/analysis.py:112-123 | placing fixed helpers touches neither the visitors nor the driver fields, and removes no column |
| Analysis.SplitPairs | core/analysis.py:95-109 | the first loop yields the fixed and visitor lists and the fixed helpers' ids |
| Analysis.PlaceFixed | core/analysis.py:111-123 | the second loop places every fixed helper and computes the strong-fixed flag |
| Analysis.ListVisitors | core/analysis.py:131-134 | the third loop appends the listed visitors and adds their ids |
| Analysis.ClassifyAndAssign | core/analysis.py:84-134 | the classifier returns the classified row and exactly the ids it makes visible |
| Analysis.MaxPos | core/analysis.py:186-187 | the number of slots is at least 3 and at least the number of distinct positions |
| Analysis.BlankSlots | core/analysis.py:189-191 | `AJUDANTE_1..n` all exist and are '' |
| Analysis.BlankCodes | core/analysis.py:189-191 | `CODJ_1..n` all exist and are '' |
| Analysis.NewDriverRow | core/analysis.py:171-191 | the loop builds the initial row: display name, codes and blank slots |
| Analysis.DriverRowOf | core/analysis.py:170-198 | a driver's row carries its code |
| Analysis.DriverRowsPush | core/analysis.py:198 | each driver appends exactly its row |
| Analysis.DriverRowsStep | core/analysis.py:195-197 | each driver adds exactly its own visible ids to the set |
| Analysis.DriverStep | core/analysis.py:170-197 | one iteration builds, classifies and fills the row of one driver |
| Analysis.BuildRows | core/analysis.py:159-198 | the driver loop yields one row per driver in order, and the union of the visible ids |
| Analysis.GenerateDashboard | core/analysis.py:136-213 | no associations gives empty rows, maps and ids; otherwise the rows are a permutation of the drivers' rows sorted by display string, with the reference maps and the visible ids |
| Analysis.DriverRowsDistinct | core/analysis.py:168 | no two rows share a driver code |
| Analysis.DriverHasRow | core/analysis.py:168-198 | every driver of the table has a row |
| Analysis.RowHasDriver | core/analysis.py:168 | every row belongs to a driver of the table |
| Analysis.RowSlots | core/analysis.py:186-197 | every slot 1..max exists; `AJUDANTE_n` holds the join of the fixed helpers placed there and `CODJ_n` the first one's code, or '' |
| Reports.FirstTruthy | routers/pagamento.py:81 | `err1 or err2 or ...` is one of the errors |
| Reports.FirstTruthyIsFirst | routers/pagamento.py:81 | it is the first truthy error |
| Reports.FirstTruthyIff | routers/caixas.py:174 | it is falsy iff every error is |
| Reports.DedupTrips | routers/pagamento.py:66-72 | only rows of the table are kept, with its columns |
| Reports.DedupTripsKeepsFirst | routers/incentivo.py:174-177 | with `MAPA`, the first trip of each map, each map once; without it, each distinct row once |
| Reports.CpfFilter | routers/pagamento.py:157-162 | the filter only removes lines |
| Reports.CpfFilterIff | routers/caixas.py:189-192 | a line is seen iff the user is an administrator or its CPF without separators is the username without separators |
| Reports.CpfFilterIgnoresSeparators | routers/incentivo.py:184-187 | separators in the CPF or in the username do not matter |
| Caixas.ValuePerBox | routers/caixas.py:13-26 | the value per box is one of the four tier values |
| Caixas.ValuePerBoxIsTier | routers/caixas.py:17-26 | with ascending thresholds, the if-chain pays the tier given by how many thresholds the seniority is strictly above |
| Caixas.ValuePerBoxMonotone | routers/caixas.py:17-26 | with ascending thresholds and tier values, more seniority never pays less |
| Caixas.DefaultThresholdBoundaries | routers/caixas.py:17-23 | with the default thresholds, 365 days is tier 1, 366 tier 2, 731 tier 3 and 1826 tier 4 |
| Caixas.MissingTierValuesPayNothing | routers/caixas.py:18-26 | without tier values every box is worth 0.0 |
| Caixas.BuildRegistry | routers/caixas.py:37-51 | the registry loop skips codes that coerce to 0 and builds the code → name, CPF, seniority map |
| Caixas.RegistryKeys | routers/caixas.py:40-45 | a code is registered iff it is nonzero and some row with a code coerces to it |
| Caixas.RegistryFirstRowWins | routers/caixas.py:40-51 | the first row of a code wins |
| Caixas.BoxMapFirstRowWins | routers/caixas.py:71-74 | the box count of a map is that of its first row |
| Caixas.CreditValid | routers/caixas.py:91 | crediting adds the boxes to one code and keeps every other total |
| Caixas.CreditHelpersFacts | routers/caixas.py:101-106 | every registered helper code named in a `CODJ_` column is credited its share; nothing else changes |
| Caixas.CreditTripFacts | routers/caixas.py:83-106 | one trip credits each registered code named in its role exactly its share |
| Caixas.HelperShareZero | routers/caixas.py:86 | a trip without boxes gives no helper anything |
| Caixas.CreditColumns | routers/caixas.py:100-105 | the loop over the CODJ_ columns credits the trip's boxes to every registered non-zero helper code, column by column |
| Caixas.Accumulate | routers/caixas.py:76-106 | the accumulation loop yields the drivers' and the helpers' tallies over all trips |
| Caixas.TallyFacts | routers/caixas.py:82-106 | a code's total is the sum of its shares when registered, else 0; the keys are the registered codes some paid trip names |
| Caixas.TallyValid | routers/caixas.py:82-106 | only registered codes are accumulated |
| Caixas.TallyTotal | routers/caixas.py:89-106 | the accumulated total of a code is its share over all trips |
| Caixas.TallyKey | routers/caixas.py:89-106 | a code is accumulated iff it is registered and a paid trip names it |
| Caixas.TripWithoutBoxesIgnored | routers/caixas.py:84-86 | a trip of a map without boxes can be dropped without changing any total |
| Caixas.LineOfShape | routers/caixas.py:110-123 | a result line has the registry's name, CPF and seniority, the total, the tier value and the product |
| Caixas.LinePrize | routers/caixas.py:121 | `total_premio` = `total_caixas` × `valor_por_caixa` |
| Caixas.Lines | routers/caixas.py:110-123 | one line per accumulated code |
| Caixas.BuildLines | routers/caixas.py:109-123 | the result loop builds the lines of the accumulated codes in order |
| Caixas.ProcessBoxes | routers/caixas.py:30-142 | `processar_caixas_sincrono` returns the drivers' and the helpers' reports |
| Caixas.ReportLine | routers/caixas.py:108-142 | every line is a registered code of the role with its totals, tier value and registry data |
| Caixas.ReportPrize | routers/caixas.py:138 | every line's prize is its boxes times its value per box |
| Caixas.ReportCovers | routers/caixas.py:82-142 | a code has a line iff it is registered in the role and a paid trip names it in that role |
| Caixas.ReportDistinct | routers/caixas.py:110-142 | no two lines of a report share a code |
| Caixas.RolesApart | routers/caixas.py:77-78 | a driver's total counts only `COD`/`COD_2`, a helper's only `CODJ_` columns, each from its own registry |
| Caixas.DedupByMapa | routers/caixas.py:181-182 | the de-duplicated trips keep the table's columns |
| Caixas.EachMapPaidOnce | routers/caixas.py:178-182 | after the de-duplication each map has one trip and every map survives |
| Caixas.BoxesRoute | routers/caixas.py:155-197 | cycle overflow or a missing trips table escapes; a query error gives empty lists and the error; otherwise both reports, CPF-filtered |
| Incentivo.IndicatorIndexLookup | routers/incentivo.py:60-64 | the indicator index exists iff no code repeats, and then holds every code with its row |
| Incentivo.AssessRules | routers/incentivo.py:114-122 | an absent indicator shows "N/A" and never passes; dev and refugo pass iff 100·v ≤ goal, rating iff 100·v ≥ goal |
| Incentivo.AssessMonotone | routers/incentivo.py:118-120 | better indicators never lose a pass |
| Incentivo.LinePays | routers/incentivo.py:122-129 | each prize is the goal's prize iff its indicator passed, else 0; the total is their sum |
| Incentivo.AllFailPaysNothing | routers/incentivo.py:32-37 | the all-fail default pays nothing |
| Incentivo.CpfMapKeys | routers/incentivo.py:47-50 | a code has a CPF iff some registry row with a code coerces to it |
| Incentivo.DriverLines | routers/incentivo.py:106-130 | one line per driver row |
| Incentivo.DriverLinesAt | routers/incentivo.py:106-130 | the i-th line is the i-th driver's |
| Incentivo.ProcessDrivers | routers/incentivo.py:103-138 | the loop yields the drivers' lines and the inheritance map |
| Incentivo.InheritanceFacts | routers/incentivo.py:132-137 | a code is in the inheritance map iff it is nonzero and drove, and then holds that driver's outcome |
| Incentivo.HelperLines | routers/incentivo.py:79-99 | one line per helper visited |
| Incentivo.HelperLinesAt | routers/incentivo.py:79-99 | the i-th line is the i-th helper's |
| Incentivo.ProcessHelpers | routers/incentivo.py:79-99 | the helper loop yields the inherited lines |
| Incentivo.InheritedByRule | routers/incentivo.py:81-82 | a helper inherits the outcome of its dominant driver when nonzero and in the period, else the all-fail default |
| Incentivo.DashboardMaps | routers/incentivo.py:73-77 | the dashboard call yields the associations and the dominant driver map |
| Incentivo.ProcessIncentives | routers/incentivo.py:18-101 | `processar_incentivos_sincrono` returns both lists of the incentive report |
| Incentivo.DriverLinesDistinct | routers/incentivo.py:68 | distinct driver rows give lines with distinct codes |
| Incentivo.DriverLinesMember | routers/incentivo.py:106-130 | every line is some driver row's line |
| Incentivo.DriverLinesCover | routers/incentivo.py:106-130 | a code has a line iff some driver row has it |
| Incentivo.HelperLinesMember | routers/incentivo.py:79-99 | every line is some helper's line |
| Incentivo.HelperLinesCover | routers/incentivo.py:79-99 | a code has a line iff some helper has it |
| Incentivo.DriverReportDistinct | routers/incentivo.py:68 | no two driver lines share a code |
| Incentivo.DriverReportLine | routers/incentivo.py:67-70 | every driver line is that of the first trip of its code |
| Incentivo.DriverReportCovers | routers/incentivo.py:67-70 | a code has a driver line iff some trip has it |
| Incentivo.HelperReportDistinct | routers/incentivo.py:77 | no two helper lines share a code |
| Incentivo.HelperReportLine | routers/incentivo.py:77-99 | every helper line has the first association's name and is paid from the outcome the code inherits |
| Incentivo.HelperReportCovers | routers/incentivo.py:77-79 | a code has a helper line iff it is a helper of some association |
| Incentivo.HelperPrizeNeedsDriverPass | routers/incentivo.py:81-86 | a helper is paid an indicator's prize only if its dominant driver drove in the period and passed that indicator |
| Incentivo.IncentiveRoute | routers/incentivo.py:169-187 | a query error or no trips gives empty lists and the error; otherwise both lists, CPF-filtered |
| Pagamento.ByCodeKeys | routers/pagamento.py:104-105 | a code is a merge key of one side iff some line of it has the code |
| Pagamento.ByCodeFrom | routers/pagamento.py:104-105 | the line held for a code is a line of the side with that code |
| Pagamento.ByCodeLookup | routers/pagamento.py:104-105 | with distinct codes, every line is the one held for its code |
| Pagamento.Consolidate | routers/pagamento.py:116-117 | the KPI side's name/CPF when present and non-null, else the boxes side's, else ''; never null |
| Pagamento.Merge | routers/pagamento.py:104-105 | one row per merge key |
| Pagamento.MergeAt | routers/pagamento.py:104-124 | the i-th row is the merged row of the i-th key |
| Pagamento.MergeCovers | routers/pagamento.py:103-105 | the outer merge has a row for a code iff either side has a line with it |
| Pagamento.MergeAscending | routers/pagamento.py:104-105 | the rows come in strictly ascending code order |
| Pagamento.MergeRowFacts | routers/pagamento.py:107-124 | the total is the sum of the two prizes, a missing side contributes 0, and name and CPF are taken over and never null |
| Pagamento.MergePaysIncentive | routers/pagamento.py:104-117 | every KPI line is paid its prize on its code's row, with its name and CPF when present |
| Pagamento.MergePaysBoxes | routers/pagamento.py:104-117 | every boxes line is paid its prize on its code's row, with its name and CPF when the KPI side lacks them |
| Pagamento.MergeSide | routers/pagamento.py:107-124 | the loop over the keys builds the merged rows |
| Pagamento.MergeResults | routers/pagamento.py:84-126 | `_merge_resultados` yields the drivers' and the helpers' merged tables |
| Pagamento.IncentiveSideDistinct | routers/incentivo.py:101 | the incentive lists fed to the merge have distinct codes |
| Pagamento.MergeLinesPaysIncentive | routers/pagamento.py:104-117 | every incentive line is paid in full on its code's row |
| Pagamento.MergeLinesPaysBoxes | routers/pagamento.py:104-117 | every box line is paid in full on its code's row |
| Pagamento.PaymentPaysIncentive | routers/pagamento.py:142-154 | every incentive line of the period is paid in full on the payment row of its code |
| Pagamento.PaymentPaysBoxes | routers/pagamento.py:148-154 | every box line of the period is paid in full on the payment row of its code |
| Pagamento.ProcessPayments | routers/pagamento.py:142-154 | incentives, boxes and merge yield the payment report |
| Pagamento.PaymentRoute | routers/pagamento.py:128-172 | an exception gives the internal error; a query error gives empty lists and the error; otherwise both merged tables, CPF-filtered, with no error |

## Left out

- Supabase querying and pagination, the cache helpers, the goals fetch and upsert, authentication and JWT, the application wiring and the HTTP tests: I/O and framework code, so each query's result and error is a parameter of the route.
- The Excel export of the payment report (`routers/pagamento.py:174-265`): spreadsheet formatting and streaming.
- `routers/xadrez.py`: it only dispatches to the dashboard, which is modelled.
- Text.CleanText: takes the NFKD/ASCII folding as a parameter. Unicode normalisation is not modelled; the non-text case is.
- The clock: seniority is given in days, and parsing the registry's start dates is not modelled. A missing date is seniority 0.
- Text.ToNumeric: converts integers only. A decimal text that coerces to a float, and a float code truncated by `astype(int)`, are not modelled. Codes are unbounded integers, so a code beyond the 64-bit range, which pandas would turn into a float, is not modelled either.
- The indicators are taken already coerced to numbers or missing, as `Option<real>`. Float formatting of the percentages (`f"{v:.2f}%"`) and float rounding of the sums are not modelled: amounts are exact reals.
- Incentivo.Assess: compares `100·v` with the goal exactly, whereas the source multiplies floats (`0.07*100` is `7.000000000000001`), so an indicator that sits exactly on a goal boundary may pass in the model and fail in the source.
- Incentivo.AssessRules: states the exact-real comparison, with the same float caveat as Incentivo.Assess.
- Calendar.ParseIso: accepts only `YYYY-MM-DD`, which is `date.fromisoformat` as in Python 3.10 and earlier. The basic form `20240110` and ISO week dates that Python 3.11 also accepts are not modelled.
- Text.CellText: renders a missing value as "None". A NaN in a numeric column, which `str()` renders as "nan", is not told apart from a missing value. A key absent from a row reads as a missing value, but whole-row de-duplication (Collections.Dedup) compares rows as maps and tells the two apart; pandas, whose rows always hold every column, would not.
- Box counts are numbers. A NaN box count, and `float()` of a non-numeric count, are not modelled.
- The goals are numbers, so the `except` branch of `_get_valor_por_caixa` (`routers/caixas.py:27-28`) is unreachable in the model.
- A registry table without the `Codigo_M`/`Codigo_J` columns, which raises KeyError, is not modelled.
- Analysis.GenerateDashboard: the trips table is assumed to have a `COD` column with integer codes, so the early return of `core/analysis.py:165-166` is not modelled.
- Analysis.GenerateDashboard: promises the rows sorted by display string and a permutation, not their order among equal display strings, because `sort_values` is not a stable sort.
- Analysis.GenerateDashboard: a fixed position beyond max(3, distinct positions) creates a slot absent from other rows, which pandas blanks with `fillna`. Columns are maps where a missing key reads as `''`, so the model never materialises those extra columns.
- The incentive report's start-date maps (`routers/incentivo.py:51-52`, `57-58`) and its `df_caixas` argument are computed or passed but never used, so they are left out.
- Pagamento.Merge: is a union over the keys of the two sides. It equals pandas' outer join when each side has at most one line per code; Pagamento.PaymentPaysIncentive and Pagamento.PaymentPaysBoxes cover the route's own inputs. Repeated codes on one side, which pandas would multiply out, are not modelled.
- Pagamento.MergeResults: the extra `total_premio` column a side keeps when the other list is empty (`routers/pagamento.py:89-92`) is not modelled. The code coercion of `routers/pagamento.py:99-101` is the identity on integer codes.
- Integer CPFs that pandas would render as floats after the merge are not modelled: a CPF cell's text is `str()` of the cell.
- A `None` response stands for an unhandled exception (HTTP 500). The log lines printed before the internal error are not modelled.
