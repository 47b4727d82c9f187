# Synthetic outpatient case-event generator, in Dafny

This project models the core of a synthetic outpatient case-event generator.
The generator draws every value from one seeded pseudorandom stream. A day's
cases at a facility get:

- a case count drawn from the facility's daily volume range;
- a procedure for each case, chosen with weights biased by the facility's
  service-line preferences;
- for each case, a check-in hour from an hourly weight curve, a minute and a
  second;
- four log-normal phase durations, clamped to 3–600 minutes;
- a Gaussian schedule offset;
- a status roll with cumulative thresholds 0.02, 0.03 and 0.06, whose branch
  reshapes the timeline (canceled, converted to inpatient, delayed,
  completed);
- an ASA class, an anesthesia type weighted by service line, and a version-4
  UUID built from 128 drawn bits.

A batch walks an inclusive date range day by day, skips weekends, and visits
the facilities in declaration order each weekday. The reference catalog is 58
procedures, 3 facilities and 10 anesthesia tables.

Modules, in dependency order:

- `Stream` (stream.dfy): the pseudorandom stream as a `Source`, a function
  from stream position to each kind of draw. `Rng` is a source together with
  the next position; every draw reads one position and advances by one.
- `Calendar` (calendar.dfy): day numbers and `weekday()`.
- `Lexicographic` (lexicographic.dfy): Python's string order and
  `sorted(set(...))`.
- `Catalog` (catalog.dfy): the constant tables, `SERVICE_LINES` and
  `get_procedures_by_service_line`.
- `Sampling` (sampling.dfy): `_weighted_choice` and `_sample_lognormal`.
- `CaseEvents` (case_events.dfy): `generate_case` and `_pick_anesthesia`.
- `Batch` (batch.dfy): `_build_procedure_weights`, `generate_day` and
  `generate_batch`. Python exceptions become `Err` values.
- `CatalogFacts` (catalog_facts.dfy): the properties of the constant catalog.

## Model

| member | source | states |
|---|---|---|
| Stream.NextUniform | src/generator/generate.py:47 | `random()` is the stream's uniform value at the current position, in [0, 1), and consumes one draw |
| Stream.NextInt | src/generator/generate.py:94-95 | `randint(lo, hi)` yields a value in [lo, hi] inclusive and consumes one draw |
| Stream.NextBetween | src/generator/generate.py:119-131 | `uniform(a, b)` yields a value of at least a, below b when a < b, and consumes one draw |
| Stream.NextBetweenValue | src/generator/generate.py:119-131 | `uniform(a, b)` is `a + (b - a) * random()` for the `random()` value at this position, so exactly a when a = b |
| Stream.NextGauss | src/generator/generate.py:111 | `gauss(mu, sigma)` is mu plus sigma times the standard deviate at the current position, and consumes one draw |
| Stream.NextBits128 | src/generator/generate.py:145 | `getrandbits(128)` is the stream's 128-bit value at the current position, and consumes one draw |
| Calendar.Weekday | src/generator/generate.py:197 | `weekday()` is in 0..6 |
| Calendar.WeekdayNext | src/generator/generate.py:197-205 | each `+ timedelta(days=1)` advances the weekday by one, Sunday (6) wrapping to Monday (0); with the anchor of KnownDays this fixes the weekday of every day |
| Calendar.KnownDays | src/generator/generate.py:195-205 | 1970-01-01 is day 0 and a Thursday (3); 2025-01-06 is a Monday; 2025-01-11 and 2025-01-12 are Saturday and Sunday |
| Calendar.DayNumberNext | src/generator/generate.py:205 | `current += timedelta(days=1)` goes from a valid proleptic Gregorian date to the next one, across month and year ends and leap Februaries, and adds exactly 1 to its day number |
| Calendar.YearStartNext | src/generator/generate.py:205 | a year counted from March has 366 days when the February ending it is a leap one (every fourth year, but not centuries unless divisible by 400), else 365 |
| Lexicographic.SortedUnique | src/generator/catalog.py:130 | `sorted(set(xs))` is strictly increasing in Python's string order and has exactly the elements of xs |
| Lexicographic.SortedByElements | src/generator/catalog.py:130 | two strictly sorted lists with the same elements are equal, so the sorted set is unique |
| Lexicographic.StrictlySortedDistinct | src/generator/catalog.py:130 | a strictly sorted list has no duplicate |
| Lexicographic.LessTransitive | src/generator/catalog.py:130 | the string order `sorted` uses is transitive |
| Lexicographic.LessTotal | src/generator/catalog.py:130 | any two distinct strings are ordered one way or the other |
| Catalog.Select | src/generator/catalog.py:132-133 | the filtered list holds exactly the procedures of the line and is no longer than the input |
| Catalog.ProceduresByServiceLine | src/generator/catalog.py:132-133 | `get_procedures_by_service_line` returns exactly the catalog procedures of that line |
| Catalog.FindFacility | src/generator/generate.py:65 | `FACILITIES[facility_id]` finds the facility with that id; when there is none, no facility carries the id (the KeyError case) |
| Catalog.Lookup | src/generator/generate.py:78 | a table lookup fails exactly when no entry has the key, and a hit is an entry of the table |
| Catalog.HasAnesthesia | src/generator/generate.py:78 | `service_line in ANESTHESIA_TYPES` holds exactly when some table entry has that key |
| Catalog.AnesthesiaChoices | src/generator/generate.py:78 | `ANESTHESIA_TYPES.get(line, [("General", 1.0)])` is the line's own table entry when it has one, else the single General choice |
| Catalog.ProcedureCount | src/generator/catalog.py:59-128 | the catalog holds 58 procedures, at least 50 |
| Sampling.WeightedChoice | src/generator/generate.py:44-53 | the result is one of the items; it is the item at the walk's index for the threshold `random() * total`; exactly one draw is consumed |
| Sampling.Walk | src/generator/generate.py:48-53 | the walk returns the index of one of the items; its fallback is the last item |
| Sampling.ChosenIndex | src/generator/generate.py:44-53 | the chosen index is that of one of the items |
| Sampling.WalkFindsFirstReaching | src/generator/generate.py:48-53 | from any start, the walk returns the first index whose running sum reaches r; when none does within the shorter of items and weights, it returns the last item |
| Sampling.ChoiceIsFirstReaching | src/generator/generate.py:44-53 | the chosen item is the first whose prefix weight sum is at least r, otherwise the fallback `items[-1]` |
| Sampling.PrefixMonotone | src/generator/generate.py:48-50 | with non-negative weights the running sum never decreases |
| Sampling.FallbackUnreached | src/generator/generate.py:46-53 | with one non-negative weight per item, the chosen item's prefix sum reaches the threshold, so the fallback is never taken |
| Sampling.ThresholdWithinTotal | src/generator/generate.py:46-47 | `random() * total` lies in [0, total] |
| Sampling.ThresholdReached | src/generator/generate.py:46-53 | a threshold no larger than the total is reached by the chosen item's prefix sum |
| Sampling.ZeroWeightOnlyFirstAtZero | src/generator/generate.py:47-52 | a zero-weight item is chosen only when it is the first item and the threshold is exactly 0 |
| Sampling.PositiveWeightChosen | src/generator/generate.py:47-52 | with a positive total, the chosen item has positive weight unless it is the first item and `random()` returned exactly 0 |
| Sampling.Clamp | src/generator/generate.py:60 | the result lies in [lo, hi] when lo <= hi; an in-range value is returned unchanged; a value below lo gives lo; a value above hi gives hi |
| Sampling.SampleLognormal | src/generator/generate.py:56-60 | the result is the exponentiated Gaussian draw brought into [min, max]: unchanged in range, else the bound crossed; one draw is consumed |
| Sampling.RawLognormal | src/generator/generate.py:59 | the value before clamping is `math.exp` of mu plus sigma times the Gaussian deviate at the current position |
| CaseEvents.StatusNames | src/generator/generate.py:115-136 | each `case_status` string is written exactly on its roll interval, and the four strings are distinct |
| CaseEvents.StatusOf | src/generator/generate.py:115-136 | the roll falls in exactly one interval: canceled below 0.02, converted in [0.02, 0.03), delayed in [0.03, 0.06), completed from 0.06 |
| CaseEvents.CheckinTime | src/generator/generate.py:92-97 | check-in lies in the day, in the 05:00–17:59 window unless `random()` returned 0 and the zero-weight hour 0 was chosen; it consumes three draws |
| CaseEvents.CheckinMinutes | src/generator/generate.py:97 | `replace(hour, minute, second)` lies within that hour |
| CaseEvents.CheckinHourWindow | src/generator/generate.py:34-41 | the chosen hour is in 5..17, or it is hour 0 on a draw of exactly 0 |
| CaseEvents.HourWeight | src/generator/generate.py:36-41 | every hourly check-in weight is non-negative, and positive exactly for hours 5 to 17 |
| CaseEvents.CheckinWeightsShape | src/generator/generate.py:34-41 | 24 non-negative hourly weights; only hours 5 to 17 carry weight; the total is positive |
| CaseEvents.Cascade | src/generator/generate.py:105-108 | each phase starts where the previous one ends: every gap is the sampled duration |
| CaseEvents.SampleDurations | src/generator/generate.py:99-103 | the four durations are the clamped log-normal draws of the procedure's phases, from four consecutive positions, each in [3, 600] |
| CaseEvents.ExtendedStay | src/generator/generate.py:126 | a converted case's recovery is between 2 and 5 times the sampled one |
| CaseEvents.ResolveStatus | src/generator/generate.py:114-136 | status is the roll's interval; canceled: pre-op 5–20 min after check-in, op and post-op at pre-op, discharge 10–30 min later; converted: only discharge moves, 2–5 × recovery after post-op; delayed: op moves 15–90 min, later gaps kept; completed: cascade unchanged; draws 2/1/1/0 |
| CaseEvents.StatusKeepsOrder | src/generator/generate.py:105-136 | for every status the five timestamps are non-decreasing |
| CaseEvents.PickAnesthesia | src/generator/generate.py:76-80 | the type comes from the line's table; a line without one gives "General"; one draw is consumed |
| CaseEvents.UuidValue | src/generator/generate.py:145 | the identifier has version 4 and the RFC 4122 variant; the other 122 bits are the drawn bits |
| CaseEvents.FreeBitsAreUnstamped | src/generator/generate.py:145 | the kept bits are exactly those outside the variant and version fields |
| CaseEvents.UuidCollides | src/generator/generate.py:145 | two draws give the same identifier exactly when they agree on the 122 kept bits |
| CaseEvents.DraftCase | src/generator/generate.py:92-136 | the timing draws produce a timeline that follows the status from the cascade, and a scheduled start equal to the pre-delay op start minus ten times the Gaussian deviate |
| CaseEvents.CaseTail | src/generator/generate.py:138-145 | ASA class in 1..6, anesthesia from the line's table, identifier from the third draw after the branch |
| CaseEvents.GenerateCase | src/generator/generate.py:83-161 | ids, procedure type and day are echoed; ASA class in 1..6; anesthesia type from the line's table or "General" |
| CaseEvents.CaseDraws | src/generator/generate.py:92-145 | a case's timing is the one its draws promise; it consumes 12, 13 or 14 draws by status; its identifier comes from the last draw |
| CaseEvents.GeneratedTimesOrdered | src/generator/generate.py:99-136 | every generated case's timestamps are ordered, and a completed case's gaps are its four sampled durations |
| CaseEvents.ScheduleBeforeDelay | src/generator/generate.py:110-136 | the scheduled start comes from the op start before any delay: a delayed op starts 15–90 min after it (offset added back), a completed or converted op exactly at it |
| Batch.Biases | src/generator/generate.py:66-72 | one weight per procedure, in order, each the facility's bias for the procedure's line or 1.0 when absent |
| Batch.BuildProcedureWeights | src/generator/generate.py:63-73 | fails exactly for an unknown facility; otherwise the whole catalog in order with a parallel list of biases |
| Batch.GenerateCases | src/generator/generate.py:176-181 | n cases, each for the facility and the day with a procedure from the list, the generator id verbatim, an ASA class in 1..6 and ordered timestamps |
| Batch.CaseThenRest | src/generator/generate.py:177-181 | one loop iteration followed by the rest gives n such cases |
| Batch.CaseWellFormed | src/generator/generate.py:83-161 | a generated case carries its facility, day and procedure, the generator id verbatim, an ASA class in 1..6 and ordered timestamps |
| Batch.GenerateDay | src/generator/generate.py:164-182 | unknown facility gives KeyError; an empty volume range gives ValueError; otherwise the case count is the randint draw, within [min, max], and every case carries the facility id, the day and the generator id, an ASA class in 1..6 and ordered timestamps |
| Batch.FacilityIds | src/generator/generate.py:198 | the facility ids in declaration order |
| Batch.CatalogFacilityIds | src/generator/catalog.py:24-43 | the facilities are visited as HOSP_A, HOSP_B, HOSP_C |
| Batch.CatalogFacilitiesRunnable | src/generator/catalog.py:24-43 | each catalog id is found and has a non-empty volume range; the ids are distinct |
| Batch.CatalogDailyTotals | src/generator/catalog.py:29-41 | a weekday's volume bounds over the three facilities sum to 150 and 270 |
| Batch.DayAcrossFacts | src/generator/generate.py:198-200 | `DayAcross`, the facility loop of one weekday: every case belongs to a visited facility and to that day, and carries the generator id, an ASA class in 1..6 and ordered timestamps |
| Batch.DayAcrossOk | src/generator/generate.py:198-200 | `DayAcross` over accepted facilities never fails, and its size lies between the sums of the volume bounds |
| Batch.DayAcrossOrdered | src/generator/generate.py:198-200 | within a day the cases come facility by facility in iteration order |
| Batch.BatchFromDays | src/generator/generate.py:194-205 | `BatchFrom`, the date loop: every case is on a weekday inside the inclusive range, and carries the generator id, an ASA class in 1..6 and ordered timestamps |
| Batch.BatchFromOk | src/generator/generate.py:194-205 | `BatchFrom` over the catalog never fails, and each weekday adds 150 to 270 cases |
| Batch.BatchFromOrdered | src/generator/generate.py:194-207 | the flattened output is ordered by day, then by facility |
| Batch.NoWeekdayNoCases | src/generator/generate.py:195-205 | a range without a weekday yields no case and consumes no draw |
| Batch.NoWeekdayMeansWeekend | src/generator/generate.py:196-197 | a range has no weekday exactly when every day in it is a Saturday or Sunday |
| Batch.GenerateBatchSize | src/generator/generate.py:185-209 | `GenerateBatch`, the model of `generate_batch`, never fails over the catalog; its size is 150 to 270 cases per weekday of the range |
| Batch.GenerateBatchDays | src/generator/generate.py:185-209 | every case of `GenerateBatch` is inside the inclusive range and on a weekday, and carries the generator id verbatim, an ASA class in 1..6 and ordered timestamps |
| Batch.GenerateBatchOrdered | src/generator/generate.py:185-209 | the output is ordered by date, then by the facility's place in `FACILITIES` |
| Batch.WeekendBatchEmpty | src/generator/generate.py:195-205 | a range of weekend days only gives an empty batch |
| Batch.WeekendOfJanuary11 | src/generator/generate.py:195-197 | 2025-01-11 to 2025-01-12 gives an empty batch, for every seed |
| CatalogFacts.PhasesArePositive | src/generator/catalog.py:59-128 | every phase of every procedure has mu > 0 and sigma > 0 |
| CatalogFacts.NamesDistinct | src/generator/catalog.py:59-128 | no two procedures share a name |
| CatalogFacts.LinesInBlocks | src/generator/catalog.py:59-128 | the catalog lists its procedures service line by service line, in ten blocks |
| CatalogFacts.MatchPositions | src/generator/catalog.py:132-133 | the positions of a line's procedures: strictly increasing, in range, and holding exactly the matching positions |
| CatalogFacts.SelectInOrder | src/generator/catalog.py:132-133 | the selection is the catalog's subsequence at the matching positions, in catalog order |
| CatalogFacts.SelectFrom | src/generator/catalog.py:132-133 | from any start, the selection of the suffix is the subsequence at its matching positions |
| CatalogFacts.SelectAppend | src/generator/catalog.py:132-133 | the selection of a concatenation is the concatenation of the selections |
| CatalogFacts.GastroenterologyProcedures | src/generator/catalog.py:132-133 | the GI procedures are the first ten of the catalog, in order, so there are at least five |
| CatalogFacts.LinesUsed | src/generator/catalog.py:130 | the lines the catalog uses are exactly the ten listed |
| CatalogFacts.ServiceLinesListed | src/generator/catalog.py:130 | `SERVICE_LINES` is the sorted list of the ten lines: strictly sorted, unique, equal to the lines used, at least eight |
| CatalogFacts.FacilitiesWellFormed | src/generator/catalog.py:24-43 | three facilities, each with 0 < min <= max daily volume and positive biases keyed by catalog service lines; names and time zones carry the same ids |
| CatalogFacts.CatalogBiasesPositive | src/generator/generate.py:66-71 | every weight `bias.get(service_line, 1.0)` gives for a catalog facility is positive |
| CatalogFacts.AnesthesiaKeysDistinct | src/generator/catalog.py:46-57 | the ten anesthesia keys are distinct |
| CatalogFacts.ChoicesOfEntry | src/generator/generate.py:78 | looking up an entry's key yields that entry's choices |
| CatalogFacts.EntryWeightsSumToOne | src/generator/catalog.py:46-57 | each anesthesia table's weights sum to exactly 1 |
| CatalogFacts.EveryLineHasAnesthesia | src/generator/catalog.py:46-57 | every catalog service line has its own anesthesia table, and its weights sum to 1 within 0.01 |

## Left out

- The Mersenne Twister, `random.Random(seed)` and the seed-to-stream mapping: a batch takes the `Source` the seed selects. Nothing constrains the distribution of the draws, only their ranges.
- `randint(lo, hi)` is `lo + below % (hi - lo + 1)` for an unconstrained natural `below`. This pins only the range and the single draw, not CPython's rejection sampling.
- `math.exp` is an uninterpreted function, and its `OverflowError` on huge arguments is not modelled. The Gaussian deviate is unconstrained.
- Floating point: weights, durations and timestamps are exact reals. Binary rounding and `timedelta`'s microsecond rounding are not modelled.
- Timestamps are real minutes after midnight of the case's day number. `datetime`, time zones and `isoformat()` strings are not modelled, and a discharge past midnight is a value above 1440.
- Dates are day numbers; `generate_batch` in the source takes `datetime` values. `main` passes midnight-UTC dates, which is the case modelled.
- `str(event_uuid)`: the event id is the UUID built from the draw; `UuidValue` gives its 128-bit integer, and the hyphenated text is not modelled.
- The `if case:` filter in `generate_day`: `generate_case` always returns a non-empty dict, so every case is kept.
- Distributional claims: the share of canceled, converted and delayed cases, the hourly check-in mix and the procedure mix are not stated. The stream is constrained only by ranges.
- Logging, `write_csv`, `write_json`, `main` and argument parsing are I/O and left out.
- Facility `name` and `timezone`: the generator never reads them. They are kept apart in `FacilityLabelAt`.
- Reproducibility (same seed, same output): every function is pure, so identical inputs give identical output by construction. No separate lemma states it.
- Stream.NextBetween: its own contract states the range and the single draw. The exact value is stated by `Stream.NextBetweenValue` about the same call, because both in one contract exceed the solver's budget for nonlinear real arithmetic.
- Calendar.Weekday: its own contract states only the range 0..6. Its value is fixed by `Calendar.WeekdayNext` (one step per day) and the Thursday anchor in `Calendar.KnownDays`.
- Calendar.DayNumber: defined for valid proleptic Gregorian dates of any year, including years before 1 that `datetime` rejects; its contract is `Calendar.DayNumberNext`.
- Sampling.Walk: its own contract states only that the index is an item's. `Sampling.WalkFindsFirstReaching` states which index it is.
- Sampling.ChosenIndex: its own contract states only that the index is an item's. `Sampling.ChoiceIsFirstReaching` states which index it is.
- Sampling.WeightedChoice: requires a non-empty item list. Python raises `IndexError` there, and every caller passes a non-empty list.
- CaseEvents.GenerateCase: its contract keeps the echoed fields, the ASA range and the anesthesia type. The timing, the draw count and the identifier are stated by `CaseEvents.CaseDraws` about the same call.
- CatalogFacts.EveryLineHasAnesthesia: states the source's tolerance of 0.01; the proof shows the sums are exactly 1 over the reals.
