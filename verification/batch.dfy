/** Days and date ranges: `_build_procedure_weights`, `generate_day` and
    `generate_batch`. A Python exception becomes an `Err` that propagates to
    the caller, as the exception would.

    The generating functions carry light contracts: every mention of one of
    them brings the whole case generator into a proof, so each property of
    a day or a range is a lemma of its own, and the reasoning about
    sequences alone sits in lemmas that do not mention the generator. */
module Batch {
  import opened Stream
  import opened Sampling
  import opened Catalog
  import opened CaseEvents
  import opened Calendar

  /** The exceptions the generator can raise on its own inputs. */
  datatype Error =
    | UnknownFacility(id: string)          // KeyError from FACILITIES[facility_id]
    | EmptyVolumeRange(lo: int, hi: int)   // ValueError from randint(lo, hi) when lo > hi

  datatype Result<T> = Ok(value: T) | Err(error: Error)

  /** What every record promises on its own: the caller's generator id
      verbatim, an ASA class in 1..6, and timestamps in workflow order. */
  ghost predicate WellFormed(c: CaseEvent, generatorId: string) {
    c.sourceGeneratorId == generatorId && 1 <= c.asaClass <= 6 && Ordered(c.times)
  }

  /** The weights `_build_procedure_weights` appends, one per procedure of
      `ps`, in order. */
  function Biases(f: Facility, ps: seq<ProcedureDef>): (w: seq<real>)
    ensures |w| == |ps|
    ensures forall i :: 0 <= i < |ps| ==> w[i] == BiasFor(f, ps[i].serviceLine)
  {
    if |ps| == 0 then []
    else Biases(f, ps[..|ps| - 1]) + [BiasFor(f, ps[|ps| - 1].serviceLine)]
  }

  /** `_build_procedure_weights(facility_id)`: the whole catalog in order and
      a parallel list of the facility's bias per procedure. */
  function BuildProcedureWeights(facilityId: string): (r: Result<(seq<ProcedureDef>, seq<real>)>)
    ensures r.Err? <==> FindFacility(facilityId).None?
    ensures r.Err? ==> r.error == UnknownFacility(facilityId)
    ensures r.Ok? ==>
      var f := FindFacility(facilityId).value;
      && r.value.0 == PROCEDURES
      && |r.value.1| == |PROCEDURES|
      && forall i :: 0 <= i < |PROCEDURES| ==> r.value.1[i] == BiasFor(f, PROCEDURES[i].serviceLine)
  {
    match FindFacility(facilityId)
    case None => Err(UnknownFacility(facilityId))
    case Some(f) => Ok((PROCEDURES, Biases(f, PROCEDURES)))
  }

  /** The loop of `generate_day`: `n` cases, each a weighted procedure choice
      followed by `generate_case`. Every case is kept: `generate_case` always
      returns a record. */
  function GenerateCases(n: nat, facilityId: string, day: int, procs: seq<ProcedureDef>, weights: seq<real>,
                         rng: Rng, generatorId: string): (r: (seq<CaseEvent>, Rng))
    requires |procs| > 0
    ensures |r.0| == n
    ensures forall c :: c in r.0 ==>
      && c.facilityId == facilityId && c.day == day && WellFormed(c, generatorId)
      && exists p :: p in procs && p.procedureType == c.procedureType
    decreases n, 1
  {
    if n == 0 then ([], rng)
    else CaseThenRest(n, facilityId, day, procs, weights, rng, generatorId)
  }

  /** One iteration of that loop, then the remaining `n - 1`. */
  function CaseThenRest(n: nat, facilityId: string, day: int, procs: seq<ProcedureDef>, weights: seq<real>,
                        rng: Rng, generatorId: string): (r: (seq<CaseEvent>, Rng))
    requires |procs| > 0 && n > 0
    ensures |r.0| == n
    ensures forall c :: c in r.0 ==>
      && c.facilityId == facilityId && c.day == day && WellFormed(c, generatorId)
      && exists p :: p in procs && p.procedureType == c.procedureType
    decreases n, 0
  {
    var procedure := WeightedChoice(procs, weights, rng).0;
    var first := GenerateCase(facilityId, day, procedure, Ahead(rng, 1), generatorId);
    CaseWellFormed(facilityId, day, procedure, Ahead(rng, 1), generatorId);
    var rest := GenerateCases(n - 1, facilityId, day, procs, weights, first.1, generatorId);
    ([first.0] + rest.0, rest.1)
  }

  /** A generated case carries its facility, day and procedure, and is well
      formed. */
  lemma CaseWellFormed(facilityId: string, day: int, procedure: ProcedureDef, rng: Rng, generatorId: string)
    ensures var c := GenerateCase(facilityId, day, procedure, rng, generatorId).0;
      && c.facilityId == facilityId && c.day == day && c.procedureType == procedure.procedureType
      && WellFormed(c, generatorId)
  {
    GeneratedTimesOrdered(facilityId, day, procedure, rng, generatorId);
  }

  /** `generate_day(facility_id, date, rng, generator_id)`: the facility
      lookup, the volume draw, then that many cases. */
  function GenerateDay(facilityId: string, day: int, rng: Rng, generatorId: string): (r: Result<(seq<CaseEvent>, Rng)>)
    ensures FindFacility(facilityId).None? ==> r == Err(UnknownFacility(facilityId))
    ensures FindFacility(facilityId).Some? ==>
      var f := FindFacility(facilityId).value;
      && (r.Err? <==> f.volumeMax < f.volumeMin)
      && (r.Err? ==> r.error == EmptyVolumeRange(f.volumeMin, f.volumeMax))
      && (r.Ok? ==>
            && |r.value.0| == NextInt(rng, f.volumeMin, f.volumeMax).0
            && f.volumeMin <= |r.value.0| <= f.volumeMax)
    ensures r.Ok? ==> forall c :: c in r.value.0 ==> c.facilityId == facilityId && c.day == day && WellFormed(c, generatorId)
  {
    match FindFacility(facilityId)
    case None => Err(UnknownFacility(facilityId))
    case Some(f) =>
      if f.volumeMax < f.volumeMin then Err(EmptyVolumeRange(f.volumeMin, f.volumeMax))
      else
        var count := NextInt(rng, f.volumeMin, f.volumeMax).0;
        match BuildProcedureWeights(facilityId)
        case Err(e) => Err(e)
        case Ok(pw) =>
          ProcedureCount();
          Ok(GenerateCases(count, facilityId, day, pw.0, pw.1, Ahead(rng, 1), generatorId))
  }

  /** The facility ids in declaration order: `for facility_id in FACILITIES`. */
  function FacilityIds(fs: seq<Facility>): (ids: seq<string>)
    ensures |ids| == |fs| && forall i :: 0 <= i < |fs| ==> ids[i] == fs[i].id
  {
    if |fs| == 0 then [] else [fs[0].id] + FacilityIds(fs[1..])
  }

  /** The catalog's facility ids, in generation order. */
  const FACILITY_IDS: seq<string> := FacilityIds(FACILITIES)

  /** One day's cases for the facilities `ids`, in that order. */
  function DayAcross(ids: seq<string>, day: int, rng: Rng, generatorId: string): Result<(seq<CaseEvent>, Rng)>
    decreases |ids|
  {
    if |ids| == 0 then Ok(([], rng))
    else
      match GenerateDay(ids[0], day, rng, generatorId)
      case Err(e) => Err(e)
      case Ok(first) =>
        match DayAcross(ids[1..], day, first.1, generatorId)
        case Err(e) => Err(e)
        case Ok(rest) => Ok((first.0 + rest.0, rest.1))
  }

  /** The `while current <= end_date` loop of `generate_batch` from day
      `current`, flattened as it goes. Weekends (weekday 5 and 6) are
      skipped without a draw. */
  function BatchFrom(current: int, end: int, rng: Rng, generatorId: string): Result<(seq<CaseEvent>, Rng)>
    decreases end - current + 1
  {
    if end < current then Ok(([], rng))
    else if Weekday(current) < 5 then
      match DayAcross(FACILITY_IDS, current, rng, generatorId)
      case Err(e) => Err(e)
      case Ok(today) =>
        match BatchFrom(current + 1, end, today.1, generatorId)
        case Err(e) => Err(e)
        case Ok(later) => Ok((today.0 + later.0, later.1))
    else
      BatchFrom(current + 1, end, rng, generatorId)
  }

  /** `generate_batch(start_date, end_date, seed, generator_id)`, where
      `source` is the stream `random.Random(seed)` produces. */
  function GenerateBatch(startDay: int, endDay: int, source: Source, generatorId: string): Result<seq<CaseEvent>> {
    match BatchFrom(startDay, endDay, Rng(source, 0), generatorId)
    case Err(e) => Err(e)
    case Ok(all) => Ok(all.0)
  }

  // ---------------------------------------------------------------------
  // Order and size of the output, stated without the generator.

  /** Position of `id` in `ids`; `|ids|` when it is absent. */
  function IndexIn(ids: seq<string>, id: string): (k: nat)
    ensures k <= |ids|
    ensures k < |ids| <==> id in ids
    ensures k < |ids| ==> ids[k] == id
  {
    if |ids| == 0 then 0
    else if ids[0] == id then 0
    else 1 + IndexIn(ids[1..], id)
  }

  ghost predicate Distinct(ids: seq<string>) {
    forall i, j :: 0 <= i < j < |ids| ==> ids[i] != ids[j]
  }

  /** Within one day the cases come facility by facility, in the order of
      `ids`. */
  ghost predicate FacilityOrdered(cases: seq<CaseEvent>, ids: seq<string>) {
    forall i, j :: 0 <= i < j < |cases| ==> IndexIn(ids, cases[i].facilityId) <= IndexIn(ids, cases[j].facilityId)
  }

  /** The order of `generate_batch`'s output: by day, then by the position
      of the facility in `ids`. */
  ghost predicate BatchOrdered(cases: seq<CaseEvent>, ids: seq<string>) {
    forall i, j :: 0 <= i < j < |cases| ==>
      || cases[i].day < cases[j].day
      || (cases[i].day == cases[j].day && IndexIn(ids, cases[i].facilityId) <= IndexIn(ids, cases[j].facilityId))
  }

  /** The cases of the first facility, followed by those of the later ones
      in order, are in facility order. */
  lemma FacilityOrderedCons(first: seq<CaseEvent>, rest: seq<CaseEvent>, ids: seq<string>)
    requires |ids| > 0 && Distinct(ids)
    requires forall c :: c in first ==> c.facilityId == ids[0]
    requires forall c :: c in rest ==> c.facilityId in ids[1..]
    requires FacilityOrdered(rest, ids[1..])
    ensures FacilityOrdered(first + rest, ids)
  {
    forall c | c in rest
      ensures IndexIn(ids, c.facilityId) == 1 + IndexIn(ids[1..], c.facilityId)
    {
      var k := IndexIn(ids[1..], c.facilityId);
      assert ids[k + 1] == c.facilityId;
    }
    var all := first + rest;
    forall i, j | 0 <= i < j < |all|
      ensures IndexIn(ids, all[i].facilityId) <= IndexIn(ids, all[j].facilityId)
    {
      if i < |first| {
        assert all[i] in first;
      } else {
        assert all[i] == rest[i - |first|] && all[j] == rest[j - |first|];
        assert all[i] in rest && all[j] in rest;
      }
    }
  }

  /** One day's cases in facility order, followed by the later days in batch
      order, are in batch order. */
  lemma BatchOrderedCons(today: seq<CaseEvent>, later: seq<CaseEvent>, day: int, ids: seq<string>)
    requires forall c :: c in today ==> c.day == day
    requires FacilityOrdered(today, ids)
    requires forall c :: c in later ==> day < c.day
    requires BatchOrdered(later, ids)
    ensures BatchOrdered(today + later, ids)
  {
    var all := today + later;
    forall i, j | 0 <= i < j < |all|
      ensures || all[i].day < all[j].day
              || (all[i].day == all[j].day && IndexIn(ids, all[i].facilityId) <= IndexIn(ids, all[j].facilityId))
    {
      if j < |today| {
        assert all[i] == today[i] && all[j] == today[j];
      } else if i < |today| {
        assert all[i] in today && all[j] == later[j - |today|];
        assert all[j] in later;
      } else {
        assert all[i] == later[i - |today|] && all[j] == later[j - |today|];
      }
    }
  }

  /** A weekday's cases followed by those of the later days of the range
      lie in the range, on weekdays, and are well formed. */
  lemma DaysCons(today: seq<CaseEvent>, later: seq<CaseEvent>, current: int, end: int, generatorId: string)
    requires current <= end && Weekday(current) < 5
    requires forall c :: c in today ==> c.day == current && WellFormed(c, generatorId)
    requires forall c :: c in later ==> current + 1 <= c.day <= end && Weekday(c.day) < 5 && WellFormed(c, generatorId)
    ensures forall c :: c in today + later ==> current <= c.day <= end && Weekday(c.day) < 5 && WellFormed(c, generatorId)
  {
  }

  /** The size bounds of a range grow by one weekday's. */
  lemma SizeStep(n: int, m: int, current: int, end: int)
    requires current <= end && Weekday(current) < 5
    requires 150 <= n <= 270
    requires 150 * Weekdays(current + 1, end) <= m <= 270 * Weekdays(current + 1, end)
    ensures 150 * Weekdays(current, end) <= n + m <= 270 * Weekdays(current, end)
  {
  }

  /** The number of weekdays (Monday to Friday) from `current` to `end`,
      both included. */
  function Weekdays(current: int, end: int): nat
    decreases end - current + 1
  {
    if end < current then 0
    else (if Weekday(current) < 5 then 1 else 0) + Weekdays(current + 1, end)
  }

  /** The facilities `generate_day` accepts: known ids with a non-empty
      volume range. */
  ghost predicate Runnable(ids: seq<string>) {
    forall k :: 0 <= k < |ids| ==>
      FindFacility(ids[k]).Some? && FindFacility(ids[k]).value.volumeMin <= FindFacility(ids[k]).value.volumeMax
  }

  /** The least and the greatest number of cases a day can have over the
      facilities `ids`. */
  function MinVolume(ids: seq<string>): int {
    if |ids| == 0 then 0
    else (match FindFacility(ids[0]) case Some(f) => f.volumeMin case None => 0) + MinVolume(ids[1..])
  }

  function MaxVolume(ids: seq<string>): int {
    if |ids| == 0 then 0
    else (match FindFacility(ids[0]) case Some(f) => f.volumeMax case None => 0) + MaxVolume(ids[1..])
  }

  /** The catalog's facility ids, in order. */
  lemma CatalogFacilityIds()
    ensures FACILITY_IDS == ["HOSP_A", "HOSP_B", "HOSP_C"]
  {
    assert FACILITIES == [FacilityAt(0), FacilityAt(1), FacilityAt(2)];
  }

  /** Every catalog facility is found by its id and has a non-empty volume
      range; the ids are distinct. */
  lemma CatalogFacilitiesRunnable()
    ensures Distinct(FACILITY_IDS) && Runnable(FACILITY_IDS)
  {
    CatalogFacilityIds();
    assert FindFacility("HOSP_A") == Some(FacilityAt(0));
    assert FindFacility("HOSP_B") == Some(FacilityAt(1));
    assert FindFacility("HOSP_C") == Some(FacilityAt(2));
  }

  /** A weekday has between 150 and 270 cases over the catalog. */
  lemma CatalogDailyTotals()
    ensures MinVolume(FACILITY_IDS) == 150 && MaxVolume(FACILITY_IDS) == 270
  {
    CatalogFacilityIds();
    var ids := FACILITY_IDS;
    assert FindFacility("HOSP_A") == Some(FacilityAt(0));
    assert FindFacility("HOSP_B") == Some(FacilityAt(1));
    assert FindFacility("HOSP_C") == Some(FacilityAt(2));
    assert ids[1..] == ["HOSP_B", "HOSP_C"] && ids[1..][1..] == ["HOSP_C"] && ids[1..][1..][1..] == [];
    assert MinVolume(["HOSP_C"]) == 50 && MaxVolume(["HOSP_C"]) == 90;
    assert MinVolume(["HOSP_B", "HOSP_C"]) == 90 && MaxVolume(["HOSP_B", "HOSP_C"]) == 170;
  }

  // ---------------------------------------------------------------------
  // One day across facilities.

  /** Every case of a day is for one of the facilities, on that day, and
      well formed. */
  lemma {:induction false} DayAcrossFacts(ids: seq<string>, day: int, rng: Rng, generatorId: string)
    ensures var r := DayAcross(ids, day, rng, generatorId);
      r.Ok? ==> forall c :: c in r.value.0 ==> c.facilityId in ids && c.day == day && WellFormed(c, generatorId)
    decreases |ids|
  {
    if |ids| > 0 {
      match GenerateDay(ids[0], day, rng, generatorId)
      case Err(_) =>
      case Ok(first) =>
        DayAcrossFacts(ids[1..], day, first.1, generatorId);
    }
  }

  /** Over facilities `generate_day` accepts, a day never fails, and its
      size is between the sums of their volume bounds. */
  lemma {:induction false} DayAcrossOk(ids: seq<string>, day: int, rng: Rng, generatorId: string)
    requires Runnable(ids)
    ensures var r := DayAcross(ids, day, rng, generatorId);
      r.Ok? && MinVolume(ids) <= |r.value.0| <= MaxVolume(ids)
    decreases |ids|
  {
    if |ids| > 0 {
      var first := GenerateDay(ids[0], day, rng, generatorId);
      assert first.Ok?;
      assert Runnable(ids[1..]) by {
        forall k | 0 <= k < |ids[1..]| ensures ids[1..][k] == ids[k + 1] {}
      }
      DayAcrossOk(ids[1..], day, first.value.1, generatorId);
    }
  }

  /** A day's cases come facility by facility, in the order of `ids`. */
  lemma {:induction false} DayAcrossOrdered(ids: seq<string>, day: int, rng: Rng, generatorId: string)
    requires Distinct(ids)
    ensures var r := DayAcross(ids, day, rng, generatorId);
      r.Ok? ==> FacilityOrdered(r.value.0, ids)
    decreases |ids|
  {
    if |ids| > 0 {
      var first := GenerateDay(ids[0], day, rng, generatorId);
      if first.Ok? {
        var rest := DayAcross(ids[1..], day, first.value.1, generatorId);
        DayAcrossOrdered(ids[1..], day, first.value.1, generatorId);
        if rest.Ok? {
          DayAcrossFacts(ids[1..], day, first.value.1, generatorId);
          FacilityOrderedCons(first.value.0, rest.value.0, ids);
        }
      }
    }
  }

  // ---------------------------------------------------------------------
  // A range of days.

  /** Every case of the range is on a weekday inside it, and well formed. */
  lemma {:induction false} BatchFromDays(current: int, end: int, rng: Rng, generatorId: string)
    ensures var r := BatchFrom(current, end, rng, generatorId);
      r.Ok? ==> forall c :: c in r.value.0 ==> current <= c.day <= end && Weekday(c.day) < 5 && WellFormed(c, generatorId)
    decreases end - current + 1
  {
    if current <= end {
      var today := DayAcross(FACILITY_IDS, current, rng, generatorId);
      if Weekday(current) < 5 && today.Ok? {
        var later := BatchFrom(current + 1, end, today.value.1, generatorId);
        DayAcrossFacts(FACILITY_IDS, current, rng, generatorId);
        BatchFromDays(current + 1, end, today.value.1, generatorId);
        if later.Ok? {
          DaysCons(today.value.0, later.value.0, current, end, generatorId);
        }
      } else if Weekday(current) >= 5 {
        BatchFromDays(current + 1, end, rng, generatorId);
      }
    }
  }

  /** Over the catalog the range never fails, and each weekday in it adds
      between 150 and 270 cases. */
  lemma {:induction false} BatchFromOk(current: int, end: int, rng: Rng, generatorId: string)
    ensures var r := BatchFrom(current, end, rng, generatorId);
      r.Ok? && 150 * Weekdays(current, end) <= |r.value.0| <= 270 * Weekdays(current, end)
    decreases end - current + 1
  {
    if current <= end {
      if Weekday(current) < 5 {
        CatalogFacilitiesRunnable();
        CatalogDailyTotals();
        DayAcrossOk(FACILITY_IDS, current, rng, generatorId);
        var today := DayAcross(FACILITY_IDS, current, rng, generatorId).value;
        BatchFromOk(current + 1, end, today.1, generatorId);
        var later := BatchFrom(current + 1, end, today.1, generatorId).value;
        SizeStep(|today.0|, |later.0|, current, end);
      } else {
        BatchFromOk(current + 1, end, rng, generatorId);
      }
    }
  }

  /** The range's cases are in order of day, then of facility. */
  lemma {:induction false} BatchFromOrdered(current: int, end: int, rng: Rng, generatorId: string)
    ensures var r := BatchFrom(current, end, rng, generatorId);
      r.Ok? ==> BatchOrdered(r.value.0, FACILITY_IDS)
    decreases end - current + 1
  {
    if current <= end {
      var today := DayAcross(FACILITY_IDS, current, rng, generatorId);
      if Weekday(current) < 5 && today.Ok? {
        var later := BatchFrom(current + 1, end, today.value.1, generatorId);
        BatchFromOrdered(current + 1, end, today.value.1, generatorId);
        if later.Ok? {
          CatalogFacilitiesRunnable();
          DayAcrossOrdered(FACILITY_IDS, current, rng, generatorId);
          DayAcrossFacts(FACILITY_IDS, current, rng, generatorId);
          BatchFromDays(current + 1, end, today.value.1, generatorId);
          BatchOrderedCons(today.value.0, later.value.0, current, FACILITY_IDS);
        }
      } else if Weekday(current) >= 5 {
        BatchFromOrdered(current + 1, end, rng, generatorId);
      }
    }
  }

  /** A range without a weekday yields no case and draws nothing. */
  lemma {:induction false} NoWeekdayNoCases(current: int, end: int, rng: Rng, generatorId: string)
    requires Weekdays(current, end) == 0
    ensures BatchFrom(current, end, rng, generatorId) == Ok(([], rng))
    decreases end - current + 1
  {
    if current <= end {
      NoWeekdayNoCases(current + 1, end, rng, generatorId);
    }
  }

  /** A range has no weekday exactly when every day in it falls on a
      weekend. */
  lemma {:induction false} NoWeekdayMeansWeekend(current: int, end: int)
    ensures Weekdays(current, end) == 0 <==> forall d :: current <= d <= end ==> Weekday(d) >= 5
    decreases end - current + 1
  {
    if current <= end {
      NoWeekdayMeansWeekend(current + 1, end);
    }
  }

  // ---------------------------------------------------------------------
  // generate_batch.

  /** `generate_batch` never fails over the catalog, and each weekday of the
      range adds between 150 and 270 cases. */
  lemma GenerateBatchSize(startDay: int, endDay: int, source: Source, generatorId: string)
    ensures var r := GenerateBatch(startDay, endDay, source, generatorId);
      r.Ok? && 150 * Weekdays(startDay, endDay) <= |r.value| <= 270 * Weekdays(startDay, endDay)
  {
    BatchFromOk(startDay, endDay, Rng(source, 0), generatorId);
  }

  /** Every generated case lies in the inclusive range, on a weekday, and
      carries the caller's generator id, an ASA class in 1..6 and ordered
      timestamps. */
  lemma GenerateBatchDays(startDay: int, endDay: int, source: Source, generatorId: string)
    ensures var r := GenerateBatch(startDay, endDay, source, generatorId);
      r.Ok? ==> forall c :: c in r.value ==> startDay <= c.day <= endDay && Weekday(c.day) < 5 && WellFormed(c, generatorId)
  {
    BatchFromDays(startDay, endDay, Rng(source, 0), generatorId);
  }

  /** The batch is in order of day, then of the facility's place in
      `FACILITIES`. */
  lemma GenerateBatchOrdered(startDay: int, endDay: int, source: Source, generatorId: string)
    ensures var r := GenerateBatch(startDay, endDay, source, generatorId);
      r.Ok? ==> BatchOrdered(r.value, FACILITY_IDS)
  {
    BatchFromOrdered(startDay, endDay, Rng(source, 0), generatorId);
  }

  /** A range of weekend days only (or an empty range) gives an empty
      batch. */
  lemma WeekendBatchEmpty(startDay: int, endDay: int, source: Source, generatorId: string)
    requires forall d :: startDay <= d <= endDay ==> Weekday(d) >= 5
    ensures GenerateBatch(startDay, endDay, source, generatorId) == Ok([])
  {
    NoWeekdayMeansWeekend(startDay, endDay);
    NoWeekdayNoCases(startDay, endDay, Rng(source, 0), generatorId);
  }

  /** Saturday 2025-01-11 to Sunday 2025-01-12 gives no case. */
  lemma WeekendOfJanuary11(source: Source, generatorId: string)
    ensures GenerateBatch(DayNumber(2025, 1, 11), DayNumber(2025, 1, 12), source, generatorId) == Ok([])
  {
    KnownDays();
    WeekendBatchEmpty(20099, 20100, source, generatorId);
  }
}
