/** One synthetic outpatient case: its check-in time, four sampled phase
    durations, the timestamp cascade, the status roll with its rare-event
    branches, ASA class, anesthesia type and event identifier, all drawn in
    a fixed order from one stream. Timestamps are real minutes after
    midnight of the case's day. */
module CaseEvents {
  import opened Stream
  import opened Sampling
  import opened Catalog

  /** Check-in weight of hour `h`: none overnight, a peak at 7 and 8. */
  function HourWeight(h: int): (w: real)
    ensures w >= 0.0
    ensures w > 0.0 <==> 5 <= h <= 17
  {
    match h
    case 5 => 0.5
    case 6 => 3.0
    case 7 => 5.0
    case 8 => 5.0
    case 9 => 4.0
    case 10 => 3.0
    case 11 => 2.5
    case 12 => 2.0
    case 13 => 2.0
    case 14 => 1.5
    case 15 => 1.0
    case 16 => 0.5
    case 17 => 0.2
    case _ => 0.0
  }

  /** The 24 hourly check-in weights, hour 0 first. */
  const CHECKIN_HOUR_WEIGHTS: seq<real> := seq(24, HourWeight)

  /** `list(range(24))`. */
  const HOURS: seq<int> := seq(24, h => h)

  const ASA_CLASSES: seq<int> := [1, 2, 3, 4, 5, 6]
  const ASA_WEIGHTS: seq<real> := [0.15, 0.40, 0.30, 0.12, 0.02, 0.01]

  /** Cumulative thresholds of the status roll, applied in this order. */
  const CANCELED_BELOW: real := 0.02
  const CONVERTED_BELOW: real := 0.03
  const DELAYED_BELOW: real := 0.06

  datatype Status = Completed | Canceled | ConvertedToInpatient | Delayed

  /** The `case_status` string written for each status. */
  function StatusName(s: Status): string {
    match s
    case Completed => "completed"
    case Canceled => "canceled"
    case ConvertedToInpatient => "converted_to_inpatient"
    case Delayed => "delayed"
  }

  /** The roll's interval determines the `case_status` string, and distinct
      statuses are written as distinct strings. */
  lemma StatusNames(roll: real)
    ensures StatusName(StatusOf(roll)) == "canceled" <==> roll < CANCELED_BELOW
    ensures StatusName(StatusOf(roll)) == "converted_to_inpatient" <==> CANCELED_BELOW <= roll < CONVERTED_BELOW
    ensures StatusName(StatusOf(roll)) == "delayed" <==> CONVERTED_BELOW <= roll < DELAYED_BELOW
    ensures StatusName(StatusOf(roll)) == "completed" <==> DELAYED_BELOW <= roll
    ensures forall s, t :: s != t ==> StatusName(s) != StatusName(t)
  {
  }

  /** The five workflow timestamps of a case. */
  datatype Timeline = Timeline(checkin: real, preop: real, op: real, postop: real, discharge: real)

  /** The four sampled phase durations, in minutes. */
  datatype Durations = Durations(
    checkinToPreop: real, preopToOp: real, opToPostop: real, postopToDischarge: real)

  /** `uuid.UUID(int=drawn, version=4)`: the identifier built from a 128-bit
      draw. Its integer value is `UuidValue`. */
  datatype Uuid = Uuid4(drawn: bv128)

  /** A generated event record. */
  datatype CaseEvent = CaseEvent(
    eventId: Uuid,
    facilityId: string,
    procedureType: string,
    day: int,
    scheduledStart: real,
    times: Timeline,
    anesthesiaType: string,
    asaClass: int,
    status: Status,
    sourceGeneratorId: string)

  /** Which branch a status roll selects. The cumulative thresholds cut
      [0, 1) into four disjoint intervals. */
  function StatusOf(roll: real): (s: Status)
    ensures s == Canceled <==> roll < 0.02
    ensures s == ConvertedToInpatient <==> 0.02 <= roll < 0.03
    ensures s == Delayed <==> 0.03 <= roll < 0.06
    ensures s == Completed <==> 0.06 <= roll
  {
    if roll < CANCELED_BELOW then Canceled
    else if roll < CONVERTED_BELOW then ConvertedToInpatient
    else if roll < DELAYED_BELOW then Delayed
    else Completed
  }

  /** Check-in as minutes after midnight: a weighted hour, then a uniform
      minute and second. */
  function CheckinTime(rng: Rng): (r: (real, Rng))
    ensures 0.0 <= r.0 < 1440.0
    ensures 300.0 <= r.0 < 1080.0 || (r.0 < 60.0 && rng.source.uniform(rng.pos) == 0.0)
    ensures r.1 == Ahead(rng, 3)
  {
    var hour := WeightedChoice(HOURS, CHECKIN_HOUR_WEIGHTS, rng).0;
    var u: real := rng.source.uniform(rng.pos);
    CheckinHourWindow(u);
    var i := ChosenIndex(CHECKIN_HOUR_WEIGHTS, |HOURS|, Threshold(CHECKIN_HOUR_WEIGHTS, u));
    assert hour == HOURS[i];
    assert |HOURS| == 24 && HOURS[i] == i;
    assert 5 <= hour <= 17 || (hour == 0 && u == 0.0);
    var minute := NextInt(Ahead(rng, 1), 0, 59).0;
    var second := NextInt(Ahead(rng, 2), 0, 59).0;
    (CheckinMinutes(hour, minute, second), Ahead(rng, 3))
  }

  /** Minutes after midnight of `hour:minute:second`. */
  function CheckinMinutes(hour: int, minute: int, second: int): (m: real)
    requires 0 <= minute < 60 && 0 <= second < 60
    ensures hour as real * 60.0 <= m < hour as real * 60.0 + 60.0
  {
    (hour * 60 + minute) as real + second as real / 60.0
  }

  /** The chosen check-in hour has positive weight, so it lies in 5..17,
      unless the draw is exactly 0 and the zero-weight hour 0 is chosen. */
  lemma CheckinHourWindow(u: real)
    requires 0.0 <= u < 1.0
    ensures var i := ChosenIndex(CHECKIN_HOUR_WEIGHTS, 24, Threshold(CHECKIN_HOUR_WEIGHTS, u));
      5 <= i <= 17 || (i == 0 && u == 0.0)
  {
    CheckinWeightsShape();
    PositiveWeightChosen(CHECKIN_HOUR_WEIGHTS, u);
  }

  /** Hours 5 to 17 carry weight, the rest none, and the total is positive. */
  lemma CheckinWeightsShape()
    ensures |CHECKIN_HOUR_WEIGHTS| == 24 && NonNegative(CHECKIN_HOUR_WEIGHTS)
    ensures forall h :: 0 <= h < 24 && CHECKIN_HOUR_WEIGHTS[h] > 0.0 ==> 5 <= h <= 17
    ensures Sum(CHECKIN_HOUR_WEIGHTS) > 0.0
  {
    var w := CHECKIN_HOUR_WEIGHTS;
    assert forall h :: 0 <= h < 24 ==> w[h] == HourWeight(h);
    PrefixMonotone(w, 0, 7);
    PrefixMonotone(w, 8, 24);
    assert Prefix(w, 8) == Prefix(w, 7) + w[7];
  }

  /** The timeline before the status branch: each phase starts when the
      previous one ends. */
  function Cascade(checkin: real, d: Durations): (t: Timeline)
    ensures Cascades(t, d) && t.checkin == checkin
  {
    var preop := checkin + d.checkinToPreop;
    var op := preop + d.preopToOp;
    var postop := op + d.opToPostop;
    Timeline(checkin, preop, op, postop, postop + d.postopToDischarge)
  }

  /** Each gap of `t` is the corresponding duration. */
  ghost predicate Cascades(t: Timeline, d: Durations) {
    && t.preop - t.checkin == d.checkinToPreop
    && t.op - t.preop == d.preopToOp
    && t.postop - t.op == d.opToPostop
    && t.discharge - t.postop == d.postopToDischarge
  }

  ghost predicate Ordered(t: Timeline) {
    t.checkin <= t.preop <= t.op <= t.postop <= t.discharge
  }

  ghost predicate InRange(d: Durations) {
    && MIN_MINUTES <= d.checkinToPreop <= MAX_MINUTES
    && MIN_MINUTES <= d.preopToOp <= MAX_MINUTES
    && MIN_MINUTES <= d.opToPostop <= MAX_MINUTES
    && MIN_MINUTES <= d.postopToDischarge <= MAX_MINUTES
  }

  /** The four durations are the clamped log-normal draws of the procedure's
      phases, taken from four consecutive stream positions. */
  function SampleDurations(p: ProcedureDef, rng: Rng): (r: (Durations, Rng))
    ensures InRange(r.0)
    ensures ClampedDraw(r.0.checkinToPreop, p.checkinToPreop.mu, p.checkinToPreop.sigma, rng, MIN_MINUTES, MAX_MINUTES)
    ensures ClampedDraw(r.0.preopToOp, p.preopToOp.mu, p.preopToOp.sigma, Ahead(rng, 1), MIN_MINUTES, MAX_MINUTES)
    ensures ClampedDraw(r.0.opToPostop, p.opToPostop.mu, p.opToPostop.sigma, Ahead(rng, 2), MIN_MINUTES, MAX_MINUTES)
    ensures ClampedDraw(r.0.postopToDischarge, p.postopToDischarge.mu, p.postopToDischarge.sigma, Ahead(rng, 3), MIN_MINUTES, MAX_MINUTES)
    ensures r.1 == Ahead(rng, 4)
  {
    var d1 := SampleLognormal(p.checkinToPreop.mu, p.checkinToPreop.sigma, rng, MIN_MINUTES, MAX_MINUTES).0;
    var d2 := SampleLognormal(p.preopToOp.mu, p.preopToOp.sigma, Ahead(rng, 1), MIN_MINUTES, MAX_MINUTES).0;
    var d3 := SampleLognormal(p.opToPostop.mu, p.opToPostop.sigma, Ahead(rng, 2), MIN_MINUTES, MAX_MINUTES).0;
    var d4 := SampleLognormal(p.postopToDischarge.mu, p.postopToDischarge.sigma, Ahead(rng, 3), MIN_MINUTES, MAX_MINUTES).0;
    (Durations(d1, d2, d3, d4), Ahead(rng, 4))
  }

  /** How the timeline `t` of a case with status `s` relates to the
      cascade `base` of its durations `d`. */
  ghost predicate FollowsStatus(s: Status, base: Timeline, d: Durations, t: Timeline) {
    && t.checkin == base.checkin
    && match s
       case Completed => t == base
       case Canceled =>
         && t.op == t.preop && t.postop == t.preop
         && 5.0 <= t.preop - t.checkin < 20.0
         && 10.0 <= t.discharge - t.preop < 30.0
       case ConvertedToInpatient =>
         && t.preop == base.preop && t.op == base.op && t.postop == base.postop
         && 2.0 * d.postopToDischarge <= t.discharge - t.postop < 5.0 * d.postopToDischarge
       case Delayed =>
         && t.preop == base.preop
         && 15.0 <= t.op - base.op < 90.0
         && t.postop - t.op == d.opToPostop
         && t.discharge - t.postop == d.postopToDischarge
  }

  /** `d4 * rng.uniform(2.0, 5.0)`: a conversion's stretched recovery. */
  function ExtendedStay(d4: real, rng: Rng): (r: real)
    requires 0.0 < d4
    ensures 2.0 * d4 <= r < 5.0 * d4
  {
    var factor := NextBetween(rng, 2.0, 5.0).0;
    StretchBounds(d4, factor);
    d4 * factor
  }

  lemma StretchBounds(d: real, f: real)
    requires 0.0 < d && 2.0 <= f < 5.0
    ensures 2.0 * d <= d * f < 5.0 * d
  {
    assert d * (f - 2.0) >= 0.0;
    assert d * (5.0 - f) > 0.0;
  }

  /** The rare-event branch of `generate_case` for status `StatusOf(roll)`,
      with the uniform draws that branch takes. */
  function ResolveStatus(roll: real, base: Timeline, d: Durations, rng: Rng): (r: (Status, Timeline, Rng))
    requires InRange(d) && Cascades(base, d)
    ensures r.0 == StatusOf(roll)
    ensures FollowsStatus(r.0, base, d, r.1)
    ensures r.2.source == rng.source
    ensures r.2.pos == rng.pos + (match r.0 case Canceled => 2 case Completed => 0 case _ => 1)
  {
    if roll < CANCELED_BELOW then
      var wait := NextBetween(rng, 5.0, 20.0).0;
      var stay := NextBetween(Ahead(rng, 1), 10.0, 30.0).0;
      var preop := base.checkin + wait;
      (Canceled, Timeline(base.checkin, preop, preop, preop, preop + stay), Ahead(rng, 2))
    else if roll < CONVERTED_BELOW then
      var extended := ExtendedStay(d.postopToDischarge, rng);
      (ConvertedToInpatient, base.(discharge := base.postop + extended), Ahead(rng, 1))
    else if roll < DELAYED_BELOW then
      var delay := NextBetween(rng, 15.0, 90.0).0;
      var op := base.op + delay;
      var postop := op + d.opToPostop;
      (Delayed, base.(op := op, postop := postop, discharge := postop + d.postopToDischarge), Ahead(rng, 1))
    else
      (Completed, base, rng)
  }

  /** Whatever the status, the timestamps never run backwards. */
  lemma StatusKeepsOrder(s: Status, base: Timeline, d: Durations, t: Timeline)
    requires InRange(d) && Cascades(base, d) && FollowsStatus(s, base, d, t)
    ensures Ordered(t)
  {
  }

  function Kinds(cs: seq<AnesthesiaChoice>): (r: seq<string>)
    ensures |r| == |cs| && forall i :: 0 <= i < |cs| ==> r[i] == cs[i].kind
  {
    seq(|cs|, i requires 0 <= i < |cs| => cs[i].kind)
  }

  function Weights(cs: seq<AnesthesiaChoice>): (r: seq<real>)
    ensures |r| == |cs| && forall i :: 0 <= i < |cs| ==> r[i] == cs[i].weight
  {
    seq(|cs|, i requires 0 <= i < |cs| => cs[i].weight)
  }

  /** `_pick_anesthesia`: a weighted choice among the service line's
      anesthesia types, or "General" for a line without a table entry. */
  function PickAnesthesia(line: string, rng: Rng): (r: (string, Rng))
    ensures r.0 in Kinds(AnesthesiaChoices(line))
    ensures HasAnesthesia(line) ==> exists c :: c in AnesthesiaChoices(line) && c.kind == r.0
    ensures !HasAnesthesia(line) ==> r.0 == "General"
    ensures r.1 == Ahead(rng, 1)
  {
    var choices := AnesthesiaChoices(line);
    var kind := WeightedChoice(Kinds(choices), Weights(choices), rng).0;
    var i :| 0 <= i < |choices| && Kinds(choices)[i] == kind;
    assert choices[i].kind == kind;
    (kind, Ahead(rng, 1))
  }

  /** The UUID fields that `version=4` overwrites (section 4.1 of RFC 4122):
      the two variant bits, 62 and 63, and the version nibble, bits 76 to 79. */
  const VARIANT_MASK: bv128 := 0xc000_0000_0000_0000
  const VARIANT_RFC4122: bv128 := 0x8000_0000_0000_0000
  const VERSION_MASK: bv128 := 0xf000_0000_0000_0000_0000
  const VERSION_4: bv128 := 0x4000_0000_0000_0000_0000
  /** The 122 bits the draw passes through unchanged: all but the above. */
  const FREE_BITS: bv128 := 0xffff_ffff_ffff_0fff_3fff_ffff_ffff_ffff

  /** The integer value of `uuid.UUID(int=bits, version=4)`: clear and set
      the variant, then clear and set the version. */
  function UuidValue(id: Uuid): (v: bv128)
    ensures v & VERSION_MASK == VERSION_4
    ensures v & VARIANT_MASK == VARIANT_RFC4122
    ensures v & FREE_BITS == id.drawn & FREE_BITS
  {
    var variant := (id.drawn & !VARIANT_MASK) | VARIANT_RFC4122;
    (variant & !VERSION_MASK) | VERSION_4
  }

  /** The free bits are exactly those outside the variant and version. */
  lemma FreeBitsAreUnstamped()
    ensures FREE_BITS == !(VARIANT_MASK | VERSION_MASK)
  {
  }

  /** Two draws give the same identifier exactly when they agree on the
      free bits. */
  lemma UuidCollides(a: bv128, b: bv128)
    ensures UuidValue(Uuid4(a)) == UuidValue(Uuid4(b)) <==> a & FREE_BITS == b & FREE_BITS
  {
    if a & FREE_BITS == b & FREE_BITS {
      SameFreeBitsSameId(a, b);
    }
  }

  lemma SameFreeBitsSameId(a: bv128, b: bv128)
    requires a & FREE_BITS == b & FREE_BITS
    ensures UuidValue(Uuid4(a)) == UuidValue(Uuid4(b))
  {
  }

  /** Number of draws a case takes: nine before the status roll and three
      after it, plus those of its branch. */
  function DrawCount(s: Status): (n: nat)
    ensures 12 <= n <= 14
  {
    match s
    case Canceled => 14
    case Completed => 12
    case _ => 13
  }

  /** The timing part of a case: its timeline, scheduled start and status,
      drawn from the check-in through the status branch. */
  datatype Draft = Draft(times: Timeline, scheduledStart: real, status: Status)

  /** What the timing draws promise about a case drawn from `rng`: check-in
      in the clinic window, the status the roll at position 8 selects, the
      timeline its branch derives from the cascade of the sampled
      durations, and a scheduled start off the operation start by ten times
      the Gaussian deviate at position 7. */
  ghost predicate TimingFits(t: Timeline, scheduledStart: real, status: Status, procedure: ProcedureDef, rng: Rng) {
    var d := SampleDurations(procedure, Ahead(rng, 3)).0;
    var base := Cascade(t.checkin, d);
    && (300.0 <= t.checkin < 1080.0 || (t.checkin < 60.0 && rng.source.uniform(rng.pos) == 0.0))
    && status == StatusOf(rng.source.uniform(rng.pos + 8))
    && FollowsStatus(status, base, d, t)
    && base.op - scheduledStart == 10.0 * rng.source.gaussian(rng.pos + 7)
  }

  /** The draws of `generate_case` up to the status branch: hour, minute,
      second, the four durations, the schedule offset, the status roll and
      the branch's own draws. */
  function DraftCase(procedure: ProcedureDef, rng: Rng): (r: (Draft, Rng))
    ensures TimingFits(r.0.times, r.0.scheduledStart, r.0.status, procedure, rng)
    ensures r.1 == Ahead(rng, DrawCount(r.0.status) - 3)
  {
    var checkin := CheckinTime(rng).0;
    var d := SampleDurations(procedure, Ahead(rng, 3)).0;
    var base := Cascade(checkin, d);
    var offset := NextGauss(Ahead(rng, 7), 0.0, 10.0).0;
    var roll := NextUniform(Ahead(rng, 8)).0;
    var resolved := ResolveStatus(roll, base, d, Ahead(rng, 9));
    (Draft(resolved.1, base.op - offset, resolved.0), resolved.2)
  }

  /** The draws of `generate_case` after the status branch. */
  datatype Tail = Tail(asaClass: int, anesthesiaType: string, eventId: Uuid)

  /** ASA class, anesthesia type and the 128 identifier bits, one draw each. */
  function CaseTail(line: string, rng: Rng): (r: (Tail, Rng))
    ensures 1 <= r.0.asaClass <= 6
    ensures r.0.anesthesiaType in Kinds(AnesthesiaChoices(line))
    ensures r.0.eventId == Uuid4(rng.source.bits(rng.pos + 2))
    ensures r.1 == Ahead(rng, 3)
  {
    var asa := WeightedChoice(ASA_CLASSES, ASA_WEIGHTS, rng).0;
    var anesthesia := PickAnesthesia(line, Ahead(rng, 1)).0;
    var bits := NextBits128(Ahead(rng, 2)).0;
    (Tail(asa, anesthesia, Uuid4(bits)), Ahead(rng, 3))
  }

  /** `generate_case(facility_id, base_date, procedure, rng, generator_id)`:
      the timing draws of `DraftCase`, then those of `CaseTail`. */
  function GenerateCase(facilityId: string, day: int, procedure: ProcedureDef, rng: Rng, generatorId: string): (r: (CaseEvent, Rng))
    ensures r.0.facilityId == facilityId && r.0.sourceGeneratorId == generatorId
    ensures r.0.procedureType == procedure.procedureType && r.0.day == day
    ensures 1 <= r.0.asaClass <= 6
    ensures r.0.anesthesiaType in Kinds(AnesthesiaChoices(procedure.serviceLine))
  {
    var draft := DraftCase(procedure, rng);
    var tail := CaseTail(procedure.serviceLine, draft.1);
    (CaseEvent(tail.0.eventId, facilityId, procedure.procedureType, day, draft.0.scheduledStart, draft.0.times,
               tail.0.anesthesiaType, tail.0.asaClass, draft.0.status, generatorId), tail.1)
  }

  /** The timing of a generated case is the one its draws promise, and the
      case consumes the draws of its status; its identifier is built from
      the last of them. */
  lemma CaseDraws(facilityId: string, day: int, procedure: ProcedureDef, rng: Rng, generatorId: string)
    ensures var r := GenerateCase(facilityId, day, procedure, rng, generatorId);
      && TimingFits(r.0.times, r.0.scheduledStart, r.0.status, procedure, rng)
      && r.1 == Ahead(rng, DrawCount(r.0.status))
      && r.0.eventId == Uuid4(rng.source.bits(r.1.pos - 1))
  {
  }

  /** Every generated case has its timestamps in workflow order, and a
      completed case's gaps are exactly its four sampled durations. */
  lemma GeneratedTimesOrdered(facilityId: string, day: int, procedure: ProcedureDef, rng: Rng, generatorId: string)
    ensures var c := GenerateCase(facilityId, day, procedure, rng, generatorId).0;
      && Ordered(c.times)
      && (c.status == Completed ==> Cascades(c.times, SampleDurations(procedure, Ahead(rng, 3)).0))
  {
    CaseDraws(facilityId, day, procedure, rng, generatorId);
    var c := GenerateCase(facilityId, day, procedure, rng, generatorId).0;
    var d := SampleDurations(procedure, Ahead(rng, 3)).0;
    StatusKeepsOrder(c.status, Cascade(c.times.checkin, d), d, c.times);
  }

  /** The scheduled start is taken from the operation start before any
      delay: in a delayed case the operation starts 15 to 90 minutes after
      the scheduled start plus its schedule offset. */
  lemma ScheduleBeforeDelay(facilityId: string, day: int, procedure: ProcedureDef, rng: Rng, generatorId: string)
    ensures var c := GenerateCase(facilityId, day, procedure, rng, generatorId).0;
      var offset := 10.0 * rng.source.gaussian(rng.pos + 7);
      && (c.status == Delayed ==> 15.0 <= c.times.op - (c.scheduledStart + offset) < 90.0)
      && (c.status != Delayed && c.status != Canceled ==> c.times.op == c.scheduledStart + offset)
  {
    CaseDraws(facilityId, day, procedure, rng, generatorId);
  }
}
