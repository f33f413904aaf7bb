/** internal/loader/parser.go: the ordered validation rules R1 to R9, and what they
    guarantee of an accepted trip. */
module Parser {
  import opened Wrappers
  import opened Trips

  const SECOND: int := 1_000_000_000
  const HOUR: int := 3600 * SECOND
  const DAY: int := 24 * HOUR

  /** 2015-01-01 and 2015-02-01, in nanoseconds since the former, a Thursday. */
  const PICKUP_MIN: int := 0
  const PICKUP_MAX: int := 31 * DAY
  const FIRST_WEEKDAY: int := 4

  /** The typed fields of a line; times are nanoseconds since PICKUP_MIN. */
  datatype Fields = Fields(pickup: int, dropoff: int, passenger: int, distance: real, lon: real, lat: real,
                           rateCode: int, fare: real, total: real)

  datatype Parsed = Accepted(trip: Trip) | Rejected(rule: nat)

  const MAX_DURATION: int := 0x7FFF_FFFF_FFFF_FFFF
  const MIN_DURATION: int := -0x8000_0000_0000_0000

  /** time.Time.Sub: the difference, clamped to a 64-bit count of nanoseconds. */
  function Sub(later: int, earlier: int): int {
    var d := later - earlier;
    if d > MAX_DURATION then MAX_DURATION else if d < MIN_DURATION then MIN_DURATION else d
  }

  function Minutes(d: int): real {
    d as real / (60 * SECOND) as real
  }

  function Speed(distance: real, minutes: real): real
    requires minutes != 0.0
  {
    distance / (minutes / 60.0)
  }

  /** The length of the ride, unclamped. */
  function Ride(f: Fields): real {
    (f.dropoff - f.pickup) as real / (60 * SECOND) as real
  }

  /** Rules R2 to R9, each on its own. */
  ghost predicate FieldsBreak(f: Fields, r: nat) {
    match r
    case 2 => f.pickup < PICKUP_MIN || PICKUP_MAX <= f.pickup
    case 3 => f.dropoff <= f.pickup
    case 4 => !(1.0 <= Ride(f) <= 180.0)
    case 5 => !(40.50 <= f.lat <= 41.00 && -74.30 <= f.lon <= -73.70)
    case 6 => !(0.0 < f.distance <= 100.0)
    case 7 => !(0.0 < f.fare && 0.0 < f.total)
    case 8 => !(1 <= f.passenger <= 6)
    case 9 => Ride(f) != 0.0 && !(0.5 <= Speed(f.distance, Ride(f)) <= 80.0)
    case _ => false
  }

  /** R1 is about the line: it must have 19 fields that convert. */
  ghost predicate Breaks(line: Option<Fields>, r: nat) {
    match line
    case None => r == 1
    case Some(f) => FieldsBreak(f, r)
  }

  /** What validation promises to training and to the statistics. */
  ghost predicate ValidTrip(t: Trip) {
    && 0 <= t.hourOfDay < 24 && 0 <= t.dayOfWeek < 7
    && 1.0 <= t.durationMin <= 180.0 && 0.0 < t.tripDistance <= 100.0
    && 40.50 <= t.pickupLat <= 41.00 && -74.30 <= t.pickupLon <= -73.70
    && 1 <= t.passengerCount <= 6
    && 0.5 <= Speed(t.tripDistance, t.durationMin) <= 80.0
  }

  /** The trip is this line's: its fields are taken over, the duration is the ride's,
      and hour and weekday are those of the pickup. */
  ghost predicate IsTripOf(t: Trip, f: Fields) {
    && t.pickupTime == f.pickup && t.durationMin == Ride(f) && t.tripDistance == f.distance
    && t.pickupLat == f.lat && t.pickupLon == f.lon && t.rateCodeID == f.rateCode && t.passengerCount == f.passenger
    && exists day: nat :: day * DAY + t.hourOfDay * HOUR <= f.pickup < day * DAY + (t.hourOfDay + 1) * HOUR
                          && t.dayOfWeek == (FIRST_WEEKDAY + day) % 7
  }

  lemma HourAndDay(pickup: nat)
    ensures var day, hour := pickup / DAY, pickup / HOUR % 24;
            day * DAY + hour * HOUR <= pickup < day * DAY + (hour + 1) * HOUR
  {
    assert pickup / DAY == pickup / HOUR / 24;
  }

  /** parseLine, after the conversion of the fields: the first rule that fails. */
  function ParseLine(line: Option<Fields>): (p: Parsed)
    ensures p.Rejected? ==> 1 <= p.rule <= 9 && Breaks(line, p.rule) && forall q: nat :: q < p.rule ==> !Breaks(line, q)
    ensures p.Accepted? ==> (forall q: nat :: !Breaks(line, q)) && ValidTrip(p.trip)
    ensures p.Accepted? ==> line.Some? && IsTripOf(p.trip, line.value)
  {
    match line
    case None => Rejected(1)
    case Some(f) =>
      if f.pickup < PICKUP_MIN || !(f.pickup < PICKUP_MAX) then Rejected(2)
      else if !(f.dropoff > f.pickup) then Rejected(3)
      else
        var minutes := Minutes(Sub(f.dropoff, f.pickup));
        if minutes < 1.0 || minutes > 180.0 then Rejected(4)
        else if f.lat < 40.50 || f.lat > 41.00 || f.lon < -74.30 || f.lon > -73.70 then Rejected(5)
        else if f.distance <= 0.0 || f.distance > 100.0 then Rejected(6)
        else if f.fare <= 0.0 || f.total <= 0.0 then Rejected(7)
        else if f.passenger < 1 || f.passenger > 6 then Rejected(8)
        else
          var speed := Speed(f.distance, minutes);
          if speed < 0.5 || speed > 80.0 then Rejected(9)
          else
            HourAndDay(f.pickup);
            Accepted(Trip(f.pickup, minutes, f.distance, f.lat, f.lon, f.rateCode, f.passenger,
                          f.pickup / HOUR % 24, (FIRST_WEEKDAY + f.pickup / DAY) % 7))
  }

  // ---- the rules again, in whole nanoseconds and without quotients ----

  predicate InJanuary(f: Fields) { 0 <= f.pickup < 2_678_400_000_000_000 }

  predicate Ends(f: Fields) { f.pickup < f.dropoff }

  predicate OneMinuteToThreeHours(f: Fields) {
    60_000_000_000 <= f.dropoff - f.pickup <= 10_800_000_000_000
  }

  predicate InTheCity(f: Fields) { 40.5 <= f.lat <= 41.0 && -74.3 <= f.lon <= -73.7 }

  predicate AtMost100Miles(f: Fields) { 0.0 < f.distance <= 100.0 }

  predicate Paid(f: Fields) { 0.0 < f.fare && 0.0 < f.total }

  predicate OneToSix(f: Fields) { 1 <= f.passenger <= 6 }

  /** Half a mile to 80 miles for every hour of 3600 * 10^9 nanoseconds. */
  predicate PlausibleSpeed(f: Fields) {
    var ride := (f.dropoff - f.pickup) as real;
    ride <= 2.0 * (f.distance * 3_600_000_000_000.0) && f.distance * 3_600_000_000_000.0 <= 80.0 * ride
  }

  lemma MinutesInNanoseconds(f: Fields)
    requires Ends(f)
    ensures var minutes := Minutes(Sub(f.dropoff, f.pickup));
            && (1.0 <= minutes <= 180.0 <==> OneMinuteToThreeHours(f))
            && (OneMinuteToThreeHours(f) ==>
                  && minutes * 60_000_000_000.0 == (f.dropoff - f.pickup) as real
                  && (0.5 <= Speed(f.distance, minutes) <= 80.0 <==> PlausibleSpeed(f)))
  {
    var minutes := Minutes(Sub(f.dropoff, f.pickup));
    if OneMinuteToThreeHours(f) {
      var hours, v := minutes / 60.0, Speed(f.distance, minutes);
      assert hours * 3_600_000_000_000.0 == (f.dropoff - f.pickup) as real;
      SpeedBounds(v, hours, f.distance);
    }
  }

  lemma SpeedBounds(v: real, hours: real, distance: real)
    requires 0.0 < hours && v == distance / hours
    ensures 0.5 <= v <==> hours <= 2.0 * distance
    ensures v <= 80.0 <==> distance <= 80.0 * hours
  {
    assert distance == v * hours;
    Compare(0.5, v, hours);
    Compare(v, 80.0, hours);
  }

  lemma Compare(a: real, b: real, c: real)
    requires 0.0 < c
    ensures a <= b <==> a * c <= b * c
  {
    if a <= b {
      assert 0.0 <= (b - a) * c;
    } else {
      assert 0.0 < (a - b) * c;
    }
  }

  /** The first rule a line of well-formed fields falls to, or 0. */
  function FirstFailure(f: Fields): nat {
    if !InJanuary(f) then 2
    else if !Ends(f) then 3
    else if !OneMinuteToThreeHours(f) then 4
    else if !InTheCity(f) then 5
    else if !AtMost100Miles(f) then 6
    else if !Paid(f) then 7
    else if !OneToSix(f) then 8
    else if !PlausibleSpeed(f) then 9
    else 0
  }

  /** A line is accepted if and only if it falls to no rule, and otherwise rejected by
      the first it falls to. */
  lemma FirstRuleExactly(f: Fields)
    ensures var rule := FirstFailure(f);
            if rule == 0 then ParseLine(Some(f)).Accepted? else ParseLine(Some(f)) == Rejected(rule)
  {
    hide Minutes, Sub, Speed, OneMinuteToThreeHours, PlausibleSpeed, ValidTrip, IsTripOf, Breaks;
    if Ends(f) {
      MinutesInNanoseconds(f);
    }
  }

  /** Hour and weekday of an accepted trip, by the calendar of January 2015: day 0 is a
      Thursday, the Saturdays are the 3rd, 10th, 17th, 24th and 31st. */
  lemma JanuaryCalendar(f: Fields, day: nat, hour: nat)
    requires ParseLine(Some(f)).Accepted? && hour < 24
    requires day * 86_400_000_000_000 + hour * 3_600_000_000_000 <= f.pickup
    requires f.pickup < day * 86_400_000_000_000 + (hour + 1) * 3_600_000_000_000
    ensures var t := ParseLine(Some(f)).trip;
            && t.hourOfDay == hour
            && (t.dayOfWeek == 6 <==> day in {2, 9, 16, 23, 30}) && (t.dayOfWeek == 0 <==> day in {3, 10, 17, 24})
            && (t.dayOfWeek == 4 <==> day in {0, 7, 14, 21, 28}) && day < 31
  {
    hide Minutes, Sub, Speed, ValidTrip, IsTripOf, Breaks;
    assert f.pickup / HOUR == 24 * day + hour;
    assert f.pickup / DAY == day;
  }
}
