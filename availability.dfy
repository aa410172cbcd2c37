/**
 * `compute_availability_and_status` (scripts/utils.py): the availability
 * rate of a lot and whether it is open at the evaluation instant. The clock
 * and the holiday calendar are the parameter `Clock`.
 */
module Availability {

  import opened Wrappers
  import opened Records
  import opened Numbers

  const OpenLabel: string := "운영 중"
  const ClosedLabel: string := "운영 종료"

  /** The evaluation instant: `int(now.strftime("%H%M"))`, `now.weekday()` and whether today is a holiday. */
  datatype Clock = Clock(hhmm: int, weekday: Weekday, isHoliday: bool)

  datatype DayType = Holiday | Weekday | Saturday | Sunday

  /**
   * `((TPKCT - NOW_PRK_VHCL_CNT) / TPKCT).round(2)` in hundredths: `None`
   * when a count is missing or the capacity is 0.
   */
  function AvailableRate(capacity: Option<int>, occupied: Option<int>): (r: Option<int>)
    ensures r.Some? <==> capacity.Some? && occupied.Some? && capacity.value != 0
    ensures r.Some? ==>
      var exact := 100.0 * (capacity.value - occupied.value) as real / capacity.value as real;
      -0.5 <= r.value as real - exact <= 0.5
  {
    if capacity.Some? && occupied.Some? && capacity.value != 0 then
      Some(RoundHalfEven(100.0 * (capacity.value - occupied.value) as real / capacity.value as real))
    else None
  }

  /**
   * For a lot with positive capacity and no more vehicles than spaces, the
   * rate is a share between 0 and 1; it is 1 exactly when nothing is parked
   * and 0 when the lot is full.
   */
  lemma {:induction false} RateBounds(capacity: int, occupied: int)
    requires capacity > 0 && 0 <= occupied <= capacity
    ensures var r := AvailableRate(Some(capacity), Some(occupied));
      r.Some? && 0 <= r.value <= 100
      && (occupied == 0 ==> r.value == 100)
      && (occupied == capacity ==> r.value == 0)
  {
    var exact := 100.0 * (capacity - occupied) as real / capacity as real;
    assert 0.0 <= exact <= 100.0 by {
      assert (capacity - occupied) as real <= capacity as real;
      DivisionBounds((capacity - occupied) as real, capacity as real);
    }
    RoundHalfEvenWithin(exact, 0, 100);
    if occupied == 0 {
      assert exact == 100.0;
      RoundHalfEvenOfInteger(100);
    }
    if occupied == capacity {
      assert exact == 0.0;
      RoundHalfEvenOfInteger(0);
    }
  }

  /** 70 of 100 spaces taken: a rate of 0.30. */
  lemma RateExample()
    ensures AvailableRate(Some(100), Some(70)) == Some(30)
  {
    assert 100.0 * (100 - 70) as real / 100 as real == 30.0;
    RoundHalfEvenOfInteger(30);
  }

  lemma DivisionBounds(a: real, c: real)
    requires c > 0.0 && 0.0 <= a <= c
    ensures 0.0 <= 100.0 * a / c <= 100.0
  {
    var e := 100.0 * a / c;
    assert e * c == 100.0 * a;
  }

  /** Free space that the filter allows but a capacity of 0 gives no rate: pandas computes 0 / 0. */
  lemma ZeroCapacityHasNoRate(occupied: int)
    ensures AvailableRate(Some(0), Some(occupied)).None?
  {
  }

  /** Holidays first, then Monday to Friday, then Saturday, then Sunday. */
  function DayTypeOf(clock: Clock): DayType {
    if clock.isHoliday then Holiday
    else if clock.weekday < 5 then Weekday
    else if clock.weekday == 5 then Saturday
    else Sunday
  }

  /** The schedule fields read for a day type: Sundays use the holiday fields. */
  function HoursFor(row: ParkingRow, d: DayType): Hours {
    match d
    case Holiday => row.holidayHours
    case Weekday => row.weekdayHours
    case Saturday => row.weekendHours
    case Sunday => row.holidayHours
  }

  /** `int(field)` of one schedule field; a missing or non-integer field raises. */
  function ParseTime(field: Option<string>): Option<int> {
    match field
    case Some(s) => ParseInteger(s)
    case None => None
  }

  /**
   * `get_operating_status`: "운영 중" when both fields of the applicable day
   * type parse and the current `HHMM` lies between them, both ends included;
   * "운영 종료" otherwise, including whenever a field is missing or does not parse.
   */
  function OperatingStatus(row: ParkingRow, clock: Clock): (status: string)
    ensures status == OpenLabel || status == ClosedLabel
    ensures status == OpenLabel <==>
      var h := HoursFor(row, DayTypeOf(clock));
      ParseTime(h.begin).Some? && ParseTime(h.end).Some?
      && ParseTime(h.begin).value <= clock.hhmm <= ParseTime(h.end).value
  {
    var h := HoursFor(row, DayTypeOf(clock));
    var start := ParseTime(h.begin);
    var end := ParseTime(h.end);
    if start.None? || end.None? then ClosedLabel
    else if start.value <= clock.hhmm <= end.value then OpenLabel
    else ClosedLabel
  }

  /** Fail-safe: a missing or unparsable field of the applicable day type means closed. */
  lemma MissingHoursMeanClosed(row: ParkingRow, clock: Clock)
    requires var h := HoursFor(row, DayTypeOf(clock));
      ParseTime(h.begin).None? || ParseTime(h.end).None?
    ensures OperatingStatus(row, clock) == ClosedLabel
  {
  }

  /** A holiday reads the holiday fields whatever the weekday, and a Sunday reads the same fields. */
  lemma HolidayTakesPrecedence(row: ParkingRow, hhmm: int, d: Weekday)
    ensures OperatingStatus(row, Clock(hhmm, d, true)) == OperatingStatus(row, Clock(hhmm, 6, false))
  {
  }

  /** On a non-holiday, the status depends only on the fields of that day's type. */
  lemma StatusReadsOnlyItsDayType(row: ParkingRow, other: ParkingRow, clock: Clock)
    requires HoursFor(row, DayTypeOf(clock)) == HoursFor(other, DayTypeOf(clock))
    ensures OperatingStatus(row, clock) == OperatingStatus(other, clock)
  {
  }

  /** Tuesday 09:00, not a holiday, weekday hours "0600"-"2200": open. */
  lemma TuesdayMorningExample(row: ParkingRow)
    requires row.weekdayHours == Hours(Some("0600"), Some("2200"))
    ensures OperatingStatus(row, Clock(900, 1, false)) == OpenLabel
  {
    assert "0600"[..3] == "060" && "060"[..2] == "06" && "06"[..1] == "0" && "0"[..0] == "";
    assert "2200"[..3] == "220" && "220"[..2] == "22" && "22"[..1] == "2" && "2"[..0] == "";
  }

  /** A row with its rate and operating status. */
  function WithStatus(r: LocatedRow, clock: Clock): StatusRow {
    StatusRow(r, AvailableRate(r.row.capacity, r.row.occupied), OperatingStatus(r.row, clock))
  }

  /**
   * `compute_availability_and_status` over a frame: row by row, in order,
   * each row's rate from its own counts and its status from its own hours,
   * nothing else changed.
   */
  function ComputeAvailabilityAndStatus(rows: seq<LocatedRow>, clock: Clock): (out: seq<StatusRow>)
    ensures |out| == |rows|
    ensures forall i :: 0 <= i < |out| ==> out[i].located == rows[i]
    ensures forall i :: 0 <= i < |out| ==>
      out[i].availableRate == AvailableRate(rows[i].row.capacity, rows[i].row.occupied)
      && out[i].operating == OperatingStatus(rows[i].row, clock)
    ensures forall i :: 0 <= i < |out| ==> out[i].operating == OpenLabel || out[i].operating == ClosedLabel
  {
    seq(|rows|, i requires 0 <= i < |rows| => WithStatus(rows[i], clock))
  }
}
