/**
 * scripts/upload_parking_data.py: the columns `main` derives for each lot,
 * the bulk actions `upload_to_elasticsearch` hands to the index, and `main`
 * itself as the sequence of stages. The clock, the holiday calendar, the
 * provider and the geocoder are parameters; the Elasticsearch calls are left
 * out, and what would be sent is returned instead.
 */
module ParkingUpload {

  import opened Wrappers
  import opened Records
  import opened Numbers
  import Seqs
  import Text
  import Paging
  import Validity
  import Geocoding
  import Availability

  const WeekdayNames: seq<string> := ["월", "화", "수", "목", "금", "토", "일"]

  const Unknown: string := "정보 없음"
  const Congested: string := "혼잡"
  const Moderate: string := "보통"
  const Free: string := "여유"

  /** The collection instant `datetime.now(Asia/Seoul)`: its text form and its day of the week. */
  datatype Stamp = Stamp(text: string, weekday: Weekday)

  /** A lot with every column `main` adds before uploading. */
  datatype EnrichedRow = EnrichedRow(
    status: StatusRow,
    timestamp: Stamp,
    weekday: string,
    weekdayOrder: int,
    hourlyRate: Option<int>,
    availableStatus: string,
    district: Option<string>
  )

  /** The `_source` of a parking document. */
  datatype ParkingDoc = ParkingDoc(
    parkingName: string,
    address: Option<string>,
    latitude: Option<real>,
    longitude: Option<real>,
    location: Option<GeoPoint>,
    availableRate: Option<real>,
    isOperatingNow: string,
    updateTime: Option<DateTime>,
    isPaid: Option<string>,
    saturdayFree: Option<string>,
    holidayFree: Option<string>,
    basicCharge: Option<int>,
    basicTime: Option<int>,
    addCharge: Option<int>,
    addTime: Option<int>,
    hourlyRate: Option<int>,
    timestamp: string,
    availableStatus: string,
    district: Option<string>,
    weekday: string,
    weekdayOrder: int
  )

  /** One bulk action: target index, document id, document source. */
  datatype Action = Action(index: string, id: string, source: ParkingDoc)

  /** The mapping requested when the index does not exist yet. */
  const IndexMapping: map<string, string> := map["location" := "geo_point", "timestamp" := "date"]

  /**
   * The weekday column: the day's entry in the fixed table, Monday "월" to
   * Sunday "일"; the label names that day and no other.
   */
  function WeekdayLabel(d: Weekday): (name: string)
    ensures forall e: Weekday :: WeekdayNames[e] == name <==> e == d
  {
    assert forall e: Weekday, f: Weekday :: WeekdayNames[e] == WeekdayNames[f] ==> WeekdayNames[e][0] == WeekdayNames[f][0];
    WeekdayNames[d]
  }

  /** The label and the order column always name the same day: different days never share a label. */
  lemma WeekdayLabelsDistinct(d: Weekday, e: Weekday)
    ensures WeekdayLabel(d) == WeekdayLabel(e) <==> d == e
  {
    if d != e {
      assert WeekdayNames[d][0] != WeekdayNames[e][0];
    }
  }

  /**
   * `calculate_hourly_rate`: `round(charge / minutes * 60)` when both fields
   * are present and the basic time is positive, `None` otherwise.
   */
  function HourlyRate(charge: Option<int>, minutes: Option<int>): (r: Option<int>)
    ensures r.Some? <==> charge.Some? && minutes.Some? && minutes.value > 0
    ensures r.Some? ==>
      -0.5 <= r.value as real - charge.value as real / minutes.value as real * 60.0 <= 0.5
  {
    if charge.Some? && minutes.Some? && minutes.value > 0 then
      Some(RoundHalfEven(charge.value as real / minutes.value as real * 60.0))
    else None
  }

  /** 1000 won per 30 minutes is 2000 won an hour; 500 won per 0 minutes has no hourly rate. */
  lemma HourlyRateExamples()
    ensures HourlyRate(Some(1000), Some(30)) == Some(2000)
    ensures HourlyRate(Some(500), Some(0)) == None
    ensures HourlyRate(None, Some(30)) == None
  {
    assert 1000 as real / 30 as real * 60.0 == 2000.0;
    RoundHalfEvenOfInteger(2000);
  }

  /** `classify_available_rate` on the float rate: null, below 0.3, below 0.7, the rest. */
  function CongestionLabel(rate: Option<real>): string {
    if rate.None? then Unknown
    else if rate.value < 0.3 then Congested
    else if rate.value < 0.7 then Moderate
    else Free
  }

  /** The float a rate in hundredths stands for. */
  function RateValue(hundredths: Option<int>): Option<real> {
    match hundredths
    case Some(k) => Some(k as real / 100.0)
    case None => None
  }

  /**
   * On a rounded rate, exactly one label applies, and the thresholds are
   * inclusive below and exclusive above: 0.29 is congested, 0.30 and 0.69
   * moderate, 0.70 free; a missing rate is never given a numeric label.
   */
  lemma CongestionThresholds(hundredths: Option<int>)
    ensures var name := CongestionLabel(RateValue(hundredths));
      && (name == Unknown <==> hundredths.None?)
      && (name == Congested <==> hundredths.Some? && hundredths.value < 30)
      && (name == Moderate <==> hundredths.Some? && 30 <= hundredths.value < 70)
      && (name == Free <==> hundredths.Some? && 70 <= hundredths.value)
  {
  }

  /** True when the word's last character is '구'. */
  predicate EndsWithGu(w: string) {
    |w| > 0 && w[|w| - 1] == '구'
  }

  /** The index of the first word ending in '구', or `|ws|` when there is none. */
  function FirstDistrictIndex(ws: seq<string>): (i: nat)
    ensures i <= |ws|
    ensures forall j :: 0 <= j < i ==> !EndsWithGu(ws[j])
    ensures i < |ws| ==> EndsWithGu(ws[i])
    decreases |ws|
  {
    if ws == [] then 0
    else if EndsWithGu(ws[0]) then 0
    else 1 + FirstDistrictIndex(ws[1..])
  }

  /**
   * `extract_district`: the first whitespace-separated word of the address
   * that ends in '구'; `None` when there is no such word or no address string.
   */
  function District(address: Option<string>): (d: Option<string>)
    ensures address.None? ==> d.None?
    ensures address.Some? && d.None? ==>
      forall j :: 0 <= j < |Text.Words(address.value)| ==> !EndsWithGu(Text.Words(address.value)[j])
    ensures d.Some? ==> address.Some? && EndsWithGu(d.value)
    ensures d.Some? ==>
      (exists i :: 0 <= i < |Text.Words(address.value)| && Text.Words(address.value)[i] == d.value
        && forall j :: 0 <= j < i ==> !EndsWithGu(Text.Words(address.value)[j]))
  {
    match address
    case None => None
    case Some(a) =>
      var ws := Text.Words(a);
      var i := FirstDistrictIndex(ws);
      if i < |ws| then Some(ws[i]) else None
  }

  /** A district is a whole word of the address: it contains no whitespace and is not empty. */
  lemma DistrictIsAWord(address: Option<string>)
    requires District(address).Some?
    ensures District(address).value != [] && Text.NoSpace(District(address).value)
  {
  }

  /**
   * Whatever the words around it, the district is the first word ending in
   * '구': in "서울특별시 강남구 테헤란로" it is "강남구", and a later word ending
   * in '구' is never chosen.
   */
  lemma {:induction false} DistrictIsFirstGuWord(city: string, gu: string, rest: string)
    requires city != [] && Text.NoSpace(city) && !EndsWithGu(city)
    requires gu != [] && Text.NoSpace(gu) && EndsWithGu(gu)
    ensures District(Some(city + " " + gu + " " + rest)) == Some(gu)
  {
    var ws := Text.Words(city + " " + gu + " " + rest);
    ThreePartWords(city, gu, rest);
    assert ws[1..] == [gu] + Text.Words(rest);
    assert FirstDistrictIndex(ws[1..]) == 0;
    assert FirstDistrictIndex(ws) == 1;
  }

  /** "<city> <gu> <rest>" splits into the city, the gu, and the words of the rest. */
  lemma ThreePartWords(city: string, gu: string, rest: string)
    requires city != [] && Text.NoSpace(city)
    requires gu != [] && Text.NoSpace(gu)
    ensures Text.Words(city + " " + gu + " " + rest) == [city, gu] + Text.Words(rest)
  {
    assert city + " " + gu + " " + rest == city + [' '] + (gu + [' '] + rest);
    Text.WordsOfWord(city);
    Text.WordsOfWord(gu);
    Text.WordsSplitAtSpace(gu, ' ', rest);
    Text.WordsSplitAtSpace(city, ' ', gu + [' '] + rest);
  }

  /** An address has no district exactly when none of its words ends in '구'. */
  lemma NoGuWordNoDistrict(address: string)
    ensures District(Some(address)).None? <==>
      forall j :: 0 <= j < |Text.Words(address)| ==> !EndsWithGu(Text.Words(address)[j])
  {
  }

  /** The `_id` of a document: the lot name, "_", the collection time. */
  function DocumentId(name: string, stamp: string): string {
    name + "_" + stamp
  }

  /**
   * Within one run every row carries the same timestamp, so two documents
   * share an id (and the second overwrites the first) exactly when their
   * lots share a name.
   */
  lemma {:induction false} SharedStampIds(a: string, b: string, stamp: string)
    ensures DocumentId(a, stamp) == DocumentId(b, stamp) <==> a == b
  {
    if DocumentId(a, stamp) == DocumentId(b, stamp) {
      var s := DocumentId(a, stamp);
      assert |a| == |b|;
      assert a == s[..|a|];
      assert b == s[..|b|];
    }
  }

  /** Steps 5 to 8 of `main` for one row: timestamp, weekday columns, hourly rate, congestion, district. */
  function Enrich(s: StatusRow, stamp: Stamp): EnrichedRow {
    var row := s.located.row;
    EnrichedRow(
      s, stamp, WeekdayLabel(stamp.weekday), stamp.weekday,
      HourlyRate(row.basicCharge, row.basicTime),
      CongestionLabel(RateValue(s.availableRate)),
      District(row.address))
  }

  /**
   * The columns of steps 5 to 8 over the frame: one row per row, in order,
   * every row with the run's single timestamp, the stamp's day of the week
   * as its order column and the matching label, and the hourly rate,
   * congestion label and district of its own fields.
   */
  function EnrichAll(rows: seq<StatusRow>, stamp: Stamp): (out: seq<EnrichedRow>)
    ensures |out| == |rows|
    ensures forall i :: 0 <= i < |out| ==> out[i].status == rows[i] && out[i].timestamp == stamp
    ensures forall i :: 0 <= i < |out| ==>
      out[i].weekdayOrder == stamp.weekday && out[i].weekday == WeekdayNames[out[i].weekdayOrder]
    ensures forall i :: 0 <= i < |out| ==>
      out[i].hourlyRate == HourlyRate(rows[i].located.row.basicCharge, rows[i].located.row.basicTime)
      && out[i].availableStatus == CongestionLabel(RateValue(rows[i].availableRate))
      && out[i].district == District(rows[i].located.row.address)
  {
    seq(|rows|, i requires 0 <= i < |rows| => Enrich(rows[i], stamp))
  }

  /** The document built from one row: the row's columns under their document names. */
  function ToDoc(e: EnrichedRow): ParkingDoc {
    var l := e.status.located;
    var r := l.row;
    ParkingDoc(
      r.name, r.address, l.latitude, l.longitude, l.location,
      RateValue(e.status.availableRate), e.status.operating, r.updated,
      r.paid, r.saturdayFree, r.holidayFree,
      r.basicCharge, r.basicTime, r.addCharge, r.addTime,
      e.hourlyRate, e.timestamp.text, e.availableStatus, e.district,
      e.weekday, e.weekdayOrder)
  }

  /** True when the row's `location` is truthy. */
  predicate HasLocation(e: EnrichedRow) {
    e.status.located.location.Some?
  }

  /** The action for one located row. */
  function ActionFor(e: EnrichedRow, index: string): Action {
    Action(index, DocumentId(e.status.located.row.name, e.timestamp.text), ToDoc(e))
  }

  /**
   * The `actions` comprehension: exactly one action per row with a location,
   * in row order, and none for the others.
   */
  function BuildActions(rows: seq<EnrichedRow>, index: string): (acts: seq<Action>)
    ensures |acts| == Seqs.CountWhere(HasLocation, rows)
    ensures forall i :: 0 <= i < |acts| ==> acts[i] == ActionFor(Seqs.Filter(HasLocation, rows)[i], index)
    ensures forall i :: 0 <= i < |acts| ==> acts[i].source.location.Some? && acts[i].index == index
    decreases |rows|
  {
    if rows == [] then []
    else if HasLocation(rows[0]) then [ActionFor(rows[0], index)] + BuildActions(rows[1..], index)
    else BuildActions(rows[1..], index)
  }

  /** What one run does: it stops with an error at `stage`, or creates the index if needed and sends these actions. */
  datatype Run =
    | Stopped(stage: string)
    | Uploaded(created: Option<map<string, string>>, actions: seq<Action>)

  /**
   * `main` followed by `upload_to_elasticsearch`: fetch, filter, geocode,
   * rate and status, the derived columns, then the actions. `created` is the
   * mapping the index is created with, `None` when it already exists. With
   * no fetched row the frame has no columns and the filter stage raises; with
   * no valid row the geocoding stage raises; either way nothing is sent.
   */
  method RunParkingPipeline(
    totalCount: int,
    respond: Paging.Window -> Option<seq<ParkingRow>>,
    today: Date,
    lookup: Option<string> -> Geocoding.GeoResponse,
    clock: Availability.Clock,
    stamp: Stamp,
    indexExists: bool
  ) returns (run: Run)
    ensures var fetched := Paging.Gathered(Paging.Windows(totalCount), respond);
      run == Stopped("filter_valid_parking") <==> fetched == []
    ensures var fetched := Paging.Gathered(Paging.Windows(totalCount), respond);
      run == Stopped("add_geolocation") <==> fetched != [] && Validity.FilterValid(fetched, today) == []
    ensures run.Uploaded? <==> Validity.FilterValid(Paging.Gathered(Paging.Windows(totalCount), respond), today) != []
    ensures run.Uploaded? ==> run.created == if indexExists then None else Some(IndexMapping)
    ensures var fetched := Paging.Gathered(Paging.Windows(totalCount), respond);
      run.Uploaded? ==>
        && Geocoding.AddGeolocation(Validity.FilterValid(fetched, today), lookup).Some?
        && run.actions == BuildActions(
             EnrichAll(
               Availability.ComputeAvailabilityAndStatus(
                 Geocoding.AddGeolocation(Validity.FilterValid(fetched, today), lookup).value, clock),
               stamp),
             "seoul_parking")
    ensures run.Uploaded? ==> |run.actions| <= |Paging.Gathered(Paging.Windows(totalCount), respond)|
    ensures run.Uploaded? ==> forall i :: 0 <= i < |run.actions| ==>
      run.actions[i].source.location.Some?
      && run.actions[i].id == DocumentId(run.actions[i].source.parkingName, stamp.text)
      && run.actions[i].source.timestamp == stamp.text
  {
    var indexName := "seoul_parking";
    var dfRaw := Paging.FetchAll(totalCount, respond);
    if dfRaw == [] {
      return Stopped("filter_valid_parking");
    }
    var dfValid := Validity.FilterValid(dfRaw, today);
    var dfGeo := Geocoding.AddGeolocation(dfValid, lookup);
    if dfGeo.None? {
      return Stopped("add_geolocation");
    }
    var dfStatus := Availability.ComputeAvailabilityAndStatus(dfGeo.value, clock);
    var enriched := EnrichAll(dfStatus, stamp);
    var created := if indexExists then None else Some(IndexMapping);
    var actions := BuildActions(enriched, indexName);

    forall i | 0 <= i < |actions|
      ensures actions[i].id == DocumentId(actions[i].source.parkingName, stamp.text)
      ensures actions[i].source.timestamp == stamp.text
    {
      var located := Seqs.Filter(HasLocation, enriched);
      assert located[i] in enriched;
    }
    run := Uploaded(created, actions);
  }
}
