/**
 * The records the parking pipeline carries from stage to stage. A pandas
 * column that `to_numeric` / `to_datetime` coerced becomes an `Option` field
 * (`None` for NaN / NaT); a provider field read as text stays text.
 */
module Records {

  import opened Wrappers

  /** A calendar date. */
  datatype Date = Date(year: int, month: int, day: int)

  /** A date with a time of day, as `to_datetime` parses `NOW_PRK_VHCL_UPDT_TM`. */
  datatype DateTime = DateTime(date: Date, hour: int, minute: int, second: int)

  /** Day of the week, Monday = 0 through Sunday = 6, as Python's `weekday()` numbers it. */
  type Weekday = d: int | 0 <= d < 7

  /** A geo-point `{"lat": .., "lon": ..}`. */
  datatype GeoPoint = GeoPoint(lat: real, lon: real)

  /** The opening and closing time fields of one day type, as the provider sends them ("0900"). */
  datatype Hours = Hours(begin: Option<string>, end: Option<string>)

  /** One row of the provider's `GetParkingInfo` list. */
  datatype ParkingRow = ParkingRow(
    name: string,                  // PKLT_NM
    address: Option<string>,       // ADDR (None when it is not a string)
    lotType: string,               // PKLT_TYPE
    realtimeFlag: string,          // PRK_STTS_YN
    capacity: Option<int>,         // TPKCT after numeric coercion
    occupied: Option<int>,         // NOW_PRK_VHCL_CNT after numeric coercion
    updated: Option<DateTime>,     // NOW_PRK_VHCL_UPDT_TM after date coercion
    weekdayHours: Hours,           // WD_OPER_BGNG_TM / WD_OPER_END_TM
    weekendHours: Hours,           // WE_OPER_BGNG_TM / WE_OPER_END_TM
    holidayHours: Hours,           // LHLDY_OPER_BGNG_TM / LHLDY_OPER_END_TM
    paid: Option<string>,          // PAY_YN_NM
    saturdayFree: Option<string>,  // SAT_CHGD_FREE_NM
    holidayFree: Option<string>,   // LHLDY_CHGD_FREE_SE_NAME
    basicCharge: Option<int>,      // BSC_PRK_CRG
    basicTime: Option<int>,        // BSC_PRK_HR
    addCharge: Option<int>,        // ADD_PRK_CRG
    addTime: Option<int>           // ADD_PRK_HR
  )

  /** A parking row after `add_geolocation`: the geocoded coordinates and the geo-point built from them. */
  datatype LocatedRow = LocatedRow(
    row: ParkingRow,
    latitude: Option<real>,
    longitude: Option<real>,
    location: Option<GeoPoint>
  )

  /** A located row after `compute_availability_and_status`. */
  datatype StatusRow = StatusRow(
    located: LocatedRow,
    availableRate: Option<int>,   // hundredths: 30 stands for 0.30
    operating: string             // "운영 중" or "운영 종료"
  )
}
