/**
 * The two `geocode` helpers of scripts/utils.py and the geo-point columns
 * built from them (`add_geolocation`, `add_geolocation_from_kakao`). The
 * Kakao HTTP exchange is the parameter `lookup`, from query to response;
 * the text-to-float conversion of the `y`/`x` fields is abstracted away.
 */
module Geocoding {

  import opened Wrappers
  import opened Records
  import opened Cells

  /** One entry of the response's `documents` list: `y` is the latitude, `x` the longitude. */
  datatype Candidate = Candidate(y: real, x: real)

  /** A Kakao local-search response: the HTTP status and the parsed `documents` list. */
  datatype GeoResponse = GeoResponse(status: int, documents: seq<Candidate>)

  /** `geocode`: the first candidate's `(y, x)`, or `(None, None)`. */
  function Geocode(res: GeoResponse): (Option<real>, Option<real>) {
    if res.status == 200 && res.documents != [] then
      (Some(res.documents[0].y), Some(res.documents[0].x))
    else
      (None, None)
  }

  /** The `location` lambda: a geo-point when both coordinates are present, otherwise nothing. */
  function MakeLocation(lat: Option<real>, lon: Option<real>): Option<GeoPoint> {
    if lat.Some? && lon.Some? then Some(GeoPoint(lat.value, lon.value)) else None
  }

  /**
   * Geocoding either yields both coordinates or neither, and the geo-point
   * exists exactly when the response was a 200 with at least one candidate;
   * it is then the first candidate.
   */
  lemma GeocodeComplete(res: GeoResponse)
    ensures Geocode(res).0.Some? <==> Geocode(res).1.Some?
    ensures MakeLocation(Geocode(res).0, Geocode(res).1).Some? <==> res.status == 200 && res.documents != []
    ensures MakeLocation(Geocode(res).0, Geocode(res).1).Some? ==>
      MakeLocation(Geocode(res).0, Geocode(res).1).value == GeoPoint(res.documents[0].y, res.documents[0].x)
  {
  }

  /** The location of a geo-point is never partially populated. */
  lemma MakeLocationComplete(lat: Option<real>, lon: Option<real>)
    ensures MakeLocation(lat, lon).Some? <==> lat.Some? && lon.Some?
    ensures MakeLocation(lat, lon).Some? ==> MakeLocation(lat, lon).value.lat == lat.value && MakeLocation(lat, lon).value.lon == lon.value
  {
  }

  /** One parking row geocoded by its address. */
  function Locate(row: ParkingRow, lookup: Option<string> -> GeoResponse): LocatedRow {
    var (lat, lon) := Geocode(lookup(row.address));
    LocatedRow(row, lat, lon, MakeLocation(lat, lon))
  }

  /**
   * `add_geolocation`: one output row per input row, in order, each with the
   * coordinates its own address geocodes to and a location exactly when both
   * coordinates are there. On a frame with no rows, unpacking the empty
   * `zip` into the two coordinate columns raises: `None`.
   */
  function AddGeolocation(rows: seq<ParkingRow>, lookup: Option<string> -> GeoResponse): (out: Option<seq<LocatedRow>>)
    ensures out.None? <==> rows == []
    ensures out.Some? ==> |out.value| == |rows|
    ensures out.Some? ==> forall i :: 0 <= i < |rows| ==> out.value[i].row == rows[i]
    ensures out.Some? ==> forall i :: 0 <= i < |rows| ==>
      (out.value[i].latitude, out.value[i].longitude) == Geocode(lookup(rows[i].address))
    ensures out.Some? ==> forall i :: 0 <= i < |rows| ==>
      (out.value[i].location.Some? <==> out.value[i].latitude.Some? && out.value[i].longitude.Some?)
    ensures out.Some? ==> forall i :: 0 <= i < |rows| && out.value[i].location.Some? ==>
      out.value[i].location.value == GeoPoint(out.value[i].latitude.value, out.value[i].longitude.value)
  {
    if rows == [] then None
    else Some(seq(|rows|, i requires 0 <= i < |rows| => Locate(rows[i], lookup)))
  }

  /** A geocoded coordinate as a cell: a float, or NaN. */
  function CoordinateCell(c: Option<real>): Cell {
    match c
    case Some(x) => Number(x)
    case None => Null
  }

  /** One area row geocoded by its `search_keyword` cell. */
  function LocateArea(row: Row, lookup: Cell -> GeoResponse): Row {
    var (lat, lon) := Geocode(lookup(Lookup(row, "search_keyword")));
    var loc := MakeLocation(lat, lon);
    row["latitude" := CoordinateCell(lat)]["longitude" := CoordinateCell(lon)]
       ["location" := if loc.Some? then Point(loc.value) else Null]
  }

  /**
   * `add_geolocation_from_kakao`: one output row per input row, in order,
   * every other column unchanged, and a `location` point exactly when both
   * coordinate cells are numbers, made of those numbers.
   */
  function AddGeolocationFromKakao(rows: seq<Row>, lookup: Cell -> GeoResponse): (out: seq<Row>)
    ensures |out| == |rows|
    ensures forall i :: 0 <= i < |out| ==> out[i].Keys == rows[i].Keys + {"latitude", "longitude", "location"}
    ensures forall i, k :: 0 <= i < |out| && k in rows[i] && k !in {"latitude", "longitude", "location"} ==>
      out[i][k] == rows[i][k]
    ensures forall i :: 0 <= i < |out| ==>
      (out[i]["latitude"], out[i]["longitude"]) ==
        (CoordinateCell(Geocode(lookup(Lookup(rows[i], "search_keyword"))).0),
         CoordinateCell(Geocode(lookup(Lookup(rows[i], "search_keyword"))).1))
    ensures forall i :: 0 <= i < |out| ==>
      (out[i]["location"].Point? <==> out[i]["latitude"].Number? && out[i]["longitude"].Number?)
    ensures forall i :: 0 <= i < |out| && out[i]["location"].Point? ==>
      out[i]["location"].point == GeoPoint(out[i]["latitude"].number, out[i]["longitude"].number)
    ensures forall i :: 0 <= i < |out| ==> out[i]["location"].Point? || out[i]["location"].Null?
  {
    seq(|rows|, i requires 0 <= i < |rows| => LocateArea(rows[i], lookup))
  }
}
