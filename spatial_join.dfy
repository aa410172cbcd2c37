/**
 * `add_parking_count` (scripts/utils.py): for every area, the number of
 * parking lots whose location lies within `radius` metres of the area's
 * location. Geodesic distance is the parameter `dist`, about which nothing
 * is assumed except where a lemma says so.
 */
module SpatialJoin {

  import opened Wrappers
  import opened Records
  import opened Cells
  import Seqs

  const DefaultRadius: real := 300.0

  /** The `location` column exists and holds a geo-point or a null, as the geocoding stages leave it. */
  predicate HasLocationColumn(row: Row) {
    "location" in row && (row["location"].Point? || row["location"].Null?)
  }

  /** A parking row with a location no farther than `radius` from `center`. */
  predicate Near(dist: (GeoPoint, GeoPoint) -> real, center: GeoPoint, radius: real, park: Row) {
    LocationOf(park).Some? && dist(center, LocationOf(park).value) <= radius
  }

  /**
   * The count for one area: 0 for an area without a location, otherwise the
   * number of parking rows with a location within the radius.
   */
  function NearCount(center: Option<GeoPoint>, parking: seq<Row>, radius: real, dist: (GeoPoint, GeoPoint) -> real): (n: nat)
    ensures n <= |parking|
    ensures center.None? ==> n == 0
  {
    match center
    case None => 0
    case Some(c) => Seqs.CountWhere((park: Row) => Near(dist, c, radius, park), parking)
  }

  /** The name of the column the counts are assigned to. */
  const CountColumn: string := "parking_count_300m"

  /**
   * The nested loops of `add_parking_count`: the outer one appends one count
   * per area, the inner one counts the located lots within the radius; the
   * counts become a new column of the area frame.
   */
  method AddParkingCount(summary: seq<Row>, parking: seq<Row>, radius: real, dist: (GeoPoint, GeoPoint) -> real)
    returns (out: seq<Row>)
    requires forall i :: 0 <= i < |summary| ==> HasLocationColumn(summary[i])
    requires forall j :: 0 <= j < |parking| ==> HasLocationColumn(parking[j])
    ensures |out| == |summary|
    ensures forall i :: 0 <= i < |out| ==>
      out[i] == summary[i][CountColumn := Number(NearCount(LocationOf(summary[i]), parking, radius, dist) as real)]
  {
    var counts: seq<nat> := [];
    for i := 0 to |summary|
      invariant |counts| == i
      invariant forall k :: 0 <= k < i ==> counts[k] == NearCount(LocationOf(summary[k]), parking, radius, dist)
    {
      var areaLoc := summary[i]["location"];
      if !Truthy(areaLoc) {
        counts := counts + [0];
        continue;
      }
      var center := areaLoc.point;
      var near := (park: Row) => Near(dist, center, radius, park);
      var count: nat := 0;
      for j := 0 to |parking|
        invariant count == Seqs.CountWhere(near, parking[..j])
      {
        Seqs.CountWhereAppend(near, parking[..j], [parking[j]]);
        assert parking[..j + 1] == parking[..j] + [parking[j]];
        var parkLoc := parking[j]["location"];
        if !Truthy(parkLoc) {
          continue;
        }
        if dist(center, parkLoc.point) <= radius {
          count := count + 1;
        }
      }
      assert parking[..|parking|] == parking;
      counts := counts + [count];
    }
    out := seq(|summary|, i requires 0 <= i < |summary| => summary[i][CountColumn := Number(counts[i] as real)]);
  }

  /** The count does not depend on the order of the parking rows. */
  lemma NearCountOrderIndependent(center: Option<GeoPoint>, a: seq<Row>, b: seq<Row>, radius: real, dist: (GeoPoint, GeoPoint) -> real)
    requires multiset(a) == multiset(b)
    ensures NearCount(center, a, radius, dist) == NearCount(center, b, radius, dist)
  {
    if center.Some? {
      Seqs.CountWhereOrderIndependent((park: Row) => Near(dist, center.value, radius, park), a, b);
    }
  }

  /** A wider radius never counts fewer lots. */
  lemma {:induction false} NearCountMonotone(center: Option<GeoPoint>, parking: seq<Row>, r1: real, r2: real, dist: (GeoPoint, GeoPoint) -> real)
    requires r1 <= r2
    ensures NearCount(center, parking, r1, dist) <= NearCount(center, parking, r2, dist)
    decreases |parking|
  {
    if center.Some? && parking != [] {
      NearCountMonotone(center, parking[1..], r1, r2, dist);
    }
  }

  /** A parking row without a location never adds to a count, wherever it stands. */
  lemma UnlocatedLotIgnored(center: Option<GeoPoint>, before: seq<Row>, park: Row, after: seq<Row>, radius: real, dist: (GeoPoint, GeoPoint) -> real)
    requires LocationOf(park).None?
    ensures NearCount(center, before + [park] + after, radius, dist) == NearCount(center, before + after, radius, dist)
  {
    if center.Some? {
      var p := (q: Row) => Near(dist, center.value, radius, q);
      Seqs.CountWhereAppend(p, before + [park], after);
      Seqs.CountWhereAppend(p, before, [park]);
      Seqs.CountWhereAppend(p, before, after);
    }
  }

  /**
   * At radius 0, when the distance is 0 exactly between equal points, the
   * count is the number of lots standing exactly on the area's location.
   */
  lemma {:induction false} ZeroRadiusCountsCoincidingLots(c: GeoPoint, parking: seq<Row>, dist: (GeoPoint, GeoPoint) -> real)
    requires forall p, q :: dist(p, q) >= 0.0 && (dist(p, q) == 0.0 <==> p == q)
    ensures NearCount(Some(c), parking, 0.0, dist) == Seqs.CountWhere((park: Row) => LocationOf(park) == Some(c), parking)
    decreases |parking|
  {
    if parking != [] {
      ZeroRadiusCountsCoincidingLots(c, parking[1..], dist);
    }
  }
}
