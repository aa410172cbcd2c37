/**
 * scripts/upload_commercial_data.py: the documents `upload_to_elasticsearch`
 * builds from a frame, the `location` rebuild of the parking documents read
 * back from the index, the average availability of the lots near each area,
 * and `main` as the sequence of stages. The Elasticsearch calls are left
 * out; what would be sent is returned instead.
 */
module CommercialUpload {

  import opened Wrappers
  import opened Records
  import opened Cells
  import Seqs
  import Numbers
  import Geocoding
  import CommercialFetch
  import SpatialJoin

  /** One bulk action: target index, document id, document source. */
  datatype Action = Action(index: string, id: string, source: Row)

  /** `row.dropna().to_dict()`: the row without its null cells. */
  function DropNulls(row: Row): (source: Row)
    ensures forall k :: k in source ==> k in row && source[k] == row[k] && source[k] != Null
    ensures forall k :: k in row && row[k] != Null ==> k in source
  {
    map k | k in row && row[k] != Null :: row[k]
  }

  /** Dropping nulls twice is dropping them once, and never loses a non-null column. */
  lemma DropNullsIdempotent(row: Row)
    ensures DropNulls(DropNulls(row)) == DropNulls(row)
    ensures DropNulls(row).Keys == row.Keys - set k | k in row && row[k] == Null
  {
  }

  /** The column set of a frame built from rows: every key some row has. */
  function Columns(rows: seq<Row>): set<string> {
    set i, k | 0 <= i < |rows| && k in rows[i] :: k
  }

  /** The mapping an index is created with: `location` as a geo-point iff the frame has that column. */
  function IndexMapping(columns: set<string>): map<string, string> {
    if "location" in columns then map["location" := "geo_point"] else map[]
  }

  /** A row is uploaded unless the frame has a `location` column and the row's location is falsy. */
  predicate Kept(columns: set<string>, row: Row) {
    !("location" in columns && !Truthy(Lookup(row, "location")))
  }

  /** The skip rule as a row predicate. */
  function KeepRule(columns: set<string>): Row -> bool {
    (r: Row) => Kept(columns, r)
  }

  /** The cells an id is made of are text, NaN, or absent, as `search_keyword`, `category` and `timestamp` are. */
  predicate IdCell(row: Row, key: string) {
    key !in row || row[key].Text? || row[key].Null?
  }

  /** `f"{cell}"` of a text or NaN cell: the text, or "nan". */
  function CellText(c: Cell): string
    requires c.Text? || c.Null?
  {
    if c.Text? then c.text else "nan"
  }

  /** `f"{row.get(key)}"`: the cell's text, "None" for an absent column. */
  function IdText(row: Row, key: string): string
    requires IdCell(row, key)
  {
    if key !in row then "None" else CellText(row[key])
  }

  /** The two cells line 41 formats into an id. */
  predicate IdCells(row: Row) {
    IdCell(row, "search_keyword") && IdCell(row, "timestamp")
  }

  /** The `_id` as the source writes it: keyword, "_", timestamp. */
  function IdAsWritten(row: Row): string
    requires IdCells(row)
  {
    IdText(row, "search_keyword") + "_" + IdText(row, "timestamp")
  }

  /**
   * Every category row of one area carries that area's keyword, and `main`
   * gives every category row the same timestamp, so the actions the source
   * builds for two different categories of one area have the same id: the
   * second document overwrites the first, and only one category per area
   * survives a run.
   */
  lemma CategoryIdsCollideAsWritten(a: Row, b: Row)
    requires IdCells(a) && IdCells(b)
    requires Lookup(a, "search_keyword") == Lookup(b, "search_keyword") && "search_keyword" in a && "search_keyword" in b
    requires Lookup(a, "timestamp") == Lookup(b, "timestamp") && "timestamp" in a && "timestamp" in b
    requires Lookup(a, "category") != Lookup(b, "category")
    ensures a != b && ActionFor(a, CategoryIndex).id == ActionFor(b, CategoryIndex).id
  {
  }

  /**
   * The corrected `_id`, with the category written in when the row has one:
   * keyword, category, timestamp. A summary row (no `category` column)
   * keeps the source's id.
   */
  function DocumentId(row: Row): string
    requires IdCells(row) && IdCell(row, "category")
  {
    if "category" in row then
      IdText(row, "search_keyword") + "_" + IdText(row, "category") + "_" + IdText(row, "timestamp")
    else IdAsWritten(row)
  }

  /**
   * With the category in the id, two category rows of one run (one shared
   * timestamp) share an id only if they share keyword and category, given
   * that the keyword contains no '_' (no entry of the keyword table does).
   */
  lemma {:induction false} CategoryIdsDistinct(a: Row, b: Row)
    requires IdCells(a) && IdCells(b) && IdCell(a, "category") && IdCell(b, "category")
    requires "category" in a && "category" in b
    requires IdText(a, "timestamp") == IdText(b, "timestamp")
    requires '_' !in IdText(a, "search_keyword") && '_' !in IdText(b, "search_keyword")
    requires DocumentId(a) == DocumentId(b)
    ensures IdText(a, "search_keyword") == IdText(b, "search_keyword")
    ensures IdText(a, "category") == IdText(b, "category")
  {
    var t := IdText(a, "timestamp");
    var ka, kb := IdText(a, "search_keyword"), IdText(b, "search_keyword");
    var ca, cb := IdText(a, "category"), IdText(b, "category");
    var pa, pb := ka + "_" + ca, kb + "_" + cb;
    assert DocumentId(a) == pa + ("_" + t);
    assert DocumentId(b) == pb + ("_" + t);
    SuffixCancel(pa, pb, "_" + t);
    FirstSeparator(ka, ca, kb, cb);
  }

  /** Two strings with the same ending agree before it. */
  lemma SuffixCancel(p: string, q: string, tail: string)
    requires p + tail == q + tail
    ensures p == q
  {
    assert |p| == |q|;
    assert p == (p + tail)[..|p|];
    assert q == (q + tail)[..|q|];
  }

  /** The position of the first '_' of `s`, or `|s|` when it has none. */
  function SeparatorIndex(s: string): (i: nat)
    ensures i <= |s|
    decreases |s|
  {
    if s == [] || s[0] == '_' then 0 else 1 + SeparatorIndex(s[1..])
  }

  /** The first '_' after a separator-free head is the one right after it. */
  lemma {:induction false} SeparatorAfterHead(k: string, rest: string)
    requires '_' !in k
    ensures SeparatorIndex(k + "_" + rest) == |k|
    decreases |k|
  {
    if k != [] {
      assert (k + "_" + rest)[1..] == k[1..] + "_" + rest;
      SeparatorAfterHead(k[1..], rest);
    }
  }

  /** The first '_' separates a separator-free head from the rest. */
  lemma FirstSeparator(ka: string, ca: string, kb: string, cb: string)
    requires '_' !in ka && '_' !in kb
    requires ka + "_" + ca == kb + "_" + cb
    ensures ka == kb && ca == cb
  {
    var s := ka + "_" + ca;
    SeparatorAfterHead(ka, ca);
    SeparatorAfterHead(kb, cb);
    assert ka == s[..|ka|] == kb;
    assert ca == s[|ka| + 1..] == cb;
  }

  /** The action for one kept row, with the id of line 41. */
  function ActionFor(row: Row, index: string): Action
    requires IdCells(row)
  {
    Action(index, IdAsWritten(row), DropNulls(row))
  }

  /** The action of a kept row, as a function of the row. */
  function ActionOf(index: string): Row --> Action {
    (row: Row) requires IdCells(row) => ActionFor(row, index)
  }

  /** The actions of a frame: the kept rows' actions, in order. */
  function FrameActions(columns: set<string>, rows: seq<Row>, index: string): seq<Action>
    requires forall i :: 0 <= i < |rows| ==> IdCells(rows[i])
  {
    Seqs.MapFilter(KeepRule(columns), ActionOf(index), rows)
  }

  /**
   * One action per kept row, in row order, each with the row's id and its
   * non-null cells as its source; none for a skipped row.
   */
  lemma FrameActionsKeepRule(columns: set<string>, rows: seq<Row>, index: string)
    requires forall i :: 0 <= i < |rows| ==> IdCells(rows[i])
    ensures var acts := FrameActions(columns, rows, index);
      && |acts| == Seqs.CountWhere(KeepRule(columns), rows)
      && forall i :: 0 <= i < |acts| ==>
           var kept := Seqs.Filter(KeepRule(columns), rows);
           IdCells(kept[i]) && acts[i] == ActionFor(kept[i], index)
  {
    Seqs.MapFilterIsMapOfFilter(KeepRule(columns), ActionOf(index), rows);
  }

  /**
   * `upload_to_elasticsearch`: when the index does not exist, the mapping it
   * is created with; then the loop over the rows that appends one action per
   * kept row.
   */
  method UploadToElasticsearch(columns: set<string>, rows: seq<Row>, indexName: string, indexExists: bool)
    returns (created: Option<map<string, string>>, actions: seq<Action>)
    requires forall i :: 0 <= i < |rows| ==> IdCells(rows[i])
    ensures created == if indexExists then None else Some(IndexMapping(columns))
    ensures actions == FrameActions(columns, rows, indexName)
  {
    created := None;
    if !indexExists {
      var mapping: map<string, string> := map[];
      if "location" in columns {
        mapping := mapping["location" := "geo_point"];
      }
      created := Some(mapping);
    }
    actions := [];
    for i := 0 to |rows|
      invariant actions + FrameActions(columns, rows[i..], indexName) == FrameActions(columns, rows, indexName)
    {
      var row := rows[i];
      var source := DropNulls(row);
      assert rows[i..][1..] == rows[i + 1..];
      assert FrameActions(columns, rows[i..], indexName)
          == (if Kept(columns, row) then [ActionFor(row, indexName)] else []) + FrameActions(columns, rows[i + 1..], indexName);
      if "location" in columns && !Truthy(Lookup(row, "location")) {
        continue;
      }
      var id := IdAsWritten(row);
      actions := actions + [Action(indexName, id, source)];
    }
    assert rows[|rows|..] == [];
  }

  /** A frame without a `location` column (the categories) uploads every row. */
  lemma {:induction false} NoLocationColumnKeepsAll(columns: set<string>, rows: seq<Row>, index: string)
    requires "location" !in columns
    requires forall i :: 0 <= i < |rows| ==> IdCells(rows[i])
    ensures |FrameActions(columns, rows, index)| == |rows|
    decreases |rows|
  {
    if rows != [] {
      NoLocationColumnKeepsAll(columns, rows[1..], index);
    }
  }

  /**
   * A frame with a `location` column uploads only located rows, and every
   * document's source holds that location and no null cell.
   */
  lemma LocatedSourcesOnly(columns: set<string>, rows: seq<Row>, index: string)
    requires "location" in columns
    requires forall i :: 0 <= i < |rows| ==> IdCells(rows[i])
    ensures forall a :: a in FrameActions(columns, rows, index) ==>
      "location" in a.source && Truthy(a.source["location"])
      && (forall k :: k in a.source ==> a.source[k] != Null)
      && exists i :: 0 <= i < |rows| && a.source == DropNulls(rows[i])
  {
    var acts := FrameActions(columns, rows, index);
    var kept := Seqs.Filter(KeepRule(columns), rows);
    FrameActionsKeepRule(columns, rows, index);
    forall a | a in acts
      ensures "location" in a.source && Truthy(a.source["location"])
      ensures exists i :: 0 <= i < |rows| && a.source == DropNulls(rows[i])
    {
      var i :| 0 <= i < |acts| && acts[i] == a;
      assert Kept(columns, kept[i]);
      assert kept[i] in rows;
    }
  }

  /** A coordinate cell of a parking document: a number, or a null. */
  predicate CoordinateCells(hit: Row) {
    (Lookup(hit, "latitude").Number? || Lookup(hit, "latitude").Null?)
    && (Lookup(hit, "longitude").Number? || Lookup(hit, "longitude").Null?)
  }

  /** The `location` lambda of `get_parking_data_from_elasticsearch`, for one document. */
  function RebuildLocation(hit: Row): Row
    requires CoordinateCells(hit)
  {
    var lat, lon := Lookup(hit, "latitude"), Lookup(hit, "longitude");
    hit["location" := if lat.Number? && lon.Number? then Point(GeoPoint(lat.number, lon.number)) else Null]
  }

  /**
   * The parking frame read back from the index: every document in order,
   * its `location` rebuilt as a geo-point exactly when both coordinates are
   * non-null, from those coordinates; nothing else changed.
   */
  function GetParkingData(hits: seq<Row>): (parking: seq<Row>)
    requires forall i :: 0 <= i < |hits| ==> CoordinateCells(hits[i])
    ensures |parking| == |hits|
    ensures forall i :: 0 <= i < |parking| ==> parking[i].Keys == hits[i].Keys + {"location"}
    ensures forall i, k :: 0 <= i < |parking| && k in hits[i] && k != "location" ==> parking[i][k] == hits[i][k]
    ensures forall i :: 0 <= i < |parking| ==>
      (parking[i]["location"].Point? <==> Lookup(hits[i], "latitude").Number? && Lookup(hits[i], "longitude").Number?)
    ensures forall i :: 0 <= i < |parking| && parking[i]["location"].Point? ==>
      parking[i]["location"].point == GeoPoint(Lookup(hits[i], "latitude").number, Lookup(hits[i], "longitude").number)
    ensures forall i :: 0 <= i < |parking| ==> SpatialJoin.HasLocationColumn(parking[i])
  {
    seq(|hits|, i requires 0 <= i < |hits| => RebuildLocation(hits[i]))
  }

  const AverageRadius: real := 300.0
  const AverageColumn: string := "avg_available_rate_300m"

  /** The parking rows whose location is within 300 m of `center`. */
  function Nearby(center: GeoPoint, parking: seq<Row>, dist: (GeoPoint, GeoPoint) -> real): seq<Row> {
    Seqs.Filter((park: Row) => SpatialJoin.Near(dist, center, AverageRadius, park), parking)
  }

  /** `nearby["available_rate"].dropna()`: the non-null rates, in order. */
  function Rates(rows: seq<Row>): (rates: seq<real>)
    ensures |rates| <= |rows|
    decreases |rows|
  {
    if rows == [] then []
    else
      var c := Lookup(rows[0], "available_rate");
      (if c.Number? then [c.number] else []) + Rates(rows[1..])
  }

  function Sum(xs: seq<real>): real
    decreases |xs|
  {
    if xs == [] then 0.0 else xs[0] + Sum(xs[1..])
  }

  /** `Series.mean()`: `None` (NaN) for no values. */
  function Mean(xs: seq<real>): Option<real> {
    if xs == [] then None else Some(Sum(xs) / |xs| as real)
  }

  /**
   * The average for one area: `None` when no lot is within 300 m, otherwise
   * the mean of the nearby lots' non-null rates (`None` again when all are null).
   */
  function NearbyAverage(center: GeoPoint, parking: seq<Row>, dist: (GeoPoint, GeoPoint) -> real): Option<real> {
    var near := Nearby(center, parking, dist);
    if near == [] then None else Mean(Rates(near))
  }

  /** The centre `(row["latitude"], row["longitude"])` of an area row that has both. */
  predicate HasCenter(row: Row) {
    Lookup(row, "latitude").Number? && Lookup(row, "longitude").Number?
  }

  function Center(row: Row): GeoPoint
    requires HasCenter(row)
  {
    GeoPoint(Lookup(row, "latitude").number, Lookup(row, "longitude").number)
  }

  /** The cell an average becomes in the new column. */
  function AverageCell(avg: Option<real>): Cell {
    match avg
    case Some(x) => Number(x)
    case None => Null
  }

  /** The average cell of one area; with no parking rows the distance is never evaluated. */
  function AverageFor(row: Row, parking: seq<Row>, dist: (GeoPoint, GeoPoint) -> real): Cell
    requires parking != [] ==> HasCenter(row)
  {
    if parking == [] then Null else AverageCell(NearbyAverage(Center(row), parking, dist))
  }

  /**
   * `add_avg_available_rate`: the loop appends one average per area row, in
   * row order, and the list becomes a new column. Every parking row must
   * have a location (`loc["lat"]` fails on a null), and, when there are
   * parking rows, every area row its coordinates.
   */
  method AddAvgAvailableRate(summary: seq<Row>, parking: seq<Row>, dist: (GeoPoint, GeoPoint) -> real)
    returns (out: seq<Row>)
    requires forall j :: 0 <= j < |parking| ==> LocationOf(parking[j]).Some?
    requires parking != [] ==> forall i :: 0 <= i < |summary| ==> HasCenter(summary[i])
    ensures |out| == |summary|
    ensures forall i :: 0 <= i < |out| ==> out[i] == summary[i][AverageColumn := AverageFor(summary[i], parking, dist)]
  {
    var avgRates: seq<Cell> := [];
    for i := 0 to |summary|
      invariant |avgRates| == i
      invariant forall k :: 0 <= k < i ==> avgRates[k] == AverageFor(summary[k], parking, dist)
    {
      var avg: Option<real> := None;
      if parking != [] {
        var center := Center(summary[i]);
        var nearby := Nearby(center, parking, dist);
        if nearby != [] {
          avg := Mean(Rates(nearby));
        }
      }
      avgRates := avgRates + [AverageCell(avg)];
    }
    out := seq(|summary|, i requires 0 <= i < |summary| => summary[i][AverageColumn := avgRates[i]]);
  }

  /** A sum of values between `lo` and `hi` lies between `n * lo` and `n * hi`. */
  lemma {:induction false} SumBounds(xs: seq<real>, lo: real, hi: real)
    requires forall i :: 0 <= i < |xs| ==> lo <= xs[i] <= hi
    ensures |xs| as real * lo <= Sum(xs) <= |xs| as real * hi
    decreases |xs|
  {
    if xs != [] {
      SumBounds(xs[1..], lo, hi);
    }
  }

  /** A mean of values between `lo` and `hi` lies between them. */
  lemma MeanBounds(xs: seq<real>, lo: real, hi: real)
    requires forall i :: 0 <= i < |xs| ==> lo <= xs[i] <= hi
    ensures Mean(xs).Some? ==> lo <= Mean(xs).value <= hi
  {
    if xs != [] {
      SumBounds(xs, lo, hi);
      var n := |xs| as real;
      var m := Sum(xs) / n;
      assert m * n == Sum(xs);
      assert (m - lo) * n >= 0.0;
      assert (hi - m) * n >= 0.0;
    }
  }

  /** Every rate `Rates` returns is one of the rows' numeric `available_rate` cells. */
  lemma {:induction false} RatesFromRows(rows: seq<Row>, lo: real, hi: real)
    requires forall j :: 0 <= j < |rows| && Lookup(rows[j], "available_rate").Number? ==>
      lo <= Lookup(rows[j], "available_rate").number <= hi
    ensures forall i :: 0 <= i < |Rates(rows)| ==> lo <= Rates(rows)[i] <= hi
    decreases |rows|
  {
    if rows != [] {
      RatesFromRows(rows[1..], lo, hi);
    }
  }

  /**
   * When every lot's rate is a share between 0 and 1, so is every area's
   * average; and there is an average only if some lot is within 300 m.
   */
  lemma AverageIsAShare(row: Row, parking: seq<Row>, dist: (GeoPoint, GeoPoint) -> real)
    requires parking != [] ==> HasCenter(row)
    requires forall j :: 0 <= j < |parking| && Lookup(parking[j], "available_rate").Number? ==>
      0.0 <= Lookup(parking[j], "available_rate").number <= 1.0
    ensures AverageFor(row, parking, dist).Number? ==>
      0.0 <= AverageFor(row, parking, dist).number <= 1.0
      && Nearby(Center(row), parking, dist) != []
  {
    if parking != [] {
      var near := Nearby(Center(row), parking, dist);
      forall j | 0 <= j < |near| && Lookup(near[j], "available_rate").Number?
        ensures 0.0 <= Lookup(near[j], "available_rate").number <= 1.0
      {
        assert near[j] in parking;
      }
      RatesFromRows(near, 0.0, 1.0);
      MeanBounds(Rates(near), 0.0, 1.0);
    }
  }

  /** `pd.to_numeric(errors="coerce")` on one cell: integer text becomes a number, other text NaN. */
  function ToNumeric(c: Cell): Cell {
    match c
    case Text(s) =>
      var n := Numbers.ParseInteger(s);
      if n.Some? then Number(n.value as real) else Null
    case Number(x) => c
    case _ => Null
  }

  /** A column set to one value in every row (the run's timestamp). */
  function SetColumn(rows: seq<Row>, key: string, value: Cell): (out: seq<Row>)
    ensures |out| == |rows|
    ensures forall i :: 0 <= i < |out| ==> out[i] == rows[i][key := value]
  {
    seq(|rows|, i requires 0 <= i < |rows| => rows[i][key := value])
  }

  /** A column converted by `ToNumeric` in every row that has it. */
  function NumericColumn(rows: seq<Row>, key: string): (out: seq<Row>)
    ensures |out| == |rows|
    ensures forall i :: 0 <= i < |out| ==> out[i].Keys == rows[i].Keys + {key}
    ensures forall i, k :: 0 <= i < |out| && k in rows[i] && k != key ==> out[i][k] == rows[i][k]
    ensures forall i :: 0 <= i < |out| ==> out[i][key] == ToNumeric(Lookup(rows[i], key))
  {
    seq(|rows|, i requires 0 <= i < |rows| => rows[i][key := ToNumeric(Lookup(rows[i], key))])
  }

  /** What one run does: it stops with an error at `stage`, or sends these index creations and actions. */
  datatype Run =
    | Stopped(stage: string)
    | Uploaded(summaryMapping: Option<map<string, string>>, summaryActions: seq<Action>,
               categoryMapping: Option<map<string, string>>, categoryActions: seq<Action>)

  const SummaryIndex: string := "seoul_commercial"
  const CategoryIndex: string := "seoul_commercial_categories"

  /** Steps 2 and 3 of `main` on the summary frame: the keyword, then its coordinates. */
  function LocatedAreas(fetched: seq<Row>, lookup: Cell -> Geocoding.GeoResponse): seq<Row> {
    Geocoding.AddGeolocationFromKakao(CommercialFetch.AddSearchKeyword(fetched), lookup)
  }

  /** The average stage fails: there are parking rows, and some area has no coordinates to measure from. */
  predicate AverageFails(areas: seq<Row>, parking: seq<Row>) {
    parking != [] && exists i :: 0 <= i < |areas| && !HasCenter(areas[i])
  }

  /** The `parking_count_300m` cell of one area. */
  function CountCell(area: Row, parking: seq<Row>, dist: (GeoPoint, GeoPoint) -> real): Cell {
    Number(SpatialJoin.NearCount(LocationOf(area), parking, SpatialJoin.DefaultRadius, dist) as real)
  }

  /**
   * Steps 5 to 8 of `main` on one located area: its count, the run's
   * timestamp, its average, and `payment_count` made numeric, set in that order.
   */
  function SummaryDoc(area: Row, parking: seq<Row>, dist: (GeoPoint, GeoPoint) -> real, now: string): (doc: Row)
    requires parking != [] ==> HasCenter(area)
    ensures doc.Keys == area.Keys + StageColumns && doc["timestamp"] == Text(now)
    ensures forall k :: k in area && k !in StageColumns ==> doc[k] == area[k]
    ensures IdCell(area, "search_keyword") && SpatialJoin.HasLocationColumn(area) ==>
      IdCells(doc) && SpatialJoin.HasLocationColumn(doc)
  {
    var averaged := area[SpatialJoin.CountColumn := CountCell(area, parking, dist)]["timestamp" := Text(now)]
                        [AverageColumn := AverageFor(area, parking, dist)];
    averaged["payment_count" := ToNumeric(Lookup(averaged, "payment_count"))]
  }

  /** The summary frame `main` uploads, when the average stage does not fail. */
  function SummaryFrame(fetched: seq<Row>, lookup: Cell -> Geocoding.GeoResponse, parking: seq<Row>,
                        dist: (GeoPoint, GeoPoint) -> real, now: string): (summary: seq<Row>)
    requires !AverageFails(LocatedAreas(fetched, lookup), parking)
    ensures |summary| == |fetched|
    ensures forall i :: 0 <= i < |summary| ==>
      IdCells(summary[i]) && SpatialJoin.HasLocationColumn(summary[i])
  {
    var located := LocatedAreas(fetched, lookup);
    LocatedKeysAndPoints(fetched, lookup);
    seq(|located|, i requires 0 <= i < |located| => SummaryDoc(located[i], parking, dist, now))
  }

  /** After steps 2 and 3 every area row has a keyword cell and a location or null. */
  lemma LocatedKeysAndPoints(fetched: seq<Row>, lookup: Cell -> Geocoding.GeoResponse)
    ensures var located := LocatedAreas(fetched, lookup);
      |located| == |fetched|
      && forall i :: 0 <= i < |located| ==>
           IdCell(located[i], "search_keyword") && "search_keyword" in located[i] && SpatialJoin.HasLocationColumn(located[i])
  {
    var keyed := CommercialFetch.AddSearchKeyword(fetched);
    var located := Geocoding.AddGeolocationFromKakao(keyed, lookup);
    forall i | 0 <= i < |located|
      ensures IdCell(located[i], "search_keyword") && "search_keyword" in located[i] && SpatialJoin.HasLocationColumn(located[i])
    {
      assert "search_keyword" in keyed[i];
      assert located[i]["search_keyword"] == keyed[i]["search_keyword"];
    }
  }

  /**
   * What each uploaded summary row holds: its area's keyword from the table,
   * the location its keyword geocoded to, the number of lots within 300 m of
   * it, the average of their rates, the run's timestamp and the numeric
   * payment count; every other column of the fetched row is kept.
   */
  lemma SummaryFrameColumns(fetched: seq<Row>, lookup: Cell -> Geocoding.GeoResponse, parking: seq<Row>,
                            dist: (GeoPoint, GeoPoint) -> real, now: string)
    requires !AverageFails(LocatedAreas(fetched, lookup), parking)
    ensures var located := LocatedAreas(fetched, lookup);
      var out := SummaryFrame(fetched, lookup, parking, dist, now);
      && |out| == |fetched|
      && (forall i :: 0 <= i < |out| ==>
           out[i].Keys == fetched[i].Keys + SummaryAdded
           && out[i]["search_keyword"] == CommercialFetch.KeywordCell(Lookup(fetched[i], "area_name"))
           && out[i]["location"] == located[i]["location"]
           && out[i][SpatialJoin.CountColumn]
                == Number(SpatialJoin.NearCount(LocationOf(located[i]), parking, SpatialJoin.DefaultRadius, dist) as real)
           && out[i][AverageColumn] == AverageFor(located[i], parking, dist)
           && out[i]["timestamp"] == Text(now)
           && out[i]["payment_count"] == ToNumeric(Lookup(fetched[i], "payment_count")))
      && (forall i, k :: 0 <= i < |out| && k in fetched[i] && k !in SummaryAdded ==> out[i][k] == fetched[i][k])
  {
    var located := LocatedAreas(fetched, lookup);
    var out := SummaryFrame(fetched, lookup, parking, dist, now);
    forall i | 0 <= i < |out|
      ensures out[i].Keys == fetched[i].Keys + SummaryAdded
      ensures out[i]["search_keyword"] == CommercialFetch.KeywordCell(Lookup(fetched[i], "area_name"))
      ensures out[i]["location"] == located[i]["location"]
      ensures out[i][SpatialJoin.CountColumn] == CountCell(located[i], parking, dist)
      ensures out[i][AverageColumn] == AverageFor(located[i], parking, dist)
      ensures out[i]["payment_count"] == ToNumeric(Lookup(fetched[i], "payment_count"))
      ensures forall k :: k in fetched[i] && k !in SummaryAdded ==> out[i][k] == fetched[i][k]
    {
      LocatedRow(fetched, lookup, i);
      SummaryRowColumns(fetched[i], located[i], parking, dist, now);
    }
  }

  /** What steps 2 and 3 make of the `i`-th fetched row. */
  lemma LocatedRow(fetched: seq<Row>, lookup: Cell -> Geocoding.GeoResponse, i: nat)
    requires i < |fetched|
    ensures var located := LocatedAreas(fetched, lookup);
      && |located| == |fetched|
      && located[i].Keys == fetched[i].Keys + LocatedColumns
      && located[i]["search_keyword"] == CommercialFetch.KeywordCell(Lookup(fetched[i], "area_name"))
      && forall k :: k in fetched[i] && k !in LocatedColumns ==> located[i][k] == fetched[i][k]
  {
    var keyed := CommercialFetch.AddSearchKeyword(fetched);
    var located := LocatedAreas(fetched, lookup);
    assert located[i]["search_keyword"] == keyed[i]["search_keyword"];
  }

  /** The columns steps 2 and 3 add to or overwrite in a summary row. */
  const LocatedColumns: set<string> := {"search_keyword", "latitude", "longitude", "location"}

  /** What steps 5 to 8 make of one located area row. */
  lemma SummaryRowColumns(fetched: Row, located: Row, parking: seq<Row>, dist: (GeoPoint, GeoPoint) -> real, now: string)
    requires located.Keys == fetched.Keys + LocatedColumns
    requires forall k :: k in fetched && k !in LocatedColumns ==> located[k] == fetched[k]
    requires parking != [] ==> HasCenter(located)
    ensures var doc := SummaryDoc(located, parking, dist, now);
      && doc.Keys == fetched.Keys + SummaryAdded
      && doc["search_keyword"] == located["search_keyword"]
      && doc["location"] == located["location"]
      && doc[SpatialJoin.CountColumn] == CountCell(located, parking, dist)
      && doc[AverageColumn] == AverageFor(located, parking, dist)
      && doc["payment_count"] == ToNumeric(Lookup(fetched, "payment_count"))
      && doc["timestamp"] == Text(now)
      && forall k :: k in fetched && k !in SummaryAdded ==> doc[k] == fetched[k]
  {
    assert Lookup(located, "payment_count") == Lookup(fetched, "payment_count");
  }

  /** The columns steps 5 to 8 add to or overwrite in a summary row. */
  const StageColumns: set<string> := {SpatialJoin.CountColumn, "timestamp", AverageColumn, "payment_count"}

  /** The columns steps 2 to 8 add to or overwrite in a summary row. */
  const SummaryAdded: set<string> :=
    {"search_keyword", "latitude", "longitude", "location", SpatialJoin.CountColumn, "timestamp", AverageColumn, "payment_count"}

  /**
   * `main`: fetch, add keywords, geocode the areas, read the parking
   * documents back, count and average the lots within 300 m, stamp both
   * frames with one timestamp, convert `payment_count`, upload both frames.
   * A frame with no rows has no `area_name` column, so the run stops at the
   * keyword stage exactly when there are no category rows; the distance
   * function rejects an area without coordinates, so with parking documents
   * present the run stops at the average when an area did not geocode.
   */
  method RunCommercialPipeline(names: seq<Option<string>>, respond: string -> CommercialFetch.CityResponse, clock: nat -> string,
                               lookup: Cell -> Geocoding.GeoResponse, hits: seq<Row>, dist: (GeoPoint, GeoPoint) -> real,
                               now: string, summaryIndexExists: bool, categoryIndexExists: bool)
    returns (run: Run)
    requires forall i :: 0 <= i < |hits| ==> Lookup(hits[i], "latitude").Number? && Lookup(hits[i], "longitude").Number?
    ensures var areas := CommercialFetch.AreaList(names);
      run == Stopped("add_search_keyword") <==> CommercialFetch.Categories(areas, respond, |areas|) == []
    ensures var areas := CommercialFetch.AreaList(names);
      run == Stopped("add_avg_available_rate") <==>
        CommercialFetch.Categories(areas, respond, |areas|) != []
        && AverageFails(LocatedAreas(CommercialFetch.Summaries(areas, respond, clock, |areas|), lookup), GetParkingData(hits))
    ensures var areas := CommercialFetch.AreaList(names);
      run.Uploaded? <==>
        CommercialFetch.Categories(areas, respond, |areas|) != []
        && !AverageFails(LocatedAreas(CommercialFetch.Summaries(areas, respond, clock, |areas|), lookup), GetParkingData(hits))
    ensures var areas := CommercialFetch.AreaList(names);
      var categories := PrepareCategories(CommercialFetch.Categories(areas, respond, |areas|), now);
      run.Uploaded? ==>
        && run.categoryActions == FrameActions(Columns(categories), categories, CategoryIndex)
        && |run.categoryActions| == |categories|
        && run.categoryMapping == (if categoryIndexExists then None else Some(map[]))
    ensures var areas := CommercialFetch.AreaList(names);
      var fetched := CommercialFetch.Summaries(areas, respond, clock, |areas|);
      run.Uploaded? ==>
        && !AverageFails(LocatedAreas(fetched, lookup), GetParkingData(hits))
        && var summary := SummaryFrame(fetched, lookup, GetParkingData(hits), dist, now);
           && run.summaryActions == FrameActions(Columns(summary), summary, SummaryIndex)
           && run.summaryMapping == (if summaryIndexExists then None else Some(IndexMapping(Columns(summary))))
           && forall a :: a in run.summaryActions ==> a.index == SummaryIndex && "location" in a.source && a.source["location"].Point?
  {
    var areas := CommercialFetch.AreaList(names);
    var summary, categories := CommercialFetch.FetchCommercialData(areas, respond, clock);
    CommercialFetch.RowColumns(areas, respond, clock, |areas|);
    if categories == [] {
      return Stopped("add_search_keyword");
    }
    var parking := GetParkingData(hits);
    var enriched := PrepareSummary(summary, lookup, parking, dist, now);
    if enriched.None? {
      return Stopped("add_avg_available_rate");
    }
    var prepared := PrepareCategories(categories, now);
    run := UploadFrames(enriched.value, prepared, summaryIndexExists, categoryIndexExists);
  }

  /** Step 9 of `main`: both frames uploaded, the summary to its index, the categories to theirs. */
  method UploadFrames(summary: seq<Row>, categories: seq<Row>, summaryIndexExists: bool, categoryIndexExists: bool)
    returns (run: Run)
    requires forall i :: 0 <= i < |summary| ==> IdCells(summary[i]) && SpatialJoin.HasLocationColumn(summary[i])
    requires forall i :: 0 <= i < |categories| ==> IdCells(categories[i]) && "location" !in categories[i]
    ensures run.Uploaded?
    ensures run.summaryActions == FrameActions(Columns(summary), summary, SummaryIndex)
    ensures run.categoryActions == FrameActions(Columns(categories), categories, CategoryIndex)
    ensures |run.summaryActions| <= |summary| && |run.categoryActions| == |categories|
    ensures run.summaryMapping == (if summaryIndexExists then None else Some(IndexMapping(Columns(summary))))
    ensures run.categoryMapping == (if categoryIndexExists then None else Some(map[]))
    ensures forall a :: a in run.summaryActions ==> a.index == SummaryIndex && "location" in a.source && a.source["location"].Point?
    ensures forall a :: a in run.categoryActions ==> a.index == CategoryIndex && "location" !in a.source
  {
    var summaryColumns, categoryColumns := Columns(summary), Columns(categories);
    var summaryMapping, summaryActions := UploadToElasticsearch(summaryColumns, summary, SummaryIndex, summaryIndexExists);
    var categoryMapping, categoryActions := UploadToElasticsearch(categoryColumns, categories, CategoryIndex, categoryIndexExists);
    FrameShape(summaryColumns, summary, SummaryIndex);
    if summary != [] {
      assert "location" in summary[0];
      LocatedSourcesOnly(summaryColumns, summary, SummaryIndex);
      forall a | a in summaryActions ensures "location" in a.source && a.source["location"].Point? {
        var i :| 0 <= i < |summary| && a.source == DropNulls(summary[i]);
        assert a.source["location"] == summary[i]["location"];
      }
    } else {
      assert summaryActions == [];
    }
    FrameShape(categoryColumns, categories, CategoryIndex);
    NoLocationColumnKeepsAll(categoryColumns, categories, CategoryIndex);
    run := Uploaded(summaryMapping, summaryActions, categoryMapping, categoryActions);
  }

  /**
   * Steps 2 to 8 of `main` on the summary frame; `None` exactly when the
   * average stage meets an area without coordinates while there are parking rows.
   */
  method PrepareSummary(fetched: seq<Row>, lookup: Cell -> Geocoding.GeoResponse, parking: seq<Row>,
                        dist: (GeoPoint, GeoPoint) -> real, now: string)
    returns (prepared: Option<seq<Row>>)
    requires forall r :: r in fetched ==> "category" !in r
    requires forall j :: 0 <= j < |parking| ==> SpatialJoin.HasLocationColumn(parking[j]) && LocationOf(parking[j]).Some?
    ensures prepared.None? <==> AverageFails(LocatedAreas(fetched, lookup), parking)
    ensures prepared.Some? ==>
      !AverageFails(LocatedAreas(fetched, lookup), parking)
      && prepared.value == SummaryFrame(fetched, lookup, parking, dist, now)
      && SummaryShape(prepared.value) && Stamped(prepared.value, now)
  {
    var located := LocateAreas(fetched, lookup);
    var stamped := CountAndStamp(located, parking, dist, now);
    assert AverageFails(stamped, parking) == AverageFails(located, parking);
    var averaged := AverageStage(stamped, parking, dist, now);
    if averaged.None? {
      return None;
    }
    var out := averaged.value;
    NumericKeepsShape(out, now);
    NumericMakesSummaryFrame(fetched, lookup, parking, dist, now, stamped, out);
    prepared := Some(NumericColumn(out, "payment_count"));
  }

  /** Step 8 on the averaged rows gives the summary frame. */
  lemma NumericMakesSummaryFrame(fetched: seq<Row>, lookup: Cell -> Geocoding.GeoResponse, parking: seq<Row>,
                                 dist: (GeoPoint, GeoPoint) -> real, now: string, stamped: seq<Row>, out: seq<Row>)
    requires !AverageFails(LocatedAreas(fetched, lookup), parking)
    requires |stamped| == |fetched| && |out| == |fetched|
    requires forall i :: 0 <= i < |fetched| ==> stamped[i] == Stamp(LocatedAreas(fetched, lookup)[i], parking, dist, now)
    requires parking != [] ==> forall i :: 0 <= i < |stamped| ==> HasCenter(stamped[i])
    requires forall i :: 0 <= i < |fetched| ==> out[i] == stamped[i][AverageColumn := AverageFor(stamped[i], parking, dist)]
    ensures NumericColumn(out, "payment_count") == SummaryFrame(fetched, lookup, parking, dist, now)
  {
    var located := LocatedAreas(fetched, lookup);
    var numeric := NumericColumn(out, "payment_count");
    var summary := SummaryFrame(fetched, lookup, parking, dist, now);
    forall i | 0 <= i < |numeric| ensures numeric[i] == summary[i] {
      StagesMakeSummaryDoc(located[i], parking, dist, now);
    }
  }

  /** Steps 5 and 6 of `main`: every area gets its count, then the run's timestamp. */
  method CountAndStamp(located: seq<Row>, parking: seq<Row>, dist: (GeoPoint, GeoPoint) -> real, now: string)
    returns (stamped: seq<Row>)
    requires SummaryShape(located)
    requires forall j :: 0 <= j < |parking| ==> SpatialJoin.HasLocationColumn(parking[j])
    ensures |stamped| == |located| && SummaryShape(stamped) && Stamped(stamped, now)
    ensures forall i :: 0 <= i < |stamped| ==>
      stamped[i] == Stamp(located[i], parking, dist, now) && HasCenter(stamped[i]) == HasCenter(located[i])
  {
    var counted := CountStage(located, parking, dist);
    stamped := SetColumn(counted, "timestamp", Text(now));
    forall i | 0 <= i < |stamped|
      ensures stamped[i] == Stamp(located[i], parking, dist, now) && HasCenter(stamped[i]) == HasCenter(located[i])
      ensures RowShape(stamped[i])
    {
      StagesMakeSummaryDoc(located[i], parking, dist, now);
    }
  }

  /** The area row after steps 5 and 6: its count and the run's timestamp. */
  function Stamp(area: Row, parking: seq<Row>, dist: (GeoPoint, GeoPoint) -> real, now: string): (stamped: Row)
    ensures HasCenter(stamped) == HasCenter(area)
  {
    area[SpatialJoin.CountColumn := CountCell(area, parking, dist)]["timestamp" := Text(now)]
  }

  /**
   * Counting and stamping leave an area's coordinates, and so its average,
   * as they were; steps 7 and 8 on the stamped row give `SummaryDoc`.
   */
  lemma StagesMakeSummaryDoc(area: Row, parking: seq<Row>, dist: (GeoPoint, GeoPoint) -> real, now: string)
    ensures HasCenter(Stamp(area, parking, dist, now)) == HasCenter(area)
    ensures parking != [] ==> HasCenter(area) ==>
      var stamped := Stamp(area, parking, dist, now);
      var out := stamped[AverageColumn := AverageFor(stamped, parking, dist)];
      out["payment_count" := ToNumeric(Lookup(out, "payment_count"))] == SummaryDoc(area, parking, dist, now)
  {
    var stamped := Stamp(area, parking, dist, now);
    if HasCenter(area) {
      assert Center(stamped) == Center(area);
    }
  }

  /** Step 5 of `main`: the parking counts, which leave the summary's shape alone. */
  method CountStage(summary: seq<Row>, parking: seq<Row>, dist: (GeoPoint, GeoPoint) -> real) returns (counted: seq<Row>)
    requires SummaryShape(summary)
    requires forall j :: 0 <= j < |parking| ==> SpatialJoin.HasLocationColumn(parking[j])
    ensures |counted| == |summary| && SummaryShape(counted)
    ensures forall i :: 0 <= i < |counted| ==> counted[i] == summary[i][SpatialJoin.CountColumn := CountCell(summary[i], parking, dist)]
  {
    counted := SpatialJoin.AddParkingCount(summary, parking, SpatialJoin.DefaultRadius, dist);
    forall i | 0 <= i < |counted| ensures RowShape(counted[i]) {
      UpdateKeepsShape(summary[i], SpatialJoin.CountColumn, counted[i][SpatialJoin.CountColumn]);
    }
  }

  /** Step 8 of `main` leaves the summary's shape and timestamp alone. */
  lemma NumericKeepsShape(summary: seq<Row>, now: string)
    requires SummaryShape(summary) && Stamped(summary, now)
    ensures var out := NumericColumn(summary, "payment_count");
      |out| == |summary| && SummaryShape(out) && Stamped(out, now)
    ensures var out := NumericColumn(summary, "payment_count");
      forall i :: 0 <= i < |out| ==> Lookup(out[i], "location") == Lookup(summary[i], "location")
  {
    var out := NumericColumn(summary, "payment_count");
    forall i | 0 <= i < |out| ensures RowShape(out[i]) && Lookup(out[i], "timestamp") == Text(now) {
      UpdateKeepsShape(summary[i], "payment_count", out[i]["payment_count"]);
      assert out[i] == summary[i]["payment_count" := out[i]["payment_count"]];
    }
  }

  /**
   * Step 7 of `main`: `None` when there are parking rows and an area has no
   * coordinates to measure from, otherwise the frame with its new column.
   */
  method AverageStage(summary: seq<Row>, parking: seq<Row>, dist: (GeoPoint, GeoPoint) -> real, now: string)
    returns (averaged: Option<seq<Row>>)
    requires SummaryShape(summary) && Stamped(summary, now)
    requires forall j :: 0 <= j < |parking| ==> LocationOf(parking[j]).Some?
    ensures averaged.None? <==> AverageFails(summary, parking)
    ensures averaged.Some? ==> |averaged.value| == |summary| && SummaryShape(averaged.value) && Stamped(averaged.value, now)
    ensures averaged.Some? ==> forall i :: 0 <= i < |summary| ==>
      averaged.value[i] == summary[i][AverageColumn := AverageFor(summary[i], parking, dist)]
  {
    if parking != [] && !(forall i :: 0 <= i < |summary| ==> HasCenter(summary[i])) {
      return None;
    }
    var out := AddAvgAvailableRate(summary, parking, dist);
    forall i | 0 <= i < |out| ensures RowShape(out[i]) && Lookup(out[i], "timestamp") == Text(now) {
      UpdateKeepsShape(summary[i], AverageColumn, out[i][AverageColumn]);
    }
    averaged := Some(out);
  }

  /** The columns every summary row keeps from geocoding on: a key cell for the id, no category, a location or null. */
  predicate RowShape(row: Row) {
    IdCell(row, "search_keyword") && "category" !in row && SpatialJoin.HasLocationColumn(row)
  }

  /** Setting a column other than these four leaves them as they were. */
  lemma UpdateKeepsShape(row: Row, key: string, c: Cell)
    requires key != "search_keyword" && key != "category" && key != "location" && key != "timestamp"
    ensures RowShape(row[key := c]) == RowShape(row)
    ensures Lookup(row[key := c], "timestamp") == Lookup(row, "timestamp")
  {
  }

  /** Steps 2 and 3 of `main` on the summary frame, which leave every row a key cell and a location or null. */
  method LocateAreas(fetched: seq<Row>, lookup: Cell -> Geocoding.GeoResponse) returns (located: seq<Row>)
    requires forall r :: r in fetched ==> "category" !in r
    ensures located == LocatedAreas(fetched, lookup)
    ensures |located| == |fetched| && SummaryShape(located)
  {
    located := CommercialFetch.AddSearchKeyword(fetched);
    assert forall i :: 0 <= i < |located| ==> "category" !in located[i] by {
      forall i | 0 <= i < |located| ensures "category" !in located[i] {
        assert fetched[i] in fetched;
      }
    }
    located := Geocoding.AddGeolocationFromKakao(located, lookup);
  }

  /**
   * Steps 2, 6 and 8 of `main` on the category frame: each row gains its
   * area's keyword from the table, the run's timestamp and a numeric
   * `payment_count`; no other column changes.
   */
  function PrepareCategories(fetched: seq<Row>, now: string): (prepared: seq<Row>)
    ensures |prepared| == |fetched|
    ensures forall i :: 0 <= i < |prepared| ==>
      prepared[i].Keys == fetched[i].Keys + {"search_keyword", "timestamp", "payment_count"}
    ensures forall i, k :: 0 <= i < |prepared| && k in fetched[i] && k !in {"search_keyword", "timestamp", "payment_count"} ==>
      prepared[i][k] == fetched[i][k]
    ensures forall i :: 0 <= i < |prepared| ==>
      prepared[i]["search_keyword"] == CommercialFetch.KeywordCell(Lookup(fetched[i], "area_name"))
      && prepared[i]["timestamp"] == Text(now)
      && prepared[i]["payment_count"] == ToNumeric(Lookup(fetched[i], "payment_count"))
  {
    NumericColumn(SetColumn(CommercialFetch.AddSearchKeyword(fetched), "timestamp", Text(now)), "payment_count")
  }

  /**
   * The category documents the source uploads: one per category row, and
   * each has the id "<its area's keyword>_<run time>", so all the documents
   * of one area share one id and overwrite each other.
   */
  lemma CategoryDocumentsShareAreaId(fetched: seq<Row>, now: string)
    requires forall i :: 0 <= i < |fetched| ==> "location" !in fetched[i]
    ensures var prepared := PrepareCategories(fetched, now);
      var acts := FrameActions(Columns(prepared), prepared, CategoryIndex);
      && |acts| == |fetched|
      && (forall i :: 0 <= i < |acts| ==>
            acts[i].id == CellText(CommercialFetch.KeywordCell(Lookup(fetched[i], "area_name"))) + "_" + now)
      && (forall i, j :: 0 <= i < |acts| && 0 <= j < |acts| && Lookup(fetched[i], "area_name") == Lookup(fetched[j], "area_name") ==>
            acts[i].id == acts[j].id)
  {
    var prepared := PrepareCategories(fetched, now);
    var columns := Columns(prepared);
    assert "location" !in columns;
    NoLocationColumnKeepsAll(columns, prepared, CategoryIndex);
    FrameActionsKeepRule(columns, prepared, CategoryIndex);
    AllKept(columns, prepared);
  }

  /** With no `location` column the filter keeps the frame as it is. */
  lemma {:induction false} AllKept(columns: set<string>, rows: seq<Row>)
    requires "location" !in columns
    ensures Seqs.Filter(KeepRule(columns), rows) == rows
    decreases |rows|
  {
    if rows != [] {
      AllKept(columns, rows[1..]);
    }
  }

  /** Every row carries the run's timestamp. */
  predicate Stamped(rows: seq<Row>, now: string) {
    forall i :: 0 <= i < |rows| ==> Lookup(rows[i], "timestamp") == Text(now)
  }

  predicate SummaryShape(rows: seq<Row>) {
    forall i :: 0 <= i < |rows| ==> RowShape(rows[i])
  }

  /** Every action of a frame targets its index and is no more numerous than the rows. */
  lemma FrameShape(columns: set<string>, rows: seq<Row>, index: string)
    requires forall i :: 0 <= i < |rows| ==> IdCells(rows[i])
    ensures |FrameActions(columns, rows, index)| <= |rows|
    ensures forall a :: a in FrameActions(columns, rows, index) ==>
      a.index == index && forall k :: k in a.source ==> exists i :: 0 <= i < |rows| && k in rows[i]
  {
    var acts := FrameActions(columns, rows, index);
    var kept := Seqs.Filter(KeepRule(columns), rows);
    FrameActionsKeepRule(columns, rows, index);
    forall a | a in acts
      ensures a.index == index && forall k :: k in a.source ==> exists i :: 0 <= i < |rows| && k in rows[i]
    {
      var j :| 0 <= j < |acts| && acts[j] == a;
      assert kept[j] in rows;
    }
  }
}
