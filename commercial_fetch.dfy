/**
 * The commercial side of scripts/utils.py: the area list and the reshaping
 * of each area's live commercial payload into summary and category rows
 * (`fetch_commercial_data`), and the static area-to-search-keyword table
 * (`mapping_dict`, `add_search_keyword`). The spreadsheet of area names, the
 * HTTP exchange per area and the clock are parameters.
 */
module CommercialFetch {

  import opened Wrappers
  import opened Cells
  import Seqs

  /** The payload's `LIVE_CMRCL_STTS` object: its scalar fields and its `CMRCL_RSB` list, if present. */
  datatype CommercialRaw = CommercialRaw(fields: Row, categories: Option<seq<Row>>)

  /** The `citydata` response for one area. */
  datatype CityResponse =
    | HttpError(status: int)                 // status other than 200
    | Malformed                              // the body has no `CITYDATA` object
    | Body(live: Option<CommercialRaw>)      // `LIVE_CMRCL_STTS`, None when absent or null

  /** An empty dict is falsy too. */
  predicate IsEmptyRaw(raw: CommercialRaw) {
    raw.fields == map[] && raw.categories.None?
  }

  /** The loop goes on to build rows only for a 200 response with a truthy `LIVE_CMRCL_STTS`. */
  predicate Usable(res: CityResponse) {
    res.Body? && res.live.Some? && !IsEmptyRaw(res.live.value)
  }

  /** `dict.get(key, "")`. */
  function GetOrEmpty(row: Row, key: string): Cell {
    if key in row then row[key] else Text("")
  }

  /** The summary row of one area. */
  function SummaryRow(area: string, raw: CommercialRaw, timestamp: string): Row {
    map[
      "timestamp" := Text(timestamp),
      "area_name" := Text(area),
      "activity_level" := GetOrEmpty(raw.fields, "AREA_CMRCL_LVL"),
      "payment_count" := GetOrEmpty(raw.fields, "AREA_SH_PAYMENT_CNT"),
      "min_amount" := GetOrEmpty(raw.fields, "AREA_SH_PAYMENT_AMT_MIN"),
      "max_amount" := GetOrEmpty(raw.fields, "AREA_SH_PAYMENT_AMT_MAX")
    ]
  }

  /** The category row of one `CMRCL_RSB` item. */
  function CategoryRow(area: string, item: Row): Row {
    map[
      "timestamp" := GetOrEmpty(item, "RSB_MCT_TIME"),
      "area_name" := Text(area),
      "category" := GetOrEmpty(item, "RSB_MID_CTGR"),
      "level" := GetOrEmpty(item, "RSB_PAYMENT_LVL"),
      "payment_count" := GetOrEmpty(item, "RSB_SH_PAYMENT_CNT"),
      "amount_min" := GetOrEmpty(item, "RSB_SH_PAYMENT_AMT_MIN"),
      "amount_max" := GetOrEmpty(item, "RSB_SH_PAYMENT_AMT_MAX"),
      "stores" := GetOrEmpty(item, "RSB_MCT_CNT")
    ]
  }

  /** `commercial_raw.get("CMRCL_RSB", [])`. */
  function Items(raw: CommercialRaw): seq<Row> {
    raw.categories.GetOr([])
  }

  /** The category rows of a list of items, in item order. */
  function ItemRows(area: string, items: seq<Row>): (rows: seq<Row>)
    ensures |rows| == |items|
    decreases |items|
  {
    if items == [] then []
    else ItemRows(area, items[..|items| - 1]) + [CategoryRow(area, items[|items| - 1])]
  }

  /** The summary rows the loop has built after the first `n` areas; `clock(i)` is `now()` at area `i`. */
  function Summaries(areas: seq<string>, respond: string -> CityResponse, clock: nat -> string, n: nat): seq<Row>
    requires n <= |areas|
  {
    if n == 0 then []
    else
      var res := respond(areas[n - 1]);
      Summaries(areas, respond, clock, n - 1)
        + if Usable(res) then [SummaryRow(areas[n - 1], res.live.value, clock(n - 1))] else []
  }

  /** The category rows the loop has built after the first `n` areas. */
  function Categories(areas: seq<string>, respond: string -> CityResponse, n: nat): seq<Row>
    requires n <= |areas|
  {
    if n == 0 then []
    else
      var res := respond(areas[n - 1]);
      Categories(areas, respond, n - 1)
        + if Usable(res) then ItemRows(areas[n - 1], Items(res.live.value)) else []
  }

  /**
   * The area loop of `fetch_commercial_data`: an area whose request fails,
   * whose body does not parse or that has no commercial data is skipped;
   * every other area adds its summary row and then one category row per item.
   */
  method FetchCommercialData(areas: seq<string>, respond: string -> CityResponse, clock: nat -> string)
    returns (summaryRows: seq<Row>, categoryRows: seq<Row>)
    ensures summaryRows == Summaries(areas, respond, clock, |areas|)
    ensures categoryRows == Categories(areas, respond, |areas|)
  {
    summaryRows, categoryRows := [], [];
    for i := 0 to |areas|
      invariant summaryRows == Summaries(areas, respond, clock, i)
      invariant categoryRows == Categories(areas, respond, i)
    {
      var area := areas[i];
      var res := respond(area);
      if !Usable(res) {
        continue;
      }
      var raw := res.live.value;
      var timestamp := clock(i);
      summaryRows := summaryRows + [SummaryRow(area, raw, timestamp)];
      var items := Items(raw);
      ghost var before := categoryRows;
      for j := 0 to |items|
        invariant categoryRows == before + ItemRows(area, items[..j])
      {
        assert items[..j + 1][..j] == items[..j];
        categoryRows := categoryRows + [CategoryRow(area, items[j])];
      }
      assert items[..|items|] == items;
    }
  }

  /** The area-name cells of a list of rows. */
  function AreaColumn(rows: seq<Row>): seq<Cell> {
    seq(|rows|, i requires 0 <= i < |rows| => Lookup(rows[i], "area_name"))
  }

  /** Names as text cells. */
  function TextCells(names: seq<string>): seq<Cell> {
    seq(|names|, i requires 0 <= i < |names| => Text(names[i]))
  }

  /**
   * One summary row per usable area, in area order, and none for an area
   * whose request failed, did not parse or had no data: a failing area does
   * not stop the later ones.
   */
  lemma {:induction false} OneSummaryPerUsableArea(areas: seq<string>, respond: string -> CityResponse, clock: nat -> string, n: nat)
    requires n <= |areas|
    ensures AreaColumn(Summaries(areas, respond, clock, n))
         == TextCells(Seqs.Filter((a: string) => Usable(respond(a)), areas[..n]))
  {
    var p := (a: string) => Usable(respond(a));
    if n > 0 {
      OneSummaryPerUsableArea(areas, respond, clock, n - 1);
      assert areas[..n] == areas[..n - 1] + [areas[n - 1]];
      Seqs.FilterAppend(p, areas[..n - 1], [areas[n - 1]]);
      var prev := Summaries(areas, respond, clock, n - 1);
      var kept := Seqs.Filter(p, areas[..n - 1]);
      var res := respond(areas[n - 1]);
      if Usable(res) {
        var row := SummaryRow(areas[n - 1], res.live.value, clock(n - 1));
        assert Seqs.Filter(p, [areas[n - 1]]) == [areas[n - 1]];
        AreaColumnAppend(prev, [row]);
        TextCellsAppend(kept, [areas[n - 1]]);
      } else {
        assert Seqs.Filter(p, [areas[n - 1]]) == [];
        assert kept + [] == kept;
      }
    }
  }

  lemma AreaColumnAppend(a: seq<Row>, b: seq<Row>)
    ensures AreaColumn(a + b) == AreaColumn(a) + AreaColumn(b)
  {
  }

  lemma TextCellsAppend(a: seq<string>, b: seq<string>)
    ensures TextCells(a + b) == TextCells(a) + TextCells(b)
  {
  }

  /** The number of items the usable areas among the first `n` report. */
  function ItemCount(areas: seq<string>, respond: string -> CityResponse, n: nat): nat
    requires n <= |areas|
  {
    if n == 0 then 0
    else
      var res := respond(areas[n - 1]);
      ItemCount(areas, respond, n - 1) + if Usable(res) then |Items(res.live.value)| else 0
  }

  /** One category row per item of every usable area, each naming its area, and no others. */
  lemma {:induction false} OneCategoryRowPerItem(areas: seq<string>, respond: string -> CityResponse, n: nat)
    requires n <= |areas|
    ensures |Categories(areas, respond, n)| == ItemCount(areas, respond, n)
    ensures forall i :: 0 <= i < |Categories(areas, respond, n)| ==>
      NamesUsableArea(Categories(areas, respond, n)[i], areas, respond, n)
  {
    if n > 0 {
      OneCategoryRowPerItem(areas, respond, n - 1);
      var prev := Categories(areas, respond, n - 1);
      var res := respond(areas[n - 1]);
      var cur := Categories(areas, respond, n);
      if Usable(res) {
        var added := ItemRows(areas[n - 1], Items(res.live.value));
        assert cur == prev + added;
        ItemRowsNameArea(areas[n - 1], Items(res.live.value));
        forall i | 0 <= i < |cur|
          ensures NamesUsableArea(cur[i], areas, respond, n)
        {
          if i < |prev| {
            assert NamesUsableArea(prev[i], areas, respond, n - 1);
            var k :| 0 <= k < n - 1 && Usable(respond(areas[k])) && Lookup(prev[i], "area_name") == Text(areas[k]);
            assert cur[i] == prev[i];
          } else {
            assert cur[i] == added[i - |prev|];
            assert Lookup(cur[i], "area_name") == Text(areas[n - 1]);
          }
        }
      } else {
        assert cur == prev;
        forall i | 0 <= i < |cur|
          ensures NamesUsableArea(cur[i], areas, respond, n)
        {
          assert NamesUsableArea(prev[i], areas, respond, n - 1);
          var k :| 0 <= k < n - 1 && Usable(respond(areas[k])) && Lookup(prev[i], "area_name") == Text(areas[k]);
        }
      }
    }
  }

  /** Summary rows carry no `category` column and category rows always do; neither has a `location`. */
  lemma {:induction false} RowColumns(areas: seq<string>, respond: string -> CityResponse, clock: nat -> string, n: nat)
    requires n <= |areas|
    ensures forall r :: r in Summaries(areas, respond, clock, n) ==> "category" !in r && "location" !in r
    ensures forall r :: r in Categories(areas, respond, n) ==> "category" in r && "location" !in r
  {
    if n > 0 {
      RowColumns(areas, respond, clock, n - 1);
      var res := respond(areas[n - 1]);
      if Usable(res) {
        ItemRowColumns(areas[n - 1], Items(res.live.value));
      }
    }
  }

  lemma {:induction false} ItemRowColumns(area: string, items: seq<Row>)
    ensures forall r :: r in ItemRows(area, items) ==> "category" in r && "location" !in r
    decreases |items|
  {
    if items != [] {
      ItemRowColumns(area, items[..|items| - 1]);
    }
  }

  /** The row's `area_name` is one of the first `n` areas, one whose response was usable. */
  ghost predicate NamesUsableArea(row: Row, areas: seq<string>, respond: string -> CityResponse, n: nat)
    requires n <= |areas|
  {
    exists k :: 0 <= k < n && Usable(respond(areas[k])) && Lookup(row, "area_name") == Text(areas[k])
  }

  /** Every category row of an area names that area. */
  lemma {:induction false} ItemRowsNameArea(area: string, items: seq<Row>)
    ensures forall i :: 0 <= i < |ItemRows(area, items)| ==> Lookup(ItemRows(area, items)[i], "area_name") == Text(area)
    decreases |items|
  {
    if items != [] {
      ItemRowsNameArea(area, items[..|items| - 1]);
    }
  }

  /**
   * `AREA_NM.dropna().unique()`: the names that occur, missing ones dropped,
   * each once, in the order of their first occurrence.
   */
  function AreaList(names: seq<Option<string>>): (areas: seq<string>)
    ensures forall i, j :: 0 <= i < j < |areas| ==> areas[i] != areas[j]
    ensures forall i :: 0 <= i < |areas| ==> Some(areas[i]) in names
    ensures forall i :: 0 <= i < |names| && names[i].Some? ==> names[i].value in areas
    ensures forall i, j, q :: 0 <= i < j < |areas| && 0 <= q < |names| && names[q] == Some(areas[j]) ==>
      Some(areas[i]) in names[..q]
    decreases |names|
  {
    if names == [] then []
    else
      var init := AreaList(names[..|names| - 1]);
      var last := names[|names| - 1];
      assert forall i :: 0 <= i < |names| - 1 ==> names[..|names| - 1][i] == names[i];
      assert forall q :: 0 <= q < |names| - 1 ==> names[..|names| - 1][..q] == names[..q];
      if last.Some? && last.value !in init then init + [last.value] else init
  }

  /** The area-to-search-keyword table `mapping_dict`. */
  const KeywordTable: map<string, string> := map[
    "강남 MICE 관광특구" := "코엑스",
    "동대문 관광특구" := "현대시티아울렛 동대문점",
    "명동 관광특구" := "명동성당",
    "이태원 관광특구" := "해밀톤호텔",
    "잠실 관광특구" := "석촌호수",
    "종로·청계 관광특구" := "종각역",
    "홍대 관광특구" := "홍대입구역",
    "광화문·덕수궁" := "광화문",
    "보신각" := "보신각",
    "가산디지털단지역" := "가산디지털단지역",
    "강남역" := "강남역",
    "건대입구역" := "건대입구역",
    "고덕역" := "고덕역",
    "고속터미널역" := "고속터미널역",
    "교대역" := "교대역",
    "구로디지털단지역" := "구로디지털단지역",
    "구로역" := "구로역",
    "군자역" := "군자역",
    "대림역" := "대림역",
    "동대문역" := "동대문역",
    "뚝섬역" := "뚝섬역",
    "미아사거리역" := "미아사거리역",
    "발산역" := "발산역",
    "사당역" := "사당역",
    "서울대입구역" := "서울대입구역",
    "서울식물원·마곡나루역" := "서울식물원",
    "서울역" := "서울역",
    "선릉역" := "선릉역",
    "성신여대입구역" := "성신여대입구역",
    "수유역" := "수유역",
    "신논현역·논현역" := "신논현역",
    "신도림역" := "신도림역",
    "신림역" := "신림역",
    "신촌·이대역" := "신촌역",
    "양재역" := "양재역",
    "역삼역" := "역삼역",
    "연신내역" := "연신내역",
    "오목교역·목동운동장" := "오목교역",
    "왕십리역" := "왕십리역",
    "용산역" := "용산역",
    "이태원역" := "이태원역",
    "장지역" := "장지역",
    "장한평역" := "장한평역",
    "천호역" := "천호역",
    "총신대입구(이수)역" := "총신대입구역",
    "충정로역" := "충정로역",
    "합정역" := "합정역",
    "혜화역" := "혜화역",
    "홍대입구역(2호선)" := "홍대입구역 2호선",
    "회기역" := "회기역",
    "가락시장" := "가락시장",
    "가로수길" := "가로수길",
    "광장(전통)시장" := "광장시장",
    "김포공항" := "김포공항",
    "노량진" := "노량진동",
    "덕수궁길·정동길" := "덕수궁길",
    "북촌한옥마을" := "북촌한옥마을",
    "서촌" := "서촌한옥마을",
    "성수카페거리" := "성수동카페거리",
    "쌍문역" := "쌍문역",
    "압구정로데오거리" := "압구정로데오거리",
    "여의도" := "여의도",
    "연남동" := "연남동",
    "영등포 타임스퀘어" := "타임스퀘어",
    "용리단길" := "용리단길",
    "이태원 앤틱가구거리" := "이태원앤틱가구거리",
    "인사동" := "인사동",
    "창동 신경제 중심지" := "창동역",
    "청담동 명품거리" := "청담동명품거리",
    "청량리 제기동 일대 전통시장" := "청량리전통시장",
    "해방촌·경리단길" := "경리단길",
    "DDP(동대문디자인플라자)" := "동대문디자인플라자",
    "DMC(디지털미디어시티)" := "디지털미디어시티역",
    "북창동 먹자골목" := "북창동먹자골목",
    "남대문시장" := "남대문시장",
    "익선동" := "서울 종로구 익선동",
    "신정네거리역" := "신정네거리역",
    "잠실새내역" := "잠실새내역",
    "잠실역" := "잠실역",
    "잠실롯데타워 일대" := "롯데월드타워",
    "송리단길·호수단길" := "송리단길",
    "신촌 스타광장" := "스타광장"
  ]

  /** `df["area_name"].map(mapping_dict)`: the keyword, or NaN for a name the table lacks. */
  function KeywordCell(area: Cell): Cell {
    match area
    case Text(a) => if a in KeywordTable then Text(KeywordTable[a]) else Null
    case _ => Null
  }

  /**
   * `add_search_keyword`: every row gains a `search_keyword` column, the
   * table's keyword for its area name or NaN when the table has none; no
   * other column changes, and no row is added, dropped or moved.
   */
  function AddSearchKeyword(rows: seq<Row>): (out: seq<Row>)
    ensures |out| == |rows|
    ensures forall i :: 0 <= i < |out| ==> out[i].Keys == rows[i].Keys + {"search_keyword"}
    ensures forall i, k :: 0 <= i < |out| && k in rows[i] && k != "search_keyword" ==> out[i][k] == rows[i][k]
    ensures forall i :: 0 <= i < |out| ==>
      (out[i]["search_keyword"].Text? <==> Lookup(rows[i], "area_name").Text? && Lookup(rows[i], "area_name").text in KeywordTable)
    ensures forall i :: 0 <= i < |out| && out[i]["search_keyword"].Text? ==>
      out[i]["search_keyword"].text == KeywordTable[Lookup(rows[i], "area_name").text]
    ensures forall i :: 0 <= i < |out| && !out[i]["search_keyword"].Text? ==> out[i]["search_keyword"] == Null
  {
    seq(|rows|, i requires 0 <= i < |rows| => rows[i]["search_keyword" := KeywordCell(Lookup(rows[i], "area_name"))])
  }

}
