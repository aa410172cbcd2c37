# Seoul parking and commercial-area pipeline, modelled in Dafny

This project models the two batch jobs of the parking-data ELK pipeline.

- **Parking job** (`scripts/upload_parking_data.py` with the parking half of `scripts/utils.py`):
  - It pages through the city's `GetParkingInfo` service in windows of 1000 records.
  - It keeps the on-street lots that report live occupancy, have non-negative free space and were updated today.
  - It geocodes each lot's address.
  - It computes the availability rate and whether the lot is open now.
  - It stamps every row with the run's time and weekday, and adds an hourly charge, a congestion label and the district.
  - It builds one bulk action per lot that has a location, for the `seoul_parking` index.
- **Commercial job** (`scripts/upload_commercial_data.py` with the commercial half of `scripts/utils.py`):
  - It reads the list of major areas and asks the `citydata` service for each area's live commercial status.
  - It reshapes each answer into one summary row and one row per business category.
  - It maps area names to search keywords and geocodes the keywords.
  - It reads the parking documents back from the index.
  - For every area it counts the lots within 300 m and averages their availability.
  - It uploads both frames to `seoul_commercial` and `seoul_commercial_categories`.

Pandas frames are modelled two ways:
- The parking rows become records with one typed field per column (`Records`).
- The commercial rows become maps from column name to a `Cell` that is null, text, a number or a geo-point (`Cells`).

The following are parameters rather than calls:
- every HTTP exchange: a paging window's answer, an area's `citydata` answer, a geocoder answer;
- the clock and the holiday calendar (`Clock`, `Stamp`);
- the geodesic distance (`dist`);
- whether an index already exists.

Nothing is sent to Elasticsearch. The model returns the index mapping that would be created and the list of bulk actions.

Rates are kept in exact arithmetic:
- `round(2)` of a ratio becomes an integer number of hundredths, rounded half to even.
- `round(charge / minutes * 60)` becomes an integer, rounded the same way.

Modules, in dependency order:
- `Wrappers`: `Option`.
- `Seqs`: filtering and counting with their algebra.
- `Numbers`: rounding, and integer parsing as `int()` does it.
- `Text`: `str.split()`.
- `Paging`: the paging loop.
- `Records` and `Cells`: the row types.
- `Validity`: `filter_valid_parking`.
- `Geocoding`: both geocoders and the `location` columns.
- `Availability`: the rate and opening status.
- `ParkingUpload`: the parking `main`.
- `CommercialFetch`: the area loop and the keyword table.
- `SpatialJoin`: `add_parking_count`.
- `CommercialUpload`: the commercial `main`.

## Model

| member | source | states |
|---|---|---|
| Paging.FetchAll | scripts/utils.py:31-45 | the collected rows are exactly the rows of every window whose request succeeded and parsed, concatenated in window order |
| Paging.WindowsTile | scripts/utils.py:33-34 | the windows are empty iff the total is not positive; each window lies in 1..total and spans at most 1000 records; windows are disjoint and ascending; a record number is covered iff it lies in 1..total |
| Paging.WindowsFromShape | scripts/utils.py:33-34 | the windows from `start` start there and each starts right after the previous one ends; the last one ends at the total |
| Paging.WindowCount | scripts/utils.py:33 | the number of requests is ceil((total - start + 1) / 1000), and none when start exceeds the total |
| Paging.GatheredAppend | scripts/utils.py:33-40 | gathering distributes over concatenated window lists |
| Paging.FailedPageSkipped | scripts/utils.py:37-45 | a failed window contributes nothing and does not stop the windows after it |
| Paging.GatheredSizeWhenAllSucceed | scripts/utils.py:37-40 | when every window returns its full size, the rows number the sum of the window sizes |
| Paging.SizeOfWindows | scripts/utils.py:33-34 | the window sizes sum to total - start + 1 |
| Paging.AllPagesSucceed | scripts/utils.py:29-40 | when every planned window returns its full size, exactly `list_total_count` rows are collected |
| Validity.FilterValid | scripts/utils.py:52-74 | a row is kept iff it is on-street ("NW"), reports live data ("1"), has both counts, free space >= 0 and today's update date; kept rows keep their order and multiplicity |
| Geocoding.GeocodeComplete | scripts/utils.py:87-95 | latitude and longitude are found together, exactly for a 200 answer with at least one document, and they come from the first document |
| Geocoding.MakeLocationComplete | scripts/utils.py:101-106 | a location exists iff both coordinates do, and it is made of them |
| Geocoding.AddGeolocation | scripts/utils.py:77-108 | a frame with no rows gives no frame, because unpacking the empty `zip` raises; otherwise one output per lot, in order, with coordinates from the lot's address and a location exactly when both are found |
| Geocoding.AddGeolocationFromKakao | scripts/utils.py:343-366 | one output row per area, other columns unchanged; coordinates from the area's search keyword; `location` is a point made of them when both are numbers, and null otherwise |
| Availability.AvailableRate | scripts/utils.py:127-129 | the rate exists iff both counts exist and the capacity is not 0; it is within half a hundredth of (capacity - occupied) / capacity |
| Availability.RateBounds | scripts/utils.py:115-117 | for 0 <= occupied <= capacity the rate lies in 0..1; it is 1 when the lot is empty and 0 when it is full |
| Availability.RateExample | scripts/utils.py:117 | 70 cars in 100 spaces give 0.30 |
| Availability.DivisionBounds | scripts/utils.py:128 | the exact ratio of free to total spaces lies in 0..1 |
| Availability.ZeroCapacityHasNoRate | scripts/utils.py:127-129 | a lot with no capacity has no rate |
| Availability.OperatingStatus | scripts/utils.py:131-158 | the status is "운영 중" or "운영 종료"; it is "운영 중" iff the hours of today's kind (holiday, weekday, Saturday, Sunday) both parse as integers and start <= HHMM <= end |
| Availability.MissingHoursMeanClosed | scripts/utils.py:155-156 | hours that do not parse give "운영 종료" |
| Availability.HolidayTakesPrecedence | scripts/utils.py:137-150 | on a public holiday the status is the one the holiday hours give on a Sunday, whatever the weekday |
| Availability.StatusReadsOnlyItsDayType | scripts/utils.py:137-150 | two lots with the same hours for today's kind of day get the same status |
| Availability.TuesdayMorningExample | scripts/utils.py:142-144 | a lot open 0600-2200 on weekdays is open at 09:00 on a Tuesday |
| Availability.ComputeAvailabilityAndStatus | scripts/utils.py:111-163 | one output per lot, in order; each row keeps its lot, its rate is `AvailableRate` of its own counts and its status is `OperatingStatus` of its own hours at the clock |
| Numbers.RoundHalfEven | scripts/utils.py:129 | the rounded value is within 0.5 of the input, and an exact tie goes to the even neighbour |
| Numbers.RoundHalfEvenOfInteger | scripts/upload_parking_data.py:107 | rounding leaves an integer unchanged |
| Numbers.RoundHalfEvenWithin | scripts/utils.py:129 | rounding keeps a value within integer bounds that enclose it |
| Numbers.ParseInteger | scripts/utils.py:138-150 | parsing succeeds iff the text is digits, optionally after a leading '-'; the value is the positional value of the digits, negated after '-' |
| Numbers.DigitsValueAppend | scripts/utils.py:138-150 | the digits of a prefix weigh 10^k times those of a k-digit suffix, for every pair of digit strings |
| Numbers.DigitsValueBound | scripts/utils.py:138-150 | a k-digit string is worth less than 10^k, so four digits give at most 9999 |
| Numbers.LeadingZerosKeepValue | scripts/utils.py:138-150 | leading zeros do not change what `int()` gives, for every digit string ("0900" and "900" both read 900) |
| Numbers.DecimalRoundTrip | scripts/utils.py:138-150 | parsing inverts decimal rendering: the rendering of every integer, with '-' for negatives, parses back to it |
| Numbers.DecimalValue | scripts/utils.py:138-150 | the decimal rendering of n has the value n |
| Numbers.DigitsValueExamples | scripts/utils.py:122 | "0900" parses as 900 and "-12" as -12; "" and "9a" do not parse |
| ParkingUpload.WeekdayLabel | scripts/upload_parking_data.py:96-98 | the label of day d (Monday = 0) is an entry of 월..일 that belongs to d and to no other day |
| ParkingUpload.WeekdayLabelsDistinct | scripts/upload_parking_data.py:96-101 | two days get the same label iff they are the same day, so the label and `weekday_order` agree |
| ParkingUpload.HourlyRate | scripts/upload_parking_data.py:104-110 | a charge exists iff the basic charge and time exist and the time is positive; it is within 0.5 of charge / minutes * 60 |
| ParkingUpload.HourlyRateExamples | scripts/upload_parking_data.py:104-110 | 1000 won per 30 minutes is 2000 won an hour; a zero time or a missing charge gives none |
| ParkingUpload.CongestionThresholds | scripts/upload_parking_data.py:116-124 | on a rounded rate: "정보 없음" iff the rate is missing, "혼잡" iff it is below 0.30, "보통" iff it is in 0.30..0.69, "여유" iff it is 0.70 or more |
| ParkingUpload.FirstDistrictIndex | scripts/upload_parking_data.py:131 | the index is that of the first word ending in 구, or past the end when no word does |
| ParkingUpload.District | scripts/upload_parking_data.py:129-133 | no address gives no district; otherwise the district is the first whitespace-separated word ending in 구, and there is none only when no word ends in 구 |
| ParkingUpload.DistrictIsAWord | scripts/upload_parking_data.py:131 | a district is a non-empty word without whitespace |
| ParkingUpload.DistrictIsFirstGuWord | scripts/upload_parking_data.py:131 | "<city> <gu> <rest>" yields the gu when the city word does not end in 구 |
| ParkingUpload.NoGuWordNoDistrict | scripts/upload_parking_data.py:130-133 | an address has no district exactly when none of its words ends in 구, and then the result is None rather than a failure |
| ParkingUpload.SharedStampIds | scripts/upload_parking_data.py:40 | within one run, two documents share an id iff the lots share a name |
| ParkingUpload.EnrichAll | scripts/upload_parking_data.py:90-135 | one enriched row per lot, in order; each has the run's stamp, the stamp's day of the week as `weekday_order` with its label, `HourlyRate` of its basic charge and time, `CongestionLabel` of its rate and `District` of its address |
| ParkingUpload.BuildActions | scripts/upload_parking_data.py:37-67 | one action per lot with a location, in lot order, and none for the others; each targets the index and carries the lot's document |
| ParkingUpload.RunParkingPipeline | scripts/upload_parking_data.py:16-138 | the run stops at the filter exactly when no row was fetched, and at geocoding exactly when rows were fetched but none is valid; otherwise the mapping (`location` geo_point, `timestamp` date) is created only when the index is missing, and the actions are the composition fetch, filter, geocode, status, enrich, build, each with the lot-name-and-time id, the run's timestamp and a location |
| Text.Words | scripts/upload_parking_data.py:131 | `split()` yields non-empty words without whitespace |
| Text.WordsLoseOnlySpace | scripts/upload_parking_data.py:131 | joining the words gives back the text without its whitespace |
| Text.WordsSplitAtSpace | scripts/upload_parking_data.py:131 | a whitespace character splits the word list in two |
| Text.WordsOfWord | scripts/upload_parking_data.py:131 | a whitespace-free word splits into itself |
| Seqs.Filter | scripts/utils.py:65-72 | a filter keeps exactly the elements satisfying the predicate |
| Seqs.FilterMultiplicity | scripts/utils.py:65-72 | each kept element keeps its multiplicity, and every dropped one has none |
| Seqs.FilterIsSubsequence | scripts/utils.py:65-72 | the kept rows appear in their original order |
| Seqs.CountWhereOrderIndependent | scripts/utils.py:390-400 | a count does not depend on the order of the rows |
| CommercialFetch.FetchCommercialData | scripts/utils.py:189-237 | the summary and category rows are exactly what the area loop builds: per usable area one summary row, then one row per category item |
| CommercialFetch.OneSummaryPerUsableArea | scripts/utils.py:192-219 | the summary rows name exactly the areas whose request succeeded, parsed and had commercial data, in area order |
| CommercialFetch.OneCategoryRowPerItem | scripts/utils.py:221-232 | there is one category row per item of every usable area, and each names a usable area |
| CommercialFetch.ItemRowsNameArea | scripts/utils.py:223-225 | every category row of an area carries that area's name |
| CommercialFetch.RowColumns | scripts/utils.py:212-232 | summary rows have no `category` column, category rows do, and neither has a `location` |
| CommercialFetch.AreaList | scripts/utils.py:186-187 | the area list has no duplicates, holds exactly the non-missing names of the sheet, and lists them in the order of their first occurrence |
| CommercialFetch.AddSearchKeyword | scripts/utils.py:241-339 | every row gains `search_keyword`: the table's keyword when the area name is in the table, NaN otherwise; nothing else changes |
| SpatialJoin.NearCount | scripts/utils.py:384-400 | an area without a location counts 0; a count never exceeds the number of lots |
| SpatialJoin.AddParkingCount | scripts/utils.py:369-403 | the nested loops give every area the number of located lots within the radius of its location |
| SpatialJoin.NearCountOrderIndependent | scripts/utils.py:390-400 | the count does not depend on the order of the parking rows |
| SpatialJoin.NearCountMonotone | scripts/utils.py:398 | a larger radius never counts fewer lots |
| SpatialJoin.UnlocatedLotIgnored | scripts/utils.py:391-393 | a lot without a location changes no count |
| SpatialJoin.ZeroRadiusCountsCoincidingLots | scripts/utils.py:394-399 | with a radius of 0 an area counts exactly the lots at its own location, for a distance that is 0 only between equal points |
| CommercialUpload.DropNulls | scripts/upload_commercial_data.py:34 | the document source holds exactly the row's non-null cells, unchanged |
| CommercialUpload.DropNullsIdempotent | scripts/upload_commercial_data.py:34 | dropping nulls twice equals dropping them once, and removes only the null columns |
| CommercialUpload.CategoryIdsCollideAsWritten | scripts/upload_commercial_data.py:41 | the actions the source builds for two different category rows of one area and run have the same id |
| CommercialUpload.CategoryDocumentsShareAreaId | scripts/upload_commercial_data.py:33-47 | in the uploaded category frame every row gets one action, with id `<its area's keyword>_<run time>`; any two rows of one area get the same id |
| CommercialUpload.CategoryIdsDistinct | scripts/upload_commercial_data.py:41 | with the category in the id, two category rows of one run share an id only if they share keyword and category |
| CommercialUpload.FrameActionsKeepRule | scripts/upload_commercial_data.py:33-47 | there is one action per kept row, in row order, and none for a skipped row; each carries the id `<search_keyword>_<timestamp>` of its row and the row's non-null cells |
| CommercialUpload.UploadToElasticsearch | scripts/upload_commercial_data.py:16-47 | the index is created only when missing, with `location` as geo_point iff the frame has that column; the loop's actions are `FrameActions` |
| CommercialUpload.NoLocationColumnKeepsAll | scripts/upload_commercial_data.py:37 | a frame without a `location` column uploads every row |
| CommercialUpload.LocatedSourcesOnly | scripts/upload_commercial_data.py:34-38 | in a frame with a `location` column every uploaded source has a truthy location and no null cell |
| CommercialUpload.FrameShape | scripts/upload_commercial_data.py:31-47 | every action targets its index; there are no more actions than rows; a source has no column the frame lacks |
| CommercialUpload.GetParkingData | scripts/upload_commercial_data.py:55-83 | one row per document, in order; `location` is a point iff both coordinates are non-null, and then it is made of them; nothing else changes |
| CommercialUpload.AddAvgAvailableRate | scripts/upload_commercial_data.py:85-107 | each area gets the mean of the non-null rates of the lots within 300 m; it gets none when no lot is near or every near rate is null |
| CommercialUpload.MeanBounds | scripts/upload_commercial_data.py:100 | the mean of values between two bounds lies between them |
| CommercialUpload.SumBounds | scripts/upload_commercial_data.py:100 | the sum of n values between lo and hi lies between n*lo and n*hi |
| CommercialUpload.AverageIsAShare | scripts/upload_commercial_data.py:92-104 | when every lot's rate lies in 0..1, so does every area's average, and an average exists only if some lot is within 300 m |
| CommercialUpload.PrepareCategories | scripts/upload_commercial_data.py:117-138 | each category row gains its area's keyword from the table (NaN when the table lacks the area), the run's timestamp and `to_numeric` of its `payment_count`; no row is added, dropped or moved and no other column changes |
| CommercialUpload.PrepareSummary | scripts/upload_commercial_data.py:116-137 | the summary stages fail exactly when there are parking rows and some area did not geocode; otherwise the result is `SummaryFrame`, whose columns `SummaryFrameColumns` states |
| CommercialUpload.SummaryFrameColumns | scripts/upload_commercial_data.py:115-137 | each uploaded summary row holds its area's keyword, the location its keyword geocoded to, the count of lots within 300 m, their average rate, the run's timestamp and the numeric payment count; every other fetched column is kept |
| CommercialUpload.CountStage | scripts/upload_commercial_data.py:125-126 | each area gets as `parking_count_300m` the number of located lots within 300 m of its location (0 without one), keeps its other columns, and keeps its shape |
| CommercialUpload.CountAndStamp | scripts/upload_commercial_data.py:125-130 | each area gets its count and then the run's timestamp; its coordinates, and so whether it has a centre, are unchanged |
| CommercialUpload.NumericKeepsShape | scripts/upload_commercial_data.py:136-137 | converting `payment_count` keeps every row, the timestamp, a location column of the right kind and each area's own location cell |
| CommercialUpload.AverageStage | scripts/upload_commercial_data.py:85-107 | the average step fails iff there are parking rows and some area has no coordinates; otherwise each area gets `AverageFor` as `avg_available_rate_300m` and nothing else changes |
| CommercialUpload.UploadFrames | scripts/upload_commercial_data.py:141-142 | both frames are uploaded: the summary's actions are its `FrameActions`, each with a geo-point; the category frame gets an empty mapping and one action per row, with the ids line 41 builds |
| CommercialUpload.RunCommercialPipeline | scripts/upload_commercial_data.py:109-142 | the run stops at the keyword step exactly when there are no category rows, and at the average step exactly when there are category rows, parking documents and an area that did not geocode; it uploads exactly when neither holds, and then the summary actions are those of `SummaryFrame` and the category actions those of `PrepareCategories`, one per category row, with the ids of line 41 |

## Left out

- The HTTP requests, `.env` keys, `print` output, the Excel reader and the Elasticsearch client are left out. Their answers are parameters, and what would be sent is the result.
- The probe request in `fetch_parking_data` that reads `list_total_count` is left out: its value is a parameter. In the source a failure of that request ends the run.
- Floating point is not modelled. Ratios are exact, and `round` rounds exact values half to even. A ratio whose binary approximation falls on the other side of a tie may round differently in the source.
- Availability.AvailableRate: a zero capacity with a negative vehicle count passes `filter_valid_parking`, and pandas then gives an infinite rate. The model gives no rate there.
- Numbers.ParseInteger: `int()` also accepts surrounding whitespace, a leading '+' and digit-group underscores. The model rejects them, so such hours read as closed.
- CommercialUpload.ToNumeric: `pd.to_numeric` also parses decimals and exponents. The model converts only integer text and turns other text into NaN.
- The parking geocoder's coordinates are stored as the provider's text in the source. The model stores them as numbers.
- A `citydata` answer whose `CMRCL_RSB` is JSON null makes the source fail while iterating. The model treats it as an empty list.
- The clock is read once per area for summary rows and once per run for the stamp. The model takes both as parameters and does not relate them.
- Availability.ComputeAvailabilityAndStatus: `get_operating_status` reads `datetime.now()` for each row (scripts/utils.py:132-134). The model evaluates every row at one `Clock`, so a run that crosses a minute, or midnight and with it the holiday test, can give the source's rows different clocks that the model does not capture.
- ParkingUpload.BuildActions: the source builds the id from `str()` of the timestamp (scripts/upload_parking_data.py:40) and stores the datetime itself as `timestamp` (line 58), which the client serialises in ISO form. The model uses the one text `stamp.text` for both, so it does not capture the space-versus-'T' difference between the id and the stored value.
- A crash in either geocoder's JSON decoding is not modelled, nor a 200 answer without `documents`, on which `result['documents']` raises (scripts/utils.py:95 and the keyword geocoder alike). Every answer is a status and a document list.
- The parking search is capped at 10000 documents, and which documents come back is up to the index. `hits` is the returned list.
- With an empty search result the model has no parking rows. The source's frame operations on a frame without columns are not modelled.
- `Series.mean()` returns NaN, not None, when every near rate is null. Both are the null cell here.
- CommercialUpload.AverageStage: the model stops on any area without coordinates while there are parking documents. When only some areas fail to geocode, their coordinates become NaN and the source passes them to the distance function, which rejects a non-finite point. When every area fails (a missing or expired API key, say), `zip(*...)` at scripts/utils.py:355 builds columns of `None`, not NaN. The distance library, which is not part of this model, reads a `None` coordinate as 0. The source then measures from (0, 0), finds no lot and goes on: it uploads every category row, and no summary row, since none has a location. The model stops at this stage there instead.
- CommercialUpload.RunCommercialPipeline: because of the AverageStage stop above, its "uploads iff" does not capture the run in which every area fails to geocode and there are parking documents. The source uploads the category frame there, and the model reports `Stopped("add_avg_available_rate")`.
- CommercialUpload.RunCommercialPipeline requires every parking document to have numeric coordinates. Documents read back without them make `loc["lat"]` fail in the source.
- The scripts under `data/` and the dashboards are not part of this model.

## Findings

| source | as written | input that shows it | evidently intended | confidence | as-written member | corrected member |
|---|---|---|---|---|---|---|
| scripts/upload_commercial_data.py:41 | the document id is `search_keyword + "_" + timestamp` for every frame, and `main` gives all category rows one timestamp (line 131) | one area whose `CMRCL_RSB` lists two categories: both rows get the id `<keyword>_<run time>`, so the second document overwrites the first | one document per (area, category) per run, with the category in the id of a category row | not executed | CommercialUpload.CategoryIdsCollideAsWritten | CommercialUpload.CategoryIdsDistinct |

The pipeline members (`ActionFor`, `FrameActions`, `UploadToElasticsearch`, `UploadFrames`, `RunCommercialPipeline`) build the ids as line 41 writes them, so the modelled run shows the collision (`CategoryDocumentsShareAreaId`). `CommercialUpload.DocumentId` is the corrected id, and `CategoryIdsDistinct` is proved about it.
