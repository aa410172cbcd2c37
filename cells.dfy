/**
 * A pandas row of the commercial pipeline (and a document source read back
 * from the index) as a map from column name to cell. `Null` stands for both
 * `None` and `NaN`.
 */
module Cells {

  import opened Wrappers
  import opened Records

  datatype Cell = Null | Text(text: string) | Number(number: real) | Point(point: GeoPoint)

  type Row = map<string, Cell>

  /** `row.get(key)`: the cell, or `None` when the column is absent. */
  function Lookup(row: Row, key: string): Cell {
    if key in row then row[key] else Null
  }

  /** Python truthiness of a cell: `None`/`NaN` is not a location, a dict always is. */
  predicate Truthy(c: Cell) {
    match c
    case Null => false
    case Text(s) => s != ""
    case Number(x) => x != 0.0
    case Point(_) => true
  }

  /** The geo-point a row's `location` column holds, if any. */
  function LocationOf(row: Row): Option<GeoPoint> {
    if "location" in row && row["location"].Point? then Some(row["location"].point) else None
  }
}
