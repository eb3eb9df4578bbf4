/** The files the ingestion code reads, as values: rows of the indicator
    dictionary CSV, observation frames read with pandas, and GeoJSON files. */
module Inputs {
  import opened Query
  import opened Models

  /** A CSV cell as pandas gives it: a string, or NaN where the cell is empty. */
  datatype Cell = Str(s: string) | NaN

  /** `x and not isinstance(x, float)`: a non-empty string. */
  predicate NonEmptyText(c: Cell) {
    c.Str? && c.s != ""
  }

  /** The value of an expression that may raise: a value or the exception's name. */
  datatype Outcome<T> = Ok(value: T) | Err(error: string)

  /** One row of the indicator dictionary. */
  datatype DictRow = DictRow(indicatorSlug: Cell, indicatorTitle: Cell,
                             indicatorDescription: Cell, indicatorCategory: Cell,
                             unit: Cell, dataSource: Cell, parent: Cell, visible: Cell)

  /** One row of an observation frame: the geography code it is about (the
      `object-id` index, or the `object_id` column), its `timeperiod`, and the
      numeric columns, NaN read as `None`. */
  datatype DataRow = DataRow(code: string, timeperiod: string, cells: map<string, Option<int>>)

  /** An observation frame: its numeric column names and its rows. */
  datatype Frame = Frame(columns: set<string>, rows: seq<DataRow>)

  /** `row[column]` for a column of the row's frame (every row of a frame
      has a cell in each column). */
  function ValueAt(row: DataRow, column: string): Option<int> {
    if column in row.cells then row.cells[column] else None
  }

  /** A GeoJSON feature: its `properties` and its (opaque) geometry. */
  datatype Feature = Feature(properties: map<string, string>, geometry: Shape)

  /** A GeoJSON file: where it lies, its top-level `name` and its features. */
  datatype GeoFile = GeoFile(path: string, name: string, features: seq<Feature>)

  /** An observation CSV: where it lies and what pandas reads from it. */
  datatype DataFile = DataFile(path: string, frame: Frame)
}
