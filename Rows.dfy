/**
 * A spreadsheet row as the catalog code sees it: each column name mapped to the
 * text `str(...)` produces for its cell.
 */
module Rows {

  type Bytes = seq<bv8>

  type Row = map<string, string>

  /** `str(row.get(key, ""))`: the cell under `key`, or "" when the row has no such column. */
  function Field(row: Row, key: string): string {
    if key in row then row[key] else ""
  }
}
