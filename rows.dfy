/** Parsed spreadsheet rows, as the CSV and Excel readers hand them over. */
module Rows {

  /** One parsed CSV/Excel row: header -> cell text. */
  type Row = map<string, string>

  /** `row.get(primary, row.get(fallback, ""))`: the first header wins, even
      when its cell is empty. */
  function Field(row: Row, primary: string, fallback: string): string {
    if primary in row then row[primary]
    else if fallback in row then row[fallback]
    else ""
  }
}
