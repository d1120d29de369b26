/** The tables the app passes between its steps: rows with a Date column. */
module Table {
  import opened Calendar

  /** A table row: its Date column and the other columns, carried along untouched. */
  datatype Dated<T> = Dated(date: Date, fields: T)
}
