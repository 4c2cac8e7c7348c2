/** The methods a CSVProcessor subclass overrides, as explicit values, and the outcomes
    they can have: a return value, a ValidationError, or any other exception. */
module Overrides {
  import opened Values

  /** The outcome of a hook call. */
  datatype Raises<T> =
    | Returns(value: T)
    | RaisesValidation(message: string)   // ValidationError(message)
    | RaisesOther(message: string)        // any other exception, str(e) == message

  /** `process_row`'s return value `(did_save, rollback_row)`. */
  datatype Applied = Applied(didSave: bool, undo: Option<Row>)

  /** validate_row, preprocess_row, process_row, preprocess_export_row (the row as it
      leaves the call, which may update it in place) and get_rows_to_export of one
      processor class. */
  datatype Overrides = Overrides(
    validateRow: Row -> Raises<()>,
    preprocessRow: Row -> Raises<Option<Row>>,
    processRow: Row -> Raises<Applied>,
    preprocessExportRow: Row -> Raises<Row>,
    rowsToExport: seq<Row>)

  /** The base class's own definitions: every row is valid, preprocessing returns the row,
      nothing is saved, exported rows are left as they are, there is nothing to export. */
  const Defaults: Overrides := Overrides(
    row => Returns(()),
    row => Returns(Some(row)),
    row => Returns(Applied(false, None)),
    row => Returns(row),
    [])

  /** str(KeyError(key)) */
  function KeyErrorText(key: string): string {
    "'" + key + "'"
  }
}
