/** The file-level half of reading: `read_file` and `validate_file` (csv_processor.py).
    A file arrives already parsed into a header and rows. */
module Files {
  import opened Values
  import opened ErrorLogs
  import opened Overrides
  import opened States

  /** An uploaded file: its `name` and `size` attributes when it has them, the header
      line's column names (None for an empty file) and the parsed rows. */
  datatype CsvFile = CsvFile(name: Option<string>, size: Option<nat>, header: Option<seq<string>>, rows: seq<Row>)

  /** The class attributes of a processor subclass that the file checks read. */
  datatype Config = Config(columns: seq<string>, requiredColumns: seq<string>, maxFileSize: nat)

  /** The base class's `max_file_size`: 2 MiB. A value of 0 disables the size check. */
  const DefaultMaxFileSize: nat := 2 * 1024 * 1024

  const BaseConfig: Config := Config([], [], DefaultMaxFileSize)

  /** str(TypeError) for `field not in None`, which is what the column check does on a
      file without a header line. */
  const NoHeaderText := "argument of type 'NoneType' is not iterable"

  function SizeText(max: nat): string {
    "The CSV file must be under " + NatToString(max) + " bytes"
  }

  function MissingText(column: string): string {
    "Missing column: " + column
  }

  /** The file is too large: only when it has a size and the limit is not 0. */
  predicate TooLarge(cfg: Config, file: CsvFile) {
    file.size.Some? && cfg.maxFileSize != 0 && file.size.value > cfg.maxFileSize
  }

  /** `validate_file`: the size check first, then the required columns in their order. */
  function ValidateFile(cfg: Config, file: CsvFile): (r: Raises<()>)
    ensures r.Returns? <==>
      !TooLarge(cfg, file) &&
      (cfg.requiredColumns == [] || (file.header.Some? && forall c :: c in cfg.requiredColumns ==> c in file.header.value))
    ensures TooLarge(cfg, file) ==> r == RaisesValidation(SizeText(cfg.maxFileSize))
    ensures r.RaisesValidation? && !TooLarge(cfg, file) ==>
      file.header.Some? &&
      exists k :: 0 <= k < |cfg.requiredColumns| && r.message == MissingText(cfg.requiredColumns[k])
        && cfg.requiredColumns[k] !in file.header.value
        && forall j :: 0 <= j < k ==> cfg.requiredColumns[j] in file.header.value
    ensures r.RaisesOther? <==> !TooLarge(cfg, file) && cfg.requiredColumns != [] && file.header.None?
  {
    if TooLarge(cfg, file) then RaisesValidation(SizeText(cfg.maxFileSize))
    else if cfg.requiredColumns == [] then Returns(())
    else if file.header.None? then RaisesOther(NoHeaderText)
    else
      var k := FirstNotIn(cfg.requiredColumns, set c | c in file.header.value);
      if k < |cfg.requiredColumns| then RaisesValidation(MissingText(cfg.requiredColumns[k]))
      else Returns(())
  }

  /** What `read_file` hands back: the reader, None after a ValidationError, or an
      exception that escapes it. */
  datatype Read = Reader | NoReader | ReadRaised(message: string)

  /** `read_file` on state `st`: the filename is always recorded; a ValidationError is
      recorded as an error at row 0. */
  function ReadFileSpec(cfg: Config, st: State, file: CsvFile): (r: (State, Read))
  {
    var named := st.(filename := if file.name.Some? then file.name.value else "");
    match ValidateFile(cfg, file)
    case Returns(_) => (named, Reader)
    case RaisesValidation(m) => (named.(errorMessages := Add(named.errorMessages, m, 0)), NoReader)
    case RaisesOther(m) => (named, ReadRaised(m))
  }

  /** A rejected file leaves one error, at row 0, with the check's message, and touches
      nothing but the filename and the error map. */
  lemma RejectedFile(cfg: Config, file: CsvFile)
    requires ValidateFile(cfg, file).RaisesValidation?
    ensures var (s, read) := ReadFileSpec(cfg, Initial, file);
      && read == NoReader
      && s.errorMessages.Keys() == [ValidateFile(cfg, file).message]
      && RowsFor(s.errorMessages, ValidateFile(cfg, file).message) == [0]
      && s.totalRows == 0 && s.stage == [] && s.resultData == []
  {
  }

  /** An accepted file changes nothing but the filename. */
  lemma AcceptedFile(cfg: Config, st: State, file: CsvFile)
    requires ValidateFile(cfg, file).Returns?
    ensures ReadFileSpec(cfg, st, file).0 == st.(filename := ReadFileSpec(cfg, st, file).0.filename)
    ensures ReadFileSpec(cfg, st, file).1 == Reader
  {
  }
}
