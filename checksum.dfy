/** ChecksumMixin (mixins.py): a checksum over chosen columns, written into each exported
    row and checked on each row read back. The md5 digest is not modelled: it is passed
    in as a function returning 32 lowercase hexadecimal digits. */
module Checksums {
  import opened Values
  import opened Overrides
  import opened Exporting

  predicate IsHexDigit(c: char) {
    '0' <= c <= '9' || 'a' <= c <= 'f'
  }

  /** What `hexdigest()` of an md5 hash returns. */
  type HexDigest = s: string | |s| == 32 && forall k :: 0 <= k < |s| ==> IsHexDigit(s[k])
    witness "00000000000000000000000000000000"

  /** `hashlib.md5(text.encode('utf8')).hexdigest()` */
  type Digest = string -> HexDigest

  /** The mixin's class attributes: `secret`, `checksum_columns`, `checksum_fieldname` and
      `checksum_size`. */
  datatype ChecksumConfig = ChecksumConfig(secret: string, columns: seq<string>, fieldname: string, size: nat)

  /** The defaults: no columns, field `csum`, four digits; the secret is the deployment's
      SECRET_KEY setting. */
  function DefaultConfig(secret: string): ChecksumConfig {
    ChecksumConfig(secret, [], "csum", 4)
  }

  /** `','.join(items)` */
  function Join(sep: string, items: seq<string>): string
    decreases |items|
  {
    if items == [] then "" else if |items| == 1 then items[0] else items[0] + sep + Join(sep, items[1..])
  }

  function MismatchText(columns: seq<string>): string {
    "Checksum mismatch. Required columns cannot be edited: " + Join(",", columns)
  }

  /** The texts of the checksum columns, concatenated in column order. */
  function Joined(row: Row, columns: seq<string>): string
    requires forall c :: c in columns ==> c in row
    decreases |columns|
  {
    if columns == [] then "" else CellText(row[columns[0]]) + Joined(row, columns[1..])
  }

  /** Python's `s[:n]` for n >= 0. */
  function Prefix(s: string, n: nat): (p: string)
    ensures |p| == if n <= |s| then n else |s|
    ensures p <= s
  {
    if n <= |s| then s[..n] else s
  }

  /** `_get_checksum(row)`: a KeyError names the first checksum column the row lacks. */
  function GetChecksum(md5: Digest, cfg: ChecksumConfig, row: Row): (r: Raises<string>)
    ensures r.Returns? <==> forall c :: c in cfg.columns ==> c in row
    ensures !r.RaisesValidation?
    ensures r.RaisesOther? ==>
      exists k :: 0 <= k < |cfg.columns| && r.message == KeyErrorText(cfg.columns[k]) && cfg.columns[k] !in row
        && forall j :: 0 <= j < k ==> cfg.columns[j] in row
  {
    var k := FirstNotIn(cfg.columns, row.Keys);
    if k < |cfg.columns| then RaisesOther(KeyErrorText(cfg.columns[k]))
    else Returns("@" + Prefix(md5(Joined(row, cfg.columns) + cfg.secret), cfg.size))
  }

  /** The checksum is `@` followed by the first `checksum_size` digits of the digest (all
      32 when the size is larger). */
  lemma ChecksumShape(md5: Digest, cfg: ChecksumConfig, row: Row)
    requires forall c :: c in cfg.columns ==> c in row
    ensures var s := GetChecksum(md5, cfg, row).value;
      && |s| == 1 + (if cfg.size <= 32 then cfg.size else 32)
      && s[0] == '@'
      && s[1..] <= md5(Joined(row, cfg.columns) + cfg.secret)
      && forall k :: 1 <= k < |s| ==> IsHexDigit(s[k])
  {
    var d := md5(Joined(row, cfg.columns) + cfg.secret);
    var s := GetChecksum(md5, cfg, row).value;
    assert s[1..] == Prefix(d, cfg.size);
    forall k | 1 <= k < |s|
      ensures IsHexDigit(s[k])
    {
      assert s[k] == d[k - 1];
    }
  }

  /** The concatenation sees only each column's text. */
  lemma {:induction false} JoinedByText(a: Row, b: Row, columns: seq<string>)
    requires forall c :: c in columns ==> c in a && c in b && CellText(a[c]) == CellText(b[c])
    ensures Joined(a, columns) == Joined(b, columns)
    decreases |columns|
  {
    if columns != [] {
      JoinedByText(a, b, columns[1..]);
    }
  }

  /** Representation independence: rows whose checksum columns have the same texts (None
      and '', 0 and '0') have the same checksum, and other columns do not matter. */
  lemma ChecksumByText(md5: Digest, cfg: ChecksumConfig, a: Row, b: Row)
    requires forall c :: c in cfg.columns ==> c in a && c in b && CellText(a[c]) == CellText(b[c])
    ensures GetChecksum(md5, cfg, a) == GetChecksum(md5, cfg, b)
  {
    JoinedByText(a, b, cfg.columns);
  }

  /** ChecksumMixin.validate_row: the checksum is recomputed first, then compared with the
      row's checksum field; it does not call the base class's validate_row. */
  function ValidateRow(md5: Digest, cfg: ChecksumConfig, row: Row): (r: Raises<()>)
    ensures r.RaisesValidation? <==>
      GetChecksum(md5, cfg, row).Returns? && cfg.fieldname in row
      && row[cfg.fieldname] != VStr(GetChecksum(md5, cfg, row).value)
    ensures r.RaisesValidation? ==> r.message == MismatchText(cfg.columns)
    ensures r.Returns? <==>
      GetChecksum(md5, cfg, row).Returns? && cfg.fieldname in row
      && row[cfg.fieldname] == VStr(GetChecksum(md5, cfg, row).value)
    ensures r.RaisesOther? && GetChecksum(md5, cfg, row).Returns? ==> r.message == KeyErrorText(cfg.fieldname)
    ensures !GetChecksum(md5, cfg, row).Returns? ==> r == RaisesOther(GetChecksum(md5, cfg, row).message)
  {
    var sum := GetChecksum(md5, cfg, row);
    if !sum.Returns? then RaisesOther(sum.message)
    else if cfg.fieldname !in row then RaisesOther(KeyErrorText(cfg.fieldname))
    else if row[cfg.fieldname] != VStr(sum.value) then RaisesValidation(MismatchText(cfg.columns))
    else Returns(())
  }

  /** ChecksumMixin.preprocess_export_row: the row gains its checksum under the checksum
      field and nothing else changes. */
  function ExportRow(md5: Digest, cfg: ChecksumConfig, row: Row): (r: Raises<Row>)
    ensures r.Returns? <==> GetChecksum(md5, cfg, row).Returns?
    ensures r.Returns? ==>
      && r.value.Keys == row.Keys + {cfg.fieldname}
      && r.value[cfg.fieldname] == VStr(GetChecksum(md5, cfg, row).value)
      && forall k :: k in row && k != cfg.fieldname ==> r.value[k] == row[k]
  {
    var sum := GetChecksum(md5, cfg, row);
    if sum.Returns? then Returns(row[cfg.fieldname := VStr(sum.value)]) else RaisesOther(sum.message)
  }

  /** A processor class with the mixin in front of `base`. */
  function WithChecksum(md5: Digest, cfg: ChecksumConfig, base: Overrides): (o: Overrides)
    ensures o.preprocessRow == base.preprocessRow && o.processRow == base.processRow
    ensures o.rowsToExport == base.rowsToExport
    ensures forall row :: o.validateRow(row) == ValidateRow(md5, cfg, row)
    ensures forall row :: o.preprocessExportRow(row) == ExportRow(md5, cfg, row)
  {
    base.(validateRow := row => ValidateRow(md5, cfg, row),
          preprocessExportRow := row => ExportRow(md5, cfg, row))
  }

  /** A row prepared for export validates, as long as the checksum field is not itself a
      checksum column. */
  lemma ExportThenValidate(md5: Digest, cfg: ChecksumConfig, row: Row)
    requires cfg.fieldname !in cfg.columns
    requires forall c :: c in cfg.columns ==> c in row
    ensures ValidateRow(md5, cfg, ExportRow(md5, cfg, row).value) == Returns(())
  {
    ChecksumByText(md5, cfg, row, ExportRow(md5, cfg, row).value);
  }

  /** The row DictReader makes from a header and one line of cells: each column maps to
      its cell, a later duplicate column winning. */
  function ReadLine(header: seq<string>, cells: seq<string>): (r: Row)
    requires |cells| == |header|
    ensures r.Keys == set c | c in header
    decreases |header|
  {
    if header == [] then map[]
    else ReadLine(header[..|header| - 1], cells[..|header| - 1])[header[|header| - 1] := VStr(cells[|header| - 1])]
  }

  /** Reading back a written line gives, under each column, a string whose text is the
      text written from the row (empty for a column the row lacks). */
  lemma {:induction false} ReadWrittenLine(columns: seq<string>, row: Row)
    ensures forall c :: c in columns ==>
      ReadLine(columns, Line(columns, row))[c] == VStr(if c in row then CellText(row[c]) else "")
    decreases |columns|
  {
    if columns != [] {
      var n := |columns| - 1;
      assert Line(columns, row)[..n] == Line(columns[..n], row);
      ReadWrittenLine(columns[..n], row);
      forall c | c in columns
        ensures ReadLine(columns, Line(columns, row))[c] == VStr(if c in row then CellText(row[c]) else "")
      {
        if c != columns[n] {
          assert c in columns[..n] by {
            var j :| 0 <= j < |columns| && columns[j] == c;
            assert j < n && columns[..n][j] == c;
          }
        }
      }
    }
  }

  /** Round trip through a file: a row exported with its checksum, written under columns
      that include the checksum columns and the checksum field, and read back as text,
      validates. */
  lemma WrittenRowValidates(md5: Digest, cfg: ChecksumConfig, columns: seq<string>, row: Row)
    requires cfg.fieldname !in cfg.columns
    requires forall c :: c in cfg.columns ==> c in row && c in columns
    requires cfg.fieldname in columns
    ensures ValidateRow(md5, cfg, ReadLine(columns, Line(columns, ExportRow(md5, cfg, row).value))) == Returns(())
  {
    var exported := ExportRow(md5, cfg, row).value;
    var back := ReadLine(columns, Line(columns, exported));
    ReadWrittenLine(columns, exported);
    ChecksumByText(md5, cfg, row, back);
    ChecksumByText(md5, cfg, row, exported);
  }
}
