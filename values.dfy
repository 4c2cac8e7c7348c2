/** Cell values and rows as the CSV processor sees them once a file is parsed. */
module Values {

  /** A scalar cell: what a parsed CSV (strings), an exported row (ints, None) or a saved
      state (booleans) can hold. */
  datatype Value = VNull | VBool(b: bool) | VInt(i: int) | VStr(s: string)

  /** A row is a mapping from column name to value. */
  type Row = map<string, Value>

  datatype Option<T> = None | Some(value: T)

  /** A staging or rollback queue entry: `(rownum, row)`. */
  datatype Entry = Entry(rownum: nat, row: Row)

  /** The rows of a queue, in queue order. */
  function RowsOf(entries: seq<Entry>): (rows: seq<Row>)
    ensures |rows| == |entries|
    ensures forall k :: 0 <= k < |entries| ==> rows[k] == entries[k].row
  {
    seq(|entries|, k requires 0 <= k < |entries| => entries[k].row)
  }

  /** Index of the first name of `names` that is not in `present`, or |names|. */
  function FirstNotIn(names: seq<string>, present: set<string>): (k: nat)
    ensures k <= |names|
    ensures forall i :: 0 <= i < k ==> names[i] in present
    ensures k < |names| ==> names[k] !in present
    decreases |names|
  {
    if names == [] || names[0] !in present then 0 else 1 + FirstNotIn(names[1..], present)
  }

  function DigitChar(d: nat): (c: char)
    requires d < 10
    ensures '0' <= c <= '9'
  {
    "0123456789"[d]
  }

  /** Decimal rendering of a natural number, as Python's str(n). */
  function NatToString(n: nat): (s: string)
    ensures |s| >= 1
    ensures forall k :: 0 <= k < |s| ==> '0' <= s[k] <= '9'
    decreases n
  {
    if n < 10 then [DigitChar(n)] else NatToString(n / 10) + [DigitChar(n % 10)]
  }

  /** Decimal rendering of an integer, as Python's str(i). */
  function IntToString(i: int): (s: string)
    ensures |s| >= 1
    ensures (s[0] == '-') <==> i < 0
  {
    if i < 0 then "-" + NatToString(-i) else NatToString(i)
  }

  /** The text a value contributes to a checksum or to a written CSV cell:
      str(v), except that None becomes the empty string. */
  function CellText(v: Value): (t: string)
    ensures v.VStr? ==> t == v.s
    ensures v.VNull? ==> t == ""
    ensures v.VInt? ==> t == IntToString(v.i)
  {
    match v
    case VNull => ""
    case VBool(b) => if b then "True" else "False"
    case VInt(i) => IntToString(i)
    case VStr(s) => s
  }

  /** Python truthiness of a value. */
  predicate Truthy(v: Value) {
    match v
    case VNull => false
    case VBool(b) => b
    case VInt(i) => i != 0
    case VStr(s) => s != ""
  }

  /** Python truthiness of "a dict or None": present and non-empty. */
  predicate RowTruthy(r: Option<Row>) {
    r.Some? && r.value != map[]
  }

  /** Python list indexing `xs[i]` for a list of length `len`: negative indexes count
      from the end, anything else out of range is an IndexError (None). */
  function PyIndex(i: int, len: nat): (r: Option<nat>)
    ensures r.Some? ==> r.value < len
    ensures r.Some? <==> -(len as int) <= i < len
    ensures 0 <= i < len ==> r == Some(i)
  {
    if 0 <= i < len then Some(i)
    else if -(len as int) <= i < 0 then Some(len + i)
    else None
  }
}
