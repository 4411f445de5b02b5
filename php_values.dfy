/**
 * The PHP values the orders controller reads: database rows (orders, cart
 * items, subtotal rows) whose attributes are strings or nested arrays, and
 * request parameters, which are strings.  `empty()`, string conversion and
 * `==`/`!=` against a string are written out here.
 */
module PhpValues {
  import opened Wrappers

  /** One attribute of a row: a string, or a nested array (such as an order's
      `fields` or a cart item's `options`). */
  datatype Cell = Text(s: string) | Nested(entries: map<string, string>)

  /** A row as an associative array. */
  type Record = map<string, Cell>

  /** `$row[$k]`: None stands for PHP's null (missing key). */
  function Lookup(row: Record, k: string): Option<Cell> {
    if k in row then Some(row[k]) else None
  }

  /** `$row[$outer][$inner]` on a nested array; a string or a missing entry reads as null. */
  function LookupNested(row: Record, outer: string, inner: string): Option<string> {
    match Lookup(row, outer)
    case Some(Nested(m)) => if inner in m then Some(m[inner]) else None
    case _ => None
  }

  /** PHP `empty()` of a string or null: null, `""` and `"0"` are empty. */
  predicate EmptyText(v: Option<string>) {
    v.None? || v.value == "" || v.value == "0"
  }

  /** PHP `empty()` of a row attribute: in addition, an empty array is empty. */
  predicate EmptyCell(v: Option<Cell>) {
    match v
    case None => true
    case Some(Text(s)) => EmptyText(Some(s))
    case Some(Nested(m)) => m == map[]
  }

  /** String conversion used by `.` concatenation: null gives `""`, an array `"Array"`. */
  function StrOf(v: Option<Cell>): string {
    match v
    case None => ""
    case Some(Text(s)) => s
    case Some(Nested(_)) => "Array"
  }

  /** PHP `$v == $s` for a string `$s`: null equals only `""`, an array never
      equals a string, two strings compare by content. */
  predicate LooseEqualsText(v: Option<Cell>, s: string) {
    match v
    case None => s == ""
    case Some(Text(t)) => t == s
    case Some(Nested(_)) => false
  }
}
