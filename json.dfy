/**
 * An abstract view of JSON documents: the values that encoding/json writes
 * and reads, without their byte-level syntax. Objects are maps, so a key
 * occurs at most once; numbers are integers.
 */
module JsonView {

  datatype Json =
    | JNull
    | JBool(b: bool)
    | JNum(n: int)
    | JStr(s: string)
    | JArr(items: seq<Json>)
    | JObj(fields: map<string, Json>)

  /**
   * How the decoder stores object member `key` into a string field whose
   * current value is `cur`: an absent member or `null` leaves the field as it
   * is, a string replaces it, anything else is a type error (the field is left
   * as it is and the error is reported once decoding ends).
   */
  function StoreString(cur: string, m: map<string, Json>, key: string): (string, bool)
  {
    if key !in m then (cur, true)
    else match m[key]
      case JNull => (cur, true)
      case JStr(s) => (s, true)
      case _ => (cur, false)
  }

  /** As StoreString, for a field of a Go integer type with range [lo, hi]. */
  function StoreInt(cur: int, m: map<string, Json>, key: string, lo: int, hi: int): (r: (int, bool))
    requires lo <= cur <= hi
    ensures lo <= r.0 <= hi
  {
    if key !in m then (cur, true)
    else match m[key]
      case JNull => (cur, true)
      case JNum(n) => if lo <= n <= hi then (n, true) else (cur, false)
      case _ => (cur, false)
  }

  /** As StoreString, for a bool field. */
  function StoreBool(cur: bool, m: map<string, Json>, key: string): (bool, bool)
  {
    if key !in m then (cur, true)
    else match m[key]
      case JNull => (cur, true)
      case JBool(b) => (b, true)
      case _ => (cur, false)
  }

  /** Member `key` is one that a string field accepts: absent, null or a string. */
  predicate StringOrAbsent(m: map<string, Json>, key: string)
  {
    key !in m || m[key].JNull? || m[key].JStr?
  }

  /** Member `key` is one that an integer field of range [lo, hi] accepts. */
  predicate IntOrAbsent(m: map<string, Json>, key: string, lo: int, hi: int)
  {
    key !in m || m[key].JNull? || (m[key].JNum? && lo <= m[key].n <= hi)
  }
}
