/**
 * Decoded JSON values as Python's `json.loads` produces them: `None`, booleans,
 * numbers, strings, lists and dicts.  A dict is an insertion-ordered
 * association list (module Dicts).  Numbers are integers here: the backend only
 * passes numbers through or prints them.
 */
module JsonData {
  import opened Outcomes
  import opened Dicts

  datatype Json =
    | JNull
    | JBool(b: bool)
    | JNum(n: int)
    | JStr(s: string)
    | JArr(items: seq<Json>)
    | JObj(fields: seq<(string, Json)>)

  /** A JSON object's members: a Python `Dict[str, Any]`. */
  type Fields = Dict<string, Json>

  /** Python can use the value as a dict key: lists and dicts are unhashable. */
  predicate Hashable(j: Json)
  {
    !j.JArr? && !j.JObj?
  }

  /** Decimal text of an integer, as `str(n)` prints it. */
  function IntToString(n: int): (s: string)
    ensures |s| >= 1
    ensures n < 0 <==> s[0] == '-'
  {
    if n < 0 then "-" + NatToString(-n) else NatToString(n)
  }

  function NatToString(n: nat): (s: string)
    ensures |s| >= 1 && s[0] != '-'
  {
    if n < 10 then ["0123456789"[n]] else NatToString(n / 10) + ["0123456789"[n % 10]]
  }

  /** `sep.join(parts)`. */
  function Join(parts: seq<string>, sep: string): string
  {
    if parts == [] then ""
    else if |parts| == 1 then parts[0]
    else parts[0] + sep + Join(parts[1..], sep)
  }

  /**
   * `str(j)` as an f-string renders it: a string is itself; other values are
   * rendered as `repr` does.
   */
  function Str(j: Json): string
  {
    if j.JStr? then j.s else Repr(j)
  }

  /** `repr(j)`: strings quoted, containers rendered element by element. */
  function Repr(j: Json): string
    decreases j
  {
    match j
    case JNull => "None"
    case JBool(b) => if b then "True" else "False"
    case JNum(n) => IntToString(n)
    case JStr(s) => "'" + s + "'"
    case JArr(items) =>
      "[" + Join(seq(|items|, i requires 0 <= i < |items| => Repr(items[i])), ", ") + "]"
    case JObj(fields) =>
      "{" + Join(seq(|fields|, i requires 0 <= i < |fields| =>
                   "'" + fields[i].0 + "': " + Repr(fields[i].1)), ", ") + "}"
  }
}
