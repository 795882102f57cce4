/**
 * The values a filter is written with: what a JSON configuration decodes to
 * in Python, and the `isinstance` test the operator registry applies to them.
 */
module PyValues {

  /** A decoded JSON value. */
  datatype Val =
    | VNull                    // None
    | VBool(b: bool)           // True / False
    | VInt(i: int)             // int, unbounded as in Python
    | VFloat(f: real)          // float: only its kind matters, no arithmetic is done
    | VStr(s: string)          // str
    | VList(items: seq<Val>)   // list
    | VDict                    // dict: its entries never reach a constraint

  /** The Python types a registry entry names: `str`, `int` and `float`. */
  datatype Kind = Text | Integer | Float

  /** `isinstance(v, k)`; `bool` is a subclass of `int`, so a boolean is an instance of `int`. */
  predicate IsInstance(v: Val, k: Kind)
  {
    match k
    case Text => v.VStr?
    case Integer => v.VInt? || v.VBool?
    case Float => v.VFloat?
  }

  /** `any(isinstance(v, t) for t in allowed)`. */
  predicate Matches(v: Val, allowed: set<Kind>)
  {
    exists k :: k in allowed && IsInstance(v, k)
  }

  /** Only lists and dicts are unhashable, so only they cannot be looked up as a dict key. */
  predicate Hashable(v: Val)
  {
    !v.VList? && !v.VDict?
  }

  /** A value is an instance of at most one of the three kinds; a boolean only of `int`. */
  lemma KindIsUnique(v: Val, j: Kind, k: Kind)
    requires IsInstance(v, j) && IsInstance(v, k)
    ensures j == k
  {
  }
}
