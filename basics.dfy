/** Small value types shared by the downloader and the grid diff models. */
module Basics {

  /** A value that may be absent: `undefined`/`null` in the source. */
  datatype Option<+T> = None | Some(value: T) {
    /** `x ?? default` / `x || default`. */
    function GetOr(default: T): T {
      if Some? then value else default
    }
  }

  /** The result of an operation that may throw: `Raise(e)` stands for `throw new Error(e)`. */
  datatype Outcome<+E> = Pass | Raise(error: E)

  /** A value or the error that the source would have thrown instead of returning it. */
  datatype Result<+T, +E> = Ok(value: T) | Err(error: E)

  function Min(a: int, b: int): (m: int)
    ensures m <= a && m <= b && (m == a || m == b)
  {
    if a <= b then a else b
  }

  /** `pat` occurs in `t` starting at position `i`. */
  predicate OccursAt<T(==)>(pat: seq<T>, t: seq<T>, i: nat) {
    i + |pat| <= |t| && t[i..i + |pat|] == pat
  }

  /** `t.includes(pat)`, scanning the start positions from `from` on. */
  function ContainsFrom<T(==)>(t: seq<T>, pat: seq<T>, from: nat): (r: bool)
    ensures r <==> exists i :: from <= i && OccursAt(pat, t, i)
    decreases |t| - from
  {
    if from + |pat| > |t| then false
    else if OccursAt(pat, t, from) then true
    else ContainsFrom(t, pat, from + 1)
  }

  /** `t.includes(pat)` (String.prototype.includes). */
  function Contains<T(==)>(t: seq<T>, pat: seq<T>): (r: bool)
    ensures r <==> exists i :: OccursAt(pat, t, i)
  {
    ContainsFrom(t, pat, 0)
  }
}
