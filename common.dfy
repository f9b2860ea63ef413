/** Small value types shared by every other module of the model. */
module Common {

  /** A value that may be missing. JavaScript's NaN results of `parseInt` and
      `parseFloat` are modelled as `None`. */
  datatype Option<+T> = None | Some(value: T)

  /** The outcome of an operation that may throw. */
  datatype Result<+T, +E> = Success(value: T) | Failure(error: E)

  /** JavaScript's `s || fallback` on a string: only the empty string is falsy. */
  function Or(s: string, fallback: string): (r: string)
    ensures s != "" ==> r == s
    ensures s == "" ==> r == fallback
  {
    if s == "" then fallback else s
  }

  /** JavaScript's `b ? 'true' : 'false'` as emitted by the exporters. */
  function BoolText(b: bool): (r: string)
    ensures r == "true" || r == "false"
    ensures b <==> r == "true"
  {
    if b then "true" else "false"
  }

  /** True if `c` occurs somewhere in `s`. */
  predicate Contains(s: string, c: char)
  {
    exists i :: 0 <= i < |s| && s[i] == c
  }

  /** A count that grows by `step` at each of its first `n` steps has grown by
      `step * n`. */
  lemma {:induction false} CountBySteps(count: nat -> nat, step: nat, n: nat)
    requires forall i: nat :: 1 <= i <= n ==> count(i) == count(i - 1) + step
    ensures count(n) == count(0) + step * n
  {
    if n > 0 {
      CountBySteps(count, step, n - 1);
    }
  }
}
