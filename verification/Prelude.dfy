/** Small datatypes and sequence helpers shared by the other modules. */
module Prelude {

  datatype Option<+T> = None | Some(value: T)

  /** True for a present, non-empty string: what Python treats as a truthy optional string. */
  predicate Truthy(s: Option<string>) {
    s.Some? && s.value != ""
  }

  predicate OccursAt(s: string, t: string, i: int) {
    0 <= i <= |s| - |t| && s[i..i + |t|] == t
  }

  /** JavaScript's `s.includes(t)`, Python's `t in s`. */
  predicate Includes(s: string, t: string) {
    exists i :: 0 <= i <= |s| - |t| && OccursAt(s, t, i)
  }

  /** `int(x)` of a finite float cuts towards zero. */
  function Truncate(r: real): int {
    if r >= 0.0 then r.Floor else -((-r).Floor)
  }

  lemma TruncateCuts(r: real)
    ensures r >= 0.0 ==> 0.0 <= r - Truncate(r) as real < 1.0
    ensures r <= 0.0 ==> -1.0 < r - Truncate(r) as real <= 0.0
  {
  }

  /** The state after the first n of some steps. */
  function Fold<S, T>(step: (S, T) -> S, s: S, ts: seq<T>, n: nat): S
    requires n <= |ts|
  {
    if n == 0 then s else step(Fold(step, s, ts, n - 1), ts[n - 1])
  }

  lemma Assoc<T>(a: seq<T>, b: seq<T>, c: seq<T>)
    ensures (a + b) + c == a + (b + c)
  {
  }

  predicate NoDuplicates<T(==)>(s: seq<T>) {
    forall i, j :: 0 <= i < j < |s| ==> s[i] != s[j]
  }
}
