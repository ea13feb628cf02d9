/** Evaluation scores. The original program mixes integers with `float('inf')` and
    `float('-inf')`, which it only ever uses as win and loss sentinels; a score is therefore an
    integer extended with two infinities. */
module Scores {

  datatype Score = NegInf | Fin(n: int) | PosInf

  /** The order of the extended integers (Python's `<=` on these values). */
  predicate Le(a: Score, b: Score)
  {
    a.NegInf? || b.PosInf? || (a.Fin? && b.Fin? && a.n <= b.n)
  }

  /** Strict order (Python's `<`). */
  predicate Lt(a: Score, b: Score)
  {
    !Le(b, a)
  }

  /** Python's `max(a, b)`: `b` when it is strictly larger, `a` otherwise. */
  function Max(a: Score, b: Score): (m: Score)
    ensures Le(a, m) && Le(b, m)
    ensures m == a || m == b
  {
    if Lt(a, b) then b else a
  }

  /** Python's `min(a, b)`: `b` when it is strictly smaller, `a` otherwise. */
  function Min(a: Score, b: Score): (m: Score)
    ensures Le(m, a) && Le(m, b)
    ensures m == a || m == b
  {
    if Lt(b, a) then b else a
  }

  /** `Le` is a total order: reflexive, antisymmetric, transitive and total, with `NegInf` at the
      bottom and `PosInf` at the top. */
  lemma TotalOrder(a: Score, b: Score, c: Score)
    ensures Le(a, a)
    ensures Le(a, b) && Le(b, a) ==> a == b
    ensures Le(a, b) && Le(b, c) ==> Le(a, c)
    ensures Le(a, b) || Le(b, a)
    ensures Le(NegInf, a) && Le(a, PosInf)
  {
  }
}
