/**
 * The fail-fast loops of the service (`predict_batch`, `analyze_batch`):
 * item `i` has outcome `f(i)`; the loop collects the values of successes in
 * order and stops at the first failure, which it propagates.  `Outcomes(f, n)`
 * is what the first `n` passes would produce had none of them stopped the loop.
 */
module Batch {
  import opened Wrappers

  ghost function Outcomes<T, E>(f: nat --> Result<T, E>, n: nat): (r: seq<Result<T, E>>)
    requires forall j :: 0 <= j < n ==> f.requires(j)
    ensures |r| == n
  {
    if n == 0 then [] else Outcomes(f, n - 1) + [f(n - 1)]
  }

  /** A longer run starts with the outcomes of a shorter one. */
  lemma {:induction false} OutcomesPrefix<T, E>(f: nat --> Result<T, E>, m: nat, n: nat)
    requires m <= n
    requires forall j :: 0 <= j < n ==> f.requires(j)
    ensures Outcomes(f, m) == Outcomes(f, n)[..m]
    decreases n
  {
    if m < n {
      OutcomesPrefix(f, m, n - 1);
      assert Outcomes(f, n)[..n - 1] == Outcomes(f, n - 1);
    }
  }

  /** The `j`-th outcome is the outcome of item `j`. */
  lemma OutcomesIndex<T, E>(f: nat --> Result<T, E>, n: nat, j: nat)
    requires j < n
    requires forall k :: 0 <= k < n ==> f.requires(k)
    ensures Outcomes(f, n)[j] == f(j)
  {
    OutcomesPrefix(f, j + 1, n);
  }

  /** A pass that succeeds with `v` extends the collected values by `v`. */
  lemma OutcomesExtend<T, E>(f: nat --> Result<T, E>, i: nat, values: seq<T>, v: T)
    requires forall j :: 0 <= j <= i ==> f.requires(j)
    requires |values| == i && forall j :: 0 <= j < i ==> Outcomes(f, i)[j] == Success(values[j])
    requires f(i) == Success(v)
    ensures forall j :: 0 <= j < i + 1 ==> Outcomes(f, i + 1)[j] == Success((values + [v])[j])
  {
    assert Outcomes(f, i + 1) == Outcomes(f, i) + [f(i)];
  }

  /** Item `i` is the first failure of the whole run when every earlier item succeeds and it fails. */
  lemma FirstFailure<T, E>(f: nat --> Result<T, E>, n: nat, i: nat)
    requires i < n
    requires forall j :: 0 <= j < n ==> f.requires(j)
    requires forall j :: 0 <= j < i ==> Outcomes(f, i)[j].Success?
    ensures Outcomes(f, n)[i] == f(i)
    ensures forall j :: 0 <= j < i ==> Outcomes(f, n)[j].Success?
  {
    OutcomesPrefix(f, i + 1, n);
    var all := Outcomes(f, n);
    var first := Outcomes(f, i + 1);
    assert first == Outcomes(f, i) + [f(i)];
    assert all[i] == first[i];
    forall j | 0 <= j < i ensures all[j].Success? {
      assert all[j] == first[j] == Outcomes(f, i)[j];
    }
  }
}
