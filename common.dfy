/** Value types shared by the whole model: optional values, results, vectors,
    matrices, and a few sums over sequences. */
module Common {

  datatype Option<T> = None | Some(value: T)

  datatype Result<T, E> = Success(value: T) | Failure(error: E)

  /** A real vector, standing for an n×1 or 1×n numpy array. */
  type Vector = seq<real>

  /** A real matrix, row by row. Its numerics are abstract throughout the model. */
  type Matrix = seq<seq<real>>

  /** np.eye(n) */
  function Identity(n: nat): Matrix {
    seq(n, i => seq(n, j => if i == j then 1.0 else 0.0))
  }

  /** np.zeros((1, n)) */
  function ZeroRow(n: nat): Matrix {
    [seq(n, _ => 0.0)]
  }

  /** `v * -1` */
  function Negate(v: Vector): Vector {
    seq(|v|, k requires 0 <= k < |v| => -v[k])
  }

  /** `v * x` for a scalar x */
  function Scale(v: Vector, x: real): Vector {
    seq(|v|, k requires 0 <= k < |v| => v[k] * x)
  }

  /** True when every component is 0, i.e. the Euclidean norm is 0. */
  predicate IsZero(v: Vector) {
    forall k :: 0 <= k < |v| ==> v[k] == 0.0
  }

  function Sum(s: seq<int>): int {
    if |s| == 0 then 0 else Sum(s[..|s| - 1]) + s[|s| - 1]
  }

  lemma SumSnoc(s: seq<int>, x: int)
    ensures Sum(s + [x]) == Sum(s) + x
  {
    assert (s + [x])[..|s|] == s;
  }

  function Pow2(k: nat): nat {
    if k == 0 then 1 else 2 * Pow2(k - 1)
  }

  function Min(a: int, b: int): int {
    if a <= b then a else b
  }

  function MinReal(a: real, b: real): real {
    if a <= b then a else b
  }

  /** Python's `min` of a non-empty list of floats. */
  function SeqMin(s: seq<real>): (m: real)
    requires |s| > 0
    ensures forall k :: 0 <= k < |s| ==> m <= s[k]
    ensures exists k :: 0 <= k < |s| && m == s[k]
  {
    if |s| == 1 then s[0] else MinReal(SeqMin(s[..|s| - 1]), s[|s| - 1])
  }

  /** The minimum of a concatenation is the smaller of the two minima. */
  lemma {:induction false} SeqMinConcat(a: seq<real>, b: seq<real>)
    requires |a| > 0 && |b| > 0
    ensures SeqMin(a + b) == MinReal(SeqMin(a), SeqMin(b))
  {
    var ab := a + b;
    var m := SeqMin(ab);
    var k :| 0 <= k < |ab| && m == ab[k];
    if k < |a| {
      assert ab[k] == a[k];
    } else {
      assert ab[k] == b[k - |a|];
    }
    var ka :| 0 <= ka < |a| && SeqMin(a) == a[ka];
    var kb :| 0 <= kb < |b| && SeqMin(b) == b[kb];
    assert ab[ka] == a[ka];
    assert ab[|a| + kb] == b[kb];
  }
}
