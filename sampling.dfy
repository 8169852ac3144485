/** The sampler family. Random and quasi-random draws are abstract: a base sampler is
    seen only through the sequence of vectors it hands out. The wrappers (mirrored,
    orthogonal) keep their bookkeeping exactly; the Gram-Schmidt arithmetic and the norms
    are abstract functions, but the loops that apply them are kept. */
module Sampling {
  import opened Common

  /** A sampler seen through its output: its k-th call returns source(k). With the stream
      of numpy.random.randn draws this is GaussianSampling. */
  class BaseSampler {
    const n: nat
    const source: nat -> Vector
    var drawn: nat

    constructor (n: nat, source: nat -> Vector)
      ensures this.n == n && this.source == source && drawn == 0
    {
      this.n := n;
      this.source := source;
      drawn := 0;
    }

    method Next() returns (v: Vector)
      modifies this`drawn
      ensures v == source(old(drawn)) && drawn == old(drawn) + 1
    {
      v := source(drawn);
      drawn := drawn + 1;
    }
  }

  /** MirroredSampling: alternately a fresh draw from the base sampler and the negation of it. */
  class MirroredSampling {
    const n: nat
    const base: BaseSampler
    ghost const baseStart: nat
    var mirrorNext: bool
    var lastSample: Option<Vector>
    /** Every vector returned so far, oldest first. */
    ghost var returned: seq<Vector>

    /** Even positions are consecutive fresh base draws, odd positions negate the one before. */
    ghost predicate Valid()
      reads this, base
    {
      && base.drawn == baseStart + (|returned| + 1) / 2
      && mirrorNext == (|returned| % 2 == 1)
      && (forall k :: 0 <= k < |returned| && k % 2 == 0 ==> returned[k] == base.source(baseStart + k / 2))
      && (forall k :: 0 <= k < |returned| && k % 2 == 1 ==> returned[k] == Negate(returned[k - 1]))
      && (mirrorNext ==> lastSample == Some(returned[|returned| - 1]))
    }

    constructor (n: nat, base: BaseSampler)
      ensures Valid()
      ensures this.n == n && this.base == base && baseStart == base.drawn
      ensures !mirrorNext && lastSample == None && returned == []
    {
      this.n := n;
      this.base := base;
      baseStart := base.drawn;
      mirrorNext := false;
      lastSample := None;
      returned := [];
    }

    method Next() returns (sample: Vector)
      requires Valid()
      modifies this`mirrorNext, this`lastSample, this`returned, base`drawn
      ensures Valid()
      ensures returned == old(returned) + [sample]
      ensures mirrorNext == !old(mirrorNext)
      ensures !old(mirrorNext) ==>
        sample == base.source(old(base.drawn)) && base.drawn == old(base.drawn) + 1 && lastSample == Some(sample)
      ensures old(mirrorNext) ==>
        sample == Negate(old(lastSample).value) && base.drawn == old(base.drawn) && lastSample == old(lastSample)
    {
      var mirror := mirrorNext;
      mirrorNext := !mirror;
      if !mirror {
        sample := base.Next();
        lastSample := Some(sample);
      } else {
        sample := Negate(lastSample.value);
      }
      returned := returned + [sample];
    }
  }

  /** The floating-point parts of OrthogonalSampling, left abstract. */
  datatype OrthoNumerics = OrthoNumerics(
    norm: Vector -> real,                   // numpy.linalg.norm
    unit: Vector -> Vector,                 // v / norm(v)
    project: (Vector, Vector) -> Vector,    // vec_i - vec_j * (dot(vec_i.T, vec_j) / norm(vec_j)**2)
    hasNaN: seq<Vector> -> bool)            // any(isnan(samples))

  /** vectors[i] after the inner Gram-Schmidt loop over the already rewritten vectors ws. */
  function ProjectOnto(num: OrthoNumerics, v: Vector, ws: seq<Vector>): Vector
    decreases |ws|
  {
    if |ws| == 0 then v else num.project(ProjectOnto(num, v, ws[..|ws| - 1]), ws[|ws| - 1])
  }

  /** The vectors after both projection loops of __gramSchmidt. */
  function Projected(num: OrthoNumerics, vs: seq<Vector>): (r: seq<Vector>)
    ensures |r| == |vs|
    decreases |vs|
  {
    if |vs| == 0 then []
    else
      var front := Projected(num, vs[..|vs| - 1]);
      front + [ProjectOnto(num, vs[|vs| - 1], front)]
  }

  /** The normalisation loop of __gramSchmidt: a vector of norm 0 is replaced by a fresh base
      draw made a unit vector. Also gives the base sampler's draw counter afterwards. */
  function Normalised(num: OrthoNumerics, vs: seq<Vector>, source: nat -> Vector, next: nat): (r: (seq<Vector>, nat))
    ensures |r.0| == |vs| && next <= r.1
    decreases |vs|
  {
    if |vs| == 0 then ([], next)
    else
      var front := Normalised(num, vs[..|vs| - 1], source, next);
      var v := vs[|vs| - 1];
      if num.norm(v) == 0.0 then (front.0 + [num.unit(source(front.1))], front.1 + 1)
      else (front.0 + [num.unit(v)], front.1)
  }

  /** How many vectors have norm 0. */
  function CountZero(num: OrthoNumerics, vs: seq<Vector>): nat
    decreases |vs|
  {
    if |vs| == 0 then 0
    else CountZero(num, vs[..|vs| - 1]) + (if num.norm(vs[|vs| - 1]) == 0.0 then 1 else 0)
  }

  /** Normalising consumes one base draw per collapsed vector, in order: vector i is its own
      unit vector, or the unit vector of the draw numbered by the collapses before it. */
  lemma {:induction false} NormalisedAt(num: OrthoNumerics, vs: seq<Vector>, source: nat -> Vector, next: nat, i: nat)
    requires i < |vs|
    ensures Normalised(num, vs, source, next).1 == next + CountZero(num, vs)
    ensures Normalised(num, vs, source, next).0[i] ==
      if num.norm(vs[i]) == 0.0 then num.unit(source(next + CountZero(num, vs[..i]))) else num.unit(vs[i])
  {
    var front := vs[..|vs| - 1];
    if i < |vs| - 1 {
      NormalisedAt(num, front, source, next, i);
      assert front[..i] == vs[..i];
    } else if |vs| > 1 {
      NormalisedAt(num, front, source, next, 0);
      assert vs[..i] == front;
    } else {
      assert vs[..i] == [];
      assert front == [];
    }
  }

  /** One call of __generateSamples, drawing from index start of the base stream: count raw
      draws; the first min(count, n) are orthonormalised and scaled back to their lengths;
      the rest are kept as drawn. Also gives the draw counter afterwards. */
  function Batch(num: OrthoNumerics, source: nat -> Vector, start: nat, count: nat, n: nat): (r: (seq<Vector>, nat))
    ensures |r.0| == count
  {
    var raw := seq(count, i requires 0 <= i < count => source(start + i));
    var k := Min(count, n);
    var units := Normalised(num, Projected(num, raw[..k]), source, start + count);
    (seq(count, i requires 0 <= i < count => if i < k then Scale(units.0[i], num.norm(raw[i])) else raw[i]), units.1)
  }

  /** The three stages of a batch, assembled: what GenerateSamples computes is Batch. */
  lemma BatchFrom(num: OrthoNumerics, source: nat -> Vector, start: nat, count: nat, n: nat,
                  raw: seq<Vector>, lengths: seq<real>, units: (seq<Vector>, nat), result: seq<Vector>)
    requires raw == seq(count, j requires 0 <= j < count => source(start + j))
    requires |lengths| == count && forall j :: 0 <= j < count ==> lengths[j] == num.norm(raw[j])
    requires units == Normalised(num, Projected(num, raw[..Min(count, n)]), source, start + count)
    requires |result| == count
    requires forall j :: 0 <= j < Min(count, n) ==> result[j] == Scale(units.0[j], lengths[j])
    requires forall j :: Min(count, n) <= j < count ==> result[j] == raw[j]
    ensures result == Batch(num, source, start, count, n).0 && units.1 == Batch(num, source, start, count, n).1
  {
  }

  /** Draws beyond the first n are returned exactly as the base sampler produced them; the
      batch costs count draws plus one per collapsed vector. */
  lemma BatchShape(num: OrthoNumerics, source: nat -> Vector, start: nat, count: nat, n: nat, i: nat)
    requires n <= i < count
    ensures Batch(num, source, start, count, n).0[i] == source(start + i)
    ensures var raw := seq(count, j requires 0 <= j < count => source(start + j));
      Batch(num, source, start, count, n).1 == start + count + CountZero(num, Projected(num, raw[..n]))
  {
    var raw := seq(count, j requires 0 <= j < count => source(start + j));
    if n > 0 {
      NormalisedAt(num, Projected(num, raw[..n]), source, start + count, 0);
    }
  }

  /** The outcome of the `while invalid_samples` retry loop, given at most `attempts` batches. */
  datatype Regen = Regen(ok: bool, batch: seq<Vector>, start: nat, next: nat)

  function Regenerate(num: OrthoNumerics, source: nat -> Vector, start: nat, count: nat, n: nat, attempts: nat): (r: Regen)
    requires attempts > 0
    ensures |r.batch| == count && start <= r.start
    ensures r.ok == !num.hasNaN(r.batch)
    ensures r.batch == Batch(num, source, r.start, count, n).0 && r.next == Batch(num, source, r.start, count, n).1
    decreases attempts
  {
    var b := Batch(num, source, start, count, n);
    if !num.hasNaN(b.0) || attempts == 1 then Regen(!num.hasNaN(b.0), b.0, start, b.1)
    else Regenerate(num, source, b.1, count, n, attempts - 1)
  }

  /** A counter in [0, m] that is not a multiple of m lies strictly between 0 and m. */
  lemma BelowPeriod(x: nat, m: nat)
    requires 0 < m && x <= m && x % m != 0
    ensures 0 < x < m
  {
  }

  /** OrthogonalSampling: serves a buffered batch of orthogonalised draws one per call. */
  class OrthogonalSampling {
    const n: nat
    const numSamples: nat
    const base: BaseSampler
    const num: OrthoNumerics
    var currentSample: nat
    var samples: seq<Vector>
    /** Where the current batch began in the base stream. */
    ghost var batchStart: nat

    ghost predicate Valid()
      reads this
    {
      numSamples >= 1 && currentSample <= numSamples && (currentSample > 0 ==> |samples| == numSamples)
    }

    constructor (n: nat, lambda: nat, base: BaseSampler, num: OrthoNumerics)
      requires lambda >= 1
      ensures Valid()
      ensures this.n == n && numSamples == lambda && this.base == base && this.num == num
      ensures currentSample == 0 && samples == []
    {
      this.n := n;
      this.base := base;
      this.num := num;
      numSamples := lambda;
      currentSample := 0;
      samples := [];
    }

    /** next(): a new batch exactly when current_sample % num_samples == 0, retried while it
        holds a NaN. The retry loop stops after `attempts` batches; v == None then. */
    method Next(attempts: nat) returns (v: Option<Vector>)
      requires Valid() && attempts > 0
      modifies this`currentSample, this`samples, this`batchStart, base`drawn
      ensures Valid()
      ensures old(currentSample) % numSamples != 0 ==>
        && samples == old(samples) && base.drawn == old(base.drawn)
        && currentSample == old(currentSample) + 1 && v == Some(samples[currentSample - 1])
      ensures old(currentSample) % numSamples == 0 ==>
        var g := Regenerate(num, base.source, old(base.drawn), numSamples, n, attempts);
        && samples == g.batch && batchStart == g.start && base.drawn == g.next
        && (g.ok ==> currentSample == 1 && v == Some(samples[0]))
        && (!g.ok ==> currentSample == 0 && v == None)
      ensures v.Some? ==> 1 <= currentSample <= numSamples
    {
      if currentSample % numSamples == 0 {
        currentSample := 0;
        var valid := Refill(attempts);
        if !valid {
          return None;
        }
      } else {
        BelowPeriod(currentSample, numSamples);
      }
      currentSample := currentSample + 1;
      v := Some(samples[currentSample - 1]);
    }

    /** The `while invalid_samples` loop: new batches until one holds no NaN, at most
        `attempts` of them; valid says whether the last one is NaN-free. */
    method Refill(attempts: nat) returns (valid: bool)
      requires Valid() && attempts > 0
      modifies this`samples, this`batchStart, base`drawn
      ensures Valid()
      ensures var g := Regenerate(num, base.source, old(base.drawn), numSamples, n, attempts);
        samples == g.batch && batchStart == g.start && base.drawn == g.next && valid == g.ok
    {
      ghost var start := base.drawn;
      var invalid := GenerateSamples();
      var left := attempts - 1;
      while invalid && left > 0
        invariant Valid()
        invariant left < attempts
        invariant invalid == num.hasNaN(samples)
        invariant Regenerate(num, base.source, start, numSamples, n, attempts)
          == Regenerate(num, base.source, batchStart, numSamples, n, left + 1)
        invariant samples == Batch(num, base.source, batchStart, numSamples, n).0
        invariant base.drawn == Batch(num, base.source, batchStart, numSamples, n).1
        decreases left
      {
        invalid := GenerateSamples();
        left := left - 1;
      }
      valid := !invalid;
    }

    /** __generateSamples: draw num_samples vectors and their lengths, orthonormalise the first
        min(num_samples, n), scale those back to their lengths; report whether a NaN appeared. */
    method GenerateSamples() returns (invalid: bool)
      requires Valid()
      modifies this`samples, this`batchStart, base`drawn
      ensures Valid()
      ensures batchStart == old(base.drawn)
      ensures samples == Batch(num, base.source, batchStart, numSamples, n).0
      ensures base.drawn == Batch(num, base.source, batchStart, numSamples, n).1
      ensures invalid == num.hasNaN(samples)
    {
      var start := base.drawn;
      var drawnSamples, lengths := DrawRaw();
      samples := Orthonormalise(drawnSamples, lengths, start);
      batchStart := start;
      invalid := num.hasNaN(samples);
    }

    /** The rest of __generateSamples on the raw draws that started at index start. */
    method Orthonormalise(drawnSamples: seq<Vector>, lengths: seq<real>, ghost start: nat) returns (result: seq<Vector>)
      requires drawnSamples == seq(numSamples, j requires 0 <= j < numSamples => base.source(start + j))
      requires |lengths| == numSamples && forall j :: 0 <= j < numSamples ==> lengths[j] == num.norm(drawnSamples[j])
      requires base.drawn == start + numSamples
      modifies base`drawn
      ensures result == Batch(num, base.source, start, numSamples, n).0
      ensures base.drawn == Batch(num, base.source, start, numSamples, n).1
    {
      var k := if numSamples <= n then numSamples else n;
      assert k == Min(numSamples, n);
      ghost var units := Normalised(num, Projected(num, drawnSamples[..k]), base.source, start + numSamples);
      var ortho := GramSchmidt(drawnSamples[..k]);
      assert ortho == units.0 && base.drawn == units.1;
      result := ScaleLeading(ortho + drawnSamples[k..], lengths, k);
      BatchFrom(num, base.source, start, numSamples, n, drawnSamples, lengths, units, result);
    }

    /** The first loop of __generateSamples: num_samples fresh base draws and their norms. */
    method DrawRaw() returns (drawnSamples: seq<Vector>, lengths: seq<real>)
      modifies base`drawn
      ensures base.drawn == old(base.drawn) + numSamples
      ensures drawnSamples == seq(numSamples, j requires 0 <= j < numSamples => base.source(old(base.drawn) + j))
      ensures |lengths| == numSamples && forall j :: 0 <= j < numSamples ==> lengths[j] == num.norm(drawnSamples[j])
    {
      drawnSamples := [];
      lengths := [];
      for i := 0 to numSamples
        invariant base.drawn == old(base.drawn) + i
        invariant drawnSamples == seq(i, j requires 0 <= j < i => base.source(old(base.drawn) + j))
        invariant |lengths| == i && forall j :: 0 <= j < i ==> lengths[j] == num.norm(drawnSamples[j])
      {
        var sample := base.Next();
        drawnSamples := drawnSamples + [sample];
        lengths := lengths + [num.norm(sample)];
      }
    }

    /** __gramSchmidt: the projection loops, then the normalisation loop, which may draw from
        the base sampler. */
    method GramSchmidt(vectors: seq<Vector>) returns (r: seq<Vector>)
      modifies base`drawn
      ensures r == Normalised(num, Projected(num, vectors), base.source, old(base.drawn)).0
      ensures base.drawn == Normalised(num, Projected(num, vectors), base.source, old(base.drawn)).1
    {
      r := ProjectAll(num, vectors);
      r := NormaliseAll(r);
    }

    /** The normalisation loop of __gramSchmidt. */
    method NormaliseAll(projected: seq<Vector>) returns (r: seq<Vector>)
      modifies base`drawn
      ensures r == Normalised(num, projected, base.source, old(base.drawn)).0
      ensures base.drawn == Normalised(num, projected, base.source, old(base.drawn)).1
    {
      r := projected;
      ghost var d0 := base.drawn;
      var k := 0;
      while k < |r|
        invariant 0 <= k <= |r| == |projected|
        invariant r[..k] == Normalised(num, projected[..k], base.source, d0).0
        invariant base.drawn == Normalised(num, projected[..k], base.source, d0).1
        invariant forall j :: k <= j < |r| ==> r[j] == projected[j]
      {
        assert projected[..k + 1][..k] == projected[..k];
        var vec := r[k];
        ghost var before := r;
        if num.norm(vec) == 0.0 {
          var newVector := base.Next();
          r := r[k := num.unit(newVector)];
        } else {
          r := r[k := num.unit(vec)];
        }
        assert r[..k] == before[..k];
        assert r[..k + 1] == r[..k] + [r[k]];
        k := k + 1;
      }
      assert r[..k] == r && projected[..k] == projected;
    }
  }

  /** The projection loops of __gramSchmidt: each vector loses its components along the
      already rewritten vectors before it. */
  method ProjectAll(num: OrthoNumerics, vectors: seq<Vector>) returns (r: seq<Vector>)
    ensures r == Projected(num, vectors)
  {
    r := vectors;
    var i := 1;
    while i < |r|
      invariant |r| == |vectors|
      invariant |r| == 0 || 1 <= i <= |r|
      invariant |r| > 0 ==> r[..i] == Projected(num, vectors[..i])
      invariant |r| > 0 ==> r[i..] == vectors[i..]
    {
      var j := 0;
      while j < i
        invariant 0 <= j <= i
        invariant |r| == |vectors|
        invariant r[..i] == Projected(num, vectors[..i])
        invariant r[i + 1..] == vectors[i + 1..]
        invariant r[i] == ProjectOnto(num, vectors[i], r[..j])
      {
        var vecI := r[i];
        var vecJ := r[j];
        ghost var before := r;
        r := r[i := num.project(vecI, vecJ)];
        assert r[..j] == before[..j];
        assert r[..j + 1][..j] == r[..j];
        j := j + 1;
      }
      assert vectors[..i + 1][..i] == vectors[..i];
      assert r[..i + 1] == r[..i] + [r[i]];
      i := i + 1;
    }
    assert |r| > 0 ==> r[..|r|] == r && vectors[..|vectors|] == vectors;
  }

  /** The scaling loop of __generateSamples: the first k vectors are scaled to the given
      lengths, the rest are left alone. */
  method ScaleLeading(vs: seq<Vector>, lengths: seq<real>, k: nat) returns (r: seq<Vector>)
    requires k <= |vs| && k <= |lengths|
    ensures |r| == |vs|
    ensures forall j :: 0 <= j < k ==> r[j] == Scale(vs[j], lengths[j])
    ensures forall j :: k <= j < |vs| ==> r[j] == vs[j]
  {
    r := vs;
    for i := 0 to k
      invariant |r| == |vs|
      invariant forall j :: 0 <= j < i ==> r[j] == Scale(vs[j], lengths[j])
      invariant forall j :: i <= j < |vs| ==> r[j] == vs[j]
    {
      r := r[i := Scale(r[i], lengths[i])];
    }
  }

  /** QuasiGaussianSobolSampling: the Sobol seed never drops below 2 (seed 1 gives the zero vector). */
  class QuasiGaussianSobolSampling {
    const n: nat
    const sobol: (nat, int) -> (Vector, int)   // i4_sobol(n, seed) = (point, next seed)
    const ppf: Vector -> Vector                 // norm_dist.ppf, componentwise
    var seed: int

    ghost predicate Valid()
      reads this
    {
      seed >= 2
    }

    /** drawnSeed is the value of randint(2, n**2), used when no seed of at least 2 is given. */
    constructor (n: nat, seed: Option<int>, drawnSeed: int, sobol: (nat, int) -> (Vector, int), ppf: Vector -> Vector)
      requires seed.None? || seed.value < 2 ==> 2 <= drawnSeed < n * n
      ensures Valid()
      ensures this.n == n && this.sobol == sobol && this.ppf == ppf
      ensures this.seed == if seed.Some? && seed.value >= 2 then seed.value else drawnSeed
    {
      this.n := n;
      this.sobol := sobol;
      this.ppf := ppf;
      if seed.None? || seed.value < 2 {
        this.seed := drawnSeed;
      } else {
        this.seed := seed.value;
      }
    }

    method Next() returns (v: Vector)
      requires Valid()
      modifies this`seed
      ensures Valid()
      ensures v == ppf(sobol(n, old(seed)).0)
      ensures seed == if sobol(n, old(seed)).1 > 1 then sobol(n, old(seed)).1 else 2
    {
      var point := sobol(n, seed);
      seed := if point.1 > 1 then point.1 else 2;
      v := ppf(point.0);
    }
  }

  datatype SamplingError = ImportError(message: string)

  const HaltonMissing: string := "Package 'ghalton' not found, QuasiGaussianHaltonSampling not available."

  /** QuasiGaussianHaltonSampling over the Halton(n) point stream of its backend. */
  class QuasiGaussianHaltonSampling {
    const n: nat
    const points: nat -> Vector    // successive halton.get(1)[0]
    const ppf: Vector -> Vector
    var drawn: nat

    constructor (n: nat, points: nat -> Vector, ppf: Vector -> Vector)
      ensures this.n == n && this.points == points && this.ppf == ppf && drawn == 0
    {
      this.n := n;
      this.points := points;
      this.ppf := ppf;
      drawn := 0;
    }

    method Next() returns (v: Vector)
      modifies this`drawn
      ensures v == ppf(points(old(drawn))) && drawn == old(drawn) + 1
    {
      v := ppf(points(drawn));
      drawn := drawn + 1;
    }
  }

  /** Constructing the Halton sampler fails at once when the backend is not installed. */
  method NewHaltonSampling(n: nat, available: bool, points: nat -> Vector, ppf: Vector -> Vector)
    returns (r: Result<QuasiGaussianHaltonSampling, SamplingError>)
    ensures r.Failure? <==> !available
    ensures r.Failure? ==> r.error == ImportError(HaltonMissing)
    ensures r.Success? ==> r.value.n == n && r.value.points == points && r.value.drawn == 0
  {
    if !available {
      return Failure(ImportError(HaltonMissing));
    }
    var sampler := new QuasiGaussianHaltonSampling(n, points, ppf);
    r := Success(sampler);
  }
}
