/** The option handling of the customised ES: filling in default options, the population
    size corrections for two-point adaptation (TPA) and pairwise selection, the number of
    parents, and the rule that stacks the samplers. */
module Configuration {
  import opened Common

  /** A value in the options dictionary: a flag, a string, or Python's None. */
  datatype OptValue = BoolOpt(b: bool) | StrOpt(s: string) | NoneOpt

  /** Python truthiness of an option value. */
  predicate Truthy(v: OptValue) {
    match v
    case BoolOpt(b) => b
    case StrOpt(s) => |s| > 0
    case NoneOpt => false
  }

  const BoolDefaultOpts: seq<string> := ["active", "elitist", "mirrored", "orthogonal", "sequential", "threshold", "tpa"]
  const StringDefaultOpts: seq<string> := ["base-sampler", "ipop", "selection", "weights_option"]

  /** m with every key of `keys` that it lacks bound to v. */
  function Filled(m: map<string, OptValue>, keys: seq<string>, v: OptValue): (r: map<string, OptValue>)
    ensures forall k :: k in r <==> k in m || k in keys
    ensures forall k :: k in m ==> r[k] == m[k]
    ensures forall k :: k in keys && k !in m ==> r[k] == v
    decreases |keys|
  {
    if |keys| == 0 then m
    else
      var front := Filled(m, keys[..|keys| - 1], v);
      assert forall k :: k in keys ==> k in keys[..|keys| - 1] || k == keys[|keys| - 1];
      if keys[|keys| - 1] in front then front else front[keys[|keys| - 1] := v]
  }

  /** The options after addDefaults: given options are kept, missing flags become False and
      missing string options become None. */
  function WithDefaults(m: map<string, OptValue>): (r: map<string, OptValue>)
    ensures forall k :: k in r <==> k in m || k in BoolDefaultOpts || k in StringDefaultOpts
    ensures forall k :: k in m ==> r[k] == m[k]
    ensures forall k :: k in BoolDefaultOpts && k !in m ==> r[k] == BoolOpt(false)
    ensures forall k :: k in StringDefaultOpts && k !in m ==> r[k] == NoneOpt
  {
    FilledTwice(m, BoolDefaultOpts, BoolOpt(false), StringDefaultOpts, NoneOpt);
    DefaultsDisjoint();
    Filled(Filled(m, BoolDefaultOpts, BoolOpt(false)), StringDefaultOpts, NoneOpt)
  }

  lemma FilledTwice(m: map<string, OptValue>, a: seq<string>, va: OptValue, b: seq<string>, vb: OptValue)
    ensures var r := Filled(Filled(m, a, va), b, vb);
      && (forall k :: k in r <==> k in m || k in a || k in b)
      && (forall k :: k in m ==> r[k] == m[k])
      && (forall k :: k in a && k !in m ==> r[k] == va)
      && (forall k :: k in b && k !in m && k !in a ==> r[k] == vb)
  {
  }

  /** No option has both a flag default and a string default. */
  lemma DefaultsDisjoint()
    ensures forall k :: k in StringDefaultOpts ==> k !in BoolDefaultOpts
  {
    assert "selection"[0] != "threshold"[0];
  }

  /** One more key filled in. */
  lemma FilledStep(m: map<string, OptValue>, keys: seq<string>, v: OptValue, i: nat)
    requires i < |keys|
    ensures var front := Filled(m, keys[..i], v);
      Filled(m, keys[..i + 1], v) == if keys[i] in front then front else front[keys[i] := v]
  {
    assert keys[..i + 1][..i] == keys[..i];
  }

  /** Adding defaults a second time changes nothing. */
  lemma {:induction false} WithDefaultsIdempotent(m: map<string, OptValue>)
    ensures WithDefaults(WithDefaults(m)) == WithDefaults(m)
  {
    var once := WithDefaults(m);
    var twice := WithDefaults(once);
    assert forall k :: k in twice <==> k in once;
    assert forall k :: k in once ==> twice[k] == once[k];
  }

  /** The options dictionary that addDefaults updates in place. */
  class OptionTable {
    var entries: map<string, OptValue>

    constructor (entries: map<string, OptValue>)
      ensures this.entries == entries
    {
      this.entries := entries;
    }
  }

  method AddDefaults(opts: OptionTable)
    modifies opts
    ensures opts.entries == WithDefaults(old(opts.entries))
  {
    ghost var given := opts.entries;
    for i := 0 to |BoolDefaultOpts|
      invariant opts.entries == Filled(given, BoolDefaultOpts[..i], BoolOpt(false))
    {
      FilledStep(given, BoolDefaultOpts, BoolOpt(false), i);
      var op := BoolDefaultOpts[i];
      if op !in opts.entries {
        opts.entries := opts.entries[op := BoolOpt(false)];
      }
    }
    assert BoolDefaultOpts[..|BoolDefaultOpts|] == BoolDefaultOpts;
    ghost var flagged := opts.entries;
    for i := 0 to |StringDefaultOpts|
      invariant opts.entries == Filled(flagged, StringDefaultOpts[..i], NoneOpt)
    {
      FilledStep(flagged, StringDefaultOpts, NoneOpt, i);
      var op := StringDefaultOpts[i];
      if op !in opts.entries {
        opts.entries := opts.entries[op := NoneOpt];
      }
    }
    assert StringDefaultOpts[..|StringDefaultOpts|] == StringDefaultOpts;
  }

  predicate Pairwise(opts: map<string, OptValue>)
    requires "selection" in opts
  {
    opts["selection"] == StrOpt("pairwise")
  }

  /** lambda_, eff_lambda and mu as calculateDependencies returns them. */
  datatype Dependencies = Dependencies(lambda: int, effLambda: int, mu: real)

  function Max(a: int, b: int): int {
    if a >= b then a else b
  }

  /** calculateDependencies. defaultLambda stands for 4 + floor(3 log n), used when no
      lambda_ is given; mu defaults to 0.5. */
  function CalculateDependencies(opts: map<string, OptValue>, lambda: Option<int>, mu: Option<real>, defaultLambda: int): (r: Dependencies)
    requires "tpa" in opts && "selection" in opts
    ensures var l0 := if lambda.Some? then lambda.value else defaultLambda;
      && (Truthy(opts["tpa"]) ==> r.lambda >= 4 && r.effLambda == r.lambda - 2)
      && (Truthy(opts["tpa"]) && !Pairwise(opts) ==> r.lambda == Max(l0, 4))
      && (Pairwise(opts) && !Truthy(opts["tpa"]) ==> r.effLambda == r.lambda)
      && (!Pairwise(opts) && !Truthy(opts["tpa"]) ==> r.lambda == l0 && r.effLambda == l0)
    ensures var m0 := if mu.Some? then mu.value else 0.5;
      r.mu == if Pairwise(opts) && m0 >= 0.5 then m0 / 2.0 else m0
  {
    var lambda0 := if lambda.Some? then lambda.value else defaultLambda;
    var mu0 := if mu.Some? then mu.value else 0.5;
    var (lambda1, eff1) :=
      if Truthy(opts["tpa"]) then (if lambda0 <= 4 then (4, 2) else (lambda0, lambda0 - 2))
      else (lambda0, lambda0);
    if Pairwise(opts) then
      var lambda2 := if lambda1 % 2 == 1 then (if lambda1 - 1 == 0 then 2 else lambda1 - 1) else lambda1;
      var lambda3 := if Truthy(opts["tpa"]) && lambda2 == 2 then 4 else lambda2;
      var eff3 := if Truthy(opts["tpa"]) then lambda3 - 2 else lambda3;
      Dependencies(lambda3, eff3, if mu0 >= 0.5 then mu0 / 2.0 else mu0)
    else
      Dependencies(lambda1, eff1, mu0)
  }

  /** Pairwise selection makes a positive population size even: it is rounded down to an even
      number, but never below 2, or 4 with TPA. */
  lemma PairwiseEven(opts: map<string, OptValue>, lambda: Option<int>, mu: Option<real>, defaultLambda: int)
    requires "tpa" in opts && "selection" in opts && Pairwise(opts)
    requires (if lambda.Some? then lambda.value else defaultLambda) >= 1
    ensures var l0 := if lambda.Some? then lambda.value else defaultLambda;
      var r := CalculateDependencies(opts, lambda, mu, defaultLambda);
      && r.lambda % 2 == 0 && r.lambda >= 2
      && r.lambda == Max(if Truthy(opts["tpa"]) then 4 else 2, l0 - l0 % 2)
  {
  }

  /** A population size that has been through the corrections is left as it is. */
  lemma DependenciesStable(opts: map<string, OptValue>, lambda: Option<int>, mu: Option<real>, defaultLambda: int)
    requires "tpa" in opts && "selection" in opts
    requires lambda.Some? ==> lambda.value >= 1
    requires lambda.None? ==> defaultLambda >= 1
    ensures var r := CalculateDependencies(opts, lambda, mu, defaultLambda);
      var again := CalculateDependencies(opts, Some(r.lambda), mu, defaultLambda);
      again.lambda == r.lambda && again.effLambda == r.effLambda
  {
  }

  /** mu_int = int(1 + floor(mu * (eff_lambda - 1))): for a parent fraction in [0, 1] it is a
      number of parents between 1 and the effective population. */
  function MuInt(mu: real, effLambda: int): (r: int)
    ensures 0.0 <= mu <= 1.0 && effLambda >= 1 ==> 1 <= r <= effLambda
  {
    FractionBelow(mu, effLambda - 1);
    1 + (mu * (effLambda - 1) as real).Floor
  }

  lemma FractionBelow(mu: real, k: int)
    ensures 0.0 <= mu <= 1.0 && k >= 0 ==> 0.0 <= mu * k as real <= k as real
  {
    if 0.0 <= mu <= 1.0 && k >= 0 {
      assert mu * k as real <= 1.0 * k as real;
    }
  }

  datatype BaseKind = Gaussian | QuasiSobol | QuasiHalton

  /** The stack of samplers the customised ES builds, outermost first. */
  datatype SamplerChain = Base(kind: BaseKind) | Orthogonal(lambda: int, inner: SamplerChain) | Mirrored(inner: SamplerChain)

  function Innermost(c: SamplerChain): BaseKind {
    match c
    case Base(k) => k
    case Orthogonal(_, inner) => Innermost(inner)
    case Mirrored(inner) => Innermost(inner)
  }

  /** The sampler-composition rule of the customised ES constructor. haltonAvailable says
      whether the ghalton backend could be imported. */
  function ComposeSampler(opts: map<string, OptValue>, effLambda: int, haltonAvailable: bool): (r: SamplerChain)
    requires "base-sampler" in opts && "orthogonal" in opts && "mirrored" in opts
    ensures r.Mirrored? <==> Truthy(opts["mirrored"])
    ensures var below := if r.Mirrored? then r.inner else r;
      && (below.Orthogonal? <==> Truthy(opts["orthogonal"]))
      && (below.Orthogonal? ==>
            below.inner.Base? && below.lambda == if r.Mirrored? then Max(effLambda / 2, 1) else effLambda)
      && (!below.Orthogonal? ==> below.Base?)
    ensures Innermost(r) == QuasiSobol <==> opts["base-sampler"] == StrOpt("quasi-sobol")
    ensures Innermost(r) == QuasiHalton <==> opts["base-sampler"] == StrOpt("quasi-halton") && haltonAvailable
  {
    var base :=
      if opts["base-sampler"] == StrOpt("quasi-sobol") then QuasiSobol
      else if opts["base-sampler"] == StrOpt("quasi-halton") && haltonAvailable then QuasiHalton
      else Gaussian;
    var orth :=
      if Truthy(opts["orthogonal"]) then
        Orthogonal(if Truthy(opts["mirrored"]) then Max(effLambda / 2, 1) else effLambda, Base(base))
      else Base(base);
    assert Innermost(orth) == base;
    if Truthy(opts["mirrored"]) then Mirrored(orth) else orth
  }

  /** With mirroring on top of an orthogonal sampler, one orthogonal batch feeds two mirrored
      samples per vector, so the batch never exceeds half a (non-trivial) effective population. */
  lemma MirroredBatchHalf(opts: map<string, OptValue>, effLambda: int, haltonAvailable: bool)
    requires "base-sampler" in opts && "orthogonal" in opts && "mirrored" in opts
    requires Truthy(opts["mirrored"]) && Truthy(opts["orthogonal"]) && effLambda >= 2
    ensures var r := ComposeSampler(opts, effLambda, haltonAvailable);
      r.Mirrored? && r.inner.Orthogonal? && 1 <= r.inner.lambda && 2 * r.inner.lambda <= effLambda
  {
  }
}
