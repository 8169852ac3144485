/** The generational loop shared by every ES of the framework. Recombination, mutation,
    selection, parameter adaptation, the local-restart test and the fitness function are
    abstract; the loop's budget accounting, truncations and traces are exact. */
module Engine {
  import opened Common

  datatype Individual = Individual(genotype: Vector, fitness: real)

  /** A non-empty list of individuals: what recombination and selection hand back. */
  type Population = s: seq<Individual> | |s| > 0 witness [Individual([], 0.0)]

  /** The algorithm-specific functions. P is the parameters object; every callback that may
      update it takes it and gives back its new value. */
  datatype Strategy<!P> = Strategy(
    recombine: (P, Population) -> (P, Population),
    mutate: (P, Individual) -> (P, Vector),
    select: (P, Population, seq<Individual>, nat) -> (P, Population),
    adapt: (P, nat) -> P,                                // mutateParameters(used_budget)
    localRestart: (P, nat, multiset<real>) -> bool,      // parameters.localRestart(used_budget, fitnesses)
    sigmaMean: P -> real,
    tpaPoints: P -> (Vector, Vector),                    // wcm + tpa_vector, wcm - tpa_vector
    setTpaResult: (P, int) -> P,
    fitness: Vector -> real)

  /** The settings the loop reads from the parameters object; they do not change during a run. */
  datatype LoopConfig = LoopConfig(lambda: int, muInt: int, seqCutoff: int, tpa: bool, sequential: bool)

  /** Mutating the offspring in order, threading the parameters object. */
  function Mutated<P>(s: Strategy<P>, p: P, offspring: seq<Individual>): (r: (P, seq<Vector>))
    ensures |r.1| == |offspring|
    decreases |offspring|
  {
    if |offspring| == 0 then (p, [])
    else
      var front := Mutated(s, p, offspring[..|offspring| - 1]);
      var m := s.mutate(front.0, offspring[|offspring| - 1]);
      (m.0, front.1 + [m.1])
  }

  /** Mutating a longer list starts by mutating its prefix. */
  lemma {:induction false} MutatedPrefix<P>(s: Strategy<P>, p: P, offspring: seq<Individual>, k: nat)
    requires k <= |offspring|
    ensures Mutated(s, p, offspring[..k]).1 == Mutated(s, p, offspring).1[..k]
    decreases |offspring|
  {
    if k < |offspring| {
      var front := offspring[..|offspring| - 1];
      MutatedPrefix(s, p, front, k);
      assert front[..k] == offspring[..k];
    } else {
      assert offspring[..k] == offspring;
    }
  }

  /** Each mutated genotype with its fitness. */
  function Scored<P>(s: Strategy<P>, genotypes: seq<Vector>): seq<Individual> {
    seq(|genotypes|, k requires 0 <= k < |genotypes| => Individual(genotypes[k], s.fitness(genotypes[k])))
  }

  /** Sequential evaluation stops after index j: with sequential evaluation on, either an
      offspring up to j beat the best fitness and j has reached the cutoff, or the budget is
      exactly used up. */
  predicate StopsAt(evaluated: seq<Individual>, j: nat, best: real, used: nat, budget: nat, sequential: bool, cutoff: int)
    requires j < |evaluated|
  {
    sequential &&
    ((j >= cutoff && exists k :: 0 <= k <= j && evaluated[k].fitness < best) || used + j + 1 == budget)
  }

  /** Mutating and scoring one more offspring extends both results by one. */
  lemma MutatedStep<P>(s: Strategy<P>, p: P, offspring: seq<Individual>, i: nat)
    requires i < |offspring|
    ensures var front := Mutated(s, p, offspring[..i]);
      var m := s.mutate(front.0, offspring[i]);
      && Mutated(s, p, offspring[..i + 1]).0 == m.0
      && Scored(s, Mutated(s, p, offspring[..i + 1]).1) == Scored(s, front.1) + [Individual(m.1, s.fitness(m.1))]
  {
    assert offspring[..i + 1][..i] == offspring[..i];
  }

  /** Appending an offspring does not change whether the loop stopped at an earlier index. */
  lemma NoStopKept(before: seq<Individual>, x: Individual, best: real, used: nat, budget: nat, sequential: bool, cutoff: int)
    requires forall j :: 0 <= j < |before| ==> !StopsAt(before, j, best, used, budget, sequential, cutoff)
    ensures forall j :: 0 <= j < |before| ==> !StopsAt(before + [x], j, best, used, budget, sequential, cutoff)
  {
    var after := before + [x];
    forall j | 0 <= j < |before|
      ensures !StopsAt(after, j, best, used, budget, sequential, cutoff)
    {
      assert !StopsAt(before, j, best, used, budget, sequential, cutoff);
      if exists k :: 0 <= k <= j && after[k].fitness < best {
        var k :| 0 <= k <= j && after[k].fitness < best;
        assert before[k] == after[k];
      }
    }
  }

  /** The state of the sequential loop after i offspring: they are mutated and scored in
      order, and improvementFound says whether one beat the best fitness. */
  ghost predicate SequentialSoFar<P>(s: Strategy<P>, p: P, offspring: seq<Individual>, best: real, used: nat, budget: nat,
                                     sequential: bool, cutoff: int,
                                     i: nat, q: P, evaluated: seq<Individual>, usedAfter: nat, improvementFound: bool)
  {
    && i <= |offspring| && usedAfter == used + i && |evaluated| == i
    && q == Mutated(s, p, offspring[..i]).0
    && evaluated == Scored(s, Mutated(s, p, offspring[..i]).1)
    && (sequential ==> (improvementFound <==> exists k :: 0 <= k < i && evaluated[k].fitness < best))
  }

  /** One more offspring mutated, scored and counted. */
  lemma SequentialStep<P>(s: Strategy<P>, p: P, offspring: seq<Individual>, best: real, used: nat, budget: nat,
                          sequential: bool, cutoff: int,
                          i: nat, q: P, evaluated: seq<Individual>, usedAfter: nat, improvementFound: bool)
    requires SequentialSoFar(s, p, offspring, best, used, budget, sequential, cutoff, i, q, evaluated, usedAfter, improvementFound)
    requires i < |offspring|
    ensures var m := s.mutate(q, offspring[i]);
      var x := Individual(m.1, s.fitness(m.1));
      SequentialSoFar(s, p, offspring, best, used, budget, sequential, cutoff, i + 1, m.0, evaluated + [x], usedAfter + 1,
                      if sequential then improvementFound || x.fitness < best else improvementFound)
  {
    MutatedStep(s, p, offspring, i);
    var m := s.mutate(q, offspring[i]);
    var x := Individual(m.1, s.fitness(m.1));
    var after := evaluated + [x];
    assert forall j :: 0 <= j < i ==> after[j] == evaluated[j];
    assert after[i] == x;
  }

  /** The sequential branch of the loop: mutate and evaluate offspring one at a time, stopping
      at the first index where StopsAt holds. `last` is the final value of the loop index i. */
  method EvaluateSequential<P>(s: Strategy<P>, p: P, offspring: seq<Individual>, best: real, used: nat, budget: nat,
                               sequential: bool, cutoff: int)
    returns (q: P, evaluated: seq<Individual>, usedAfter: nat, last: nat)
    requires |offspring| > 0
    ensures last < |offspring| && |evaluated| == last + 1 && usedAfter == used + last + 1
    ensures q == Mutated(s, p, offspring[..last + 1]).0
    ensures evaluated == Scored(s, Mutated(s, p, offspring[..last + 1]).1)
    ensures forall j :: 0 <= j < last ==> !StopsAt(evaluated, j, best, used, budget, sequential, cutoff)
    ensures last == |offspring| - 1 || StopsAt(evaluated, last, best, used, budget, sequential, cutoff)
    ensures sequential && used < budget ==> usedAfter <= budget
  {
    q := p;
    evaluated := [];
    usedAfter := used;
    var improvementFound := false;
    var i := 0;
    while i < |offspring|
      invariant SequentialSoFar(s, p, offspring, best, used, budget, sequential, cutoff, i, q, evaluated, usedAfter,
                                improvementFound)
      invariant forall j :: 0 <= j < i ==> !StopsAt(evaluated, j, best, used, budget, sequential, cutoff)
      invariant sequential && used < budget ==> usedAfter < budget
    {
      SequentialStep(s, p, offspring, best, used, budget, sequential, cutoff, i, q, evaluated, usedAfter, improvementFound);
      var m := s.mutate(q, offspring[i]);
      q := m.0;
      var individual := Individual(m.1, s.fitness(m.1));
      NoStopKept(evaluated, individual, best, used, budget, sequential, cutoff);
      evaluated := evaluated + [individual];
      usedAfter := usedAfter + 1;
      if sequential {
        if individual.fitness < best {
          improvementFound := true;
        }
        if i >= cutoff && improvementFound {
          return q, evaluated, usedAfter, i;
        }
        if usedAfter == budget {
          return q, evaluated, usedAfter, i;
        }
      }
      i := i + 1;
    }
    assert offspring[..|offspring|] == offspring;
    last := |offspring| - 1;
  }

  /** The parallel branch: mutate every offspring, then evaluate them all at once; the budget
      grows by lambda_ whatever the number of offspring, and i becomes lambda_. */
  method EvaluateParallel<P>(s: Strategy<P>, p: P, offspring: seq<Individual>, used: nat, lambda: int)
    returns (q: P, evaluated: seq<Individual>, usedAfter: int, last: int)
    ensures q == Mutated(s, p, offspring).0
    ensures evaluated == Scored(s, Mutated(s, p, offspring).1)
    ensures usedAfter == used + lambda && last == lambda
  {
    q := p;
    var genotypes: seq<Vector> := [];
    for i := 0 to |offspring|
      invariant (q, genotypes) == Mutated(s, p, offspring[..i])
    {
      assert offspring[..i + 1][..i] == offspring[..i];
      var m := s.mutate(q, offspring[i]);
      q := m.0;
      genotypes := genotypes + [m.1];
    }
    assert offspring[..|offspring|] == offspring;
    var fitnesses := seq(|genotypes|, j requires 0 <= j < |genotypes| => s.fitness(genotypes[j]));
    evaluated := [];
    for j := 0 to |genotypes|
      invariant evaluated == Scored(s, genotypes[..j])
    {
      evaluated := evaluated + [Individual(genotypes[j], fitnesses[j])];
    }
    assert genotypes[..|genotypes|] == genotypes;
    usedAfter := used + lambda;
    last := lambda;
  }

  /** The fitness values of a population, as the sorted list handed to the restart test. */
  function FitnessBag(pop: seq<Individual>): multiset<real> {
    multiset(seq(|pop|, k requires 0 <= k < |pop| => pop[k].fitness))
  }

  /** `new_population[:-2]` */
  function DropTwo(offspring: seq<Individual>): (r: seq<Individual>)
    ensures |r| == if |offspring| <= 2 then 0 else |offspring| - 2
    ensures r == offspring[..|r|]
  {
    if |offspring| <= 2 then [] else offspring[..|offspring| - 2]
  }

  /** What one generation's evaluation phase produces: TPA drops the last two offspring, then
      the offspring are evaluated in parallel or sequentially, and the list is truncated to
      `[:i + 1]`; q is the parameters object afterwards. */
  ghost predicate GenerationEvaluated<P>(s: Strategy<P>, p: P, offspring: seq<Individual>, best: real, used: nat,
                                         budget: nat, cfg: LoopConfig, cutoff: int, parallel: bool,
                                         q: P, kept: seq<Individual>, usedAfter: int)
    requires parallel ==> cfg.lambda >= 1
  {
    var dropped := if cfg.tpa then DropTwo(offspring) else offspring;
    && (parallel ==>
          && usedAfter == used + cfg.lambda
          && q == Mutated(s, p, dropped).0
          && kept == Scored(s, Mutated(s, p, dropped).1)[..Min(cfg.lambda + 1, |dropped|)])
    && (!parallel && |dropped| == 0 ==> kept == [] && usedAfter == used && q == p)
    && (!parallel && |dropped| > 0 ==>
          && 0 < |kept| <= |dropped| && usedAfter == used + |kept|
          && q == Mutated(s, p, dropped[..|kept|]).0
          && kept == Scored(s, Mutated(s, p, dropped[..|kept|]).1)
          && (forall j :: 0 <= j < |kept| - 1 ==> !StopsAt(kept, j, best, used, budget, cfg.sequential, cutoff))
          && (|kept| == |dropped| || StopsAt(kept, |kept| - 1, best, used, budget, cfg.sequential, cutoff)))
  }

  /** One generation's evaluation phase. Besides its exact result it promises progress: the
      budget grows unless TPA left nothing to evaluate outside parallel mode. */
  method EvaluateGeneration<P>(s: Strategy<P>, p: P, offspring: seq<Individual>, best: real, used: nat, budget: nat,
                               cfg: LoopConfig, cutoff: int, parallel: bool)
    returns (q: P, kept: seq<Individual>, usedAfter: int)
    requires parallel ==> cfg.lambda >= 1
    ensures GenerationEvaluated(s, p, offspring, best, used, budget, cfg, cutoff, parallel, q, kept, usedAfter)
    ensures used <= usedAfter
    ensures parallel || |if cfg.tpa then DropTwo(offspring) else offspring| > 0 ==> used < usedAfter
    ensures !cfg.tpa && |offspring| > 0 ==> |kept| > 0
    ensures cfg.sequential && !parallel && used < budget ==> usedAfter <= budget
  {
    var dropped := if cfg.tpa then DropTwo(offspring) else offspring;
    if parallel {
      var evaluated, i;
      q, evaluated, usedAfter, i := EvaluateParallel(s, p, dropped, used, cfg.lambda);
      kept := evaluated[..Min(i + 1, |evaluated|)];
    } else if |dropped| > 0 {
      var last;
      q, kept, usedAfter, last := EvaluateSequential(s, p, dropped, best, used, budget, cfg.sequential, cutoff);
    } else {
      // The for loop over an empty list does nothing; its stale index truncates an empty list.
      q, kept, usedAfter := p, [], used;
    }
  }

  /** The two-point step-size adaptation probe: two evaluations, the budget capped only in
      sequential mode, and tpa_result 1 exactly when the plus probe is strictly better. */
  function TpaStep(used: int, budget: int, sequential: bool, plusFitness: real, minusFitness: real): (r: (int, int))
    ensures r.1 == 1 <==> plusFitness < minusFitness
    ensures r.1 == 1 || r.1 == -1
    ensures !sequential ==> r.0 == used + 2
    ensures r.0 <= used + 2 && (used + 2 <= budget ==> r.0 == used + 2)
    ensures sequential && used <= budget ==> r.0 <= budget
    ensures used < budget ==> used < r.0
  {
    var grown := used + 2;
    var capped := if grown > budget && sequential then budget else grown;
    (capped, if plusFitness < minusFitness then 1 else -1)
  }

  /** vals[g] repeated sizes[g] times, generation after generation. */
  function Expand(vals: seq<real>, sizes: seq<nat>): (r: seq<real>)
    requires |vals| == |sizes|
    ensures |r| == Sum(sizes)
    decreases |sizes|
  {
    if |sizes| == 0 then []
    else Expand(vals[..|vals| - 1], sizes[..|sizes| - 1]) + seq(sizes[|sizes| - 1], _ => vals[|vals| - 1])
  }

  /** Every entry of an expanded trace is one of the per-generation values. */
  lemma {:induction false} ExpandFrom(vals: seq<real>, sizes: seq<nat>, k: nat)
    requires |vals| == |sizes| && k < Sum(sizes)
    ensures exists g :: 0 <= g < |vals| && Expand(vals, sizes)[k] == vals[g]
    decreases |sizes|
  {
    var front := Expand(vals[..|vals| - 1], sizes[..|sizes| - 1]);
    if k < |front| {
      ExpandFrom(vals[..|vals| - 1], sizes[..|sizes| - 1], k);
      var g :| 0 <= g < |vals| - 1 && front[k] == vals[..|vals| - 1][g];
      assert Expand(vals, sizes)[k] == vals[g];
    } else {
      assert Expand(vals, sizes)[k] == vals[|vals| - 1];
    }
  }

  /** An expanded trace is bounded below by the minimum of its per-generation values. */
  lemma ExpandAbove(vals: seq<real>, sizes: seq<nat>, k: nat)
    requires |vals| == |sizes| && k < Sum(sizes)
    ensures SeqMin(vals) <= Expand(vals, sizes)[k]
  {
    ExpandFrom(vals, sizes, k);
  }

  function Extended(trace: seq<real>, x: real, n: int): seq<real> {
    trace + seq(if n < 0 then 0 else n, _ => x)
  }

  /** The best fitness so far is the smaller of the initial individual's and the best
      generation leader's, and the best individual is the initial one or has a leader's fitness. */
  predicate BestFits(best: Individual, initial: Individual, leaders: seq<real>) {
    && best.fitness <= initial.fitness
    && (|leaders| > 0 ==> best.fitness == MinReal(initial.fitness, SeqMin(leaders)))
    && (|leaders| == 0 ==> best == initial)
    && (best == initial || exists g :: 0 <= g < |leaders| && best.fitness == leaders[g])
  }

  /** Replacing the best individual only on strict improvement keeps it the best so far. */
  lemma BestFitsStep(best: Individual, initial: Individual, leaders: seq<real>, leader: Individual)
    requires BestFits(best, initial, leaders)
    ensures BestFits(if leader.fitness < best.fitness then leader else best, initial, leaders + [leader.fitness])
  {
    var longer := leaders + [leader.fitness];
    assert longer[..|leaders|] == leaders;
    assert longer[|leaders|] == leader.fitness;
    if best != initial && leader.fitness >= best.fitness {
      var g :| 0 <= g < |leaders| && best.fitness == leaders[g];
      assert longer[g] == leaders[g];
    }
  }

  /** One pass of the main loop as the values it reads and produces: the state it starts
      from, the evaluation phase, the selection, and what the rest of the pass leaves. */
  datatype Pass<P> = Pass(sel: Selection<P>, q: P, offspringAfter: seq<Individual>, usedAfter: nat, restart: bool)

  /** The first half of a pass: the state it starts from, the evaluation phase and the
      selection. */
  datatype Selection<P> = Selection(
    p: P, current: Population, offspring: seq<Individual>, used: nat, bestIn: Individual,
    qEval: P, kept: seq<Individual>, usedEval: nat,
    qSel: P, next: Population)

  /** The best individual after the tracking step of a pass. */
  function BestAfter<P>(g: Pass<P>): Individual {
    if g.sel.next[0].fitness < g.sel.bestIn.fitness then g.sel.next[0] else g.sel.bestIn
  }

  /** The pass ends the loop with a `break`: the budget was spent by the evaluation, or the
      local-restart test fired. */
  predicate Ended<P>(g: Pass<P>, budget: nat) {
    g.sel.usedEval >= budget || g.restart
  }

  /** The rest of a pass that did not spend the budget: recombination when the selected
      population has mu_int members, the TPA probe on the parameters after recombination,
      parameter adaptation on the new budget, and the local-restart test on it. */
  ghost predicate Advanced<P>(s: Strategy<P>, budget: nat, cfg: LoopConfig, p: P, next: Population,
                              fitnesses: multiset<real>, used: nat, offspring: seq<Individual>,
                              q: P, offspringAfter: seq<Individual>, usedAfter: int, restart: bool)
  {
    var recombined := |next| == cfg.muInt;
    var q0 := if recombined then s.recombine(p, next).0 else p;
    var probes := s.tpaPoints(q0);
    var step := TpaStep(used, budget, cfg.sequential, s.fitness(probes.0), s.fitness(probes.1));
    var q1 := if cfg.tpa then s.setTpaResult(q0, step.1) else q0;
    && offspringAfter == (if recombined then s.recombine(p, next).1 else offspring)
    && usedAfter == (if cfg.tpa then step.0 else used)
    && q == s.adapt(q1, usedAfter)
    && restart == s.localRestart(q, usedAfter, fitnesses)
  }

  /** The first half of a pass: the evaluation phase, then selection of the current
      population with the kept offspring. */
  ghost predicate Selected<P>(s: Strategy<P>, budget: nat, cfg: LoopConfig, cutoff: int, parallel: bool, e: Selection<P>) {
    && (parallel ==> cfg.lambda >= 1)
    && GenerationEvaluated(s, e.p, e.offspring, e.bestIn.fitness, e.used, budget, cfg, cutoff, parallel,
                           e.qEval, e.kept, e.usedEval)
    && (e.qSel, e.next) == s.select(e.qEval, e.current, e.kept, e.usedEval)
  }

  /** A pass as the source runs it: the evaluation phase and selection, then either a break
      on the spent budget or the rest of the pass. */
  ghost predicate PassOK<P>(s: Strategy<P>, budget: nat, cfg: LoopConfig, cutoff: int, parallel: bool, g: Pass<P>) {
    && Selected(s, budget, cfg, cutoff, parallel, g.sel)
    && (g.sel.usedEval >= budget ==>
          g.q == g.sel.qSel && g.offspringAfter == g.sel.kept && g.usedAfter == g.sel.usedEval && !g.restart)
    && (g.sel.usedEval < budget ==>
          Advanced(s, budget, cfg, g.sel.qSel, g.sel.next, FitnessBag(g.sel.kept), g.sel.usedEval, g.sel.kept,
                   g.q, g.offspringAfter, g.usedAfter, g.restart))
  }

  /** Pass b starts from the state pass a leaves. */
  ghost predicate Linked<P>(a: Pass<P>, b: Pass<P>) {
    b.sel.p == a.q && b.sel.current == a.sel.next && b.sel.offspring == a.offspringAfter && b.sel.used == a.usedAfter
    && b.sel.bestIn == BestAfter(a)
  }

  /** The passes of one call: the first starts from the initial recombination, each later one
      from the state the previous one left, and every pass but the last kept the loop going. */
  ghost predicate Unrolled<P>(s: Strategy<P>, budget: nat, cfg: LoopConfig, cutoff: int, parallel: bool,
                              population: Population, p0: P, gens: seq<Pass<P>>)
  {
    && (|gens| > 0 ==>
          && gens[0].sel.p == s.recombine(p0, population).0 && gens[0].sel.current == population
          && gens[0].sel.offspring == s.recombine(p0, population).1 && gens[0].sel.used == 0
          && gens[0].sel.bestIn == population[0])
    && (forall k {:trigger PassOK(s, budget, cfg, cutoff, parallel, gens[k])} :: 0 <= k < |gens| ==>
          PassOK(s, budget, cfg, cutoff, parallel, gens[k]))
    && (forall k {:trigger Linked(gens[k], gens[k + 1])} :: 0 <= k < |gens| - 1 ==>
          Linked(gens[k], gens[k + 1]) && !Ended(gens[k], budget) && gens[k].usedAfter < budget)
  }

  /** One more pass extends the unrolled loop. */
  lemma UnrolledSnoc<P>(s: Strategy<P>, budget: nat, cfg: LoopConfig, cutoff: int, parallel: bool,
                        population: Population, p0: P, gens: seq<Pass<P>>, g: Pass<P>)
    requires Unrolled(s, budget, cfg, cutoff, parallel, population, p0, gens)
    requires PassOK(s, budget, cfg, cutoff, parallel, g)
    requires |gens| == 0 ==>
      && g.sel.p == s.recombine(p0, population).0 && g.sel.current == population
      && g.sel.offspring == s.recombine(p0, population).1 && g.sel.used == 0 && g.sel.bestIn == population[0]
    requires |gens| > 0 ==>
      var last := gens[|gens| - 1];
      Linked(last, g) && !Ended(last, budget) && last.usedAfter < budget
    ensures Unrolled(s, budget, cfg, cutoff, parallel, population, p0, gens + [g])
  {
    var longer := gens + [g];
    forall k | 0 <= k < |longer|
      ensures PassOK(s, budget, cfg, cutoff, parallel, longer[k])
    {
      if k < |gens| {
        assert longer[k] == gens[k];
      }
    }
    forall k | 0 <= k < |longer| - 1
      ensures Linked(longer[k], longer[k + 1]) && !Ended(longer[k], budget) && longer[k].usedAfter < budget
    {
      assert longer[k] == gens[k];
      if k + 1 < |gens| {
        assert longer[k + 1] == gens[k + 1];
      }
    }
  }

  /** population[0].fitness at the tracking step of each pass. */
  function Leaders<P>(gens: seq<Pass<P>>): (r: seq<real>)
    ensures |r| == |gens|
  {
    seq(|gens|, k requires 0 <= k < |gens| => gens[k].sel.next[0].fitness)
  }

  /** sigma_mean at the tracking step of each pass. */
  function Sigmas<P>(s: Strategy<P>, gens: seq<Pass<P>>): (r: seq<real>)
    ensures |r| == |gens|
  {
    seq(|gens|, k requires 0 <= k < |gens| => s.sigmaMean(gens[k].sel.qSel))
  }

  /** `after` is `before` with x appended, entry by entry. */
  predicate Snoc<T(==)>(after: seq<T>, before: seq<T>, x: T) {
    && |after| == |before| + 1 && after[|before|] == x
    && forall k {:trigger after[k]} :: 0 <= k < |before| ==> after[k] == before[k]
  }

  /** The per-pass records of a run, entry by entry: the leader's fitness, sigma_mean, and
      gen_size, the budget used by the pass's evaluation beyond the previous pass's. */
  predicate Records<P>(s: Strategy<P>, gens: seq<Pass<P>>, lead: seq<real>, sig: seq<real>, sizes: seq<nat>) {
    && |lead| == |gens| == |sig| == |sizes|
    && (forall k {:trigger lead[k]} :: 0 <= k < |gens| ==> lead[k] == gens[k].sel.next[0].fitness)
    && (forall k {:trigger sig[k]} :: 0 <= k < |gens| ==> sig[k] == s.sigmaMean(gens[k].sel.qSel))
    && (forall k {:trigger sizes[k]} :: 0 <= k < |gens| ==>
          sizes[k] == gens[k].sel.usedEval - (if k == 0 then 0 else gens[k - 1].sel.usedEval))
  }

  /** The records list exactly the per-pass leaders and sigmas. */
  lemma RecordsAre<P>(s: Strategy<P>, gens: seq<Pass<P>>, lead: seq<real>, sig: seq<real>, sizes: seq<nat>)
    requires Records(s, gens, lead, sig, sizes)
    ensures lead == Leaders(gens) && sig == Sigmas(s, gens)
  {
  }

  /** The per-pass records grow by one entry per pass. */
  lemma RecordsSnoc<P>(s: Strategy<P>, gens: seq<Pass<P>>, g: Pass<P>, lead: seq<real>, sig: seq<real>, sizes: seq<nat>,
                       lead': seq<real>, sig': seq<real>, sizes': seq<nat>)
    requires Records(s, gens, lead, sig, sizes)
    requires Snoc(lead', lead, g.sel.next[0].fitness) && Snoc(sig', sig, s.sigmaMean(g.sel.qSel))
    requires Snoc(sizes', sizes, g.sel.usedEval - (if |gens| == 0 then 0 else gens[|gens| - 1].sel.usedEval))
    ensures Records(s, gens + [g], lead', sig', sizes')
  {
    var longer := gens + [g];
    assert forall k :: 0 <= k < |gens| ==> longer[k] == gens[k];
    assert longer[|gens|] == g;
    forall k | 0 <= k < |longer|
      ensures sizes'[k] == longer[k].sel.usedEval - (if k == 0 then 0 else longer[k - 1].sel.usedEval)
    {
      if k > 0 {
        assert longer[k - 1] == gens[k - 1];
      }
    }
  }

  /** The state of the loop (the attributes of the algorithm object) and its run. */
  class BaseAlgorithm {
    var sigmaOverTime: seq<real>
    var fitnessOverTime: seq<real>
    var generationSize: seq<nat>
    var bestIndividual: Individual
    var usedBudget: nat
    var newPopulation: seq<Individual>
    var seqCutoff: int
    var parallel: bool
    /** population[0].fitness and sigma_mean at the tracking step of each generation. */
    ghost var leaders: seq<real>
    ghost var sigmas: seq<real>

    /** The traces are the per-generation values repeated by the generation sizes. */
    ghost predicate Traced()
      reads this`fitnessOverTime, this`sigmaOverTime, this`generationSize, this`leaders, this`sigmas
    {
      && |leaders| == |generationSize| == |sigmas|
      && fitnessOverTime == Expand(leaders, generationSize)
      && sigmaOverTime == Expand(sigmas, generationSize)
    }

    constructor ()
      ensures Traced() && generationSize == [] && usedBudget == 0
    {
      sigmaOverTime := [];
      fitnessOverTime := [];
      generationSize := [];
      leaders := [];
      sigmas := [];
      bestIndividual := Individual([], 0.0);
      usedBudget := 0;
      newPopulation := [];
      seqCutoff := 0;
      parallel := false;
    }

    method Initialize<P>(population: Population, s: Strategy<P>, cfg: LoopConfig, p: P, parallel: bool) returns (q: P)
      modifies this
      ensures Traced() && generationSize == [] && fitnessOverTime == [] && sigmaOverTime == []
      ensures bestIndividual == population[0] && usedBudget == 0
      ensures seqCutoff == cfg.muInt * cfg.seqCutoff && this.parallel == parallel
      ensures (q, newPopulation) == s.recombine(p, population)
    {
      sigmaOverTime := [];
      fitnessOverTime := [];
      generationSize := [];
      leaders := [];
      sigmas := [];
      bestIndividual := population[0];
      seqCutoff := cfg.muInt * cfg.seqCutoff;
      usedBudget := 0;
      this.parallel := parallel;
      var r := s.recombine(p, population);
      q := r.0;
      newPopulation := r.1;
    }

    /** What holds between generations of a run that started from `initial` with first
        offspring `firstOffspring`. */
    ghost predicate Inv(budget: nat, cfg: LoopConfig, initial: Individual, firstOffspring: seq<Individual>)
      reads this
    {
      && Traced() && |fitnessOverTime| <= usedBudget <= |fitnessOverTime| + (if cfg.tpa then 2 else 0)
      && (|generationSize| > 0 ==> |fitnessOverTime| > 0)
      && (|generationSize| == 0 ==> usedBudget == 0 && newPopulation == firstOffspring)
      && (cfg.tpa && !parallel && |generationSize| == 0 ==> |newPopulation| > 2)
      && (!cfg.tpa ==> |newPopulation| > 0)
      && (cfg.sequential && !parallel ==> usedBudget <= budget)
      && seqCutoff == cfg.muInt * cfg.seqCutoff
      && BestTracks(initial)
    }

    /** The state after the passes `gens` of a call that started from `population` and `p0`:
        the loop invariant, the passes themselves, the per-pass values behind the traces, and
        the attributes and loop variables the last pass left. */
    ghost predicate RunSoFar<P>(s: Strategy<P>, budget: nat, cfg: LoopConfig, population: Population, p0: P,
                                gens: seq<Pass<P>>, p: P, current: Population)
      reads this
    {
      && Inv(budget, cfg, population[0], s.recombine(p0, population).1)
      && (parallel ==> cfg.lambda >= 1)
      && Unrolled(s, budget, cfg, cfg.muInt * cfg.seqCutoff, parallel, population, p0, gens)
      && Records(s, gens, leaders, sigmas, generationSize)
      && (|gens| == 0 ==>
            p == s.recombine(p0, population).0 && current == population && bestIndividual == population[0])
      && (|gens| > 0 ==> Leaves(gens[|gens| - 1], p, current))
    }

    /** The attributes and loop variables that pass g leaves. */
    ghost predicate Leaves<P>(g: Pass<P>, p: P, current: Population)
      reads this`newPopulation, this`usedBudget, this`bestIndividual, this`fitnessOverTime
    {
      && p == g.q && current == g.sel.next && newPopulation == g.offspringAfter && usedBudget == g.usedAfter
      && bestIndividual == BestAfter(g) && |fitnessOverTime| == g.sel.usedEval
    }

    /** _BaseAlgorithm.__call__. `gens` records each pass of the main loop: together they
        give the returned budget and parameters, the best individual and the three traces. */
    method Run<P>(population: Population, s: Strategy<P>, budget: nat, cfg: LoopConfig, p0: P, parallel: bool)
      returns (used: int, p: P, ghost gens: seq<Pass<P>>)
      requires cfg.tpa && !parallel ==> |s.recombine(p0, population).1| > 2
      requires parallel ==> cfg.lambda >= 1
      modifies this
      ensures Traced() && used == usedBudget
      ensures Unrolled(s, budget, cfg, cfg.muInt * cfg.seqCutoff, parallel, population, p0, gens)
      ensures budget > 0 <==> |gens| > 0
      ensures |gens| == 0 ==> used == 0 && p == s.recombine(p0, population).0 && bestIndividual == population[0]
      ensures |gens| > 0 ==>
        var last := gens[|gens| - 1];
        && (Ended(last, budget) || used >= budget)
        && used == last.usedAfter && p == last.q && bestIndividual == BestAfter(last)
      ensures Records(s, gens, Leaders(gens), Sigmas(s, gens), generationSize)
      ensures fitnessOverTime == Expand(Leaders(gens), generationSize)
      ensures sigmaOverTime == Expand(Sigmas(s, gens), generationSize)
      ensures Sum(generationSize) == |fitnessOverTime| == |sigmaOverTime|
      ensures |fitnessOverTime| <= used <= |fitnessOverTime| + (if cfg.tpa then 2 else 0)
      ensures budget > 0 ==> used > 0 && |fitnessOverTime| > 0
      ensures |gens| == 0 || !gens[|gens| - 1].restart ==> used >= budget
      ensures cfg.sequential && !parallel ==> used <= budget
      ensures BestTracks(population[0])
    {
      p := Initialize(population, s, cfg, p0, parallel);
      p, gens := MainLoop(population, s, budget, cfg, p0, p);
      used := usedBudget;
      ghost var current :| RunSoFar(s, budget, cfg, population, p0, gens, p, current);
      RecordsAre(s, gens, leaders, sigmas, generationSize);
    }

    /** The `while used_budget < budget` loop of _BaseAlgorithm.__call__, from the state the
        initial recombination leaves. */
    method MainLoop<P>(population: Population, s: Strategy<P>, budget: nat, cfg: LoopConfig, p0: P, p1: P)
      returns (p: P, ghost gens: seq<Pass<P>>)
      requires RunSoFar(s, budget, cfg, population, p0, [], p1, population)
      modifies this`newPopulation, this`usedBudget, this`generationSize, this`sigmaOverTime, this`fitnessOverTime,
        this`leaders, this`sigmas, this`bestIndividual
      ensures exists current :: RunSoFar(s, budget, cfg, population, p0, gens, p, current)
      ensures budget > 0 <==> |gens| > 0
      ensures |gens| == 0 ==> usedBudget >= budget
      ensures |gens| > 0 ==> Ended(gens[|gens| - 1], budget) || usedBudget >= budget
    {
      p := p1;
      var current := population;
      gens := [];
      while usedBudget < budget
        invariant RunSoFar(s, budget, cfg, population, p0, gens, p, current)
        invariant |gens| > 0 ==> budget > 0 && !Ended(gens[|gens| - 1], budget)
        decreases budget - usedBudget
      {
        var done;
        ghost var g;
        p, current, done, g := Generation(s, budget, cfg, population, p0, gens, p, current);
        gens := gens + [g];
        if done {
          break;
        }
      }
    }

    /** One pass of the main loop, appended to the passes before it; `done` is a `break` out
        of the loop. */
    method Generation<P>(s: Strategy<P>, budget: nat, cfg: LoopConfig, population: Population, p0: P,
                         ghost gens: seq<Pass<P>>, p: P, current: Population)
      returns (q: P, next: Population, done: bool, ghost g: Pass<P>)
      requires RunSoFar(s, budget, cfg, population, p0, gens, p, current) && usedBudget < budget
      requires |gens| > 0 ==> !Ended(gens[|gens| - 1], budget)
      modifies this`newPopulation, this`usedBudget, this`generationSize, this`sigmaOverTime, this`fitnessOverTime,
        this`leaders, this`sigmas, this`bestIndividual
      ensures RunSoFar(s, budget, cfg, population, p0, gens + [g], q, next)
      ensures done == Ended(g, budget) && (done || usedBudget > old(usedBudget))
    {
      ghost var lead, sig, sizes := leaders, sigmas, generationSize;
      assert |fitnessOverTime| == if |gens| == 0 then 0 else gens[|gens| - 1].sel.usedEval;
      q, next, done, g := OnePass(s, budget, cfg, p, current, population[0], s.recombine(p0, population).1);
      UnrolledSnoc(s, budget, cfg, cfg.muInt * cfg.seqCutoff, old(parallel), population, p0, gens, g);
      RecordsSnoc(s, gens, g, lead, sig, sizes, leaders, sigmas, generationSize);
    }

    /** One pass of the main loop from evaluation to the local-restart test, recorded as `g`. */
    method OnePass<P>(s: Strategy<P>, budget: nat, cfg: LoopConfig, p: P, current: Population,
                      ghost initial: Individual, ghost firstOffspring: seq<Individual>)
      returns (q: P, next: Population, done: bool, ghost g: Pass<P>)
      requires Inv(budget, cfg, initial, firstOffspring) && usedBudget < budget
      requires parallel ==> cfg.lambda >= 1
      modifies this`newPopulation, this`usedBudget, this`generationSize, this`sigmaOverTime, this`fitnessOverTime,
        this`leaders, this`sigmas, this`bestIndividual
      ensures Inv(budget, cfg, initial, firstOffspring)
      ensures PassOK(s, budget, cfg, old(seqCutoff), old(parallel), g)
      ensures g.sel.p == p && g.sel.current == current && g.sel.offspring == old(newPopulation)
      ensures g.sel.used == old(usedBudget) && g.sel.bestIn == old(bestIndividual) && Leaves(g, q, next)
      ensures done == Ended(g, budget) && (done || usedBudget > old(usedBudget))
      ensures Snoc(leaders, old(leaders), g.sel.next[0].fitness) && Snoc(sigmas, old(sigmas), s.sigmaMean(g.sel.qSel))
      ensures Snoc(generationSize, old(generationSize), g.sel.usedEval - |old(fitnessOverTime)|)
    {
      var qSel;
      ghost var e;
      qSel, next, e := Track(s, budget, cfg, p, current, initial, firstOffspring);
      if usedBudget >= budget {
        q, done := qSel, true;
        g := Pass(e, qSel, newPopulation, usedBudget, false);
      } else {
        var restart;
        q, restart := Advance(s, budget, cfg, qSel, next, FitnessBag(newPopulation));
        done := restart;
        g := Pass(e, q, newPopulation, usedBudget, restart);
      }
    }

    /** The evaluation phase, the selection and the tracking step of one pass; `e` records
        the first two. */
    method Track<P>(s: Strategy<P>, budget: nat, cfg: LoopConfig, p: P, current: Population,
                    ghost initial: Individual, ghost firstOffspring: seq<Individual>)
      returns (qSel: P, next: Population, ghost e: Selection<P>)
      requires Inv(budget, cfg, initial, firstOffspring) && usedBudget < budget
      requires parallel ==> cfg.lambda >= 1
      modifies this`newPopulation, this`usedBudget, this`generationSize, this`sigmaOverTime, this`fitnessOverTime,
        this`leaders, this`sigmas, this`bestIndividual
      ensures Selected(s, budget, cfg, old(seqCutoff), old(parallel), e)
      ensures e.p == p && e.current == current && e.offspring == old(newPopulation) && e.used == old(usedBudget)
      ensures e.bestIn == old(bestIndividual) && e.kept == newPopulation && e.usedEval == usedBudget
      ensures e.qSel == qSel && e.next == next
      ensures Inv(budget, cfg, initial, firstOffspring) && |fitnessOverTime| == usedBudget
      ensures bestIndividual == if next[0].fitness < old(bestIndividual).fitness then next[0] else old(bestIndividual)
      ensures Snoc(leaders, old(leaders), next[0].fitness) && Snoc(sigmas, old(sigmas), s.sigmaMean(qSel))
      ensures Snoc(generationSize, old(generationSize), usedBudget - |old(fitnessOverTime)|)
      ensures usedBudget >= old(usedBudget) && (usedBudget > old(usedBudget) || cfg.tpa)
    {
      qSel, next, e := EvaluateAndSelect(s, budget, cfg, p, current);
      RecordPass(budget, cfg, s.sigmaMean(qSel), next[0], initial, firstOffspring);
    }

    /** The tracking step of a pass whose evaluation used budget, keeping the invariant. */
    method RecordPass(ghost budget: nat, ghost cfg: LoopConfig, sigmaMean: real, leader: Individual,
                      ghost initial: Individual, ghost firstOffspring: seq<Individual>)
      requires Traced() && |fitnessOverTime| <= usedBudget && BestTracks(initial) && usedBudget > 0
      requires (!cfg.tpa ==> |newPopulation| > 0) && (cfg.sequential && !parallel ==> usedBudget <= budget)
      requires seqCutoff == cfg.muInt * cfg.seqCutoff
      modifies this`generationSize, this`sigmaOverTime, this`fitnessOverTime, this`leaders, this`sigmas,
        this`bestIndividual
      ensures Inv(budget, cfg, initial, firstOffspring) && |fitnessOverTime| == usedBudget
      ensures Snoc(leaders, old(leaders), leader.fitness) && Snoc(sigmas, old(sigmas), sigmaMean)
      ensures Snoc(generationSize, old(generationSize), usedBudget - |old(fitnessOverTime)|)
      ensures bestIndividual == if leader.fitness < old(bestIndividual).fitness then leader else old(bestIndividual)
    {
      RecordGeneration(sigmaMean, leader, initial);
    }

    /** The evaluation phase and the selection of one pass, recorded as `e`. */
    method EvaluateAndSelect<P>(s: Strategy<P>, budget: nat, cfg: LoopConfig, p: P, current: Population)
      returns (q: P, next: Population, ghost e: Selection<P>)
      requires usedBudget < budget && (parallel ==> cfg.lambda >= 1) && (!cfg.tpa ==> |newPopulation| > 0)
      modifies this`newPopulation, this`usedBudget
      ensures Selected(s, budget, cfg, old(seqCutoff), old(parallel), e)
      ensures e.p == p && e.current == current && e.offspring == old(newPopulation) && e.used == old(usedBudget)
      ensures e.bestIn == old(bestIndividual) && e.kept == newPopulation && e.usedEval == usedBudget
      ensures e.qSel == q && e.next == next
      ensures usedBudget >= old(usedBudget) && (usedBudget > old(usedBudget) || cfg.tpa)
      ensures parallel || |if cfg.tpa then DropTwo(old(newPopulation)) else old(newPopulation)| > 0 ==>
        usedBudget > old(usedBudget)
      ensures !cfg.tpa ==> |newPopulation| > 0
      ensures cfg.sequential && !parallel ==> usedBudget <= budget
    {
      ghost var offspring, used := newPopulation, usedBudget;
      var evaluated := EvaluateOffspring(s, budget, cfg, p);
      var selected := s.select(evaluated, current, newPopulation, usedBudget);
      q := selected.0;
      next := selected.1;
      e := Selection(p, current, offspring, used, bestIndividual, evaluated, newPopulation, usedBudget, q, next);
    }

    /** The evaluation phase on the stored offspring, charged to the used budget. */
    method EvaluateOffspring<P>(s: Strategy<P>, budget: nat, cfg: LoopConfig, p: P) returns (q: P)
      requires usedBudget < budget && (parallel ==> cfg.lambda >= 1) && (!cfg.tpa ==> |newPopulation| > 0)
      modifies this`newPopulation, this`usedBudget
      ensures GenerationEvaluated(s, p, old(newPopulation), bestIndividual.fitness, old(usedBudget), budget, cfg,
                                  seqCutoff, parallel, q, newPopulation, usedBudget)
      ensures usedBudget >= old(usedBudget) && (usedBudget > old(usedBudget) || cfg.tpa)
      ensures parallel || |if cfg.tpa then DropTwo(old(newPopulation)) else old(newPopulation)| > 0 ==>
        usedBudget > old(usedBudget)
      ensures !cfg.tpa ==> |newPopulation| > 0
      ensures cfg.sequential && !parallel ==> usedBudget <= budget
    {
      var kept, afterEval;
      q, kept, afterEval := EvaluateGeneration(s, p, newPopulation, bestIndividual.fitness, usedBudget,
                                               budget, cfg, seqCutoff, parallel);
      newPopulation := kept;
      usedBudget := afterEval;
    }

    /** The rest of a generation that did not exhaust the budget: recombination when the
        population has mu_int members (otherwise only an error message), the TPA probe,
        parameter adaptation and the local-restart test. */
    method Advance<P>(s: Strategy<P>, budget: nat, cfg: LoopConfig, p: P, next: Population, fitnesses: multiset<real>)
      returns (q: P, restart: bool)
      requires usedBudget < budget
      modifies this`newPopulation, this`usedBudget
      ensures Advanced(s, budget, cfg, p, next, fitnesses, old(usedBudget), old(newPopulation),
                       q, newPopulation, usedBudget, restart)
      ensures !cfg.tpa ==> usedBudget == old(usedBudget)
      ensures cfg.tpa && !cfg.sequential ==> usedBudget == old(usedBudget) + 2
      ensures cfg.tpa ==> old(usedBudget) < usedBudget <= old(usedBudget) + 2
      ensures cfg.tpa && cfg.sequential ==> usedBudget <= budget
      ensures |old(newPopulation)| > 0 ==> |newPopulation| > 0
    {
      q := p;
      if |next| == cfg.muInt {
        var r := s.recombine(q, next);
        q := r.0;
        newPopulation := r.1;
      }

      if cfg.tpa {
        var probes := s.tpaPoints(q);
        var plusFitness := s.fitness(probes.0);
        var minusFitness := s.fitness(probes.1);
        var step := TpaStep(usedBudget, budget, cfg.sequential, plusFitness, minusFitness);
        usedBudget := step.0;
        q := s.setTpaResult(q, step.1);
      }

      q := s.adapt(q, usedBudget);
      restart := s.localRestart(q, usedBudget, fitnesses);
    }

    ghost predicate BestTracks(initial: Individual)
      reads this`bestIndividual, this`leaders
    {
      BestFits(bestIndividual, initial, leaders)
    }

    /** The tracking step: gen_size = used_budget - len(fitness_over_time) more entries of
        sigma_mean and of the leader's fitness; the leader replaces the best individual only
        when strictly better. */
    method RecordGeneration(sigmaMean: real, leader: Individual, ghost initial: Individual)
      requires Traced() && |fitnessOverTime| <= usedBudget && BestTracks(initial)
      modifies this`generationSize, this`sigmaOverTime, this`fitnessOverTime, this`leaders, this`sigmas,
        this`bestIndividual
      ensures Traced() && |fitnessOverTime| == usedBudget && BestTracks(initial)
      ensures leaders == old(leaders) + [leader.fitness] && sigmas == old(sigmas) + [sigmaMean]
      ensures generationSize == old(generationSize) + [usedBudget - |old(fitnessOverTime)|]
      ensures Snoc(leaders, old(leaders), leader.fitness) && Snoc(sigmas, old(sigmas), sigmaMean)
      ensures Snoc(generationSize, old(generationSize), usedBudget - |old(fitnessOverTime)|)
      ensures fitnessOverTime == Extended(old(fitnessOverTime), leader.fitness, usedBudget - |old(fitnessOverTime)|)
      ensures sigmaOverTime == Extended(old(sigmaOverTime), sigmaMean, usedBudget - |old(fitnessOverTime)|)
      ensures bestIndividual == if leader.fitness < old(bestIndividual).fitness then leader else old(bestIndividual)
    {
      var genSize := usedBudget - |fitnessOverTime|;
      assert (leaders + [leader.fitness])[..|leaders|] == leaders;
      assert (sigmas + [sigmaMean])[..|sigmas|] == sigmas;
      assert (generationSize + [genSize])[..|generationSize|] == generationSize;
      generationSize := generationSize + [genSize];
      sigmaOverTime := sigmaOverTime + seq(genSize, _ => sigmaMean);
      fitnessOverTime := fitnessOverTime + seq(genSize, _ => leader.fitness);
      leaders := leaders + [leader.fitness];
      sigmas := sigmas + [sigmaMean];
      BestFitsStep(bestIndividual, initial, old(leaders), leader);
      if leader.fitness < bestIndividual.fitness {
        bestIndividual := leader;
      }
    }
  }
}
