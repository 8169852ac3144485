/** localRestartAlgorithm: repeated runs of the generational loop on what is left of the
    budget, with the IPOP and BIPOP population-size schedules. One run is abstract here: it is
    given the restart number (standing for its random start), the options it is built from and
    the remaining budget, and it returns the used budget and its traces. */
module Restart {
  import opened Common
  import opened Engine

  /** parameter_opts['local_restart']: 'IPOP', 'BIPOP' or anything else (no schedule). */
  datatype RestartKind = IPOP | BIPOP | NoSchedule

  datatype Regime = Large | Small

  /** The entries of parameter_opts that the restart loop rewrites: lambda_ and sigma. */
  datatype RunOpts = RunOpts(lambda: Option<int>, sigma: Option<real>)

  /** The small-regime population size and step size, which come from random draws. */
  datatype SmallDraw = SmallDraw(lambda: int, sigma: real)

  /** The statistics of a run: (generation_size, sigma_over_time, fitness_over_time,
      best_individual). */
  datatype Stats = Stats(generationSize: seq<nat>, sigmaOverTime: seq<real>, fitnessOverTime: seq<real>, best: Individual)

  /** The result of one run: its used budget and its statistics. */
  datatype Outcome = Outcome(used: int, stats: Stats)

  /** A run on a positive budget uses some of it and records at least one generation, as
      BaseAlgorithm.Run guarantees. */
  type RunOutcome = o: Outcome | o.used > 0 && |o.stats.fitnessOverTime| > 0
    witness Outcome(1, Stats([1], [1.0], [0.0], Individual([], 0.0)))

  /** The scheduler's own state: local_budget, the options of the next run, lambda_large,
      small_budget and large_budget (None until BIPOP's first split). */
  datatype Book = Book(local: int, opts: RunOpts, lambdaLarge: Option<int>, small: Option<int>, large: Option<int>)

  /** lambda_init: the given lambda_ when it is truthy, otherwise the default for IPOP and
      BIPOP, otherwise None. */
  function LambdaInit(kind: RestartKind, lambda: Option<int>, defaultLambda: int): Option<int> {
    if lambda.Some? && lambda.value != 0 then lambda
    else if kind != NoSchedule then Some(defaultLambda)
    else None
  }

  function InitialBook(kind: RestartKind, budget: int, lambda: Option<int>, defaultLambda: int, sigma0: Option<real>): Book {
    var init := LambdaInit(kind, lambda, defaultLambda);
    Book(budget, RunOpts(init, sigma0), init, None, None)
  }

  /** The schedules only ever scale a known population size. */
  predicate WellFormed(kind: RestartKind, b: Book) {
    && (kind != NoSchedule ==> b.opts.lambda.Some?)
    && (kind == BIPOP ==> b.lambdaLarge.Some? && (b.small.Some? <==> b.large.Some?))
  }

  lemma InitialBookWellFormed(kind: RestartKind, budget: int, lambda: Option<int>, defaultLambda: int, sigma0: Option<real>)
    ensures WellFormed(kind, InitialBook(kind, budget, lambda, defaultLambda, sigma0))
  {
  }

  /** What one finished run does to the schedule; the regime is given for BIPOP. */
  function Step(kind: RestartKind, b: Book, used: int, draw: SmallDraw): (r: (Book, Option<Regime>))
    requires WellFormed(kind, b)
    ensures WellFormed(kind, r.0)
    ensures r.0.local == b.local - used
    ensures kind == NoSchedule ==> r.0 == b.(local := b.local - used) && r.1 == None
    ensures kind == IPOP ==> r.0.opts == b.opts.(lambda := Some(2 * b.opts.lambda.value)) && r.1 == None
    ensures kind == IPOP ==> r.0.small == b.small && r.0.large == b.large && r.0.lambdaLarge == b.lambdaLarge
    ensures kind == BIPOP ==> r.1.Some? && r.0.small.Some? && r.0.large.Some?
    ensures kind == BIPOP && b.small.None? ==>
      && r.1 == Some(Large)
      && r.0.small.value == (b.local - used) / 2
      && r.0.small.value + r.0.large.value + used == b.local - used
    ensures kind == BIPOP && b.small.Some? ==>
      (r.1 == Some(Small) <==> b.small.value > b.large.value > 0)
    ensures kind == BIPOP && b.small.Some? && r.1 == Some(Large) ==>
      r.0.large.value == b.large.value - used && r.0.small == b.small
    ensures kind == BIPOP && r.1 == Some(Large) ==>
      && r.0.lambdaLarge == Some(2 * b.lambdaLarge.value)
      && r.0.opts == RunOpts(r.0.lambdaLarge, Some(2.0))
    ensures kind == BIPOP && r.1 == Some(Small) ==>
      && r.0.small.value == b.small.value - used && r.0.large == b.large
      && r.0.lambdaLarge == b.lambdaLarge
      && r.0.opts == RunOpts(Some(draw.lambda), Some(draw.sigma))
  {
    var local := b.local - used;
    match kind
    case NoSchedule => (b.(local := local), None)
    case IPOP => (b.(local := local, opts := b.opts.(lambda := Some(b.opts.lambda.value * 2))), None)
    case BIPOP =>
      var (small, large, regime) :=
        if b.small.None? then (local / 2, local - local / 2, Large)
        else (b.small.value, b.large.value, if b.small.value > b.large.value > 0 then Small else Large);
      if regime == Large then
        var lambdaLarge := b.lambdaLarge.value * 2;
        (Book(local, RunOpts(Some(lambdaLarge), Some(2.0)), Some(lambdaLarge), Some(small), Some(large - used)), Some(Large))
      else
        (Book(local, RunOpts(Some(draw.lambda), Some(draw.sigma)), b.lambdaLarge, Some(small - used), Some(large)), Some(Small))
  }

  /** The schedule after runs that used `useds`, the k-th run's small-regime draw being draws(k). */
  function After(kind: RestartKind, b0: Book, useds: seq<int>, draws: nat -> SmallDraw): (r: Book)
    requires WellFormed(kind, b0)
    ensures WellFormed(kind, r)
    decreases |useds|
  {
    if |useds| == 0 then b0
    else Step(kind, After(kind, b0, useds[..|useds| - 1], draws), useds[|useds| - 1], draws(|useds| - 1)).0
  }

  /** The BIPOP regimes chosen after each run. */
  function Regimes(b0: Book, useds: seq<int>, draws: nat -> SmallDraw): (r: seq<Regime>)
    requires WellFormed(BIPOP, b0)
    ensures |r| == |useds|
    decreases |useds|
  {
    if |useds| == 0 then []
    else
      var front := useds[..|useds| - 1];
      Regimes(b0, front, draws) + [Step(BIPOP, After(BIPOP, b0, front, draws), useds[|useds| - 1], draws(|useds| - 1)).1.value]
  }

  function CountLarge(rs: seq<Regime>): nat {
    if |rs| == 0 then 0 else CountLarge(rs[..|rs| - 1]) + (if rs[|rs| - 1] == Large then 1 else 0)
  }

  /** Every run subtracts its used budget from local_budget. */
  lemma {:induction false} LocalBudgetSpent(kind: RestartKind, b0: Book, useds: seq<int>, draws: nat -> SmallDraw)
    requires WellFormed(kind, b0)
    ensures After(kind, b0, useds, draws).local == b0.local - Sum(useds)
    decreases |useds|
  {
    if |useds| > 0 {
      LocalBudgetSpent(kind, b0, useds[..|useds| - 1], draws);
    }
  }

  /** Under IPOP, lambda_ doubles after every run: after k runs it is lambda_init * 2^k. */
  lemma {:induction false} IpopLambda(b0: Book, useds: seq<int>, draws: nat -> SmallDraw)
    requires WellFormed(IPOP, b0)
    ensures After(IPOP, b0, useds, draws).opts.lambda == Some(b0.opts.lambda.value * Pow2(|useds|))
    decreases |useds|
  {
    if |useds| > 0 {
      IpopLambda(b0, useds[..|useds| - 1], draws);
      DoubleTimesPow2(b0.opts.lambda.value, |useds| - 1);
    }
  }

  /** After the first BIPOP run the two reserves hold what is left of the budget, less the
      first run's usage a second time (the large regime is charged for it on the split). */
  lemma {:induction false} BipopReserves(b0: Book, useds: seq<int>, draws: nat -> SmallDraw)
    requires WellFormed(BIPOP, b0) && b0.small.None? && |useds| > 0
    ensures var b := After(BIPOP, b0, useds, draws);
      b.small.Some? && b.small.value + b.large.value == b0.local - Sum(useds) - useds[0]
    decreases |useds|
  {
    var front := useds[..|useds| - 1];
    if |useds| == 1 {
      assert front == [];
      assert Sum(useds) == useds[0];
    } else {
      BipopReserves(b0, front, draws);
      assert front[0] == useds[0];
    }
  }

  /** lambda_large is lambda_init doubled once per large-regime run. */
  lemma {:induction false} BipopLambdaLarge(b0: Book, useds: seq<int>, draws: nat -> SmallDraw)
    requires WellFormed(BIPOP, b0)
    ensures After(BIPOP, b0, useds, draws).lambdaLarge ==
      Some(b0.lambdaLarge.value * Pow2(CountLarge(Regimes(b0, useds, draws))))
    decreases |useds|
  {
    if |useds| > 0 {
      var front := useds[..|useds| - 1];
      BipopLambdaLarge(b0, front, draws);
      var rs := Regimes(b0, useds, draws);
      assert rs[..|rs| - 1] == Regimes(b0, front, draws);
      var st := Step(BIPOP, After(BIPOP, b0, front, draws), useds[|useds| - 1], draws(|useds| - 1));
      var c := CountLarge(Regimes(b0, front, draws));
      if st.1 == Some(Large) {
        assert CountLarge(rs) == c + 1;
        DoubleTimesPow2(b0.lambdaLarge.value, c);
      } else {
        assert CountLarge(rs) == c;
      }
    }
  }

  lemma DoubleTimesPow2(x: int, c: nat)
    ensures 2 * (x * Pow2(c)) == x * Pow2(c + 1)
  {
    assert Pow2(c + 1) == 2 * Pow2(c);
  }

  /** One more run extends the schedule by one Step. */
  lemma AfterSnoc(kind: RestartKind, b0: Book, useds: seq<int>, used: int, draws: nat -> SmallDraw)
    requires WellFormed(kind, b0)
    ensures After(kind, b0, useds + [used], draws) == Step(kind, After(kind, b0, useds, draws), used, draws(|useds|)).0
  {
    assert (useds + [used])[..|useds|] == useds;
  }

  function Useds(os: seq<RunOutcome>): (r: seq<int>)
    ensures |r| == |os| && forall k :: 0 <= k < |os| ==> r[k] == os[k].used
  {
    seq(|os|, k requires 0 <= k < |os| => os[k].used)
  }

  lemma UsedsSnoc(outcomes: seq<RunOutcome>, outcome: RunOutcome)
    ensures Useds(outcomes + [outcome]) == Useds(outcomes) + [outcome.used]
  {
    var l := Useds(outcomes + [outcome]);
    var r := Useds(outcomes) + [outcome.used];
    forall k | 0 <= k < |l|
      ensures l[k] == r[k]
    {
      if k < |outcomes| {
        assert (outcomes + [outcome])[k] == outcomes[k];
      }
    }
  }

  function AllSizes(os: seq<RunOutcome>): seq<nat> {
    if |os| == 0 then [] else AllSizes(os[..|os| - 1]) + os[|os| - 1].stats.generationSize
  }

  function AllSigmas(os: seq<RunOutcome>): seq<real> {
    if |os| == 0 then [] else AllSigmas(os[..|os| - 1]) + os[|os| - 1].stats.sigmaOverTime
  }

  function AllFitness(os: seq<RunOutcome>): (r: seq<real>)
    ensures |os| > 0 ==> |r| > 0
  {
    if |os| == 0 then [] else AllFitness(os[..|os| - 1]) + os[|os| - 1].stats.fitnessOverTime
  }

  /** The overall best fitness is the smallest of the runs' best fitnesses. */
  predicate BestOf(os: seq<RunOutcome>, best: Individual, chosen: nat)
    requires |os| > 0
  {
    && chosen < |os|
    && best == os[chosen].stats.best
    && SeqMin(os[chosen].stats.fitnessOverTime) == SeqMin(AllFitness(os))
    && (forall k :: 0 <= k < chosen ==> SeqMin(os[k].stats.fitnessOverTime) > SeqMin(AllFitness(os)))
    && (forall k :: 0 <= k < |os| ==> SeqMin(os[k].stats.fitnessOverTime) >= SeqMin(AllFitness(os)))
  }

  /** Run k was started on the options and positive budget the schedule had after runs 0..k-1. */
  predicate Scheduled(kind: RestartKind, b0: Book, outcomes: seq<RunOutcome>, run: (nat, RunOpts, int) -> RunOutcome,
                      draws: nat -> SmallDraw)
    requires WellFormed(kind, b0)
  {
    forall k :: 0 <= k < |outcomes| ==>
      var b := After(kind, b0, Useds(outcomes)[..k], draws);
      b.local > 0 && outcomes[k] == run(k, b.opts, b.local)
  }

  lemma ScheduledSnoc(kind: RestartKind, b0: Book, outcomes: seq<RunOutcome>, run: (nat, RunOpts, int) -> RunOutcome,
                      draws: nat -> SmallDraw, outcome: RunOutcome)
    requires WellFormed(kind, b0) && Scheduled(kind, b0, outcomes, run, draws)
    requires var b := After(kind, b0, Useds(outcomes), draws);
      b.local > 0 && outcome == run(|outcomes|, b.opts, b.local)
    ensures Scheduled(kind, b0, outcomes + [outcome], run, draws)
  {
    var os := outcomes + [outcome];
    UsedsSnoc(outcomes, outcome);
    forall k | 0 <= k < |os|
      ensures var b := After(kind, b0, Useds(os)[..k], draws);
        b.local > 0 && os[k] == run(k, b.opts, b.local)
    {
      if k < |outcomes| {
        assert Useds(os)[..k] == Useds(outcomes)[..k] && os[k] == outcomes[k];
      } else {
        assert Useds(os)[..k] == Useds(outcomes) && os[k] == outcome;
      }
    }
  }

  /** The combined statistics of the runs so far, with the running best fitness. */
  predicate Combined(total: Stats, bestFitness: real, chosen: nat, outcomes: seq<RunOutcome>) {
    && |outcomes| > 0
    && total.generationSize == AllSizes(outcomes)
    && total.sigmaOverTime == AllSigmas(outcomes)
    && total.fitnessOverTime == AllFitness(outcomes)
    && bestFitness == SeqMin(AllFitness(outcomes))
    && BestOf(outcomes, total.best, chosen)
  }

  /** The traces of one more run are appended to the combined traces. */
  lemma TracesSnoc(outcomes: seq<RunOutcome>, outcome: RunOutcome)
    ensures var os := outcomes + [outcome];
      && AllSizes(os) == AllSizes(outcomes) + outcome.stats.generationSize
      && AllSigmas(os) == AllSigmas(outcomes) + outcome.stats.sigmaOverTime
      && AllFitness(os) == AllFitness(outcomes) + outcome.stats.fitnessOverTime
  {
    assert (outcomes + [outcome])[..|outcomes|] == outcomes;
  }

  /** The overall minimum after one more run is the smaller of the two minima. */
  lemma MinSnoc(outcomes: seq<RunOutcome>, outcome: RunOutcome)
    requires |outcomes| > 0
    ensures SeqMin(AllFitness(outcomes + [outcome]))
      == MinReal(SeqMin(AllFitness(outcomes)), SeqMin(outcome.stats.fitnessOverTime))
  {
    assert (outcomes + [outcome])[..|outcomes|] == outcomes;
    SeqMinConcat(AllFitness(outcomes), outcome.stats.fitnessOverTime);
  }

  /** A run whose minimum is not strictly lower leaves the best individual where it was. */
  lemma BestKept(outcomes: seq<RunOutcome>, best: Individual, chosen: nat, outcome: RunOutcome)
    requires |outcomes| > 0 && BestOf(outcomes, best, chosen)
    requires SeqMin(AllFitness(outcomes)) <= SeqMin(outcome.stats.fitnessOverTime)
    ensures BestOf(outcomes + [outcome], best, chosen)
  {
    var os := outcomes + [outcome];
    MinSnoc(outcomes, outcome);
    var m := SeqMin(AllFitness(outcomes));
    assert SeqMin(AllFitness(os)) == m;
    forall k | 0 <= k < |os|
      ensures SeqMin(os[k].stats.fitnessOverTime) >= m
    {
      if k < |outcomes| {
        assert os[k] == outcomes[k];
      }
    }
    assert forall k :: 0 <= k <= chosen ==> os[k] == outcomes[k];
  }

  /** A run whose minimum is strictly lower becomes the best one. */
  lemma BestReplaced(outcomes: seq<RunOutcome>, best: Individual, chosen: nat, outcome: RunOutcome)
    requires |outcomes| > 0 && BestOf(outcomes, best, chosen)
    requires SeqMin(outcome.stats.fitnessOverTime) < SeqMin(AllFitness(outcomes))
    ensures BestOf(outcomes + [outcome], outcome.stats.best, |outcomes|)
  {
    var os := outcomes + [outcome];
    MinSnoc(outcomes, outcome);
    var l := SeqMin(outcome.stats.fitnessOverTime);
    assert SeqMin(AllFitness(os)) == l;
    forall k | 0 <= k < |outcomes|
      ensures SeqMin(os[k].stats.fitnessOverTime) > l
    {
      assert os[k] == outcomes[k];
    }
    assert os[|outcomes|] == outcome;
  }

  /** Folding one more run into the combined statistics: the traces are extended and the
      best individual is replaced only when the run's minimum fitness is strictly lower. */
  method MergeRun(total: Stats, bestFitness: real, ghost chosen: nat, ghost outcomes: seq<RunOutcome>, outcome: RunOutcome)
    returns (merged: Stats, newBest: real, ghost newChosen: nat)
    requires Combined(total, bestFitness, chosen, outcomes)
    ensures Combined(merged, newBest, newChosen, outcomes + [outcome])
  {
    TracesSnoc(outcomes, outcome);
    MinSnoc(outcomes, outcome);
    var localBest := SeqMin(outcome.stats.fitnessOverTime);
    merged := total.(generationSize := total.generationSize + outcome.stats.generationSize,
                     sigmaOverTime := total.sigmaOverTime + outcome.stats.sigmaOverTime,
                     fitnessOverTime := total.fitnessOverTime + outcome.stats.fitnessOverTime);
    newBest := bestFitness;
    newChosen := chosen;
    if localBest < bestFitness {
      newBest := localBest;
      merged := merged.(best := outcome.stats.best);
      newChosen := |outcomes|;
      BestReplaced(outcomes, total.best, chosen, outcome);
    } else {
      BestKept(outcomes, total.best, chosen, outcome);
    }
  }

  /** The first run's statistics are the combined statistics so far. */
  method FirstRun(outcome: RunOutcome) returns (total: Stats, bestFitness: real, ghost chosen: nat)
    ensures Combined(total, bestFitness, chosen, [outcome])
  {
    total := outcome.stats;
    bestFitness := SeqMin(outcome.stats.fitnessOverTime);
    chosen := 0;
    assert [outcome][..0] == [];
  }

  /** The population-size schedule applied after a run that used `used`: IPOP doubles lambda_;
      BIPOP splits the remaining budget on its first call, then picks a regime and charges
      the run to it. */
  method Reschedule(kind: RestartKind, localBudget: int, opts: RunOpts, lambdaLarge: Option<int>,
                    smallBudget: Option<int>, largeBudget: Option<int>, used: int, draw: SmallDraw)
    returns (opts': RunOpts, lambdaLarge': Option<int>, smallBudget': Option<int>, largeBudget': Option<int>)
    requires WellFormed(kind, Book(localBudget + used, opts, lambdaLarge, smallBudget, largeBudget))
    ensures Book(localBudget, opts', lambdaLarge', smallBudget', largeBudget')
      == Step(kind, Book(localBudget + used, opts, lambdaLarge, smallBudget, largeBudget), used, draw).0
  {
    opts', lambdaLarge', smallBudget', largeBudget' := opts, lambdaLarge, smallBudget, largeBudget;
    if kind == IPOP {
      opts' := opts'.(lambda := Some(opts'.lambda.value * 2));
    } else if kind == BIPOP {
      var regime;
      if smallBudget'.None? {
        smallBudget' := Some(localBudget / 2);
        largeBudget' := Some(localBudget - smallBudget'.value);
        regime := Large;
      } else if smallBudget'.value > largeBudget'.value > 0 {
        regime := Small;
      } else {
        regime := Large;
      }
      if regime == Large {
        largeBudget' := Some(largeBudget'.value - used);
        lambdaLarge' := Some(lambdaLarge'.value * 2);
        opts' := RunOpts(lambdaLarge', Some(2.0));
      } else {
        smallBudget' := Some(smallBudget'.value - used);
        opts' := RunOpts(Some(draw.lambda), Some(draw.sigma));
      }
    }
  }

  /** The state of localRestartAlgorithm between runs: the schedule is the one the runs so far
      lead to, each run was started as scheduled, and the statistics are combined. */
  ghost predicate Progress(kind: RestartKind, b0: Book, budget: int, book: Book, outcomes: seq<RunOutcome>,
                           total: Option<Stats>, bestFitness: real, chosen: nat,
                           run: (nat, RunOpts, int) -> RunOutcome, draws: nat -> SmallDraw)
  {
    && WellFormed(kind, b0)
    && book == After(kind, b0, Useds(outcomes), draws)
    && Scheduled(kind, b0, outcomes, run, draws)
    && book.local == budget - Sum(Useds(outcomes))
    && (total.None? <==> |outcomes| == 0)
    && (|outcomes| > 0 ==> budget > 0)
    && (total.Some? ==> Combined(total.value, bestFitness, chosen, outcomes))
  }

  /** One pass of the restart loop: run on what is left, merge the statistics, reschedule. */
  method Round(kind: RestartKind, ghost b0: Book, budget: int, k: nat, localBudget: int, opts: RunOpts, lambdaLarge: Option<int>,
               smallBudget: Option<int>, largeBudget: Option<int>, total: Option<Stats>, bestFitness: real,
               ghost chosen: nat, ghost outcomes: seq<RunOutcome>,
               run: (nat, RunOpts, int) -> RunOutcome, draws: nat -> SmallDraw)
    returns (localBudget': int, opts': RunOpts, lambdaLarge': Option<int>, smallBudget': Option<int>,
             largeBudget': Option<int>, total': Option<Stats>, bestFitness': real,
             ghost chosen': nat, ghost outcomes': seq<RunOutcome>)
    requires localBudget > 0 && k == |outcomes|
    requires Progress(kind, b0, budget, Book(localBudget, opts, lambdaLarge, smallBudget, largeBudget), outcomes,
                      total, bestFitness, chosen, run, draws)
    ensures Progress(kind, b0, budget, Book(localBudget', opts', lambdaLarge', smallBudget', largeBudget'), outcomes',
                     total', bestFitness', chosen', run, draws)
    ensures |outcomes'| == |outcomes| + 1 && localBudget' < localBudget
  {
    var outcome := run(k, opts, localBudget);
    var usedBudget := outcome.used;
    localBudget' := localBudget - usedBudget;
    ScheduledSnoc(kind, b0, outcomes, run, draws, outcome);
    outcomes' := outcomes + [outcome];
    total', bestFitness', chosen' := Fold(total, bestFitness, chosen, outcomes, outcome);
    opts', lambdaLarge', smallBudget', largeBudget' :=
      Reschedule(kind, localBudget', opts, lambdaLarge, smallBudget, largeBudget, usedBudget, draws(k));
    BookSnoc(kind, b0, outcomes, outcome, draws);
    UsedsSnoc(outcomes, outcome);
    SumSnoc(Useds(outcomes), usedBudget);
  }

  /** The statistics after one more run: the first run's, or the merge with the earlier ones. */
  method Fold(total: Option<Stats>, bestFitness: real, ghost chosen: nat, ghost outcomes: seq<RunOutcome>, outcome: RunOutcome)
    returns (total': Option<Stats>, bestFitness': real, ghost chosen': nat)
    requires total.None? <==> |outcomes| == 0
    requires total.Some? ==> Combined(total.value, bestFitness, chosen, outcomes)
    ensures total'.Some? && Combined(total'.value, bestFitness', chosen', outcomes + [outcome])
  {
    if total.None? {
      assert outcomes + [outcome] == [outcome];
      var first;
      first, bestFitness', chosen' := FirstRun(outcome);
      total' := Some(first);
    } else {
      var merged;
      merged, bestFitness', chosen' := MergeRun(total.value, bestFitness, chosen, outcomes, outcome);
      total' := Some(merged);
    }
  }

  /** The schedule after one more run. */
  lemma BookSnoc(kind: RestartKind, b0: Book, outcomes: seq<RunOutcome>, outcome: RunOutcome, draws: nat -> SmallDraw)
    requires WellFormed(kind, b0)
    ensures After(kind, b0, Useds(outcomes + [outcome]), draws)
      == Step(kind, After(kind, b0, Useds(outcomes), draws), outcome.used, draws(|outcomes|)).0
  {
    UsedsSnoc(outcomes, outcome);
    AfterSnoc(kind, b0, Useds(outcomes), outcome.used, draws);
  }

  /** localRestartAlgorithm. The k-th run is run(k, options, local_budget); its small-regime
      draw (BIPOP only) is draws(k). Returns None, the empty tuple, when the budget is not
      positive. `chosen` is the run whose best individual is returned. */
  method LocalRestart(budget: int, kind: RestartKind, lambda: Option<int>, defaultLambda: int, sigma0: Option<real>,
                      run: (nat, RunOpts, int) -> RunOutcome, draws: nat -> SmallDraw)
    returns (total: Option<Stats>, ghost outcomes: seq<RunOutcome>, ghost chosen: nat)
    ensures var b0 := InitialBook(kind, budget, lambda, defaultLambda, sigma0);
      && WellFormed(kind, b0)
      && Scheduled(kind, b0, outcomes, run, draws)
      && After(kind, b0, Useds(outcomes), draws).local <= 0
    ensures Sum(Useds(outcomes)) >= budget
    ensures total.None? <==> budget <= 0
    ensures total.None? <==> |outcomes| == 0
    ensures total.Some? ==>
      && total.value.generationSize == AllSizes(outcomes)
      && total.value.sigmaOverTime == AllSigmas(outcomes)
      && total.value.fitnessOverTime == AllFitness(outcomes)
      && BestOf(outcomes, total.value.best, chosen)
  {
    var localBudget := budget;
    var bestFitness := 0.0;
    total := None;
    var lambdaInit := LambdaInit(kind, lambda, defaultLambda);
    var opts := RunOpts(lambdaInit, sigma0);
    var lambdaLarge := lambdaInit;
    var smallBudget: Option<int> := None;
    var largeBudget: Option<int> := None;
    ghost var b0 := InitialBook(kind, budget, lambda, defaultLambda, sigma0);
    outcomes := [];
    chosen := 0;
    var k := 0;
    while localBudget > 0
      invariant k == |outcomes|
      invariant Progress(kind, b0, budget, Book(localBudget, opts, lambdaLarge, smallBudget, largeBudget), outcomes,
                         total, bestFitness, chosen, run, draws)
      decreases localBudget
    {
      localBudget, opts, lambdaLarge, smallBudget, largeBudget, total, bestFitness, chosen, outcomes :=
        Round(kind, b0, budget, k, localBudget, opts, lambdaLarge, smallBudget, largeBudget, total, bestFitness,
              chosen, outcomes, run, draws);
      k := k + 1;
    }
  }
}
