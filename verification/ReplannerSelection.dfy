/**
 * The replanner selection of the search-acceleration module. Once per iteration it walks the
 * population in shuffled order; for each driver a score updater supplies the change of the
 * objective if the driver replans ("if one") or keeps the plan ("if zero"), a recipe chosen by
 * the configured mode says yes or no, and the chosen branch is added to the running score and
 * to the greedy diagnostics. The updater then hands back the residuals the next driver sees.
 *
 * The collaborators (the count-indicator utilities, the score updater and the four recipes) are
 * not part of this model; they are passed in as functions. The pure function `Run` states what
 * the pass computes; the class `ReplannerIdentifier` does it step by step and is proved against it.
 */
module ReplannerSelection {
  import opened Wrappers
  import JavaNumerics
  import Sorting

  type AgentId = string
  type LinkId = string

  /** A space-time cell: a link during one time bin. */
  datatype Cell = Cell(link: LinkId, timeBin: int)

  /** The space-time cells a driver's plan uses, as far as this model needs them. */
  type Indicators = seq<Cell>

  /** Weighted counts, or residuals, per space-time cell. */
  type Field = map<Cell, real>

  /** The replanning mode of the acceleration configuration; any other value is an error. */
  datatype Mode = Off | Accelerate | Mah2007 | Mah2009 | Unrecognised(name: string)

  /** The part of the acceleration configuration read here: the mode and the mean replanning rate per iteration. */
  datatype AccelerationConfig = AccelerationConfig(mode: Mode, meanReplanningRate: int -> real)

  /** The count-indicator utilities used to set up the residuals. */
  datatype CountIndicatorUtils = CountIndicatorUtils(
    newWeightedCounts: map<AgentId, Indicators> -> Field,
    sumOfDifferences2: (Field, Field) -> real,
    newWeightedDifference: (Field, Field, real) -> Field,
    sumOfEntries2: Field -> real)

  /** A recipe's answer to "does this driver replan?", given its two score changes. */
  type Decision = (AgentId, real, real) -> bool

  /** The four recipes, each built from the mean replanning rate (and the utility changes for the Mah recipes). */
  datatype RecipeFactory = RecipeFactory(
    uniform: real -> Decision,
    accelerate: real -> Decision,
    mah2007: (map<AgentId, real>, real) -> Decision,
    mah2009: (map<AgentId, real>, real) -> Decision)

  /** The residuals a score updater starts from and hands back. */
  datatype Residuals = Residuals(interaction: Field, inertia: real, regularization: real, sumOfInteraction2: real)

  /** What a score updater is built from for one driver. */
  datatype UpdaterInput = UpdaterInput(
    physicalUsage: Option<Indicators>, pseudoSimUsage: Option<Indicators>,
    rate: real, beta: real, delta: real, residuals: Residuals,
    utilityChange: Option<real>, totalUtilityChange: real)

  /** The updater's score changes and greedy score changes for replanning (one) and not replanning (zero). */
  datatype Marginals = Marginals(scoreIfOne: real, scoreIfZero: real, greedyIfOne: real, greedyIfZero: real)

  /** The score updater: its marginals, the residuals after the decision, and the driver's uniform-replanning delta. */
  datatype ScoreUpdater = ScoreUpdater(
    marginals: UpdaterInput -> Marginals,
    updateResiduals: (UpdaterInput, bool) -> Residuals,
    deltaForUniformReplanning: (UpdaterInput, bool) -> real)

  /** Everything a pass depends on besides the order of the drivers and the initial residuals. */
  datatype Setting = Setting(
    physicalUsage: map<AgentId, Indicators>, pseudoSimUsage: map<AgentId, Indicators>,
    utilityChange: map<AgentId, real>, rate: real, beta: real, delta: real,
    totalUtilityChange: real, updater: ScoreUpdater, decide: Decision)

  /** One driver's turn: its marginals, the recipe's answer and the delta it contributes. */
  datatype Step = Step(agent: AgentId, marginals: Marginals, replanner: bool, delta: real)

  /** The turns taken so far and the residuals after them. */
  datatype Pass = Pass(steps: seq<Step>, residuals: Residuals)

  // ---------------------------------------------------------------- the objective and the mode

  /** `getUniformReplanningObjectiveFunctionValue`: (2 - rate) * rate * (S + delta). */
  function UniformReplanningObjective(rate: real, sumOfWeightedCountDifferences2: real, delta: real): (o: real)
    ensures rate == 0.0 ==> o == 0.0
    ensures rate == 1.0 ==> o == sumOfWeightedCountDifferences2 + delta
  {
    (2.0 - rate) * rate * (sumOfWeightedCountDifferences2 + delta)
  }

  /** The objective equals (1 - (1 - rate)^2) * (S + delta): 0 without replanning, S + delta when everybody replans. */
  lemma UniformReplanningObjectiveAsSquare(rate: real, s: real, delta: real)
    ensures UniformReplanningObjective(rate, s, delta) == (1.0 - (1.0 - rate) * (1.0 - rate)) * (s + delta)
    ensures UniformReplanningObjective(0.0, s, delta) == 0.0
    ensures UniformReplanningObjective(1.0, s, delta) == s + delta
  {
  }

  /** For a rate in [0, 1] and non-negative S and delta the objective lies between 0 and S + delta. */
  lemma UniformReplanningObjectiveBounds(rate: real, s: real, delta: real)
    requires 0.0 <= rate <= 1.0 && 0.0 <= s && 0.0 <= delta
    ensures 0.0 <= UniformReplanningObjective(rate, s, delta) <= s + delta
  {
    var k, x := (2.0 - rate) * rate, s + delta;
    RateFactorInUnitInterval(rate);
    assert 0.0 <= k <= 1.0;
    ScaleDown(x, k);
    assert UniformReplanningObjective(rate, s, delta) == k * x;
  }

  /** (2 - rate) * rate = 1 - (1 - rate)^2 stays in [0, 1] for a rate in [0, 1]. */
  lemma RateFactorInUnitInterval(rate: real)
    requires 0.0 <= rate <= 1.0
    ensures 0.0 <= (2.0 - rate) * rate <= 1.0
  {
    var m := 1.0 - rate;
    ScaleDown(m, m);
    assert (2.0 - rate) * rate == 1.0 - m * m;
  }

  /** Scaling a non-negative number by a factor in [0, 1] gives a number between 0 and it. */
  lemma ScaleDown(x: real, y: real)
    requires 0.0 <= x && 0.0 <= y <= 1.0
    ensures 0.0 <= y * x <= x
  {
    assert x - y * x == (1.0 - y) * x;
  }

  /** The recipe the mode selects; no recipe for an unrecognised mode. */
  function RecipeFor(recipes: RecipeFactory, mode: Mode, utilityChange: map<AgentId, real>, rate: real): (r: Option<Decision>)
    ensures r.None? <==> mode.Unrecognised?
  {
    match mode
    case Off => Some(recipes.uniform(rate))
    case Accelerate => Some(recipes.accelerate(rate))
    case Mah2007 => Some(recipes.mah2007(utilityChange, rate))
    case Mah2009 => Some(recipes.mah2009(utilityChange, rate))
    case Unrecognised(_) => None
  }

  // ---------------------------------------------------------------- the pass, as a function

  /** The updater input for `agent`; a driver missing from a map gets Java's `null`. */
  function InputFor(s: Setting, agent: AgentId, residuals: Residuals): UpdaterInput
  {
    UpdaterInput(Get(s.physicalUsage, agent), Get(s.pseudoSimUsage, agent), s.rate, s.beta, s.delta,
      residuals, Get(s.utilityChange, agent), s.totalUtilityChange)
  }

  /** The pass over `order`: each driver in turn, each seeing the residuals its predecessors left. */
  function Run(s: Setting, init: Residuals, order: seq<AgentId>): (p: Pass)
    ensures |p.steps| == |order|
    ensures forall j :: 0 <= j < |order| ==> p.steps[j].agent == order[j]
    decreases |order|
  {
    if order == [] then Pass([], init)
    else
      var before := Run(s, init, order[..|order| - 1]);
      var agent := order[|order| - 1];
      var input := InputFor(s, agent, before.residuals);
      var m := s.updater.marginals(input);
      var yes := s.decide(agent, m.scoreIfOne, m.scoreIfZero);
      Pass(before.steps + [Step(agent, m, yes, s.updater.deltaForUniformReplanning(input, yes))],
        s.updater.updateResiduals(input, yes))
  }

  /** The score change of the branch the recipe chose. */
  function Chosen(st: Step): real
  {
    if st.replanner then st.marginals.scoreIfOne else st.marginals.scoreIfZero
  }

  function ScoreChange(steps: seq<Step>): real
  {
    if steps == [] then 0.0 else ScoreChange(steps[..|steps| - 1]) + Chosen(steps[|steps| - 1])
  }

  /** The greedy score change of the branch the recipe chose. */
  function ChosenGreedy(st: Step): real
  {
    if st.replanner then st.marginals.greedyIfOne else st.marginals.greedyIfZero
  }

  function RealizedGreedy(steps: seq<Step>): real
  {
    if steps == [] then 0.0 else RealizedGreedy(steps[..|steps| - 1]) + ChosenGreedy(steps[|steps| - 1])
  }

  /** The greedy change of a driver who replans with probability rate. */
  function Mixture(m: Marginals, rate: real): real
  {
    rate * m.greedyIfOne + (1.0 - rate) * m.greedyIfZero
  }

  function UniformGreedy(steps: seq<Step>, rate: real): real
  {
    if steps == [] then 0.0
    else UniformGreedy(steps[..|steps| - 1], rate) + Mixture(steps[|steps| - 1].marginals, rate)
  }

  /** The greedy change of one branch, summed over all drivers. */
  function GreedySum(steps: seq<Step>, ifOne: bool): real
  {
    if steps == [] then 0.0
    else
      var m := steps[|steps| - 1].marginals;
      GreedySum(steps[..|steps| - 1], ifOne) + (if ifOne then m.greedyIfOne else m.greedyIfZero)
  }

  /** A driver is score-improving when one of its branches lowers the score. */
  predicate Improving(m: Marginals): (b: bool)
    ensures b <==> m.scoreIfOne < 0.0 || m.scoreIfZero < 0.0
  {
    (if m.scoreIfOne <= m.scoreIfZero then m.scoreIfOne else m.scoreIfZero) < 0.0
  }

  function CountImproving(steps: seq<Step>): int
  {
    if steps == [] then 0
    else CountImproving(steps[..|steps| - 1]) + (if Improving(steps[|steps| - 1].marginals) then 1 else 0)
  }

  /** The drivers the recipe let replan, in the order they were visited. */
  function Replanners(steps: seq<Step>): seq<AgentId>
  {
    if steps == [] then []
    else
      var st := steps[|steps| - 1];
      Replanners(steps[..|steps| - 1]) + (if st.replanner then [st.agent] else [])
  }

  function Deltas(steps: seq<Step>): seq<real>
  {
    if steps == [] then [] else Deltas(steps[..|steps| - 1]) + [steps[|steps| - 1].delta]
  }

  predicate Distinct<T(==)>(s: seq<T>)
  {
    forall i, j :: 0 <= i < j < |s| ==> s[i] != s[j]
  }

  /** `order` lists every member of `population` exactly once, as the shuffled copy of its key set does. */
  ghost predicate IsShuffleOf(order: seq<AgentId>, population: set<AgentId>)
  {
    Distinct(order) && (forall a :: a in order <==> a in population)
  }

  /** A shuffle is as long as the population. */
  lemma {:induction false} ShuffleLength(order: seq<AgentId>, population: set<AgentId>)
    requires IsShuffleOf(order, population)
    ensures |order| == |population|
  {
    if order != [] {
      var last := order[|order| - 1];
      var rest := order[..|order| - 1];
      forall a | a in rest ensures a in population - {last} {
        var j :| 0 <= j < |rest| && rest[j] == a;
        assert order[j] == a;
      }
      forall a | a in population - {last} ensures a in rest {
        var j :| 0 <= j < |order| && order[j] == a;
        assert j != |order| - 1;
        assert rest[j] == a;
      }
      ShuffleLength(rest, population - {last});
    }
  }

  // ---------------------------------------------------------------- what the pass computes

  /** A driver is a replanner exactly when one of its turns was answered yes. */
  lemma {:induction false} ReplannersAreTheChosen(steps: seq<Step>, a: AgentId)
    ensures a in Replanners(steps) <==> exists j :: 0 <= j < |steps| && steps[j].agent == a && steps[j].replanner
  {
    if steps != [] {
      var init := steps[..|steps| - 1];
      ReplannersAreTheChosen(init, a);
      if exists j :: 0 <= j < |steps| && steps[j].agent == a && steps[j].replanner {
        var j :| 0 <= j < |steps| && steps[j].agent == a && steps[j].replanner;
        if j < |init| {
          assert init[j] == steps[j];
        }
      }
      if exists j :: 0 <= j < |init| && init[j].agent == a && init[j].replanner {
        var j :| 0 <= j < |init| && init[j].agent == a && init[j].replanner;
        assert steps[j] == init[j];
      }
    }
  }

  /** Drivers visited once each yield replanners listed once each. */
  lemma {:induction false} ReplannersDistinct(steps: seq<Step>)
    requires forall i, j :: 0 <= i < j < |steps| ==> steps[i].agent != steps[j].agent
    ensures Distinct(Replanners(steps))
  {
    if steps != [] {
      var init := steps[..|steps| - 1];
      var last := steps[|steps| - 1];
      ReplannersDistinct(init);
      if last.replanner {
        ReplannersAreTheChosen(init, last.agent);
        assert last.agent !in Replanners(init);
      }
    }
  }

  /**
   * Over a shuffle of the population, the replanners are exactly the drivers the recipe said yes
   * to, each listed once, and all of them members of the population.
   */
  lemma ReplannersOfShuffle(s: Setting, init: Residuals, order: seq<AgentId>, population: set<AgentId>)
    requires IsShuffleOf(order, population)
    ensures var steps := Run(s, init, order).steps;
      Distinct(Replanners(steps)) &&
      (forall a :: a in Replanners(steps) ==> a in population) &&
      (forall j :: 0 <= j < |order| ==> (order[j] in Replanners(steps) <==> steps[j].replanner))
  {
    var steps := Run(s, init, order).steps;
    ReplannersDistinct(steps);
    forall a | a in Replanners(steps)
      ensures a in population
    {
      ReplannersAreTheChosen(steps, a);
    }
    forall j | 0 <= j < |order|
      ensures order[j] in Replanners(steps) <==> steps[j].replanner
    {
      ReplannersAreTheChosen(steps, order[j]);
    }
  }

  /** At most every driver is score-improving. */
  lemma {:induction false} CountImprovingBounds(steps: seq<Step>)
    ensures 0 <= CountImproving(steps) <= |steps|
  {
    if steps != [] {
      CountImprovingBounds(steps[..|steps| - 1]);
    }
  }

  /** The share of score-improving drivers lies in [0, 1] for a non-empty population and is 0/0 for an empty one. */
  lemma ShareOfImprovingBounds(steps: seq<Step>)
    ensures var q := JavaNumerics.Divide(CountImproving(steps) as real, |steps| as real);
      (|steps| == 0 <==> q.NonFinite?) && (q.Finite? ==> 0.0 <= q.value <= 1.0)
  {
    CountImprovingBounds(steps);
    var q := JavaNumerics.Divide(CountImproving(steps) as real, |steps| as real);
    if q.Finite? {
      UnitRatio(CountImproving(steps) as real, |steps| as real, q.value);
    }
  }

  /** Over a shuffle of the population the share is 0/0 exactly for an empty population, and otherwise in [0, 1]. */
  lemma ShareOfShuffleBounds(s: Setting, init: Residuals, order: seq<AgentId>, population: set<AgentId>)
    requires IsShuffleOf(order, population)
    ensures var q := JavaNumerics.Divide(CountImproving(Run(s, init, order).steps) as real, |order| as real);
      (q.NonFinite? <==> |population| == 0) && (q.Finite? ==> 0.0 <= q.value <= 1.0)
  {
    ShuffleLength(order, population);
    ShareOfImprovingBounds(Run(s, init, order).steps);
  }

  lemma UnitRatio(c: real, n: real, v: real)
    requires 0.0 <= c <= n && 0.0 < n && v * n == c
    ensures 0.0 <= v <= 1.0
  {
  }

  /** The uniform greedy change is the rate-mixture of the two branches' summed greedy changes. */
  lemma {:induction false} UniformGreedyIsMixture(steps: seq<Step>, rate: real)
    ensures UniformGreedy(steps, rate) == rate * GreedySum(steps, true) + (1.0 - rate) * GreedySum(steps, false)
  {
    if steps != [] {
      UniformGreedyIsMixture(steps[..|steps| - 1], rate);
    }
  }

  /** Without a score-improving driver every chosen branch is non-negative, so the score cannot drop below the uniform objective. */
  lemma {:induction false} NoImprovingNoDecrease(steps: seq<Step>)
    requires CountImproving(steps) == 0
    ensures ScoreChange(steps) >= 0.0
  {
    if steps != [] {
      CountImprovingBounds(steps[..|steps| - 1]);
      NoImprovingNoDecrease(steps[..|steps| - 1]);
    }
  }

  // ---------------------------------------------------------------- the percentile index

  /** `min(n - 1, (percentile * n) / 100)` in Java int arithmetic. */
  function PercentileIndex(percentile: int, n: nat): (i: int)
    ensures i <= n - 1
  {
    var scaled := JavaNumerics.Div(percentile * n, 100);
    if n - 1 <= scaled then n - 1 else scaled
  }

  /** For a non-negative percentile and a non-empty list the index is a valid position. */
  lemma PercentileIndexInRange(percentile: int, n: nat)
    requires 0 <= percentile && 0 < n
    ensures 0 <= PercentileIndex(percentile, n) < n
  {
    JavaNumerics.MulMonotone(0, percentile, n);
  }

  /** A higher percentile never picks an earlier position. */
  lemma PercentileIndexMonotone(p: int, q: int, n: nat)
    requires p <= q
    ensures PercentileIndex(p, n) <= PercentileIndex(q, n)
  {
    if n > 0 {
      JavaNumerics.MulMonotone(p, q, n);
      JavaNumerics.DivMonotone(p * n, q * n, 100);
    }
  }

  /** Percentile 100 and above picks the last (largest) element. */
  lemma FullPercentileIsLast(percentile: int, n: nat)
    requires 100 <= percentile && 0 < n
    ensures PercentileIndex(percentile, n) == n - 1
  {
    JavaNumerics.MulMonotone(100, percentile, n);
    JavaNumerics.DivMonotone(100 * n, percentile * n, 100);
  }

  // ---------------------------------------------------------------- one more driver

  /** The pass over one more driver is the pass so far plus that driver's turn. */
  lemma RunExtends(s: Setting, init: Residuals, order: seq<AgentId>, i: int)
    requires 0 <= i < |order|
    ensures var before := Run(s, init, order[..i]);
      var input := InputFor(s, order[i], before.residuals);
      var m := s.updater.marginals(input);
      var yes := s.decide(order[i], m.scoreIfOne, m.scoreIfZero);
      Run(s, init, order[..i + 1]) ==
        Pass(before.steps + [Step(order[i], m, yes, s.updater.deltaForUniformReplanning(input, yes))], s.updater.updateResiduals(input, yes))
  {
    assert order[..i + 1][..i] == order[..i];
  }

  /** Every running total of the pass grows by the new turn's contribution. */
  lemma TotalsExtend(steps: seq<Step>, st: Step, rate: real)
    ensures Replanners(steps + [st]) == Replanners(steps) + (if st.replanner then [st.agent] else [])
    ensures ScoreChange(steps + [st]) == ScoreChange(steps) + Chosen(st)
    ensures RealizedGreedy(steps + [st]) == RealizedGreedy(steps) + ChosenGreedy(st)
    ensures UniformGreedy(steps + [st], rate) == UniformGreedy(steps, rate) + Mixture(st.marginals, rate)
    ensures CountImproving(steps + [st]) == CountImproving(steps) + (if Improving(st.marginals) then 1 else 0)
    ensures Deltas(steps + [st]) == Deltas(steps) + [st.delta]
  {
    assert (steps + [st])[..|steps|] == steps;
  }

  /**
   * The loop of `drawReplanners`: each driver in `order` in turn gets a score updater built from the
   * residuals its predecessors left, the recipe decides, and the chosen branch is added to the totals.
   * The outputs are the totals of `Run` over `order`, the score starting from `objective`.
   */
  method SelectionWalk(setting: Setting, initial: Residuals, objective: real, order: seq<AgentId>)
    returns (replanners: seq<AgentId>, scoreSum: real, scoreImprovingReplanners: int, realized: real, uniform: real, deltas: seq<real>)
    ensures var p := Run(setting, initial, order);
      replanners == Replanners(p.steps) && scoreSum == objective + ScoreChange(p.steps) &&
      scoreImprovingReplanners == CountImproving(p.steps) && realized == RealizedGreedy(p.steps) &&
      uniform == UniformGreedy(p.steps, setting.rate) && deltas == Deltas(p.steps)
  {
    var interactionResiduals := initial.interaction;
    var inertiaResidual := initial.inertia;
    var regularizationResidual := initial.regularization;
    var sumOfInteractionResiduals2 := initial.sumOfInteraction2;
    ghost var steps: seq<Step> := [];
    replanners, scoreSum, scoreImprovingReplanners, realized, uniform, deltas := [], objective, 0, 0.0, 0.0, [];

    var i := 0;
    assert ScoreChange(steps) == 0.0 && RealizedGreedy(steps) == 0.0 && UniformGreedy(steps, setting.rate) == 0.0;
    assert Deltas(steps) == [] && order[..i] == [];
    while i < |order|
      invariant 0 <= i <= |order|
      invariant Run(setting, initial, order[..i]) == Pass(steps, Residuals(interactionResiduals, inertiaResidual, regularizationResidual, sumOfInteractionResiduals2))
      invariant replanners == Replanners(steps)
      invariant scoreSum == objective + ScoreChange(steps)
      invariant realized == RealizedGreedy(steps)
      invariant uniform == UniformGreedy(steps, setting.rate)
      invariant scoreImprovingReplanners == CountImproving(steps)
      invariant deltas == Deltas(steps)
    {
      var driverId := order[i];
      var input := InputFor(setting, driverId,
        Residuals(interactionResiduals, inertiaResidual, regularizationResidual, sumOfInteractionResiduals2));
      var m := setting.updater.marginals(input);
      var replanner := setting.decide(driverId, m.scoreIfOne, m.scoreIfZero);
      if replanner {
        replanners := replanners + [driverId];
        scoreSum := scoreSum + m.scoreIfOne;
        realized := realized + m.greedyIfOne;
      } else {
        scoreSum := scoreSum + m.scoreIfZero;
        realized := realized + m.greedyIfZero;
      }
      uniform := uniform + Mixture(m, setting.rate);
      if Improving(m) {
        scoreImprovingReplanners := scoreImprovingReplanners + 1;
      }
      var updated := setting.updater.updateResiduals(input, replanner);
      interactionResiduals := updated.interaction;
      inertiaResidual := updated.inertia;
      regularizationResidual := updated.regularization;
      sumOfInteractionResiduals2 := updated.sumOfInteraction2;
      var d := setting.updater.deltaForUniformReplanning(input, replanner);
      deltas := deltas + [d];

      RunExtends(setting, initial, order, i);
      TotalsExtend(steps, Step(driverId, m, replanner, d), setting.rate);
      steps := steps + [Step(driverId, m, replanner, d)];
      i := i + 1;
    }
    assert order[..|order|] == order;
  }

  // ---------------------------------------------------------------- the identifier

  /**
   * `ReplannerIdentifier`. Java's `null` for the diagnostics that are set only by a pass is `None`.
   * The getters of the Java class return these fields as they are.
   */
  class ReplannerIdentifier {
    const replanningParameters: AccelerationConfig
    /** The mean replanning rate of the iteration (`lambda` in Java). */
    const rate: real
    const delta: real
    const physicalUsage: map<AgentId, Indicators>
    const pseudoSimUsage: map<AgentId, Indicators>
    const population: set<AgentId>
    const currentWeightedCounts: Field
    const upcomingWeightedCounts: Field
    const sumOfWeightedCountDifferences2: real
    const beta: real
    const utilityChange: map<AgentId, real>
    const totalUtilityChange: real

    /** The collaborators. */
    const utils: CountIndicatorUtils
    const updater: ScoreUpdater
    const recipes: RecipeFactory

    var shareOfScoreImprovingReplanners: Option<JavaNumerics.Quotient>
    var score: Option<real>
    var allDeltaForUniformReplanning: seq<real>
    var uniformGreedyScoreChange: Option<real>
    var realizedGreedyScoreChange: Option<real>

    /** Beta is 2 * rate * S / totalUtilityChange, which has no guard against a zero total in Java. */
    constructor (replanningParameters: AccelerationConfig, iteration: int,
                 physicalUsage: map<AgentId, Indicators>, pseudoSimUsage: map<AgentId, Indicators>,
                 population: set<AgentId>, utilityChange: map<AgentId, real>,
                 totalUtilityChange: real, delta: real,
                 utils: CountIndicatorUtils, updater: ScoreUpdater, recipes: RecipeFactory)
      requires totalUtilityChange != 0.0
      ensures this.replanningParameters == replanningParameters && this.population == population
      ensures this.physicalUsage == physicalUsage && this.pseudoSimUsage == pseudoSimUsage
      ensures this.utilityChange == utilityChange && this.totalUtilityChange == totalUtilityChange && this.delta == delta
      ensures this.utils == utils && this.updater == updater && this.recipes == recipes
      ensures currentWeightedCounts == utils.newWeightedCounts(physicalUsage)
      ensures upcomingWeightedCounts == utils.newWeightedCounts(pseudoSimUsage)
      ensures sumOfWeightedCountDifferences2 == utils.sumOfDifferences2(currentWeightedCounts, upcomingWeightedCounts)
      ensures rate == replanningParameters.meanReplanningRate(iteration)
      ensures beta * totalUtilityChange == 2.0 * rate * sumOfWeightedCountDifferences2
      ensures shareOfScoreImprovingReplanners == None && score == None
      ensures uniformGreedyScoreChange == None && realizedGreedyScoreChange == None
      ensures allDeltaForUniformReplanning == []
    {
      this.replanningParameters := replanningParameters;
      this.physicalUsage := physicalUsage;
      this.pseudoSimUsage := pseudoSimUsage;
      this.population := population;
      this.utilityChange := utilityChange;
      this.totalUtilityChange := totalUtilityChange;
      this.utils, this.updater, this.recipes := utils, updater, recipes;
      var current := utils.newWeightedCounts(physicalUsage);
      var upcoming := utils.newWeightedCounts(pseudoSimUsage);
      var s2 := utils.sumOfDifferences2(current, upcoming);
      var rate := replanningParameters.meanReplanningRate(iteration);
      this.currentWeightedCounts := current;
      this.upcomingWeightedCounts := upcoming;
      this.sumOfWeightedCountDifferences2 := s2;
      this.rate := rate;
      this.beta := 2.0 * rate * s2 / totalUtilityChange;
      this.delta := delta;
      shareOfScoreImprovingReplanners, score := None, None;
      allDeltaForUniformReplanning := [];
      uniformGreedyScoreChange, realizedGreedyScoreChange := None, None;
    }

    /** The residuals every pass starts from: the rate-weighted count difference, (1 - rate) * total inertia, no regularization. */
    function InitialResiduals(): (r: Residuals)
      ensures r.interaction == utils.newWeightedDifference(upcomingWeightedCounts, currentWeightedCounts, rate)
      ensures r.sumOfInteraction2 == utils.sumOfEntries2(r.interaction) && r.regularization == 0.0
      ensures rate == 0.0 ==> r.inertia == totalUtilityChange
      ensures rate == 1.0 ==> r.inertia == 0.0
      ensures 0.0 <= rate <= 1.0 && 0.0 <= totalUtilityChange ==> 0.0 <= r.inertia <= totalUtilityChange
    {
      var interaction := utils.newWeightedDifference(upcomingWeightedCounts, currentWeightedCounts, rate);
      var inertia := (1.0 - rate) * totalUtilityChange;
      assert 0.0 <= rate <= 1.0 && 0.0 <= totalUtilityChange ==> 0.0 <= inertia <= totalUtilityChange by {
        if 0.0 <= rate <= 1.0 && 0.0 <= totalUtilityChange {
          ScaleDown(totalUtilityChange, 1.0 - rate);
        }
      }
      Residuals(interaction, inertia, 0.0, utils.sumOfEntries2(interaction))
    }

    function SettingFor(decide: Decision): Setting
    {
      Setting(physicalUsage, pseudoSimUsage, utilityChange, rate, beta, delta, totalUtilityChange, updater, decide)
    }

    /**
     * `drawReplanners`, with `order` the shuffled population. An unrecognised mode fails before any
     * field is assigned. Otherwise the result and every diagnostic are those of `Run` over `order`,
     * and one delta per driver is appended to the deltas of earlier passes.
     */
    method DrawReplanners(order: seq<AgentId>) returns (r: Result<seq<AgentId>>)
      requires IsShuffleOf(order, population)
      modifies this
      ensures replanningParameters.mode.Unrecognised? ==> r.Failure? && unchanged(this)
      ensures !replanningParameters.mode.Unrecognised? ==>
        var p := Run(SettingFor(RecipeFor(recipes, replanningParameters.mode, utilityChange, rate).value), InitialResiduals(), order);
        r == Success(Replanners(p.steps)) &&
        score == Some(UniformReplanningObjective(rate, sumOfWeightedCountDifferences2, delta) + ScoreChange(p.steps)) &&
        realizedGreedyScoreChange == Some(RealizedGreedy(p.steps)) &&
        uniformGreedyScoreChange == Some(UniformGreedy(p.steps, rate)) &&
        shareOfScoreImprovingReplanners == Some(JavaNumerics.Divide(CountImproving(p.steps) as real, |order| as real)) &&
        allDeltaForUniformReplanning == old(allDeltaForUniformReplanning) + Deltas(p.steps)
      ensures r.Success? ==> Distinct(r.value) && forall a :: a in r.value ==> a in population
    {
      var initial := InitialResiduals();

      var recipe := RecipeFor(recipes, replanningParameters.mode, utilityChange, rate);
      if recipe.None? {
        return Failure("Unknown mode: " + replanningParameters.mode.name);
      }
      var setting := SettingFor(recipe.value);
      var objective := UniformReplanningObjective(rate, sumOfWeightedCountDifferences2, delta);
      var replanners, scoreSum, scoreImprovingReplanners, realized, uniform, deltas :=
        SelectionWalk(setting, initial, objective, order);
      ReplannersOfShuffle(setting, initial, order, population);
      score := Some(scoreSum);
      realizedGreedyScoreChange := Some(realized);
      uniformGreedyScoreChange := Some(uniform);
      allDeltaForUniformReplanning := allDeltaForUniformReplanning + deltas;
      shareOfScoreImprovingReplanners := Some(JavaNumerics.Divide(scoreImprovingReplanners as real, |order| as real));
      return Success(replanners);
    }

    /**
     * `getDeltaForUniformReplanning(percentile)`: sorts the collected deltas in place and returns
     * the one at min(n - 1, percentile * n / 100); a negative position fails as Java's list access does.
     */
    method GetDeltaForUniformReplanning(percentile: int) returns (r: Result<real>)
      modifies this`allDeltaForUniformReplanning
      ensures Sorting.IsSorted(allDeltaForUniformReplanning)
      ensures multiset(allDeltaForUniformReplanning) == multiset(old(allDeltaForUniformReplanning))
      ensures var i := PercentileIndex(percentile, |allDeltaForUniformReplanning|);
        (i < 0 <==> r.Failure?) &&
        (r.Success? ==>
          r.value == allDeltaForUniformReplanning[i] &&
          r.value in multiset(old(allDeltaForUniformReplanning)) &&
          (forall j :: 0 <= j < i ==> allDeltaForUniformReplanning[j] <= r.value) &&
          (forall j :: i < j < |allDeltaForUniformReplanning| ==> r.value <= allDeltaForUniformReplanning[j]))
    {
      allDeltaForUniformReplanning := Sorting.Sort(allDeltaForUniformReplanning);
      var index := PercentileIndex(percentile, |allDeltaForUniformReplanning|);
      if index < 0 {
        return Failure("index out of bounds");
      }
      r := Success(allDeltaForUniformReplanning[index]);
      assert allDeltaForUniformReplanning[index] in multiset(allDeltaForUniformReplanning);
    }
  }
}
