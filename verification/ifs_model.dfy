/**
 * The IFS engine: the chaos game. One equation per system; starting from the default dot, each
 * step applies an equation picked by the weighted sampler to the previous dot.
 */
module IfsModel {
  import opened Outcomes
  import opened Colors
  import opened Points
  import opened Geometry
  import opened IfsValidation

  const DEFAULT_ITERATIONS: nat := 20000
  const DEFAULT_RADIUS: real := 0.025

  /**
   * `EquationSystem::new(parameters, radius).with_color_scheme(scheme)`. Its `next_dot` is not
   * part of this model and is passed to the engine as a function.
   */
  datatype Equation = Equation(parameters: System, radius: real, colorScheme: ColorScheme)

  /** `Model`: the systems with one colour scheme each, the step count and the dot radius. */
  datatype Model = Model(systems: seq<System>, colorSchemes: seq<ColorScheme>, iterations: nat, radius: real)

  /** `ModelBuilder`: the same fields; the `with_*` setters are record updates `b.(systems := …)`. */
  datatype ModelBuilder = ModelBuilder(systems: seq<System>, colorSchemes: seq<ColorScheme>, iterations: nat, radius: real)

  /** `ModelBuilder::default()`: no systems, 20000 steps, radius 0.025. */
  const DEFAULT_BUILDER: ModelBuilder := ModelBuilder([], [], DEFAULT_ITERATIONS, DEFAULT_RADIUS)

  /** `ModelBuilder::build`: every field carried over unchanged. */
  function Build(b: ModelBuilder): (m: Model)
    ensures m.systems == b.systems && m.colorSchemes == b.colorSchemes
    ensures m.iterations == b.iterations && m.radius == b.radius
  {
    Model(b.systems, b.colorSchemes, b.iterations, b.radius)
  }

  /** One equation per system, in order, each with the same-index colour scheme and the model's radius. */
  function Equations(m: Model): (eqs: seq<Equation>)
    requires |m.systems| == |m.colorSchemes|
    ensures |eqs| == |m.systems|
    ensures forall i :: 0 <= i < |eqs| ==> eqs[i] == Equation(m.systems[i], m.radius, m.colorSchemes[i])
  {
    seq(|m.systems|, i requires 0 <= i < |m.systems| => Equation(m.systems[i], m.radius, m.colorSchemes[i]))
  }

  /** The sampler's weights: each equation's probability. */
  function Weights(eqs: seq<Equation>): (ws: seq<real>)
    ensures |ws| == |eqs|
  {
    seq(|eqs|, i requires 0 <= i < |eqs| => Probability(eqs[i].parameters))
  }

  /** The weights are the systems' probability column. */
  lemma WeightsAreProbabilities(m: Model)
    requires |m.systems| == |m.colorSchemes|
    ensures Weights(Equations(m)) == ProbabilityColumn(m.systems)
  {
  }

  /**
   * When `WeightedIndex::new` accepts a list of weights: it is non-empty, no weight is negative,
   * and they do not all sum to zero.
   */
  predicate WeightsAccepted(ws: seq<real>)
  {
    ws != [] && (forall i :: 0 <= i < |ws| ==> ws[i] >= 0.0) && Total(ws) > 0.0
  }

  /**
   * What the weighted sampler guarantees for the first `n` draws: each is the index of an
   * equation whose weight is positive.
   */
  predicate SamplesFit(samples: seq<nat>, ws: seq<real>, n: nat)
  {
    |samples| >= n && forall k :: 0 <= k < n ==> samples[k] < |ws| && ws[samples[k]] > 0.0
  }

  /** The dot every run starts from. */
  function StartDot(): (d: Dot)
    ensures d == Dot(Point2D(0.0, 0.0, false), BLACK, DEFAULT_DOT_RADIUS)
  {
    BuildDot(DEFAULT_DOT_BUILDER)
  }

  /**
   * The first `n + 1` dots of the chaos game: the start dot, then each dot the sampled equation
   * makes of the one before.
   */
  function ChaosGame(eqs: seq<Equation>, samples: seq<nat>, nextDot: (Equation, Dot) -> Dot, n: nat): (dots: seq<Dot>)
    requires |samples| >= n && forall k :: 0 <= k < n ==> samples[k] < |eqs|
    ensures |dots| == n + 1
    ensures dots[0] == StartDot()
  {
    if n == 0 then [StartDot()]
    else
      var before := ChaosGame(eqs, samples, nextDot, n - 1);
      before + [nextDot(eqs[samples[n - 1]], before[n - 1])]
  }

  /** A longer game extends a shorter one over the same draws. */
  lemma {:induction false} ChaosGamePrefix(eqs: seq<Equation>, samples: seq<nat>, nextDot: (Equation, Dot) -> Dot, m: nat, n: nat)
    requires m <= n
    requires |samples| >= n && forall k :: 0 <= k < n ==> samples[k] < |eqs|
    ensures ChaosGame(eqs, samples, nextDot, n)[..m + 1] == ChaosGame(eqs, samples, nextDot, m)
    decreases n - m
  {
    if m < n {
      ChaosGamePrefix(eqs, samples, nextDot, m, n - 1);
      var shorter := ChaosGame(eqs, samples, nextDot, n - 1);
      assert ChaosGame(eqs, samples, nextDot, n)[..n] == shorter;
      assert ChaosGame(eqs, samples, nextDot, n)[..m + 1] == shorter[..m + 1];
    }
  }

  /** Every dot after the first is the sampled equation applied to the dot before it. */
  lemma ChaosGameSteps(eqs: seq<Equation>, samples: seq<nat>, nextDot: (Equation, Dot) -> Dot, n: nat)
    requires |samples| >= n && forall k :: 0 <= k < n ==> samples[k] < |eqs|
    ensures forall i :: 0 <= i < n ==>
              ChaosGame(eqs, samples, nextDot, n)[i + 1] == nextDot(eqs[samples[i]], ChaosGame(eqs, samples, nextDot, n)[i])
  {
    forall i | 0 <= i < n
      ensures ChaosGame(eqs, samples, nextDot, n)[i + 1] == nextDot(eqs[samples[i]], ChaosGame(eqs, samples, nextDot, n)[i])
    {
      ChaosGamePrefix(eqs, samples, nextDot, i + 1, n);
      var game := ChaosGame(eqs, samples, nextDot, n);
      assert game[i + 1] == game[..i + 2][i + 1];
      assert game[i] == game[..i + 2][i];
    }
  }

  /** When the equations keep dots in model space, every dot of the game is in model space. */
  lemma {:induction false} ChaosGameInModelSpace(eqs: seq<Equation>, samples: seq<nat>, nextDot: (Equation, Dot) -> Dot, n: nat)
    requires |samples| >= n && forall k :: 0 <= k < n ==> samples[k] < |eqs|
    requires forall e, d :: !nextDot(e, d).point.convertedToScreen
    ensures forall i :: 0 <= i < n + 1 ==> !ChaosGame(eqs, samples, nextDot, n)[i].point.convertedToScreen
  {
    if n > 0 {
      ChaosGameInModelSpace(eqs, samples, nextDot, n - 1);
    }
  }

  /**
   * `Model::dots`: the equations are built one per system, the start dot is pushed, and if the
   * sampler accepts the weights, `iterations` steps follow; `None` stands for the process exit
   * taken when it does not.
   */
  method Dots(m: Model, samples: seq<nat>, nextDot: (Equation, Dot) -> Dot) returns (r: Option<seq<Dot>>)
    requires |m.systems| == |m.colorSchemes|
    requires WeightsAccepted(Weights(Equations(m))) ==> SamplesFit(samples, Weights(Equations(m)), m.iterations)
    ensures r.None? <==> !WeightsAccepted(Weights(Equations(m)))
    ensures r.Some? ==> r.value == ChaosGame(Equations(m), samples, nextDot, m.iterations)
  {
    var equations: seq<Equation> := [];
    var index := 0;
    while index < |m.systems|
      invariant 0 <= index <= |m.systems|
      invariant equations == Equations(m)[..index]
    {
      equations := equations + [Equation(m.systems[index], m.radius, m.colorSchemes[index])];
      index := index + 1;
    }
    assert equations == Equations(m);

    var dots: seq<Dot> := [BuildDot(DEFAULT_DOT_BUILDER)];
    var probabilities := Weights(equations);
    if !WeightsAccepted(probabilities) {
      return None;
    }

    var current := 0;
    while current < m.iterations
      invariant 0 <= current <= m.iterations
      invariant dots == ChaosGame(equations, samples, nextDot, current)
    {
      var equation := equations[samples[current]];
      var newDot := nextDot(equation, dots[current]);
      dots := dots + [newDot];
      current := current + 1;
    }
    return Some(dots);
  }

  /**
   * A list that passes validation and has some positive probability is accepted by the sampler,
   * so drawing it takes `iterations` steps.
   */
  lemma ValidatedWeightsAccepted(m: Model)
    requires |m.systems| == |m.colorSchemes|
    requires Validate(m.systems) == Pass
    requires exists i :: 0 <= i < |m.systems| && Probability(m.systems[i]) > 0.0
    ensures WeightsAccepted(Weights(Equations(m)))
  {
    var ws := Weights(Equations(m));
    WeightsAreProbabilities(m);
    TotalOfNonNegative(ws);
    var i :| 0 <= i < |m.systems| && Probability(m.systems[i]) > 0.0;
    assert ws[i] > 0.0;
  }

  /**
   * A list whose probabilities are all zero passes validation, yet the sampler refuses it, so
   * drawing it ends the process.
   */
  lemma AllZeroPassesValidationButIsNotDrawable(m: Model)
    requires |m.systems| == |m.colorSchemes| && m.systems != []
    requires forall i :: 0 <= i < |m.systems| ==> Probability(m.systems[i]) == 0.0
    ensures Validate(m.systems) == Pass
    ensures !WeightsAccepted(Weights(Equations(m)))
  {
    AllZeroProbabilitiesPass(m.systems);
    WeightsAreProbabilities(m);
    TotalOfNonNegative(Weights(Equations(m)));
  }
}
