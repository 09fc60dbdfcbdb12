/**
 * `IfsState`: the editable system list with one colour per system, the step count and dot
 * radius, the initialisation and draw-request flags, and the cache of the dots last drawn.
 */
module IfsStates {
  import opened Outcomes
  import opened Colors
  import opened Canvas
  import opened Geometry
  import opened IfsValidation
  import opened IfsModel

  /** The system a new row starts as: the zero map with probability 1. */
  const DEFAULT_SYSTEM: System := [0.0, 0.0, 0.0, 0.0, 0.0, 0.0, 1.0]

  /** Every dot of `dots` projected to the screen, in order. */
  function DotsToScreen(dots: seq<Dot>, params: CanvasParams): (r: seq<Dot>)
    reads params
    requires params.unitLength != 0.0
    requires forall i :: 0 <= i < |dots| ==> !dots[i].point.convertedToScreen
    ensures |r| == |dots|
    ensures forall i :: 0 <= i < |dots| ==> r[i] == DotToScreen(dots[i], params) && ReadyToDraw(r[i])
  {
    if dots == [] then []
    else DotsToScreen(dots[..|dots| - 1], params) + [DotToScreen(dots[|dots| - 1], params)]
  }

  /** One fixed colour scheme per colour, in order. */
  function FixedSchemes(colors: seq<Color>): (schemes: seq<ColorScheme>)
    ensures |schemes| == |colors|
    ensures forall i :: 0 <= i < |colors| ==> schemes[i] == Fixed(colors[i])
  {
    seq(|colors|, i requires 0 <= i < |colors| => Fixed(colors[i]))
  }

  /** Every colour is black. */
  predicate AllBlack(colors: seq<Color>)
  {
    forall i :: 0 <= i < |colors| ==> colors[i] == BLACK
  }

  class IfsState {
    var isInitialized: bool
    var isDrawingRequested: bool
    var dots: seq<Dot>
    var systems: seq<System>
    var isColoringEnabled: bool
    var colors: seq<Color>
    var iterations: nat
    var radiusCm: real

    /** One colour per system, and the cached dots still in model space. */
    ghost predicate Valid()
      reads this
    {
      && |systems| == |colors|
      && forall i :: 0 <= i < |dots| ==> !dots[i].point.convertedToScreen
    }

    /** The initialisation flag is honest: when it is set, the systems pass validation. */
    ghost predicate Consistent()
      reads this
    {
      isInitialized ==> Validate(systems) == Pass
    }

    /** Every field other than the systems and their colours has its default value. */
    ghost predicate OthersDefault()
      reads this
    {
      && !isInitialized && !isDrawingRequested && dots == []
      && !isColoringEnabled && iterations == DEFAULT_ITERATIONS && radiusCm == DEFAULT_RADIUS
    }

    /** `IfsState::default()`: one default system in black. */
    ghost predicate IsDefault()
      reads this
    {
      OthersDefault() && systems == [DEFAULT_SYSTEM] && colors == [BLACK]
    }

    /** `IfsState::default()`; the default system list passes validation. */
    constructor ()
      ensures IsDefault() && Valid() && Consistent()
      ensures Validate(systems) == Pass
    {
      isInitialized := false;
      isDrawingRequested := false;
      dots := [];
      systems := [DEFAULT_SYSTEM];
      isColoringEnabled := false;
      colors := [BLACK];
      iterations := DEFAULT_ITERATIONS;
      radiusCm := DEFAULT_RADIUS;
      new;
      assert ProbabilityColumn(systems) == [1.0];
      assert Total([1.0]) == Total([]) + 1.0;
    }

    /** `*self = Default::default()`. */
    method ResetToDefault()
      modifies this
      ensures IsDefault() && Valid() && Consistent()
    {
      isInitialized := false;
      isDrawingRequested := false;
      dots := [];
      systems := [DEFAULT_SYSTEM];
      isColoringEnabled := false;
      colors := [BLACK];
      iterations := DEFAULT_ITERATIONS;
      radiusCm := DEFAULT_RADIUS;
    }

    /** `initialize`: the three checks in order; only when all pass is the state marked initialised. */
    method Initialize() returns (r: Outcome<ValidationError>)
      modifies this`isInitialized
      ensures r == Validate(systems)
      ensures r.Pass? ==> isInitialized
      ensures r.Fail? ==> isInitialized == old(isInitialized)
      ensures r.Pass? || old(Consistent()) ==> Consistent()
    {
      r := SystemsExist(systems);
      if r.Fail? { return; }
      r := ProbabilityRange(systems);
      if r.Fail? { return; }
      r := ProbabilitySum(systems);
      if r.Fail? { return; }
      isInitialized := true;
    }

    /** `reset_initialization`. */
    method ResetInitialization()
      modifies this`isInitialized
      ensures !isInitialized && Consistent()
    {
      isInitialized := false;
    }

    /** `request_drawing`: the next `shapes` call regenerates the dots. */
    method RequestDrawing()
      modifies this`isDrawingRequested
      ensures isDrawingRequested
    {
      isDrawingRequested := true;
    }

    /** `add_empty_system`: a default system in black appended; no longer initialised. */
    method AddEmptySystem()
      modifies this`isInitialized, this`systems, this`colors
      ensures systems == old(systems) + [DEFAULT_SYSTEM] && colors == old(colors) + [BLACK]
      ensures !isInitialized && Consistent()
      ensures old(|systems| == |colors|) ==> |systems| == |colors|
    {
      ResetInitialization();
      systems := systems + [DEFAULT_SYSTEM];
      colors := colors + [BLACK];
    }

    /** `push_system`: the system appended in black; the initialisation flag is left as it was. */
    method PushSystem(system: System)
      modifies this`systems, this`colors
      ensures systems == old(systems) + [system] && colors == old(colors) + [BLACK]
      ensures old(|systems| == |colors|) ==> |systems| == |colors|
    {
      systems := systems + [system];
      colors := colors + [BLACK];
    }

    /** `remove_system`: row `index` removed from both lists, the others kept in order; no longer initialised. */
    method RemoveSystem(index: nat)
      requires |systems| == |colors|
      requires index < |systems|
      modifies this`isInitialized, this`systems, this`colors
      ensures systems == old(systems)[..index] + old(systems)[index + 1..]
      ensures colors == old(colors)[..index] + old(colors)[index + 1..]
      ensures |systems| == |colors| == |old(systems)| - 1
      ensures !isInitialized && Consistent()
    {
      ResetInitialization();
      systems := systems[..index] + systems[index + 1..];
      colors := colors[..index] + colors[index + 1..];
    }

    /** `empty_systems`: both lists emptied, after which validation fails with `NoSystems`. */
    method EmptySystems()
      modifies this`systems, this`colors
      ensures systems == [] && colors == []
      ensures Validate(systems) == Fail(NoSystems)
    {
      systems := [];
      colors := [];
    }

    /** The model `shapes` hands to the engine: the systems, each drawn in its own fixed colour. */
    function DrawingModel(): (m: IfsModel.Model)
      reads this
      ensures m.systems == systems && m.colorSchemes == FixedSchemes(colors)
      ensures m.iterations == iterations && m.radius == radiusCm
    {
      IfsModel.Build(IfsModel.DEFAULT_BUILDER.(systems := systems, colorSchemes := FixedSchemes(colors),
                                               iterations := iterations, radius := radiusCm))
    }

    /**
     * `shapes`: the dots are regenerated only when a drawing was requested (and the request is
     * then cleared), otherwise the cache is reused; the result is every cached dot projected to
     * the screen. `None` stands for the process exit the engine takes on weights it refuses.
     */
    method Shapes(params: CanvasParams, samples: seq<nat>, nextDot: (Equation, Dot) -> Dot) returns (r: Option<seq<Dot>>)
      requires params.unitLength != 0.0
      requires Valid()
      requires forall e, d :: !nextDot(e, d).point.convertedToScreen
      requires isDrawingRequested && WeightsAccepted(Weights(Equations(DrawingModel()))) ==>
                 SamplesFit(samples, Weights(Equations(DrawingModel())), iterations)
      modifies this`isDrawingRequested, this`dots
      ensures !isDrawingRequested
      ensures r.None? <==> old(isDrawingRequested) && !WeightsAccepted(Weights(Equations(DrawingModel())))
      ensures old(isDrawingRequested) && r.Some? ==>
                dots == ChaosGame(Equations(DrawingModel()), samples, nextDot, iterations)
      ensures !old(isDrawingRequested) ==> dots == old(dots)
      ensures Valid()
      ensures r.Some? ==> r.value == DotsToScreen(dots, params)
    {
      if isDrawingRequested {
        isDrawingRequested := false;
        var model := DrawingModel();
        var drawn := IfsModel.Dots(model, samples, nextDot);
        if drawn.None? {
          return None;
        }
        ChaosGameInModelSpace(Equations(model), samples, nextDot, model.iterations);
        dots := drawn.value;
      }
      r := Some(DotsToScreen(dots, params));
    }
  }

  /**
   * Because `push_system` does not reset the flag, an initialised default state that gets a
   * second default system stays marked initialised over a list that fails the sum check.
   */
  lemma PushKeepsStaleInitialisation()
    ensures Validate([DEFAULT_SYSTEM]) == Pass
    ensures Validate([DEFAULT_SYSTEM, DEFAULT_SYSTEM]) == Fail(BadProbabilitySum(2.0))
  {
    var one: seq<System> := [DEFAULT_SYSTEM];
    var two: seq<System> := [DEFAULT_SYSTEM, DEFAULT_SYSTEM];
    assert ProbabilityColumn(one) == [1.0];
    assert ProbabilityColumn(two) == [1.0, 1.0];
    assert Total([1.0]) == 1.0;
    assert [1.0, 1.0][..1] == [1.0];
    assert FirstBadRow(two) == 2 by {
      assert two[1..][1..] == [];
    }
  }
}
