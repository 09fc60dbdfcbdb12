# FractalRenderer generative engine, in Dafny

This project models the core of FractalRenderer, a desktop program that draws two kinds of
fractal on a canvas. The two engines are:

* **L-systems.** An axiom is rewritten a number of times by rules of the form `<c> -> <body>`.
  A turtle then walks the result, drawing a segment for every `F`. It turns on `+` and `-`, and
  saves and restores its position on `[` and `]`.
* **Iterated function systems (IFS).** A list of affine maps, each with a probability. The
  chaos game starts from a dot at the origin and produces each new dot by applying a randomly
  picked map to the previous one.

Each engine sits behind a small state object with these parts:

* the editable parameters;
* a validator run by `initialize`;
* an `is_initialized` flag;
* a draw-request flag, and a cache of the primitives last drawn.

A DTO moves the persisted fields between a saved file and the state. The primitives (points,
segments, dots) live in model space, in centimetres. `CanvasParams` projects them to screen
pixels and flips the y axis. A debug flag on every point records whether it has been projected.

Module by module:

* `Outcomes` holds the shared `Option`, `Result` and `Outcome` types.
* `Colors` holds the colour schemes.
* `Angles` holds `Angle::from_degree`.
* `Points`, `Canvas` and `Geometry` hold `Point2D`, `CanvasParams`, `Line2D`, `Dot` and
  `DotBuilder`.
* `LSystemModel` holds the rewriter (`CreatePath`, specified by `Generate`) and the turtle
  (`Lines`, specified by `Run`/`Step`).
* `LSystemValidation` holds every check and the whole validation chain, as functions.
* `LSystemStates` holds `LSystemState` as a class, with loop methods for the two loops of
  `initialize`.
* `LSystemSerialization` holds the DTO mapping.
* `IfsValidation`, `IfsModel` (the chaos game: `Dots`, specified by `ChaosGame`), `IfsStates`,
  `IfsSerialization` and `IfsJson` do the same for IFS.

Things outside the engine become inputs:

* `f32::cos`, `f32::sin` and the random colour draws are the functions of an `Environment`.
* `EquationSystem::next_dot` is a function parameter.
* The indices drawn by the weighted sampler are a sequence parameter. `SamplesFit` states what
  the sampler guarantees: every index names an equation of positive weight.
* The process exit taken when the sampler refuses its weights is the `None` result.

The model follows the code, including three places where the code behaves differently from what the design suggests:

* A failed L-system `initialize` leaves `rules_set` and `is_initialized` as they were. It does
  not clear them.
* A failed IFS load keeps the loaded systems, uninitialised. It does not reset the state to its
  defaults.
* The turtle works in model coordinates with the y axis pointing up. For example, with heading
  0 and turn angle 90, `F+F` turns clockwise to heading 270, so the second segment ends below
  the first one. Only `point_cm_to_px` flips y for the screen.

The source snapshot calls some builder methods that do not exist:

* `ModelBuilder::with_stroke` in the L-system state;
* `Model::default().with_colors` in the IFS state;
* `strokes::model_black`.

The model uses the evident intended pipeline. The L-system state builds its model with the
colour scheme `Fixed(stroke.color)`. The IFS state passes one `Fixed(colour)` scheme per
system to `ModelBuilder`. The default stroke is one unit wide and black.

## Model

| member | source | states |
|---|---|---|
| Angles.FromDegree | src/math/angle.rs:8-21 | inputs in [0, 360] are kept (360 stays 360); a negative degree becomes 360 + d; a degree above 360 becomes d - 360; every input in [-360, 720] lands in [0, 360]; radian = degree * pi / 180 |
| Angles.FromDegreeIsSingleStep | src/math/angle.rs:9-15 | only one wrap step is taken: inputs below -360 stay negative, inputs above 720 stay above 360 |
| Angles.FromDegreeExamples | src/math/angle.rs:8-21 | -10 gives 350, 370 gives 10, 360 gives 360, 0 gives 0 |
| Colors.GetColor | src/ui/styles/colors.rs:26-39 | a fixed scheme yields its colour, the standard scheme black, and the random scheme the colour drawn for that call |
| Points.New | src/geometry/point2d.rs:24-30 | the point has the given coordinates and is in model space |
| Points.FromPos2 | src/geometry/point2d.rs:40-46 | the point has the position's coordinates and is in model space |
| Points.WithConvertedChecked | src/geometry/point2d.rs:63-69 | same coordinates, flag set |
| Points.WithConvertedUnchecked | src/geometry/point2d.rs:71-77 | same coordinates, flag cleared |
| Points.Eq | src/geometry/point2d.rs:15-21 | two points are equal exactly when coordinates and flag all agree |
| Points.ConversionFlagRoundTrip | src/geometry/point2d.rs:63-77 | setting then clearing the flag gives back the model-space point; a converted and an unconverted copy are never equal |
| Canvas.Clamp | src/ui/components/canvas.rs:58-62 | the result lies in [lo, hi], equals the value inside the range and the nearer bound outside it |
| Canvas.CanvasParams.constructor | src/ui/components/canvas.rs:137-149 | 20 px per cm, unit length 1, zero offset, dragging enabled, centre at the origin; the scale ranges hold |
| Canvas.CanvasParams.ValueCmToPx | src/ui/components/canvas.rs:162-164 | the pixel length times the unit length is the cm length times px_per_cm |
| Canvas.CanvasParams.ValuePxToCm | src/ui/components/canvas.rs:177-179 | the cm length times px_per_cm is the pixel length times the unit length |
| Canvas.CanvasParams.PointCmToPx | src/ui/components/canvas.rs:166-175 | x is the centre plus the scaled x plus the x offset; y is the centre minus the scaled y plus the y offset (the y axis flips); the result is marked converted |
| Canvas.CanvasParams.CmPxRoundTrip | src/ui/components/canvas.rs:162-179 | with both scales non-zero, cm to px and px to cm are mutually inverse |
| Canvas.CanvasParams.PointCmToPxInverse | src/ui/components/canvas.rs:166-179 | the model point can be recovered from its screen point by removing centre and offset and scaling back |
| Canvas.CanvasParams.EqualParamsProjectAlike | src/ui/components/canvas.rs:151-159 | parameters that compare equal (ignoring the drag flag) project every point identically |
| Canvas.CanvasParams.UpdateOffsetOnDrag | src/ui/components/canvas.rs:181-191 | the drag delta (times 1) is added to the offset exactly when dragging is enabled and a drag happened; otherwise the offset is unchanged |
| Canvas.CanvasParams.UpdatePxPerCmOnScroll | src/ui/components/canvas.rs:58-62 | px_per_cm becomes the clamped value of old + 0.1 * delta, always within [5, 100], so the scale invariant is kept |
| Geometry.PointToScreen | src/geometry/point2d.rs:48-50 | exactly `point_cm_to_px` of the point; the result is converted |
| Geometry.LineToScreen | src/geometry/line2d.rs:22-28 | both ends projected by `Point2D::to_screen`, stroke kept |
| Geometry.DotToScreen | src/geometry/dot.rs:22-28 | centre projected, colour kept, radius scaled by `value_cm_to_px`; the result satisfies the `to_shape` precondition |
| Geometry.BuildDot | src/geometry/dot.rs:69-71 | the dot carries the builder's point, colour and radius |
| Geometry.DefaultDot | src/geometry/dot.rs:43-51 | the default builder builds a black dot of radius 0.025 at (0, 0), still in model space (so not yet drawable) |
| LSystemModel.Build | src/fractals/lsystem/model.rs:153-163 | both angles go through `from_degree` (kept when in [0, 360]); every other field is carried over |
| LSystemModel.RewritePassExtend | src/fractals/lsystem/model.rs:88-94 | rewriting one more symbol appends exactly that symbol's expansion |
| LSystemModel.RewritePassAppend | src/fractals/lsystem/model.rs:88-94 | one pass is a string homomorphism: pass(a + b) == pass(a) + pass(b) |
| LSystemModel.RewritePassSymbol | src/fractals/lsystem/model.rs:89-93 | a single symbol becomes its rule's replacement, or itself when it has no rule |
| LSystemModel.RewritePassWithoutRules | src/fractals/lsystem/model.rs:88-94 | with no rules a pass copies its input |
| LSystemModel.GenerateWithoutRules | src/fractals/lsystem/model.rs:83-101 | with no rules any number of passes returns the axiom |
| LSystemModel.DoublingPass | src/fractals/lsystem/model.rs:88-94 | under F -> FF a pass doubles a run of n Fs |
| LSystemModel.DoublingLaw | src/fractals/lsystem/model.rs:87-98 | axiom F under F -> FF gives 2^k Fs after k passes |
| LSystemModel.CreatePath | src/fractals/lsystem/model.rs:83-101 | the path is the axiom after `iterations` passes, each pass consuming the previous pass's output (zero passes: the axiom) |
| LSystemModel.RunAppend | src/fractals/lsystem/model.rs:36-78 | walking a + b is walking a and then b from where the turtle stopped |
| LSystemModel.RunExtend | src/fractals/lsystem/model.rs:36-78 | walking one more symbol is one more step |
| LSystemModel.Lines | src/fractals/lsystem/model.rs:25-81 | the segments are those of the turtle walking the rewritten path from (0, 0) with the initial heading and an empty stack |
| LSystemModel.OneSegmentPerF | src/fractals/lsystem/model.rs:36-57 | exactly one new segment per F, earlier segments untouched, every new segment in model space |
| LSystemModel.NonTerminalsAreInert | src/fractals/lsystem/model.rs:37-39 | symbols outside the five terminals change neither position, heading, stack nor output |
| LSystemModel.ForwardDrawsFromCurrentPosition | src/fractals/lsystem/model.rs:42-57 | F appends one segment from the current position to the new one (length times cos/sin of the heading), which becomes the current position; heading and stack are kept |
| LSystemModel.PopRestoresLatestPush | src/fractals/lsystem/model.rs:66-75 | `]` on an empty stack does nothing; `[` then `]` gives back the turtle exactly |
| LSystemModel.HeadingStaysInRange | src/fractals/lsystem/model.rs:58-65 | with a turn angle in [0, 360], `+` and `-` keep the heading and every saved heading in [0, 360] along any path |
| LSystemModel.HeadingInRangeForBuiltModel | src/fractals/lsystem/model.rs:58-65 | a model built from turn and initial angles in [0, 360] keeps the heading in [0, 360] along any path |
| LSystemModel.UnbracketedKeepsStack | src/fractals/lsystem/model.rs:42-65 | a walk without brackets leaves the stack as it was |
| LSystemModel.BranchReturnsTurtle | src/fractals/lsystem/model.rs:66-75 | a branch `[w]` without inner brackets draws what w draws and returns the turtle to its position, heading and stack |
| LSystemModel.StepIgnoresStack | src/fractals/lsystem/model.rs:42-65 | a non-bracket symbol acts alike on turtles that differ only in their stacks |
| LSystemModel.SameLinesFromSamePosition | src/fractals/lsystem/model.rs:42-65 | a walk without brackets draws the same segments from the same position, heading and output, whatever the stack |
| LSystemValidation.TrimStartEmptyIffBlank | src/fractals/lsystem/validation.rs:51 | trimming the front leaves nothing exactly on all-whitespace text, and otherwise starts with a non-whitespace character |
| LSystemValidation.TrimEndKeepsHead | src/fractals/lsystem/validation.rs:51 | trimming the end keeps a non-whitespace first character |
| LSystemValidation.TrimEmptyIffBlank | src/fractals/lsystem/validation.rs:51 | `trim()` is empty exactly on all-whitespace text |
| LSystemValidation.Decimal | src/fractals/lsystem/validation.rs:39-42 | the rendered rule number is a non-empty string of decimal digits |
| LSystemValidation.DecimalRoundTrip | src/fractals/lsystem/validation.rs:39-42 | reading the rendered rule number back gives the number |
| LSystemValidation.AxiomIsNotEmpty | src/fractals/lsystem/validation.rs:5-11 | fails exactly on the empty axiom, with `AxiomIsEmpty` |
| LSystemValidation.AngleRange | src/fractals/lsystem/validation.rs:13-19 | passes exactly on the closed interval [0, 360]; fails with `BadAngleValue` |
| LSystemValidation.LengthRange | src/fractals/lsystem/validation.rs:21-27 | passes exactly on non-negative lengths; fails with `BadLengthValue` |
| LSystemValidation.IterationsRange | src/fractals/lsystem/validation.rs:29-35 | fails exactly on zero iterations, with `BadIterationsValue` |
| LSystemValidation.RightSyntax | src/fractals/lsystem/validation.rs:37-46 | passes exactly when the line has at least 5 symbols and symbols 1..=4 are " -> "; the error carries the 1-based rule number |
| LSystemValidation.RuleConstantIsNotEmpty | src/fractals/lsystem/validation.rs:48-59 | fails exactly when the constant is all whitespace; the error carries the 1-based rule number |
| LSystemValidation.IsValidChar | src/fractals/lsystem/validation.rs:61-69 | succeeds exactly on non-empty text, with its first character |
| LSystemValidation.RuleConditionIsNotEmpty | src/fractals/lsystem/validation.rs:71-82 | fails exactly on the empty body (a blank body passes) |
| LSystemValidation.FirstForeign | src/fractals/lsystem/validation.rs:105-112 | the first position whose symbol is neither in the alphabet nor a terminal; all earlier symbols are allowed |
| LSystemValidation.FirstOpenCondition | src/fractals/lsystem/validation.rs:87-97 | the first rule body containing a foreign symbol; all earlier bodies are closed |
| LSystemValidation.EnsureAxiomSymbolsInAlphabet | src/fractals/lsystem/validation.rs:102-115 | passes exactly when every axiom symbol is declared or a terminal; otherwise reports the first offending symbol |
| LSystemValidation.EnsureConditionSymbolsInAlphabet | src/fractals/lsystem/validation.rs:84-100 | passes exactly when every body is closed; otherwise reports the first open body's 1-based number and its first offending symbol |
| LSystemValidation.AdditionalInfo | src/fractals/lsystem/validation.rs:153-163 | `Some` exactly for the six variants that carry a payload, `None` for the four unit variants |
| LSystemValidation.ParseRule | src/fractals/lsystem/state.rs:92-103 | a line passes the four per-line checks exactly when it is `<non-blank c> -> <non-empty body>`, giving (c, text from position 5); the syntax error wins over the constant error, which wins over the condition error |
| LSystemValidation.ParseRules | src/fractals/lsystem/state.rs:89-103 | on success one alphabet symbol and one body per rule line |
| LSystemValidation.ParseRulesMeaning | src/fractals/lsystem/state.rs:89-103 | the rule walk succeeds exactly when every line is well formed, gathering each line's first symbol and body in order; otherwise it reports the first malformed line's error |
| LSystemValidation.ParseRulesFailurePersists | src/fractals/lsystem/state.rs:92-103 | once a prefix of the lines fails, the whole walk fails with the same error |
| LSystemValidation.CompileRulesMeaning | src/fractals/lsystem/state.rs:108-112 | the map's keys are exactly the declared symbols, and each maps to the body of its last declaring line |
| LSystemValidation.ValidateFields | src/fractals/lsystem/state.rs:83-87 | the five field checks pass exactly when the axiom is non-empty, both angles lie in [0, 360], the length is non-negative and iterations are at least 1 |
| LSystemValidation.AlphabetDeclares | src/fractals/lsystem/state.rs:89-106 | with well-formed lines, a symbol is in the gathered alphabet exactly when some line declares it |
| LSystemValidation.ValidateRulesAcceptsExactly | src/fractals/lsystem/state.rs:89-106 | the rule stage succeeds exactly when every line is well formed and every axiom and body symbol is declared or a terminal |
| LSystemValidation.ValidateAcceptsExactlyAcceptable | src/fractals/lsystem/state.rs:82-117 | the whole chain of `initialize` succeeds exactly on acceptable L-systems, stated without the checks |
| LSystemValidation.HeadsAreAlphabet | src/fractals/lsystem/state.rs:95-99 | the heads of well-formed lines and the gathered alphabet are the same set |
| LSystemValidation.CompiledRulesOfLines | src/fractals/lsystem/state.rs:89-112 | with well-formed lines the compiled map binds each head to the body of its last line, and has no other keys |
| LSystemValidation.CompiledFromLines | src/fractals/lsystem/state.rs:108-112 | compiling the heads and bodies read from well-formed lines binds each head to its last line's body, with no other keys |
| LSystemValidation.ValidatedRuleMap | src/fractals/lsystem/state.rs:108-114 | on an acceptable L-system, validation succeeds with the map from each rule's first symbol to its text after the delimiter, later duplicates overwriting earlier ones |
| LSystemValidation.FirstFailureWins | src/fractals/lsystem/state.rs:82-106 | the first failing check decides the error: axiom, angle, initial angle, length, iterations, then the first malformed rule line, then the axiom closure naming the first undeclared axiom symbol, then the body closure naming the first open rule (1-based) and its first undeclared symbol |
| LSystemValidation.AxiomClosureFailure | src/fractals/lsystem/state.rs:104 | with well-formed lines, the first undeclared axiom symbol is the error reported |
| LSystemValidation.FirstOpenBodyReported | src/fractals/lsystem/validation.rs:84-100 | the body check reports the first foreign symbol of the first open body, with its 1-based rule number |
| LSystemValidation.ConditionClosureFailure | src/fractals/lsystem/state.rs:104-105 | with well-formed lines and a declared axiom, the first undeclared symbol of the first open body is the error reported |
| LSystemValidation.RuleConstantIsNotValidCharUnreachable | src/fractals/lsystem/state.rs:93-98 | `RuleConstantIsNotValidChar` is never reported, and every rule-numbered error names an existing line |
| LSystemStates.LinesToScreen | src/fractals/lsystem/state.rs:71-75 | every cached segment projected, in order |
| LSystemStates.DrawnLinesInModelSpace | src/fractals/lsystem/model.rs:42-57 | the turtle's segments are all in model space, ready to be projected |
| LSystemStates.LSystemState.constructor | src/fractals/lsystem/state.rs:30-51 | the default state: uninitialised, rules [""], iterations 1, length 0.5, black; its validation fails with `AxiomIsEmpty` |
| LSystemStates.LSystemState.ResetToDefault | src/fractals/lsystem/serialization.rs:50-52 | every field returns to its default |
| LSystemStates.LSystemState.ResetWithEmptyRules | src/fractals/lsystem/state.rs:146-149 | every field at its default, with no rule lines |
| LSystemStates.LSystemState.Initialize | src/fractals/lsystem/state.rs:82-117 | the result is the validation chain's; on success the compiled map is stored and the state initialised; on failure neither is touched; the initialisation flag stays honest |
| LSystemStates.LSystemState.ResetInitialization | src/fractals/lsystem/state.rs:119-122 | the compiled map is emptied and the flag cleared |
| LSystemStates.LSystemState.RequestDrawing | src/fractals/lsystem/state.rs:124-126 | the draw request is set |
| LSystemStates.LSystemState.PushEmptyRule | src/fractals/lsystem/state.rs:132-136 | an empty line appended after the unchanged lines; no longer initialised |
| LSystemStates.LSystemState.RemoveRule | src/fractals/lsystem/state.rs:138-144 | line `index` removed, the others kept in order; no longer initialised |
| LSystemStates.LSystemState.DrawingModel | src/fractals/lsystem/state.rs:59-67 | the model carries the state's axiom, compiled rules, iterations, length and stroke colour, with both angles normalised |
| LSystemStates.LSystemState.Shapes | src/fractals/lsystem/state.rs:54-76 | the stroke takes the chosen colour; the segments are regenerated from the current model only when a drawing was requested, and the request is cleared; otherwise the cache is kept; the result is the cache projected |
| LSystemStates.GatherRules | src/fractals/lsystem/state.rs:89-103 | the rule-line loop gives exactly the rule walk's result |
| LSystemStates.BuildRulesSet | src/fractals/lsystem/state.rs:108-112 | the map-building loop gives exactly the compiled map |
| LSystemStates.RuleLineDecides | src/fractals/lsystem/state.rs:92-103 | a failing line after well-formed lines decides the whole walk's error |
| LSystemSerialization.Serialize | src/fractals/lsystem/serialization.rs:9-19 | the DTO holds exactly the axiom, angles, iterations and rule lines |
| LSystemSerialization.ValidationIgnoresLength | src/fractals/lsystem/validation.rs:21-27 | any two non-negative lengths validate alike |
| LSystemSerialization.Load | src/fractals/lsystem/serialization.rs:40-54 | the result is validation of the DTO's fields with the default length; on failure the state is the default state; on success it holds the DTO's fields and the compiled rules, initialised, with the default length, colour (black) and stroke, no pending draw and an empty cache |
| LSystemSerialization.SaveAndLoad | src/fractals/lsystem/serialization.rs:9-54 | serialising an initialised state and loading the DTO succeeds and reproduces the five persisted fields and the compiled rules |
| IfsValidation.ProbabilityColumn | src/fractals/ifs/validation.rs:29 | column 6 of every row, in order |
| IfsValidation.TotalOfNonNegative | src/fractals/ifs/validation.rs:29 | a sum of non-negative weights is non-negative, and zero exactly when every weight is zero |
| IfsValidation.SystemsExist | src/fractals/ifs/validation.rs:6-11 | fails exactly on the empty list, with `NoSystems` |
| IfsValidation.FirstBadRow | src/fractals/ifs/validation.rs:14-23 | the first row whose probability lies outside [0, 1 + 1e-6]; all earlier rows are in range |
| IfsValidation.ProbabilityRange | src/fractals/ifs/validation.rs:13-26 | passes exactly when every probability lies in [0, 1 + 1e-6]; otherwise reports the first offending value |
| IfsValidation.ProbabilitySum | src/fractals/ifs/validation.rs:28-38 | passes exactly when the probabilities sum to at most 1 + 1e-6; otherwise reports the sum |
| IfsValidation.Validate | src/fractals/ifs/state.rs:70-72 | passes exactly on a non-empty list whose probabilities are in range and sum to at most 1 + 1e-6; the empty list gives `NoSystems`; a range error wins over a sum error |
| IfsValidation.TotalDependsOnProbabilities | src/fractals/ifs/validation.rs:28-38 | lists with the same probability column have the same sum |
| IfsValidation.FirstBadRowDependsOnProbabilities | src/fractals/ifs/validation.rs:13-26 | lists with the same probability column have the same first bad row |
| IfsValidation.OnlyProbabilitiesMatter | src/fractals/ifs/validation.rs:13-38 | coefficients 0..5 never affect validation |
| IfsValidation.AdditionalInfo | src/fractals/ifs/validation.rs:53-60 | `Some` of the carried value for the two probability errors, `None` for `NoSystems` |
| IfsValidation.HalfProbabilityPasses | src/fractals/ifs/validation.rs:77-84 | one system with probability 0.5 passes |
| IfsValidation.NegativeProbabilityFails | src/fractals/ifs/validation.rs:87-104 | a probability of -0.15 in the second row is reported as `BadProbability(-0.15)` |
| IfsValidation.ProbabilityAboveOneFails | src/fractals/ifs/validation.rs:107-127 | a probability of 1.01 is a range error although the sum is also too large |
| IfsValidation.SumAboveOneFails | src/fractals/ifs/validation.rs:140-157 | in-range probabilities summing to 1.197826 give `BadProbabilitySum(1.197826)` |
| IfsValidation.AllZeroProbabilitiesPass | src/fractals/ifs/validation.rs:13-38 | a non-empty list of zero probabilities passes every check |
| IfsModel.Build | src/fractals/ifs/model.rs:107-114 | every builder field carried over unchanged |
| IfsModel.Equations | src/fractals/ifs/model.rs:20-28 | one equation per system, in order: equation i pairs system i with the model's radius and colour scheme i |
| IfsModel.Weights | src/fractals/ifs/model.rs:35-38 | one weight per equation |
| IfsModel.WeightsAreProbabilities | src/fractals/ifs/model.rs:35-38 | the sampler weights are the systems' probability column |
| IfsModel.StartDot | src/fractals/ifs/model.rs:32-33 | the start dot is black, of radius 0.025, at (0, 0) in model space |
| IfsModel.ChaosGame | src/fractals/ifs/model.rs:30-60 | n steps give n + 1 dots, the first being the start dot |
| IfsModel.ChaosGamePrefix | src/fractals/ifs/model.rs:55-60 | a longer game extends a shorter one over the same draws |
| IfsModel.ChaosGameSteps | src/fractals/ifs/model.rs:55-59 | each dot after the first is the sampled equation applied to the dot before it |
| IfsModel.ChaosGameInModelSpace | src/fractals/ifs/model.rs:55-60 | when the equations keep dots in model space, so does every dot of the game |
| IfsModel.Dots | src/fractals/ifs/model.rs:19-63 | exits (None) exactly when the sampler refuses the weights; otherwise the `iterations + 1` dots of the chaos game over the drawn indices |
| IfsModel.ValidatedWeightsAccepted | src/fractals/ifs/model.rs:35-53 | a list that validates and has some positive probability is accepted by the sampler |
| IfsModel.AllZeroPassesValidationButIsNotDrawable | src/fractals/ifs/model.rs:41-53 | an all-zero probability column passes validation yet is refused by the sampler, so drawing it exits |
| IfsStates.DotsToScreen | src/fractals/ifs/state.rs:58-62 | every cached dot projected, in order, each ready to draw |
| IfsStates.FixedSchemes | src/fractals/ifs/state.rs:50-54 | one fixed scheme per colour, in order |
| IfsStates.IfsState.constructor | src/fractals/ifs/state.rs:26-43 | one default system with probability 1, colours [black], 20000 iterations, radius 0.025, uninitialised; its validation passes |
| IfsStates.IfsState.ResetToDefault | src/fractals/ifs/serialization.rs:25 | every field returns to its default |
| IfsStates.IfsState.Initialize | src/fractals/ifs/state.rs:69-77 | the result is the validation chain's; only a pass sets the flag; a failure leaves it as it was |
| IfsStates.IfsState.ResetInitialization | src/fractals/ifs/state.rs:79-81 | the flag is cleared |
| IfsStates.IfsState.RequestDrawing | src/fractals/ifs/state.rs:83-85 | the draw request is set |
| IfsStates.IfsState.AddEmptySystem | src/fractals/ifs/state.rs:91-96 | the default system and black appended; no longer initialised; equal lengths preserved |
| IfsStates.IfsState.PushSystem | src/fractals/ifs/state.rs:98-101 | the system and black appended; equal lengths preserved; the flag untouched |
| IfsStates.IfsState.RemoveSystem | src/fractals/ifs/state.rs:103-110 | row `index` removed from both lists, the others kept in order; no longer initialised |
| IfsStates.IfsState.EmptySystems | src/fractals/ifs/state.rs:112-115 | both lists empty, after which validation fails with `NoSystems` |
| IfsStates.IfsState.DrawingModel | src/fractals/ifs/state.rs:50-55 | the model carries the systems with one fixed colour each, the iterations and the radius |
| IfsStates.IfsState.Shapes | src/fractals/ifs/state.rs:47-63 | the dots are regenerated by the chaos game only when a drawing was requested, and the request is cleared; otherwise the cache is kept; the result is the cache projected, or the exit |
| IfsStates.PushKeepsStaleInitialisation | src/fractals/ifs/state.rs:98-101 | the default list validates but two default systems fail the sum check, so a push can leave a stale initialisation flag |
| IfsSerialization.Serialize | src/fractals/ifs/serialization.rs:9-15 | the DTO holds exactly the state's systems |
| IfsSerialization.Load | src/fractals/ifs/serialization.rs:23-33 | the systems become the DTO's, in order, each in black; the result is validation of them and the flag holds exactly when it passes; every other field is at its default |
| IfsSerialization.SaveAndLoad | src/fractals/ifs/serialization.rs:9-33 | serialising and loading reproduces the system list, in black, initialised exactly when it validates |
| IfsJson.Load | src/fractals/ifs/utilities/json.rs:14-25 | the same as the "Systems" loader: the systems become the DTO's in black, the result is validation's, the other fields are at their defaults |

## Left out

- The whole user interface, and every `to_shape`. This covers egui panels, the painter and screenshots. Only the precondition `to_shape` asserts on a dot is modelled, as `ReadyToDraw`.
- File, dialog and environment I/O, and the embedded example files.
- JSON text. Only the DTO-to-state mapping and the key constants are modelled. The `IfsJson` DTO loads like the "Systems" DTO because its code is identical.
- `src/fractals/ifs/system.rs` is not part of this model. `EquationSystem::next_dot` is a function parameter, and an equation's probability is taken to be column 6 of its row.
- IfsModel.ChaosGameInModelSpace, IfsModel.Dots, IfsStates.IfsState.Shapes and the `IfsState` invariant assume that `next_dot` returns dots in model space (flag not set). `system.rs` is not modelled, so this assumption is a precondition and is not proved.
- Floating point. Every `f32` is a real, so there is no rounding, NaN, infinity or `-0.0`. In particular, the float sum of probabilities is an exact sum.
- LSystemValidation.LengthRange: it rejects negative reals only. It does not model that the sign-bit test also rejects `-0.0`.
- LSystemModel.Lines: `f32::cos` and `f32::sin` are uninterpreted functions of the `Environment`. The model does not state where a segment lands for a concrete heading.
- Colors.GetColor: a random draw may be any colour value. The model does not require it to be opaque, although `Color32::from_rgb` always is.
- IfsModel.Dots: the drawn indices are a parameter, and `SamplesFit` says what the sampler guarantees. The probability distribution of the draws is not modelled.
- LSystemValidation.RightSyntax: rule lines are indexed by character, not by byte. A multi-byte first character makes the original's slicing panic, and the model does not capture that panic.
- IfsValidation.AdditionalInfo: it returns the carried number. The two-decimal `"Value: {:.2}"` and `"Sum is {:.2}"` texts are not modelled.
- `LSystemState`'s and `IfsState`'s `Valid` and `Consistent` invariants depend on public fields that the settings panels may edit directly. Those edits are not modelled, so the invariants hold across the modelled operations only.
- `is_coloring_enabled` is stored and reset, but `shapes` never reads it.
- The builders' `with_*` setters are record updates on the builder datatypes, so they have no members of their own.
- The `Angle` accessors `degree` and `radian` are the datatype's fields.
- Canvas: only `CanvasParams` is modelled, not `Canvas::process`, `draw` or `show_content`.
