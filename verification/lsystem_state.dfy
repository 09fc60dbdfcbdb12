/**
 * `LSystemState`: the editable L-system parameters, the compiled rule map, the initialisation
 * and draw-request flags, and the cache of the segments last drawn.
 */
module LSystemStates {
  import opened Outcomes
  import opened Colors
  import opened Canvas
  import opened Geometry
  import opened LSystemModel
  import opened LSystemValidation

  /** The stroke a fresh state starts with: one unit wide, black. */
  const DEFAULT_STROKE: Stroke := Stroke(1.0, BLACK)

  /** Every segment of `lines` projected to the screen, in order. */
  function LinesToScreen(lines: seq<Line2D>, params: CanvasParams): (r: seq<Line2D>)
    reads params
    requires params.unitLength != 0.0
    requires forall i :: 0 <= i < |lines| ==> LineInModelSpace(lines[i])
    ensures |r| == |lines|
    ensures forall i :: 0 <= i < |lines| ==> r[i] == LineToScreen(lines[i], params)
  {
    if lines == [] then []
    else LinesToScreen(lines[..|lines| - 1], params) + [LineToScreen(lines[|lines| - 1], params)]
  }

  /** The segments a walk from the start position emits are all in model space. */
  lemma DrawnLinesInModelSpace(m: Model, env: Environment, path: string)
    ensures forall i :: 0 <= i < |Run(m, env, Start(m), path).lines| ==> LineInModelSpace(Run(m, env, Start(m), path).lines[i])
  {
    OneSegmentPerF(m, env, Start(m), path);
  }

  class LSystemState {
    var isInitialized: bool
    var isDrawingRequested: bool
    var angle: real
    var initialAngle: real
    var axiom: string
    var rules: seq<string>
    var iterations: nat
    var length: real
    var color: Color
    var stroke: Stroke
    var lines: seq<Line2D>
    var rulesSet: map<char, string>

    /** The cached segments are still in model space, ready to be projected. */
    ghost predicate Valid()
      reads this
    {
      forall i :: 0 <= i < |lines| ==> LineInModelSpace(lines[i])
    }

    /**
     * The initialisation flag is honest: when it is set, the current parameters pass validation
     * and `rulesSet` is the rule map validation compiles from them.
     */
    ghost predicate Consistent()
      reads this
    {
      isInitialized ==> Validate(axiom, angle, initialAngle, length, iterations, rules) == Success(rulesSet)
    }

    /** Every field has its default value, except possibly `rules`. */
    ghost predicate DefaultExceptRules()
      reads this
    {
      && !isInitialized && !isDrawingRequested
      && angle == 0.0 && initialAngle == 0.0 && axiom == ""
      && iterations == 1 && length == 0.5
      && color == BLACK && stroke == DEFAULT_STROKE
      && rulesSet == map[] && lines == []
    }

    /** `LSystemState::default()`: one empty rule line. */
    ghost predicate IsDefault()
      reads this
    {
      DefaultExceptRules() && rules == [""]
    }

    /** `LSystemState::default()`; the default parameters fail validation on their empty axiom. */
    constructor ()
      ensures IsDefault() && Valid() && Consistent()
      ensures Validate(axiom, angle, initialAngle, length, iterations, rules) == Failure(AxiomIsEmpty)
    {
      isInitialized := false;
      isDrawingRequested := false;
      angle := 0.0;
      initialAngle := 0.0;
      axiom := "";
      rules := [""];
      iterations := 1;
      length := 0.5;
      color := BLACK;
      stroke := DEFAULT_STROKE;
      lines := [];
      rulesSet := map[];
    }

    /** `*self = Default::default()`. */
    method ResetToDefault()
      modifies this
      ensures IsDefault() && Valid() && Consistent()
    {
      isInitialized := false;
      isDrawingRequested := false;
      angle := 0.0;
      initialAngle := 0.0;
      axiom := "";
      rules := [""];
      iterations := 1;
      length := 0.5;
      color := BLACK;
      stroke := DEFAULT_STROKE;
      lines := [];
      rulesSet := map[];
    }

    /** `reset_with_empty_rules`: the defaults, but with no rule lines at all. */
    method ResetWithEmptyRules()
      modifies this
      ensures DefaultExceptRules() && rules == [] && Valid() && Consistent()
    {
      ResetToDefault();
      rules := [];
    }

    /**
     * `initialize`: runs every check in order. On success the compiled rule map is stored and
     * the state is marked initialised; on failure neither is touched.
     */
    method Initialize() returns (r: Outcome<ValidationError>)
      modifies this`rulesSet, this`isInitialized
      ensures r == ToOutcome(Validate(axiom, angle, initialAngle, length, iterations, rules))
      ensures r.Pass? ==> isInitialized && rulesSet == Validate(axiom, angle, initialAngle, length, iterations, rules).value
      ensures r.Fail? ==> isInitialized == old(isInitialized) && rulesSet == old(rulesSet)
      ensures r.Pass? || old(Consistent()) ==> Consistent()
    {
      r := AxiomIsNotEmpty(axiom);
      if r.Fail? { return; }
      r := AngleRange(angle);
      if r.Fail? { return; }
      r := AngleRange(initialAngle);
      if r.Fail? { return; }
      r := LengthRange(length);
      if r.Fail? { return; }
      r := IterationsRange(iterations);
      if r.Fail? { return; }

      var gathered := GatherRules(rules);
      if gathered.Failure? {
        r := Fail(gathered.error);
        return;
      }
      var alphabet, conditions := gathered.value.alphabet, gathered.value.conditions;

      r := EnsureAxiomSymbolsInAlphabet(alphabet, axiom);
      if r.Fail? { return; }
      r := EnsureConditionSymbolsInAlphabet(alphabet, conditions);
      if r.Fail? { return; }

      var compiled := BuildRulesSet(alphabet, conditions);
      rulesSet := compiled;
      isInitialized := true;
    }

    /** `reset_initialization`: forgets the compiled rules. */
    method ResetInitialization()
      modifies this`rulesSet, this`isInitialized
      ensures rulesSet == map[] && !isInitialized
      ensures Consistent()
    {
      rulesSet := map[];
      isInitialized := false;
    }

    /** `request_drawing`: the next `shapes` call regenerates the segments. */
    method RequestDrawing()
      modifies this`isDrawingRequested
      ensures isDrawingRequested
    {
      isDrawingRequested := true;
    }

    /** `push_empty_rule`: an empty line appended; the state is no longer initialised. */
    method PushEmptyRule()
      modifies this`rulesSet, this`isInitialized, this`rules
      ensures rules == old(rules) + [""]
      ensures rulesSet == map[] && !isInitialized && Consistent()
    {
      ResetInitialization();
      rules := rules + [""];
    }

    /** `remove_rule`: line `index` removed, the others kept in order; no longer initialised. */
    method RemoveRule(index: nat)
      requires index < |rules|
      modifies this`rulesSet, this`isInitialized, this`rules
      ensures rules == old(rules)[..index] + old(rules)[index + 1..]
      ensures |rules| == |old(rules)| - 1
      ensures forall i :: 0 <= i < |rules| ==> rules[i] == (if i < index then old(rules)[i] else old(rules)[i + 1])
      ensures rulesSet == map[] && !isInitialized && Consistent()
    {
      ResetInitialization();
      rules := rules[..index] + rules[index + 1..];
    }

    /**
     * The model `shapes` hands to the engine: the current parameters with the compiled rule
     * map, drawn in the stroke's colour.
     */
    function DrawingModel(): (m: Model)
      reads this
      ensures m.axiom == axiom && m.rules == rulesSet && m.iterations == iterations && m.length == length
      ensures m.colorScheme == Fixed(stroke.color)
      ensures 0.0 <= angle <= 360.0 ==> m.angle.degree == angle
      ensures 0.0 <= initialAngle <= 360.0 ==> m.initialAngle.degree == initialAngle
    {
      Build(DEFAULT_BUILDER.(axiom := axiom, angle := angle, initialAngle := initialAngle, rules := rulesSet,
                             iterations := iterations, length := length, colorScheme := Fixed(stroke.color)))
    }

    /**
     * `shapes`: the stroke takes the chosen colour; the segments are regenerated only when a
     * drawing was requested (and the request is then cleared), otherwise the cache is reused;
     * the result is every cached segment projected to the screen.
     */
    method Shapes(params: CanvasParams, env: Environment) returns (shapes: seq<Line2D>)
      requires params.unitLength != 0.0
      requires Valid()
      modifies this`stroke, this`isDrawingRequested, this`lines
      ensures stroke == old(stroke).(color := color)
      ensures !isDrawingRequested
      ensures old(isDrawingRequested) ==>
                lines == Run(DrawingModel(), env, Start(DrawingModel()), Generate(rulesSet, axiom, iterations)).lines
      ensures !old(isDrawingRequested) ==> lines == old(lines)
      ensures Valid()
      ensures shapes == LinesToScreen(lines, params)
    {
      stroke := stroke.(color := color);
      if isDrawingRequested {
        isDrawingRequested := false;
        var model := DrawingModel();
        var drawn := Lines(model, env);
        DrawnLinesInModelSpace(model, env, Generate(model.rules, model.axiom, model.iterations));
        lines := drawn;
      }
      shapes := LinesToScreen(lines, params);
    }
  }

  /**
   * The rule-line loop of `initialize`: each line's syntax, constant, character and condition
   * checks in turn, gathering the alphabet and the bodies; the first failing line stops it.
   */
  method GatherRules(rules: seq<string>) returns (r: Result<ParsedRules, ValidationError>)
    ensures r == ParseRules(rules)
  {
    var alphabet: seq<char> := [];
    var conditions: seq<string> := [];
    var index := 0;
    while index < |rules|
      invariant 0 <= index <= |rules|
      invariant ParseRules(rules[..index]) == Success(ParsedRules(alphabet, conditions))
    {
      var line := rules[index];
      assert rules[..index + 1][..index] == rules[..index];
      var check := RightSyntax(line, index);
      if check.Fail? {
        RuleLineDecides(rules, index);
        return Failure(check.error);
      }
      var letter, condition := line[0..1], line[5..];
      check := RuleConstantIsNotEmpty(letter, index);
      if check.Fail? {
        RuleLineDecides(rules, index);
        return Failure(check.error);
      }
      var symbol := IsValidChar(letter, index);
      if symbol.Failure? {
        assert false;
      }
      alphabet := alphabet + [symbol.value];
      check := RuleConditionIsNotEmpty(condition, index);
      if check.Fail? {
        RuleLineDecides(rules, index);
        return Failure(check.error);
      }
      conditions := conditions + [condition];
      index := index + 1;
    }
    assert rules[..|rules|] == rules;
    return Success(ParsedRules(alphabet, conditions));
  }

  /** The map-building loop of `initialize`: each symbol bound to its body, later lines overwriting. */
  method BuildRulesSet(alphabet: seq<char>, conditions: seq<string>) returns (rulesSet: map<char, string>)
    requires |alphabet| == |conditions|
    ensures rulesSet == CompileRules(alphabet, conditions)
  {
    rulesSet := map[];
    var i := 0;
    while i < |alphabet|
      invariant 0 <= i <= |alphabet|
      invariant rulesSet == CompileRules(alphabet[..i], conditions[..i])
    {
      assert alphabet[..i + 1][..i] == alphabet[..i];
      assert conditions[..i + 1][..i] == conditions[..i];
      rulesSet := rulesSet[alphabet[i] := conditions[i]];
      i := i + 1;
    }
    assert alphabet[..i] == alphabet && conditions[..i] == conditions;
  }

  /** A line that fails its checks, after well-formed lines, decides the whole rule walk. */
  lemma RuleLineDecides(rules: seq<string>, index: nat)
    requires index < |rules|
    requires ParseRules(rules[..index]).Success?
    requires ParseRule(rules[index], index).Failure?
    ensures ParseRules(rules) == Failure(ParseRule(rules[index], index).error)
  {
    assert rules[..index + 1][..index] == rules[..index];
    ParseRulesFailurePersists(rules, index + 1);
  }
}
