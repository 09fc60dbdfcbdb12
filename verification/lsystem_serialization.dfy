/**
 * The L-system DTO: the five persisted fields of `LSystemState`, and the mapping between the
 * DTO and the state in both directions. JSON text itself is outside the model.
 */
module LSystemSerialization {
  import opened Outcomes
  import Colors
  import opened LSystemValidation
  import opened LSystemStates

  /** The JSON keys of the five persisted fields. */
  const AXIOM_KEY: string := "Axiom"
  const ANGLE_KEY: string := "Angle"
  const INITIAL_ANGLE_KEY: string := "Initial Angle"
  const ITERATIONS_KEY: string := "Iterations"
  const RULES_KEY: string := "Rules"

  /** The length a state gets when it is reset, and so the length every load validates with. */
  const DEFAULT_LENGTH: real := 0.5

  /** `LSystemDto`: no length, colour or runtime flags are persisted. */
  datatype LSystemDto = LSystemDto(axiom: string, angle: real, initialAngle: real, iterations: nat, rules: seq<string>)

  /** `serialize`: the five persisted fields of the state, copied. */
  function Serialize(state: LSystemState): (dto: LSystemDto)
    reads state
    ensures dto.axiom == state.axiom && dto.angle == state.angle && dto.initialAngle == state.initialAngle
    ensures dto.iterations == state.iterations && dto.rules == state.rules
  {
    LSystemDto(state.axiom, state.angle, state.initialAngle, state.iterations, state.rules)
  }

  /** The length is only checked for its sign, so any two non-negative lengths validate alike. */
  lemma ValidationIgnoresLength(axiom: string, angle: real, initialAngle: real, length1: real, length2: real,
                                iterations: nat, rules: seq<string>)
    requires length1 >= 0.0 && length2 >= 0.0
    ensures Validate(axiom, angle, initialAngle, length1, iterations, rules)
         == Validate(axiom, angle, initialAngle, length2, iterations, rules)
  {
    assert ValidateFields(axiom, angle, initialAngle, length1, iterations)
        == ValidateFields(axiom, angle, initialAngle, length2, iterations);
  }

  /**
   * `LSystemDto::load`: the state is reset with no rule lines, the five fields are taken from the
   * DTO, and the state is initialised; the result is the initialisation's. On failure the state
   * is reset to its defaults; on success it holds the DTO's fields with every other field at its
   * default, and is initialised with the compiled rules.
   */
  method Load(dto: LSystemDto, state: LSystemState) returns (r: Outcome<ValidationError>)
    modifies state
    ensures r == ToOutcome(Validate(dto.axiom, dto.angle, dto.initialAngle, DEFAULT_LENGTH, dto.iterations, dto.rules))
    ensures r.Fail? ==> state.IsDefault()
    ensures r.Pass? ==>
              && state.axiom == dto.axiom && state.angle == dto.angle && state.initialAngle == dto.initialAngle
              && state.iterations == dto.iterations && state.rules == dto.rules
              && state.length == DEFAULT_LENGTH && state.color == Colors.BLACK && state.stroke == DEFAULT_STROKE
              && state.isInitialized && !state.isDrawingRequested
              && state.rulesSet == Validate(dto.axiom, dto.angle, dto.initialAngle, DEFAULT_LENGTH, dto.iterations, dto.rules).value
              && state.lines == []
    ensures state.Valid() && state.Consistent()
  {
    state.ResetWithEmptyRules();
    state.axiom := dto.axiom;
    state.angle := dto.angle;
    state.initialAngle := dto.initialAngle;
    state.iterations := dto.iterations;
    state.rules := dto.rules;
    r := state.Initialize();
    if r.Fail? {
      state.ResetToDefault();
    }
  }

  /**
   * Saving an initialised state and loading the result into a state (possibly the same one)
   * succeeds and reproduces the five persisted fields and the compiled rules.
   */
  method SaveAndLoad(source: LSystemState, target: LSystemState) returns (r: Outcome<ValidationError>)
    requires source.isInitialized && source.Consistent()
    modifies target
    ensures r == Pass
    ensures target.axiom == old(source.axiom) && target.angle == old(source.angle)
    ensures target.initialAngle == old(source.initialAngle) && target.iterations == old(source.iterations)
    ensures target.rules == old(source.rules) && target.rulesSet == old(source.rulesSet)
    ensures target.isInitialized && target.Consistent()
  {
    var dto := Serialize(source);
    ValidationIgnoresLength(dto.axiom, dto.angle, dto.initialAngle, source.length, DEFAULT_LENGTH, dto.iterations, dto.rules);
    r := Load(dto, target);
  }
}
