/**
 * The IFS DTO of the embedded example files, keyed "systems" in lower case. Its loader behaves as
 * the application's own loader does.
 */
module IfsJson {
  import opened Outcomes
  import opened Colors
  import opened IfsValidation
  import opened IfsStates
  import IfsSerialization

  /** The JSON key of the system list; the application's own files use "Systems". */
  const SYSTEMS_KEY: string := "systems"

  /** `IfsDto` of the example files. */
  datatype IfsDto = IfsDto(systems: seq<System>)

  /**
   * `IfsDto::load`: the state reset and emptied, the systems pushed in order (in black), and the
   * state initialised; the loaded systems stay even when validation fails.
   */
  method Load(dto: IfsDto, state: IfsState) returns (r: Outcome<ValidationError>)
    modifies state
    ensures state.systems == dto.systems
    ensures |state.colors| == |state.systems| && AllBlack(state.colors)
    ensures r == Validate(dto.systems)
    ensures state.isInitialized <==> r.Pass?
    ensures !state.isDrawingRequested && state.dots == [] && !state.isColoringEnabled
    ensures state.iterations == IfsModel.DEFAULT_ITERATIONS && state.radiusCm == IfsModel.DEFAULT_RADIUS
    ensures state.Valid() && state.Consistent()
  {
    r := IfsSerialization.Load(IfsSerialization.IfsDto(dto.systems), state);
  }
}
