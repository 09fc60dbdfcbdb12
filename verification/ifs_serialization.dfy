/**
 * The IFS DTO saved and loaded by the application, keyed "Systems": the system list only.
 * JSON text itself is outside the model.
 */
module IfsSerialization {
  import opened Outcomes
  import opened Colors
  import opened IfsValidation
  import opened IfsStates

  /** The JSON key of the system list. */
  const SYSTEMS_KEY: string := "Systems"

  /** `IfsDto`: nothing but the systems is persisted. */
  datatype IfsDto = IfsDto(systems: seq<System>)

  /** `serialize`: the state's system list, in order. */
  function Serialize(state: IfsState): (dto: IfsDto)
    reads state
    ensures dto.systems == state.systems
  {
    IfsDto(state.systems)
  }

  /**
   * `IfsDto::load`: the state is reset to its defaults and emptied, each DTO system is pushed in
   * order (in black), and the state is initialised; the result is the initialisation's. The
   * loaded systems stay even when validation fails.
   */
  method Load(dto: IfsDto, state: IfsState) returns (r: Outcome<ValidationError>)
    modifies state
    ensures state.systems == dto.systems
    ensures |state.colors| == |state.systems| && AllBlack(state.colors)
    ensures r == Validate(dto.systems)
    ensures state.isInitialized <==> r.Pass?
    ensures !state.isDrawingRequested && state.dots == [] && !state.isColoringEnabled
    ensures state.iterations == IfsModel.DEFAULT_ITERATIONS && state.radiusCm == IfsModel.DEFAULT_RADIUS
    ensures state.Valid() && state.Consistent()
  {
    state.ResetToDefault();
    state.EmptySystems();
    var i := 0;
    while i < |dto.systems|
      invariant 0 <= i <= |dto.systems|
      invariant state.systems == dto.systems[..i]
      invariant |state.colors| == i && AllBlack(state.colors)
      invariant state.OthersDefault()
    {
      state.PushSystem(dto.systems[i]);
      assert dto.systems[..i + 1] == dto.systems[..i] + [dto.systems[i]];
      i := i + 1;
    }
    assert dto.systems[..i] == dto.systems;
    r := state.Initialize();
  }

  /**
   * Saving a state and loading the result into a state (possibly the same one) reproduces the
   * system list, in black, initialised exactly when that list validates.
   */
  method SaveAndLoad(source: IfsState, target: IfsState) returns (r: Outcome<ValidationError>)
    modifies target
    ensures target.systems == old(source.systems)
    ensures |target.colors| == |target.systems| && AllBlack(target.colors)
    ensures r == Validate(old(source.systems)) && (target.isInitialized <==> r.Pass?)
  {
    var dto := Serialize(source);
    r := Load(dto, target);
  }
}
