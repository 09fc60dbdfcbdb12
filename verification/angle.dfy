/** Turtle headings: a degree value kept in range by a single wrap step, and its radian form. */
module Angles {

  /** `std::f64::consts::PI as f32`, written out exactly (the nearest f32 to pi). */
  const PI_F32: real := 3.1415927410125732421875

  /** `Angle`: the stored degree and the radian value computed from it. */
  datatype Angle = Angle(degree: real, radian: real)

  /**
   * `Angle::from_degree`: a negative degree is shifted up by 360, a degree above 360 is
   * shifted down by 360, anything else (including 360 itself) is kept.
   */
  function FromDegree(degree: real): (a: Angle)
    ensures a.radian == a.degree * PI_F32 / 180.0
    ensures 0.0 <= degree <= 360.0 ==> a.degree == degree
    ensures degree < 0.0 ==> a.degree == 360.0 + degree
    ensures degree > 360.0 ==> a.degree == degree - 360.0
    ensures -360.0 <= degree <= 720.0 ==> 0.0 <= a.degree <= 360.0
  {
    var local := if degree < 0.0 then 360.0 + degree else degree;
    var local := if degree > 360.0 then local - 360.0 else local;
    Angle(local, local * PI_F32 / 180.0)
  }

  /** Normalisation is one step only: inputs more than one turn outside [0, 360] stay outside. */
  lemma FromDegreeIsSingleStep(degree: real)
    ensures degree < -360.0 ==> FromDegree(degree).degree < 0.0
    ensures degree > 720.0 ==> FromDegree(degree).degree > 360.0
  {
  }

  /** The worked cases: -10 becomes 350, 370 becomes 10, and 360 is not wrapped to 0. */
  lemma FromDegreeExamples()
    ensures FromDegree(-10.0).degree == 350.0
    ensures FromDegree(370.0).degree == 10.0
    ensures FromDegree(360.0).degree == 360.0
    ensures FromDegree(0.0).degree == 0.0
  {
  }
}
