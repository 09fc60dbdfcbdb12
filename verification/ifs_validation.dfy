/**
 * The IFS validator: a system list must be non-empty, every probability must lie in
 * [0, 1 + EPSILON], and the probabilities must sum to at most 1 + EPSILON.
 */
module IfsValidation {
  import opened Outcomes

  /** One affine map with its probability, in the columns `[a, b, d, e, c, f, p]`. */
  type System = s: seq<real> | |s| == 7 witness [0.0, 0.0, 0.0, 0.0, 0.0, 0.0, 0.0]

  /** The tolerance both probability checks allow above 1. */
  const EPSILON: real := 0.000001

  /** The probability column of a system. */
  function Probability(s: System): real
  {
    s[6]
  }

  /** The validator's errors; the two probability errors carry the offending value. */
  datatype ValidationError = BadProbability(value: real) | BadProbabilitySum(sum: real) | NoSystems

  /** The probability column of every system, in order. */
  function ProbabilityColumn(systems: seq<System>): (ps: seq<real>)
    ensures |ps| == |systems|
    ensures forall i :: 0 <= i < |systems| ==> ps[i] == Probability(systems[i])
  {
    seq(|systems|, i requires 0 <= i < |systems| => Probability(systems[i]))
  }

  /** The sum of a list of weights, added left to right. */
  function Total(ws: seq<real>): real
  {
    if ws == [] then 0.0 else Total(ws[..|ws| - 1]) + ws[|ws| - 1]
  }

  /** A sum of non-negative weights is non-negative, and zero only when every weight is zero. */
  lemma {:induction false} TotalOfNonNegative(ws: seq<real>)
    requires forall i :: 0 <= i < |ws| ==> ws[i] >= 0.0
    ensures Total(ws) >= 0.0
    ensures Total(ws) == 0.0 <==> forall i :: 0 <= i < |ws| ==> ws[i] == 0.0
  {
    if ws != [] {
      TotalOfNonNegative(ws[..|ws| - 1]);
    }
  }

  /** `systems_exist`. */
  function SystemsExist(systems: seq<System>): (r: Outcome<ValidationError>)
    ensures r.Fail? <==> systems == []
    ensures r.Fail? ==> r.error == NoSystems
  {
    if systems == [] then Fail(NoSystems) else Pass
  }

  predicate ProbabilityInRange(p: real)
  {
    0.0 <= p <= 1.0 + EPSILON
  }

  /** The index of the first system whose probability is out of range, or `|systems|`. */
  function FirstBadRow(systems: seq<System>): (k: nat)
    ensures k <= |systems|
    ensures forall j :: 0 <= j < k ==> ProbabilityInRange(Probability(systems[j]))
    ensures k < |systems| ==> !ProbabilityInRange(Probability(systems[k]))
  {
    if systems == [] then 0
    else if !ProbabilityInRange(Probability(systems[0])) then 0
    else 1 + FirstBadRow(systems[1..])
  }

  /** `probability_range`: reports the first out-of-range probability, scanning in order. */
  function ProbabilityRange(systems: seq<System>): (r: Outcome<ValidationError>)
    ensures r.Pass? <==> forall i :: 0 <= i < |systems| ==> ProbabilityInRange(Probability(systems[i]))
    ensures r.Fail? ==>
      exists k ::
        && 0 <= k < |systems|
        && r.error == BadProbability(Probability(systems[k]))
        && !ProbabilityInRange(Probability(systems[k]))
        && (forall j :: 0 <= j < k ==> ProbabilityInRange(Probability(systems[j])))
  {
    var k := FirstBadRow(systems);
    if k < |systems| then Fail(BadProbability(Probability(systems[k]))) else Pass
  }

  /** `probability_sum`: the probabilities may sum to at most 1 + EPSILON; the error carries the sum. */
  function ProbabilitySum(systems: seq<System>): (r: Outcome<ValidationError>)
    ensures r.Pass? <==> Total(ProbabilityColumn(systems)) <= 1.0 + EPSILON
    ensures r.Fail? ==> r.error == BadProbabilitySum(Total(ProbabilityColumn(systems)))
  {
    var sum := Total(ProbabilityColumn(systems));
    if sum > 1.0 + EPSILON then Fail(BadProbabilitySum(sum)) else Pass
  }

  /**
   * The three checks of `IfsState::initialize`, in its order. It passes exactly on a non-empty
   * list whose probabilities each lie in [0, 1 + EPSILON] and sum to at most 1 + EPSILON; the
   * first failure wins: emptiness before range, range before sum.
   */
  function Validate(systems: seq<System>): (r: Outcome<ValidationError>)
    ensures r.Pass? <==>
      && systems != []
      && (forall i :: 0 <= i < |systems| ==> 0.0 <= Probability(systems[i]) <= 1.0 + EPSILON)
      && Total(ProbabilityColumn(systems)) <= 1.0 + EPSILON
    ensures systems == [] ==> r == Fail(NoSystems)
    ensures systems != [] && ProbabilityRange(systems).Fail? ==> r == ProbabilityRange(systems)
    ensures r.Fail? && r.error.BadProbabilitySum? ==>
              forall i :: 0 <= i < |systems| ==> ProbabilityInRange(Probability(systems[i]))
  {
    if SystemsExist(systems).Fail? then SystemsExist(systems)
    else if ProbabilityRange(systems).Fail? then ProbabilityRange(systems)
    else ProbabilitySum(systems)
  }

  /** Two lists with the same probability column: the same total. */
  lemma {:induction false} TotalDependsOnProbabilities(s1: seq<System>, s2: seq<System>)
    requires |s1| == |s2|
    requires forall i :: 0 <= i < |s1| ==> Probability(s1[i]) == Probability(s2[i])
    ensures Total(ProbabilityColumn(s1)) == Total(ProbabilityColumn(s2))
  {
    assert ProbabilityColumn(s1) == ProbabilityColumn(s2);
  }

  /** Two lists with the same probability column: the same first out-of-range row. */
  lemma {:induction false} FirstBadRowDependsOnProbabilities(s1: seq<System>, s2: seq<System>)
    requires |s1| == |s2|
    requires forall i :: 0 <= i < |s1| ==> Probability(s1[i]) == Probability(s2[i])
    ensures FirstBadRow(s1) == FirstBadRow(s2)
  {
    if s1 != [] {
      FirstBadRowDependsOnProbabilities(s1[1..], s2[1..]);
    }
  }

  /** Only column 6 is inspected: coefficients 0..5 never affect validation. */
  lemma OnlyProbabilitiesMatter(s1: seq<System>, s2: seq<System>)
    requires |s1| == |s2|
    requires forall i :: 0 <= i < |s1| ==> Probability(s1[i]) == Probability(s2[i])
    ensures Validate(s1) == Validate(s2)
  {
    TotalDependsOnProbabilities(s1, s2);
    FirstBadRowDependsOnProbabilities(s1, s2);
  }

  /** `ValidationError::additional_info`: the carried value for the two probability errors, none otherwise. */
  function AdditionalInfo(e: ValidationError): (info: Option<real>)
    ensures info.Some? <==> !e.NoSystems?
    ensures e.BadProbability? ==> info == Some(e.value)
    ensures e.BadProbabilitySum? ==> info == Some(e.sum)
  {
    match e
    case BadProbability(value) => Some(value)
    case BadProbabilitySum(sum) => Some(sum)
    case NoSystems => None
  }

  // ---------------------------------------------------------------------------
  // The unit tests of the validator, restated as lemmas

  /** A single system with probability 0.5 passes. */
  lemma HalfProbabilityPasses()
    ensures Validate([[0.0, 0.0, 0.0, 0.0, 0.0, 0.0, 0.5]]) == Pass
  {
    var s: seq<System> := [[0.0, 0.0, 0.0, 0.0, 0.0, 0.0, 0.5]];
    assert ProbabilityColumn(s) == [0.5];
    assert Total([0.5]) == Total([]) + 0.5;
  }

  /** A negative probability in the second row is reported as that value. */
  lemma NegativeProbabilityFails()
    ensures Validate([[0.307692, -0.531469, -0.461538, -0.293706, 5.401953, 8.655175, 0.40],
                      [0.307692, -0.076923, 0.153846, -0.447552, -1.295248, 4.152990, -0.15],
                      [0.000000, 0.545455, 0.692308, -0.195804, -4.893637, 7.269794, 0.45]])
            == Fail(BadProbability(-0.15))
  {
    var s: seq<System> := [[0.307692, -0.531469, -0.461538, -0.293706, 5.401953, 8.655175, 0.40],
                           [0.307692, -0.076923, 0.153846, -0.447552, -1.295248, 4.152990, -0.15],
                           [0.000000, 0.545455, 0.692308, -0.195804, -4.893637, 7.269794, 0.45]];
    assert FirstBadRow(s[1..]) == 0;
    assert FirstBadRow(s) == 1;
  }

  /** A probability of 1.01 is a range error, although the sum is also too large. */
  lemma ProbabilityAboveOneFails()
    ensures Validate([[0.307692, -0.531469, -0.461538, -0.293706, 5.401953, 8.655175, 0.40],
                      [0.307692, -0.076923, 0.153846, -0.447552, -1.295248, 4.152990, 0.15],
                      [0.307692, -0.076923, 0.153846, -0.447552, -1.295248, 4.152990, 1.01],
                      [0.000000, 0.545455, 0.692308, -0.195804, -4.893637, 7.269794, 0.45]])
            == Fail(BadProbability(1.01))
  {
    var s: seq<System> := [[0.307692, -0.531469, -0.461538, -0.293706, 5.401953, 8.655175, 0.40],
                           [0.307692, -0.076923, 0.153846, -0.447552, -1.295248, 4.152990, 0.15],
                           [0.307692, -0.076923, 0.153846, -0.447552, -1.295248, 4.152990, 1.01],
                           [0.000000, 0.545455, 0.692308, -0.195804, -4.893637, 7.269794, 0.45]];
    assert FirstBadRow(s[2..]) == 0;
    assert FirstBadRow(s[1..]) == 1;
    assert FirstBadRow(s) == 2;
  }

  /** In-range probabilities 0.895652 + 0.25 + 0.052174 sum above 1 and are reported with their sum. */
  lemma SumAboveOneFails()
    ensures Validate([[0.787879, -0.424242, 0.242424, 0.859848, 1.758647, 1.408065, 0.895652],
                      [-0.121212, 0.257576, 0.151515, 0.053030, -6.721654, 1.377236, 0.25],
                      [0.181818, -0.136364, 0.090909, 0.181818, 6.086107, 1.568035, 0.052174]])
            == Fail(BadProbabilitySum(1.197826))
  {
    var s: seq<System> := [[0.787879, -0.424242, 0.242424, 0.859848, 1.758647, 1.408065, 0.895652],
                           [-0.121212, 0.257576, 0.151515, 0.053030, -6.721654, 1.377236, 0.25],
                           [0.181818, -0.136364, 0.090909, 0.181818, 6.086107, 1.568035, 0.052174]];
    assert FirstBadRow(s) == 3 by {
      assert FirstBadRow(s[1..][1..][1..]) == 0;
    }
    var ps := ProbabilityColumn(s);
    assert ps == [0.895652, 0.25, 0.052174];
    assert ps[..2] == [0.895652, 0.25] && ps[..2][..1] == [0.895652] && ps[..2][..1][..0] == [];
    assert Total(ps[..2][..1]) == 0.895652;
    assert Total(ps[..2]) == 1.145652;
    assert Total(ps) == 1.197826;
  }

  /** An all-zero probability column passes every check. */
  lemma AllZeroProbabilitiesPass(systems: seq<System>)
    requires systems != []
    requires forall i :: 0 <= i < |systems| ==> Probability(systems[i]) == 0.0
    ensures Validate(systems) == Pass
  {
    TotalOfNonNegative(ProbabilityColumn(systems));
  }
}
