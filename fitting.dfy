/**
  The residual vector that fitting.cpp hands to the GSL least-squares solver.

  For M frequency samples and a pressure profile p of N elements the vector
  has M + 2 entries: the M data residuals predicted - measured, then a
  penalty for negative pressures and a penalty for pressures that decrease
  from one element to the next. The weights give each data residual weight 1
  and each penalty weight M, as much as all data residuals together.

  Doubles are modelled as exact reals: the predicted spectrum is an input, and
  IEEE rounding (a tiny negative pressure whose sixth power underflows to 0)
  is not captured.
*/
module FitCost {

  /** m_num_constraints: the two penalty entries after the data residuals. */
  const NumConstraints: nat := 2

  /** GSL_SUCCESS, the status compute_cost_function returns. */
  const GslSuccess: int := 0

  /** pow(x, n) for a natural exponent. */
  function Pow(x: real, n: nat): (r: real)
    ensures x > 0.0 ==> r > 0.0
  {
    if n == 0 then 1.0
    else
      var q := Pow(x, n - 1);
      assert x > 0.0 ==> x * q > 0.0 by {
        if x > 0.0 { assert q > 0.0; }
      }
      x * q
  }

  /** A square is positive away from zero. */
  lemma SquarePositive(d: real)
    requires d != 0.0
    ensures Pow(d, 2) == d * d
    ensures Pow(d, 2) > 0.0
  {
    assert Pow(d, 0) == 1.0;
    assert Pow(d, 1) == d;
    assert Pow(d, 2) == d * d;
    if d < 0.0 {
      assert (0.0 - d) * (0.0 - d) > 0.0;
    }
  }

  // ---------------------------------------------------------------------
  // The two penalties
  // ---------------------------------------------------------------------

  /** One pressure's share of the negative penalty: (-x)^6 when x is below zero. */
  function NegativeTerm(x: real): (r: real)
    ensures r >= 0.0
    ensures r == 0.0 <==> x >= 0.0
  {
    if x < 0.0 then Pow(0.0 - x, 6) else 0.0
  }

  /** One step's share of the decrease penalty: d^2 when the step d goes down. */
  function DecreaseTerm(d: real): (r: real)
    ensures r >= 0.0
    ensures r == 0.0 <==> d >= 0.0
  {
    if d < 0.0 then
      assert Pow(d, 2) > 0.0 by { SquarePositive(d); }
      Pow(d, 2)
    else 0.0
  }

  /** The sum of (-p_i)^6 over the negative pressures p_i. */
  function NegativePenalty(p: seq<real>): (r: real)
    ensures r >= 0.0
  {
    if p == [] then 0.0 else NegativePenalty(p[..|p| - 1]) + NegativeTerm(p[|p| - 1])
  }

  /** The sum, over i > 0, of (p_i - p_{i-1})^2 for the steps where the pressure goes down. */
  function DecreasePenalty(p: seq<real>): (r: real)
    ensures r >= 0.0
  {
    if |p| <= 1 then 0.0
    else DecreasePenalty(p[..|p| - 1]) + DecreaseTerm(p[|p| - 1] - p[|p| - 2])
  }

  predicate NonNegative(p: seq<real>) {
    forall i :: 0 <= i < |p| ==> p[i] >= 0.0
  }

  /** Each pressure is at least the one before it. */
  predicate NonDecreasing(p: seq<real>) {
    forall i :: 0 < i < |p| ==> p[i - 1] <= p[i]
  }

  /** The negative penalty vanishes exactly when no pressure is negative. */
  lemma {:induction false} NegativePenaltyZeroIff(p: seq<real>)
    ensures NegativePenalty(p) == 0.0 <==> NonNegative(p)
  {
    if p != [] {
      var prefix := p[..|p| - 1];
      NegativePenaltyZeroIff(prefix);
      assert forall i :: 0 <= i < |prefix| ==> prefix[i] == p[i];
    }
  }

  /** The decrease penalty vanishes exactly when the profile never goes down. */
  lemma {:induction false} DecreasePenaltyZeroIff(p: seq<real>)
    ensures DecreasePenalty(p) == 0.0 <==> NonDecreasing(p)
  {
    if |p| > 1 {
      var prefix := p[..|p| - 1];
      DecreasePenaltyZeroIff(prefix);
      assert forall i :: 0 <= i < |prefix| ==> prefix[i] == p[i];
    }
  }

  /** A profile that never goes down has every later pressure at least every earlier one. */
  lemma {:induction false} NonDecreasingOrdered(p: seq<real>, i: nat, j: nat)
    requires NonDecreasing(p) && i <= j < |p|
    ensures p[i] <= p[j]
    decreases j - i
  {
    if i < j {
      NonDecreasingOrdered(p, i, j - 1);
    }
  }

  /** A profile whose only step down, at k, has size delta is penalised by delta^2. */
  lemma {:induction false} SingleBackwardStep(p: seq<real>, k: nat, delta: real)
    requires 0 < k < |p| && delta > 0.0
    requires p[k] == p[k - 1] - delta
    requires forall i :: 0 < i < |p| && i != k ==> p[i - 1] <= p[i]
    ensures DecreasePenalty(p) == delta * delta
  {
    var prefix := p[..|p| - 1];
    assert forall i :: 0 <= i < |prefix| ==> prefix[i] == p[i];
    var last := p[|p| - 1] - p[|p| - 2];
    assert DecreasePenalty(p) == DecreasePenalty(prefix) + DecreaseTerm(last);
    if k == |p| - 1 {
      DecreasePenaltyZeroIff(prefix);
      assert last == 0.0 - delta;
      SquarePositive(last);
      assert last * last == delta * delta;
    } else {
      assert last >= 0.0;
      SingleBackwardStep(prefix, k, delta);
    }
  }

  /** A single negative pressure -x, the rest non-negative, is penalised by x^6. */
  lemma {:induction false} SingleNegativePressure(p: seq<real>, k: nat, x: real)
    requires k < |p| && x > 0.0 && p[k] == 0.0 - x
    requires forall i :: 0 <= i < |p| && i != k ==> p[i] >= 0.0
    ensures NegativePenalty(p) == Pow(x, 6)
  {
    var prefix := p[..|p| - 1];
    assert forall i :: 0 <= i < |prefix| ==> prefix[i] == p[i];
    if k == |p| - 1 {
      NegativePenaltyZeroIff(prefix);
    } else {
      SingleNegativePressure(prefix, k, x);
    }
  }

  // ---------------------------------------------------------------------
  // The residual vector
  // ---------------------------------------------------------------------

  /**
    The vector compute_cost_function writes: predicted - measured for each of
    the M samples, then the negative penalty at M and the decrease penalty at M + 1.
  */
  function Residuals(pressures: seq<real>, predicted: seq<real>, measured: seq<real>): (r: seq<real>)
    requires |measured| >= |predicted|
    ensures |r| == |predicted| + NumConstraints
  {
    seq(|predicted|, i requires 0 <= i < |predicted| => predicted[i] - measured[i])
      + [NegativePenalty(pressures), DecreasePenalty(pressures)]
  }

  /**
    Every residual is zero exactly when the prediction matches the first M
    measurements and the profile is physical: no negative pressure and no
    step down.
  */
  lemma ResidualsZeroIff(pressures: seq<real>, predicted: seq<real>, measured: seq<real>)
    requires |measured| >= |predicted|
    ensures (forall i :: 0 <= i < |predicted| + NumConstraints ==> Residuals(pressures, predicted, measured)[i] == 0.0)
        <==> predicted == measured[..|predicted|] && NonNegative(pressures) && NonDecreasing(pressures)
  {
    var r := Residuals(pressures, predicted, measured);
    var m := |predicted|;
    NegativePenaltyZeroIff(pressures);
    DecreasePenaltyZeroIff(pressures);
    assert r[m] == NegativePenalty(pressures) && r[m + 1] == DecreasePenalty(pressures);
    if predicted == measured[..m] {
      assert forall i :: 0 <= i < m ==> r[i] == 0.0;
    }
    assert forall i :: 0 <= i < m ==> r[i] == predicted[i] - measured[i];
    if forall i :: 0 <= i < m ==> r[i] == 0.0 {
      assert forall i :: 0 <= i < m ==> predicted[i] == measured[..m][i];
      assert predicted == measured[..m];
    }
  }

  /**
    The penalty loop of compute_cost_function: for each element, a negative
    pressure adds its sixth power, and from the second element on a step down
    from the previous pressure adds its square.
  */
  method AccumulatePenalties(pressures: seq<real>) returns (negativePenalty: real, decreasePenalty: real)
    ensures negativePenalty == NegativePenalty(pressures)
    ensures decreasePenalty == DecreasePenalty(pressures)
  {
    negativePenalty := 0.0;
    decreasePenalty := 0.0;
    for i := 0 to |pressures|
      invariant negativePenalty == NegativePenalty(pressures[..i])
      invariant decreasePenalty == DecreasePenalty(pressures[..i])
    {
      var prefix := pressures[..i + 1];
      assert prefix[..i] == pressures[..i];
      if pressures[i] < 0.0 {
        negativePenalty := negativePenalty + Pow(0.0 - pressures[i], 6);
      }
      if i > 0 {
        var difference := pressures[i] - pressures[i - 1];
        decreasePenalty := decreasePenalty + (if difference < 0.0 then Pow(difference, 2) else 0.0);
      }
    }
    assert pressures[..|pressures|] == pressures;
  }

  /**
    compute_cost_function on the pressures GSL proposes, with the spectrum the
    model predicts for them and the measured intensities: writes the residual
    vector and reports success. It works on copies of the simulation objects,
    so nothing but the output vector changes.
  */
  method ComputeCostFunction(pressures: seq<real>, predicted: seq<real>, measured: seq<real>,
                             outputDifferences: array<real>) returns (status: int)
    requires |measured| >= |predicted|
    requires outputDifferences.Length == |predicted| + NumConstraints
    modifies outputDifferences
    ensures outputDifferences[..] == Residuals(pressures, predicted, measured)
    ensures status == GslSuccess
  {
    var numSamplePoints := |predicted|;
    for i := 0 to numSamplePoints
      invariant forall j :: 0 <= j < i ==> outputDifferences[j] == predicted[j] - measured[j]
    {
      outputDifferences[i] := predicted[i] - measured[i];
    }
    var negativePenalty, decreasePenalty := AccumulatePenalties(pressures);
    outputDifferences[numSamplePoints] := negativePenalty;
    outputDifferences[numSamplePoints + 1] := decreasePenalty;
    status := GslSuccess;
  }

  // ---------------------------------------------------------------------
  // The weights
  // ---------------------------------------------------------------------

  function Sum(s: seq<real>): real {
    if s == [] then 0.0 else Sum(s[..|s| - 1]) + s[|s| - 1]
  }

  /** The layout of the weights: 1.0 for each of the M data residuals, M for each penalty. */
  predicate WeightLayout(w: seq<real>, m: nat) {
    && |w| == m + NumConstraints
    && (forall i :: 0 <= i < m ==> w[i] == 1.0)
    && w[m] == m as real && w[m + 1] == m as real
  }

  /** Each penalty weighs as much as all the data residuals together. */
  lemma PenaltyWeightBalance(w: seq<real>, m: nat)
    requires WeightLayout(w, m)
    ensures Sum(w[..m]) == w[m] == w[m + 1]
  {
    SumOfOnes(w[..m]);
  }

  lemma {:induction false} SumOfOnes(s: seq<real>)
    requires forall i :: 0 <= i < |s| ==> s[i] == 1.0
    ensures Sum(s) == |s| as real
  {
    if s != [] {
      SumOfOnes(s[..|s| - 1]);
    }
  }

  /** The fitting problem's own arrays: the starting profile and the residual weights. */
  class Fitting {
    /** M, the number of frequency samples (m_num_frequencies). */
    const numFrequencies: nat
    /** N, the number of pressure elements (m_num_pressures). */
    const numPressures: nat
    const startingPressures: array<real>
    const dataWeights: array<real>

    /**
      The object's invariant: the profile has N entries, the weights follow
      the constructor's layout, and the two arrays are distinct.
    */
    ghost predicate Valid()
      reads this, dataWeights
    {
      && startingPressures.Length == numPressures
      && startingPressures != dataWeights
      && WeightLayout(dataWeights[..], numFrequencies)
    }

    /**
      The constructor's array set-up: the starting profile is allocated
      zero-filled, each data residual gets weight 1 and each penalty weight M.
    */
    constructor (numSamplePoints: nat, numElements: nat)
      ensures numFrequencies == numSamplePoints && numPressures == numElements
      ensures fresh(startingPressures) && fresh(dataWeights) && startingPressures != dataWeights
      ensures startingPressures.Length == numPressures
      ensures forall i :: 0 <= i < numPressures ==> startingPressures[i] == 0.0
      ensures WeightLayout(dataWeights[..], numFrequencies)
      ensures Valid()
    {
      numFrequencies := numSamplePoints;
      numPressures := numElements;
      startingPressures := new real[numElements](_ => 0.0);
      dataWeights := new real[numSamplePoints + NumConstraints];
      new;
      for i := 0 to numFrequencies
        invariant forall j :: 0 <= j < i ==> dataWeights[j] == 1.0
        invariant forall j :: 0 <= j < numPressures ==> startingPressures[j] == 0.0
      {
        dataWeights[i] := 1.0;
      }
      dataWeights[numFrequencies] := numFrequencies as real;
      dataWeights[numFrequencies + 1] := numFrequencies as real;
    }

    /** set_initial_pressures: the first N entries of the argument become the starting profile. */
    method SetInitialPressures(initPressures: seq<real>)
      requires Valid()
      requires |initPressures| >= numPressures
      modifies startingPressures
      ensures Valid()
      ensures startingPressures[..] == initPressures[..numPressures]
      ensures dataWeights[..] == old(dataWeights[..])
    {
      for i := 0 to numPressures
        invariant forall j :: 0 <= j < i ==> startingPressures[j] == initPressures[j]
      {
        startingPressures[i] := initPressures[i];
      }
    }
  }
}
