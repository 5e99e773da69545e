/** The muP coordinate-descent search of `main`: a baseline trial at the
    all-zero exponent vector, then for each round `i` and each field `j` a
    probe at `start_val - 2^(-i-1)` and one at `start_val + 2^(-i-1)`. A
    probe is adopted when its loss is strictly below the BASELINE loss, which
    is never updated. A trial is an oracle from exponent vectors to losses. */
module MupSearch {
  import opened Floats
  import opened MupConfig

  /** `2^n`. */
  function Pow2(n: nat): (r: nat)
    ensures r >= 1
  {
    if n == 0 then 1 else 2 * Pow2(n - 1)
  }

  /** The probe offset of round `i`, `2^(-i-1)`: a half, halved each round. */
  function StepSize(i: nat): (d: real)
    ensures d > 0.0
  {
    if i == 0 then 0.5 else StepSize(i - 1) / 2.0
  }

  /** The sum of the offsets of rounds `0 .. n-1`. */
  function Radius(n: nat): real {
    if n == 0 then 0.0 else Radius(n - 1) + StepSize(n - 1)
  }

  /** The order in which the two probes of a coordinate run. */
  const Signs: seq<int> := [-1, 1]

  /** The vector `v` with coordinate `j` moved by `d`. */
  function Probe(v: Vec, j: nat, d: real): (p: Vec)
    requires j < |v|
    ensures |p| == |v| && p[j] == v[j] + d
  {
    v[j := v[j] + d]
  }

  /** The loss of the baseline trial, at the zero vector: the target every
      probe is measured against. */
  function Baseline(trial: Vec -> Loss): Loss {
    trial(ZeroVec())
  }

  /** The trial of `v` reports a loss strictly below `best`; a NaN loss never does. */
  predicate Beats(trial: Vec -> Loss, v: Vec, best: Loss) {
    Less(trial(v), best)
  }

  /** The search state: the current exponent vector and every vector tried so far. */
  datatype Trace = Trace(vals: Vec, trials: seq<Vec>)

  /** One pass of the sign loop of coordinate `j`: try a copy of the current
      vector whose coordinate `j` is `startVal + sign * step`, and adopt it
      when its loss is strictly below `best`. */
  function SignStep(trial: Vec -> Loss, best: Loss, j: nat, startVal: real, step: real,
                    sign: int, t: Trace): (r: Trace)
    requires j < |t.vals|
    ensures |r.vals| == |t.vals|
    ensures |r.trials| == |t.trials| + 1
  {
    var cand := t.vals[j := startVal + sign as real * step];
    Trace(if Beats(trial, cand, best) then cand else t.vals, t.trials + [cand])
  }

  /** The passes of the sign loop for `signs`, in order. */
  function SignLoop(trial: Vec -> Loss, best: Loss, j: nat, startVal: real, step: real,
                    signs: seq<int>, t: Trace): (r: Trace)
    requires j < |t.vals|
    ensures |r.vals| == |t.vals|
    ensures |r.trials| == |t.trials| + |signs| && r.trials[..|t.trials|] == t.trials
    decreases |signs|
  {
    if |signs| == 0 then t
    else SignStep(trial, best, j, startVal, step, signs[|signs| - 1],
                  SignLoop(trial, best, j, startVal, step, signs[..|signs| - 1], t))
  }

  // ---------------------------------------------------------------------
  // One coordinate

  /** Reference definition of which vector a coordinate's two probes leave
      in place: the `+` probe when it beats `best`, otherwise the `-` probe
      when it does, otherwise the vector as it was. A tie is not a win. */
  function Adopt(trial: Vec -> Loss, best: Loss, v: Vec, j: nat, step: real): (r: Vec)
    requires j < |v|
    ensures |r| == |v|
    ensures r == v || Beats(trial, r, best)
  {
    if Beats(trial, Probe(v, j, step), best) then Probe(v, j, step)
    else if Beats(trial, Probe(v, j, -step), best) then Probe(v, j, -step)
    else v
  }

  /** One coordinate's two probes in closed form: both probes, built from the
      coordinate's starting value, are recorded as tried, `-` first. */
  function ProbeBoth(trial: Vec -> Loss, best: Loss, j: nat, step: real, t: Trace): (r: Trace)
    requires j < |t.vals|
  {
    Trace(Adopt(trial, best, t.vals, j, step), t.trials + [Probe(t.vals, j, -step), Probe(t.vals, j, step)])
  }

  /** The sign loop over `[-1, 1]` is the two-probe step above. */
  lemma AdvanceParam(trial: Vec -> Loss, best: Loss, j: nat, step: real, t: Trace)
    requires j < |t.vals|
    ensures SignLoop(trial, best, j, t.vals[j], step, Signs, t) == ProbeBoth(trial, best, j, step, t)
  {
    var s := t.vals[j];
    var minus := Probe(t.vals, j, -step);
    var plus := Probe(t.vals, j, step);
    assert Signs[..1] == [-1] && Signs[..1][..0] == [];
    var first := SignStep(trial, best, j, s, step, -1, t);
    assert SignLoop(trial, best, j, s, step, Signs[..1], t) == first;
    assert s + (-1) as real * step == s + -step;
    assert t.vals[j := s + (-1) as real * step] == minus;
    assert first.vals[j := s + 1 as real * step] == plus;
    assert t.trials + [minus] + [plus] == t.trials + [minus, plus];
  }

  /** The body of the coordinate loop: the sign loop of coordinate `j`, run
      from the vector `vals`. */
  method ProbeCoordinate(trial: Vec -> Loss, best: Loss, j: nat, step: real, vals: Vec, trials: seq<Vec>)
    returns (vals': Vec, trials': seq<Vec>)
    requires j < |vals|
    ensures Trace(vals', trials') == ProbeBoth(trial, best, j, step, Trace(vals, trials))
  {
    var startVal := vals[j];
    vals', trials' := vals, trials;
    var s := 0;
    while s < |Signs|
      invariant s <= |Signs| && |vals'| == |vals|
      invariant Trace(vals', trials') == SignLoop(trial, best, j, startVal, step, Signs[..s], Trace(vals, trials))
    {
      assert Signs[..s + 1][..s] == Signs[..s];
      assert SignLoop(trial, best, j, startVal, step, Signs[..s + 1], Trace(vals, trials))
             == SignStep(trial, best, j, startVal, step, Signs[s], Trace(vals', trials'));
      var candidate := vals'[j := startVal + Signs[s] as real * step];
      trials' := trials' + [candidate];
      if Less(trial(candidate), best) {
        vals' := candidate;
      }
      s := s + 1;
    }
    assert Signs[..s] == Signs;
    AdvanceParam(trial, best, j, step, Trace(vals, trials));
  }

  // ---------------------------------------------------------------------
  // The nested loops as one flat sequence of coordinate steps

  /** The (round, coordinate) pair of coordinate step `k` of the flattened
      loops: the coordinate runs through `0 .. Width-1`, then the round advances. */
  function Coord(k: nat): (c: (nat, nat))
    ensures c.1 < Width
  {
    if k == 0 then (0, 0)
    else
      var (i, j) := Coord(k - 1);
      if j + 1 == Width then (i + 1, 0) else (i, j + 1)
  }

  /** The number of coordinate steps before round `i`. */
  function RoundStart(i: nat): nat {
    if i == 0 then 0 else RoundStart(i - 1) + Width
  }

  /** The state before the first round: the zero vector, tried once as the baseline. */
  function Initial(): Trace {
    Trace(ZeroVec(), [ZeroVec()])
  }

  /** Coordinate step `k` of the search. */
  function Advance(trial: Vec -> Loss, best: Loss, k: nat, t: Trace): (r: Trace)
    requires |t.vals| == Width
    ensures |r.vals| == Width
  {
    ProbeBoth(trial, best, Coord(k).1, StepSize(Coord(k).0), t)
  }

  /** Reference definition: the state after the first `k` coordinate steps. */
  function Flat(trial: Vec -> Loss, best: Loss, k: nat, t0: Trace): (r: Trace)
    requires |t0.vals| == Width
    ensures |r.vals| == Width
  {
    if k == 0 then t0 else Advance(trial, best, k - 1, Flat(trial, best, k - 1, t0))
  }

  lemma {:induction false} CoordInRound(i: nat, j: nat)
    requires j < Width
    ensures Coord(RoundStart(i) + j) == (i, j)
    decreases i, j
  {
    if j > 0 {
      CoordInRound(i, j - 1);
    } else if i > 0 {
      CoordInRound(i - 1, Width - 1);
    }
  }

  lemma {:induction false} RoundStartIsProduct(i: nat)
    ensures RoundStart(i) == Width * i
  {
    if i > 0 {
      RoundStartIsProduct(i - 1);
    }
  }

  /** Step `k` is coordinate `k % 6` of round `k / 6`. */
  lemma CoordIsDivMod(k: nat)
    ensures Coord(k) == (k / Width, k % Width)
  {
    var i, j := k / Width, k % Width;
    CoordInRound(i, j);
    RoundStartIsProduct(i);
  }

  /** Reference definition of the search: the state after its first `k`
      coordinate steps, measured against the zero vector's loss. */
  function SearchTrace(trial: Vec -> Loss, k: nat): (t: Trace)
    ensures |t.vals| == Width
  {
    Flat(trial, Baseline(trial), k, Initial())
  }

  /** The vector as it stands before coordinate step `k` of the search. */
  function VectorBefore(trial: Vec -> Loss, k: nat): (v: Vec)
    ensures |v| == Width
  {
    SearchTrace(trial, k).vals
  }

  // ---------------------------------------------------------------------
  // The search loop

  /** Probing coordinate `j` moves it by at most the offset and moves no
      other coordinate. */
  lemma AdoptMovesOneCoordinate(trial: Vec -> Loss, best: Loss, v: Vec, j: nat, step: real)
    requires j < |v| && step >= 0.0
    ensures forall m :: 0 <= m < |v| && m != j ==> Adopt(trial, best, v, j, step)[m] == v[m]
    ensures v[j] - step <= Adopt(trial, best, v, j, step)[j] <= v[j] + step
  {
  }

  /** Probing coordinate `j` in round `i` moves it by at most that round's
      offset and moves no other coordinate, so it keeps the vector within the
      bound of round `i + 1` and the coordinates after `j` within that of
      round `i`. */
  lemma AdoptWidens(trial: Vec -> Loss, best: Loss, v: Vec, i: nat, j: nat)
    requires j < |v| && Within(v, Radius(i + 1)) && WithinFrom(v, j, Radius(i))
    ensures forall m :: 0 <= m < |v| && m != j ==> Adopt(trial, best, v, j, StepSize(i))[m] == v[m]
    ensures v[j] - StepSize(i) <= Adopt(trial, best, v, j, StepSize(i))[j] <= v[j] + StepSize(i)
    ensures Within(Adopt(trial, best, v, j, StepSize(i)), Radius(i + 1))
    ensures WithinFrom(Adopt(trial, best, v, j, StepSize(i)), j + 1, Radius(i))
  {
    RadiusStep(i);
    AdoptMovesOneCoordinate(trial, best, v, j, StepSize(i));
    var w := Adopt(trial, best, v, j, StepSize(i));
    forall m | 0 <= m < |w|
      ensures -Radius(i + 1) <= At(w, m) <= Radius(i + 1)
      ensures j < m ==> -Radius(i) <= At(w, m) <= Radius(i)
    {
      assert At(v, m) == v[m];
    }
  }

  /** The two probes of coordinate `j` in round `i` are flat step `k`. */
  lemma CoordinateStep(trial: Vec -> Loss, best: Loss, i: nat, j: nat, k: nat, t: Trace, t': Trace)
    requires j < Width && k == RoundStart(i) + j
    requires |t.vals| == Width && t == Flat(trial, best, k, Initial())
    requires t' == ProbeBoth(trial, best, j, StepSize(i), t)
    ensures t' == Flat(trial, best, k + 1, Initial())
  {
    CoordInRound(i, j);
  }

  /** The bound of round `i` implies the bounds the coordinate loop of round
      `i` starts from. */
  lemma BoundWidens(v: Vec, i: nat)
    requires Within(v, Radius(i))
    ensures Within(v, Radius(i + 1)) && WithinFrom(v, 0, Radius(i))
  {
    RadiusStep(i);
    forall m | 0 <= m < |v| ensures -Radius(i + 1) <= At(v, m) <= Radius(i + 1) {
      assert -Radius(i) <= At(v, m) <= Radius(i);
    }
  }

  /** Flat step `k`, coordinate `j` of round `i`, keeps the exponents within
      the bound of round `i + 1` and moves none of the coordinates after `j`. */
  lemma BoundStep(trial: Vec -> Loss, best: Loss, i: nat, j: nat, k: nat)
    requires j < Width && k == RoundStart(i) + j
    requires Within(Flat(trial, best, k, Initial()).vals, Radius(i + 1))
    requires WithinFrom(Flat(trial, best, k, Initial()).vals, j, Radius(i))
    ensures Within(Flat(trial, best, k + 1, Initial()).vals, Radius(i + 1))
    ensures WithinFrom(Flat(trial, best, k + 1, Initial()).vals, j + 1, Radius(i))
  {
    CoordInRound(i, j);
    AdoptWidens(trial, best, Flat(trial, best, k, Initial()).vals, i, j);
  }

  /** Within round `i`, after its first `j` coordinate steps, the exponents lie
      within the bound of round `i + 1`, and those not yet probed within the
      bound of round `i`. */
  lemma {:induction false} RoundPrefixBound(trial: Vec -> Loss, best: Loss, i: nat, j: nat)
    requires j <= Width && Within(Flat(trial, best, RoundStart(i), Initial()).vals, Radius(i))
    ensures Within(Flat(trial, best, RoundStart(i) + j, Initial()).vals, Radius(i + 1))
    ensures WithinFrom(Flat(trial, best, RoundStart(i) + j, Initial()).vals, j, Radius(i))
    decreases j
  {
    if j == 0 {
      BoundWidens(Flat(trial, best, RoundStart(i), Initial()).vals, i);
    } else {
      RoundPrefixBound(trial, best, i, j - 1);
      BoundStep(trial, best, i, j - 1, RoundStart(i) + (j - 1));
    }
  }

  /** Before round `i` every exponent lies within `Radius(i)`. */
  lemma {:induction false} SearchBound(trial: Vec -> Loss, best: Loss, i: nat)
    ensures Within(Flat(trial, best, RoundStart(i), Initial()).vals, Radius(i))
  {
    if i == 0 {
      ZeroWithin();
    } else {
      SearchBound(trial, best, i - 1);
      RoundPrefixBound(trial, best, i - 1, Width);
    }
  }

  /** The zero vector lies within the bound before the first round. */
  lemma ZeroWithin()
    ensures Within(ZeroVec(), Radius(0))
  {
    var v := ZeroVec();
    forall m | 0 <= m < |v| ensures -Radius(0) <= At(v, m) <= Radius(0) {
      assert At(v, m) == v[m];
    }
  }

  /** Coordinate `j` of round `i`: one pass of the coordinate loop, which is
      flat step `k`. */
  method CoordinatePass(trial: Vec -> Loss, baseline: Loss, i: nat, j: nat, ghost k: nat, vals: Vec, trials: seq<Vec>)
    returns (vals': Vec, trials': seq<Vec>)
    requires j < Width && k == RoundStart(i) + j
    requires |vals| == Width && Trace(vals, trials) == Flat(trial, baseline, k, Initial())
    ensures |vals'| == Width && Trace(vals', trials') == Flat(trial, baseline, k + 1, Initial())
  {
    vals', trials' := ProbeCoordinate(trial, baseline, j, StepSize(i), vals, trials);
    CoordinateStep(trial, baseline, i, j, k, Trace(vals, trials), Trace(vals', trials'));
  }

  /** Round `i` of the search: the coordinate loop, each coordinate probed
      with that round's offset. From the state before the round it reaches the
      state before the next. */
  method SearchRound(trial: Vec -> Loss, baseline: Loss, i: nat, vals: Vec, trials: seq<Vec>)
    returns (vals': Vec, trials': seq<Vec>)
    requires |vals| == Width && Trace(vals, trials) == Flat(trial, baseline, RoundStart(i), Initial())
    ensures |vals'| == Width && Trace(vals', trials') == Flat(trial, baseline, RoundStart(i + 1), Initial())
  {
    vals', trials' := vals, trials;
    ghost var k := RoundStart(i);
    var j := 0;
    while j < Width
      invariant j <= Width && k == RoundStart(i) + j && |vals'| == Width
      invariant Trace(vals', trials') == Flat(trial, baseline, k, Initial())
    {
      vals', trials' := CoordinatePass(trial, baseline, i, j, k, vals', trials');
      k := k + 1;
      j := j + 1;
    }
    assert k == RoundStart(i + 1);
  }

  /** `main`'s search over `rounds` rounds: the baseline trial at the zero
      vector, then the round loop. It performs exactly the flat sequence of
      coordinate steps, `Width` per round, and every exponent it returns lies
      within `Radius(rounds) < 1`. */
  method Search(trial: Vec -> Loss, rounds: nat) returns (best: Vec, baseline: Loss, trials: seq<Vec>)
    ensures baseline == Baseline(trial)
    ensures Trace(best, trials) == SearchTrace(trial, RoundStart(rounds))
    ensures Within(best, Radius(rounds)) && Radius(rounds) < 1.0
    ensures |trials| == 1 + 2 * (Width * rounds) && trials[0] == ZeroVec()
    ensures best in trials && (best == ZeroVec() || Beats(trial, best, baseline))
  {
    var vals := ZeroVec();
    baseline := trial(vals);
    trials := [vals];
    var i := 0;
    while i < rounds
      invariant i <= rounds && |vals| == Width
      invariant Trace(vals, trials) == Flat(trial, baseline, RoundStart(i), Initial())
    {
      vals, trials := SearchRound(trial, baseline, i, vals, trials);
      i := i + 1;
    }
    best := vals;
    RadiusStep(rounds);
    SearchBound(trial, baseline, rounds);
    SearchTrialCount(trial, rounds);
    SearchAcceptsOnlyImprovements(trial, RoundStart(rounds));
  }

  // ---------------------------------------------------------------------
  // Properties of the reference search

  /** Each coordinate step appends its two probes to the trials. */
  lemma FlatStepTrials(trial: Vec -> Loss, best: Loss, k: nat, t0: Trace)
    requires |t0.vals| == Width
    ensures Flat(trial, best, k + 1, t0).trials
              == Flat(trial, best, k, t0).trials
                 + [Probe(Flat(trial, best, k, t0).vals, Coord(k).1, -StepSize(Coord(k).0)),
                    Probe(Flat(trial, best, k, t0).vals, Coord(k).1, StepSize(Coord(k).0))]
  {
  }

  lemma {:induction false} FlatTrials(trial: Vec -> Loss, best: Loss, k: nat, t0: Trace)
    requires |t0.vals| == Width
    ensures |Flat(trial, best, k, t0).trials| == |t0.trials| + 2 * k
  {
    if k > 0 {
      FlatTrials(trial, best, k - 1, t0);
      FlatStepTrials(trial, best, k - 1, t0);
    }
  }

  /** The first trial is the baseline, the zero vector, and the search runs
      exactly `1 + 2 * 6 * rounds` trials. */
  lemma SearchTrialCount(trial: Vec -> Loss, rounds: nat)
    ensures |SearchTrace(trial, RoundStart(rounds)).trials| == 1 + 2 * (Width * rounds)
    ensures SearchTrace(trial, RoundStart(rounds)).trials[0] == ZeroVec()
  {
    var t := SearchTrace(trial, RoundStart(rounds));
    FlatTrials(trial, Baseline(trial), RoundStart(rounds), Initial());
    RoundStartIsProduct(rounds);
    FlatKeepsEarlier(trial, Baseline(trial), 0, RoundStart(rounds), Initial(), 0);
  }

  /** The two trials of coordinate step `k` (coordinate `Coord(k).1` of round
      `Coord(k).0`) are the vector as it stood before that step with the
      coordinate moved first down, then up, by that round's offset. */
  lemma SearchProbes(trial: Vec -> Loss, n: nat, k: nat)
    requires k < n
    ensures 2 + 2 * k < |SearchTrace(trial, n).trials|
    ensures SearchTrace(trial, n).trials[1 + 2 * k] == Probe(VectorBefore(trial, k), Coord(k).1, -StepSize(Coord(k).0))
    ensures SearchTrace(trial, n).trials[2 + 2 * k] == Probe(VectorBefore(trial, k), Coord(k).1, StepSize(Coord(k).0))
  {
    var best := Baseline(trial);
    FlatTrials(trial, best, k, Initial());
    FlatStepTrials(trial, best, k, Initial());
    FlatKeepsEarlier(trial, best, k + 1, n, Initial(), 1 + 2 * k);
    FlatKeepsEarlier(trial, best, k + 1, n, Initial(), 2 + 2 * k);
  }

  /** Trials are only ever appended: entry `x` of an earlier state's trials
      stays in place in every later state. */
  lemma {:induction false} FlatKeepsEarlier(trial: Vec -> Loss, best: Loss, k: nat, n: nat, t0: Trace, x: nat)
    requires |t0.vals| == Width && k <= n && x < |Flat(trial, best, k, t0).trials|
    ensures x < |Flat(trial, best, n, t0).trials|
    ensures Flat(trial, best, n, t0).trials[x] == Flat(trial, best, k, t0).trials[x]
    decreases n - k
  {
    if k < n {
      FlatKeepsEarlier(trial, best, k, n - 1, t0, x);
      FlatStepTrials(trial, best, n - 1, t0);
    }
  }

  /** Coordinate step `k` in closed form: the vector after it is the `+`
      probe if that beats the baseline, else the `-` probe if that does,
      else unchanged. */
  lemma VectorAfterStep(trial: Vec -> Loss, k: nat)
    ensures VectorBefore(trial, k + 1)
              == Adopt(trial, Baseline(trial), VectorBefore(trial, k), Coord(k).1, StepSize(Coord(k).0))
  {
  }

  /** Coordinate step `k` changes only coordinate `Coord(k).1` of the vector,
      and that by at most the offset of round `Coord(k).0`. */
  lemma SearchStepMovesOneCoordinate(trial: Vec -> Loss, k: nat)
    ensures forall m :: 0 <= m < Width && m != Coord(k).1 ==> VectorBefore(trial, k + 1)[m] == VectorBefore(trial, k)[m]
    ensures VectorBefore(trial, k)[Coord(k).1] - StepSize(Coord(k).0) <= VectorBefore(trial, k + 1)[Coord(k).1]
    ensures VectorBefore(trial, k + 1)[Coord(k).1] <= VectorBefore(trial, k)[Coord(k).1] + StepSize(Coord(k).0)
  {
    VectorAfterStep(trial, k);
    AdoptMovesOneCoordinate(trial, Baseline(trial), VectorBefore(trial, k), Coord(k).1, StepSize(Coord(k).0));
  }

  /** The search keeps a vector it has tried, and one that is either the zero
      vector or strictly better than the baseline. */
  lemma {:induction false} SearchAcceptsOnlyImprovements(trial: Vec -> Loss, k: nat)
    ensures VectorBefore(trial, k) in SearchTrace(trial, k).trials
    ensures VectorBefore(trial, k) == ZeroVec() || Beats(trial, VectorBefore(trial, k), Baseline(trial))
  {
    if k > 0 {
      SearchAcceptsOnlyImprovements(trial, k - 1);
      FlatStepTrials(trial, Baseline(trial), k - 1, Initial());
    }
  }

  /** A search none of whose tried vectors beats the baseline stays at the
      zero vector. */
  lemma NoImprovementKeepsZero(trial: Vec -> Loss, k: nat)
    requires forall x :: 0 <= x < |SearchTrace(trial, k).trials| ==>
               !Beats(trial, SearchTrace(trial, k).trials[x], Baseline(trial))
    ensures VectorBefore(trial, k) == ZeroVec()
  {
    SearchAcceptsOnlyImprovements(trial, k);
  }

  // ---------------------------------------------------------------------
  // The exponents stay inside the explored range

  /** The offset of round `i` is `1 / 2^(i+1)`. */
  lemma {:induction false} StepSizeIsPower(i: nat)
    ensures StepSize(i) * (Pow2(i + 1) as real) == 1.0
  {
    if i > 0 {
      StepSizeIsPower(i - 1);
      assert Pow2(i + 1) as real == 2.0 * (Pow2(i) as real);
    }
  }

  /** What the rounds have not yet used of the unit range is twice the next offset. */
  lemma {:induction false} RadiusGap(n: nat)
    ensures 1.0 - Radius(n) == 2.0 * StepSize(n)
  {
    if n > 0 {
      RadiusGap(n - 1);
    }
  }

  lemma {:induction false} RadiusNonNegative(n: nat)
    ensures Radius(n) >= 0.0
  {
    if n > 0 {
      RadiusNonNegative(n - 1);
    }
  }

  /** After `n` rounds the radius is `1 - 2^(-n)`. */
  lemma RadiusIsPower(n: nat)
    ensures Radius(n) * (Pow2(n) as real) == (Pow2(n) as real) - 1.0
  {
    RadiusGap(n);
    if n > 0 {
      StepSizeIsPower(n - 1);
      assert 2.0 * StepSize(n) == StepSize(n - 1);
    } else {
      assert Radius(n) == 0.0;
    }
  }

  lemma RadiusStep(i: nat)
    ensures 0.0 <= Radius(i) < 1.0
    ensures Radius(i) + StepSize(i) == Radius(i + 1)
  {
    RadiusGap(i);
    RadiusNonNegative(i);
  }

  /** Coordinate `m` of `v`, named so that the bounds below are only
      instantiated where a proof asks for them. */
  function At(v: Vec, m: nat): real
    requires m < |v|
  {
    v[m]
  }

  /** Every coordinate of `v` lies in `[-r, r]`. */
  predicate Within(v: Vec, r: real) {
    forall m :: 0 <= m < |v| ==> -r <= At(v, m) <= r
  }

  /** Every coordinate of `v` from `j` on lies in `[-r, r]`. */
  predicate WithinFrom(v: Vec, j: nat, r: real) {
    forall m :: j <= m < |v| ==> -r <= At(v, m) <= r
  }

  // ---------------------------------------------------------------------
  // Consequence of the fixed baseline

  /** A trial oracle: loss 1 at `[-1/2, 0, ...]`, 1.5 at `[-1/2, -1/2, ...]`, 2 elsewhere. */
  function Example(v: Vec): Loss {
    if |v| >= 2 && v[0] == -0.5 && v[1] == 0.0 then Val(1.0)
    else if |v| >= 2 && v[0] == -0.5 && v[1] == -0.5 then Val(1.5)
    else Val(2.0)
  }

  /** Because every probe is measured against the baseline, the second
      coordinate step adopts a vector whose loss (1.5) is above that of the
      vector it replaces (1.0): the kept vector's loss is not monotone. */
  lemma LaterAdoptionCanBeWorse()
    ensures Less(Example(VectorBefore(Example, 1)), Example(VectorBefore(Example, 2)))
  {
    var z := ZeroVec();
    assert Baseline(Example) == Val(2.0);
    var v1 := z[0 := -0.5];
    assert Probe(z, 0, 0.5) == z[0 := 0.5];
    assert Probe(z, 0, -0.5) == v1;
    assert VectorBefore(Example, 1) == v1;
    var v2 := v1[1 := -0.5];
    assert Probe(v1, 1, 0.5) == v1[1 := 0.5];
    assert Probe(v1, 1, -0.5) == v2;
    assert VectorBefore(Example, 2) == v2;
  }

  // ---------------------------------------------------------------------
  // The search over configurations

  /** A trial: train with the configuration `set_mups` builds from `v`. */
  function TrialOf(cfg: Config, run: Config -> Loss): Vec -> Loss {
    v => run(SetMups(MupParams, v, cfg, cfg.mupExploreRange))
  }

  /** `main`'s search and its final values. The baseline trains the
      configuration as given; the result either is the zero vector or trains
      strictly better than the baseline; the final values are the muP fields
      of the best trial's configuration, each within `2^(+/- explore_ratio)`
      of its configured value. */
  method SearchMups(cfg: Config, run: Config -> Loss) returns (best: Vec, baseline: Loss, finals: seq<Scaled>)
    ensures best == VectorBefore(TrialOf(cfg, run), RoundStart(cfg.mupSearchSteps))
    ensures baseline == run(cfg)
    ensures best == ZeroVec() || Less(run(SetMups(MupParams, best, cfg, cfg.mupExploreRange)), run(cfg))
    ensures |finals| == Width
    ensures forall j :: 0 <= j < Width ==> finals[j] == Get(SetMups(MupParams, best, cfg, cfg.mupExploreRange), MupParams[j])
    ensures cfg.mupExploreRange >= 0.0 ==>
              forall j :: 0 <= j < Width ==>
                && finals[j].base == Get(cfg, MupParams[j]).base
                && Get(cfg, MupParams[j]).log2 - cfg.mupExploreRange <= finals[j].log2
                && finals[j].log2 <= Get(cfg, MupParams[j]).log2 + cfg.mupExploreRange
  {
    var ratio := cfg.mupExploreRange;
    var trial := TrialOf(cfg, run);
    var trials;
    best, baseline, trials := Search(trial, cfg.mupSearchSteps);
    finals := FinalValues(cfg, ratio, best);
    SetMupsZeroIsBase(cfg, ratio);
    SearchAcceptsOnlyImprovements(trial, RoundStart(cfg.mupSearchSteps));
    if ratio >= 0.0 {
      forall m | 0 <= m < Width
        ensures -1.0 <= best[m] <= 1.0
      {
        assert At(best, m) == best[m];
      }
      FinalValuesWithinRange(cfg, ratio, best);
    }
  }
}
