/** The bounded training loop of one trial (`train`), as a left fold over
    global steps. Each global step carries one (loss, grad-norm) observation
    per worker; the forward/backward pass, clipping and the optimizer are
    outside the model and only their outputs are seen. */
module TrainLoop {
  import opened Floats
  import opened Outcomes
  import opened MupConfig

  /** What one worker's step produces: its loss and its clipped gradient norm. */
  datatype StepObs = StepObs(loss: Loss, gnorm: Loss)

  /** The 3-slot statistics vector: summed loss, summed grad norm, step count. */
  datatype Stats = Stats(lossSum: Loss, gnormSum: Loss, count: nat)

  const NoStats := Stats(Val(0.0), Val(0.0), 0)

  function Plus(a: Stats, b: Stats): Stats {
    Stats(Add(a.lossSum, b.lossSum), Add(a.gnormSum, b.gnormSum), a.count + b.count)
  }

  /** One step's contribution to a worker's vector: loss, grad norm and 1. */
  function Contribution(o: StepObs): Stats {
    Stats(o.loss, o.gnorm, 1)
  }

  function Zeros(world: nat): (z: seq<Stats>)
    ensures |z| == world
    ensures forall w :: 0 <= w < world ==> z[w] == NoStats
  {
    seq(world, _ => NoStats)
  }

  /** Every worker adds its own observation to its own vector. */
  function Accumulate(locals: seq<Stats>, obs: seq<StepObs>): (r: seq<Stats>)
    requires |obs| == |locals|
    ensures |r| == |locals|
    ensures forall w :: 0 <= w < |r| ==> r[w] == Plus(locals[w], Contribution(obs[w]))
  {
    seq(|locals|, w requires 0 <= w < |locals| => Plus(locals[w], Contribution(obs[w])))
  }

  /** The blocking sum-reduction across workers, as a pure sum. */
  function AllReduce(xs: seq<Stats>): (s: Stats)
    ensures (forall w :: 0 <= w < |xs| ==> xs[w].count >= 1) ==> s.count >= |xs|
  {
    if |xs| == 0 then NoStats else Plus(xs[0], AllReduce(xs[1..]))
  }

  /** Reference: everything one global step contributes, summed over workers. */
  function StepTotal(obs: seq<StepObs>): Stats {
    if |obs| == 0 then NoStats else Plus(Contribution(obs[0]), StepTotal(obs[1..]))
  }

  /** Reference: the total over a run of consecutive global steps. */
  function WindowTotal(steps: seq<seq<StepObs>>): Stats {
    if |steps| == 0 then NoStats
    else Plus(WindowTotal(steps[..|steps| - 1]), StepTotal(steps[|steps| - 1]))
  }

  /** Workers advance in lockstep: every global step has one observation per worker. */
  ghost predicate Lockstep(world: nat, batches: seq<seq<StepObs>>) {
    forall k :: 0 <= k < |batches| ==> |batches[k]| == world
  }

  /** The fields of the training configuration the loop reads. */
  datatype LoopConfig = LoopConfig(numSteps: int, reportInterval: int, batchSize: int, seqLength: int)

  /** The loop's view of a training configuration. */
  function LoopSettings(cfg: Config): LoopConfig {
    LoopConfig(cfg.numSteps, cfg.reportInterval, cfg.batchSize, cfg.seqLength)
  }

  /** Every trial of the muP search runs the loop with the base
      configuration's step budget, report interval, batch size and sequence
      length: `set_mups` rescales only the muP fields. */
  lemma TrialLoopSettings(ks: seq<MupParam>, vs: seq<real>, cfg: Config, ratio: real)
    ensures LoopSettings(SetMups(ks, vs, cfg, ratio)) == LoopSettings(cfg)
  {
  }

  /** Counters handed over by the checkpointer. */
  datatype Resume = Resume(startStep: int, tokensSeen: int)

  /** What a reporting boundary computes from the reduced vector. */
  datatype Report = Report(idx: int, reduced: Stats, meanLoss: Loss, meanGnorm: Loss, totalTokens: int)

  /** Why the loop stopped consuming batches (Running: it has not stopped).
      Raised: `batch_idx % report_interval` divided by zero. */
  datatype Halt = Running | OverBudget | Diverged | Raised

  datatype LoopState = LoopState(steps: nat, locals: seq<Stats>, reports: seq<Report>, halt: Halt)

  /** The divergence guard only looks at step indices above this one. */
  const WarmupSteps: int := 999
  /** A reported mean loss above this one counts as divergence. */
  const DivergenceLimit: real := 6.0
  /** Returned in place of a NaN loss. */
  const NaNSentinel: real := 100.0

  /** Python's `batch_idx % report_interval == 0`; a zero-remainder test
      agrees for floored and Euclidean remainders. */
  predicate IsBoundary(c: LoopConfig, idx: int)
    requires c.reportInterval != 0
  {
    idx % c.reportInterval == 0
  }

  /** Step `p` of this run (counting from 1) is a reporting boundary. */
  predicate BoundaryAt(c: LoopConfig, rs: Resume, p: int)
    requires c.reportInterval != 0
  {
    IsBoundary(c, rs.startStep + p)
  }

  predicate GuardFires(idx: int, mean: Loss) {
    idx > WarmupSteps && (mean.NaN? || Greater(mean, DivergenceLimit))
  }

  /** How many steps the step budget allows from the resumed position. */
  function Budget(c: LoopConfig, rs: Resume): nat {
    if c.numSteps - rs.startStep > 0 then c.numSteps - rs.startStep else 0
  }

  function MakeReport(c: LoopConfig, rs: Resume, world: nat, idx: int, reduced: Stats): Report
    requires reduced.count > 0
  {
    Report(idx, reduced,
           Mean(reduced.lossSum, reduced.count),
           Mean(reduced.gnormSum, reduced.count),
           rs.tokensSeen + (idx - rs.startStep) * world * c.batchSize * c.seqLength)
  }

  /** One iteration of the loop body for the next batch of the loader. It
      runs at most one step and keeps one statistics vector per worker. */
  function Step(c: LoopConfig, rs: Resume, st: LoopState, obs: seq<StepObs>): (r: LoopState)
    requires |obs| == |st.locals| > 0
    ensures |r.locals| == |st.locals| && r.steps <= st.steps + 1
  {
    if !st.halt.Running? then st
    else
      var idx := rs.startStep + 1 + st.steps;
      if idx > c.numSteps then st.(halt := OverBudget)
      else
        var locals := Accumulate(st.locals, obs);
        if c.reportInterval == 0 then LoopState(st.steps + 1, locals, st.reports, Raised)
        else if IsBoundary(c, idx) then
          var reduced := AllReduce(locals);
          var rep := MakeReport(c, rs, |locals|, idx, reduced);
          var halt := if GuardFires(idx, rep.meanLoss) then Diverged else Running;
          LoopState(st.steps + 1, Zeros(|locals|), st.reports + [rep], halt)
        else
          LoopState(st.steps + 1, locals, st.reports, Running)
  }

  /** The loop run over the batches the loader yields, in order. */
  function Run(c: LoopConfig, rs: Resume, world: nat, batches: seq<seq<StepObs>>): (st: LoopState)
    requires world > 0 && Lockstep(world, batches)
    ensures |st.locals| == world
    decreases |batches|
  {
    if |batches| == 0 then LoopState(0, Zeros(world), [], Running)
    else Step(c, rs, Run(c, rs, world, batches[..|batches| - 1]), batches[|batches| - 1])
  }

  /** Why a trial raises instead of returning a loss. */
  datatype TrainError =
    | NoReportReached     // `train_loss` is still the int -1 and `current_loss` is unbound
    | ZeroReportInterval  // `batch_idx % 0` raises

  function ReturnValue(mean: Loss): real {
    if mean.NaN? then NaNSentinel else mean.r
  }

  /** `train`: the last reported mean loss, with NaN replaced by the sentinel. */
  function Train(c: LoopConfig, rs: Resume, world: nat, batches: seq<seq<StepObs>>): Result<real, TrainError>
    requires world > 0 && Lockstep(world, batches)
  {
    var st := Run(c, rs, world, batches);
    if st.halt.Raised? then Failure(ZeroReportInterval)
    else if |st.reports| == 0 then Failure(NoReportReached)
    else Success(ReturnValue(st.reports[|st.reports| - 1].meanLoss))
  }

  // ---------------------------------------------------------------------
  // Positions of reports inside a run

  /** Number of steps of this run up to and including the report. */
  function Pos(rs: Resume, r: Report): int {
    r.idx - rs.startStep
  }

  /** Where the window of report `m` begins (0, or the previous report's position). */
  function PrevPos(rs: Resume, reports: seq<Report>, m: nat): int
    requires m <= |reports|
  {
    if m == 0 then 0 else Pos(rs, reports[m - 1])
  }

  // ---------------------------------------------------------------------
  // Algebra of the statistics vector

  lemma PlusZero(a: Stats)
    ensures Plus(NoStats, a) == a && Plus(a, NoStats) == a
  {
  }

  lemma PlusShuffle(a: Stats, b: Stats, c: Stats, d: Stats)
    ensures Plus(Plus(a, b), Plus(c, d)) == Plus(Plus(a, c), Plus(b, d))
  {
  }

  /** The reduction of the zeroed vectors is the zero vector. */
  lemma {:induction false} AllReduceZeros(world: nat)
    ensures AllReduce(Zeros(world)) == NoStats
  {
    if world > 0 {
      assert Zeros(world)[1..] == Zeros(world - 1);
      AllReduceZeros(world - 1);
    }
  }

  /** Summing over workers after each adds its step equals adding the step's
      total to the previous sum: the reduction commutes with accumulation. */
  lemma {:induction false} AllReduceAccumulate(locals: seq<Stats>, obs: seq<StepObs>)
    requires |obs| == |locals|
    ensures AllReduce(Accumulate(locals, obs)) == Plus(AllReduce(locals), StepTotal(obs))
  {
    if |locals| == 0 {
      PlusZero(NoStats);
    } else {
      var acc := Accumulate(locals, obs);
      assert acc[1..] == Accumulate(locals[1..], obs[1..]);
      AllReduceAccumulate(locals[1..], obs[1..]);
      PlusShuffle(locals[0], Contribution(obs[0]), AllReduce(locals[1..]), StepTotal(obs[1..]));
    }
  }

  lemma {:induction false} StepTotalCount(obs: seq<StepObs>)
    ensures StepTotal(obs).count == |obs|
  {
    if |obs| > 0 {
      StepTotalCount(obs[1..]);
    }
  }

  /** A window of `n` lockstep global steps holds `world * n` worker steps. */
  lemma {:induction false} WindowTotalCount(world: nat, steps: seq<seq<StepObs>>)
    requires Lockstep(world, steps)
    ensures WindowTotal(steps).count == world * |steps|
  {
    if |steps| > 0 {
      var n := |steps|;
      var init := steps[..n - 1];
      assert Lockstep(world, init) by {
        assert forall k :: 0 <= k < |init| ==> init[k] == steps[k];
      }
      WindowTotalCount(world, init);
      StepTotalCount(steps[n - 1]);
      assert WindowTotal(steps).count == WindowTotal(init).count + StepTotal(steps[n - 1]).count;
      assert |steps[n - 1]| == world;
      MulSucc(world, n - 1);
    }
  }

  lemma MulSucc(a: int, k: int)
    ensures a * (k + 1) == a * k + a
  {
  }

  /** Extending a window by one global step adds that step's total. */
  lemma WindowExtend(b: seq<seq<StepObs>>, lo: nat, hi: nat)
    requires lo <= hi < |b|
    ensures WindowTotal(b[lo..hi + 1]) == Plus(WindowTotal(b[lo..hi]), StepTotal(b[hi]))
  {
    var w := b[lo..hi + 1];
    assert w[..|w| - 1] == b[lo..hi];
  }

  // ---------------------------------------------------------------------
  // Invariants of the fold

  /** Step indices: the run takes at most `max(0, num_steps - start_step)`
      steps and never more than the loader yields; it uses up the whole loader
      while running, and exactly the budget when it stops on the budget. */
  lemma {:induction false} RunSteps(c: LoopConfig, rs: Resume, world: nat, b: seq<seq<StepObs>>)
    requires c.reportInterval != 0 && world > 0 && Lockstep(world, b)
    ensures Run(c, rs, world, b).steps <= |b|
    ensures Run(c, rs, world, b).steps <= Budget(c, rs)
    ensures Run(c, rs, world, b).halt.Running? ==> Run(c, rs, world, b).steps == |b|
    ensures Run(c, rs, world, b).halt.OverBudget? ==> Run(c, rs, world, b).steps == Budget(c, rs)
    ensures !Run(c, rs, world, b).halt.Raised?
  {
    if |b| > 0 {
      assert Lockstep(world, b[..|b| - 1]);
      RunSteps(c, rs, world, b[..|b| - 1]);
    }
  }

  ghost predicate ReportsPlaced(c: LoopConfig, rs: Resume, st: LoopState)
    requires c.reportInterval != 0
  {
    && (forall m :: 0 <= m < |st.reports| ==>
          && 0 < Pos(rs, st.reports[m]) <= st.steps
          && st.reports[m].idx <= c.numSteps
          && IsBoundary(c, st.reports[m].idx))
    && (forall m1, m2 :: 0 <= m1 < m2 < |st.reports| ==> st.reports[m1].idx < st.reports[m2].idx)
    && (forall p :: 0 < p <= st.steps && BoundaryAt(c, rs, p) ==>
          exists m :: 0 <= m < |st.reports| && Pos(rs, st.reports[m]) == p)
  }

  /** Reports occur exactly at the step indices divisible by the report
      interval, within the budget, in increasing order. */
  lemma {:induction false} RunReportsPlaced(c: LoopConfig, rs: Resume, world: nat, b: seq<seq<StepObs>>)
    requires c.reportInterval != 0 && world > 0 && Lockstep(world, b)
    ensures ReportsPlaced(c, rs, Run(c, rs, world, b))
  {
    if |b| > 0 {
      var b' := b[..|b| - 1];
      assert Lockstep(world, b');
      RunReportsPlaced(c, rs, world, b');
      StepKeepsPlaced(c, rs, Run(c, rs, world, b'), b[|b| - 1]);
    }
  }

  lemma StepKeepsPlaced(c: LoopConfig, rs: Resume, st: LoopState, obs: seq<StepObs>)
    requires c.reportInterval != 0 && |obs| == |st.locals| > 0
    requires ReportsPlaced(c, rs, st)
    ensures ReportsPlaced(c, rs, Step(c, rs, st, obs))
  {
    var idx := rs.startStep + 1 + st.steps;
    if st.halt.Running? && idx <= c.numSteps {
      var st' := Step(c, rs, st, obs);
      assert st'.steps == st.steps + 1;
      assert IsBoundary(c, idx) ==> |st'.reports| == |st.reports| + 1 && st'.reports[|st.reports|].idx == idx;
      assert !IsBoundary(c, idx) ==> st'.reports == st.reports;
      assert forall m :: 0 <= m < |st.reports| ==> st'.reports[m] == st.reports[m];
      forall p | 0 < p <= st'.steps && BoundaryAt(c, rs, p)
        ensures exists m :: 0 <= m < |st'.reports| && Pos(rs, st'.reports[m]) == p
      {
        if p <= st.steps {
          var m :| 0 <= m < |st.reports| && Pos(rs, st.reports[m]) == p;
          assert st'.reports[m] == st.reports[m];
        } else {
          assert Pos(rs, st'.reports[|st'.reports| - 1]) == p;
        }
      }
    }
  }

  /** Report `m`'s reduced vector is the total of the steps in its window. */
  ghost predicate WindowOf(rs: Resume, world: nat, b: seq<seq<StepObs>>, reports: seq<Report>, m: nat)
    requires m < |reports|
  {
    && 0 <= PrevPos(rs, reports, m) <= Pos(rs, reports[m]) <= |b|
    && reports[m].reduced == WindowTotal(b[PrevPos(rs, reports, m)..Pos(rs, reports[m])])
    && reports[m].reduced.count == world * (Pos(rs, reports[m]) - PrevPos(rs, reports, m))
  }

  /** The workers' vectors hold the steps since the last report. */
  ghost predicate OpenWindow(rs: Resume, b: seq<seq<StepObs>>, st: LoopState) {
    && 0 <= PrevPos(rs, st.reports, |st.reports|) <= st.steps <= |b|
    && (forall w :: 0 <= w < |st.locals| ==>
          st.locals[w].count == st.steps - PrevPos(rs, st.reports, |st.reports|))
    && AllReduce(st.locals) == WindowTotal(b[PrevPos(rs, st.reports, |st.reports|)..st.steps])
  }

  ghost predicate WindowsMatch(rs: Resume, world: nat, b: seq<seq<StepObs>>, st: LoopState) {
    && (forall m :: 0 <= m < |st.reports| ==> WindowOf(rs, world, b, st.reports, m))
    && OpenWindow(rs, b, st)
  }

  /** A state that matches a prefix of the batches matches the whole sequence. */
  lemma WindowsMatchExtend(rs: Resume, world: nat, b: seq<seq<StepObs>>, n: nat, st: LoopState)
    requires n <= |b|
    requires WindowsMatch(rs, world, b[..n], st)
    ensures WindowsMatch(rs, world, b, st)
  {
    forall m | 0 <= m < |st.reports|
      ensures WindowOf(rs, world, b, st.reports, m)
    {
      assert WindowOf(rs, world, b[..n], st.reports, m);
      assert b[..n][PrevPos(rs, st.reports, m)..Pos(rs, st.reports[m])]
          == b[PrevPos(rs, st.reports, m)..Pos(rs, st.reports[m])];
    }
    var lo := PrevPos(rs, st.reports, |st.reports|);
    assert b[..n][lo..st.steps] == b[lo..st.steps];
  }

  /** Appending a report whose own window matches keeps the earlier ones matching. */
  lemma AppendWindow(rs: Resume, world: nat, b: seq<seq<StepObs>>, reports: seq<Report>, rep: Report)
    requires forall m :: 0 <= m < |reports| ==> WindowOf(rs, world, b, reports, m)
    requires WindowOf(rs, world, b, reports + [rep], |reports|)
    ensures forall m :: 0 <= m < |reports| + 1 ==> WindowOf(rs, world, b, reports + [rep], m)
  {
    var all := reports + [rep];
    forall m | 0 <= m < |reports|
      ensures WindowOf(rs, world, b, all, m)
    {
      assert WindowOf(rs, world, b, reports, m);
      assert all[m] == reports[m];
      if m > 0 {
        assert all[m - 1] == reports[m - 1];
      }
    }
  }

  /** A step that reaches a reporting boundary closes the current window. */
  lemma WindowsMatchReport(c: LoopConfig, rs: Resume, world: nat, b: seq<seq<StepObs>>, st: LoopState)
    requires c.reportInterval != 0 && world > 0 && Lockstep(world, b) && |b| > 0
    requires |st.locals| == world && st.halt.Running? && st.steps == |b| - 1
    requires rs.startStep + 1 + st.steps <= c.numSteps && IsBoundary(c, rs.startStep + 1 + st.steps)
    requires WindowsMatch(rs, world, b, st)
    ensures WindowsMatch(rs, world, b, Step(c, rs, st, b[|b| - 1]))
  {
    var n := |b| - 1;
    var st' := Step(c, rs, st, b[n]);
    var reduced := AllReduce(Accumulate(st.locals, b[n]));
    var rep := MakeReport(c, rs, world, rs.startStep + 1 + n, reduced);
    assert st'.reports == st.reports + [rep] && st'.steps == n + 1 && st'.locals == Zeros(world);
    CloseWindow(c, rs, world, b, st, rep, st');
  }

  /** The reduction at a boundary is the total of the window it closes. */
  lemma ClosedWindowTotal(world: nat, b: seq<seq<StepObs>>, locals: seq<Stats>, lo: nat)
    requires Lockstep(world, b) && lo < |b| && |locals| == world
    requires AllReduce(locals) == WindowTotal(b[lo..|b| - 1])
    ensures AllReduce(Accumulate(locals, b[|b| - 1])) == WindowTotal(b[lo..|b|])
    ensures AllReduce(Accumulate(locals, b[|b| - 1])).count == world * (|b| - lo)
  {
    AllReduceAccumulate(locals, b[|b| - 1]);
    WindowExtendLast(b, lo);
    SliceCount(world, b, lo);
  }

  /** The window up to the end of `b` is the one before the last step plus that step. */
  lemma WindowExtendLast(b: seq<seq<StepObs>>, lo: nat)
    requires lo < |b|
    ensures WindowTotal(b[lo..|b|]) == Plus(WindowTotal(b[lo..|b| - 1]), StepTotal(b[|b| - 1]))
  {
    WindowExtend(b, lo, |b| - 1);
  }

  /** A window of lockstep steps counts one per worker and step. */
  lemma SliceCount(world: nat, b: seq<seq<StepObs>>, lo: nat)
    requires Lockstep(world, b) && lo <= |b|
    ensures WindowTotal(b[lo..|b|]).count == world * (|b| - lo)
  {
    var w := b[lo..|b|];
    forall k | 0 <= k < |w|
      ensures |w[k]| == world
    {
      assert w[k] == b[lo + k];
    }
    WindowTotalCount(world, w);
  }

  lemma CloseWindow(c: LoopConfig, rs: Resume, world: nat, b: seq<seq<StepObs>>, st: LoopState, rep: Report, st': LoopState)
    requires world > 0 && Lockstep(world, b) && |b| > 0
    requires |st.locals| == world && st.steps == |b| - 1
    requires rep.idx == rs.startStep + |b| && rep.reduced == AllReduce(Accumulate(st.locals, b[|b| - 1]))
    requires st'.reports == st.reports + [rep] && st'.steps == |b| && st'.locals == Zeros(world)
    requires WindowsMatch(rs, world, b, st)
    ensures WindowsMatch(rs, world, b, st')
  {
    var n := |b| - 1;
    var lo := PrevPos(rs, st.reports, |st.reports|);
    ClosedWindowTotal(world, b, st.locals, lo);
    assert WindowOf(rs, world, b, st'.reports, |st.reports|) by {
      assert st'.reports[|st.reports|] == rep;
      if |st.reports| > 0 {
        assert st'.reports[|st.reports| - 1] == st.reports[|st.reports| - 1];
      }
    }
    AppendWindow(rs, world, b, st.reports, rep);
    assert PrevPos(rs, st'.reports, |st'.reports|) == n + 1 by {
      assert st'.reports[|st'.reports| - 1] == rep;
    }
    FreshWindow(rs, world, b, st');
  }

  /** Right after a report the workers' vectors are zero and the window is empty. */
  lemma FreshWindow(rs: Resume, world: nat, b: seq<seq<StepObs>>, st: LoopState)
    requires st.locals == Zeros(world) && st.steps <= |b|
    requires PrevPos(rs, st.reports, |st.reports|) == st.steps
    ensures OpenWindow(rs, b, st)
  {
    EmptyWindow(b, st.steps);
    AllReduceZeros(world);
  }

  lemma EmptyWindow(b: seq<seq<StepObs>>, k: nat)
    requires k <= |b|
    ensures WindowTotal(b[k..k]) == NoStats
  {
    assert b[k..k] == [];
  }

  /** A step between boundaries extends the current window by one step. */
  lemma WindowsMatchAccumulate(c: LoopConfig, rs: Resume, world: nat, b: seq<seq<StepObs>>, st: LoopState)
    requires c.reportInterval != 0 && world > 0 && Lockstep(world, b) && |b| > 0
    requires |st.locals| == world && st.halt.Running? && st.steps == |b| - 1
    requires rs.startStep + 1 + st.steps <= c.numSteps && !IsBoundary(c, rs.startStep + 1 + st.steps)
    requires WindowsMatch(rs, world, b, st)
    ensures WindowsMatch(rs, world, b, Step(c, rs, st, b[|b| - 1]))
  {
    var n := |b| - 1;
    StepAccumulates(c, rs, st, b[n]);
    OpenWindowAccumulate(rs, b, st);
  }

  /** Between boundaries and within budget, a step only accumulates. */
  lemma StepAccumulates(c: LoopConfig, rs: Resume, st: LoopState, obs: seq<StepObs>)
    requires |obs| == |st.locals| > 0 && st.halt.Running? && c.reportInterval != 0
    requires rs.startStep + 1 + st.steps <= c.numSteps && !IsBoundary(c, rs.startStep + 1 + st.steps)
    ensures Step(c, rs, st, obs) == LoopState(st.steps + 1, Accumulate(st.locals, obs), st.reports, Running)
  {
  }

  /** Accumulating the next batch extends the open window by that batch. */
  lemma OpenWindowAccumulate(rs: Resume, b: seq<seq<StepObs>>, st: LoopState)
    requires |b| > 0 && st.steps == |b| - 1 && |b[|b| - 1]| == |st.locals|
    requires OpenWindow(rs, b, st)
    ensures OpenWindow(rs, b, LoopState(st.steps + 1, Accumulate(st.locals, b[|b| - 1]), st.reports, Running))
  {
    var n := |b| - 1;
    AllReduceAccumulate(st.locals, b[n]);
    WindowExtend(b, PrevPos(rs, st.reports, |st.reports|), n);
  }

  /** Each report's reduced vector is the total of exactly the global steps
      since the previous report, and its count is the world size times the
      number of those steps; between reports every worker's local count is
      the number of steps since the last report. */
  lemma {:induction false} RunWindows(c: LoopConfig, rs: Resume, world: nat, b: seq<seq<StepObs>>)
    requires c.reportInterval != 0 && world > 0 && Lockstep(world, b)
    ensures WindowsMatch(rs, world, b, Run(c, rs, world, b))
  {
    if |b| == 0 {
      AllReduceZeros(world);
    } else {
      var n := |b| - 1;
      var b' := b[..n];
      assert Lockstep(world, b');
      RunWindows(c, rs, world, b');
      RunSteps(c, rs, world, b');
      var st := Run(c, rs, world, b');
      WindowsMatchExtend(rs, world, b, n, st);
      WindowsMatchStep(c, rs, world, b, st);
    }
  }

  /** One iteration of the loop body keeps the windows matching the batches. */
  lemma WindowsMatchStep(c: LoopConfig, rs: Resume, world: nat, b: seq<seq<StepObs>>, st: LoopState)
    requires c.reportInterval != 0 && world > 0 && Lockstep(world, b) && |b| > 0
    requires |st.locals| == world && (st.halt.Running? ==> st.steps == |b| - 1)
    requires WindowsMatch(rs, world, b, st)
    ensures WindowsMatch(rs, world, b, Step(c, rs, st, b[|b| - 1]))
  {
    if st.halt.Running? && rs.startStep + 1 + st.steps <= c.numSteps {
      if IsBoundary(c, rs.startStep + 1 + st.steps) {
        WindowsMatchReport(c, rs, world, b, st);
      } else {
        WindowsMatchAccumulate(c, rs, world, b, st);
      }
    }
  }

  ghost predicate ReportValues(c: LoopConfig, rs: Resume, world: nat, st: LoopState) {
    forall m :: 0 <= m < |st.reports| ==>
      && st.reports[m].reduced.count > 0
      && st.reports[m].meanLoss == Mean(st.reports[m].reduced.lossSum, st.reports[m].reduced.count)
      && st.reports[m].meanGnorm == Mean(st.reports[m].reduced.gnormSum, st.reports[m].reduced.count)
      && st.reports[m].totalTokens
         == rs.tokensSeen + Pos(rs, st.reports[m]) * world * c.batchSize * c.seqLength
  }

  /** Every report divides the reduced loss and grad-norm sums by the reduced
      count, and counts `tokens_seen + (batch_idx - start_step) * world_size *
      batch_size * seq_length` tokens. */
  lemma {:induction false} RunReportValues(c: LoopConfig, rs: Resume, world: nat, b: seq<seq<StepObs>>)
    requires c.reportInterval != 0 && world > 0 && Lockstep(world, b)
    ensures ReportValues(c, rs, world, Run(c, rs, world, b))
  {
    if |b| > 0 {
      var b' := b[..|b| - 1];
      assert Lockstep(world, b');
      RunReportValues(c, rs, world, b');
      ReportValuesStep(c, rs, world, Run(c, rs, world, b'), b[|b| - 1]);
    }
  }

  /** One iteration of the loop body keeps every report's values consistent. */
  lemma ReportValuesStep(c: LoopConfig, rs: Resume, world: nat, st: LoopState, obs: seq<StepObs>)
    requires |obs| == |st.locals| == world > 0
    requires ReportValues(c, rs, world, st)
    ensures ReportValues(c, rs, world, Step(c, rs, st, obs))
  {
    var st' := Step(c, rs, st, obs);
    forall m | 0 <= m < |st.reports|
      ensures st'.reports[m] == st.reports[m]
    {
    }
  }

  ghost predicate GuardRespected(rs: Resume, st: LoopState) {
    && (st.halt.Diverged? <==>
          |st.reports| > 0
          && GuardFires(st.reports[|st.reports| - 1].idx, st.reports[|st.reports| - 1].meanLoss))
    && (st.halt.Diverged? ==> st.steps == PrevPos(rs, st.reports, |st.reports|))
    && (forall m :: 0 <= m < |st.reports| - 1 ==>
          !GuardFires(st.reports[m].idx, st.reports[m].meanLoss))
  }

  /** The loop stops on divergence exactly when the latest report is past the
      warm-up and its mean loss is NaN or above the limit; no step runs after
      that report, and no earlier report met the condition. */
  lemma {:induction false} RunGuard(c: LoopConfig, rs: Resume, world: nat, b: seq<seq<StepObs>>)
    requires c.reportInterval != 0 && world > 0 && Lockstep(world, b)
    ensures GuardRespected(rs, Run(c, rs, world, b))
  {
    if |b| > 0 {
      var b' := b[..|b| - 1];
      assert Lockstep(world, b');
      RunGuard(c, rs, world, b');
      var st := Run(c, rs, world, b');
      var st' := Run(c, rs, world, b);
      forall m | 0 <= m < |st.reports|
        ensures st'.reports[m] == st.reports[m]
      {
      }
    }
  }

  /** With positive world size, batch size and sequence length, the token
      count strictly increases from one report to the next. */
  lemma TokensIncrease(c: LoopConfig, rs: Resume, world: nat, b: seq<seq<StepObs>>, m1: nat, m2: nat)
    requires c.reportInterval != 0 && world > 0 && Lockstep(world, b)
    requires c.batchSize > 0 && c.seqLength > 0
    requires m1 < m2 < |Run(c, rs, world, b).reports|
    ensures Run(c, rs, world, b).reports[m1].totalTokens < Run(c, rs, world, b).reports[m2].totalTokens
  {
    RunReportsPlaced(c, rs, world, b);
    RunReportValues(c, rs, world, b);
    var st := Run(c, rs, world, b);
    ProductGrows(Pos(rs, st.reports[m1]), Pos(rs, st.reports[m2]), world, c.batchSize, c.seqLength);
  }

  lemma ProductGrows(p1: int, p2: int, w: int, x: int, y: int)
    requires p1 < p2 && w > 0 && x > 0 && y > 0
    ensures p1 * w * x * y < p2 * w * x * y
  {
    var k := w * x * y;
    assert k > 0 by {
      assert w * x > 0;
    }
    assert p1 * w * x * y == p1 * k;
    assert p2 * w * x * y == p2 * k;
    assert p2 * k - p1 * k == (p2 - p1) * k;
  }

  /** Reports of a prefix of the loader's batches are a prefix of the full
      run's reports; the full run's later reports lie beyond the prefix. */
  lemma {:induction false} RunPrefixReports(c: LoopConfig, rs: Resume, world: nat, b: seq<seq<StepObs>>, n: nat)
    requires c.reportInterval != 0 && world > 0 && Lockstep(world, b)
    requires n <= |b|
    ensures Lockstep(world, b[..n])
    ensures |Run(c, rs, world, b[..n]).reports| <= |Run(c, rs, world, b).reports|
    ensures Run(c, rs, world, b[..n]).reports
         == Run(c, rs, world, b).reports[..|Run(c, rs, world, b[..n]).reports|]
    ensures forall m :: |Run(c, rs, world, b[..n]).reports| <= m < |Run(c, rs, world, b).reports| ==>
              Pos(rs, Run(c, rs, world, b).reports[m]) > n
  {
    if n == |b| {
      assert b[..n] == b;
    } else {
      var b' := b[..|b| - 1];
      assert Lockstep(world, b');
      assert b'[..n] == b[..n];
      RunPrefixReports(c, rs, world, b', n);
      RunSteps(c, rs, world, b');
    }
  }

  /** `train` raises exactly when no report was reached; otherwise it returns
      the mean loss over the last report's window: the summed losses of the
      steps since the previous report, over all workers, divided by the number
      of worker steps in it, with NaN replaced by 100 and any other value (a
      finite diverged one included) unchanged. */
  lemma TrainResult(c: LoopConfig, rs: Resume, world: nat, b: seq<seq<StepObs>>)
    requires c.reportInterval != 0 && world > 0 && Lockstep(world, b)
    ensures |Run(c, rs, world, b).reports| == 0 <==> Train(c, rs, world, b) == Failure(NoReportReached)
    ensures var reports := Run(c, rs, world, b).reports;
      |reports| > 0 ==>
        var lo := PrevPos(rs, reports, |reports| - 1);
        var hi := Pos(rs, reports[|reports| - 1]);
        && 0 <= lo < hi <= |b|
        && WindowTotal(b[lo..hi]).count == world * (hi - lo) && WindowTotal(b[lo..hi]).count > 0
        && Train(c, rs, world, b)
           == Success(ReturnValue(Mean(WindowTotal(b[lo..hi]).lossSum, WindowTotal(b[lo..hi]).count)))
  {
    RunSteps(c, rs, world, b);
    if |Run(c, rs, world, b).reports| > 0 {
      LastWindowMean(c, rs, world, b);
    }
  }

  /** The last report's mean loss is the mean over its window. */
  lemma LastWindowMean(c: LoopConfig, rs: Resume, world: nat, b: seq<seq<StepObs>>)
    requires c.reportInterval != 0 && world > 0 && Lockstep(world, b)
    requires |Run(c, rs, world, b).reports| > 0
    ensures var reports := Run(c, rs, world, b).reports;
      var lo := PrevPos(rs, reports, |reports| - 1);
      var hi := Pos(rs, reports[|reports| - 1]);
      && 0 <= lo < hi <= |b|
      && WindowTotal(b[lo..hi]).count == world * (hi - lo) && WindowTotal(b[lo..hi]).count > 0
      && reports[|reports| - 1].meanLoss == Mean(WindowTotal(b[lo..hi]).lossSum, WindowTotal(b[lo..hi]).count)
  {
    var reports := Run(c, rs, world, b).reports;
    var m := |reports| - 1;
    LastWindow(c, rs, world, b);
    LastReportValues(c, rs, world, b);
    PositiveFactor(world, Pos(rs, reports[m]) - PrevPos(rs, reports, m));
  }

  /** The last report's reduced vector is the total of its window. */
  lemma LastWindow(c: LoopConfig, rs: Resume, world: nat, b: seq<seq<StepObs>>)
    requires c.reportInterval != 0 && world > 0 && Lockstep(world, b)
    requires |Run(c, rs, world, b).reports| > 0
    ensures var reports := Run(c, rs, world, b).reports;
      WindowOf(rs, world, b, reports, |reports| - 1)
  {
    RunWindows(c, rs, world, b);
  }

  /** The last report's mean loss divides its reduced loss by its positive reduced count. */
  lemma LastReportValues(c: LoopConfig, rs: Resume, world: nat, b: seq<seq<StepObs>>)
    requires c.reportInterval != 0 && world > 0 && Lockstep(world, b)
    requires |Run(c, rs, world, b).reports| > 0
    ensures var r := Run(c, rs, world, b).reports[|Run(c, rs, world, b).reports| - 1];
      r.reduced.count > 0 && r.meanLoss == Mean(r.reduced.lossSum, r.reduced.count)
  {
    RunReportValues(c, rs, world, b);
  }

  lemma PositiveFactor(a: int, n: int)
    requires a > 0 && a * n > 0
    ensures n > 0
  {
  }

  /** Steps after the last report, in a partial window, do not affect the
      returned loss: the run cut at the last report returns the same. */
  lemma TrainIgnoresPartialWindow(c: LoopConfig, rs: Resume, world: nat, b: seq<seq<StepObs>>)
    requires c.reportInterval != 0 && world > 0 && Lockstep(world, b)
    requires |Run(c, rs, world, b).reports| > 0
    ensures var reports := Run(c, rs, world, b).reports;
      && 0 < Pos(rs, reports[|reports| - 1]) <= |b|
      && Lockstep(world, b[..Pos(rs, reports[|reports| - 1])])
      && Train(c, rs, world, b[..Pos(rs, reports[|reports| - 1])]) == Train(c, rs, world, b)
  {
    var full := Run(c, rs, world, b).reports;
    LastReportWithinRun(c, rs, world, b);
    var last := Pos(rs, full[|full| - 1]);
    RunPrefixReports(c, rs, world, b, last);
    var part := Run(c, rs, world, b[..last]).reports;
    RunSteps(c, rs, world, b);
    RunSteps(c, rs, world, b[..last]);
    assert |part| == |full| by {
      if |part| < |full| {
        assert false;
      }
    }
    assert part == full;
  }

  lemma LastReportWithinRun(c: LoopConfig, rs: Resume, world: nat, b: seq<seq<StepObs>>)
    requires c.reportInterval != 0 && world > 0 && Lockstep(world, b)
    requires |Run(c, rs, world, b).reports| > 0
    ensures 0 < Pos(rs, Run(c, rs, world, b).reports[|Run(c, rs, world, b).reports| - 1]) <= |b|
  {
    RunReportsPlaced(c, rs, world, b);
    RunSteps(c, rs, world, b);
  }

  /** With no report interval the loop runs its first step within budget,
      then raises on the modulo and never reports; without a step to run it
      never reaches a report. */
  lemma {:induction false} TrainZeroInterval(c: LoopConfig, rs: Resume, world: nat, b: seq<seq<StepObs>>)
    requires c.reportInterval == 0 && world > 0 && Lockstep(world, b)
    ensures Run(c, rs, world, b).reports == []
    ensures Run(c, rs, world, b).steps == if |b| > 0 && rs.startStep < c.numSteps then 1 else 0
    ensures AllReduce(Run(c, rs, world, b).locals)
            == if |b| > 0 && rs.startStep < c.numSteps then StepTotal(b[0]) else NoStats
    ensures |b| > 0 ==> !Run(c, rs, world, b).halt.Running?
    ensures Train(c, rs, world, b).Failure?
    ensures Train(c, rs, world, b) == Failure(ZeroReportInterval) <==> |b| > 0 && rs.startStep < c.numSteps
  {
    AllReduceZeros(world);
    if |b| > 0 {
      var prefix := b[..|b| - 1];
      assert Lockstep(world, prefix);
      TrainZeroInterval(c, rs, world, prefix);
      if |prefix| == 0 {
        AllReduceAccumulate(Zeros(world), b[0]);
        PlusZero(StepTotal(b[0]));
      } else {
        assert prefix[0] == b[0];
      }
    }
  }
}
