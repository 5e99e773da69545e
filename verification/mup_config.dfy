/** The training configuration as the muP search sees it: the six named
    scaling fields, copy-and-rescale of a configuration by an exponent vector,
    the final absolute values, and the learning rates of the three parameter
    groups. Powers of two are kept symbolic. */
module MupConfig {

  /** The value `base * 2^log2`, kept as a pair so that scaling stays exact. */
  datatype Scaled = Scaled(base: real, log2: real)

  /** Multiplying by `2^e`. */
  function ScaleBy(x: Scaled, e: real): Scaled {
    Scaled(x.base, x.log2 + e)
  }

  /** The six muP fields, in the order the search sweeps them. */
  datatype MupParam = EmbScale | HeadScale | FfnInit | AttnInit | AttnTemp | LrDscale

  const MupParams: seq<MupParam> := [EmbScale, HeadScale, FfnInit, AttnInit, AttnTemp, LrDscale]

  /** Number of muP exponents. */
  const Width: nat := 6

  /** An exponent vector, one entry per muP field in `MupParams` order. */
  type Vec = seq<real>

  function ZeroVec(): (z: Vec)
    ensures |z| == Width && forall j :: 0 <= j < Width ==> z[j] == 0.0
  {
    seq(Width, _ => 0.0)
  }

  /** The configuration fields the model reads: those of the training loop
      (see `TrainLoop.LoopSettings`), the search's own, and the six muP fields. */
  datatype Config = Config(
    numSteps: int,
    batchSize: int,
    seqLength: int,
    reportInterval: int,
    mupExploreRange: real,
    mupSearchSteps: nat,
    mupEmbScale: Scaled,
    mupHeadScale: Scaled,
    mupFfnInit: Scaled,
    mupAttnInit: Scaled,
    mupAttnTemp: Scaled,
    mupLrDscale: Scaled)

  /** `getattr(cfg, name)` for a muP field. */
  function Get(cfg: Config, p: MupParam): Scaled {
    match p
    case EmbScale => cfg.mupEmbScale
    case HeadScale => cfg.mupHeadScale
    case FfnInit => cfg.mupFfnInit
    case AttnInit => cfg.mupAttnInit
    case AttnTemp => cfg.mupAttnTemp
    case LrDscale => cfg.mupLrDscale
  }

  /** The two configurations agree on every field that is not a muP field. */
  predicate SameOutsideMups(a: Config, b: Config) {
    a.(mupEmbScale := b.mupEmbScale, mupHeadScale := b.mupHeadScale, mupFfnInit := b.mupFfnInit,
       mupAttnInit := b.mupAttnInit, mupAttnTemp := b.mupAttnTemp, mupLrDscale := b.mupLrDscale) == b
  }

  /** `setattr(cfg, name, x)` for a muP field. */
  function Set(cfg: Config, p: MupParam, x: Scaled): (r: Config)
    ensures Get(r, p) == x
    ensures forall q :: q != p ==> Get(r, q) == Get(cfg, q)
    ensures SameOutsideMups(r, cfg)
  {
    match p
    case EmbScale => cfg.(mupEmbScale := x)
    case HeadScale => cfg.(mupHeadScale := x)
    case FfnInit => cfg.(mupFfnInit := x)
    case AttnInit => cfg.(mupAttnInit := x)
    case AttnTemp => cfg.(mupAttnTemp := x)
    case LrDscale => cfg.(mupLrDscale := x)
  }

  /** The loop of `set_mups` over `zip(names, exponents)`: every field is set
      from the BASE configuration's value, into the copy being built. */
  function SetMupsFrom(base: Config, ratio: real, ks: seq<MupParam>, vs: seq<real>, acc: Config): (r: Config)
    ensures SameOutsideMups(r, acc)
    decreases |ks|
  {
    if |ks| == 0 || |vs| == 0 then acc
    else SetMupsFrom(base, ratio, ks[1..], vs[1..], Set(acc, ks[0], ScaleBy(Get(base, ks[0]), vs[0] * ratio)))
  }

  /** `set_mups(names, exponents, cfg)`: a copy of `cfg` with each named field
      multiplied by `2^(v * explore_ratio)`. */
  function SetMups(ks: seq<MupParam>, vs: seq<real>, cfg: Config, ratio: real): (r: Config)
    ensures SameOutsideMups(r, cfg)
  {
    SetMupsFrom(cfg, ratio, ks, vs, cfg)
  }

  predicate Distinct(ks: seq<MupParam>) {
    forall a, b :: 0 <= a < b < |ks| ==> ks[a] != ks[b]
  }

  function Min(a: nat, b: nat): nat {
    if a <= b then a else b
  }

  lemma {:induction false} SetMupsFromSpec(base: Config, ratio: real, ks: seq<MupParam>, vs: seq<real>, acc: Config)
    requires Distinct(ks)
    ensures SameOutsideMups(SetMupsFrom(base, ratio, ks, vs, acc), acc)
    ensures forall i :: 0 <= i < Min(|ks|, |vs|) ==>
              Get(SetMupsFrom(base, ratio, ks, vs, acc), ks[i]) == ScaleBy(Get(base, ks[i]), vs[i] * ratio)
    ensures forall q :: q !in ks[..Min(|ks|, |vs|)] ==>
              Get(SetMupsFrom(base, ratio, ks, vs, acc), q) == Get(acc, q)
    decreases |ks|
  {
    if |ks| > 0 && |vs| > 0 {
      var acc' := Set(acc, ks[0], ScaleBy(Get(base, ks[0]), vs[0] * ratio));
      var r := SetMupsFrom(base, ratio, ks, vs, acc);
      assert Distinct(ks[1..]);
      SetMupsFromSpec(base, ratio, ks[1..], vs[1..], acc');
      var n := Min(|ks|, |vs|);
      assert ks[..n] == [ks[0]] + ks[1..][..n - 1];
      forall i | 0 <= i < n
        ensures Get(r, ks[i]) == ScaleBy(Get(base, ks[i]), vs[i] * ratio)
      {
        if i == 0 {
          assert ks[0] !in ks[1..][..n - 1];
        } else {
          assert ks[i] == ks[1..][i - 1];
        }
      }
    }
  }

  lemma MupParamsDistinct()
    ensures Distinct(MupParams)
    ensures |MupParams| == Width
    ensures forall p :: p in MupParams
  {
    forall p
      ensures p in MupParams
    {
      match p
      case EmbScale => assert MupParams[0] == p;
      case HeadScale => assert MupParams[1] == p;
      case FfnInit => assert MupParams[2] == p;
      case AttnInit => assert MupParams[3] == p;
      case AttnTemp => assert MupParams[4] == p;
      case LrDscale => assert MupParams[5] == p;
    }
  }

  /** `set_mups` with the six names: each muP field of the copy is the base
      configuration's value scaled by its own exponent (not compounded with
      other exponents), and every other field is the base's. */
  lemma SetMupsScalesFromBase(vs: Vec, cfg: Config, ratio: real)
    requires |vs| == Width
    ensures SameOutsideMups(SetMups(MupParams, vs, cfg, ratio), cfg)
    ensures forall j :: 0 <= j < Width ==>
              Get(SetMups(MupParams, vs, cfg, ratio), MupParams[j]) == ScaleBy(Get(cfg, MupParams[j]), vs[j] * ratio)
  {
    MupParamsDistinct();
    SetMupsFromSpec(cfg, ratio, MupParams, vs, cfg);
  }

  /** Two configurations that agree outside and on every muP field are equal. */
  lemma ConfigExt(a: Config, b: Config)
    requires SameOutsideMups(a, b)
    requires forall p :: Get(a, p) == Get(b, p)
    ensures a == b
  {
    assert Get(a, EmbScale) == Get(b, EmbScale);
    assert Get(a, HeadScale) == Get(b, HeadScale);
    assert Get(a, FfnInit) == Get(b, FfnInit);
    assert Get(a, AttnInit) == Get(b, AttnInit);
    assert Get(a, AttnTemp) == Get(b, AttnTemp);
    assert Get(a, LrDscale) == Get(b, LrDscale);
  }

  /** The baseline configuration (all exponents zero) is the base configuration. */
  lemma SetMupsZeroIsBase(cfg: Config, ratio: real)
    ensures SetMups(MupParams, ZeroVec(), cfg, ratio) == cfg
  {
    var r := SetMups(MupParams, ZeroVec(), cfg, ratio);
    SetMupsScalesFromBase(ZeroVec(), cfg, ratio);
    forall p
      ensures Get(r, p) == Get(cfg, p)
    {
      MupParamsDistinct();
      var j :| 0 <= j < Width && MupParams[j] == p;
      assert ZeroVec()[j] * ratio == 0.0;
    }
    ConfigExt(r, cfg);
  }

  /** The reported final value of parameter `j`: its base value times `2^(v_j * ratio)`. */
  function FinalValue(cfg: Config, ratio: real, v: Vec, j: nat): Scaled
    requires j < |v| && j < Width
  {
    ScaleBy(Get(cfg, MupParams[j]), v[j] * ratio)
  }

  /** The reported final values, one per muP field: each is the value that
      field takes in the configuration a trial of `v` runs with. */
  function FinalValues(cfg: Config, ratio: real, v: Vec): (r: seq<Scaled>)
    requires |v| == Width
    ensures |r| == Width
    ensures forall j :: 0 <= j < Width ==> r[j] == FinalValue(cfg, ratio, v, j)
    ensures forall j :: 0 <= j < Width ==> r[j] == Get(SetMups(MupParams, v, cfg, ratio), MupParams[j])
  {
    FinalValueIsTrialField(cfg, ratio, v);
    seq(Width, j requires 0 <= j < Width => FinalValue(cfg, ratio, v, j))
  }

  lemma FinalValueIsTrialField(cfg: Config, ratio: real, v: Vec)
    requires |v| == Width
    ensures forall j :: 0 <= j < Width ==> FinalValue(cfg, ratio, v, j) == Get(SetMups(MupParams, v, cfg, ratio), MupParams[j])
  {
    SetMupsScalesFromBase(v, cfg, ratio);
  }

  /** With `|v_j| <= 1` and a non-negative range, each final value lies
      within `2^(+/- explore_ratio)` of its base value. */
  lemma FinalValuesWithinRange(cfg: Config, ratio: real, v: Vec)
    requires |v| == Width && ratio >= 0.0
    requires forall j :: 0 <= j < Width ==> -1.0 <= v[j] <= 1.0
    ensures forall j :: 0 <= j < Width ==>
              && FinalValues(cfg, ratio, v)[j].base == Get(cfg, MupParams[j]).base
              && Get(cfg, MupParams[j]).log2 - ratio <= FinalValues(cfg, ratio, v)[j].log2
              && FinalValues(cfg, ratio, v)[j].log2 <= Get(cfg, MupParams[j]).log2 + ratio
  {
    forall j | 0 <= j < Width
      ensures && FinalValue(cfg, ratio, v, j).base == Get(cfg, MupParams[j]).base
              && Get(cfg, MupParams[j]).log2 - ratio <= FinalValue(cfg, ratio, v, j).log2
              && FinalValue(cfg, ratio, v, j).log2 <= Get(cfg, MupParams[j]).log2 + ratio
    {
      ScaledWithin(ratio, v[j]);
      assert v[j] * ratio <= ratio;
    }
  }

  lemma ScaledWithin(ratio: real, x: real)
    requires ratio >= 0.0 && -1.0 <= x <= 1.0
    ensures -ratio <= x * ratio <= ratio
  {
    assert (1.0 - x) * ratio >= 0.0;
    assert (1.0 + x) * ratio >= 0.0;
  }

  // ---------------------------------------------------------------------
  // Learning rates of the three parameter groups

  /** `x ** n` for an integer exponent. */
  function Power(x: real, n: int): (r: real)
    requires x != 0.0
    ensures r != 0.0
    decreases if n < 0 then -n else n
  {
    if n == 0 then 1.0
    else if n > 0 then x * Power(x, n - 1)
    else Power(x, n + 1) / x
  }

  /** The learning rates given to the optimizer's three groups: biases and
      norms, embeddings, and attention/feed-forward matrices. `sqrtEmb` stands
      for `emb_dim ** 0.5`. */
  function GroupLrs(lr: real, dscale: real, embDim: real, sqrtEmb: real): (r: seq<real>)
    requires dscale != 0.0 && embDim != 0.0 && sqrtEmb != 0.0
    ensures |r| == 3
  {
    [lr / dscale, lr / sqrtEmb, lr * dscale / embDim]
  }

  /** The `initial_lr` written into group `i` on a fresh start:
      `lr / emb_dim ** (i/2) * dscale ** (i-1)`, with `emb_dim ** (i/2)`
      written as `sqrtEmb ** i`. */
  function InitialLr(lr: real, dscale: real, sqrtEmb: real, i: nat): (r: real)
    requires dscale != 0.0 && sqrtEmb != 0.0
    ensures r == 0.0 <==> lr == 0.0
  {
    lr / Power(sqrtEmb, i) * Power(dscale, i - 1)
  }

  /** On every group the override agrees with the configured rate. */
  lemma InitialLrMatchesGroupLr(lr: real, dscale: real, embDim: real, sqrtEmb: real)
    requires sqrtEmb > 0.0 && embDim > 0.0 && sqrtEmb * sqrtEmb == embDim && dscale != 0.0
    ensures forall i :: 0 <= i < 3 ==> InitialLr(lr, dscale, sqrtEmb, i) == GroupLrs(lr, dscale, embDim, sqrtEmb)[i]
  {
    assert Power(dscale, -1) == 1.0 / dscale;
    assert InitialLr(lr, dscale, sqrtEmb, 0) == lr / dscale;
    assert Power(sqrtEmb, 1) == sqrtEmb;
    assert InitialLr(lr, dscale, sqrtEmb, 1) == lr / sqrtEmb;
    assert Power(sqrtEmb, 2) == embDim;
    assert Power(dscale, 1) == dscale;
    assert InitialLr(lr, dscale, sqrtEmb, 2) == lr * dscale / embDim;
  }

  datatype ParamGroup = ParamGroup(lr: real, initialLr: real)

  /** After the checkpoint load: on a fresh start the step counter restarts
      at 0 and every group's `initial_lr` is overwritten; when resuming both
      are kept as loaded. */
  function ApplyResume(isResuming: bool, loadedStart: int, lr: real, dscale: real, sqrtEmb: real,
                       groups: seq<ParamGroup>): (r: (int, seq<ParamGroup>))
    requires dscale != 0.0 && sqrtEmb != 0.0
    ensures |r.1| == |groups|
    ensures forall i :: 0 <= i < |groups| ==> r.1[i].lr == groups[i].lr
  {
    if isResuming then (loadedStart, groups)
    else (0, seq(|groups|, i requires 0 <= i < |groups| =>
                   groups[i].(initialLr := InitialLr(lr, dscale, sqrtEmb, i))))
  }

  /** On a fresh start the step counter restarts at 0 and, whatever the
      checkpoint loaded, each group's `initial_lr` becomes that group's
      configured rate while its `lr` is kept; when resuming nothing changes. */
  lemma FreshStartRestoresGroupLrs(isResuming: bool, loadedStart: int, lr: real, dscale: real,
                                   embDim: real, sqrtEmb: real, groups: seq<ParamGroup>)
    requires sqrtEmb > 0.0 && embDim > 0.0 && sqrtEmb * sqrtEmb == embDim && dscale != 0.0
    requires |groups| == 3
    ensures isResuming ==> ApplyResume(isResuming, loadedStart, lr, dscale, sqrtEmb, groups) == (loadedStart, groups)
    ensures !isResuming ==>
      var (start, gs) := ApplyResume(isResuming, loadedStart, lr, dscale, sqrtEmb, groups);
      && start == 0 && |gs| == 3
      && forall i :: 0 <= i < 3 ==>
           gs[i].lr == groups[i].lr && gs[i].initialLr == GroupLrs(lr, dscale, embDim, sqrtEmb)[i]
  {
    InitialLrMatchesGroupLr(lr, dscale, embDim, sqrtEmb);
  }
}
