/** The pure policy choices of `get_policies` and `get_mixed_precision_policy`:
    which sharding strategy a configured name selects, whether the hardware
    supports bfloat16, and which mixed-precision policy follows. */
module Policies {
  import opened Outcomes

  datatype ShardingStrategy = FullShard | HybridShard | NoShard

  /** The strategy for `cfg.sharding_strategy`; unknown names fall back to full sharding. */
  function ShardingFor(name: string): (s: ShardingStrategy)
    ensures s == NoShard <==> name == "ddp"
    ensures s == HybridShard <==> name == "hsdp"
    ensures s == FullShard <==> name != "ddp" && name != "hsdp"
  {
    if name == "fsdp" then FullShard
    else if name == "hsdp" then HybridShard
    else if name == "ddp" then NoShard
    else FullShard
  }

  datatype Precision = BfSixteen | FpSixteen

  /** The mixed-precision policy: none when mixed precision is off, bfloat16
      when the hardware supports it, float16 otherwise. */
  function MixedPrecisionPolicy(mixedPrecision: bool, bf16Ready: bool): (p: Option<Precision>)
    ensures p.None? <==> !mixedPrecision
    ensures p == Some(BfSixteen) <==> mixedPrecision && bf16Ready
    ensures p == Some(FpSixteen) <==> mixedPrecision && !bf16Ready
  {
    if mixedPrecision then
      if bf16Ready then Some(BfSixteen) else Some(FpSixteen)
    else None
  }

  /** Python's tuple comparison `v >= w` on version numbers. */
  function VersionAtLeast(v: seq<nat>, w: seq<nat>): (r: bool)
    ensures |w| <= |v| && v[..|w|] == w ==> r
    decreases |w|
  {
    if |w| == 0 then true
    else if |v| == 0 then false
    else if v[0] != w[0] then v[0] > w[0]
    else VersionAtLeast(v[1..], w[1..])
  }

  /** Reference definition of lexicographic `v >= w`: after a common prefix of
      length `k`, either `w` has ended or `v` is larger at position `k`. */
  ghost predicate LexGe(v: seq<nat>, w: seq<nat>) {
    exists k :: 0 <= k <= |w| && k <= |v| && v[..k] == w[..k] && (k == |w| || (k < |v| && v[k] > w[k]))
  }

  lemma {:induction false} VersionAtLeastSound(v: seq<nat>, w: seq<nat>)
    requires VersionAtLeast(v, w)
    ensures LexGe(v, w)
    decreases |w|
  {
    if |w| == 0 {
      assert v[..0] == w[..0];
    } else if v[0] != w[0] {
      assert v[..0] == w[..0];
    } else {
      VersionAtLeastSound(v[1..], w[1..]);
      var k :| 0 <= k <= |w[1..]| && k <= |v[1..]| && v[1..][..k] == w[1..][..k]
               && (k == |w[1..]| || (k < |v[1..]| && v[1..][k] > w[1..][k]));
      assert v[..k + 1] == [v[0]] + v[1..][..k];
      assert w[..k + 1] == [w[0]] + w[1..][..k];
    }
  }

  lemma {:induction false} VersionAtLeastComplete(v: seq<nat>, w: seq<nat>)
    requires LexGe(v, w)
    ensures VersionAtLeast(v, w)
    decreases |w|
  {
    var k :| 0 <= k <= |w| && k <= |v| && v[..k] == w[..k] && (k == |w| || (k < |v| && v[k] > w[k]));
    if |w| > 0 && |v| > 0 {
      if k == 0 {
        assert v[0] > w[0];
      } else {
        assert v[0] == v[..k][0] == w[..k][0] == w[0];
        assert v[1..][..k - 1] == v[..k][1..];
        assert w[1..][..k - 1] == w[..k][1..];
        assert LexGe(v[1..], w[1..]) by {
          assert k - 1 == |w[1..]| || (k - 1 < |v[1..]| && v[1..][k - 1] > w[1..][k - 1]);
        }
        VersionAtLeastComplete(v[1..], w[1..]);
      }
    }
  }

  /** `VersionAtLeast` is exactly lexicographic order on version tuples. */
  lemma VersionAtLeastIsLexicographic(v: seq<nat>, w: seq<nat>)
    ensures VersionAtLeast(v, w) <==> LexGe(v, w)
  {
    if VersionAtLeast(v, w) {
      VersionAtLeastSound(v, w);
    }
    if LexGe(v, w) {
      VersionAtLeastComplete(v, w);
    }
  }

  const MinCudaRelease: seq<nat> := [11, 0]
  const MinNcclVersion: seq<nat> := [2, 10]

  /** The bfloat16 support probe, with the runtime queries as inputs: a CUDA
      build (its release tuple), device support, CUDA at least 11.0, NCCL
      available and NCCL at least 2.10. */
  function BfloatSupported(cudaRelease: Option<seq<nat>>, deviceSupportsBf16: bool,
                           ncclAvailable: bool, ncclVersion: seq<nat>): (ok: bool)
    ensures ok <==> && cudaRelease.Some? && deviceSupportsBf16 && ncclAvailable
                    && LexGe(cudaRelease.value, MinCudaRelease) && LexGe(ncclVersion, MinNcclVersion)
  {
    VersionAtLeastIsLexicographic(ncclVersion, MinNcclVersion);
    if cudaRelease.Some? then
      VersionAtLeastIsLexicographic(cudaRelease.value, MinCudaRelease);
      deviceSupportsBf16 && VersionAtLeast(cudaRelease.value, MinCudaRelease)
      && ncclAvailable && VersionAtLeast(ncclVersion, MinNcclVersion)
    else false
  }

  /** A release tuple of `(11,)` compares below `(11, 0)`, so such a build
      does not count as supporting bfloat16. */
  lemma ShortReleaseBelowMinimum()
    ensures !VersionAtLeast([11], MinCudaRelease)
    ensures VersionAtLeast([12, 1], MinCudaRelease)
    ensures !VersionAtLeast([2, 9, 6], MinNcclVersion)
  {
  }
}
