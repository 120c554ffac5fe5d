/** Hardware tier classification (hardware.rs:75-119): a pure function of
    the total RAM in MB and the GPU found, and the VRAM estimate used for
    Apple Silicon. Sizes are `u64` in the source; none of the arithmetic
    here can overflow for sizes below 2^64 bytes. */
module Hardware {
  import opened Wrappers

  datatype GpuInfo = GpuInfo(name: string, vendor: string, vramMb: nat, computeCapable: bool)

  const MIB: nat := 1024 * 1024
  const GIB: nat := 1024 * 1024 * 1024

  /** A GPU that can compute and has at least 8 GiB of VRAM. */
  predicate PromotesToWorkstation(gpu: Option<GpuInfo>) {
    gpu.Some? && gpu.value.computeCapable && gpu.value.vramMb >= 8192
  }

  /** The four tiers, from lowest to highest. */
  const TIERS: seq<string> := ["constrained", "standard", "performance", "workstation"]

  /** `classify_tier`: RAM is first rounded down to whole GB. In MB the
      thresholds are 8192, 16384 and 32768; a promoting GPU makes any
      machine a workstation, and no other GPU makes a difference. */
  function ClassifyTier(totalRamMb: nat, gpu: Option<GpuInfo>): (tier: string)
    ensures tier in TIERS
    ensures tier == "workstation" <==> totalRamMb >= 32768 || PromotesToWorkstation(gpu)
    ensures tier == "performance" <==> !PromotesToWorkstation(gpu) && 16384 <= totalRamMb < 32768
    ensures tier == "standard" <==> !PromotesToWorkstation(gpu) && 8192 <= totalRamMb < 16384
    ensures tier == "constrained" <==> !PromotesToWorkstation(gpu) && totalRamMb < 8192
  {
    var ramGb := totalRamMb / 1024;
    if ramGb >= 32 || PromotesToWorkstation(gpu) then "workstation"
    else if ramGb >= 16 then "performance"
    else if ramGb >= 8 then "standard"
    else "constrained"
  }

  /** The position of a tier in TIERS (its rank, 0 for constrained). */
  function Rank(tier: string): nat {
    if tier == "workstation" then 3
    else if tier == "performance" then 2
    else if tier == "standard" then 1
    else 0
  }

  /** More RAM never gives a lower tier. */
  lemma MoreRamNeverLowersTier(ram1: nat, ram2: nat, gpu: Option<GpuInfo>)
    requires ram1 <= ram2
    ensures Rank(ClassifyTier(ram1, gpu)) <= Rank(ClassifyTier(ram2, gpu))
  {
  }

  /** A GPU can only raise the tier, and only a promoting one changes it. */
  lemma GpuOnlyPromotes(ram: nat, gpu: Option<GpuInfo>)
    ensures Rank(ClassifyTier(ram, None)) <= Rank(ClassifyTier(ram, gpu))
    ensures !PromotesToWorkstation(gpu) ==> ClassifyTier(ram, gpu) == ClassifyTier(ram, None)
  {
  }

  /** The boundary cases of hardware.rs:125-158. */
  lemma TierExamples()
    ensures ClassifyTier(4096, None) == "constrained" && ClassifyTier(6144, None) == "constrained"
    ensures ClassifyTier(8192, None) == "standard" && ClassifyTier(12288, None) == "standard"
    ensures ClassifyTier(16384, None) == "performance" && ClassifyTier(24576, None) == "performance"
    ensures ClassifyTier(32768, None) == "workstation" && ClassifyTier(65536, None) == "workstation"
    ensures ClassifyTier(16384, Some(GpuInfo("RTX 4070", "nvidia", 12288, true))) == "workstation"
  {
  }

  /** The Apple Silicon estimate of `detect_gpu`: whole GiB of RAM, times
      1024, times 3, divided by 4. The division is exact, so the estimate
      is exactly three quarters of the whole GiB, in MB: 768 MB per GiB. */
  function AppleSiliconVramMb(totalRamBytes: nat): (vramMb: nat)
    ensures vramMb == 768 * (totalRamBytes / GIB)
  {
    var totalRamGb := totalRamBytes / GIB;
    assert totalRamGb * 1024 * 3 == 4 * (768 * totalRamGb);
    (totalRamGb * 1024 * 3) / 4
  }

  /** The GPU `detect_gpu` reports on Apple Silicon: an Apple GPU that
      can compute, whose memory is at most three quarters of the RAM and
      short of it by less than three quarters of one GiB (768 MB). */
  function AppleSiliconGpu(totalRamBytes: nat): (gpu: GpuInfo)
    ensures gpu.vendor == "apple" && gpu.computeCapable
    ensures 4 * gpu.vramMb <= 3 * (totalRamBytes / MIB) < 4 * gpu.vramMb + 3 * 1024
  {
    WholeGib(totalRamBytes);
    GpuInfo("Apple Silicon (Metal)", "apple", AppleSiliconVramMb(totalRamBytes), true)
  }

  /** On Apple Silicon the tier follows from the RAM alone: workstation
      from 11 GiB up (the estimate then reaches 8192 MB), standard from
      8 GiB, constrained below; the performance tier is never chosen. */
  lemma AppleSiliconTier(totalRamBytes: nat)
    ensures var tier := ClassifyTier(totalRamBytes / MIB, Some(AppleSiliconGpu(totalRamBytes)));
            && (tier == "workstation" <==> totalRamBytes >= 11 * GIB)
            && (tier == "standard" <==> 8 * GIB <= totalRamBytes < 11 * GIB)
            && (tier == "constrained" <==> totalRamBytes < 8 * GIB)
            && tier != "performance"
  {
    var gb := totalRamBytes / GIB;
    var mb := totalRamBytes / MIB;
    assert mb / 1024 == gb by {
      WholeGib(totalRamBytes);
    }
    assert AppleSiliconVramMb(totalRamBytes) == 768 * gb;
    assert gb >= 11 <==> totalRamBytes >= 11 * GIB;
    assert gb >= 8 <==> totalRamBytes >= 8 * GIB;
    assert mb >= 8192 <==> gb >= 8;
    assert mb >= 16384 <==> gb >= 16;
  }

  /** Whole MiB of a byte count, divided by 1024, are its whole GiB. */
  lemma WholeGib(bytes: nat)
    ensures bytes / MIB / 1024 == bytes / GIB
  {
    var q := bytes / MIB / 1024;
    var r := bytes / MIB % 1024;
    assert bytes == MIB * (bytes / MIB) + bytes % MIB;
    assert bytes / MIB == 1024 * q + r;
    assert bytes == GIB * q + (MIB * r + bytes % MIB);
    assert 0 <= MIB * r + bytes % MIB < GIB;
  }
}
