/** pCPU bookkeeping of the CPU balancer: pCPU::data folds the per-vCPU usage
    deltas into one load bucket per physical CPU. */
module Pcpu {
  import opened Libvirt
  import opened Vcpu

  /** pCPU::datum_t: a physical CPU, the CPU time of the vCPUs pinned to it
      and how many there are. */
  datatype PcpuDatum = PcpuDatum(pcpuRank: U64, usage: nat, vcpuCount: nat)

  /** A value-initialised datum_t. */
  const ZERO_DATUM: PcpuDatum := PcpuDatum(0, 0, 0)

  /** std::vector::resize: existing entries are kept, new ones value-initialised. */
  function Resized(pcpu: seq<PcpuDatum>, n: nat): (r: seq<PcpuDatum>)
    ensures |r| == n
    ensures forall k :: 0 <= k < n ==> r[k] == if k < |pcpu| then pcpu[k] else ZERO_DATUM
  {
    seq(n, k requires 0 <= k < n => if k < |pcpu| then pcpu[k] else ZERO_DATUM)
  }

  /** CPU time of the vCPUs pinned to pCPU `rank`. */
  function UsageOn(vcpus: seq<VcpuDatum>, rank: nat): nat
    decreases |vcpus|
  {
    if vcpus == [] then 0
    else
      var last := vcpus[|vcpus| - 1];
      UsageOn(vcpus[..|vcpus| - 1], rank) + (if last.pcpuRank == rank then last.usage else 0)
  }

  /** Number of vCPUs pinned to pCPU `rank`. */
  function CountOn(vcpus: seq<VcpuDatum>, rank: nat): nat
    decreases |vcpus|
  {
    if vcpus == [] then 0
    else
      var last := vcpus[|vcpus| - 1];
      CountOn(vcpus[..|vcpus| - 1], rank) + (if last.pcpuRank == rank then 1 else 0)
  }

  /** The pCPU table pCPU::data leaves: `n` entries, entry `k` ranked `k`,
      holding its earlier totals plus the vCPUs pinned to it. */
  function Loaded(vcpus: seq<VcpuDatum>, n: U64, pcpu: seq<PcpuDatum>): (r: seq<PcpuDatum>)
    ensures |r| == n
  {
    seq(n, k requires 0 <= k < n =>
      var before := Resized(pcpu, n)[k];
      PcpuDatum(k, before.usage + UsageOn(vcpus, k), before.vcpuCount + CountOn(vcpus, k)))
  }

  /** Total CPU time of a vCPU list. */
  function TotalUsage(vcpus: seq<VcpuDatum>): nat
    decreases |vcpus|
  {
    if vcpus == [] then 0 else TotalUsage(vcpus[..|vcpus| - 1]) + vcpus[|vcpus| - 1].usage
  }

  /** Total CPU time recorded in a pCPU table. */
  function LoadSum(pcpu: seq<PcpuDatum>): nat
    decreases |pcpu|
  {
    if pcpu == [] then 0 else LoadSum(pcpu[..|pcpu| - 1]) + pcpu[|pcpu| - 1].usage
  }

  /** Total vCPU count recorded in a pCPU table. */
  function CountSum(pcpu: seq<PcpuDatum>): nat
    decreases |pcpu|
  {
    if pcpu == [] then 0 else CountSum(pcpu[..|pcpu| - 1]) + pcpu[|pcpu| - 1].vcpuCount
  }

  /** Adding one vCPU changes exactly the entry at its pCPU rank, by its usage
      and by one vCPU. */
  lemma LoadedStep(vcpus: seq<VcpuDatum>, n: U64, pcpu: seq<PcpuDatum>)
    requires vcpus != [] && vcpus[|vcpus| - 1].pcpuRank < n
    ensures var v, init := vcpus[|vcpus| - 1], vcpus[..|vcpus| - 1];
            var old_ := Loaded(init, n, pcpu)[v.pcpuRank];
            Loaded(vcpus, n, pcpu) ==
              Loaded(init, n, pcpu)[v.pcpuRank := old_.(usage := old_.usage + v.usage, vcpuCount := old_.vcpuCount + 1)]
  {
  }

  /** pCPU::data: fails on an empty vCPU list or when the pCPU count cannot
      be read; otherwise resizes the table to the pCPU count, ranks the
      entries and adds every vCPU's usage to the entry it is pinned to. */
  method Data(vcpus: seq<VcpuDatum>, nodeCount: Option<U64>, pcpu: seq<PcpuDatum>)
    returns (status: Status, pcpu': seq<PcpuDatum>)
    requires nodeCount.Some? ==> forall k :: 0 <= k < |vcpus| ==> vcpus[k].pcpuRank < nodeCount.value
    ensures status == Failure <==> |vcpus| == 0 || nodeCount == None
    ensures status == Failure ==> pcpu' == pcpu
    ensures status == Success ==> pcpu' == Loaded(vcpus, nodeCount.value, pcpu)
  {
    if |vcpus| == 0 {
      return Failure, pcpu;
    }
    if nodeCount.None? {
      return Failure, pcpu;
    }
    var n := nodeCount.value;
    pcpu' := Resized(pcpu, n);
    var rank := 0;
    while rank < n
      invariant 0 <= rank <= n && |pcpu'| == n
      invariant forall k :: 0 <= k < n ==>
        pcpu'[k] == if k < rank then Resized(pcpu, n)[k].(pcpuRank := k) else Resized(pcpu, n)[k]
    {
      pcpu' := pcpu'[rank := pcpu'[rank].(pcpuRank := rank)];
      rank := rank + 1;
    }
    assert pcpu' == Loaded([], n, pcpu);
    var i := 0;
    while i < |vcpus|
      invariant 0 <= i <= |vcpus|
      invariant pcpu' == Loaded(vcpus[..i], n, pcpu)
    {
      var v := vcpus[i];
      var r := v.pcpuRank;
      assert vcpus[..i + 1][..i] == vcpus[..i];
      LoadedStep(vcpus[..i + 1], n, pcpu);
      pcpu' := pcpu'[r := pcpu'[r].(usage := pcpu'[r].usage + v.usage, vcpuCount := pcpu'[r].vcpuCount + 1)];
      i := i + 1;
    }
    assert vcpus[..|vcpus|] == vcpus;
    status := Success;
  }

  lemma {:induction false} LoadSumUpdate(pcpu: seq<PcpuDatum>, r: nat, d: PcpuDatum)
    requires r < |pcpu|
    ensures LoadSum(pcpu[r := d]) + pcpu[r].usage == LoadSum(pcpu) + d.usage
    ensures CountSum(pcpu[r := d]) + pcpu[r].vcpuCount == CountSum(pcpu) + d.vcpuCount
    decreases |pcpu|
  {
    var init := pcpu[..|pcpu| - 1];
    if r == |pcpu| - 1 {
      assert pcpu[r := d][..|pcpu| - 1] == init;
    } else {
      assert pcpu[r := d][..|pcpu| - 1] == init[r := d];
      LoadSumUpdate(init, r, d);
    }
  }

  /** Load is conserved: the table pCPU::data leaves holds what the resized
      table held plus the usage and the number of all vCPUs. */
  lemma {:induction false} LoadedConserves(vcpus: seq<VcpuDatum>, n: U64, pcpu: seq<PcpuDatum>)
    requires forall k :: 0 <= k < |vcpus| ==> vcpus[k].pcpuRank < n
    ensures LoadSum(Loaded(vcpus, n, pcpu)) == LoadSum(Resized(pcpu, n)) + TotalUsage(vcpus)
    ensures CountSum(Loaded(vcpus, n, pcpu)) == CountSum(Resized(pcpu, n)) + |vcpus|
    decreases |vcpus|
  {
    if vcpus == [] {
      var base := Resized(pcpu, n);
      var ranked := Loaded([], n, pcpu);
      assert forall k :: 0 <= k < n ==> ranked[k] == base[k].(pcpuRank := k);
      RankingKeepsSums(base, ranked);
    } else {
      var init, v := vcpus[..|vcpus| - 1], vcpus[|vcpus| - 1];
      LoadedConserves(init, n, pcpu);
      LoadedStep(vcpus, n, pcpu);
      var before := Loaded(init, n, pcpu);
      var e := before[v.pcpuRank];
      LoadSumUpdate(before, v.pcpuRank, e.(usage := e.usage + v.usage, vcpuCount := e.vcpuCount + 1));
    }
  }

  /** Renumbering entries does not change the totals. */
  lemma {:induction false} RankingKeepsSums(a: seq<PcpuDatum>, b: seq<PcpuDatum>)
    requires |a| == |b|
    requires forall k :: 0 <= k < |a| ==> a[k].usage == b[k].usage && a[k].vcpuCount == b[k].vcpuCount
    ensures LoadSum(a) == LoadSum(b) && CountSum(a) == CountSum(b)
    decreases |a|
  {
    if a != [] {
      RankingKeepsSums(a[..|a| - 1], b[..|b| - 1]);
    }
  }

  /** Starting from an empty or zeroed table, the pCPU totals are exactly the
      vCPU totals; on a table with earlier totals they accumulate on top. */
  lemma LoadedFromZero(vcpus: seq<VcpuDatum>, n: U64, pcpu: seq<PcpuDatum>)
    requires forall k :: 0 <= k < |vcpus| ==> vcpus[k].pcpuRank < n
    requires forall k :: 0 <= k < |pcpu| ==> pcpu[k].usage == 0 && pcpu[k].vcpuCount == 0
    ensures LoadSum(Loaded(vcpus, n, pcpu)) == TotalUsage(vcpus)
    ensures CountSum(Loaded(vcpus, n, pcpu)) == |vcpus|
  {
    LoadedConserves(vcpus, n, pcpu);
    ZeroSums(Resized(pcpu, n));
  }

  lemma {:induction false} ZeroSums(pcpu: seq<PcpuDatum>)
    requires forall k :: 0 <= k < |pcpu| ==> pcpu[k].usage == 0 && pcpu[k].vcpuCount == 0
    ensures LoadSum(pcpu) == 0 && CountSum(pcpu) == 0
    decreases |pcpu|
  {
    if pcpu != [] {
      ZeroSums(pcpu[..|pcpu| - 1]);
    }
  }
}
