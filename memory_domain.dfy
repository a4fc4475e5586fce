/** Per-domain memory data of the memory balancer: domain::data takes each
    listed domain's handle, reads its memory limit and vCPU count and picks
    the balloon size and the unused memory out of its memory statistics by
    tag. The hypervisor's answers are inputs (`probes`). */
module MemoryDomain {
  import opened Libvirt

  /** VIR_DOMAIN_MEMORY_STAT_ACTUAL_BALLOON: current balloon size (KiB). */
  const BALLOON_TAG: int := 6
  /** VIR_DOMAIN_MEMORY_STAT_UNUSED: memory the guest leaves unused (KiB). */
  const UNUSED_TAG: int := 4

  /** virDomainMemoryStatStruct. */
  datatype MemoryStat = MemoryStat(tag: int, val: U64)

  /** The fields of virDomainInfo that are read: maxMem and nrVirtCpu. */
  datatype DomainInfo = DomainInfo(maxMem: U64, nrVirtCpu: nat)

  /** What the hypervisor leaves for one domain: the statistics array as it
      is after virDomainMemoryStats, and the information record as it is
      after virDomainGetInfo (whether or not either call succeeded). */
  datatype MemProbe = MemProbe(stats: seq<MemoryStat>, info: DomainInfo)

  /** domain::datum_t as domain.cpp uses it (with the rank it assigns).
      The delta is a double in the source; every value it is given is an
      integer. */
  datatype MemDatum = MemDatum(rank: nat, uuid: Uuid, domain: DomainRef, vcpuCount: nat,
                               used: int, extra: int, limit: int, delta: int)

  /** A datum as the default constructor leaves it. */
  const DEFAULT_DATUM: MemDatum := MemDatum(0, "", Null, 0, 0, 0, 0, 0)

  /** Whether some statistic carries `tag`. */
  function HasTag(stats: seq<MemoryStat>, tag: int): bool
    decreases |stats|
  {
    if stats == [] then false
    else stats[|stats| - 1].tag == tag || HasTag(stats[..|stats| - 1], tag)
  }

  /** The value the scan leaves for `tag`: the last matching statistic's
      value, read as a signed long long, or `default` when none matches. */
  function LastTagged(stats: seq<MemoryStat>, tag: int, default: int): int
    decreases |stats|
  {
    if stats == [] then default
    else if stats[|stats| - 1].tag == tag then AsSigned(stats[|stats| - 1].val)
    else LastTagged(stats[..|stats| - 1], tag, default)
  }

  /** HasTag is "some entry matches", and LastTagged is the value of the last
      matching entry, or the default when none matches. */
  lemma {:induction false} LastTaggedIsLast(stats: seq<MemoryStat>, tag: int, default: int)
    ensures HasTag(stats, tag) <==> exists k :: 0 <= k < |stats| && stats[k].tag == tag
    ensures !HasTag(stats, tag) ==> LastTagged(stats, tag, default) == default
    ensures HasTag(stats, tag) ==>
      exists k :: 0 <= k < |stats| && stats[k].tag == tag &&
        LastTagged(stats, tag, default) == AsSigned(stats[k].val) &&
        forall j :: k < j < |stats| ==> stats[j].tag != tag
    decreases |stats|
  {
    if stats != [] {
      var init := stats[..|stats| - 1];
      LastTaggedIsLast(init, tag, default);
      if stats[|stats| - 1].tag != tag {
        if HasTag(stats, tag) {
          var k :| 0 <= k < |init| && init[k].tag == tag &&
            LastTagged(init, tag, default) == AsSigned(init[k].val) &&
            forall j :: k < j < |init| ==> init[j].tag != tag;
          assert stats[k] == init[k];
        }
        forall k | 0 <= k < |stats| && stats[k].tag == tag ensures HasTag(init, tag) {
          assert init[k] == stats[k];
        }
      }
    }
  }

  /** The statistics scan of domain::data: every entry with the balloon tag
      overwrites the balloon size, every entry with the unused tag the unused
      memory, and each raises its found flag. */
  method ScanStatistics(stats: seq<MemoryStat>, datum: MemDatum)
    returns (datum': MemDatum, usedFound: bool, extraFound: bool)
    ensures usedFound == HasTag(stats, BALLOON_TAG) && extraFound == HasTag(stats, UNUSED_TAG)
    ensures datum' == datum.(used := LastTagged(stats, BALLOON_TAG, datum.used),
                             extra := LastTagged(stats, UNUSED_TAG, datum.extra))
  {
    datum', usedFound, extraFound := datum, false, false;
    var i := 0;
    while i < |stats|
      invariant 0 <= i <= |stats|
      invariant usedFound == HasTag(stats[..i], BALLOON_TAG) && extraFound == HasTag(stats[..i], UNUSED_TAG)
      invariant datum' == datum.(used := LastTagged(stats[..i], BALLOON_TAG, datum.used),
                                 extra := LastTagged(stats[..i], UNUSED_TAG, datum.extra))
    {
      assert stats[..i + 1][..i] == stats[..i];
      var flag := stats[i].tag;
      if flag == BALLOON_TAG {
        datum' := datum'.(used := AsSigned(stats[i].val));
        usedFound := true;
      }
      if flag == UNUSED_TAG {
        datum' := datum'.(extra := AsSigned(stats[i].val));
        extraFound := true;
      }
      i := i + 1;
    }
    assert stats[..|stats|] == stats;
  }

  /** Both statistics the balancer needs are present. */
  function Complete(probe: MemProbe): bool
  {
    HasTag(probe.stats, BALLOON_TAG) && HasTag(probe.stats, UNUSED_TAG)
  }

  /** Index of the first domain whose statistics lack a needed tag, or the
      number of domains when none does. */
  function Stop(probes: seq<MemProbe>): (stop: nat)
    ensures stop <= |probes|
    ensures forall r :: 0 <= r < stop ==> Complete(probes[r])
    ensures stop < |probes| ==> !Complete(probes[stop])
    decreases |probes|
  {
    if probes == [] then 0
    else if !Complete(probes[0]) then 0
    else 1 + Stop(probes[1..])
  }

  /** The datum a domain leaves: its rank, the handle moved out of the list,
      its limit and vCPU count (read even if the information call failed),
      and the two scanned statistics. */
  function Filled(datum: MemDatum, rank: nat, handle: DomainRef, probe: MemProbe): MemDatum
  {
    datum.(rank := rank, domain := handle,
           limit := AsSigned(probe.info.maxMem), vcpuCount := probe.info.nrVirtCpu,
           used := LastTagged(probe.stats, BALLOON_TAG, datum.used),
           extra := LastTagged(probe.stats, UNUSED_TAG, datum.extra))
  }

  /** The output vector before the loop: kept when its size is right,
      otherwise cleared and resized to default data. */
  function Base(data: seq<MemDatum>, n: nat): (base: seq<MemDatum>)
    ensures |base| == n
    ensures |data| == n ==> base == data
    ensures |data| != n ==> forall r :: 0 <= r < n ==> base[r] == DEFAULT_DATUM
  {
    if |data| == n then data else seq(n, _ => DEFAULT_DATUM)
  }

  /** The data vector domain::data leaves for a non-empty list: every domain
      up to and including the first incomplete one filled, the rest as the
      base vector holds them. */
  function Refreshed(list: seq<DomainRef>, probes: seq<MemProbe>, data: seq<MemDatum>): (r: seq<MemDatum>)
    requires |probes| == |list|
    ensures |r| == |list|
  {
    seq(|list|, r requires 0 <= r < |list| =>
      if r <= Stop(probes) then Filled(Base(data, |list|)[r], r, list[r], probes[r])
      else Base(data, |list|)[r])
  }

  /** domain::data: fails on an empty list; otherwise fills the data domain
      by domain and stops with a failure at the first domain lacking the
      balloon size or the unused memory, leaving later domains untouched. */
  method Data(list: seq<DomainRef>, probes: seq<MemProbe>, data: seq<MemDatum>)
    returns (status: Status, list': seq<DomainRef>, data': seq<MemDatum>)
    requires |probes| == |list|
    ensures status == Failure <==> |list| == 0 || Stop(probes) < |list|
    ensures |list| == 0 ==> list' == list && data' == data
    ensures |list| > 0 ==> |data'| == |list| && |list'| == |list|
    ensures |list| > 0 ==> data' == Refreshed(list, probes, data)
    ensures |list| > 0 ==> forall r :: 0 <= r < |list| ==>
      data'[r] == (if r <= Stop(probes) then Filled(Base(data, |list|)[r], r, list[r], probes[r])
                   else Base(data, |list|)[r])
    ensures |list| > 0 ==> forall r :: 0 <= r < |list| ==>
      list'[r] == if r <= Stop(probes) then Null else list[r]
  {
    var n := |list|;
    if n == 0 {
      return Failure, list, data;
    }
    data' := data;
    if |data'| != n {
      data' := seq(n, _ => DEFAULT_DATUM);
    }
    ghost var base := data';
    assert base == Base(data, n);
    list' := list;
    var rank := 0;
    status := Success;
    while rank < n
      invariant 0 <= rank <= n && |data'| == n && |list'| == n
      invariant forall r :: 0 <= r < rank ==> Complete(probes[r])
      invariant forall r :: 0 <= r < n ==>
        data'[r] == (if r < rank then Filled(base[r], r, list[r], probes[r]) else base[r])
      invariant forall r :: 0 <= r < n ==> list'[r] == if r < rank then Null else list[r]
    {
      var datum, complete := FillOne(data'[rank], rank, list'[rank], probes[rank]);
      list' := list'[rank := Null];
      data' := data'[rank := datum];
      if !complete {
        StopIs(probes, rank);
        RefreshedIs(list, probes, data, data');
        return Failure, list', data';
      }
      rank := rank + 1;
    }
    StopIs(probes, n);
    RefreshedIs(list, probes, data, data');
  }

  /** The loop body of domain::data for one domain: moves the handle in,
      reads the information and scans the statistics; `complete` says both
      needed statistics were found. */
  method FillOne(datum: MemDatum, rank: nat, handle: DomainRef, probe: MemProbe)
    returns (datum': MemDatum, complete: bool)
    ensures datum' == Filled(datum, rank, handle, probe)
    ensures complete == Complete(probe)
  {
    datum' := datum.(rank := rank, domain := handle);
    var info := probe.info;
    datum' := datum'.(limit := AsSigned(info.maxMem), vcpuCount := info.nrVirtCpu);
    var usedFound, extraFound;
    datum', usedFound, extraFound := ScanStatistics(probe.stats, datum');
    complete := usedFound && extraFound;
  }

  /** The filled vector, stated element by element, is Refreshed. */
  lemma RefreshedIs(list: seq<DomainRef>, probes: seq<MemProbe>, data: seq<MemDatum>, d: seq<MemDatum>)
    requires |probes| == |list| == |d|
    requires forall r :: 0 <= r < |list| ==>
      d[r] == (if r <= Stop(probes) then Filled(Base(data, |list|)[r], r, list[r], probes[r])
               else Base(data, |list|)[r])
    ensures d == Refreshed(list, probes, data)
  {
  }

  /** The first incomplete domain, or the end when every domain before it is
      complete, is where the fill stops. */
  lemma StopIs(probes: seq<MemProbe>, k: nat)
    requires k <= |probes|
    requires forall r :: 0 <= r < k ==> Complete(probes[r])
    requires k < |probes| ==> !Complete(probes[k])
    ensures Stop(probes) == k
  {
  }
}
