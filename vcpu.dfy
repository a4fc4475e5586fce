/** vCPU bookkeeping of the CPU balancer: the per-domain vCPU tables of two
    sampling rounds, the check that the two rounds can be compared, and the
    flat list of per-vCPU usage deltas handed to the scheduler.
    The hash containers of the source are maps; the order in which a loop
    walks one is an explicit input (`order`). */
module Vcpu {
  import opened Libvirt

  /** signed int */
  type I32 = x: int | -0x8000_0000 <= x < 0x8000_0000

  /** virVcpuInfo: virtual CPU number, state, CPU time used (ns) and the
      physical CPU it runs on. A value-initialised entry is all zeros. */
  datatype VcpuInfo = VcpuInfo(number: nat, state: int, cpuTime: U64, cpu: I32)

  const ZERO_INFO: VcpuInfo := VcpuInfo(0, 0, 0, 0)

  /** What the hypervisor answers for one domain: virDomainGetMaxVcpus, and
      the entries virDomainGetVcpus wrote (none when it failed). */
  datatype VcpuProbe = VcpuProbe(maxVcpus: I32, written: seq<VcpuInfo>)

  /** vCPU::datum_t: one schedulable vCPU. */
  datatype VcpuDatum = VcpuDatum(vcpuRank: nat, pcpuRank: U64, uuid: Uuid, domain: DomainRef, usage: nat)

  type Table = map<Uuid, seq<VcpuInfo>>

  /** `order` lists every key of a hash container exactly once. */
  ghost predicate IsEnumeration(order: seq<Uuid>, keys: set<Uuid>)
  {
    (forall u :: u in order <==> u in keys) &&
    (forall i, j :: 0 <= i < j < |order| ==> order[i] != order[j])
  }

  /** A vector of `n` value-initialised entries whose front the hypervisor
      overwrote with `written`. */
  function Fit(written: seq<VcpuInfo>, n: nat): (list: seq<VcpuInfo>)
    ensures |list| == n
    ensures forall k :: 0 <= k < n ==> list[k] == if k < |written| then written[k] else ZERO_INFO
  {
    seq(n, k requires 0 <= k < n => if k < |written| then written[k] else ZERO_INFO)
  }

  /*************************** vCPU::table ***************************/

  /** vCPU::table: for every domain (in the table's enumeration order) with at
      least one vCPU, emplace a list of exactly that many entries; a key
      already present keeps its list (emplace does not overwrite). */
  method TableOf(domains: seq<(Uuid, DomainRef)>, probes: seq<VcpuProbe>, table: Table)
    returns (status: Status, table': Table)
    requires |probes| == |domains|
    requires forall i, j :: 0 <= i < j < |domains| ==> domains[i].0 != domains[j].0
    ensures status == Failure <==> |domains| == 0
    ensures status == Failure ==> table' == table
    ensures forall u :: u in table' <==>
      u in table || exists i :: 0 <= i < |domains| && domains[i].0 == u && probes[i].maxVcpus >= 1
    ensures forall u :: u in table ==> table'[u] == table[u]
    ensures forall i :: 0 <= i < |domains| && probes[i].maxVcpus >= 1 && domains[i].0 !in table ==>
      table'[domains[i].0] == Fit(probes[i].written, probes[i].maxVcpus as nat)
  {
    if |domains| == 0 {
      return Failure, table;
    }
    table' := table;
    var i := 0;
    while i < |domains|
      invariant 0 <= i <= |domains|
      invariant forall u :: u in table' <==>
        u in table || exists k :: 0 <= k < i && domains[k].0 == u && probes[k].maxVcpus >= 1
      invariant forall u :: u in table ==> table'[u] == table[u]
      invariant forall k :: 0 <= k < i && probes[k].maxVcpus >= 1 && domains[k].0 !in table ==>
        table'[domains[k].0] == Fit(probes[k].written, probes[k].maxVcpus as nat)
    {
      var (uuid, _) := domains[i];
      var probe := probes[i];
      if probe.maxVcpus >= 1 {
        var list := Fit(probe.written, probe.maxVcpus as nat);
        if uuid !in table' {
          table' := table'[uuid := list];
        }
      }
      i := i + 1;
    }
    status := Success;
  }

  /************************ vCPU::comparable_state ************************/

  /** Domains present in both rounds whose vCPU count changed. */
  function ChangedDomains(curr: Table, prev: Table): set<Uuid>
  {
    set u | u in curr && u in prev && |curr[u]| != |prev[u]|
  }

  /** vCPU::comparable_state: (comparable, domains to skip). */
  function ComparableState(curr: Table, prev: Table): (r: (bool, set<Uuid>))
    ensures r.0 ==> r.1 == {} && |curr| == |prev| && curr != map[]
    ensures r.1 <= curr.Keys && r.1 <= prev.Keys
  {
    if |curr| == 0 || |prev| == 0 || |curr| != |prev| then (false, {})
    else
      var diff := ChangedDomains(curr, prev);
      if diff != {} then (false, diff) else (true, {})
  }

  /** The guards of comparable_state and its verdict, stated without its body. */
  lemma ComparableStateVerdict(curr: Table, prev: Table)
    ensures ComparableState(curr, prev).0 <==>
      (|curr| > 0 && |curr| == |prev| &&
       forall u :: u in curr && u in prev ==> |curr[u]| == |prev[u]|)
    ensures |curr| == 0 || |prev| == 0 || |curr| != |prev| ==> ComparableState(curr, prev) == (false, {})
    ensures !ComparableState(curr, prev).0 && ComparableState(curr, prev).1 != {} ==>
      forall u :: u in ComparableState(curr, prev).1 <==> u in curr && u in prev && |curr[u]| != |prev[u]|
  {
    if |curr| > 0 && |curr| == |prev| && !(forall u :: u in curr && u in prev ==> |curr[u]| == |prev[u]|) {
      var u :| u in curr && u in prev && |curr[u]| != |prev[u]|;
      assert u in ChangedDomains(curr, prev);
    }
  }

  /** A domain renamed between rounds is not noticed: the tables below have
      the same size, no shared domain changed, so they are reported
      comparable although the current domain is missing from the previous
      round. */
  lemma ComparableStateMissesNewDomain()
    ensures var curr := map["a" := [ZERO_INFO]];
            var prev := map["b" := [ZERO_INFO]];
            ComparableState(curr, prev) == (true, {}) && "a" !in prev
  {
    var curr := map["a" := [ZERO_INFO]];
    var prev := map["b" := [ZERO_INFO]];
    assert curr.Keys == {"a"} && prev.Keys == {"b"};
    assert "a" != "b";
    assert ChangedDomains(curr, prev) == {};
  }

  /** What vCPU::data needs of its inputs: every current domain it does not
      skip has a previous list at least as long (it indexes it unchecked). */
  ghost predicate DataReady(curr: Table, prev: Table, diff: set<Uuid>)
  {
    forall u :: u in curr && u !in diff ==> u in prev && |curr[u]| <= |prev[u]|
  }

  /** When no domain was added or removed, the verdict of comparable_state
      makes vCPU::data safe to call with its diff. */
  lemma ComparableStateReadiesData(curr: Table, prev: Table)
    requires curr.Keys == prev.Keys
    ensures ComparableState(curr, prev).0 ==> DataReady(curr, prev, {})
  {
    ComparableStateVerdict(curr, prev);
  }

  /***************************** vCPU::data *****************************/

  /** CPU time used between the two rounds, a corrupted (negative) difference
      read as zero. */
  function UsageDelta(curr: VcpuInfo, prev: VcpuInfo): (usage: nat)
    ensures usage == 0 <==> AsSigned(curr.cpuTime) <= AsSigned(prev.cpuTime)
    ensures usage > 0 ==> usage == AsSigned(curr.cpuTime) - AsSigned(prev.cpuTime)
  {
    var norm := AsSigned(curr.cpuTime) - AsSigned(prev.cpuTime);
    if norm < 0 then 0 else norm
  }

  /** When the counter moved forward and stays below 2^63, the usage is the
      plain difference. */
  lemma UsageDeltaOfMonotoneCounter(curr: VcpuInfo, prev: VcpuInfo)
    requires prev.cpuTime <= curr.cpuTime < TWO_TO_63
    ensures UsageDelta(curr, prev) == curr.cpuTime - prev.cpuTime
  {
  }

  /** The entries one domain contributes: one per vCPU in rank order; the
      domain handle is moved into the first entry, so later entries hold the
      emptied handle. */
  function DomainBlock(u: Uuid, currList: seq<VcpuInfo>, prevList: seq<VcpuInfo>, handle: DomainRef): (block: seq<VcpuDatum>)
    requires |currList| <= |prevList|
    ensures |block| == |currList|
  {
    seq(|currList|, k requires 0 <= k < |currList| =>
      VcpuDatum(currList[k].number, AsUnsigned(currList[k].cpu), u,
                if k == 0 then handle else Null,
                UsageDelta(currList[k], prevList[k])))
  }

  function HandleOf(domains: map<Uuid, DomainRef>, u: Uuid): DomainRef
  {
    if u in domains then domains[u] else Null
  }

  /** The entries vCPU::data appends after walking `order`. */
  function Collected(order: seq<Uuid>, curr: Table, prev: Table, diff: set<Uuid>, domains: map<Uuid, DomainRef>): seq<VcpuDatum>
    requires forall u :: u in order ==> u in curr
    requires DataReady(curr, prev, diff)
    decreases |order|
  {
    if order == [] then []
    else
      var init, u := order[..|order| - 1], order[|order| - 1];
      Collected(init, curr, prev, diff, domains) +
        (if u in diff then [] else DomainBlock(u, curr[u], prev[u], HandleOf(domains, u)))
  }

  /** Number of vCPUs of the domains in `order` that are not skipped. */
  function CountVcpus(order: seq<Uuid>, curr: Table, diff: set<Uuid>): nat
    requires forall u :: u in order ==> u in curr
    decreases |order|
  {
    if order == [] then 0
    else
      var init, u := order[..|order| - 1], order[|order| - 1];
      CountVcpus(init, curr, diff) + (if u in diff then 0 else |curr[u]|)
  }

  /** The domain table after the loop: operator[] reaches (and empties, or
      inserts empty) the handle of every walked domain with at least one vCPU. */
  function Emptied(order: seq<Uuid>, curr: Table, diff: set<Uuid>, domains: map<Uuid, DomainRef>): map<Uuid, DomainRef>
    requires forall u :: u in order ==> u in curr
    decreases |order|
  {
    if order == [] then domains
    else
      var init, u := order[..|order| - 1], order[|order| - 1];
      var before := Emptied(init, curr, diff, domains);
      if u !in diff && |curr[u]| > 0 then before[u := Null] else before
  }

  /** The inner loop of vCPU::data for one domain: one entry per vCPU, each
      taking the domain's handle out of the table (only the first finds it). */
  method AppendDomain(u: Uuid, currList: seq<VcpuInfo>, prevList: seq<VcpuInfo>,
                      data: seq<VcpuDatum>, domains: map<Uuid, DomainRef>)
    returns (data': seq<VcpuDatum>, domains': map<Uuid, DomainRef>)
    requires |currList| <= |prevList|
    ensures data' == data + DomainBlock(u, currList, prevList, HandleOf(domains, u))
    ensures domains' == if |currList| == 0 then domains else domains[u := Null]
  {
    ghost var handle := HandleOf(domains, u);
    data', domains' := data, domains;
    var rank := 0;
    while rank < |currList|
      invariant 0 <= rank <= |currList|
      invariant data' == data + DomainBlock(u, currList, prevList, handle)[..rank]
      invariant domains' == if rank == 0 then domains else domains[u := Null]
    {
      var c, p := currList[rank], prevList[rank];
      var taken := HandleOf(domains', u);
      domains' := domains'[u := Null];
      var entry := VcpuDatum(c.number, AsUnsigned(c.cpu), u, taken, UsageDelta(c, p));
      assert DomainBlock(u, currList, prevList, handle)[..rank + 1]
          == DomainBlock(u, currList, prevList, handle)[..rank] + [entry];
      data' := data' + [entry];
      rank := rank + 1;
    }
    assert DomainBlock(u, currList, prevList, handle)[..|currList|] == DomainBlock(u, currList, prevList, handle);
  }

  /** vCPU::data: fails on an empty input table, otherwise clears the output
      and appends, domain by domain, one entry per vCPU of every domain not
      in `diff`. */
  method Data(curr: Table, order: seq<Uuid>, prev: Table, diff: set<Uuid>,
              domains: map<Uuid, DomainRef>, data: seq<VcpuDatum>)
    returns (status: Status, data': seq<VcpuDatum>, domains': map<Uuid, DomainRef>)
    requires IsEnumeration(order, curr.Keys)
    requires DataReady(curr, prev, diff)
    ensures status == Failure <==> |curr| == 0 || |prev| == 0 || |domains| == 0
    ensures status == Failure ==> data' == data && domains' == domains
    ensures status == Success ==> data' == Collected(order, curr, prev, diff, domains)
    ensures status == Success ==> domains' == Emptied(order, curr, diff, domains)
  {
    if |curr| == 0 || |prev| == 0 || |domains| == 0 {
      return Failure, data, domains;
    }
    data' := [];
    domains' := domains;
    var i := 0;
    while i < |order|
      invariant 0 <= i <= |order|
      invariant data' == Collected(order[..i], curr, prev, diff, domains)
      invariant domains' == Emptied(order[..i], curr, diff, domains)
      invariant forall k :: i <= k < |order| ==> HandleOf(domains', order[k]) == HandleOf(domains, order[k])
    {
      var u := order[i];
      assert order[..i + 1][..i] == order[..i];
      if u !in diff {
        data', domains' := AppendDomain(u, curr[u], prev[u], data', domains');
      }
      i := i + 1;
    }
    assert order[..|order|] == order;
    status := Success;
  }

  /** Every walked domain outside the diff contributes exactly its vCPU count. */
  lemma {:induction false} CollectedLength(order: seq<Uuid>, curr: Table, prev: Table, diff: set<Uuid>, domains: map<Uuid, DomainRef>)
    requires forall u :: u in order ==> u in curr
    requires DataReady(curr, prev, diff)
    ensures |Collected(order, curr, prev, diff, domains)| == CountVcpus(order, curr, diff)
    decreases |order|
  {
    if order != [] {
      var init := order[..|order| - 1];
      assert forall u :: u in init ==> u in order;
      CollectedLength(init, curr, prev, diff, domains);
    }
  }

  /** No entry comes from a skipped domain, and every entry names a walked
      domain. */
  lemma {:induction false} CollectedDomains(order: seq<Uuid>, curr: Table, prev: Table, diff: set<Uuid>, domains: map<Uuid, DomainRef>)
    requires forall u :: u in order ==> u in curr
    requires DataReady(curr, prev, diff)
    ensures forall d :: d in Collected(order, curr, prev, diff, domains) ==> d.uuid in order && d.uuid !in diff
    decreases |order|
  {
    if order != [] {
      var init, u := order[..|order| - 1], order[|order| - 1];
      assert forall v :: v in init ==> v in order;
      CollectedDomains(init, curr, prev, diff, domains);
    }
  }

  /** Of the entries of one domain, only the first may hold a handle. */
  ghost predicate HandleMovedOnce(data: seq<VcpuDatum>)
  {
    forall i, j :: 0 <= i < j < |data| && data[i].uuid == data[j].uuid ==> data[j].domain == Null
  }

  /** Because the handle is moved once per vCPU, at most the first entry of a
      domain owns it: every later entry of the same domain holds an empty
      handle. */
  lemma {:induction false} CollectedMovesHandleOnce(order: seq<Uuid>, curr: Table, prev: Table, diff: set<Uuid>, domains: map<Uuid, DomainRef>)
    requires forall u :: u in order ==> u in curr
    requires forall i, j :: 0 <= i < j < |order| ==> order[i] != order[j]
    requires DataReady(curr, prev, diff)
    ensures HandleMovedOnce(Collected(order, curr, prev, diff, domains))
    decreases |order|
  {
    if order != [] {
      var init, u := order[..|order| - 1], order[|order| - 1];
      assert forall v :: v in init ==> v in order;
      CollectedMovesHandleOnce(init, curr, prev, diff, domains);
      CollectedDomains(init, curr, prev, diff, domains);
      var head := Collected(init, curr, prev, diff, domains);
      var data := Collected(order, curr, prev, diff, domains);
      assert u !in init by {
        forall k | 0 <= k < |init| ensures init[k] != u {
          assert init[k] == order[k];
        }
      }
      forall k | 0 <= k < |head| ensures head[k].uuid != u {
        assert head[k] in head;
      }
      forall i, j | 0 <= i < j < |data| && data[i].uuid == data[j].uuid
        ensures data[j].domain == Null
      {
        if j < |head| {
          assert data[i] == head[i] && data[j] == head[j];
          assert HandleMovedOnce(head);
        } else {
          assert u !in diff;
          var block := DomainBlock(u, curr[u], prev[u], HandleOf(domains, u));
          assert data == head + block;
          assert data[j] == block[j - |head|];
          assert data[j].uuid == u;
          assert j - |head| > 0;
          assert block[j - |head|].domain == Null;
        }
      }
    }
  }
}
