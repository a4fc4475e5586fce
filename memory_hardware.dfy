/** The host memory limit of the memory balancer: hardware_memory_limit asks
    the hypervisor how many node memory statistics there are, fetches them
    and scans them for the limit. Both query answers are inputs. */
module MemoryHardware {
  import opened Libvirt

  /** VIR_NODE_MEMORY_STATS_TOTAL. */
  const TOTAL_FIELD: string := "total"

  /** virNodeMemoryStats: a field name and its value (KiB). */
  datatype NodeStat = NodeStat(field: string, value: U64)

  /** A value-initialised entry: an empty field name and a zero value. */
  const UNWRITTEN: NodeStat := NodeStat("", 0)

  /** The limit the scan leaves. The found flag is set when the field
      compares UNEQUAL to "total", so every other entry overwrites the limit
      and the last one wins; with no such entry the limit is left as it was. */
  function LastNonTotal(stats: seq<NodeStat>, limit: int): int
    decreases |stats|
  {
    if stats == [] then limit
    else if stats[|stats| - 1].field != TOTAL_FIELD then AsSigned(stats[|stats| - 1].value)
    else LastNonTotal(stats[..|stats| - 1], limit)
  }

  /** The scan keeps the value of the last entry not named "total", and the
      earlier limit only when every entry is named "total". */
  lemma {:induction false} LastNonTotalIsLast(stats: seq<NodeStat>, limit: int)
    ensures (forall k :: 0 <= k < |stats| ==> stats[k].field == TOTAL_FIELD) ==>
      LastNonTotal(stats, limit) == limit
    ensures (exists k :: 0 <= k < |stats| && stats[k].field != TOTAL_FIELD) ==>
      exists k :: 0 <= k < |stats| && stats[k].field != TOTAL_FIELD &&
        LastNonTotal(stats, limit) == AsSigned(stats[k].value) &&
        forall j :: k < j < |stats| ==> stats[j].field == TOTAL_FIELD
    decreases |stats|
  {
    if stats != [] {
      var init := stats[..|stats| - 1];
      LastNonTotalIsLast(init, limit);
      if stats[|stats| - 1].field == TOTAL_FIELD {
        assert forall k :: 0 <= k < |init| ==> init[k] == stats[k];
        if exists k :: 0 <= k < |stats| && stats[k].field != TOTAL_FIELD {
          var k :| 0 <= k < |stats| && stats[k].field != TOTAL_FIELD;
          assert init[k].field != TOTAL_FIELD;
        }
      }
    }
  }

  /** The host's total memory is not what is kept: with the total followed by
      the free memory, the limit becomes the free memory. */
  lemma TotalIsSkipped()
    ensures LastNonTotal([NodeStat(TOTAL_FIELD, 8388608), NodeStat("free", 1048576)], 0) == 1048576
  {
    var stats := [NodeStat(TOTAL_FIELD, 8388608), NodeStat("free", 1048576)];
    assert stats[..1] == [NodeStat(TOTAL_FIELD, 8388608)];
  }

  /** hardware_memory_limit: fails when either query reports fewer than one
      statistic, scans the fetched statistics otherwise, and fails when the
      limit it is left with is zero. `stats` is the statistics vector, sized
      by the first query's count. */
  method MemoryLimit(firstCount: int, stats: seq<NodeStat>, secondCount: int, limit: int)
    returns (status: Status, limit': int)
    requires firstCount >= 1 ==> |stats| == firstCount
    ensures firstCount < 1 || secondCount < 1 ==> status == Failure && limit' == limit
    ensures firstCount >= 1 && secondCount >= 1 ==> limit' == LastNonTotal(stats, limit)
    ensures firstCount >= 1 && secondCount >= 1 ==> (status == Failure <==> limit' == 0)
  {
    if firstCount < 1 {
      return Failure, limit;
    }
    if secondCount < 1 {
      return Failure, limit;
    }
    limit' := limit;
    var found := false;
    var i := 0;
    while i < |stats|
      invariant 0 <= i <= |stats|
      invariant limit' == LastNonTotal(stats[..i], limit)
    {
      assert stats[..i + 1][..i] == stats[..i];
      found := stats[i].field != TOTAL_FIELD;
      if found {
        limit' := AsSigned(stats[i].value);
      }
      i := i + 1;
    }
    assert stats[..|stats|] == stats;
    if limit' == 0 {
      return Failure, limit';
    }
    status := Success;
  }

  /** A statistics vector whose last entry the hypervisor did not write ends
      with a zero limit, so the call fails. */
  lemma UnwrittenTailFails(stats: seq<NodeStat>, limit: int)
    requires stats != [] && stats[|stats| - 1] == UNWRITTEN
    ensures LastNonTotal(stats, limit) == 0
  {
  }
}
