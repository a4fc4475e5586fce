/** manager::scheduler of the CPU balancer: sort the vCPUs by usage, predict
    a mapping by handing each vCPU in turn to the predicted pCPU the
    comparator ranks lowest, put the prediction back in rank order, and,
    when the (floating-point) dispersion analysis favours it, remap every
    vCPU. The analysis is an oracle `favourable`; each remap call is
    recorded as a request. */
module CpuScheduler {
  import opened Libvirt
  import opened Vcpu
  import opened Pcpu
  import opened Sorting

  /** Above this many pCPUs the source searches a heap instead. */
  const CPU_HEAP_THRESHOLD: nat := 1024

  /** The order of the first sort: greatest usage first. */
  function UsageKey(d: VcpuDatum): int
  {
    d.usage
  }

  /** The order of the second sort: lowest pCPU rank first. */
  function RankKey(p: PcpuDatum): int
  {
    -(p.pcpuRank as int)
  }

  /** The pCPU comparator. Both usages are read from the first argument, so
      the usage tests never decide and only the vCPU counts are compared,
      ties counting as "less". */
  function PcpuComparator(a: PcpuDatum, b: PcpuDatum): (less: bool)
    ensures less <==> a.vcpuCount <= b.vcpuCount
  {
    var usageA := a.usage;
    var usageB := a.usage;
    if usageA < usageB then true
    else if usageA > usageB then false
    else if a.vcpuCount < b.vcpuCount then true
    else if a.vcpuCount > b.vcpuCount then false
    else true
  }

  /** A busier pCPU with fewer vCPUs is still preferred: the usage is ignored. */
  lemma ComparatorIgnoresUsage()
    ensures PcpuComparator(PcpuDatum(0, 1000, 0), PcpuDatum(1, 0, 1))
    ensures !PcpuComparator(PcpuDatum(1, 0, 1), PcpuDatum(0, 1000, 0))
  {
  }

  /** Index std::min_element returns under the comparator: it moves to each
      later element that compares "less" than the one it holds. */
  function LastMin(p: seq<PcpuDatum>): (m: nat)
    requires |p| > 0
    ensures m < |p|
    ensures forall k :: 0 <= k < |p| ==> p[m].vcpuCount <= p[k].vcpuCount
    ensures forall k :: m < k < |p| ==> p[m].vcpuCount < p[k].vcpuCount
    decreases |p|
  {
    if |p| == 1 then 0
    else
      var m := LastMin(p[..|p| - 1]);
      if PcpuComparator(p[|p| - 1], p[m]) then |p| - 1 else m
  }

  /** std::min_element over the predicted table: the last entry with the
      fewest vCPUs. */
  method MinElement(a: array<PcpuDatum>) returns (m: nat)
    requires a.Length > 0
    ensures m == LastMin(a[..])
  {
    m := 0;
    var i := 1;
    assert a[..1] == [a[0]];
    while i < a.Length
      invariant 1 <= i <= a.Length
      invariant m == LastMin(a[..i])
    {
      assert a[..i + 1][..i] == a[..i];
      if PcpuComparator(a[i], a[m]) {
        m := i;
      }
      i := i + 1;
    }
    assert a[..a.Length] == a[..];
  }

  /** The predicted entry after one more vCPU is assigned to it. */
  function Bump(e: PcpuDatum, v: VcpuDatum): PcpuDatum
  {
    e.(usage := e.usage + v.usage, vcpuCount := e.vcpuCount + 1)
  }

  /** The vCPUs with their new pins, and the predicted pCPU table. */
  datatype Prediction = Prediction(pins: seq<VcpuDatum>, pred: seq<PcpuDatum>)

  /** The greedy assignment: each vCPU in turn goes to the entry min_element
      finds, which takes its usage and one more vCPU; the vCPU takes that
      entry's rank. */
  function Greedy(vcpus: seq<VcpuDatum>, pred0: seq<PcpuDatum>): (r: Prediction)
    requires vcpus != [] ==> |pred0| > 0
    ensures |r.pins| == |vcpus| && |r.pred| == |pred0|
    ensures forall k :: 0 <= k < |pred0| ==> r.pred[k].pcpuRank == pred0[k].pcpuRank
    decreases |vcpus|
  {
    if vcpus == [] then Prediction([], pred0)
    else
      var before := Greedy(vcpus[..|vcpus| - 1], pred0);
      var v := vcpus[|vcpus| - 1];
      var m := LastMin(before.pred);
      Prediction(before.pins + [v.(pcpuRank := before.pred[m].pcpuRank)],
                 before.pred[m := Bump(before.pred[m], v)])
  }

  /** One more vCPU, as the recursion of Greedy unfolds it. */
  lemma GreedyStep(s: seq<VcpuDatum>, i: nat, pred0: seq<PcpuDatum>)
    requires i < |s| && |pred0| > 0
    ensures var before := Greedy(s[..i], pred0);
            var m := LastMin(before.pred);
            Greedy(s[..i + 1], pred0) ==
              Prediction(before.pins + [s[i].(pcpuRank := before.pred[m].pcpuRank)],
                         before.pred[m := Bump(before.pred[m], s[i])])
  {
    assert s[..i + 1][..i] == s[..i];
  }

  lemma AppendPin(pins: seq<VcpuDatum>, s: seq<VcpuDatum>, i: nat, x: VcpuDatum)
    requires |pins| == i < |s|
    ensures (pins + s[i..])[i := x] == pins + [x] + s[i + 1..]
  {
    var a, b := (pins + s[i..])[i := x], pins + [x] + s[i + 1..];
    assert |a| == |b|;
    forall k | 0 <= k < |a| ensures a[k] == b[k] {
      if k > i {
        assert a[k] == s[k] && b[k] == s[i + 1..][k - i - 1];
      }
    }
  }

  /** The assignment loop, over the vCPU vector and the predicted table in
      place. */
  method AssignPcpus(vcpus: array<VcpuDatum>, pred: array<PcpuDatum>)
    requires vcpus.Length > 0 ==> pred.Length > 0
    modifies vcpus, pred
    ensures vcpus[..] == Greedy(old(vcpus[..]), old(pred[..])).pins
    ensures pred[..] == Greedy(old(vcpus[..]), old(pred[..])).pred
  {
    ghost var s := vcpus[..];
    ghost var p0 := pred[..];
    var i := 0;
    assert s[..0] == [] && s[0..] == s;
    while i < vcpus.Length
      invariant 0 <= i <= vcpus.Length
      invariant vcpus[..] == Greedy(s[..i], p0).pins + s[i..]
      invariant pred[..] == Greedy(s[..i], p0).pred
    {
      ghost var before := Greedy(s[..i], p0);
      GreedyStep(s, i, p0);
      assert vcpus[i] == s[i];
      var m := MinElement(pred);
      var e := Bump(pred[m], vcpus[i]);
      pred[m] := e;
      assert pred[..] == before.pred[m := e];
      ghost var pins := vcpus[..];
      var x := vcpus[i].(pcpuRank := e.pcpuRank);
      vcpus[i] := x;
      assert vcpus[..] == pins[i := x];
      AppendPin(before.pins, s, i, x);
      i := i + 1;
    }
    assert s[..vcpus.Length] == s;
  }

  /** A value-initialised predicted table of `n` entries: all ranks are 0. */
  function Zeros(n: nat): (z: seq<PcpuDatum>)
    ensures |z| == n && forall k :: 0 <= k < n ==> z[k] == ZERO_DATUM
  {
    seq(n, _ => ZERO_DATUM)
  }

  /** The prediction the scheduler computes from its input vCPUs. */
  function Predict(vcpus: seq<VcpuDatum>, n: nat): Prediction
    requires vcpus != [] ==> n > 0
  {
    Greedy(SortDesc(vcpus, UsageKey), Zeros(n))
  }

  /** One hardware::map call: pin this vCPU, given the number of pCPUs. */
  datatype MapRequest = MapRequest(vcpu: VcpuDatum, pcpuCount: nat)

  function MapAll(vcpus: seq<VcpuDatum>, n: nat): (maps: seq<MapRequest>)
    ensures |maps| == |vcpus|
    ensures forall k :: 0 <= k < |vcpus| ==> maps[k] == MapRequest(vcpus[k], n)
  {
    seq(|vcpus|, k requires 0 <= k < |vcpus| => MapRequest(vcpus[k], n))
  }

  /** manager::scheduler. An empty vCPU vector fails; the second guard tests
      the vCPU vector again, so an empty pCPU table is never rejected.
      Otherwise it succeeds, whether or not it remaps, and a remap issues
      one request per vCPU, in order, whatever each request answers. */
  method Schedule(vcpus: array<VcpuDatum>, pcpus: seq<PcpuDatum>,
                  favourable: (seq<PcpuDatum>, seq<PcpuDatum>) -> bool)
    returns (status: Status, pred: seq<PcpuDatum>, maps: seq<MapRequest>)
    requires vcpus.Length > 0 ==> 0 < |pcpus| <= CPU_HEAP_THRESHOLD
    modifies vcpus
    ensures status == Failure <==> vcpus.Length == 0
    ensures status == Failure ==> vcpus[..] == old(vcpus[..]) && pred == [] && maps == []
    ensures status == Success ==> vcpus[..] == Predict(old(vcpus[..]), |pcpus|).pins
    ensures status == Success ==> pred == SortDesc(Predict(old(vcpus[..]), |pcpus|).pred, RankKey)
    ensures status == Success ==> maps == if favourable(pcpus, pred) then MapAll(vcpus[..], |pcpus|) else []
  {
    if vcpus.Length == 0 {
      return Failure, [], [];
    }
    ghost var input := vcpus[..];
    SortInPlace(vcpus, UsageKey);
    var n := |pcpus|;
    var predArr := new PcpuDatum[n](_ => ZERO_DATUM);
    assert predArr[..] == Zeros(n);
    AssignPcpus(vcpus, predArr);
    SortInPlace(predArr, RankKey);
    pred := predArr[..];
    status := Success;
    maps := [];
    if favourable(pcpus, pred) {
      maps := RemapAll(vcpus, n);
    }
  }

  /** The remap loop: one hardware::map request per vCPU, in order; the
      status of each is ignored. */
  method RemapAll(vcpus: array<VcpuDatum>, n: nat) returns (maps: seq<MapRequest>)
    ensures maps == MapAll(vcpus[..], n)
  {
    maps := [];
    var i := 0;
    while i < vcpus.Length
      invariant 0 <= i <= vcpus.Length
      invariant maps == MapAll(vcpus[..i], n)
    {
      maps := maps + [MapRequest(vcpus[i], n)];
      i := i + 1;
    }
    assert vcpus[..vcpus.Length] == vcpus[..];
  }

  /*************************** the prediction ***************************/

  /** Every predicted entry's vCPU count is within one of every other's. */
  ghost predicate Balanced(pred: seq<PcpuDatum>)
  {
    forall i, j :: 0 <= i < |pred| && 0 <= j < |pred| ==> pred[i].vcpuCount <= pred[j].vcpuCount + 1
  }

  /** Handing a vCPU to the entry with the fewest vCPUs keeps the counts
      within one of each other. */
  lemma {:induction false} GreedyKeepsBalance(vcpus: seq<VcpuDatum>, pred0: seq<PcpuDatum>)
    requires vcpus != [] ==> |pred0| > 0
    requires Balanced(pred0)
    ensures Balanced(Greedy(vcpus, pred0).pred)
    decreases |vcpus|
  {
    if vcpus != [] {
      var init := vcpus[..|vcpus| - 1];
      GreedyKeepsBalance(init, pred0);
      var p := Greedy(init, pred0).pred;
      var m := LastMin(p);
      var q := Greedy(vcpus, pred0).pred;
      assert q == p[m := Bump(p[m], vcpus[|vcpus| - 1])];
      forall i, j | 0 <= i < |q| && 0 <= j < |q| ensures q[i].vcpuCount <= q[j].vcpuCount + 1 {
        assert p[m].vcpuCount <= p[j].vcpuCount;
        assert p[i].vcpuCount <= p[m].vcpuCount + 1;
      }
    }
  }

  /** Each vCPU is counted once: the predicted totals grow by exactly the
      vCPUs' usage and number. */
  lemma {:induction false} GreedyConserves(vcpus: seq<VcpuDatum>, pred0: seq<PcpuDatum>)
    requires vcpus != [] ==> |pred0| > 0
    ensures LoadSum(Greedy(vcpus, pred0).pred) == LoadSum(pred0) + TotalUsage(vcpus)
    ensures CountSum(Greedy(vcpus, pred0).pred) == CountSum(pred0) + |vcpus|
    decreases |vcpus|
  {
    if vcpus != [] {
      var init, v := vcpus[..|vcpus| - 1], vcpus[|vcpus| - 1];
      GreedyConserves(init, pred0);
      var p := Greedy(init, pred0).pred;
      var m := LastMin(p);
      LoadSumUpdate(p, m, Bump(p[m], v));
    }
  }

  /** Each vCPU keeps its identity and usage and takes the rank of some
      entry of the table the prediction started from. */
  lemma {:induction false} GreedyPins(vcpus: seq<VcpuDatum>, pred0: seq<PcpuDatum>)
    requires vcpus != [] ==> |pred0| > 0
    ensures forall k :: 0 <= k < |vcpus| ==>
      exists j :: 0 <= j < |pred0| && Greedy(vcpus, pred0).pins[k] == vcpus[k].(pcpuRank := pred0[j].pcpuRank)
    decreases |vcpus|
  {
    if vcpus != [] {
      var init := vcpus[..|vcpus| - 1];
      GreedyPins(init, pred0);
      var before := Greedy(init, pred0);
      var m := LastMin(before.pred);
      var pins := Greedy(vcpus, pred0).pins;
      forall k | 0 <= k < |vcpus|
        ensures exists j :: 0 <= j < |pred0| && pins[k] == vcpus[k].(pcpuRank := pred0[j].pcpuRank)
      {
        if k < |init| {
          assert pins[k] == before.pins[k];
          assert vcpus[k] == init[k];
        } else {
          assert pins[k] == vcpus[k].(pcpuRank := pred0[m].pcpuRank);
        }
      }
    }
  }

  lemma {:induction false} TotalUsageOfInsert(t: seq<VcpuDatum>, x: VcpuDatum)
    ensures TotalUsage(Insert(t, x, UsageKey)) == TotalUsage(t) + x.usage
    decreases |t|
  {
    if t == [] || UsageKey(t[|t| - 1]) >= UsageKey(x) {
      assert (t + [x])[..|t|] == t;
    } else {
      var init := t[..|t| - 1];
      TotalUsageOfInsert(init, x);
      InsertPermutes(init, x, UsageKey);
      var head := Insert(init, x, UsageKey);
      assert (head + [t[|t| - 1]])[..|head|] == head;
    }
  }

  /** Sorting does not change the total usage. */
  lemma {:induction false} TotalUsageOfSort(vcpus: seq<VcpuDatum>)
    ensures TotalUsage(SortDesc(vcpus, UsageKey)) == TotalUsage(vcpus)
    decreases |vcpus|
  {
    if vcpus != [] {
      TotalUsageOfSort(vcpus[..|vcpus| - 1]);
      TotalUsageOfInsert(SortDesc(vcpus[..|vcpus| - 1], UsageKey), vcpus[|vcpus| - 1]);
    }
  }

  /** As written, every vCPU is pinned to pCPU 0: the predicted entries are
      value-initialised and only their usage and count are ever updated, so
      the rank each vCPU copies is 0. The pins are otherwise the vCPUs in
      non-increasing usage order. */
  lemma PredictPinsToZero(vcpus: seq<VcpuDatum>, n: nat)
    requires vcpus != [] ==> n > 0
    ensures |Predict(vcpus, n).pins| == |vcpus|
    ensures forall k :: 0 <= k < |vcpus| ==>
      Predict(vcpus, n).pins[k] == SortDesc(vcpus, UsageKey)[k].(pcpuRank := 0)
    ensures SortedDesc(Predict(vcpus, n).pins, UsageKey)
    ensures multiset(SortDesc(vcpus, UsageKey)) == multiset(vcpus)
  {
    var sorted := SortDesc(vcpus, UsageKey);
    SortDescCorrect(vcpus, UsageKey);
    GreedyPins(sorted, Zeros(n));
    var pins := Predict(vcpus, n).pins;
    forall k | 0 <= k < |vcpus| ensures pins[k] == sorted[k].(pcpuRank := 0) {
      var j :| 0 <= j < n && pins[k] == sorted[k].(pcpuRank := Zeros(n)[j].pcpuRank);
    }
    forall i, j | 0 <= i < j < |pins| ensures UsageKey(pins[i]) >= UsageKey(pins[j]) {
      assert UsageKey(sorted[i]) >= UsageKey(sorted[j]);
    }
  }

  /** The prediction accounts for every vCPU exactly once, and its vCPU
      counts differ by at most one. */
  lemma PredictTotals(vcpus: seq<VcpuDatum>, n: nat)
    requires vcpus != [] ==> n > 0
    ensures |Predict(vcpus, n).pred| == n
    ensures LoadSum(Predict(vcpus, n).pred) == TotalUsage(vcpus)
    ensures CountSum(Predict(vcpus, n).pred) == |vcpus|
    ensures Balanced(Predict(vcpus, n).pred)
  {
    var sorted := SortDesc(vcpus, UsageKey);
    SortDescCorrect(vcpus, UsageKey);
    GreedyConserves(sorted, Zeros(n));
    ZeroSums(Zeros(n));
    TotalUsageOfSort(vcpus);
    GreedyKeepsBalance(sorted, Zeros(n));
  }

  /** As written, the re-sort by rank changes nothing: every predicted entry
      still has rank 0, and the rank order is already met. */
  lemma RankSortKeepsPrediction(vcpus: seq<VcpuDatum>, n: nat)
    requires vcpus != [] ==> n > 0
    ensures SortDesc(Predict(vcpus, n).pred, RankKey) == Predict(vcpus, n).pred
    ensures forall k :: 0 <= k < n ==> Predict(vcpus, n).pred[k].pcpuRank == 0
  {
    var p := Greedy(SortDesc(vcpus, UsageKey), Zeros(n)).pred;
    assert forall k :: 0 <= k < |p| ==> p[k].pcpuRank == 0;
    RankSortOfZeros(p);
  }

  /** A table whose entries all have rank 0 is already in rank order. */
  lemma RankSortOfZeros(p: seq<PcpuDatum>)
    requires forall k :: 0 <= k < |p| ==> p[k].pcpuRank == 0
    ensures SortDesc(p, RankKey) == p
  {
    assert forall k :: 0 <= k < |p| ==> RankKey(p[k]) == 0;
    SortDescOfSorted(p, RankKey);
  }
}
