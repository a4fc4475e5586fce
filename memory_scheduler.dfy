/** manager::scheduler of the memory balancer. It sorts domains into
    suppliers (much unused memory) and demanders (little), reclaims a step of
    memory from each supplier, orders the demanders by memory pressure per
    vCPU, and grants each a step of memory out of the running budget of
    available memory, or a share of what is left when the step does not fit.
    Every virDomainSetMemory call is recorded as a request; whether the
    hypervisor accepts it is an oracle `accepts`. The double-precision
    coefficients are exact rationals here. */
module MemoryScheduler {
  import opened Libvirt
  import opened Sorting
  import opened MemoryDomain

  /** Memory kept back for the host (KiB): 200 << 10. */
  const MINIMUM_SYSTEM_MEMORY: int := 204800
  /** Smallest size a supplier is shrunk to (KiB): 100 << 10. */
  const MINIMUM_DOMAIN_MEMORY: int := 102400
  /** MINIMUM_DOMAIN_MEMORY * 0.200: the step a domain grows or shrinks by. */
  const CHANGE_STEP: int := 20480

  /** Unused memory above 0.115 of the domain's limit. */
  predicate IsSupplier(d: MemDatum)
  {
    1000 * d.extra > 115 * d.limit
  }

  /** Unused memory below 0.085 of the limit (tested only for non-suppliers). */
  predicate IsDemander(d: MemDatum)
  {
    !IsSupplier(d) && 1000 * d.extra < 85 * d.limit
  }

  /** A domain whose limit is positive cannot be both. */
  lemma ClassesDisjoint(d: MemDatum)
    requires d.limit > 0
    ensures !(1000 * d.extra > 115 * d.limit && 1000 * d.extra < 85 * d.limit)
  {
  }

  /** One virDomainSetMemory call: the domain and its new size (KiB). */
  datatype SetRequest = SetRequest(domain: DomainRef, kib: int)

  /*************************** classification ***************************/

  /** State of the first loop: whether it is still running, the budget, and
      the suppliers and demanders found so far. */
  datatype Classification = Classification(ok: bool, avail: int, suppliers: seq<MemDatum>, demanders: seq<MemDatum>)

  /** Sum of the balloon sizes. */
  function UsedSum(data: seq<MemDatum>): int
    decreases |data|
  {
    if data == [] then 0 else UsedSum(data[..|data| - 1]) + data[|data| - 1].used
  }

  /** The first loop: each domain's balloon size comes off the budget, and a
      budget gone negative stops the loop with a failure; suppliers take the
      step -CHANGE_STEP, demanders +CHANGE_STEP, others are dropped. */
  function Classify(data: seq<MemDatum>, avail0: int): (c: Classification)
    decreases |data|
  {
    if data == [] then Classification(true, avail0, [], [])
    else
      var before := Classify(data[..|data| - 1], avail0);
      var d := data[|data| - 1];
      if !before.ok then before
      else
        var avail := before.avail - d.used;
        if avail < 0 then before.(ok := false)
        else if IsSupplier(d) then
          before.(avail := avail, suppliers := before.suppliers + [d.(delta := -CHANGE_STEP)])
        else if IsDemander(d) then
          before.(avail := avail, demanders := before.demanders + [d.(delta := CHANGE_STEP)])
        else before.(avail := avail)
  }

  /** The first loop succeeds exactly when no running budget goes negative,
      and then ends with the starting budget less every balloon size. */
  lemma {:induction false} ClassifyBudget(data: seq<MemDatum>, avail0: int)
    ensures Classify(data, avail0).ok <==>
      forall k :: 1 <= k <= |data| ==> avail0 - UsedSum(data[..k]) >= 0
    ensures Classify(data, avail0).ok ==> Classify(data, avail0).avail == avail0 - UsedSum(data)
    ensures data != [] && Classify(data, avail0).ok ==> Classify(data, avail0).avail >= 0
    decreases |data|
  {
    if data != [] {
      var init := data[..|data| - 1];
      ClassifyBudget(init, avail0);
      assert data[..|data|] == data;
      forall k | 1 <= k <= |init| ensures init[..k] == data[..k] {
      }
    }
  }

  /** Every supplier is an input domain over the supply threshold with the
      negative step, every demander one under the demand threshold with the
      positive step, and no domain is in both lists. */
  lemma {:induction false} ClassifySplits(data: seq<MemDatum>, avail0: int)
    ensures forall s :: s in Classify(data, avail0).suppliers ==>
      s.delta == -CHANGE_STEP && IsSupplier(s) && s.(delta := 0) in Zeroed(data)
    ensures forall s :: s in Classify(data, avail0).demanders ==>
      s.delta == CHANGE_STEP && IsDemander(s) && s.(delta := 0) in Zeroed(data)
    ensures |Classify(data, avail0).suppliers| + |Classify(data, avail0).demanders| <= |data|
    decreases |data|
  {
    if data != [] {
      var init := data[..|data| - 1];
      ClassifySplits(init, avail0);
      assert Zeroed(data) == Zeroed(init) + [data[|data| - 1].(delta := 0)];
    }
  }

  /** The domains with their step cleared, to compare list members with
      inputs whatever step they carried. */
  function Zeroed(data: seq<MemDatum>): (z: seq<MemDatum>)
    ensures |z| == |data|
    decreases |data|
  {
    if data == [] then [] else Zeroed(data[..|data| - 1]) + [data[|data| - 1].(delta := 0)]
  }

  lemma {:induction false} ClassifyStops(data: seq<MemDatum>, i: nat, avail0: int)
    requires i <= |data| && !Classify(data[..i], avail0).ok
    ensures Classify(data, avail0) == Classify(data[..i], avail0)
    decreases |data| - i
  {
    if i < |data| {
      assert data[..|data| - 1][..i] == data[..i];
      ClassifyStops(data[..|data| - 1], i, avail0);
    } else {
      assert data[..i] == data;
    }
  }

  /** The first loop, moving each domain into the supplier or demander list. */
  method ClassifyAll(data: seq<MemDatum>, avail0: int)
    returns (ok: bool, avail: int, suppliers: seq<MemDatum>, demanders: seq<MemDatum>)
    ensures Classification(ok, avail, suppliers, demanders) == Classify(data, avail0)
  {
    avail, suppliers, demanders := avail0, [], [];
    var i := 0;
    while i < |data|
      invariant 0 <= i <= |data|
      invariant Classify(data[..i], avail0) == Classification(true, avail, suppliers, demanders)
    {
      assert data[..i + 1][..i] == data[..i];
      var d := data[i];
      var next := avail - d.used;
      if next < 0 {
        ClassifyStops(data, i + 1, avail0);
        return false, avail, suppliers, demanders;
      }
      avail := next;
      if IsSupplier(d) {
        suppliers := suppliers + [d.(delta := -CHANGE_STEP)];
      } else if IsDemander(d) {
        demanders := demanders + [d.(delta := CHANGE_STEP)];
      }
      i := i + 1;
    }
    assert data[..|data|] == data;
    ok := true;
  }

  /****************************** reclaim ******************************/

  /** Running state of the reclaim and grant loops: whether they are still
      running, the budget, the number of demanders still counted as
      requesting, and the requests issued so far. */
  datatype Ledger = Ledger(ok: bool, avail: int, pending: nat, requests: seq<SetRequest>)

  /** A supplier's new size: its balloon size less the step, but never below
      MINIMUM_DOMAIN_MEMORY. */
  function SupplierChunk(d: MemDatum): (chunk: int)
    ensures chunk >= MINIMUM_DOMAIN_MEMORY
    ensures chunk >= d.used + d.delta
    ensures chunk == d.used + d.delta || chunk == MINIMUM_DOMAIN_MEMORY
  {
    if d.used + d.delta < MINIMUM_DOMAIN_MEMORY then MINIMUM_DOMAIN_MEMORY else d.used + d.delta
  }

  /** One supplier: fail when the budget would go negative; otherwise issue
      the request and, only when it is accepted, take the new budget. */
  function ReclaimStep(d: MemDatum, g: Ledger, accepts: SetRequest -> bool): Ledger
  {
    var chunk := SupplierChunk(d);
    var result := g.avail - chunk + d.used;
    if result < 0 then g.(ok := false)
    else
      var req := SetRequest(d.domain, chunk);
      if !accepts(req) then g.(requests := g.requests + [req])
      else g.(avail := result, requests := g.requests + [req])
  }

  function Reclaim(suppliers: seq<MemDatum>, start: Ledger, accepts: SetRequest -> bool): (g: Ledger)
    ensures g.pending == start.pending
    decreases |suppliers|
  {
    if suppliers == [] then start
    else
      var before := Reclaim(suppliers[..|suppliers| - 1], start, accepts);
      if !before.ok then before else ReclaimStep(suppliers[|suppliers| - 1], before, accepts)
  }

  lemma {:induction false} ReclaimStops(suppliers: seq<MemDatum>, i: nat, start: Ledger, accepts: SetRequest -> bool)
    requires i <= |suppliers| && !Reclaim(suppliers[..i], start, accepts).ok
    ensures Reclaim(suppliers, start, accepts) == Reclaim(suppliers[..i], start, accepts)
    decreases |suppliers| - i
  {
    if i < |suppliers| {
      assert suppliers[..|suppliers| - 1][..i] == suppliers[..i];
      ReclaimStops(suppliers[..|suppliers| - 1], i, start, accepts);
    } else {
      assert suppliers[..i] == suppliers;
    }
  }

  /** The budget never goes negative while reclaiming, every request asks for
      at least MINIMUM_DOMAIN_MEMORY, at most one request is issued per
      supplier, and the count of requesting domains is not touched. */
  lemma {:induction false} ReclaimKeepsBudget(suppliers: seq<MemDatum>, start: Ledger, accepts: SetRequest -> bool)
    requires start.avail >= 0
    ensures Reclaim(suppliers, start, accepts).avail >= 0
    ensures |start.requests| <= |Reclaim(suppliers, start, accepts).requests| <= |start.requests| + |suppliers|
    ensures Reclaim(suppliers, start, accepts).requests[..|start.requests|] == start.requests
    ensures forall k :: |start.requests| <= k < |Reclaim(suppliers, start, accepts).requests| ==>
      Reclaim(suppliers, start, accepts).requests[k].kib >= MINIMUM_DOMAIN_MEMORY
    decreases |suppliers|
  {
    if suppliers != [] {
      ReclaimKeepsBudget(suppliers[..|suppliers| - 1], start, accepts);
    }
  }

  /** The reclaim loop. */
  method ReclaimAll(suppliers: seq<MemDatum>, start: Ledger, accepts: SetRequest -> bool)
    returns (g: Ledger)
    requires start.ok
    ensures g == Reclaim(suppliers, start, accepts)
  {
    g := start;
    var i := 0;
    while i < |suppliers|
      invariant 0 <= i <= |suppliers|
      invariant g == Reclaim(suppliers[..i], start, accepts) && g.ok
    {
      assert suppliers[..i + 1][..i] == suppliers[..i];
      var d := suppliers[i];
      var chunk := d.used + d.delta;
      if chunk < MINIMUM_DOMAIN_MEMORY {
        chunk := MINIMUM_DOMAIN_MEMORY;
      }
      var result := g.avail - chunk + d.used;
      if result < 0 {
        g := g.(ok := false);
        ReclaimStops(suppliers, i + 1, start, accepts);
        return;
      }
      var req := SetRequest(d.domain, chunk);
      g := g.(requests := g.requests + [req]);
      if accepts(req) {
        g := g.(avail := result);
      }
      i := i + 1;
    }
    assert suppliers[..|suppliers|] == suppliers;
  }

  /*************************** demander order ***************************/

  /** The pressure order: pressure per vCPU is delta / number_of_vCPUs, a
      positive step over zero vCPUs being +infinity. Every demander carries
      the same step, so a higher pressure is fewer vCPUs, and all domains
      without vCPUs tie ahead of the rest. */
  function PressureKey(d: MemDatum): int
  {
    if d.vcpuCount == 0 then 1 else -(d.vcpuCount as int)
  }

  /** For demanders with vCPUs the key orders them as the pressure per vCPU
      does. */
  lemma PressureKeyOrders(a: MemDatum, b: MemDatum)
    requires a.delta == CHANGE_STEP && b.delta == CHANGE_STEP
    requires a.vcpuCount > 0 && b.vcpuCount > 0
    ensures PressureKey(a) > PressureKey(b) <==>
      (a.delta as real) / (a.vcpuCount as real) > (b.delta as real) / (b.vcpuCount as real)
  {
    var x := CHANGE_STEP as real;
    var na, nb := a.vcpuCount as real, b.vcpuCount as real;
    var pa, pb := x / na, x / nb;
    assert pa * na == x && pb * nb == x;
    assert pa > 0.0 && pb > 0.0;
    if na < nb {
      assert pb * na < pb * nb;
      assert (pa - pb) * na == pa * na - pb * na;
      assert (pa - pb) * na > 0.0;
      assert pa - pb == ((pa - pb) * na) / na;
    } else if na > nb {
      assert pa * nb < pa * na;
      assert (pb - pa) * nb == pb * nb - pa * nb;
      assert x - pa * nb > 0.0;
      assert (pb - pa) * nb > 0.0;
      assert pb - pa == ((pb - pa) * nb) / nb;
    }
  }

  /******************************** grant ********************************/

  function Abs(x: int): nat
  {
    if x < 0 then -x else x
  }

  /** Conversion of a double to an integer: rounds toward zero. */
  function TruncDiv(a: int, b: nat): (q: int)
    requires b > 0
    ensures a >= 0 ==> q * b <= a < q * b + b
    ensures a < 0 ==> q * b - b < a <= q * b
  {
    if a >= 0 then a / b else -((-a) / b)
  }

  /** std::ceil of a non-negative quotient. */
  function CeilDiv(a: nat, b: nat): (q: nat)
    requires b > 0
    ensures q * b >= a && (q == 0 || (q - 1) * b < a)
  {
    (a + b - 1) / b
  }

  /** A request that fits the budget: the balloon size plus the step, capped
      at the domain's limit. */
  function FullChunk(d: MemDatum): (chunk: int)
    ensures chunk <= d.limit && chunk <= d.used + d.delta
    ensures chunk == d.limit || chunk == d.used + d.delta
  {
    if d.used + d.delta > d.limit then d.limit else d.used + d.delta
  }

  /** A request in the split branch: the balloon size plus the step divided
      by the number of requesting domains, capped at the limit. */
  function SplitChunk(d: MemDatum, pending: nat): (chunk: int)
    requires pending > 0
    ensures chunk <= d.limit && chunk <= TruncDiv(d.used * pending + d.delta, pending)
    ensures chunk == d.limit || chunk == TruncDiv(d.used * pending + d.delta, pending)
  {
    var c := TruncDiv(d.used * pending + d.delta, pending);
    if c > d.limit then d.limit else c
  }

  /** The integer the split branch computes is `used + delta / n` in double
      arithmetic, converted toward zero. */
  lemma SplitQuotient(used: int, delta: int, n: nat)
    requires n > 0
    ensures var q := TruncDiv(used * n + delta, n);
            var x := used as real + delta as real / n as real;
            (used * n + delta >= 0 ==> q as real <= x < (q + 1) as real) &&
            (used * n + delta < 0 ==> (q - 1) as real < x <= q as real)
  {
    var a := used * n + delta;
    var q := TruncDiv(a, n);
    SplitScaled(used, delta, n);
    if a >= 0 {
      BetweenMultiples(q, a, n, used as real + delta as real / n as real);
    } else {
      BetweenMultiples(q - 1, a, n, used as real + delta as real / n as real);
    }
  }

  /** A real whose multiple by `n` is an integer lying between two
      consecutive multiples of `n` lies between the two factors. */
  lemma BetweenMultiples(k: int, a: int, n: nat, x: real)
    requires n > 0 && x * n as real == a as real
    requires k * n <= a <= k * n + n
    ensures k as real <= x <= (k + 1) as real
    ensures a < k * n + n ==> x < (k + 1) as real
    ensures k * n < a ==> k as real < x
  {
    var r := n as real;
    assert (k * n) as real == k as real * r;
    assert (k * n + n) as real == (k as real + 1.0) * r;
  }

  /** Scaling `used + delta / n` back by `n` gives the integer numerator. */
  lemma SplitScaled(used: int, delta: int, n: nat)
    requires n > 0
    ensures (used as real + delta as real / n as real) * n as real == (used * n + delta) as real
  {
    assert (used * n) as real == used as real * n as real;
  }

  /** One demander. When the step fits the budget, issue the capped request
      (a refused one is skipped); otherwise, when a share of the budget is
      smaller than the budget, issue the split request (a refused one is a
      failure). Either check fails on a negative budget or request. A
      granted request lowers the count of requesting domains, never below 1. */
  function GrantStep(d: MemDatum, g: Ledger, accepts: SetRequest -> bool): Ledger
    requires g.pending > 0
  {
    if Abs(d.delta) < g.avail then
      var chunk := FullChunk(d);
      var result := g.avail - chunk + d.used;
      if result < 0 || chunk < 0 then g.(ok := false)
      else
        var req := SetRequest(d.domain, chunk);
        if !accepts(req) then g.(requests := g.requests + [req])
        else g.(avail := result, pending := if g.pending > 1 then g.pending - 1 else g.pending,
                requests := g.requests + [req])
    else
      var share := CeilDiv(Abs(g.avail), g.pending);
      if g.pending > 0 && share < g.avail then
        var chunk := SplitChunk(d, g.pending);
        var result := g.avail - chunk + d.used;
        if result < 0 || chunk < 0 then g.(ok := false)
        else
          var req := SetRequest(d.domain, chunk);
          if !accepts(req) then g.(ok := false, requests := g.requests + [req])
          else g.(avail := result, pending := if g.pending > 1 then g.pending - 1 else g.pending,
                  requests := g.requests + [req])
      else g
  }

  function Grant(demanders: seq<MemDatum>, start: Ledger, accepts: SetRequest -> bool): (g: Ledger)
    requires demanders != [] ==> start.pending > 0
    ensures demanders != [] ==> g.pending > 0
    decreases |demanders|
  {
    if demanders == [] then start
    else
      var before := Grant(demanders[..|demanders| - 1], start, accepts);
      if !before.ok then before else GrantStep(demanders[|demanders| - 1], before, accepts)
  }

  lemma {:induction false} GrantStops(demanders: seq<MemDatum>, i: nat, start: Ledger, accepts: SetRequest -> bool)
    requires 0 < i <= |demanders| && start.pending > 0 && !Grant(demanders[..i], start, accepts).ok
    ensures Grant(demanders, start, accepts) == Grant(demanders[..i], start, accepts)
    decreases |demanders| - i
  {
    if i < |demanders| {
      assert demanders[..|demanders| - 1][..i] == demanders[..i];
      GrantStops(demanders[..|demanders| - 1], i, start, accepts);
    } else {
      assert demanders[..i] == demanders;
    }
  }

  /** The budget never goes negative while granting, the count of
      requesting domains stays between 1 and its start, and every request
      is non-negative (each is also capped at its domain's limit, see
      FullChunk and SplitChunk). */
  lemma {:induction false} GrantKeepsBudget(demanders: seq<MemDatum>, start: Ledger, accepts: SetRequest -> bool)
    requires start.avail >= 0 && start.pending > 0
    ensures Grant(demanders, start, accepts).avail >= 0
    ensures 1 <= Grant(demanders, start, accepts).pending <= start.pending
    ensures |start.requests| <= |Grant(demanders, start, accepts).requests| <= |start.requests| + |demanders|
    ensures Grant(demanders, start, accepts).requests[..|start.requests|] == start.requests
    ensures forall k :: |start.requests| <= k < |Grant(demanders, start, accepts).requests| ==>
      Grant(demanders, start, accepts).requests[k].kib >= 0
    decreases |demanders|
  {
    if demanders != [] {
      GrantKeepsBudget(demanders[..|demanders| - 1], start, accepts);
    }
  }

  /** With a single requesting domain the split branch never issues a
      request: the share of the budget is the whole budget. */
  lemma SplitNeedsTwo(d: MemDatum, g: Ledger, accepts: SetRequest -> bool)
    requires g.pending == 1 && g.avail >= 0 && Abs(d.delta) >= g.avail
    ensures GrantStep(d, g, accepts) == g
  {
    assert CeilDiv(Abs(g.avail), 1) == g.avail;
  }

  /** A hypervisor that accepts every request. */
  function AcceptAll(req: SetRequest): bool
  {
    true
  }

  /** The split branch grants the step divided by the number of requesting
      domains, not the share of the budget it tested, so it can overdraw and
      fail: two demanders of 0 KiB facing a budget of 10000 KiB. */
  lemma SplitOverdraws()
    ensures var d := MemDatum(0, "", Domain(0), 1, 0, 0, 1048576, CHANGE_STEP);
            var g := Grant([d, d], Ledger(true, 10000, 2, []), AcceptAll);
            !g.ok && g.requests == []
  {
    var d := MemDatum(0, "", Domain(0), 1, 0, 0, 1048576, CHANGE_STEP);
    var start := Ledger(true, 10000, 2, []);
    assert Abs(d.delta) == 20480;
    assert CeilDiv(10000, 2) == 5000;
    assert d.used * 2 + d.delta == 20480;
    assert TruncDiv(20480, 2) == 10240;
    assert SplitChunk(d, 2) == 10240;
    var first := GrantStep(d, start, AcceptAll);
    assert first == start.(ok := false);
    assert [d][..0] == [];
    assert Grant([d], start, AcceptAll) == first;
    assert [d, d][..1] == [d];
  }

  /** One pass of the grant loop for one demanding domain. */
  method GrantOne(d: MemDatum, g: Ledger, accepts: SetRequest -> bool) returns (g': Ledger)
    requires g.ok && g.pending > 0
    ensures g' == GrantStep(d, g, accepts)
  {
    g' := g;
    var limit := d.limit;
    if Abs(d.delta) < g'.avail {
      var chunk := d.used + d.delta;
      if chunk > limit {
        chunk := limit;
      }
      var result := g'.avail - chunk + d.used;
      if result < 0 || chunk < 0 {
        g' := g'.(ok := false);
        return;
      }
      var req := SetRequest(d.domain, chunk);
      g' := g'.(requests := g'.requests + [req]);
      if accepts(req) {
        g' := g'.(avail := result);
        if g'.pending > 1 {
          g' := g'.(pending := g'.pending - 1);
        }
      }
    } else {
      var share := CeilDiv(Abs(g'.avail), g'.pending);
      var requesting := g'.pending > 0;
      if requesting && share < g'.avail {
        var chunk := TruncDiv(d.used * g'.pending + d.delta, g'.pending);
        if chunk > limit {
          chunk := limit;
        }
        var result := g'.avail - chunk + d.used;
        if result < 0 || chunk < 0 {
          g' := g'.(ok := false);
          return;
        }
        var req := SetRequest(d.domain, chunk);
        g' := g'.(requests := g'.requests + [req]);
        if !accepts(req) {
          g' := g'.(ok := false);
          return;
        }
        g' := g'.(avail := result);
        if g'.pending > 1 {
          g' := g'.(pending := g'.pending - 1);
        }
      }
    }
  }

  /** The grant loop: hands memory to the demanding domains in order and
      stops at the first failure. */
  method GrantAll(demanders: array<MemDatum>, start: Ledger, accepts: SetRequest -> bool)
    returns (g: Ledger)
    requires start.ok && (demanders.Length > 0 ==> start.pending > 0)
    ensures g == Grant(demanders[..], start, accepts)
  {
    g := start;
    var i := 0;
    while i < demanders.Length
      invariant 0 <= i <= demanders.Length
      invariant g == Grant(demanders[..i], start, accepts) && g.ok
      invariant demanders.Length > 0 ==> g.pending > 0
    {
      assert demanders[..i + 1][..i] == demanders[..i];
      g := GrantOne(demanders[i], g, accepts);
      if !g.ok {
        GrantStops(demanders[..], i + 1, start, accepts);
        return;
      }
      i := i + 1;
    }
    assert demanders[..demanders.Length] == demanders[..];
  }

  /****************************** scheduler ******************************/

  /** What the scheduler does, phase by phase: its status and the requests
      it issues. */
  function Outcome(data: seq<MemDatum>, systemLimit: int, accepts: SetRequest -> bool): (Status, seq<SetRequest>)
  {
    if data == [] then (Failure, [])
    else
      var c := Classify(data, systemLimit - MINIMUM_SYSTEM_MEMORY);
      if !c.ok then (Failure, [])
      else
        var r := Reclaim(c.suppliers, Ledger(true, c.avail, |c.demanders|, []), accepts);
        if !r.ok then (Failure, r.requests)
        else
          var g := Grant(SortDesc(c.demanders, PressureKey), r, accepts);
          (if g.ok then Success else Failure, g.requests)
  }

  /** manager::scheduler: fails on empty data, and otherwise runs the four
      phases, stopping at the first failure. */
  method Schedule(data: seq<MemDatum>, systemLimit: int, accepts: SetRequest -> bool)
    returns (status: Status, requests: seq<SetRequest>)
    ensures (status, requests) == Outcome(data, systemLimit, accepts)
  {
    if data == [] {
      return Failure, [];
    }
    ghost var avail0 := systemLimit - MINIMUM_SYSTEM_MEMORY;
    var ok, avail, suppliers, demanders := ClassifyAll(data, systemLimit - MINIMUM_SYSTEM_MEMORY);
    if !ok {
      return Failure, [];
    }
    var pending := |demanders|;
    ghost var start := Ledger(true, avail, pending, []);
    var g := ReclaimAll(suppliers, Ledger(true, avail, pending, []), accepts);
    ghost var r := g;
    if !g.ok {
      return Failure, g.requests;
    }
    var order := new MemDatum[|demanders|](k requires 0 <= k < |demanders| => demanders[k]);
    assert order[..] == demanders;
    SortInPlace(order, PressureKey);
    g := GrantAll(order, g, accepts);
    assert g == Grant(SortDesc(demanders, PressureKey), r, accepts);
    status := if g.ok then Success else Failure;
    requests := g.requests;
  }

  /** Over a whole round the budget never goes negative and every request is
      non-negative; reclaim requests come first and each asks for at least
      MINIMUM_DOMAIN_MEMORY. */
  lemma OutcomeKeepsBudget(data: seq<MemDatum>, systemLimit: int, accepts: SetRequest -> bool)
    requires data != []
    requires Classify(data, systemLimit - MINIMUM_SYSTEM_MEMORY).ok
    ensures var c := Classify(data, systemLimit - MINIMUM_SYSTEM_MEMORY);
            var r := Reclaim(c.suppliers, Ledger(true, c.avail, |c.demanders|, []), accepts);
            r.avail >= 0 &&
            (forall k :: 0 <= k < |r.requests| ==> r.requests[k].kib >= MINIMUM_DOMAIN_MEMORY) &&
            (r.ok ==> |r.requests| <= |Outcome(data, systemLimit, accepts).1| &&
                      Outcome(data, systemLimit, accepts).1[..|r.requests|] == r.requests) &&
            forall k :: 0 <= k < |Outcome(data, systemLimit, accepts).1| ==> Outcome(data, systemLimit, accepts).1[k].kib >= 0
  {
    var avail0 := systemLimit - MINIMUM_SYSTEM_MEMORY;
    ClassifyBudget(data, avail0);
    var c := Classify(data, avail0);
    var start := Ledger(true, c.avail, |c.demanders|, []);
    ReclaimKeepsBudget(c.suppliers, start, accepts);
    var r := Reclaim(c.suppliers, start, accepts);
    if r.ok && c.demanders != [] {
      var sorted := SortDesc(c.demanders, PressureKey);
      SortDescCorrect(c.demanders, PressureKey);
      GrantKeepsBudget(sorted, r, accepts);
    }
  }
}
