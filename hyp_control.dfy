/** The hypervisor_manager of the test environment: it lists running domains
    by name, and starts, shuts down, kills, resizes and pins them one by one
    or in bulk through a libvirt connection. The connection's answers are
    inputs (the running domain names in listing order, the names a lookup
    finds, the host information record), and every backend call it makes is
    recorded, in order, in a command trace. */
module HypControl {
  import opened Libvirt

  /** str.startswith. */
  predicate StartsWith(s: string, prefix: string)
  {
    |prefix| <= |s| && s[..|prefix|] == prefix
  }

  /** The names that start with `filter`, in their listing order. */
  function Filtered(names: seq<string>, filter: string): seq<string>
    decreases |names|
  {
    if names == [] then []
    else (if StartsWith(names[0], filter) then [names[0]] else []) + Filtered(names[1..], filter)
  }

  /** domain_names: every running name when the filter is falsy (None or
      the empty string), otherwise those that start with the filter. */
  function DomainNames(names: seq<string>, filter: Option<string>): (r: seq<string>)
    ensures filter == None || filter == Some("") ==> r == names
    ensures filter.Some? && filter.value != "" ==>
      forall x :: x in r <==> x in names && StartsWith(x, filter.value)
  {
    if filter == None || filter == Some("") then names
    else
      FilteredMembers(names, filter.value);
      Filtered(names, filter.value)
  }

  /** A name is kept exactly when it is listed and starts with the filter. */
  lemma {:induction false} FilteredMembers(names: seq<string>, filter: string)
    ensures forall x :: x in Filtered(names, filter) <==> x in names && StartsWith(x, filter)
    decreases |names|
  {
    if names != [] {
      FilteredMembers(names[1..], filter);
      assert forall x :: x in names <==> x == names[0] || x in names[1..];
    }
  }

  /** Filtering keeps the listing order: it distributes over concatenation. */
  lemma {:induction false} FilteredAppend(a: seq<string>, b: seq<string>, filter: string)
    ensures Filtered(a + b, filter) == Filtered(a, filter) + Filtered(b, filter)
    decreases |a|
  {
    if a == [] {
      assert a + b == b;
    } else {
      assert (a + b)[0] == a[0] && (a + b)[1..] == a[1..] + b;
      FilteredAppend(a[1..], b, filter);
    }
  }

  /** The empty prefix keeps everything, so the falsy empty filter and the
      filter that matches every name agree. */
  lemma {:induction false} FilteredByEmpty(names: seq<string>)
    ensures Filtered(names, "") == names
    decreases |names|
  {
    if names != [] {
      FilteredByEmpty(names[1..]);
    }
  }

  /** The host information record getInfo returns, field by field. */
  datatype HostInfo = HostInfo(model: string, memory: int, cpus: int, mhz: int,
                               nodes: int, sockets: int, cores: int, threads: int)

  /** number_of_pCPUs: the product of entries 4 to 7 of the host
      information record (NUMA nodes, sockets, cores, threads). */
  function PcpuCount(info: HostInfo): (count: int)
    ensures info.nodes >= 1 && info.sockets >= 1 && info.cores >= 1 && info.threads >= 1 ==>
      count >= info.nodes && count >= info.sockets && count >= info.cores && count >= info.threads
  {
    if info.nodes >= 1 && info.sockets >= 1 && info.cores >= 1 && info.threads >= 1 then
      ProductAtLeast(info.nodes, info.sockets);
      ProductAtLeast(info.nodes * info.sockets, info.cores);
      ProductAtLeast(info.nodes * info.sockets * info.cores, info.threads);
      info.nodes * info.sockets * info.cores * info.threads
    else
      info.nodes * info.sockets * info.cores * info.threads
  }

  /** A product of two positive factors is at least each of them. */
  lemma ProductAtLeast(a: int, b: int)
    requires a >= 1 && b >= 1
    ensures a * b >= a && a * b >= b
  {
    assert a * b == a * (b - 1) + a;
    assert a * b == (a - 1) * b + b;
  }

  /** Length of `[x] * n` in Python: zero for a non-positive n. */
  function Repeat(n: int): nat
  {
    if n < 0 then 0 else n
  }

  /** The slot a Python list index names: a negative index counts from the
      end; an index outside the list raises IndexError (None). */
  function PyIndex(length: nat, index: int): (slot: Option<nat>)
    ensures slot.Some? <==> -(length as int) <= index < length
    ensures slot.Some? ==> slot.value < length && (slot.value == index || slot.value == index + length)
  {
    if 0 <= index < length then Some(index)
    else if -(length as int) <= index < 0 then Some(index + length)
    else None
  }

  /** __pCPU_bitmap: `n` slots, all False but the one `rank` names, which is
      True; a rank outside the list raises (None). */
  function PinBitmap(n: int, rank: int): (bitmap: Option<seq<bool>>)
    ensures bitmap.Some? <==> -(Repeat(n) as int) <= rank < Repeat(n)
    ensures bitmap.Some? ==>
      |bitmap.value| == Repeat(n) &&
      forall k :: 0 <= k < Repeat(n) ==> (bitmap.value[k] <==> k == PyIndex(Repeat(n), rank).value)
  {
    match PyIndex(Repeat(n), rank)
    case None => None
    case Some(slot) => Some(seq(Repeat(n), _ => false)[slot := true])
  }

  /** On a host with at least one NUMA node, socket, core and thread, every
      pCPU rank (and its negative twin) names a bitmap with one slot per pCPU
      and that rank alone allowed; ranks past the pCPU count raise. */
  lemma {:induction false} HostPinsEveryPcpu(info: HostInfo, rank: int)
    requires info.nodes >= 1 && info.sockets >= 1 && info.cores >= 1 && info.threads >= 1
    ensures PcpuCount(info) >= 1
    ensures PinBitmap(PcpuCount(info), rank).Some? <==> -PcpuCount(info) <= rank < PcpuCount(info)
    ensures 0 <= rank < PcpuCount(info) ==>
      |PinBitmap(PcpuCount(info), rank).value| == PcpuCount(info) &&
      forall k :: 0 <= k < PcpuCount(info) ==> (PinBitmap(PcpuCount(info), rank).value[k] <==> k == rank)
  {
    var count := PcpuCount(info);
    assert Repeat(count) == count;
  }

  /** The mask unmap_vCPU pins with: every pCPU allowed. */
  function UnpinMask(n: int): (mask: seq<bool>)
    ensures |mask| == Repeat(n) && forall k :: 0 <= k < |mask| ==> mask[k]
  {
    seq(Repeat(n), _ => true)
  }

  /** Exactly one pCPU of a pin bitmap is allowed, so pinning with it
      differs from the unpin mask whenever there are two pCPUs or more. */
  lemma PinDiffersFromUnpin(n: int, rank: int)
    requires PinBitmap(n, rank).Some? && n >= 2
    ensures PinBitmap(n, rank).value != UnpinMask(n)
  {
    var slot := PyIndex(Repeat(n), rank).value;
    var other := if slot == 0 then 1 else 0;
    assert !PinBitmap(n, rank).value[other];
  }

  /** set_memory and set_memory_limit take MiB and hand KiB to the backend. */
  function Kib(mib: int): (kib: int)
    ensures kib / 1024 == mib && kib % 1024 == 0
  {
    mib * 1024
  }

  /** A backend call the manager issues. */
  datatype Command =
    | Create(name: string)
    | Shutdown(name: string)
    | Destroy(name: string)
    | SetMemory(name: string, kib: int)
    | SetMaxMemory(name: string, kib: int)
    | PinVcpu(name: string, vcpu: int, mapping: seq<bool>)
    | Sleep(seconds: int)

  /** The settle interval, in seconds, start_filtered_domains sleeps for when
      its caller gives none. */
  const START_SETTLE: int := 3

  /** The settle interval, in seconds, shutdown_filtered_domains and
      kill_filtered_domains sleep for when their caller gives none. */
  const STOP_SETTLE: int := 5

  /** The single-domain operations the bulk methods repeat. */
  datatype Op = Stop | Kill | Memory(mib: int) | Limit(mib: int)

  function CommandFor(op: Op, name: string): Command
  {
    match op
    case Stop => Shutdown(name)
    case Kill => Destroy(name)
    case Memory(mib) => SetMemory(name, Kib(mib))
    case Limit(mib) => SetMaxMemory(name, Kib(mib))
  }

  /** What one operation issues: nothing when the lookup fails, since the
      exception it raises is caught and printed. */
  function Single(op: Op, name: string, known: set<string>): seq<Command>
  {
    if name in known then [CommandFor(op, name)] else []
  }

  /** What a bulk operation issues over `names`. */
  function Bulk(op: Op, names: seq<string>, known: set<string>): seq<Command>
    decreases |names|
  {
    if names == [] then [] else Single(op, names[0], known) + Bulk(op, names[1..], known)
  }

  /** When the lookup finds every name, a bulk operation issues one command
      per name, in the order of the names. */
  lemma {:induction false} BulkOnePerName(op: Op, names: seq<string>, known: set<string>)
    requires forall k :: 0 <= k < |names| ==> names[k] in known
    ensures |Bulk(op, names, known)| == |names|
    ensures forall k :: 0 <= k < |names| ==> Bulk(op, names, known)[k] == CommandFor(op, names[k])
    decreases |names|
  {
    if names != [] {
      BulkOnePerName(op, names[1..], known);
    }
  }

  /** A bulk operation issues a command exactly for the names the lookup
      finds, and skips the others. */
  lemma {:induction false} BulkMembers(op: Op, names: seq<string>, known: set<string>)
    ensures forall c :: c in Bulk(op, names, known) <==>
      exists k :: 0 <= k < |names| && names[k] in known && c == CommandFor(op, names[k])
    decreases |names|
  {
    if names != [] {
      BulkMembers(op, names[1..], known);
      forall c | c in Bulk(op, names, known)
        ensures exists k :: 0 <= k < |names| && names[k] in known && c == CommandFor(op, names[k])
      {
        if c !in Single(op, names[0], known) {
          assert Bulk(op, names, known) == Single(op, names[0], known) + Bulk(op, names[1..], known);
          assert c in Bulk(op, names[1..], known);
          var k :| 0 <= k < |names[1..]| && names[1..][k] in known && c == CommandFor(op, names[1..][k]);
          assert names[k + 1] == names[1..][k];
        }
      }
      forall k | 0 <= k < |names| && names[k] in known
        ensures CommandFor(op, names[k]) in Bulk(op, names, known)
      {
        if k > 0 {
          assert names[1..][k - 1] == names[k];
        }
      }
    }
  }

  /** Index of the first name the lookup does not find, or |names|. */
  function FirstUnknown(names: seq<string>, known: set<string>): (k: nat)
    ensures k <= |names|
    ensures forall j :: 0 <= j < k ==> names[j] in known
    ensures k < |names| ==> names[k] !in known
    decreases |names|
  {
    if names == [] || names[0] !in known then 0 else 1 + FirstUnknown(names[1..], known)
  }

  /** What starting `names` one by one issues: start_domain catches only
      libvirt errors, so the plain exception a failed lookup raises escapes
      and ends the loop at the first unknown name. */
  function Started(names: seq<string>, known: set<string>): seq<Command>
    decreases |names|
  {
    if names == [] || names[0] !in known then [] else [Create(names[0])] + Started(names[1..], known)
  }

  /** The names started are exactly those before the first unknown one. */
  lemma {:induction false} StartedStopsAtUnknown(names: seq<string>, known: set<string>)
    ensures |Started(names, known)| == FirstUnknown(names, known)
    ensures forall k :: 0 <= k < FirstUnknown(names, known) ==> Started(names, known)[k] == Create(names[k])
    decreases |names|
  {
    if names != [] && names[0] in known {
      StartedStopsAtUnknown(names[1..], known);
    }
  }

  /** hypervisor_manager over one connection: what the connection answers
      and the commands issued through it. */
  class HypervisorManager {
    /** The running domains' names, in the order listDomainsID gives them. */
    const running: seq<string>
    /** The names lookupByName finds. */
    const known: set<string>
    /** The host information record getInfo returns. */
    const hostInfo: HostInfo
    var trace: seq<Command>

    /** __init__: opens the connection. */
    constructor(running: seq<string>, known: set<string>, hostInfo: HostInfo)
      ensures this.running == running && this.known == known && this.hostInfo == hostInfo
      ensures trace == []
    {
      this.running := running;
      this.known := known;
      this.hostInfo := hostInfo;
      trace := [];
    }

    /** start_domain: a failed lookup raises an exception that escapes;
        otherwise the domain is started (a libvirt error from the start is
        caught). */
    method StartDomain(name: string) returns (escaped: bool)
      modifies this
      ensures escaped <==> name !in known
      ensures trace == old(trace) + (if escaped then [] else [Create(name)])
    {
      if name !in known {
        return true;
      }
      trace := trace + [Create(name)];
      escaped := false;
    }

    /** start_filtered_domains: starts each filtered name in order and then
        sleeps; an escaping exception ends it early, without the sleep. */
    method StartFilteredDomains(filter: Option<string>, interval: int) returns (escaped: bool)
      modifies this
      ensures var names := DomainNames(running, filter);
        (escaped <==> FirstUnknown(names, known) < |names|) &&
        trace == old(trace) + Started(names, known) + (if escaped then [] else [Sleep(interval)])
    {
      var names := DomainNames(running, filter);
      var i := 0;
      while i < |names|
        invariant 0 <= i <= |names|
        invariant forall j :: 0 <= j < i ==> names[j] in known
        invariant Started(names, known) == Started(names[..i], known) + Started(names[i..], known)
        invariant trace == old(trace) + Started(names[..i], known)
      {
        escaped := StartDomain(names[i]);
        if escaped {
          assert names[i..][0] == names[i];
          return;
        }
        StartedStep(names, i, known);
        i := i + 1;
      }
      trace := trace + [Sleep(interval)];
      escaped := false;
    }

    /** shutdown_domain, kill_domain, set_memory and set_memory_limit: look
        the domain up and issue the call; a failed lookup is caught and
        nothing is issued. */
    method Control(op: Op, name: string)
      modifies this
      ensures trace == old(trace) + Single(op, name, known)
    {
      if name !in known {
        return;
      }
      trace := trace + [CommandFor(op, name)];
    }

    /** The loop of the bulk methods: the operation once per name, in order. */
    method ControlAll(op: Op, names: seq<string>)
      modifies this
      ensures trace == old(trace) + Bulk(op, names, known)
    {
      var i := 0;
      while i < |names|
        invariant 0 <= i <= |names|
        invariant trace == old(trace) + Bulk(op, names[..i], known)
      {
        Control(op, names[i]);
        BulkStep(op, names, i, known);
        i := i + 1;
      }
      assert names[..|names|] == names;
    }

    /** shutdown_filtered_domains and kill_filtered_domains: the operation
        over the filtered names, then a sleep. */
    method StopFilteredDomains(op: Op, filter: Option<string>, interval: int)
      requires op == Stop || op == Kill
      modifies this
      ensures trace == old(trace) + Bulk(op, DomainNames(running, filter), known) + [Sleep(interval)]
    {
      ControlAll(op, DomainNames(running, filter));
      trace := trace + [Sleep(interval)];
    }

    /** set_filtered_domains_memory and set_filtered_domains_memory_limit:
        the operation over the filtered names, without a sleep. */
    method SizeFilteredDomains(op: Op, filter: Option<string>)
      requires op.Memory? || op.Limit?
      modifies this
      ensures trace == old(trace) + Bulk(op, DomainNames(running, filter), known)
    {
      ControlAll(op, DomainNames(running, filter));
    }

    /** map_vCPU_to_pCPU: pins the vCPU to the one pCPU `pcpu` names; a
        failed lookup or a rank outside the bitmap is swallowed by the bare
        except, and nothing is pinned. */
    method MapVcpuToPcpu(name: string, vcpu: int, pcpu: int)
      modifies this
      ensures name in known && PinBitmap(PcpuCount(hostInfo), pcpu).Some? ==>
        trace == old(trace) + [PinVcpu(name, vcpu, PinBitmap(PcpuCount(hostInfo), pcpu).value)]
      ensures !(name in known && PinBitmap(PcpuCount(hostInfo), pcpu).Some?) ==> trace == old(trace)
    {
      if name !in known {
        return;
      }
      var bitmap := PinBitmap(PcpuCount(hostInfo), pcpu);
      if bitmap.None? {
        return;
      }
      trace := trace + [PinVcpu(name, vcpu, bitmap.value)];
    }

    /** unmap_vCPU: pins the vCPU to every pCPU. */
    method UnmapVcpu(name: string, vcpu: int)
      modifies this
      ensures trace == old(trace) + (if name in known then [PinVcpu(name, vcpu, UnpinMask(PcpuCount(hostInfo)))] else [])
    {
      if name !in known {
        return;
      }
      trace := trace + [PinVcpu(name, vcpu, UnpinMask(PcpuCount(hostInfo)))];
    }
  }

  lemma BulkStep(op: Op, names: seq<string>, i: nat, known: set<string>)
    requires i < |names|
    ensures Bulk(op, names[..i + 1], known) == Bulk(op, names[..i], known) + Single(op, names[i], known)
  {
    BulkAppend(op, names[..i], [names[i]], known);
    assert names[..i] + [names[i]] == names[..i + 1];
  }

  lemma {:induction false} BulkAppend(op: Op, a: seq<string>, b: seq<string>, known: set<string>)
    ensures Bulk(op, a + b, known) == Bulk(op, a, known) + Bulk(op, b, known)
    decreases |a|
  {
    if a == [] {
      assert a + b == b;
    } else {
      assert (a + b)[0] == a[0] && (a + b)[1..] == a[1..] + b;
      BulkAppend(op, a[1..], b, known);
    }
  }

  lemma StartedStep(names: seq<string>, i: nat, known: set<string>)
    requires i < |names| && forall j :: 0 <= j <= i ==> names[j] in known
    requires Started(names, known) == Started(names[..i], known) + Started(names[i..], known)
    ensures Started(names, known) == Started(names[..i + 1], known) + Started(names[i + 1..], known)
    ensures Started(names[..i + 1], known) == Started(names[..i], known) + [Create(names[i])]
  {
    StartedAppend(names[..i], [names[i]], known);
    assert names[..i] + [names[i]] == names[..i + 1];
    assert names[i..][1..] == names[i + 1..];
  }

  lemma {:induction false} StartedAppend(a: seq<string>, b: seq<string>, known: set<string>)
    requires forall j :: 0 <= j < |a| ==> a[j] in known
    ensures Started(a + b, known) == Started(a, known) + Started(b, known)
    decreases |a|
  {
    if a == [] {
      assert a + b == b;
    } else {
      assert (a + b)[0] == a[0] && (a + b)[1..] == a[1..] + b;
      StartedAppend(a[1..], b, known);
    }
  }
}
