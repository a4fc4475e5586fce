# hypman balancers in Dafny

This project models the two load balancers of hypman and the helpers around them:

- **cpuman**, the vCPU→pCPU balancer. `vCPU::table` builds per-domain vCPU tables. `vCPU::comparable_state` checks that two sampling rounds can be compared. `vCPU::data` flattens them into per-vCPU usage deltas. `pCPU::data` folds those deltas into per-pCPU load. `manager::scheduler` sorts the vCPUs by usage, greedily predicts a mapping with a linear `min_element` search, re-sorts the prediction by rank and, when the analysis favours it, remaps every vCPU.
- **memoryman**, the balloon-memory balancer. `domain::data` fills per-domain memory data from tagged statistics. `hardware_memory_limit` scans the node memory statistics. `manager::scheduler` classifies domains as suppliers or demanders, reclaims memory from suppliers, sorts demanders by memory pressure per vCPU and grants memory out of a running budget.
- **The two drivers.** This covers the interval argument check, the main loops (three strikes in memoryman, fail-fast in cpuman) and the `load_balancer` early-return chains.
- **`util::log::record`**: how a message type picks its prefix and stream, and the line format.
- **The `hypervisor_manager` of the Python test environment**: name filtering, the pCPU count, affinity masks, the MiB→KiB conversion, and the order of the commands its bulk methods issue.

## How the model is built

- Every libvirt call is an input or a recorded request:
  - query answers are inputs (`VcpuProbe`, `MemProbe`, `NodeStat` lists, host information);
  - calls that change the hypervisor are recorded in order (`SetRequest`, `MapRequest`, the harness's `Command` trace);
  - whether the hypervisor accepts a request is an oracle (`accepts`).
- The floating-point dispersion analysis of the CPU scheduler is the oracle `favourable`.
- Hash containers are Dafny maps. The order in which a loop walks one is an explicit input.
- `std::sort` is modelled by a stable insertion sort:
  - `Sorting.SortDesc` is the specification;
  - `Sorting.SortInPlace` works on an array.
- The double-precision coefficients of the memory scheduler are exact:
  - the thresholds use cross-multiplication (`1000 * extra > 115 * limit`);
  - `MINIMUM_DOMAIN_MEMORY * 0.200` is the integer 20480;
  - `std::ceil` is `CeilDiv`;
  - a double converted to an integer is `TruncDiv`.

### Specification functions

The contracts in the table below are stated against these functions, one per step of the source:

- `Vcpu`:
  - `ChangedDomains` is the set of shared domains whose vCPU count changed.
  - `DataReady` says every domain `vCPU::data` does not skip has a previous list at least as long.
  - `Collected` is the entries `vCPU::data` appends over a walk order.
  - `Emptied` is the domain table after `operator[]` has moved the handles out.
- `Pcpu.Loaded` is the pCPU table `pCPU::data` leaves: entry `k` ranked `k`, plus the vCPUs pinned to it.
- `CpuScheduler`:
  - `Greedy` is the assignment loop: each vCPU goes to the entry `min_element` picks.
  - `Predict` is the prediction built from the usage-sorted vCPUs over a value-initialised table.
- `MemoryDomain`:
  - `LastTagged` is the value the statistics scan leaves for one tag.
  - `Stop` is the first domain lacking a needed statistic.
  - `Refreshed` is the data vector `domain::data` leaves.
- `MemoryHardware.LastNonTotal` is the limit the node-statistics scan leaves.
- `MemoryScheduler`:
  - `Classify` is the first loop, which splits suppliers from demanders and charges every balloon size to the budget.
  - `Ledger` is the running state of the reclaim and grant loops: still running, budget, requesting count and requests issued.
  - `ReclaimStep` and `Reclaim` are one supplier and the whole reclaim loop.
  - `GrantStep` and `Grant` are one demander and the whole grant loop.
  - `PressureKey` is the integer key that orders demanders as delta per vCPU.
  - `Outcome` is the whole scheduler run: its status and its requests.
- `Driver`:
  - `IsInterval` is the all-digits check.
  - `Decimal` is the value `std::atoi` reads.
- `Memoryman`:
  - `StepsSucceed` says every step before the scheduler succeeds.
  - `Balance` is one round's status and requests.
  - `Loop` is the three-strike loop's exit and completed passes.
  - `Run` is `main`.
- `Cpuman`:
  - `Loop` is the fail-fast loop with interrupts.
  - `Run` is `main`.
- `Record`:
  - `KindOf` is the prefix and stream choice for a type code.
  - `Parse` reads a logged line back.
- `HypControl`:
  - `Filtered` is the prefix filter.
  - `Bulk` is what a bulk operation issues.
  - `Started` is what starting names one by one issues until the first unknown name.

### Where the model follows the code rather than the design

Each item below is modelled as written, and a lemma exhibits it.

- **CPU comparator** (src/cpu/sys/scheduler.cpp:101-102). It reads the usage of its first argument twice, so usage never decides the order. `min_element` picks the last pCPU with the fewest vCPUs. See `CpuScheduler.ComparatorIgnoresUsage`.
- **Predicted pCPU table** (src/cpu/sys/scheduler.cpp:129-130). The table is value-initialised, so every vCPU is pinned to pCPU rank 0. See `CpuScheduler.PredictPinsToZero`. Under the stable sort the model takes, the re-sort by rank then changes nothing; see `CpuScheduler.RankSortKeepsPrediction`.
- **Second guard of the CPU scheduler** (src/cpu/sys/scheduler.cpp:52-71). It tests the vCPU data again, not the pCPU data. An empty pCPU table with vCPUs would make `min_element` return the end iterator, so `CpuScheduler.Schedule` requires a non-empty pCPU table when there are vCPUs.
- **`comparable_state`** (src/cpu/mod/vcpu/vcpu.cpp:154-176). It never reads its count of domains missing from the previous round. Two tables of equal size with different domains are therefore "comparable"; see `Vcpu.ComparableStateMissesNewDomain`. `vCPU::data` then looks the new domain up in the previous table and dereferences the end iterator `find` returns (src/cpu/mod/vcpu/vcpu.cpp:262-270). That is undefined behaviour, so `Vcpu.Data` requires every domain it does not skip to have a previous list at least as long as its current one.
- **`hardware_memory_limit`** (src/memory/mod/hardware/hardware.cpp:64-73). It sets its found flag when a field compares *unequal* to `"total"`. The limit therefore ends as the value of the last entry that is *not* the total; see `MemoryHardware.TotalIsSkipped`.
- **memoryman's exit signal** (src/memory/memoryman.cpp:108, 122). It starts at `SIG_DEF`, so the balancer loop never runs; see `Memoryman.NeverBalances`.
- **Split branch of the memory grant** (src/memory/sys/scheduler.cpp:268-282). It tests a share of the budget but requests the step divided by the number of requesting domains. It can therefore overdraw and fail; see `MemoryScheduler.SplitOverdraws`.
- **Calls in memoryman's `load_balancer`.** It calls `domain::table`, `domain::domain_uuids` and `hardware::memory_limit`. src/memory/mod/domain/domain.cpp and src/memory/mod/hardware/hardware.cpp define none of them under those names, and `set_collection_period` is defined with other parameters. The model takes those steps' statuses as inputs. It passes the domain table to `domain::data` as its list, and uses `hardware_memory_limit` for the limit.
- **cpuman's `load_balancer`.** It passes the domain list where `vCPU::table` expects a domain table. The model gives `vCPU::table` the (UUID, handle) pairs of the listed domains, in listing order.

## Model

| member | source | states |
|---|---|---|
| Libvirt.AsSigned | src/cpu/mod/vcpu/vcpu.cpp:274-277 | the cast of a CPU-time counter to signed long long is two's complement: in range, congruent modulo 2^64, the identity below 2^63 |
| Libvirt.AsUnsigned | src/cpu/mod/vcpu/vcpu.cpp:296-302 | the cast of a vCPU's signed pCPU number to size_t wraps negatives modulo 2^64 and keeps non-negatives |
| Sorting.SortDesc | src/cpu/sys/scheduler.cpp:77-88 | sorting keeps the length |
| Sorting.InsertPermutes | src/cpu/sys/scheduler.cpp:77-88 | one insertion step adds exactly the inserted element to the multiset |
| Sorting.InsertKeepsSorted | src/cpu/sys/scheduler.cpp:77-88 | inserting into a non-increasing sequence keeps it non-increasing |
| Sorting.SortDescCorrect | src/cpu/sys/scheduler.cpp:77-88 | the sort's result is in non-increasing key order and is a permutation of its input |
| Sorting.SortDescOfSorted | src/cpu/sys/scheduler.cpp:201-212 | sorting a sequence already in order leaves it unchanged |
| Sorting.Sink | src/cpu/sys/scheduler.cpp:77-88 | one pass of the in-place sort inserts element i into the sorted prefix and leaves the rest of the array alone |
| Sorting.SortInPlace | src/cpu/sys/scheduler.cpp:77-88 | the in-place sort of an array leaves exactly the sorted sequence of its old contents |
| Vcpu.Fit | src/cpu/mod/vcpu/vcpu.cpp:61-74 | a vCPU list has exactly the reported number of entries; those the hypervisor did not write stay value-initialised |
| Vcpu.TableOf | src/cpu/mod/vcpu/vcpu.cpp:25-90 | fails exactly on an empty domain table and then leaves the vCPU table alone; otherwise adds a list of exactly max-vCPUs entries for every domain reporting at least one vCPU, even when the vCPU query failed, and never overwrites an existing key |
| Vcpu.ComparableState | src/cpu/mod/vcpu/vcpu.cpp:109-198 | a comparable verdict comes with an empty diff and two non-empty tables of the same size; the diff only names domains of both tables |
| Vcpu.ComparableStateVerdict | src/cpu/mod/vcpu/vcpu.cpp:117-197 | the tables are comparable iff both are non-empty, of equal size, and every shared domain kept its vCPU count; an empty table or a size mismatch gives (false, {}); a non-empty diff is exactly the shared domains whose count changed |
| Vcpu.ComparableStateMissesNewDomain | src/cpu/mod/vcpu/vcpu.cpp:154-176 | a domain of the current round that is missing from the previous one is reported comparable when the sizes match |
| Vcpu.ComparableStateReadiesData | src/cpu/mod/vcpu/vcpu.cpp:262-272 | when both rounds hold the same domains, a comparable verdict (which carries an empty diff) guarantees every previous list is long enough for the unchecked indexing of `data` |
| Vcpu.UsageDelta | src/cpu/mod/vcpu/vcpu.cpp:274-293 | the usage is the signed CPU-time difference, or zero exactly when that difference is not positive |
| Vcpu.UsageDeltaOfMonotoneCounter | src/cpu/mod/vcpu/vcpu.cpp:274-293 | for a counter that moved forward below 2^63, the usage is the plain difference |
| Vcpu.DomainBlock | src/cpu/mod/vcpu/vcpu.cpp:266-303 | a domain contributes exactly one entry per vCPU |
| Vcpu.AppendDomain | src/cpu/mod/vcpu/vcpu.cpp:266-304 | the inner loop appends the domain's block of entries, and the domain's handle is emptied in the table exactly when the domain has a vCPU |
| Vcpu.Data | src/cpu/mod/vcpu/vcpu.cpp:218-308 | fails exactly when one of the three input tables is empty, changing nothing; otherwise the output is rebuilt from empty as the entries of the walked domains outside the diff, and the domain table is left with the moved handles emptied |
| Vcpu.CollectedLength | src/cpu/mod/vcpu/vcpu.cpp:258-304 | the output holds exactly the vCPUs of the domains not skipped |
| Vcpu.CollectedDomains | src/cpu/mod/vcpu/vcpu.cpp:258-304 | no entry comes from a skipped domain, and every entry names a walked domain |
| Vcpu.CollectedMovesHandleOnce | src/cpu/mod/vcpu/vcpu.cpp:296-303 | because the handle is moved once per vCPU, only a domain's first entry can own it |
| Pcpu.Resized | src/cpu/mod/pcpu/pcpu.cpp:52 | resizing keeps the existing entries and value-initialises the new ones |
| Pcpu.LoadedStep | src/cpu/mod/pcpu/pcpu.cpp:59-69 | one vCPU adds its usage and one vCPU to exactly the entry at its pCPU rank, and no other entry changes |
| Pcpu.Data | src/cpu/mod/pcpu/pcpu.cpp:14-72 | fails exactly on empty vCPU data or an unreadable pCPU count, leaving the table alone; otherwise the table has exactly one entry per pCPU, entry k ranked k, holding its earlier totals plus the vCPUs pinned to it |
| Pcpu.LoadedConserves | src/cpu/mod/pcpu/pcpu.cpp:52-69 | load is conserved: total usage and vCPU count of the result are those of the resized table plus those of all vCPUs |
| Pcpu.RankingKeepsSums | src/cpu/mod/pcpu/pcpu.cpp:55-56 | renumbering the entries does not change the totals |
| Pcpu.LoadedFromZero | src/cpu/mod/pcpu/pcpu.cpp:52-69 | starting from an empty or zeroed table, the totals equal the vCPU usage sum and count |
| CpuScheduler.PcpuComparator | src/cpu/sys/scheduler.cpp:94-122 | the comparator says "less" exactly when the first entry has no more vCPUs than the second; usage never decides |
| CpuScheduler.ComparatorIgnoresUsage | src/cpu/sys/scheduler.cpp:101-102 | a far busier pCPU with fewer vCPUs is still preferred |
| CpuScheduler.LastMin | src/cpu/sys/scheduler.cpp:181-186 | min_element under this comparator finds an entry with the fewest vCPUs, and no later entry has as few |
| CpuScheduler.MinElement | src/cpu/sys/scheduler.cpp:175-195 | the linear search returns that last entry with the fewest vCPUs |
| CpuScheduler.Greedy | src/cpu/sys/scheduler.cpp:175-195 | the assignment keeps the number of vCPUs and the length of the predicted table, and never changes a predicted entry's rank |
| CpuScheduler.AssignPcpus | src/cpu/sys/scheduler.cpp:175-195 | the in-place loop leaves the vCPUs with their new pins and the predicted table as the greedy assignment computes them |
| CpuScheduler.Zeros | src/cpu/sys/scheduler.cpp:129-130 | the predicted table starts as n value-initialised entries |
| CpuScheduler.MapAll | src/cpu/sys/scheduler.cpp:237-247 | remapping issues one map request per vCPU, in order |
| CpuScheduler.Schedule | src/cpu/sys/scheduler.cpp:44-250 | fails exactly on empty vCPU data, changing nothing; otherwise succeeds, leaves the vCPUs as the greedy prediction pins them, returns the prediction sorted by rank, and remaps every vCPU only when the analysis is favourable |
| CpuScheduler.RemapAll | src/cpu/sys/scheduler.cpp:237-247 | one map request per vCPU, in order, whatever each answers |
| CpuScheduler.GreedyKeepsBalance | src/cpu/sys/scheduler.cpp:181-194 | handing each vCPU to the entry with the fewest vCPUs keeps the predicted vCPU counts within one of each other |
| CpuScheduler.GreedyConserves | src/cpu/sys/scheduler.cpp:178-194 | each vCPU is counted once: predicted usage and count grow by exactly the vCPUs' usage and number |
| CpuScheduler.GreedyPins | src/cpu/sys/scheduler.cpp:190-194 | each vCPU keeps its identity and usage and takes the rank of some entry of the predicted table |
| CpuScheduler.TotalUsageOfInsert | src/cpu/sys/scheduler.cpp:77-88 | an insertion step adds exactly the inserted vCPU's usage |
| CpuScheduler.TotalUsageOfSort | src/cpu/sys/scheduler.cpp:77-88 | sorting by usage does not change the total usage |
| CpuScheduler.PredictPinsToZero | src/cpu/sys/scheduler.cpp:129-130 | as written, every vCPU is pinned to pCPU 0, and the pinned vCPUs are the input permuted into non-increasing usage order |
| CpuScheduler.PredictTotals | src/cpu/sys/scheduler.cpp:129-195 | the prediction has one entry per pCPU, accounts for all usage and every vCPU exactly once, and its vCPU counts differ by at most one |
| CpuScheduler.RankSortKeepsPrediction | src/cpu/sys/scheduler.cpp:201-212 | as written, every predicted entry has rank 0, so under the stable sort the model takes the re-sort by rank leaves the prediction unchanged |
| MemoryDomain.LastTaggedIsLast | src/memory/mod/domain/domain.cpp:202-226 | a statistic is found iff some entry has its tag; the value kept is that of the last such entry, or the earlier value when none matches |
| MemoryDomain.ScanStatistics | src/memory/mod/domain/domain.cpp:202-226 | the scan raises each found flag exactly when its tag occurs, and keeps the last matching value of each statistic |
| MemoryDomain.Stop | src/memory/mod/domain/domain.cpp:227-248 | the first domain lacking either statistic: every earlier domain has both |
| MemoryDomain.Base | src/memory/mod/domain/domain.cpp:141-151 | the output keeps its data when its size matches the list, and is otherwise cleared and resized to default data |
| MemoryDomain.Data | src/memory/mod/domain/domain.cpp:121-252 | fails on an empty list, changing nothing, and fails at the first domain lacking the balloon size or the unused memory; every domain up to that one gets its rank, the handle moved out of the list, its limit and vCPU count (even if the information query failed) and its last tagged statistics; later domains are untouched |
| MemoryHardware.LastNonTotalIsLast | src/memory/mod/hardware/hardware.cpp:64-73 | the limit is the value of the last entry not named "total", and stays as it was only when every entry is named "total" |
| MemoryHardware.TotalIsSkipped | src/memory/mod/hardware/hardware.cpp:67-72 | with the total followed by the free memory, the limit becomes the free memory |
| MemoryHardware.MemoryLimit | src/memory/mod/hardware/hardware.cpp:9-86 | fails when either statistics count is below 1, keeping the limit; otherwise the limit is the scan's result, and the call fails exactly when that is zero |
| MemoryHardware.UnwrittenTailFails | src/memory/mod/hardware/hardware.cpp:40-83 | a statistics vector whose last entry the hypervisor did not write ends with a zero limit |
| MemoryScheduler.ClassesDisjoint | src/memory/sys/scheduler.cpp:104-127 | for a positive limit, the supply and demand thresholds cannot both hold |
| MemoryScheduler.ClassifyBudget | src/memory/sys/scheduler.cpp:77-95 | the first loop succeeds iff no running budget goes negative, and then ends with the starting budget less every balloon size, which is non-negative |
| MemoryScheduler.ClassifySplits | src/memory/sys/scheduler.cpp:104-128 | every supplier is an input domain over the supply threshold with delta -20480; every demander is one under the demand threshold with delta +20480; no domain is counted twice |
| MemoryScheduler.ClassifyAll | src/memory/sys/scheduler.cpp:77-129 | the classification loop computes exactly the classification |
| MemoryScheduler.SupplierChunk | src/memory/sys/scheduler.cpp:142-145 | a supplier's new size is its balloon size plus delta, raised to at least 100 << 10 KiB |
| MemoryScheduler.Reclaim | src/memory/sys/scheduler.cpp:139-180 | reclaiming leaves the count of requesting domains unchanged |
| MemoryScheduler.ReclaimKeepsBudget | src/memory/sys/scheduler.cpp:139-180 | the budget never goes negative; each supplier issues at most one request, appended in order, and each asks for at least 100 << 10 KiB |
| MemoryScheduler.ReclaimAll | src/memory/sys/scheduler.cpp:139-180 | the reclaim loop computes exactly the reclaim ledger: a refused request keeps the budget, an infeasible one fails |
| MemoryScheduler.PressureKeyOrders | src/memory/sys/scheduler.cpp:187-205 | for demanders with vCPUs, the sort key orders them as their memory pressure per vCPU does |
| MemoryScheduler.TruncDiv | src/memory/sys/scheduler.cpp:277-278 | converting the quotient to an integer rounds toward zero |
| MemoryScheduler.CeilDiv | src/memory/sys/scheduler.cpp:268-272 | std::ceil of the share: the smallest whole number at least the quotient |
| MemoryScheduler.FullChunk | src/memory/sys/scheduler.cpp:219-224 | a demander's new size is the smaller of its limit and its balloon size plus delta |
| MemoryScheduler.SplitChunk | src/memory/sys/scheduler.cpp:277-282 | in the split branch the new size is the smaller of the domain's limit and the truncated balloon size plus delta over the requesting count |
| MemoryScheduler.SplitQuotient | src/memory/sys/scheduler.cpp:277-279 | the integer used for the split request is `used + delta / n`, computed exactly and rounded toward zero |
| MemoryScheduler.Grant | src/memory/sys/scheduler.cpp:211-322 | with any demander, the count of requesting domains stays positive |
| MemoryScheduler.GrantKeepsBudget | src/memory/sys/scheduler.cpp:211-322 | the budget never goes negative; the count of requesting domains stays between 1 and its start; each demander issues at most one request, appended in order, and none is negative |
| MemoryScheduler.SplitNeedsTwo | src/memory/sys/scheduler.cpp:268-275 | with a single requesting domain the split branch issues nothing |
| MemoryScheduler.SplitOverdraws | src/memory/sys/scheduler.cpp:268-296 | two demanders facing a budget of 10000 KiB: the split request of 10240 KiB overdraws, and the scheduler fails without a request |
| MemoryScheduler.GrantAll | src/memory/sys/scheduler.cpp:211-322 | the grant loop computes exactly the grant ledger, skipping a refused full request and failing on a refused split one |
| MemoryScheduler.Schedule | src/memory/sys/scheduler.cpp:48-325 | fails on empty data; otherwise runs classification, reclaim, the pressure sort and the grants, stopping at the first failure, with exactly the requests the phases issue |
| MemoryScheduler.OutcomeKeepsBudget | src/memory/sys/scheduler.cpp:77-322 | over a round the budget never goes negative, reclaim requests come first and ask for at least 100 << 10 KiB, and no request is negative |
| Driver.IsIntervalAllDigits | src/memory/memoryman.cpp:57-67 | the interval check accepts exactly the strings made only of digits |
| Driver.Numeral | src/memory/memoryman.cpp:78 | a numeral is a non-empty string of digits |
| Driver.NumeralRoundTrip | src/memory/memoryman.cpp:57-78 | every interval written as a numeral passes the check and is read back by atoi as itself |
| Driver.Validate | src/cpu/cpuman.cpp:25-57 | the usage error happens exactly when argc is not 2; an accepted interval is all digits |
| Driver.ValidateAccepts | src/memory/memoryman.cpp:45-78 | a command line is accepted iff it has one all-digit argument, so the empty argument is accepted as 0 ms |
| Memoryman.BalanceChain | src/memory/memoryman.cpp:176-301 | a round succeeds iff every step and the scheduler succeed; no memory moves unless every earlier step succeeded; no request is negative |
| Memoryman.LoadBalancer | src/memory/memoryman.cpp:176-301 | load_balancer runs its steps in order, and the first failure ends the round before any later step |
| Memoryman.ThirdFailureAborts | src/memory/memoryman.cpp:121-152 | failures are never reset: the loop exits with EXIT_FAILURE exactly when the rounds hold the third failure, and never exits with EXIT_SUCCESS while the signal is clear |
| Memoryman.LoopPasses | src/memory/memoryman.cpp:121-157 | balancer_iteration counts every completed pass; on abort it counts exactly the passes before the round that brought the third failure |
| Memoryman.NeverBalances | src/memory/memoryman.cpp:108-122 | with the exit signal at SIG_DEF, a validated and connected memoryman exits with EXIT_SUCCESS after no round |
| Memoryman.Memoryman.constructor | src/memory/memoryman.cpp:21 | the iteration counter starts at 0 and the exit signal at SIG_DEF |
| Memoryman.Memoryman.Execute | src/memory/memoryman.cpp:39-160 | main exits as the validation, the connection and the three-strike loop decide, and adds the completed passes to balancer_iteration |
| Memoryman.Memoryman.BalanceLoop | src/memory/memoryman.cpp:121-157 | the loop stops at once when the signal is set; otherwise it ends as the three-strike loop decides and counts its passes |
| Cpuman.LoadBalancer | src/cpu/cpuman.cpp:113-160 | load_balancer fails exactly when listing the domains fails or there is no domain to tabulate |
| Cpuman.FailFast | src/cpu/cpuman.cpp:91-110 | there is no retry budget: from SIG_NULL the process exits with EXIT_FAILURE exactly when a round fails before any interrupt, with EXIT_SUCCESS when an interrupt comes first, and is otherwise still running |
| Cpuman.SetSignalStops | src/cpu/cpuman.cpp:91 | a set exit signal stops the loop at its first test with EXIT_SUCCESS |
| Cpuman.Cpuman.constructor | src/cpu/cpuman.cpp:20 | the exit signal starts at SIG_NULL |
| Cpuman.Cpuman.Interrupt | src/cpu/cpuman.cpp:81-88 | the interrupt handler sets the exit signal to SIG_DEF |
| Cpuman.Cpuman.Execute | src/cpu/cpuman.cpp:22-111 | main exits as the validation, the connection and the fail-fast loop decide |
| Cpuman.Cpuman.BalanceLoop | src/cpu/cpuman.cpp:91-108 | the loop runs one round per pass while the exit signal is clear, the handler able to run between passes |
| Record.KindOf | src/util/log/record.cpp:21-51 | exactly the six type codes are known, and FLAG, ERROR and ABORT are the error types |
| Record.PrefixNamesType | src/util/log/record.cpp:21-46 | each type's prefix names that type back and holds no space |
| Record.Line | src/util/log/record.cpp:55-56 | the line is the time, the prefix and the message with two separators and a newline |
| Record.LineRoundTrip | src/util/log/record.cpp:55-64 | a logged line can be read back: its prefix gives the type and the rest is the message, whatever the message holds |
| Record.Streams.Log | src/util/log/record.cpp:14-68 | an unknown type writes only the unknown-type notice to the error stream; an error type appends its line to the error stream, any other type to the log stream; the unit-buffered error stream is always fully flushed, and the log stream is flushed up to its end iff `flush`, otherwise left as it was |
| HypControl.DomainNames | test/env/lib/hyp_control.py:22-29 | a falsy filter (None or the empty string) keeps every running name; any other filter keeps exactly the running names that start with it |
| HypControl.FilteredMembers | test/env/lib/hyp_control.py:22-29 | a name is kept exactly when it is running and starts with the filter |
| HypControl.FilteredAppend | test/env/lib/hyp_control.py:26-27 | filtering keeps the listing order |
| HypControl.FilteredByEmpty | test/env/lib/hyp_control.py:22-29 | the empty filter keeps every name, as the falsy-filter branch does |
| HypControl.PcpuCount | test/env/lib/hyp_control.py:129-131 | the pCPU count is the product of the NUMA node, socket, core and thread counts, at least each of them when all are positive |
| HypControl.HostPinsEveryPcpu | test/env/lib/hyp_control.py:129-138 | on a host with positive topology every pCPU rank, or its negative twin, names a bitmap with one slot per pCPU and that slot alone True, and a rank past the count raises |
| HypControl.PyIndex | test/env/lib/hyp_control.py:134-138 | a Python list index is valid exactly from -n to n-1 and names the slot it denotes, counting a negative index from the end |
| HypControl.PinBitmap | test/env/lib/hyp_control.py:134-138 | the bitmap exists exactly for an index valid in the list; it has one slot per pCPU and exactly the named slot is True |
| HypControl.UnpinMask | test/env/lib/hyp_control.py:156-164 | the unpin mask allows every pCPU |
| HypControl.PinDiffersFromUnpin | test/env/lib/hyp_control.py:134-164 | with two pCPUs or more, pinning differs from unpinning |
| HypControl.Kib | test/env/lib/hyp_control.py:96-117 | the KiB value handed over is a whole multiple of 1024 that reads back as the MiB given |
| HypControl.BulkOnePerName | test/env/lib/hyp_control.py:62-123 | when every name is found, a bulk operation issues exactly one command per name, in name order |
| HypControl.BulkMembers | test/env/lib/hyp_control.py:62-123 | a bulk operation issues a command for exactly the names the lookup finds and nothing for the others |
| HypControl.StartedStopsAtUnknown | test/env/lib/hyp_control.py:45-59 | starting names one by one starts exactly those before the first unknown name, in order |
| HypControl.HypervisorManager.constructor | test/env/lib/hyp_control.py:13-14 | a fresh manager has issued no command |
| HypControl.HypervisorManager.StartDomain | test/env/lib/hyp_control.py:45-51 | the lookup's exception escapes exactly when the name is unknown; otherwise the domain is started |
| HypControl.HypervisorManager.StartFilteredDomains | test/env/lib/hyp_control.py:53-59 | starts the filtered names in order and then sleeps; an unknown name ends it early, without the sleep |
| HypControl.HypervisorManager.Control | test/env/lib/hyp_control.py:62-117 | shutdown, kill, set_memory and set_memory_limit issue their call for a known name and nothing otherwise |
| HypControl.HypervisorManager.ControlAll | test/env/lib/hyp_control.py:70-123 | the bulk loop issues the operation once per name, in order |
| HypControl.HypervisorManager.StopFilteredDomains | test/env/lib/hyp_control.py:70-93 | shutting down or killing the filtered domains issues the bulk commands, then a sleep |
| HypControl.HypervisorManager.SizeFilteredDomains | test/env/lib/hyp_control.py:104-123 | resizing the filtered domains issues the bulk commands, without a sleep |
| HypControl.HypervisorManager.MapVcpuToPcpu | test/env/lib/hyp_control.py:142-153 | pins with the single-pCPU bitmap when the domain is known and the rank valid; otherwise the bare except swallows the error and nothing is pinned |
| HypControl.HypervisorManager.UnmapVcpu | test/env/lib/hyp_control.py:156-164 | pins a known domain's vCPU to every pCPU |

## Left out

- Every libvirt call, the hypervisor connection and the Python `libvirt.open`/`close` (`__init__`, `__del__`) are inputs, recorded requests or oracles. The backend's own behaviour is not modelled.
- `analyze_prediction` and `pCPU::stat::mean_and_deviation` (floating-point mean, standard deviation, dispersion ratios) are the boolean oracle `favourable`.
- The heap branch of the CPU scheduler for more than 1024 pCPUs (src/cpu/sys/scheduler.cpp:134-172) is left out. Its priority queue uses a comparator that is not a strict weak ordering, so there is nothing sound to state. `CpuScheduler.Schedule` requires at most 1024 pCPUs.
- CpuScheduler.Schedule: requires a non-empty pCPU table when there are vCPUs, since the source would then dereference `min_element`'s end iterator.
- CpuScheduler.Schedule: std::sort is not stable, and the model takes the stable order in both sorts. In the usage sort this is the order among vCPUs of equal usage, which fixes the vCPU array and the order of the map requests. In the rank sort it is the order among the rank-0 predicted entries, which `analyze_prediction` reads. Which of the allowed orders the library picks is not captured.
- Vcpu.Data: requires DataReady, since the source would otherwise dereference the end iterator of `find` for a current domain missing from the previous table, or read past a shorter previous list. Both are undefined behaviour (src/cpu/mod/vcpu/vcpu.cpp:262-270).
- `hardware::map`, `hardware::node_count`, `domain::list` (both balancers), `set_collection_period`, and memoryman's `domain::table` and `domain::domain_uuids` are thin wrappers or undefined steps. Their results are inputs.
- `prev_domain_uuids` in memoryman is left out. It is only passed to steps modelled by their status.
- Signal delivery is left out. The interrupt handler is an input flag per pass in cpuman. memoryman's handler assigns `SIG_EXT`, which lib/signal.hpp does not declare, and is not modelled.
- Record.Streams.Log: the log stream's flushed length moves only on an explicit flush. std::clog may also flush on its own when its buffer fills, which is implementation-defined and not modelled.
- `sleep_for` and `time.sleep` are recorded as `Sleep` commands in the harness and dropped in the drivers. The harness methods take the interval as a parameter. The Python defaults (3 s for starting, 5 s for shutting down and killing) are the constants `START_SETTLE` and `STOP_SETTLE`. The interval is validated and read but not used further.
- The logging done inside the balancers is left out. `util::log::record` itself is modelled; the clock is an input string, and the local-time formatting of `util::clock::time` is left out.
- Driver.Decimal: reads the digits as an unbounded number. `std::atoi` overflow on very long arguments is not modelled.
- Arithmetic is unbounded. The 64-bit wrap of usage sums, of memory sizes and of `balancer_iteration` is not modelled. Neither is the signed overflow of the `slong` CPU-time difference in `Vcpu.UsageDelta` when the two counters straddle the range, which is undefined behaviour in the source. The casts the code performs explicitly (`AsSigned`, `AsUnsigned`) are.
- Doubles are exact:
  - the memory coefficients use cross-multiplication;
  - the pressure order treats delta over zero vCPUs as +infinity;
  - `ceil` and the double-to-integer conversions are exact integer operations.
- MemoryScheduler.Schedule: std::sort is not stable, and the model takes the stable order among demanders of equal pressure. Which of the allowed orders the library picks is not captured.
- MemoryScheduler.Schedule: the by-reference `domain_data` the scheduler moves from and clears is not returned. The caller discards it.
- MemoryDomain.DEFAULT_DATUM: a default-constructed `datum_t` is taken to hold zeros and empty handles.
- The Python harness's printed messages are left out. So is the `test_util.py` shell plumbing.
- cpuman's `vCPU::table` result is discarded by `load_balancer`. The model builds it and discards it too, so only its status matters.
