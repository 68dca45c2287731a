# Nova hypervisor statistics: the aggregation pass

A Dafny model of the metric-derivation and aggregation pass of the collectd
plugin `openstack_nova` (`HypervisorStatsPlugin.itermetrics` in
`collectd/files/plugin/hypervisor_stats.py`, with `initialize_metrics` and the
`VALUE_MAP` / `UNIT_MAP` tables).

One collection pass takes the outcome of two fetches from the Nova API and the
optional `CpuAllocationRatio`:

- the aggregates listing (name, id, host list), or `None` when the fetch failed;
- the hypervisor-detail listing (loosely-typed records read with `.get(k, 0)`),
  or `None` when the fetch failed.

It yields, in one pass over the hypervisors:

- per-host records, one per `VALUE_MAP` entry, plus `free_vcpus` when a ratio is
  configured;
- per-aggregate accumulators, to which a host adds its values for every
  aggregate whose (shortened) host list contains its short name;
- a fleet-wide accumulator;

and then the records of every aggregate (with `free_ram_percent` when the
aggregate's RAM total is positive) and the 8 total records.

## Layout

| file | module | what |
|---|---|---|
| `wrappers.dfy` | `Wrappers` | `Option` |
| `hostnames.dfy` | `Hostnames` | `split('.')[0]` normalisation |
| `tables.dfy` | `Tables` | `VALUE_MAP`, `UNIT_MAP`, accumulator keys, `initialize_metrics`, `int(ratio * vcpus) - vcpus_used` |
| `accumulation.dfy` | `Accumulation` | hypervisor records, what each adds to each key, the accumulated sums and their laws |
| `aggregates.dfy` | `Aggregates` | the `nova_aggregates` dict keyed by name |
| `records.dfy` | `Records` | yielded records and `Expected`, the reference definition of a pass's output |
| `plugin.dfy` | `HypervisorStatsPlugin` | `itermetrics` as imperative code: maps updated in loops, proved to yield `Expected` |
| `properties.dfy` | `PassProperties` | empty output, layout, per-host records, the missing-aggregates and no-ratio cases |
| `rollups.dfy` | `RollupProperties` | aggregate and total records against the per-host records; `free_ram_percent` guard |
| `example.dfy` | `WorkedExample` | two hosts in one aggregate with ratio 2 |

`IterMetrics` keeps the Python's shape: `nova_aggregates` is a
`map<string, AggregateState>` whose entries hold `id`, `hosts` and a
`metrics` map; `total_stats` is a `map<string, int>`; both are updated in the
nested loops over the hypervisors, `VALUE_MAP` and the aggregates, and the
records are collected in yield order. Its postcondition is
`out == Expected(aggregates, hypervisors, ratio)`; the properties are lemmas
about `Expected` and the sums it is built from.

Behaviour of the code worth knowing, as modelled:

- `initialize_metrics` always includes `free_vcpus: 0`, so every aggregate and
  the total report `free_vcpus` (at 0 without a ratio); only the per-host
  `free_vcpus` record depends on the ratio.
- The free-capacity formula uses Python `int()`, truncation toward zero, not
  floor; `TruncDiv` writes it out (Dafny's `/` is Euclidean).
- Aggregate records put `discard_hostname` inside a nested `meta` dict next to
  `aggregate` and `aggregate_id`; total records carry it at the top of their
  meta and are keyed by `type_instance`, not `plugin_instance`.
- Membership is list `in`: a host listed twice in an aggregate is counted once
  per hypervisor record; two hypervisor records with the same short name are
  both counted.
- Only a failed hypervisor fetch ends the pass with nothing: a fetch that
  succeeds with an empty listing still yields every aggregate's records and the
  8 totals, all at 0 (`PassProperties.EmptyIffHypervisorsMissing`).
- A later aggregate with the same name replaces an earlier one in the table;
  since the table is complete before any host is processed, nothing
  accumulated is lost.

## Model

| member | source | states |
|---|---|---|
| `Hostnames.ShortName` | collectd/files/plugin/hypervisor_stats.py:87-88 | the short name has no `.`, is a prefix of the name, equals the name when it has no dot, and otherwise is followed by the name's first `.` |
| `Hostnames.ShortNames` | collectd/files/plugin/hypervisor_stats.py:75 | an aggregate's host list is shortened element by element, keeping its length |
| `Hostnames.ShortNameUnique` | collectd/files/plugin/hypervisor_stats.py:75 | any dot-free prefix ending at a dot or at the end of the name is the short name |
| `Hostnames.ShortNameOfQualified` | collectd/files/plugin/hypervisor_stats.py:87-88 | `host.domain` shortens to `host` |
| `Tables.MetricName` | collectd/files/plugin/hypervisor_stats.py:59-63 | the accumulator keys are the 7 `VALUE_MAP` targets in table order followed by `free_vcpus` |
| `Tables.UnitOf` | collectd/files/plugin/hypervisor_stats.py:92-93 | only the disk metrics (`used_disk`, `free_disk`) carry a unit, `GB`, and only the RAM metrics (`used_ram`, `free_ram`) one, `MB`; task, instance and vCPU counts carry none |
| `Tables.MetricNamesDistinct` | collectd/files/plugin/hypervisor_stats.py:30-38 | the 8 accumulator keys are pairwise distinct |
| `Tables.InitializeMetrics` | collectd/files/plugin/hypervisor_stats.py:59-63 | the fresh accumulator has exactly the 7 `VALUE_MAP` targets plus `free_vcpus` as keys, all 0 |
| `Tables.TruncDiv` | collectd/files/plugin/hypervisor_stats.py:107-108 | `int()` of a quotient: the result times the divisor lies between 0 and the dividend, within one divisor of it, for either sign |
| `Tables.FreeVcpusOf` | collectd/files/plugin/hypervisor_stats.py:104-108 | free vCPUs plus vcpus_used is `ratio * vcpus` truncated toward zero, exactly `ratio * vcpus - vcpus_used` for a whole ratio |
| `Accumulation.SumAppend` | collectd/files/plugin/hypervisor_stats.py:86-103 | an accumulator's sum over two listings joined is the sum of the two |
| `Accumulation.FullContribution` | collectd/files/plugin/hypervisor_stats.py:99-103 | wherever a record stands in the listing, it adds its full value to every accumulator whose scope holds its host and nothing to the others |
| `Accumulation.SumPermutation` | collectd/files/plugin/hypervisor_stats.py:86-121 | the accumulated sums do not depend on the order of the hypervisor listing |
| `Accumulation.SumDependsOnMembershipOnly` | collectd/files/plugin/hypervisor_stats.py:101-103 | two host lists with the same members (any order, any repetitions) accumulate the same sum |
| `Accumulation.SumInclusionExclusion` | collectd/files/plugin/hypervisor_stats.py:100-103 | aggregates do not partition hosts: sum(A) + sum(B) = sum(A or B) + sum(A and B) |
| `Accumulation.SumOfCoveringAggregate` | collectd/files/plugin/hypervisor_stats.py:99-103 | an aggregate listing every host accumulates the fleet-wide total |
| `Accumulation.SumOfUnmatchedAggregate` | collectd/files/plugin/hypervisor_stats.py:76 | an aggregate listing none of the hosts keeps its initial 0 |
| `Accumulation.FreeVcpusZeroWithoutRatio` | collectd/files/plugin/hypervisor_stats.py:104 | without a ratio every accumulator's `free_vcpus` stays 0 |
| `Accumulation.SumMonotone` | collectd/files/plugin/hypervisor_stats.py:99 | nothing is subtracted: with non-negative counters, the sum over a prefix of the listing is at most the sum over all of it |
| `Accumulation.Host` | collectd/files/plugin/hypervisor_stats.py:88 | the host a hypervisor record stands for is its `hypervisor_hostname` cut at the first `.` (stated by `Hostnames.ShortName`, whose contract characterises it) |
| `Accumulation.InScope` | collectd/files/plugin/hypervisor_stats.py:100-102 | a record is added into the total always and into an aggregate exactly when its short host is in the aggregate's list (stated by `FullContribution` and `SumDependsOnMembershipOnly`) |
| `Accumulation.HostValue` | collectd/files/plugin/hypervisor_stats.py:89-108 | what one record adds to key t: `stats.get(raw, 0)` for a `VALUE_MAP` key; for `free_vcpus` the free figure with a ratio and nothing without one (stated by `RollupProperties.HostedSumOfHost` and `FreeVcpusZeroWithoutRatio`) |
| `Accumulation.HostFreeVcpus` | collectd/files/plugin/hypervisor_stats.py:105-108 | trunc(ratio * vcpus) - vcpus_used with missing fields read as 0 (stated by `Tables.FreeVcpusOf` and `PassProperties.PerHostFreeVcpusRecord`) |
| `Accumulation.Get` | collectd/files/plugin/hypervisor_stats.py:90 | `stats.get(k, 0)`: a present field reads as its value, a missing one as 0 (stated for the yielded records by `PassProperties.PerHostValueRecord` and `PassProperties.PerHostFreeVcpusRecord`) |
| `Accumulation.Sum` | collectd/files/plugin/hypervisor_stats.py:84-121 | the value an accumulator holds after the listing: each record in the scope adds its value once (its laws: `SumAppend`, `FullContribution`, `SumPermutation` and the rows above; `IterMetrics` is proved against it) |
| `Aggregates.EntryOf` | collectd/files/plugin/hypervisor_stats.py:74-75 | the stored entry keeps the id, and stored host i is the short name of listed host i (so none contains a `.`) |
| `Aggregates.Table` | collectd/files/plugin/hypervisor_stats.py:72-77 | the table's keys are exactly the names occurring in the listing |
| `Aggregates.Names` | collectd/files/plugin/hypervisor_stats.py:124 | the visiting order lists every table key exactly once |
| `Aggregates.TableLastWins` | collectd/files/plugin/hypervisor_stats.py:73 | a name maps to the id and hosts of the last listing element with that name |
| `Aggregates.NamesCount` | collectd/files/plugin/hypervisor_stats.py:72-73 | there are never more aggregates than listing elements |
| `Aggregates.TableExtend` | collectd/files/plugin/hypervisor_stats.py:73-77 | inserting an element stores it under its name and adds the name to the order only if new |
| `Records.HostRecordsOf` | collectd/files/plugin/hypervisor_stats.py:89-113 | a hypervisor yields 7 records, 8 with a ratio (their contents: `PassProperties.PerHostValueRecord`, `PassProperties.PerHostFreeVcpusRecord`) |
| `Records.HostRecords` | collectd/files/plugin/hypervisor_stats.py:86-113 | the per-host part has `PerHost` records per hypervisor record (their positions: `PassProperties.HostRecordsAt`) |
| `Records.HostRecord` | collectd/files/plugin/hypervisor_stats.py:89-98 | the per-host record for one `VALUE_MAP` entry: target name, `stats.get(raw, 0)`, short hostname, unit from `UNIT_MAP` (stated by `PassProperties.PerHostValueRecord`) |
| `Records.FreeVcpusRecord` | collectd/files/plugin/hypervisor_stats.py:104-113 | the per-host `free_vcpus` record: trunc(ratio * vcpus) - vcpus_used, hostname only (stated by `PassProperties.PerHostFreeVcpusRecord`) |
| `Records.RamTotal` | collectd/files/plugin/hypervisor_stats.py:126-129 | `agg_total_free_ram`: the aggregate's free plus used RAM sums, the guard and divisor of `free_ram_percent` (stated by `RollupProperties.FreeRamPercentGuard` and `FreeRamPercentInRange`) |
| `Records.AggregateRecord` | collectd/files/plugin/hypervisor_stats.py:136-145 | the `aggregate_<key>` record of one aggregate: its sum over the aggregate's hosts, tagged with name, id and `discard_hostname` (stated by `RollupProperties.RollupsMatchHostRecords`) |
| `Records.PercentRecord` | collectd/files/plugin/hypervisor_stats.py:131-145 | the `aggregate_free_ram_percent` record: free RAM over free plus used RAM (stated by `RollupProperties.FreeRamPercentGuard`) |
| `Records.AggregateRecords` | collectd/files/plugin/hypervisor_stats.py:124-145 | the aggregate part of the output, aggregate by aggregate in visiting order (stated by `PassProperties.AggregateRecordsCover`) |
| `Records.AggregateRecordsOf` | collectd/files/plugin/hypervisor_stats.py:124-145 | an aggregate yields 9 records when free + used RAM is positive and 8 otherwise (names and values: `RollupProperties.RollupsMatchHostRecords`, `RollupProperties.FreeRamPercentGuard`) |
| `Records.TotalRecords` | collectd/files/plugin/hypervisor_stats.py:146-152 | exactly 8 total records, one per accumulator key (names and values: `RollupProperties.RollupsMatchHostRecords`) |
| `Records.Expected` | collectd/files/plugin/hypervisor_stats.py:65-152 | the reference output of one pass: nothing when the hypervisor fetch failed, otherwise at least the per-host records and the 8 totals (layout: `PassProperties.Layout`) |
| `HypervisorStatsPlugin.LoadAggregates` | collectd/files/plugin/hypervisor_stats.py:71-77 | after the loop the dict matches `Table` with fresh zeroed accumulators, and the visiting order is `Names` |
| `HypervisorStatsPlugin.AddIfMember` | collectd/files/plugin/hypervisor_stats.py:101-103 | `if host in agg_hosts: metrics[v] += m_val` for one aggregate (stated by `AddIfMemberEffect`) |
| `HypervisorStatsPlugin.AddIfMemberEffect` | collectd/files/plugin/hypervisor_stats.py:101-103 | an aggregate's id, host list and key set are kept; only the key changes, by the value, and only when the aggregate lists the host |
| `HypervisorStatsPlugin.AddToAggregates` | collectd/files/plugin/hypervisor_stats.py:100-103 | the value is added to the key of exactly the aggregates listing the host; the others are unchanged |
| `HypervisorStatsPlugin.InitialHolds` | collectd/files/plugin/hypervisor_stats.py:84 | a fresh accumulator holds the sums over no hosts |
| `HypervisorStatsPlugin.Accumulate` | collectd/files/plugin/hypervisor_stats.py:99-103 | one key of one host is added to the total and to every aggregate containing the host, advancing their sums by that key |
| `HypervisorStatsPlugin.ProcessHypervisor` | collectd/files/plugin/hypervisor_stats.py:86-121 | one hypervisor record: yields its per-host records; total and every aggregate accumulator then hold their sums over the listing up to and including it |
| `HypervisorStatsPlugin.ProcessFreeVcpus` | collectd/files/plugin/hypervisor_stats.py:104-121 | with a ratio, yields the host's `free_vcpus` record and accumulates it; without one, yields and changes nothing |
| `HypervisorStatsPlugin.AccumulateAll` | collectd/files/plugin/hypervisor_stats.py:84-121 | the loop over the listing yields all per-host records and leaves each accumulator holding its sums over the whole listing |
| `HypervisorStatsPlugin.EmitAggregate` | collectd/files/plugin/hypervisor_stats.py:125-145 | an aggregate yields one `aggregate_<key>` record per accumulator key with its sum, plus `free_ram_percent` when free + used RAM is positive |
| `HypervisorStatsPlugin.EmitAggregates` | collectd/files/plugin/hypervisor_stats.py:124-145 | every aggregate's records, in visiting order |
| `HypervisorStatsPlugin.EmitTotals` | collectd/files/plugin/hypervisor_stats.py:147-152 | one `total_<key>` record per accumulator key, with the fleet-wide sum |
| `HypervisorStatsPlugin.IterMetrics` | collectd/files/plugin/hypervisor_stats.py:65-152 | the yielded records are exactly `Expected`: per-host records, then the aggregate records, then the totals, or nothing when the hypervisor fetch failed |
| `PassProperties.HostRecordsTagged` | collectd/files/plugin/hypervisor_stats.py:91-98 | every per-host record is a `plugin_instance` record tagged with a hostname |
| `PassProperties.AggregateRecordsOfTagged` | collectd/files/plugin/hypervisor_stats.py:137-145 | every record of an aggregate carries its name, its id and the `discard_hostname` flag |
| `PassProperties.AggregateRecordsCover` | collectd/files/plugin/hypervisor_stats.py:124-145 | the aggregate part holds every record of every listed aggregate, only such records, and 8 to 9 records per aggregate |
| `PassProperties.EmptyIffHypervisorsMissing` | collectd/files/plugin/hypervisor_stats.py:79-82 | the output is empty exactly when the hypervisor fetch failed, whatever the aggregates fetch did |
| `PassProperties.Layout` | collectd/files/plugin/hypervisor_stats.py:86-152 | per-host records come first, then aggregate records, then the 8 `total_<key>` records tagged `discard_hostname` |
| `PassProperties.AggregatesMissing` | collectd/files/plugin/hypervisor_stats.py:66-69 | a failed aggregates fetch still yields the per-host and the 8 total records, and no aggregate record |
| `PassProperties.HostRecordsAt` | collectd/files/plugin/hypervisor_stats.py:86-113 | the records of the i-th hypervisor stand at positions i * PerHost onwards |
| `PassProperties.PerHostValueRecord` | collectd/files/plugin/hypervisor_stats.py:89-98 | each `VALUE_MAP` entry yields its target with value `stats.get(raw, 0)`, the short hostname, and a unit only for `UNIT_MAP` fields |
| `PassProperties.PerHostFreeVcpusRecord` | collectd/files/plugin/hypervisor_stats.py:104-113 | with a ratio, each host yields `free_vcpus` = trunc(ratio * vcpus) - vcpus_used (missing fields 0), tagged with the hostname only |
| `PassProperties.WithoutRatio` | collectd/files/plugin/hypervisor_stats.py:62 | without a ratio no per-host `free_vcpus` record exists, while `total_free_vcpus` and every `aggregate_free_vcpus` are yielded at 0 |
| `RollupProperties.HostedSumOfHost` | collectd/files/plugin/hypervisor_stats.py:89-121 | one host's records sum, for each key, to what the host adds to an accumulator of that scope |
| `RollupProperties.SumIsSumOfHostRecords` | collectd/files/plugin/hypervisor_stats.py:99-121 | each accumulator equals the sum of the yielded per-host records of its key over the hosts of its scope |
| `RollupProperties.RollupsMatchHostRecords` | collectd/files/plugin/hypervisor_stats.py:136-152 | record t of the totals is `total_<key t>` and reports the sum of all per-host `<key t>` records; record t of an aggregate is `aggregate_<key t>`, tagged with the aggregate's name and id, and reports that sum over the hosts the aggregate lists |
| `RollupProperties.FreeRamPercentGuard` | collectd/files/plugin/hypervisor_stats.py:126-135 | `free_ram_percent` is yielded exactly when free + used RAM is positive, as free / (free + used), making 9 records rather than 8 |
| `RollupProperties.FreeRamPercentInRange` | collectd/files/plugin/hypervisor_stats.py:130-135 | with non-negative RAM counters the percentage's numerator lies between 0 and its denominator |
| `WorkedExample.TwoHostsOneAggregate` | collectd/files/plugin/hypervisor_stats.py:99-121 | hosts (vcpus 10, used 4, RAM 100/50) and (20, 8, 200/100) in one aggregate at ratio 2: free_vcpus 48, free RAM 150 of 450, total used RAM 300 |

## Left out

- HTTP fetching and JSON decoding (`self.get`, `r.json()`, hypervisor_stats.py:67, :79): network I/O in a base class that is not part of this model. Each fetch is an `Option` input; a missing `aggregates` or `hypervisors` key in the JSON is the empty listing.
- Missing `name`, `id`, `hosts` or `hypervisor_hostname` keys, which raise `KeyError` in the source: the model's records always carry them. Counters are integers; non-numeric JSON values are not modelled.
- `config_callback` (hypervisor_stats.py:51-57): the ratio is an input, present or absent, as the exact fraction num/den of the configured float.
- Floating-point arithmetic: `cpu_ratio * vcpus` is computed exactly on the fraction, so binary rounding before `int()` is not modelled.
- `round(..., 2)` of `free_ram_percent` (hypervisor_stats.py:132-135): the value is kept as the exact fraction 100 * free / (free + used); the rounding is not modelled.
- Iteration order of Python 2 dicts (`iteritems`, `keys()`): the model fixes one order (the `VALUE_MAP` order as listed, aggregates by first insertion, `free_ram_percent` after the 8 keys), and several lemmas (`HostRecordsAt`, `PerHostValueRecord`, `Layout`, `WithoutRatio`, `RollupsMatchHostRecords`, `FreeRamPercentGuard`) locate records by their position in that chosen order. In the source only these orders are fixed: one hypervisor's records come after the previous one's, in listing order; within a hypervisor the seven `VALUE_MAP` records come in the dict's order and `free_vcpus` comes last; the per-host records come before the aggregate records, which come before the totals; within an aggregate (including its `free_ram_percent`) and within the totals the order is the dict's.
- The generator's laziness: the yielded records are collected into a sequence; nothing is yielded before the hypervisor fetch is checked, so the record sequence is the same.
- Logging, plugin construction and collectd registration (hypervisor_stats.py:46-49, :154-175): runtime plumbing.
