/**
 * The records one collection pass yields, defined as values: the per-host
 * records, then the records of every aggregate, then the fleet-wide totals.
 */
module Records {
  import opened Wrappers
  import opened Tables
  import opened Accumulation
  import opened Aggregates

  /** The instance key of a record: per-host and aggregate records set `plugin_instance`, totals `type_instance`. */
  datatype Instance = PluginInstance(name: string) | TypeInstance(name: string)

  /**
   * A record's value: a count, or the aggregate RAM percentage
   * 100 * free / total, kept as the exact fraction (before `round(..., 2)`).
   */
  datatype Value = Count(n: int) | Percent(free: int, total: int)

  /**
   * A record's metadata. Aggregate records carry the aggregate's name and id
   * and a nested `{'discard_hostname': True}`; totals carry only the flag.
   */
  datatype Meta =
    | HostMeta(hostname: string, unit: Option<string>)
    | AggregateMeta(aggregate: string, aggregateId: int, discardHostname: bool)
    | TotalMeta(discardHostname: bool)

  datatype MetricRecord = MetricRecord(instance: Instance, value: Value, meta: Meta)

  /** Records yielded per hypervisor: one per `VALUE_MAP` entry, plus `free_vcpus` when a ratio is configured. */
  function PerHost(ratio: Option<CpuRatio>): nat
  {
    if ratio.Some? then MetricCount else ValueCount
  }

  /** The per-host record for `ValueMap[t]`: the raw field's value, tagged with the host and the unit, if any. */
  function HostRecord(stats: Hypervisor, t: nat): MetricRecord
    requires t < ValueCount
  {
    MetricRecord(PluginInstance(ValueMap[t].target), Count(Get(stats, ValueMap[t].raw)), HostMeta(Host(stats), UnitOf(t)))
  }

  /** The per-host `free_vcpus` record, tagged with the host only. */
  function FreeVcpusRecord(stats: Hypervisor, ratio: CpuRatio): MetricRecord
  {
    MetricRecord(PluginInstance(FreeVcpus), Count(HostFreeVcpus(stats, ratio)), HostMeta(Host(stats), None))
  }

  /** The records one hypervisor yields, in `ValueMap` order. */
  function HostRecordsOf(stats: Hypervisor, ratio: Option<CpuRatio>): (r: seq<MetricRecord>)
    ensures |r| == PerHost(ratio)
  {
    seq(ValueCount, t requires 0 <= t < ValueCount => HostRecord(stats, t))
      + (if ratio.Some? then [FreeVcpusRecord(stats, ratio.value)] else [])
  }

  /** The per-host records of a whole listing, hypervisor by hypervisor. */
  function HostRecords(hs: seq<Hypervisor>, ratio: Option<CpuRatio>): (r: seq<MetricRecord>)
    ensures |r| == |hs| * PerHost(ratio)
    decreases |hs|
  {
    if hs == [] then []
    else HostRecords(hs[..|hs| - 1], ratio) + HostRecordsOf(hs[|hs| - 1], ratio)
  }

  /** Sum of a scope's RAM keys, the divisor of `free_ram_percent`. */
  function RamTotal(hs: seq<Hypervisor>, ratio: Option<CpuRatio>, scope: Scope): int
  {
    Sum(hs, ratio, FreeRamIndex, scope) + Sum(hs, ratio, UsedRamIndex, scope)
  }

  /** The record `aggregate_<key>` of one aggregate for accumulator key t. */
  function AggregateRecord(name: string, e: Entry, hs: seq<Hypervisor>, ratio: Option<CpuRatio>, t: nat): MetricRecord
    requires t < MetricCount
  {
    MetricRecord(PluginInstance("aggregate_" + MetricName(t)), Count(Sum(hs, ratio, t, Members(e.hosts))),
                 AggregateMeta(name, e.id, true))
  }

  /** The record `aggregate_free_ram_percent` of one aggregate. */
  function PercentRecord(name: string, e: Entry, hs: seq<Hypervisor>, ratio: Option<CpuRatio>): MetricRecord
  {
    var scope := Members(e.hosts);
    MetricRecord(PluginInstance("aggregate_" + FreeRamPercent),
                 Percent(Sum(hs, ratio, FreeRamIndex, scope), RamTotal(hs, ratio, scope)),
                 AggregateMeta(name, e.id, true))
  }

  /**
   * The records of one aggregate: one per accumulator key, then
   * `free_ram_percent` when the aggregate's RAM total is positive.
   */
  function AggregateRecordsOf(name: string, e: Entry, hs: seq<Hypervisor>, ratio: Option<CpuRatio>): (r: seq<MetricRecord>)
    ensures |r| == if RamTotal(hs, ratio, Members(e.hosts)) > 0 then MetricCount + 1 else MetricCount
  {
    seq(MetricCount, t requires 0 <= t < MetricCount => AggregateRecord(name, e, hs, ratio, t))
      + (if RamTotal(hs, ratio, Members(e.hosts)) > 0 then [PercentRecord(name, e, hs, ratio)] else [])
  }

  /** The records of the aggregates `names`, in that order. */
  function AggregateRecords(names: seq<string>, table: map<string, Entry>, hs: seq<Hypervisor>, ratio: Option<CpuRatio>): seq<MetricRecord>
    requires forall n :: n in names ==> n in table
    decreases |names|
  {
    if names == [] then []
    else
      var last := names[|names| - 1];
      AggregateRecords(names[..|names| - 1], table, hs, ratio) + AggregateRecordsOf(last, table[last], hs, ratio)
  }

  /** The fleet-wide records `total_<key>`, one per accumulator key. */
  function TotalRecords(hs: seq<Hypervisor>, ratio: Option<CpuRatio>): (r: seq<MetricRecord>)
    ensures |r| == MetricCount
  {
    seq(MetricCount, t requires 0 <= t < MetricCount =>
      MetricRecord(TypeInstance("total_" + MetricName(t)), Count(Sum(hs, ratio, t, Fleet)), TotalMeta(true)))
  }

  /**
   * The records of one collection pass, given the outcome of the two fetches
   * and the configured ratio. A failed aggregates fetch leaves the table
   * empty; a failed hypervisor fetch ends the pass with nothing.
   */
  function Expected(aggregates: Option<seq<Aggregate>>, hypervisors: Option<seq<Hypervisor>>,
                    ratio: Option<CpuRatio>): (r: seq<MetricRecord>)
    ensures hypervisors.None? ==> r == []
    ensures hypervisors.Some? ==> |r| >= |hypervisors.value| * PerHost(ratio) + MetricCount
  {
    if hypervisors.None? then []
    else
      var aggs := if aggregates.Some? then aggregates.value else [];
      var hs := hypervisors.value;
      HostRecords(hs, ratio) + AggregateRecords(Names(aggs), Table(aggs), hs, ratio) + TotalRecords(hs, ratio)
  }
}
