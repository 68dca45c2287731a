/**
 * `HypervisorStatsPlugin.itermetrics`: one collection pass. It builds the
 * aggregates table, walks the hypervisor listing once (yielding the per-host
 * records and adding every value into the fleet-wide accumulator and into
 * the accumulator of every aggregate listing the host), then yields the
 * records of every aggregate and the totals.
 */
module HypervisorStatsPlugin {
  import opened Wrappers
  import opened Hostnames
  import opened Tables
  import opened Accumulation
  import opened Aggregates
  import opened Records

  /** An aggregate as the pass holds it: `{'id': ..., 'hosts': [...], 'metrics': {...}}`. */
  datatype AggregateState = AggregateState(id: int, hosts: seq<string>, metrics: map<string, int>)

  /** Accumulator `m` has exactly the accumulator keys and holds, for each, the sum over `hs` in `scope`. */
  ghost predicate Holds(m: map<string, int>, hs: seq<Hypervisor>, ratio: Option<CpuRatio>, scope: Scope)
  {
    && (forall k :: k in m <==> k in MetricNames)
    && forall t :: 0 <= t < MetricCount ==> MetricNames[t] in m && m[MetricNames[t]] == Sum(hs, ratio, t, scope)
  }

  /** As `Holds`, with the values of `h` for the keys below index `done` already added. */
  ghost predicate HoldsPartly(m: map<string, int>, hs: seq<Hypervisor>, h: Hypervisor, ratio: Option<CpuRatio>,
                              scope: Scope, done: nat)
  {
    && (forall k :: k in m <==> k in MetricNames)
    && forall t :: 0 <= t < MetricCount ==>
         MetricNames[t] in m &&
         m[MetricNames[t]] == Sum(hs, ratio, t, scope) + (if t < done && InScope(h, scope) then HostValue(h, ratio, t) else 0)
  }

  /** The aggregates' state matches the table, and each accumulator holds its aggregate's partial sums. */
  ghost predicate AggregatesHoldPartly(aggs: map<string, AggregateState>, table: map<string, Entry>,
                                       hs: seq<Hypervisor>, h: Hypervisor, ratio: Option<CpuRatio>, done: nat)
  {
    && aggs.Keys == table.Keys
    && forall n :: n in aggs ==>
         && aggs[n].id == table[n].id
         && aggs[n].hosts == table[n].hosts
         && HoldsPartly(aggs[n].metrics, hs, h, ratio, Members(table[n].hosts), done)
  }

  /** Every accumulator starts from `initialize_metrics`: all keys present, all zero, i.e. the sums over no host. */
  lemma InitialHolds(ratio: Option<CpuRatio>, scope: Scope)
    ensures Holds(InitializeMetrics(), [], ratio, scope)
  {
    var m := InitializeMetrics();
    forall t | 0 <= t < MetricCount
      ensures MetricNames[t] in m && m[MetricNames[t]] == Sum([], ratio, t, scope)
    {
      assert MetricNames[t] in MetricNames;
    }
  }

  /**
   * `nova_aggregates` after the loop over the aggregates listing
   * (hypervisor_stats.py:71-77): keyed by name, later elements overwriting earlier ones, every
   * accumulator freshly initialised. `order` lists the keys in the order the
   * pass visits them.
   */
  method LoadAggregates(list: seq<Aggregate>) returns (aggs: map<string, AggregateState>, order: seq<string>)
    ensures order == Names(list)
    ensures Loaded(aggs, Table(list))
  {
    aggs, order := map[], [];
    for i := 0 to |list|
      invariant order == Names(list[..i])
      invariant Loaded(aggs, Table(list[..i]))
    {
      var agg := list[i];
      assert list[..i + 1] == list[..i] + [agg];
      TableExtend(list[..i], agg);
      if agg.name !in aggs {
        order := order + [agg.name];
      }
      aggs := aggs[agg.name := AggregateState(agg.id, ShortNames(agg.hosts), InitializeMetrics())];
    }
    assert list[..|list|] == list;
  }

  /** The aggregates' state holds the table's ids and host lists, each with a fresh accumulator. */
  ghost predicate Loaded(aggs: map<string, AggregateState>, table: map<string, Entry>)
  {
    && aggs.Keys == table.Keys
    && forall n :: n in aggs ==> aggs[n] == AggregateState(table[n].id, table[n].hosts, InitializeMetrics())
  }

  /** `if host in agg_hosts: metrics[key] += value` for one aggregate. */
  function AddIfMember(st: AggregateState, host: string, key: string, value: int): AggregateState
    requires key in st.metrics
  {
    if host in st.hosts then st.(metrics := st.metrics[key := st.metrics[key] + value]) else st
  }

  /**
   * One aggregate's step keeps its id, host list and key set, and changes
   * only `key`, by `value`, and only when the aggregate lists the host.
   */
  lemma AddIfMemberEffect(st: AggregateState, host: string, key: string, value: int)
    requires key in st.metrics
    ensures var r := AddIfMember(st, host, key, value);
            && r.id == st.id && r.hosts == st.hosts && r.metrics.Keys == st.metrics.Keys
            && forall k :: k in st.metrics ==>
                 r.metrics[k] == st.metrics[k] + (if k == key && host in st.hosts then value else 0)
  {
  }

  /**
   * The loop over the aggregates inside the per-host loop (hypervisor_stats.py:100-103
   * and 115-121): `value` is added to key `key` of every aggregate whose host
   * list contains `host`; the other aggregates are unchanged.
   */
  method AddToAggregates(aggs: map<string, AggregateState>, order: seq<string>, host: string, key: string, value: int)
    returns (r: map<string, AggregateState>)
    requires forall n :: n in aggs <==> n in order
    requires forall i, j :: 0 <= i < j < |order| ==> order[i] != order[j]
    requires forall n :: n in aggs ==> key in aggs[n].metrics
    ensures r.Keys == aggs.Keys
    ensures forall n :: n in aggs ==> r[n] == AddIfMember(aggs[n], host, key, value)
  {
    r := aggs;
    for a := 0 to |order|
      invariant r.Keys == aggs.Keys
      invariant forall n :: n in aggs && n !in order[..a] ==> r[n] == aggs[n]
      invariant forall n :: n in aggs && n in order[..a] ==> r[n] == AddIfMember(aggs[n], host, key, value)
    {
      var name := order[a];
      assert order[..a + 1] == order[..a] + [name];
      assert name !in order[..a];
      r := r[name := AddIfMember(r[name], host, key, value)];
    }
    assert order[..|order|] == order;
  }

  /** Every aggregate's accumulator holds its sums over `hs`. */
  ghost predicate AggregatesHold(aggs: map<string, AggregateState>, table: map<string, Entry>,
                                 hs: seq<Hypervisor>, ratio: Option<CpuRatio>)
  {
    && aggs.Keys == table.Keys
    && forall n :: n in aggs ==>
         && aggs[n].id == table[n].id
         && aggs[n].hosts == table[n].hosts
         && Holds(aggs[n].metrics, hs, ratio, Members(table[n].hosts))
  }

  /** Adding the value of `h` for key index k into an accumulator in scope advances it by one key. */
  lemma StepHolds(m: map<string, int>, hs: seq<Hypervisor>, h: Hypervisor, ratio: Option<CpuRatio>,
                  scope: Scope, k: nat, m': map<string, int>)
    requires k < MetricCount
    requires HoldsPartly(m, hs, h, ratio, scope, k)
    requires m' == if InScope(h, scope) then m[MetricNames[k] := m[MetricNames[k]] + HostValue(h, ratio, k)] else m
    ensures HoldsPartly(m', hs, h, ratio, scope, k + 1)
  {
    forall t | 0 <= t < MetricCount && t != k
      ensures MetricNames[t] != MetricNames[k]
    {
      MetricNamesDistinct(t, k);
    }
  }

  /** Adding the value of `h` for key index k into one aggregate's state advances it by one key. */
  lemma StepAggregate(st: AggregateState, e: Entry, hs: seq<Hypervisor>, h: Hypervisor, ratio: Option<CpuRatio>,
                      k: nat, st': AggregateState)
    requires k < MetricCount
    requires st.id == e.id && st.hosts == e.hosts
    requires HoldsPartly(st.metrics, hs, h, ratio, Members(e.hosts), k)
    requires st' == AddIfMember(st, Host(h), MetricNames[k], HostValue(h, ratio, k))
    ensures st'.id == e.id && st'.hosts == e.hosts
    ensures HoldsPartly(st'.metrics, hs, h, ratio, Members(e.hosts), k + 1)
  {
    StepHolds(st.metrics, hs, h, ratio, Members(e.hosts), k, st'.metrics);
  }

  /** `AddToAggregates` with the value of `h` for key index k advances every aggregate by one key. */
  lemma StepAggregates(aggs: map<string, AggregateState>, table: map<string, Entry>, hs: seq<Hypervisor>,
                       h: Hypervisor, ratio: Option<CpuRatio>, k: nat, aggs': map<string, AggregateState>)
    requires k < MetricCount
    requires AggregatesHoldPartly(aggs, table, hs, h, ratio, k)
    requires aggs'.Keys == aggs.Keys
    requires forall n :: n in aggs ==> aggs'[n] == AddIfMember(aggs[n], Host(h), MetricNames[k], HostValue(h, ratio, k))
    ensures AggregatesHoldPartly(aggs', table, hs, h, ratio, k + 1)
  {
    forall n | n in aggs'
      ensures && aggs'[n].id == table[n].id && aggs'[n].hosts == table[n].hosts
              && HoldsPartly(aggs'[n].metrics, hs, h, ratio, Members(table[n].hosts), k + 1)
    {
      StepAggregate(aggs[n], table[n], hs, h, ratio, k, aggs'[n]);
    }
  }

  /** Before any key of `h` is added, the partial sums are the sums over `hs`. */
  lemma StartHolds(m: map<string, int>, hs: seq<Hypervisor>, h: Hypervisor, ratio: Option<CpuRatio>, scope: Scope)
    requires Holds(m, hs, ratio, scope)
    ensures HoldsPartly(m, hs, h, ratio, scope, 0)
  {
  }

  /** Once every key of `h` is added, the accumulator holds the sums over `hs + [h]`. */
  lemma FinishHolds(m: map<string, int>, hs: seq<Hypervisor>, h: Hypervisor, ratio: Option<CpuRatio>, scope: Scope)
    requires HoldsPartly(m, hs, h, ratio, scope, MetricCount)
    ensures Holds(m, hs + [h], ratio, scope)
  {
    assert (hs + [h])[..|hs|] == hs;
  }

  /** Without a ratio the `free_vcpus` key of `h` adds nothing, so it can be skipped. */
  lemma SkipFreeVcpus(m: map<string, int>, hs: seq<Hypervisor>, h: Hypervisor, scope: Scope)
    requires HoldsPartly(m, hs, h, None, scope, ValueCount)
    ensures HoldsPartly(m, hs, h, None, scope, MetricCount)
  {
  }

  /**
   * One accumulation step (hypervisor_stats.py:99-103 for a `VALUE_MAP` key, 114-121
   * for `free_vcpus`): the host's value for key index k is added to the total
   * and to every aggregate listing the host.
   */
  method Accumulate(total: map<string, int>, aggs: map<string, AggregateState>, order: seq<string>,
                    stats: Hypervisor, ratio: Option<CpuRatio>, k: nat, value: int,
                    ghost hs: seq<Hypervisor>, ghost table: map<string, Entry>)
    returns (newTotal: map<string, int>, newAggs: map<string, AggregateState>)
    requires k < MetricCount && value == HostValue(stats, ratio, k)
    requires forall n :: n in aggs <==> n in order
    requires forall i, j :: 0 <= i < j < |order| ==> order[i] != order[j]
    requires HoldsPartly(total, hs, stats, ratio, Fleet, k)
    requires AggregatesHoldPartly(aggs, table, hs, stats, ratio, k)
    ensures HoldsPartly(newTotal, hs, stats, ratio, Fleet, k + 1)
    ensures AggregatesHoldPartly(newAggs, table, hs, stats, ratio, k + 1)
    ensures newAggs.Keys == aggs.Keys
  {
    var key := MetricNames[k];
    newTotal := total[key := total[key] + value];
    StepHolds(total, hs, stats, ratio, Fleet, k, newTotal);
    assert forall n :: n in aggs ==> key in aggs[n].metrics;
    newAggs := AddToAggregates(aggs, order, Host(stats), key, value);
    StepAggregates(aggs, table, hs, stats, ratio, k, newAggs);
  }

  /**
   * The body of the loop over the hypervisor listing for one record `stats`
   * (hypervisor_stats.py:86-121): yields its per-host records and adds each value
   * into the total and into every aggregate listing the host.
   */
  method ProcessHypervisor(stats: Hypervisor, ratio: Option<CpuRatio>, total: map<string, int>,
                           aggs: map<string, AggregateState>, order: seq<string>,
                           ghost hs: seq<Hypervisor>, ghost table: map<string, Entry>)
    returns (records: seq<MetricRecord>, newTotal: map<string, int>, newAggs: map<string, AggregateState>)
    requires forall n :: n in aggs <==> n in order
    requires forall i, j :: 0 <= i < j < |order| ==> order[i] != order[j]
    requires Holds(total, hs, ratio, Fleet)
    requires AggregatesHold(aggs, table, hs, ratio)
    ensures records == HostRecordsOf(stats, ratio)
    ensures Holds(newTotal, hs + [stats], ratio, Fleet)
    ensures AggregatesHold(newAggs, table, hs + [stats], ratio)
    ensures newAggs.Keys == aggs.Keys
  {
    var host := Host(stats);
    records, newTotal, newAggs := [], total, aggs;
    StartAll(total, aggs, table, hs, stats, ratio);
    for k := 0 to ValueCount
      invariant records == HostRecordsOf(stats, ratio)[..k]
      invariant HoldsPartly(newTotal, hs, stats, ratio, Fleet, k)
      invariant AggregatesHoldPartly(newAggs, table, hs, stats, ratio, k)
      invariant newAggs.Keys == aggs.Keys
    {
      var m := ValueMap[k];
      var value := Get(stats, m.raw);
      var record := MetricRecord(PluginInstance(m.target), Count(value), HostMeta(host, UnitOf(k)));
      assert record == HostRecord(stats, k);
      assert HostRecordsOf(stats, ratio)[..k + 1] == HostRecordsOf(stats, ratio)[..k] + [record];
      records := records + [record];
      newTotal, newAggs := Accumulate(newTotal, newAggs, order, stats, ratio, k, value, hs, table);
    }
    assert HostRecordsOf(stats, ratio) == records + HostRecordsOf(stats, ratio)[ValueCount..];
    var free;
    free, newTotal, newAggs := ProcessFreeVcpus(stats, ratio, newTotal, newAggs, order, hs, table);
    records := records + free;
    FinishAll(newTotal, newAggs, table, hs, stats, ratio);
  }

  /**
   * The `free_vcpus` part of the per-host loop (hypervisor_stats.py:104-121):
   * with a ratio configured, the host's free virtual CPUs are yielded and
   * added to the total and to every aggregate listing the host; without one,
   * nothing happens.
   */
  method ProcessFreeVcpus(stats: Hypervisor, ratio: Option<CpuRatio>, total: map<string, int>,
                          aggs: map<string, AggregateState>, order: seq<string>,
                          ghost hs: seq<Hypervisor>, ghost table: map<string, Entry>)
    returns (records: seq<MetricRecord>, newTotal: map<string, int>, newAggs: map<string, AggregateState>)
    requires forall n :: n in aggs <==> n in order
    requires forall i, j :: 0 <= i < j < |order| ==> order[i] != order[j]
    requires HoldsPartly(total, hs, stats, ratio, Fleet, ValueCount)
    requires AggregatesHoldPartly(aggs, table, hs, stats, ratio, ValueCount)
    ensures records == HostRecordsOf(stats, ratio)[ValueCount..]
    ensures HoldsPartly(newTotal, hs, stats, ratio, Fleet, MetricCount)
    ensures AggregatesHoldPartly(newAggs, table, hs, stats, ratio, MetricCount)
    ensures newAggs.Keys == aggs.Keys
  {
    if ratio.Some? {
      var vcpus := Get(stats, "vcpus");
      var vcpusUsed := Get(stats, "vcpus_used");
      var free := FreeVcpusOf(ratio.value, vcpus, vcpusUsed);
      records := [MetricRecord(PluginInstance(FreeVcpus), Count(free), HostMeta(Host(stats), None))];
      newTotal, newAggs := Accumulate(total, aggs, order, stats, ratio, ValueCount, free, hs, table);
    } else {
      records, newTotal, newAggs := [], total, aggs;
      SkipAll(newTotal, newAggs, table, hs, stats);
    }
  }

  lemma StartAll(total: map<string, int>, aggs: map<string, AggregateState>, table: map<string, Entry>,
                 hs: seq<Hypervisor>, h: Hypervisor, ratio: Option<CpuRatio>)
    requires Holds(total, hs, ratio, Fleet)
    requires AggregatesHold(aggs, table, hs, ratio)
    ensures HoldsPartly(total, hs, h, ratio, Fleet, 0)
    ensures AggregatesHoldPartly(aggs, table, hs, h, ratio, 0)
  {
    StartHolds(total, hs, h, ratio, Fleet);
    forall n | n in aggs
      ensures HoldsPartly(aggs[n].metrics, hs, h, ratio, Members(table[n].hosts), 0)
    {
      StartHolds(aggs[n].metrics, hs, h, ratio, Members(table[n].hosts));
    }
  }

  lemma SkipAll(total: map<string, int>, aggs: map<string, AggregateState>, table: map<string, Entry>,
                hs: seq<Hypervisor>, h: Hypervisor)
    requires HoldsPartly(total, hs, h, None, Fleet, ValueCount)
    requires AggregatesHoldPartly(aggs, table, hs, h, None, ValueCount)
    ensures HoldsPartly(total, hs, h, None, Fleet, MetricCount)
    ensures AggregatesHoldPartly(aggs, table, hs, h, None, MetricCount)
  {
    SkipFreeVcpus(total, hs, h, Fleet);
    forall n | n in aggs
      ensures HoldsPartly(aggs[n].metrics, hs, h, None, Members(table[n].hosts), MetricCount)
    {
      SkipFreeVcpus(aggs[n].metrics, hs, h, Members(table[n].hosts));
    }
  }

  lemma FinishAll(total: map<string, int>, aggs: map<string, AggregateState>, table: map<string, Entry>,
                  hs: seq<Hypervisor>, h: Hypervisor, ratio: Option<CpuRatio>)
    requires HoldsPartly(total, hs, h, ratio, Fleet, MetricCount)
    requires AggregatesHoldPartly(aggs, table, hs, h, ratio, MetricCount)
    ensures Holds(total, hs + [h], ratio, Fleet)
    ensures AggregatesHold(aggs, table, hs + [h], ratio)
  {
    FinishHolds(total, hs, h, ratio, Fleet);
    forall n | n in aggs
      ensures Holds(aggs[n].metrics, hs + [h], ratio, Members(table[n].hosts))
    {
      FinishHolds(aggs[n].metrics, hs, h, ratio, Members(table[n].hosts));
    }
  }

  /**
   * The records of one aggregate (hypervisor_stats.py:125-145): `free_ram_percent`
   * when its RAM total is positive, and one `aggregate_<key>` record per
   * accumulator key, tagged with the aggregate's name and id.
   */
  method EmitAggregate(name: string, st: AggregateState, ghost e: Entry, ghost hs: seq<Hypervisor>,
                       ghost ratio: Option<CpuRatio>)
    returns (records: seq<MetricRecord>)
    requires st.id == e.id && st.hosts == e.hosts
    requires Holds(st.metrics, hs, ratio, Members(e.hosts))
    ensures records == AggregateRecordsOf(name, e, hs, ratio)
  {
    var metrics := st.metrics;
    assert MetricNames[FreeRamIndex] == "free_ram" && MetricNames[UsedRamIndex] == "used_ram";
    var ramTotal := metrics["free_ram"] + metrics["used_ram"];
    var meta := AggregateMeta(name, st.id, true);
    records := [];
    for k := 0 to MetricCount
      invariant |records| == k
      invariant forall t :: 0 <= t < k ==> records[t] == AggregateRecord(name, e, hs, ratio, t)
    {
      var key := MetricNames[k];
      assert metrics[key] == Sum(hs, ratio, k, Members(e.hosts));
      records := records + [MetricRecord(PluginInstance("aggregate_" + key), Count(metrics[key]), meta)];
    }
    AggregateRecordsFrom(name, e, hs, ratio, records);
    if ramTotal > 0 {
      records := records + [MetricRecord(PluginInstance("aggregate_" + FreeRamPercent),
                                         Percent(metrics["free_ram"], ramTotal), meta)];
    }
  }

  /** An aggregate's records are its 8 `aggregate_<key>` records followed by the optional percentage. */
  lemma AggregateRecordsFrom(name: string, e: Entry, hs: seq<Hypervisor>, ratio: Option<CpuRatio>, keyed: seq<MetricRecord>)
    requires |keyed| == MetricCount
    requires forall t :: 0 <= t < MetricCount ==> keyed[t] == AggregateRecord(name, e, hs, ratio, t)
    ensures AggregateRecordsOf(name, e, hs, ratio)
         == keyed + (if RamTotal(hs, ratio, Members(e.hosts)) > 0 then [PercentRecord(name, e, hs, ratio)] else [])
  {
  }

  /** The fleet-wide records (hypervisor_stats.py:147-152): one `total_<key>` per accumulator key. */
  method EmitTotals(total: map<string, int>, ghost hs: seq<Hypervisor>, ghost ratio: Option<CpuRatio>)
    returns (records: seq<MetricRecord>)
    requires Holds(total, hs, ratio, Fleet)
    ensures records == TotalRecords(hs, ratio)
  {
    records := [];
    for k := 0 to MetricCount
      invariant records == TotalRecords(hs, ratio)[..k]
    {
      var key := MetricNames[k];
      assert total[key] == Sum(hs, ratio, k, Fleet);
      assert TotalRecords(hs, ratio)[..k + 1] == TotalRecords(hs, ratio)[..k] + [TotalRecords(hs, ratio)[k]];
      records := records + [MetricRecord(TypeInstance("total_" + key), Count(total[key]), TotalMeta(true))];
    }
  }

  /**
   * The loop over the hypervisor listing (hypervisor_stats.py:84-121), from freshly
   * initialised accumulators: the per-host records, and the accumulators
   * holding their sums over the whole listing.
   */
  method AccumulateAll(hs: seq<Hypervisor>, ratio: Option<CpuRatio>, aggs: map<string, AggregateState>,
                       order: seq<string>, ghost table: map<string, Entry>)
    returns (out: seq<MetricRecord>, total: map<string, int>, newAggs: map<string, AggregateState>)
    requires forall n :: n in aggs <==> n in order
    requires forall i, j :: 0 <= i < j < |order| ==> order[i] != order[j]
    requires AggregatesHold(aggs, table, [], ratio)
    ensures out == HostRecords(hs, ratio)
    ensures Holds(total, hs, ratio, Fleet)
    ensures AggregatesHold(newAggs, table, hs, ratio)
    ensures newAggs.Keys == aggs.Keys
  {
    total := InitializeMetrics();
    InitialHolds(ratio, Fleet);
    out, newAggs := [], aggs;
    for j := 0 to |hs|
      invariant out == HostRecords(hs[..j], ratio)
      invariant Holds(total, hs[..j], ratio, Fleet)
      invariant AggregatesHold(newAggs, table, hs[..j], ratio)
      invariant newAggs.Keys == aggs.Keys
    {
      var records;
      assert hs[..j + 1] == hs[..j] + [hs[j]];
      assert hs[..j + 1][..j] == hs[..j];
      records, total, newAggs := ProcessHypervisor(hs[j], ratio, total, newAggs, order, hs[..j], table);
      out := out + records;
    }
    assert hs[..|hs|] == hs;
  }

  /** The loop over the aggregates emitting their records (hypervisor_stats.py:124-145), in `order`. */
  method EmitAggregates(aggs: map<string, AggregateState>, order: seq<string>, ghost table: map<string, Entry>,
                        ghost hs: seq<Hypervisor>, ghost ratio: Option<CpuRatio>)
    returns (out: seq<MetricRecord>)
    requires forall n :: n in order ==> n in aggs
    requires AggregatesHold(aggs, table, hs, ratio)
    ensures out == AggregateRecords(order, table, hs, ratio)
  {
    out := [];
    for a := 0 to |order|
      invariant out == AggregateRecords(order[..a], table, hs, ratio)
    {
      var name := order[a];
      assert order[..a + 1][..a] == order[..a];
      var records := EmitAggregate(name, aggs[name], table[name], hs, ratio);
      out := out + records;
    }
    assert order[..|order|] == order;
  }

  /**
   * `itermetrics`: the records of one collection pass, in the order they are
   * yielded. `aggregates` and `hypervisors` are the outcomes of the two fetches
   * (None when a fetch failed) and `ratio` the configured `CpuAllocationRatio`.
   */
  method IterMetrics(aggregates: Option<seq<Aggregate>>, hypervisors: Option<seq<Hypervisor>>,
                     ratio: Option<CpuRatio>)
    returns (out: seq<MetricRecord>)
    ensures out == Expected(aggregates, hypervisors, ratio)
  {
    var aggs: map<string, AggregateState> := map[];
    var order: seq<string> := [];
    if aggregates.Some? {
      aggs, order := LoadAggregates(aggregates.value);
    }
    ghost var list := if aggregates.Some? then aggregates.value else [];
    ghost var table := Table(list);
    if hypervisors.None? {
      return [];
    }
    var hs := hypervisors.value;
    forall n | n in aggs
      ensures Holds(aggs[n].metrics, [], ratio, Members(table[n].hosts))
    {
      InitialHolds(ratio, Members(table[n].hosts));
    }
    var perHost, total;
    perHost, total, aggs := AccumulateAll(hs, ratio, aggs, order, table);
    var perAggregate := EmitAggregates(aggs, order, table, hs, ratio);
    var totals := EmitTotals(total, hs, ratio);
    out := perHost + perAggregate + totals;
  }
}
