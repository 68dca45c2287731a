/**
 * The aggregate and total figures against the per-host records: each
 * accumulator reports the sum of the per-host records of its hosts.
 */
module RollupProperties {
  import opened Wrappers
  import opened Tables
  import opened Accumulation
  import opened Aggregates
  import opened Records

  /** What a yielded record adds to a sum of per-host records named `name` over the hosts of `scope`. */
  function Counted(r: MetricRecord, name: string, scope: Scope): int
  {
    if && r.instance == PluginInstance(name) && r.meta.HostMeta? && r.value.Count?
       && (scope.Fleet? || r.meta.hostname in scope.hosts)
    then r.value.n
    else 0
  }

  /** The sum of the values of the per-host records named `name` whose host is in `scope`. */
  function HostedSum(records: seq<MetricRecord>, name: string, scope: Scope): int
    decreases |records|
  {
    if records == [] then 0
    else HostedSum(records[..|records| - 1], name, scope) + Counted(records[|records| - 1], name, scope)
  }

  lemma {:induction false} HostedSumAppend(a: seq<MetricRecord>, b: seq<MetricRecord>, name: string, scope: Scope)
    ensures HostedSum(a + b, name, scope) == HostedSum(a, name, scope) + HostedSum(b, name, scope)
    decreases |b|
  {
    if b == [] {
      assert a + b == a;
    } else {
      assert (a + b)[..|a + b| - 1] == a + b[..|b| - 1];
      HostedSumAppend(a, b[..|b| - 1], name, scope);
    }
  }

  /** A run of records at most one of which (at index k, if any) is named `name` sums to that one's value. */
  lemma {:induction false} HostedSumAtMostOne(rs: seq<MetricRecord>, name: string, scope: Scope, k: int)
    requires forall j :: 0 <= j < |rs| && j != k ==> rs[j].instance != PluginInstance(name)
    ensures HostedSum(rs, name, scope) == if 0 <= k < |rs| then Counted(rs[k], name, scope) else 0
    decreases |rs|
  {
    if rs != [] {
      HostedSumAtMostOne(rs[..|rs| - 1], name, scope, k);
    }
  }

  /** The per-host records of one hypervisor sum, for each key, to what it adds to an accumulator of that scope. */
  lemma HostedSumOfHost(h: Hypervisor, ratio: Option<CpuRatio>, t: nat, scope: Scope)
    requires t < MetricCount
    ensures HostedSum(HostRecordsOf(h, ratio), MetricName(t), scope)
         == if InScope(h, scope) then HostValue(h, ratio, t) else 0
  {
    var rs := HostRecordsOf(h, ratio);
    forall j | 0 <= j < |rs| && j != t ensures rs[j].instance != PluginInstance(MetricName(t)) {
      MetricNamesDistinct(j, t);
    }
    HostedSumAtMostOne(rs, MetricName(t), scope, t);
  }

  /**
   * Every accumulator ends up holding, for each key, the sum of the per-host
   * records of that key over the hosts of its scope: the total over every
   * hypervisor record, an aggregate over those whose short name it lists.
   */
  lemma {:induction false} SumIsSumOfHostRecords(hs: seq<Hypervisor>, ratio: Option<CpuRatio>, t: nat, scope: Scope)
    requires t < MetricCount
    ensures Sum(hs, ratio, t, scope) == HostedSum(HostRecords(hs, ratio), MetricName(t), scope)
    decreases |hs|
  {
    if hs != [] {
      var n := |hs| - 1;
      SumIsSumOfHostRecords(hs[..n], ratio, t, scope);
      HostedSumAppend(HostRecords(hs[..n], ratio), HostRecordsOf(hs[n], ratio), MetricName(t), scope);
      HostedSumOfHost(hs[n], ratio, t, scope);
    }
  }

  /**
   * Each `total_<key>` record reports the sum of the yielded per-host `<key>`
   * records, and each `aggregate_<key>` record the sum of those whose host the
   * aggregate lists.
   */
  lemma RollupsMatchHostRecords(name: string, e: Entry, hs: seq<Hypervisor>, ratio: Option<CpuRatio>, t: nat)
    requires t < MetricCount
    ensures TotalRecords(hs, ratio)[t].instance == TypeInstance("total_" + MetricName(t))
    ensures TotalRecords(hs, ratio)[t].value == Count(HostedSum(HostRecords(hs, ratio), MetricName(t), Fleet))
    ensures AggregateRecordsOf(name, e, hs, ratio)[t].instance == PluginInstance("aggregate_" + MetricName(t))
    ensures AggregateRecordsOf(name, e, hs, ratio)[t].meta == AggregateMeta(name, e.id, true)
    ensures AggregateRecordsOf(name, e, hs, ratio)[t].value
         == Count(HostedSum(HostRecords(hs, ratio), MetricName(t), Members(e.hosts)))
  {
    SumIsSumOfHostRecords(hs, ratio, t, Fleet);
    SumIsSumOfHostRecords(hs, ratio, t, Members(e.hosts));
  }

  /**
   * `free_ram_percent` is yielded for an aggregate exactly when its
   * free_ram + used_ram is positive, as the fraction 100 * free_ram / (free_ram + used_ram);
   * so an aggregate yields 9 records then and 8 otherwise.
   */
  lemma FreeRamPercentGuard(name: string, e: Entry, hs: seq<Hypervisor>, ratio: Option<CpuRatio>)
    ensures var recs := AggregateRecordsOf(name, e, hs, ratio);
            var free := Sum(hs, ratio, FreeRamIndex, Members(e.hosts));
            var used := Sum(hs, ratio, UsedRamIndex, Members(e.hosts));
            && |recs| == (if free + used > 0 then MetricCount + 1 else MetricCount)
            && (free + used > 0 ==>
                  recs[MetricCount] == MetricRecord(PluginInstance("aggregate_" + FreeRamPercent),
                                                    Percent(free, free + used), AggregateMeta(name, e.id, true)))
            && (free + used <= 0 ==>
                  forall r :: r in recs ==> r.instance != PluginInstance("aggregate_" + FreeRamPercent))
  {
    var recs := AggregateRecordsOf(name, e, hs, ratio);
    if RamTotal(hs, ratio, Members(e.hosts)) <= 0 {
      NoPercentRecord(recs);
    }
  }

  /** Eight records named `aggregate_<key>`, one per accumulator key, include no `aggregate_free_ram_percent`. */
  lemma NoPercentRecord(recs: seq<MetricRecord>)
    requires |recs| == MetricCount
    requires forall t :: 0 <= t < MetricCount ==> recs[t].instance == PluginInstance("aggregate_" + MetricName(t))
    ensures forall r :: r in recs ==> r.instance != PluginInstance("aggregate_" + FreeRamPercent)
  {
    forall r | r in recs
      ensures r.instance != PluginInstance("aggregate_" + FreeRamPercent)
    {
      var t :| 0 <= t < |recs| && recs[t] == r;
      assert |MetricName(t)| != |FreeRamPercent|;
      assert |"aggregate_" + MetricName(t)| != |"aggregate_" + FreeRamPercent|;
    }
  }

  /**
   * When the hosts' RAM counters are non-negative the aggregate's
   * `free_ram_percent` lies between 0 and 100.
   */
  lemma FreeRamPercentInRange(hs: seq<Hypervisor>, ratio: Option<CpuRatio>, hosts: seq<string>)
    requires forall i :: 0 <= i < |hs| ==> Get(hs[i], "free_ram_mb") >= 0 && Get(hs[i], "memory_mb_used") >= 0
    requires RamTotal(hs, ratio, Members(hosts)) > 0
    ensures 0 <= Sum(hs, ratio, FreeRamIndex, Members(hosts)) <= RamTotal(hs, ratio, Members(hosts))
  {
    SumMonotone(hs, 0, ratio, FreeRamIndex, Members(hosts));
    SumMonotone(hs, 0, ratio, UsedRamIndex, Members(hosts));
    assert hs[..0] == [];
  }
}
