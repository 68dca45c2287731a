/**
 * What a collection pass yields, stated about `Expected` (which
 * `IterMetrics` is proved to return): when nothing is yielded, which records
 * appear and in what layout, and how the aggregate and total figures relate
 * to the per-host records.
 */
module PassProperties {
  import opened Wrappers
  import opened Hostnames
  import opened Tables
  import opened Accumulation
  import opened Aggregates
  import opened Records

  /** Every per-host record is tagged with a hostname. */
  lemma {:induction false} HostRecordsTagged(hs: seq<Hypervisor>, ratio: Option<CpuRatio>)
    ensures forall r :: r in HostRecords(hs, ratio) ==> r.meta.HostMeta? && r.instance.PluginInstance?
    decreases |hs|
  {
    if hs != [] {
      HostRecordsTagged(hs[..|hs| - 1], ratio);
      var last := HostRecordsOf(hs[|hs| - 1], ratio);
      assert forall r :: r in last ==> r.meta.HostMeta? && r.instance.PluginInstance? by {
        forall r | r in last ensures r.meta.HostMeta? && r.instance.PluginInstance? {
          var i :| 0 <= i < |last| && last[i] == r;
        }
      }
    }
  }

  /** Every record of an aggregate carries its name, its id and the `discard_hostname` flag. */
  lemma AggregateRecordsOfTagged(name: string, e: Entry, hs: seq<Hypervisor>, ratio: Option<CpuRatio>)
    ensures forall r :: r in AggregateRecordsOf(name, e, hs, ratio) ==>
              r.meta == AggregateMeta(name, e.id, true) && r.instance.PluginInstance?
  {
    var recs := AggregateRecordsOf(name, e, hs, ratio);
    forall r | r in recs ensures r.meta == AggregateMeta(name, e.id, true) && r.instance.PluginInstance? {
      var i :| 0 <= i < |recs| && recs[i] == r;
    }
  }

  /**
   * The aggregate part of the output is exactly the records of the listed
   * aggregates: every record of a listed aggregate is there, every record
   * there belongs to the aggregate its tag names, and each aggregate
   * contributes 8 or 9 records.
   */
  lemma {:induction false} AggregateRecordsCover(names: seq<string>, table: map<string, Entry>,
                                                 hs: seq<Hypervisor>, ratio: Option<CpuRatio>)
    requires forall n :: n in names ==> n in table
    ensures forall n, r :: n in names && r in AggregateRecordsOf(n, table[n], hs, ratio) ==>
              r in AggregateRecords(names, table, hs, ratio)
    ensures forall r :: r in AggregateRecords(names, table, hs, ratio) ==>
              && r.meta.AggregateMeta? && r.meta.aggregate in names
              && r in AggregateRecordsOf(r.meta.aggregate, table[r.meta.aggregate], hs, ratio)
    ensures MetricCount * |names| <= |AggregateRecords(names, table, hs, ratio)| <= (MetricCount + 1) * |names|
    decreases |names|
  {
    if names != [] {
      var prefix := names[..|names| - 1];
      var last := names[|names| - 1];
      assert forall n :: n in names <==> n in prefix || n == last;
      AggregateRecordsCover(prefix, table, hs, ratio);
      AggregateRecordsOfTagged(last, table[last], hs, ratio);
    }
  }

  /** The output is empty exactly when the hypervisor-detail fetch failed, whatever became of the aggregates fetch. */
  lemma EmptyIffHypervisorsMissing(aggregates: Option<seq<Aggregate>>, hypervisors: Option<seq<Hypervisor>>,
                                   ratio: Option<CpuRatio>)
    ensures Expected(aggregates, hypervisors, ratio) == [] <==> hypervisors.None?
  {
    if hypervisors.Some? {
      var out := Expected(aggregates, hypervisors, ratio);
      assert |out| >= |TotalRecords(hypervisors.value, ratio)| == MetricCount;
    }
  }

  /**
   * The output is laid out as the per-host records (`PerHost` per hypervisor,
   * each tagged with its host), then the aggregate records, then the 8 total
   * records tagged `discard_hostname`.
   */
  lemma Layout(aggregates: Option<seq<Aggregate>>, hs: seq<Hypervisor>, ratio: Option<CpuRatio>)
    ensures var out := Expected(aggregates, Some(hs), ratio);
            var hostEnd := |hs| * PerHost(ratio);
            var totalStart := |out| - MetricCount;
            && hostEnd <= totalStart
            && (forall i :: 0 <= i < hostEnd ==> out[i].meta.HostMeta?)
            && (forall i :: hostEnd <= i < totalStart ==> out[i].meta.AggregateMeta? && out[i].meta.discardHostname)
            && (forall i :: totalStart <= i < |out| ==>
                  out[i].meta == TotalMeta(true) && out[i].instance == TypeInstance("total_" + MetricName(i - totalStart)))
  {
    var aggs := if aggregates.Some? then aggregates.value else [];
    var host := HostRecords(hs, ratio);
    var agg := AggregateRecords(Names(aggs), Table(aggs), hs, ratio);
    var tot := TotalRecords(hs, ratio);
    var out := Expected(aggregates, Some(hs), ratio);
    assert out == host + agg + tot;
    HostRecordsTagged(hs, ratio);
    AggregatePartTagged(Names(aggs), Table(aggs), hs, ratio);
    ConcatLayout(host, agg, tot);
    var totalStart := |out| - MetricCount;
    assert totalStart == |host| + |agg|;
    forall i | totalStart <= i < |out|
      ensures out[i].meta == TotalMeta(true) && out[i].instance == TypeInstance("total_" + MetricName(i - totalStart))
    {
      assert out[i] == tot[i - totalStart];
    }
  }

  lemma AggregatePartTagged(names: seq<string>, table: map<string, Entry>, hs: seq<Hypervisor>, ratio: Option<CpuRatio>)
    requires forall n :: n in names ==> n in table
    ensures forall r :: r in AggregateRecords(names, table, hs, ratio) ==>
              r.meta.AggregateMeta? && r.meta.discardHostname
  {
    AggregateRecordsCover(names, table, hs, ratio);
    forall r | r in AggregateRecords(names, table, hs, ratio) ensures r.meta.AggregateMeta? && r.meta.discardHostname {
      AggregateRecordsOfTagged(r.meta.aggregate, table[r.meta.aggregate], hs, ratio);
    }
  }

  lemma ConcatLayout(host: seq<MetricRecord>, agg: seq<MetricRecord>, tot: seq<MetricRecord>)
    requires forall r :: r in host ==> r.meta.HostMeta?
    requires forall r :: r in agg ==> r.meta.AggregateMeta? && r.meta.discardHostname
    ensures var out := host + agg + tot;
            && (forall i :: 0 <= i < |host| ==> out[i].meta.HostMeta?)
            && (forall i :: |host| <= i < |host| + |agg| ==> out[i].meta.AggregateMeta? && out[i].meta.discardHostname)
            && (forall i :: |host| + |agg| <= i < |out| ==> out[i] == tot[i - |host| - |agg|])
  {
    var out := host + agg + tot;
    forall i | 0 <= i < |host| ensures out[i].meta.HostMeta? {
      assert out[i] == host[i] && host[i] in host;
    }
    forall i | |host| <= i < |host| + |agg| ensures out[i].meta.AggregateMeta? && out[i].meta.discardHostname {
      assert out[i] == agg[i - |host|] && agg[i - |host|] in agg;
    }
  }

  /**
   * When the aggregates fetch failed but the hypervisor fetch succeeded, the
   * per-host and the total records are still yielded, and no aggregate record.
   */
  lemma AggregatesMissing(hs: seq<Hypervisor>, ratio: Option<CpuRatio>)
    ensures var out := Expected(None, Some(hs), ratio);
            && out == HostRecords(hs, ratio) + TotalRecords(hs, ratio)
            && |out| == |hs| * PerHost(ratio) + MetricCount
            && forall r :: r in out ==> !r.meta.AggregateMeta?
  {
    var out := Expected(None, Some(hs), ratio);
    assert Names([]) == [];
    assert out == HostRecords(hs, ratio) + TotalRecords(hs, ratio);
    HostRecordsTagged(hs, ratio);
    forall r | r in out ensures !r.meta.AggregateMeta? {
      if r !in HostRecords(hs, ratio) {
        var tot := TotalRecords(hs, ratio);
        assert r in tot;
        var i :| 0 <= i < |tot| && tot[i] == r;
      }
    }
  }

  /**
   * The records of the i-th hypervisor record stand at positions
   * i * PerHost .. i * PerHost + PerHost - 1 of the per-host part.
   */
  lemma {:induction false} HostRecordsAt(hs: seq<Hypervisor>, ratio: Option<CpuRatio>, i: nat, t: nat)
    requires i < |hs| && t < PerHost(ratio)
    ensures i * PerHost(ratio) + t < |HostRecords(hs, ratio)|
    ensures HostRecords(hs, ratio)[i * PerHost(ratio) + t] == HostRecordsOf(hs[i], ratio)[t]
    decreases |hs|
  {
    var p := PerHost(ratio);
    var n := |hs| - 1;
    assert HostRecords(hs, ratio) == HostRecords(hs[..n], ratio) + HostRecordsOf(hs[n], ratio);
    assert |HostRecords(hs[..n], ratio)| == n * p;
    if i < n {
      assert i * p + t < (i + 1) * p <= n * p;
      HostRecordsAt(hs[..n], ratio, i, t);
    } else {
      assert i * p == n * p;
    }
  }

  /**
   * Each hypervisor record yields, for every `VALUE_MAP` entry, a record named
   * by the entry's target whose value is the raw field (0 when absent), tagged
   * with the short hostname and, for the four `UNIT_MAP` fields only, a unit.
   */
  lemma PerHostValueRecord(hs: seq<Hypervisor>, ratio: Option<CpuRatio>, i: nat, t: nat)
    requires i < |hs| && t < ValueCount
    ensures var r := HostRecords(hs, ratio)[i * PerHost(ratio) + t];
            && r.instance == PluginInstance(ValueMap[t].target)
            && r.value == Count(if ValueMap[t].raw in hs[i].fields then hs[i].fields[ValueMap[t].raw] else 0)
            && r.meta.HostMeta? && r.meta.hostname == ShortName(hs[i].hostname)
            && (r.meta.unit.Some? <==> ValueMap[t].raw in UnitMap)
            && (r.meta.unit.Some? ==> r.meta.unit.value == UnitMap[ValueMap[t].raw])
  {
    HostRecordsAt(hs, ratio, i, t);
  }

  /**
   * With a ratio configured, each hypervisor record also yields `free_vcpus`
   * = trunc(ratio * vcpus) - vcpus_used, missing fields read as 0, tagged
   * with the hostname only.
   */
  lemma PerHostFreeVcpusRecord(hs: seq<Hypervisor>, ratio: CpuRatio, i: nat)
    requires i < |hs|
    ensures var r := HostRecords(hs, Some(ratio))[i * MetricCount + ValueCount];
            && r.instance == PluginInstance("free_vcpus")
            && r.value == Count(FreeVcpusOf(ratio, Get(hs[i], "vcpus"), Get(hs[i], "vcpus_used")))
            && r.meta == HostMeta(ShortName(hs[i].hostname), None)
  {
    HostRecordsAt(hs, Some(ratio), i, ValueCount);
  }

  /**
   * Without a ratio no per-host `free_vcpus` record is yielded, yet the total
   * and every aggregate still report `free_vcpus`, at 0.
   */
  lemma WithoutRatio(hs: seq<Hypervisor>, name: string, e: Entry)
    ensures forall r :: r in HostRecords(hs, None) ==> r.instance != PluginInstance(FreeVcpus)
    ensures TotalRecords(hs, None)[ValueCount]
         == MetricRecord(TypeInstance("total_" + FreeVcpus), Count(0), TotalMeta(true))
    ensures AggregateRecordsOf(name, e, hs, None)[ValueCount]
         == MetricRecord(PluginInstance("aggregate_" + FreeVcpus), Count(0), AggregateMeta(name, e.id, true))
  {
    FreeVcpusZeroWithoutRatio(hs, Fleet);
    FreeVcpusZeroWithoutRatio(hs, Members(e.hosts));
    forall r | r in HostRecords(hs, None) ensures r.instance != PluginInstance(FreeVcpus) {
      var recs := HostRecords(hs, None);
      var k :| 0 <= k < |recs| && recs[k] == r;
      var i, t := k / ValueCount, k % ValueCount;
      assert k == i * ValueCount + t;
      HostRecordsAt(hs, None, i, t);
      MetricNamesDistinct(t, ValueCount);
    }
  }
}
