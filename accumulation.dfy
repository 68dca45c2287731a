/**
 * What one hypervisor-detail record contributes to each accumulator key, and
 * the sums the accumulators hold after the pass: over the whole fleet, or over
 * the hosts of one aggregate.
 */
module Accumulation {
  import opened Wrappers
  import opened Hostnames
  import opened Tables

  /** One element of the hypervisor-detail listing: its hostname and whatever numeric fields it carries. */
  datatype Hypervisor = Hypervisor(hostname: string, fields: map<string, int>)

  /** `stats.get(key, 0)`: a missing field reads as 0. */
  function Get(stats: Hypervisor, key: string): int
  {
    if key in stats.fields then stats.fields[key] else 0
  }

  /** The host a record belongs to: its hostname without the domain. */
  function Host(stats: Hypervisor): string
  {
    ShortName(stats.hostname)
  }

  /** The host's free virtual CPUs under a configured ratio, missing fields read as 0. */
  function HostFreeVcpus(stats: Hypervisor, ratio: CpuRatio): int
  {
    FreeVcpusOf(ratio, Get(stats, "vcpus"), Get(stats, "vcpus_used"))
  }

  /**
   * What `stats` adds to accumulator key t: the raw field of `ValueMap[t]`, or
   * for `free_vcpus` the free-capacity figure when a ratio is configured and
   * nothing otherwise.
   */
  function HostValue(stats: Hypervisor, ratio: Option<CpuRatio>, t: nat): int
    requires t < MetricCount
  {
    if t < ValueCount then Get(stats, ValueMap[t].raw)
    else if ratio.Some? then HostFreeVcpus(stats, ratio.value)
    else 0
  }

  /** Which hosts an accumulator collects: every host (the total), or an aggregate's host list. */
  datatype Scope = Fleet | Members(hosts: seq<string>)

  /** Whether `stats` is added into an accumulator of this scope: list membership `host in agg_hosts`. */
  predicate InScope(stats: Hypervisor, scope: Scope)
  {
    scope.Fleet? || Host(stats) in scope.hosts
  }

  /**
   * The value accumulator key t of the given scope holds after the records `hs`
   * have been processed; an aggregate with an empty host list never matches a
   * host and keeps its initial 0.
   */
  function Sum(hs: seq<Hypervisor>, ratio: Option<CpuRatio>, t: nat, scope: Scope): (r: int)
    requires t < MetricCount
    decreases |hs|
  {
    if hs == [] then 0
    else
      var last := hs[|hs| - 1];
      Sum(hs[..|hs| - 1], ratio, t, scope) + (if InScope(last, scope) then HostValue(last, ratio, t) else 0)
  }

  /** Splitting the listing splits the sum. */
  lemma {:induction false} SumAppend(a: seq<Hypervisor>, b: seq<Hypervisor>, ratio: Option<CpuRatio>, t: nat, scope: Scope)
    requires t < MetricCount
    ensures Sum(a + b, ratio, t, scope) == Sum(a, ratio, t, scope) + Sum(b, ratio, t, scope)
    decreases |b|
  {
    if b == [] {
      assert a + b == a;
    } else {
      var b' := b[..|b| - 1];
      assert (a + b)[..|a + b| - 1] == a + b';
      SumAppend(a, b', ratio, t, scope);
    }
  }

  /** The sum of a listing with one record: its value when it is in scope, otherwise nothing. */
  lemma SumSingle(h: Hypervisor, ratio: Option<CpuRatio>, t: nat, scope: Scope)
    requires t < MetricCount
    ensures Sum([h], ratio, t, scope) == if InScope(h, scope) then HostValue(h, ratio, t) else 0
  {
    assert [h][..0] == [];
  }

  /**
   * Fan-out: wherever a record stands in the listing, it adds its full value
   * to every accumulator whose scope holds its host, and nothing to the others.
   */
  lemma FullContribution(before: seq<Hypervisor>, h: Hypervisor, after: seq<Hypervisor>,
                         ratio: Option<CpuRatio>, t: nat, scope: Scope)
    requires t < MetricCount
    ensures Sum(before + [h] + after, ratio, t, scope)
         == Sum(before + after, ratio, t, scope) + (if InScope(h, scope) then HostValue(h, ratio, t) else 0)
  {
    SumAppend(before + [h], after, ratio, t, scope);
    SumAppend(before, [h], ratio, t, scope);
    SumAppend(before, after, ratio, t, scope);
    SumSingle(h, ratio, t, scope);
  }

  /** The sum does not depend on the order of the hypervisor listing. */
  lemma {:induction false} SumPermutation(hs: seq<Hypervisor>, gs: seq<Hypervisor>,
                                          ratio: Option<CpuRatio>, t: nat, scope: Scope)
    requires t < MetricCount
    requires multiset(hs) == multiset(gs)
    ensures Sum(hs, ratio, t, scope) == Sum(gs, ratio, t, scope)
    decreases |hs|
  {
    if hs == [] {
      assert |gs| == |multiset(gs)| == 0;
    } else {
      var n := |hs| - 1;
      assert hs[n] in multiset(gs);
      var i :| 0 <= i < |gs| && gs[i] == hs[n];
      var rest := RemoveAt(gs, i);
      RemoveLast(hs, gs, i);
      SumPermutation(hs[..n], rest, ratio, t, scope);
      FullContribution(gs[..i], gs[i], gs[i + 1..], ratio, t, scope);
    }
  }

  /** Taking the last record off `hs` and a matching one off a permutation `gs` leaves permutations. */
  lemma RemoveLast(hs: seq<Hypervisor>, gs: seq<Hypervisor>, i: nat)
    requires hs != [] && i < |gs| && gs[i] == hs[|hs| - 1]
    requires multiset(hs) == multiset(gs)
    ensures multiset(hs[..|hs| - 1]) == multiset(RemoveAt(gs, i))
  {
    var n := |hs| - 1;
    assert hs == hs[..n] + [hs[n]];
    assert multiset(hs[..n]) + multiset{hs[n]} == multiset(RemoveAt(gs, i)) + multiset{hs[n]};
    MultisetCancel(multiset(hs[..n]), multiset(RemoveAt(gs, i)), hs[n]);
  }

  /** The listing `s` without its element at index i. */
  function RemoveAt(s: seq<Hypervisor>, i: nat): (r: seq<Hypervisor>)
    requires i < |s|
    ensures s == s[..i] + [s[i]] + s[i + 1..]
    ensures multiset(s) == multiset(r) + multiset{s[i]}
  {
    assert s == s[..i] + [s[i]] + s[i + 1..];
    s[..i] + s[i + 1..]
  }

  lemma MultisetCancel(a: multiset<Hypervisor>, b: multiset<Hypervisor>, x: Hypervisor)
    requires a + multiset{x} == b + multiset{x}
    ensures a == b
  {
    assert a == a + multiset{x} - multiset{x};
    assert b == b + multiset{x} - multiset{x};
  }

  /**
   * Aggregate membership is list membership: two host lists with the same
   * elements, whatever their order or repetitions, collect the same sum. A host
   * listed twice in an aggregate is counted once per hypervisor record.
   */
  lemma {:induction false} SumDependsOnMembershipOnly(hs: seq<Hypervisor>, ratio: Option<CpuRatio>, t: nat,
                                                     a: seq<string>, b: seq<string>)
    requires t < MetricCount
    requires forall n :: n in a <==> n in b
    ensures Sum(hs, ratio, t, Members(a)) == Sum(hs, ratio, t, Members(b))
    decreases |hs|
  {
    if hs != [] {
      SumDependsOnMembershipOnly(hs[..|hs| - 1], ratio, t, a, b);
    }
  }

  /**
   * Aggregates do not partition the hosts: for two aggregates A and B, a host
   * in both is counted in full by each, so A's sum plus B's sum is the sum over
   * their union plus the sum over their intersection.
   */
  lemma {:induction false} SumInclusionExclusion(hs: seq<Hypervisor>, ratio: Option<CpuRatio>, t: nat,
                                                a: seq<string>, b: seq<string>, union: seq<string>, both: seq<string>)
    requires t < MetricCount
    requires forall n :: n in union <==> n in a || n in b
    requires forall n :: n in both <==> n in a && n in b
    ensures Sum(hs, ratio, t, Members(a)) + Sum(hs, ratio, t, Members(b))
         == Sum(hs, ratio, t, Members(union)) + Sum(hs, ratio, t, Members(both))
    decreases |hs|
  {
    if hs != [] {
      SumInclusionExclusion(hs[..|hs| - 1], ratio, t, a, b, union, both);
    }
  }

  /** An aggregate that lists every host of the listing collects the fleet-wide total. */
  lemma {:induction false} SumOfCoveringAggregate(hs: seq<Hypervisor>, ratio: Option<CpuRatio>, t: nat, hosts: seq<string>)
    requires t < MetricCount
    requires forall i :: 0 <= i < |hs| ==> Host(hs[i]) in hosts
    ensures Sum(hs, ratio, t, Members(hosts)) == Sum(hs, ratio, t, Fleet)
    decreases |hs|
  {
    if hs != [] {
      SumOfCoveringAggregate(hs[..|hs| - 1], ratio, t, hosts);
    }
  }

  /** An aggregate none of whose hosts appears in the listing keeps its initial zero. */
  lemma {:induction false} SumOfUnmatchedAggregate(hs: seq<Hypervisor>, ratio: Option<CpuRatio>, t: nat, hosts: seq<string>)
    requires t < MetricCount
    requires forall i :: 0 <= i < |hs| ==> Host(hs[i]) !in hosts
    ensures Sum(hs, ratio, t, Members(hosts)) == 0
    decreases |hs|
  {
    if hs != [] {
      SumOfUnmatchedAggregate(hs[..|hs| - 1], ratio, t, hosts);
    }
  }

  /** Without a configured ratio, every accumulator's `free_vcpus` stays at its initial 0. */
  lemma {:induction false} FreeVcpusZeroWithoutRatio(hs: seq<Hypervisor>, scope: Scope)
    ensures Sum(hs, None, ValueCount, scope) == 0
    decreases |hs|
  {
    if hs != [] {
      FreeVcpusZeroWithoutRatio(hs[..|hs| - 1], scope);
    }
  }

  /**
   * Nothing is ever subtracted: when the records' raw counters are
   * non-negative, a counter's sum over a prefix of the listing is at most its
   * sum over the whole listing.
   */
  lemma {:induction false} SumMonotone(hs: seq<Hypervisor>, k: nat, ratio: Option<CpuRatio>, t: nat, scope: Scope)
    requires t < ValueCount && k <= |hs|
    requires forall i :: 0 <= i < |hs| ==> Get(hs[i], ValueMap[t].raw) >= 0
    ensures Sum(hs[..k], ratio, t, scope) <= Sum(hs, ratio, t, scope)
    decreases |hs|
  {
    if k < |hs| {
      var n := |hs| - 1;
      assert hs[..n][..k] == hs[..k];
      SumMonotone(hs[..n], k, ratio, t, scope);
    } else {
      assert hs[..k] == hs;
    }
  }
}
