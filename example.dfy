/**
 * A worked pass: two hosts in one aggregate with a ratio of 2.0.
 */
module WorkedExample {
  import opened Wrappers
  import opened Hostnames
  import opened Tables
  import opened Accumulation

  const H1: Hypervisor := Hypervisor("h1" + "." + "example.org",
    map["memory_mb_used" := 100, "free_ram_mb" := 50, "vcpus" := 10, "vcpus_used" := 4])
  const H2: Hypervisor := Hypervisor("h2" + "." + "example.org",
    map["memory_mb_used" := 200, "free_ram_mb" := 100, "vcpus" := 20, "vcpus_used" := 8])

  const Ratio2: Option<CpuRatio> := Some(CpuRatio(2, 1))
  const G1: Scope := Members(["h1", "h2"])

  lemma ExampleHosts()
    ensures InScope(H1, G1) && InScope(H2, G1)
  {
    ShortNameOfQualified("h1", "example.org");
    ShortNameOfQualified("h2", "example.org");
  }

  lemma ExampleValues()
    ensures HostValue(H1, Ratio2, ValueCount) == 16 && HostValue(H2, Ratio2, ValueCount) == 32
    ensures HostValue(H1, Ratio2, FreeRamIndex) == 50 && HostValue(H2, Ratio2, FreeRamIndex) == 100
    ensures HostValue(H1, Ratio2, UsedRamIndex) == 100 && HostValue(H2, Ratio2, UsedRamIndex) == 200
  {
    assert Get(H1, "vcpus") == 10 && Get(H1, "vcpus_used") == 4;
    assert Get(H2, "vcpus") == 20 && Get(H2, "vcpus_used") == 8;
    assert ValueMap[FreeRamIndex].raw == "free_ram_mb" && ValueMap[UsedRamIndex].raw == "memory_mb_used";
  }

  /** Over two records, a sum is the first's contribution plus the second's. */
  lemma SumOfTwo(ratio: Option<CpuRatio>, t: nat, scope: Scope)
    requires t < MetricCount
    ensures Sum([H1, H2], ratio, t, scope)
         == (if InScope(H1, scope) then HostValue(H1, ratio, t) else 0)
          + (if InScope(H2, scope) then HostValue(H2, ratio, t) else 0)
  {
    var hs := [H1, H2];
    assert hs[..1] == [H1] && hs[1] == H2;
    assert [H1][..0] == [];
    assert Sum(hs, ratio, t, scope) == Sum([H1], ratio, t, scope) + (if InScope(H2, scope) then HostValue(H2, ratio, t) else 0);
    SumSingle(H1, ratio, t, scope);
  }

  /**
   * With both hosts in aggregate G1 and a ratio of 2: G1's free_vcpus is
   * (20 - 4) + (40 - 8) = 48, its free RAM 150 of 450, and the total used RAM 300.
   */
  lemma TwoHostsOneAggregate()
    ensures Sum([H1, H2], Ratio2, ValueCount, G1) == 48
    ensures Sum([H1, H2], Ratio2, FreeRamIndex, G1) == 150
    ensures Sum([H1, H2], Ratio2, FreeRamIndex, G1) + Sum([H1, H2], Ratio2, UsedRamIndex, G1) == 450
    ensures Sum([H1, H2], Ratio2, UsedRamIndex, Fleet) == 300
  {
    ExampleHosts();
    ExampleValues();
    SumOfTwo(Ratio2, ValueCount, G1);
    SumOfTwo(Ratio2, FreeRamIndex, G1);
    SumOfTwo(Ratio2, UsedRamIndex, G1);
    SumOfTwo(Ratio2, UsedRamIndex, Fleet);
  }
}
