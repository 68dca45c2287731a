/**
 * The plugin's fixed tables (`VALUE_MAP`, `UNIT_MAP`), the accumulator key set
 * built by `initialize_metrics`, and the oversubscription arithmetic.
 */
module Tables {
  import opened Wrappers

  /** One `VALUE_MAP` entry: a raw field of the hypervisor-detail record and the metric it is published as. */
  datatype Mapping = Mapping(raw: string, target: string)

  /** `VALUE_MAP`, in a fixed order (the source's dict order is unspecified). */
  const ValueMap: seq<Mapping> := [
    Mapping("current_workload", "running_tasks"),
    Mapping("running_vms", "running_instances"),
    Mapping("local_gb_used", "used_disk"),
    Mapping("free_disk_gb", "free_disk"),
    Mapping("memory_mb_used", "used_ram"),
    Mapping("free_ram_mb", "free_ram"),
    Mapping("vcpus_used", "used_vcpus")
  ]

  /** `UNIT_MAP`: the raw fields whose metrics carry a unit. */
  const UnitMap: map<string, string> := map[
    "local_gb_used" := "GB",
    "free_disk_gb" := "GB",
    "memory_mb_used" := "MB",
    "free_ram_mb" := "MB"
  ]

  const FreeVcpus: string := "free_vcpus"
  const FreeRamPercent: string := "free_ram_percent"

  /** Number of `VALUE_MAP` entries, and number of accumulator keys (`VALUE_MAP` targets plus `free_vcpus`). */
  const ValueCount: nat := 7
  const MetricCount: nat := 8

  /**
   * The accumulator keys, indexed: index t < 7 is the target of `ValueMap[t]`,
   * index 7 is `free_vcpus`.
   */
  const MetricNames: seq<string> := [
    "running_tasks", "running_instances", "used_disk", "free_disk",
    "used_ram", "free_ram", "used_vcpus", "free_vcpus"
  ]

  /** Indices of the two RAM keys the `free_ram_percent` figure is computed from. */
  const UsedRamIndex: nat := 4
  const FreeRamIndex: nat := 5

  /** The accumulator key with index t. */
  function MetricName(t: nat): (r: string)
    requires t < MetricCount
    ensures t < ValueCount ==> r == ValueMap[t].target
    ensures t == ValueCount ==> r == FreeVcpus
  {
    MetricNames[t]
  }

  /**
   * The unit tag of the per-host record for `ValueMap[t]`: `UNIT_MAP.get(raw)`.
   * Only the disk metrics (indices 2 and 3) are in GB and only the RAM metrics
   * (indices 4 and 5) in MB; running-task, instance and vCPU counts carry no unit.
   */
  function UnitOf(t: nat): (r: Option<string>)
    requires t < ValueCount
    ensures r == (if t == 2 || t == 3 then Some("GB") else if t == 4 || t == 5 then Some("MB") else None)
  {
    var raw := ValueMap[t].raw;
    if raw in UnitMap then Some(UnitMap[raw]) else None
  }

  /** The accumulator keys are pairwise distinct, so each index owns one key. */
  lemma MetricNamesDistinct(t: nat, u: nat)
    requires t < MetricCount && u < MetricCount && t != u
    ensures MetricName(t) != MetricName(u)
  {
    var n, m := MetricNames[t], MetricNames[u];
    assert |n| != |m| || n[0] != m[0];
  }

  /**
   * `initialize_metrics`: one zero per `VALUE_MAP` target, then `free_vcpus`
   * set to zero, whether or not a ratio is configured.
   */
  function InitializeMetrics(): (m: map<string, int>)
    ensures forall k :: k in m <==> k in MetricNames
    ensures forall k :: k in m ==> m[k] == 0
  {
    var targets := map t | 0 <= t < ValueCount :: ValueMap[t].target := 0;
    var m := targets[FreeVcpus := 0];
    assert forall t :: 0 <= t < MetricCount ==> MetricName(t) in m && MetricNames[t] in MetricNames;
    assert forall k :: k in MetricNames ==> exists t :: 0 <= t < MetricCount && MetricNames[t] == k;
    m
  }

  /** A positive denominator. */
  type Positive = n: int | n > 0 witness 1

  /** The configured `CpuAllocationRatio`, a float, taken as the exact fraction num/den. */
  datatype CpuRatio = CpuRatio(num: int, den: Positive)

  /** Python's `int()` on a quotient: division truncating toward zero (Dafny's `/` is Euclidean). */
  function TruncDiv(a: int, b: Positive): (r: int)
    ensures a >= 0 ==> 0 <= r * b <= a < r * b + b
    ensures a < 0 ==> r * b - b < a <= r * b <= 0
  {
    if a >= 0 then
      FloorDivBounds(a, b);
      a / b
    else
      FloorDivBounds(-a, b);
      -((-a) / b)
  }

  lemma FloorDivBounds(a: nat, b: Positive)
    ensures 0 <= (a / b) * b <= a < (a / b) * b + b
  {
    var q, r := a / b, a % b;
    assert a == q * b + r && 0 <= r < b;
  }

  /** `int(cpu_ratio * vcpus) - vcpus_used`: the host's unallocated virtual CPUs. */
  function FreeVcpusOf(ratio: CpuRatio, vcpus: int, vcpusUsed: int): (r: int)
    ensures ratio.den == 1 ==> r == ratio.num * vcpus - vcpusUsed
    ensures ratio.num * vcpus >= 0 ==>
              0 <= (r + vcpusUsed) * ratio.den <= ratio.num * vcpus < (r + vcpusUsed + 1) * ratio.den
    ensures ratio.num * vcpus < 0 ==>
              (r + vcpusUsed - 1) * ratio.den < ratio.num * vcpus <= (r + vcpusUsed) * ratio.den <= 0
  {
    TruncDiv(ratio.num * vcpus, ratio.den) - vcpusUsed
  }
}
