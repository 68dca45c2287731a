/**
 * The aggregates table built from the aggregates listing: a dict keyed by
 * aggregate name holding the aggregate's id and its shortened host list.
 */
module Aggregates {
  import opened Hostnames

  /** One element of the aggregates listing. */
  datatype Aggregate = Aggregate(name: string, id: int, hosts: seq<string>)

  /** What the table stores for an aggregate name (its accumulator is kept beside it). */
  datatype Entry = Entry(id: int, hosts: seq<string>)

  /** The stored form of one listing element: its id and its host list with every name shortened. */
  function EntryOf(agg: Aggregate): (e: Entry)
    ensures e.id == agg.id && |e.hosts| == |agg.hosts|
    ensures forall h :: h in e.hosts ==> '.' !in h
    ensures forall i :: 0 <= i < |agg.hosts| ==> e.hosts[i] == ShortName(agg.hosts[i])
  {
    Entry(agg.id, ShortNames(agg.hosts))
  }

  /**
   * The table after inserting the listing in order: each element is stored
   * under its name, replacing whatever an earlier element of the same name stored.
   */
  function Table(aggs: seq<Aggregate>): (m: map<string, Entry>)
    ensures forall n :: n in m <==> exists i :: 0 <= i < |aggs| && aggs[i].name == n
    decreases |aggs|
  {
    if aggs == [] then map[]
    else
      var last := aggs[|aggs| - 1];
      var m := Table(aggs[..|aggs| - 1])[last.name := EntryOf(last)];
      assert forall i :: 0 <= i < |aggs| - 1 ==> aggs[..|aggs| - 1][i] == aggs[i];
      m
  }

  /** The table's keys in the order they were first inserted; every key once. */
  function Names(aggs: seq<Aggregate>): (r: seq<string>)
    ensures forall n :: n in r <==> n in Table(aggs)
    ensures forall i, j :: 0 <= i < j < |r| ==> r[i] != r[j]
    decreases |aggs|
  {
    if aggs == [] then []
    else
      var last := aggs[|aggs| - 1];
      var prefix := Names(aggs[..|aggs| - 1]);
      if last.name in prefix then prefix else prefix + [last.name]
  }

  /**
   * A later aggregate with the same name overwrites an earlier one: the table
   * holds, for each name, the id and hosts of the last element of that name.
   */
  lemma {:induction false} TableLastWins(aggs: seq<Aggregate>, i: nat)
    requires i < |aggs|
    requires forall j :: i < j < |aggs| ==> aggs[j].name != aggs[i].name
    ensures aggs[i].name in Table(aggs)
    ensures Table(aggs)[aggs[i].name] == EntryOf(aggs[i])
    decreases |aggs|
  {
    if i < |aggs| - 1 {
      TableLastWins(aggs[..|aggs| - 1], i);
    }
  }

  /** The table has one entry per distinct name, so never more entries than the listing has elements. */
  lemma {:induction false} NamesCount(aggs: seq<Aggregate>)
    ensures |Names(aggs)| <= |aggs|
    decreases |aggs|
  {
    if aggs != [] {
      NamesCount(aggs[..|aggs| - 1]);
    }
  }

  /** Inserting one more element of the listing: stored under its name; its name appended if new. */
  lemma TableExtend(aggs: seq<Aggregate>, a: Aggregate)
    ensures Table(aggs + [a]) == Table(aggs)[a.name := EntryOf(a)]
    ensures Names(aggs + [a]) == if a.name in Names(aggs) then Names(aggs) else Names(aggs) + [a.name]
  {
    assert (aggs + [a])[..|aggs|] == aggs;
  }
}
