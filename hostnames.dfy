/**
 * Hostname normalisation used for both the aggregate host lists and the
 * hypervisor hostnames: `name.split('.')[0]`, the part before the first dot.
 */
module Hostnames {

  /** The short name of a host: everything before the first '.', or the whole name when it has no dot. */
  function ShortName(name: string): (r: string)
    ensures '.' !in r
    ensures r <= name
    ensures '.' !in name ==> r == name
    ensures '.' in name ==> |r| < |name| && name[|r|] == '.'
  {
    if name == [] || name[0] == '.' then []
    else [name[0]] + ShortName(name[1..])
  }

  /** The host list of an aggregate, each name shortened: `[h.split('.')[0] for h in hosts]`. */
  function ShortNames(hosts: seq<string>): (r: seq<string>)
    ensures |r| == |hosts|
    ensures forall i :: 0 <= i < |hosts| ==> r[i] == ShortName(hosts[i])
  {
    if hosts == [] then [] else [ShortName(hosts[0])] + ShortNames(hosts[1..])
  }

  /** The short name is the only dot-free prefix that is followed by a dot or ends the name. */
  lemma {:induction false} ShortNameUnique(name: string, p: string)
    requires p <= name && '.' !in p
    requires |p| == |name| || name[|p|] == '.'
    ensures p == ShortName(name)
  {
    if p != [] {
      assert name[0] == p[0];
      assert name[1..] != [] ==> name[1..][..|p| - 1] == p[1..];
      ShortNameUnique(name[1..], p[1..]);
    }
  }

  /** A fully-qualified name and its domain suffix: `host.domain` shortens to `host`. */
  lemma {:induction false} ShortNameOfQualified(host: string, domain: string)
    requires '.' !in host
    ensures ShortName(host + "." + domain) == host
  {
    var name := host + "." + domain;
    assert name[..|host|] == host;
    ShortNameUnique(name, host);
  }
}
