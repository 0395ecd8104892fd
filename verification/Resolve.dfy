/** From px's realm host name to the node's mapping, and when the answer is a function of the name. */
module Resolve {
  import opened GoStrings
  import opened Options
  import opened Config

  type NodeMap = map<string, HostMapping>

  /** NewRewriter files each mapping under its own node; a repeated node keeps the last mapping. */
  predicate ByNode(m: NodeMap) { forall n :: n in m ==> m[n].node == n }

  function LastOfNode(hosts: seq<HostMapping>, n: string): Option<HostMapping> {
    if hosts == [] then None
    else if hosts[|hosts| - 1].node == n then Some(hosts[|hosts| - 1])
    else LastOfNode(hosts[..|hosts| - 1], n)
  }

  method IndexHosts(hosts: seq<HostMapping>) returns (m: NodeMap)
    ensures ByNode(m)
    ensures forall n :: LastOfNode(hosts, n) == if n in m then Some(m[n]) else None
  {
    m := map[];
    for k := 0 to |hosts|
      invariant ByNode(m)
      invariant forall n :: LastOfNode(hosts[..k], n) == if n in m then Some(m[n]) else None
    {
      assert hosts[..k + 1][..k] == hosts[..k];
      m := m[hosts[k].node := hosts[k]];
    }
    assert hosts[..|hosts|] == hosts;
  }

  predicate IsRealmHost(name: string) { Contains(name, "::") }

  function RealmOf(name: string): string {
    var i := Index(name, "::");
    if i >= 0 then name[..i] else ""
  }

  function AfterRealm(name: string): string
    requires IsRealmHost(name)
  {
    name[Index(name, "::") + 2..]
  }

  predicate Matches(h: HostMapping, after: string) {
    after == h.node || h.node + "-" <= after || after == h.arrayHost
  }

  /** `r` is an answer `resolve` may give: Go ranges over the map in any order and takes the first match. */
  predicate IsResolution(m: NodeMap, name: string, r: Option<HostMapping>) {
    match r
    case None => IsRealmHost(name) ==> forall n :: n in m ==> !Matches(m[n], AfterRealm(name))
    case Some(h) => IsRealmHost(name) && h.node in m && m[h.node] == h && Matches(h, AfterRealm(name))
  }

  method ResolveName(m: NodeMap, realmHost: string) returns (r: Option<HostMapping>)
    requires ByNode(m)
    ensures IsResolution(m, realmHost, r)
  {
    var i := Index(realmHost, "::");
    if i < 0 { return None; }
    var after := realmHost[i + 2..];
    var rest := m.Keys;
    while rest != {}
      invariant rest <= m.Keys
      invariant forall n :: n in m && n !in rest ==> !Matches(m[n], after)
      decreases rest
    {
      var node :| node in rest; // any order
      rest := rest - {node};
      var h := m[node];
      if after == node || node + "-" <= after || after == h.arrayHost {
        return Some(h);
      }
    }
    return None;
  }

  /** No two nodes can be confused: neither by prefix nor through an array host name. */
  predicate Unambiguous(m: NodeMap) {
    forall a, b :: a in m && b in m && a != b ==>
      !(a + "-" <= b + "-") && !Matches(m[b], m[a].arrayHost)
  }

  /** Every name has one resolution only. */
  ghost predicate Deterministic(m: NodeMap) {
    forall name, r, r' :: IsResolution(m, name, r) && IsResolution(m, name, r') ==> r == r'
  }

  lemma AfterBareRealm(x: string)
    ensures IsRealmHost("::" + x) && AfterRealm("::" + x) == x
  {
    assert "::" <= "::" + x;
    assert ("::" + x)[2..] == x;
  }

  lemma UniqueMatch(m: NodeMap, a: string, b: string, after: string)
    requires Unambiguous(m) && ByNode(m) && a in m && b in m && Matches(m[a], after) && Matches(m[b], after)
    ensures a == b
  {
    if after != m[a].arrayHost && after != m[b].arrayHost {
      assert a + "-" <= after + "-" && b + "-" <= after + "-" by {
        if after != a { assert (after + "-")[..|a| + 1] == after[..|a| + 1]; }
        if after != b { assert (after + "-")[..|b| + 1] == after[..|b| + 1]; }
      }
      if |a| <= |b| { assert a + "-" <= b + "-" by { assert (b + "-")[..|a| + 1] == (after + "-")[..|a| + 1]; } }
      if |b| <= |a| { assert b + "-" <= a + "-" by { assert (a + "-")[..|b| + 1] == (after + "-")[..|b| + 1]; } }
    }
  }

  /** A pair of nodes that can be confused leaves some name with two resolutions. */
  lemma Confusable(m: NodeMap, a: string, b: string)
    requires ByNode(m) && a in m && b in m && a != b
    requires a + "-" <= b + "-" || Matches(m[b], m[a].arrayHost)
    ensures !Deterministic(m)
  {
    var x := if a + "-" <= b + "-" then b else m[a].arrayHost;
    if a + "-" <= b + "-" {
      assert (a + "-")[..|a|] == a && (b + "-")[..|b|] == b;
      assert b[..|a| + 1] == (b + "-")[..|a| + 1] == a + "-";
    }
    AfterBareRealm(x);
    assert IsResolution(m, "::" + x, Some(m[a]));
    assert IsResolution(m, "::" + x, Some(m[b]));
  }

  /** Map iteration order never shows exactly when no two nodes can be confused. */
  lemma DeterministicExactly(m: NodeMap)
    requires ByNode(m)
    ensures Deterministic(m) <==> Unambiguous(m)
  {
    if Unambiguous(m) {
      forall name, r, r' | IsResolution(m, name, r) && IsResolution(m, name, r')
        ensures r == r'
      {
        if r.Some? && r'.Some? {
          UniqueMatch(m, r.value.node, r'.value.node, AfterRealm(name));
        }
      }
    } else {
      var a, b :| a in m && b in m && a != b && (a + "-" <= b + "-" || Matches(m[b], m[a].arrayHost));
      Confusable(m, a, b);
    }
  }

  lemma {:induction false} FirstSeparator(realm: string, x: string)
    requires Free(realm, ':')
    ensures Index(realm + "::" + x, "::") == |realm|
  {
    if realm == "" {
      assert realm + "::" + x == "::" + x;
    } else {
      assert (realm + "::" + x)[0] == realm[0];
      assert (realm + "::" + x)[1..] == realm[1..] + "::" + x;
      FirstSeparator(realm[1..], x);
    }
  }

  /** px's own names reach their node: "<realm>::<node>-<suffix>", "<realm>::<node>" and "<realm>::<arrayHost>". */
  lemma OwnNamesResolve(m: NodeMap, realm: string, node: string, after: string, r: Option<HostMapping>)
    requires ByNode(m) && Unambiguous(m) && node in m && Free(realm, ':')
    requires after == node || node + "-" <= after || after == m[node].arrayHost
    requires IsResolution(m, realm + "::" + after, r)
    ensures r == Some(m[node]) && RealmOf(realm + "::" + after) == realm
  {
    var name := realm + "::" + after;
    FirstSeparator(realm, after);
    assert name[..|realm|] == realm && name[|realm| + 2..] == after;
    assert IsResolution(m, name, Some(m[node]));
    DeterministicExactly(m);
  }
}
