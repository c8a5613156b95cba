/**
  The graph snapshot that the visualizer builds whenever its recommendation
  lists change: one link per recommended flavor, flattened in list order, and
  the distinct link endpoints as nodes, in first-occurrence order, as a
  JavaScript `Set` collects them.
 */
module Graph {

  /** A node id: a flavor name, or JavaScript's `undefined`, which is what
      `flavors[index]` yields when there are more recommendation lists than
      flavors. */
  datatype Id = Name(name: string) | Undefined

  /** A link of the force layout; `value` is its weight. */
  datatype Link = Link(source: Id, target: Id, value: int)

  /** The node ids and the links that drive one simulation run. */
  datatype Snapshot = Snapshot(nodes: seq<Id>, links: seq<Link>)

  /** Every link is built with weight 1. */
  const LINK_VALUE: int := 1

  /** Many-body strength contributed by each node. */
  const CHARGE_PER_NODE: int := -30

  // ---------------------------------------------------------------------
  // Links
  // ---------------------------------------------------------------------

  /** The source of the links of recommendation list `i`. */
  function SourceAt(flavors: seq<string>, i: nat): Id {
    if i < |flavors| then Name(flavors[i]) else Undefined
  }

  /** The links of one recommendation list, one per recommended target. */
  function LinksFor(source: Id, targets: seq<string>): seq<Link> {
    seq(|targets|, j requires 0 <= j < |targets| => Link(source, Name(targets[j]), LINK_VALUE))
  }

  /** The per-list link groups, before flattening. */
  function GroupedLinks(flavors: seq<string>, recommendations: seq<seq<string>>): seq<seq<Link>> {
    seq(|recommendations|, i requires 0 <= i < |recommendations| =>
      LinksFor(SourceAt(flavors, i), recommendations[i]))
  }

  /** One level of flattening, as JavaScript's `Array.prototype.flat()`. */
  function Flatten<T>(groups: seq<seq<T>>): seq<T> {
    if groups == [] then [] else groups[0] + Flatten(groups[1..])
  }

  /** The sum of the lengths of the groups. */
  function TotalLength<T>(groups: seq<seq<T>>): nat {
    if groups == [] then 0 else |groups[0]| + TotalLength(groups[1..])
  }

  /** The links of the snapshot. */
  function BuildLinks(flavors: seq<string>, recommendations: seq<seq<string>>): seq<Link> {
    Flatten(GroupedLinks(flavors, recommendations))
  }

  // ---------------------------------------------------------------------
  // Nodes
  // ---------------------------------------------------------------------

  /** Every link's source followed by its target, in link order. */
  function Endpoints(links: seq<Link>): seq<Id> {
    if links == [] then [] else [links[0].source, links[0].target] + Endpoints(links[1..])
  }

  predicate NoDuplicates<T(==)>(s: seq<T>) {
    forall i, j :: 0 <= i < j < |s| ==> s[i] != s[j]
  }

  /** `r` lists its elements in the order in which they first occur in `s`:
      every occurrence in `s` of a later element of `r` is preceded by an
      occurrence of each earlier one. */
  predicate FirstOccurrenceOrder<T(==)>(s: seq<T>, r: seq<T>) {
    forall i, j, p :: 0 <= i < j < |r| && 0 <= p < |s| && s[p] == r[j] ==> r[i] in s[..p]
  }

  /** The elements of `s` in insertion order of a JavaScript `Set`
      built from `s`: each element is added when first met. */
  function Distinct(s: seq<Id>): (r: seq<Id>)
    ensures NoDuplicates(r)
    ensures forall x :: x in r <==> x in s
    ensures FirstOccurrenceOrder(s, r)
  {
    if s == [] then []
    else
      var init := s[..|s| - 1];
      var seen := Distinct(init);
      var x := s[|s| - 1];
      assert forall p :: 0 <= p < |init| ==> s[..p] == init[..p];
      assert s[..|s| - 1] == init;
      if x in seen then seen else seen + [x]
  }

  /** The snapshot built from the flavors and their recommendation lists. */
  function BuildSnapshot(flavors: seq<string>, recommendations: seq<seq<string>>): Snapshot {
    var links := BuildLinks(flavors, recommendations);
    Snapshot(Distinct(Endpoints(links)), links)
  }

  /** The strength of the many-body force for a snapshot. */
  function ChargeStrength(g: Snapshot): (r: int)
    ensures r <= 0
    ensures r == 0 <==> g.nodes == []
    ensures r % 30 == 0 && -r / 30 == |g.nodes|
  {
    CHARGE_PER_NODE * |g.nodes|
  }

  // ---------------------------------------------------------------------
  // Lemmas about flattening
  // ---------------------------------------------------------------------

  lemma {:induction false} FlattenLength<T>(groups: seq<seq<T>>)
    ensures |Flatten(groups)| == TotalLength(groups)
  {
    if groups != [] {
      FlattenLength(groups[1..]);
    }
  }

  lemma {:induction false} TotalLengthPrefix<T>(groups: seq<seq<T>>, i: nat)
    requires i < |groups|
    ensures TotalLength(groups[..i + 1]) == TotalLength(groups[..i]) + |groups[i]|
  {
    if i == 0 {
      assert groups[..1][1..] == [];
    } else {
      assert groups[..i + 1][1..] == groups[1..][..i];
      assert groups[..i][1..] == groups[1..][..i - 1];
      TotalLengthPrefix(groups[1..], i - 1);
    }
  }

  lemma {:induction false} TotalLengthPrefixBound<T>(groups: seq<seq<T>>, i: nat)
    requires i <= |groups|
    ensures TotalLength(groups[..i]) <= TotalLength(groups)
  {
    if i > 0 {
      assert groups[..i][1..] == groups[1..][..i - 1];
      TotalLengthPrefixBound(groups[1..], i - 1);
    }
  }

  /** Element `j` of group `i` sits at offset `TotalLength(groups[..i]) + j`
      of the flattened sequence. */
  lemma {:induction false} FlattenAt<T>(groups: seq<seq<T>>, i: nat, j: nat)
    requires i < |groups| && j < |groups[i]|
    ensures TotalLength(groups[..i]) + j < |Flatten(groups)|
    ensures Flatten(groups)[TotalLength(groups[..i]) + j] == groups[i][j]
  {
    FlattenLength(groups);
    FlattenLength(groups[1..]);
    if i > 0 {
      assert groups[..i][1..] == groups[1..][..i - 1];
      FlattenAt(groups[1..], i - 1, j);
    }
  }

  /** Every position of the flattened sequence comes from some group. */
  lemma {:induction false} FlattenOrigin<T>(groups: seq<seq<T>>, k: nat) returns (i: nat, j: nat)
    requires k < |Flatten(groups)|
    ensures i < |groups| && j < |groups[i]|
    ensures k == TotalLength(groups[..i]) + j
    ensures Flatten(groups)[k] == groups[i][j]
  {
    FlattenLength(groups[1..]);
    if k < |groups[0]| {
      i, j := 0, k;
    } else {
      var i', j' := FlattenOrigin(groups[1..], k - |groups[0]|);
      i, j := i' + 1, j';
      assert groups[..i][1..] == groups[1..][..i'];
    }
  }

  lemma {:induction false} GroupedTotalLength(flavors: seq<string>, recommendations: seq<seq<string>>, i: nat)
    requires i <= |recommendations|
    ensures TotalLength(GroupedLinks(flavors, recommendations)[..i]) == TotalLength(recommendations[..i])
  {
    if i > 0 {
      var g := GroupedLinks(flavors, recommendations);
      GroupedTotalLength(flavors, recommendations, i - 1);
      TotalLengthPrefix(g, i - 1);
      TotalLengthPrefix(recommendations, i - 1);
    }
  }

  // ---------------------------------------------------------------------
  // Lemmas about links
  // ---------------------------------------------------------------------

  /** There is one link per recommended target. */
  lemma LinkCount(flavors: seq<string>, recommendations: seq<seq<string>>)
    ensures |BuildLinks(flavors, recommendations)| == TotalLength(recommendations)
  {
    FlattenLength(GroupedLinks(flavors, recommendations));
    GroupedTotalLength(flavors, recommendations, |recommendations|);
    assert recommendations[..|recommendations|] == recommendations;
    assert GroupedLinks(flavors, recommendations)[..|recommendations|] == GroupedLinks(flavors, recommendations);
  }

  /** Target `j` of list `i` becomes the link at offset
      `TotalLength(recommendations[..i]) + j`, from flavor `i`, with weight 1. */
  lemma LinkAt(flavors: seq<string>, recommendations: seq<seq<string>>, i: nat, j: nat)
    requires i < |recommendations| && j < |recommendations[i]|
    ensures TotalLength(recommendations[..i]) + j < |BuildLinks(flavors, recommendations)|
    ensures BuildLinks(flavors, recommendations)[TotalLength(recommendations[..i]) + j]
         == Link(SourceAt(flavors, i), Name(recommendations[i][j]), LINK_VALUE)
  {
    FlattenAt(GroupedLinks(flavors, recommendations), i, j);
    GroupedTotalLength(flavors, recommendations, i);
  }

  /** Every link is the link of some target `j` of some list `i`. */
  lemma LinkOrigin(flavors: seq<string>, recommendations: seq<seq<string>>, k: nat) returns (i: nat, j: nat)
    requires k < |BuildLinks(flavors, recommendations)|
    ensures i < |recommendations| && j < |recommendations[i]|
    ensures k == TotalLength(recommendations[..i]) + j
    ensures BuildLinks(flavors, recommendations)[k]
         == Link(SourceAt(flavors, i), Name(recommendations[i][j]), LINK_VALUE)
  {
    i, j := FlattenOrigin(GroupedLinks(flavors, recommendations), k);
    GroupedTotalLength(flavors, recommendations, i);
  }

  /** Links come in list order, then in within-list order. */
  lemma LinkOrder(recommendations: seq<seq<string>>, i1: nat, j1: nat, i2: nat, j2: nat)
    requires i1 < |recommendations| && j1 < |recommendations[i1]|
    requires i2 < |recommendations| && j2 < |recommendations[i2]|
    requires i1 < i2 || (i1 == i2 && j1 < j2)
    ensures TotalLength(recommendations[..i1]) + j1 < TotalLength(recommendations[..i2]) + j2
  {
    if i1 < i2 {
      TotalLengthPrefix(recommendations, i1);
      TotalLengthPrefixBound(recommendations[..i2], i1 + 1);
      assert recommendations[..i2][..i1 + 1] == recommendations[..i1 + 1];
    }
  }

  // ---------------------------------------------------------------------
  // Lemmas about nodes
  // ---------------------------------------------------------------------

  lemma {:induction false} EndpointsLength(links: seq<Link>)
    ensures |Endpoints(links)| == 2 * |links|
  {
    if links != [] {
      EndpointsLength(links[1..]);
    }
  }

  lemma {:induction false} EndpointsAppend(a: seq<Link>, b: seq<Link>)
    ensures Endpoints(a + b) == Endpoints(a) + Endpoints(b)
  {
    if a != [] {
      assert (a + b)[1..] == a[1..] + b;
      EndpointsAppend(a[1..], b);
    } else {
      assert a + b == b;
    }
  }

  /** An id is an endpoint exactly when it is the source or target of a link. */
  lemma {:induction false} EndpointsMembership(links: seq<Link>, x: Id)
    ensures x in Endpoints(links) <==> exists k :: 0 <= k < |links| && (links[k].source == x || links[k].target == x)
  {
    if links != [] {
      EndpointsMembership(links[1..], x);
      if x in Endpoints(links[1..]) {
        var k :| 0 <= k < |links[1..]| && (links[1..][k].source == x || links[1..][k].target == x);
        assert links[k + 1] == links[1..][k];
      }
      forall k | 1 <= k < |links| && (links[k].source == x || links[k].target == x)
        ensures x in Endpoints(links[1..])
      {
        assert links[1..][k - 1] == links[k];
      }
    }
  }

  /** Link `k` contributes positions `2k` (source) and `2k+1` (target). */
  lemma EndpointsAt(links: seq<Link>, k: nat)
    requires k < |links|
    ensures |Endpoints(links)| == 2 * |links|
    ensures Endpoints(links)[..2 * k] == Endpoints(links[..k])
    ensures Endpoints(links)[2 * k] == links[k].source
    ensures Endpoints(links)[2 * k + 1] == links[k].target
  {
    EndpointsLength(links);
    EndpointsLength(links[..k]);
    assert links == links[..k] + links[k..];
    EndpointsAppend(links[..k], links[k..]);
  }

  /** Node ids are pairwise distinct. */
  lemma NodesDistinct(flavors: seq<string>, recommendations: seq<seq<string>>)
    ensures NoDuplicates(BuildSnapshot(flavors, recommendations).nodes)
  {
  }

  /** Every endpoint of every link is a node. */
  lemma NoDanglingLinks(flavors: seq<string>, recommendations: seq<seq<string>>)
    ensures var g := BuildSnapshot(flavors, recommendations);
      forall k :: 0 <= k < |g.links| ==> g.links[k].source in g.nodes && g.links[k].target in g.nodes
  {
    var g := BuildSnapshot(flavors, recommendations);
    forall k | 0 <= k < |g.links|
      ensures g.links[k].source in g.nodes && g.links[k].target in g.nodes
    {
      EndpointsAt(g.links, k);
    }
  }

  /** Every node is the source or the target of some link. */
  lemma NoOrphanNodes(flavors: seq<string>, recommendations: seq<seq<string>>)
    ensures var g := BuildSnapshot(flavors, recommendations);
      forall x :: x in g.nodes ==>
        exists k :: 0 <= k < |g.links| && (g.links[k].source == x || g.links[k].target == x)
  {
    var g := BuildSnapshot(flavors, recommendations);
    forall x | x in g.nodes
      ensures exists k :: 0 <= k < |g.links| && (g.links[k].source == x || g.links[k].target == x)
    {
      EndpointsMembership(g.links, x);
    }
  }

  /** Nodes come in first-occurrence order over the links, source before
      target: if a later node is an endpoint of link `k`, every earlier node
      is an endpoint of a link before `k`, or is the source of link `k`
      while the later node is its target. */
  lemma NodeOrder(flavors: seq<string>, recommendations: seq<seq<string>>, i: nat, j: nat, k: nat)
    requires var g := BuildSnapshot(flavors, recommendations);
      i < j < |g.nodes| && k < |g.links| &&
      (g.nodes[j] == g.links[k].source || g.nodes[j] == g.links[k].target)
    ensures var g := BuildSnapshot(flavors, recommendations);
      g.nodes[i] in Endpoints(g.links[..k]) ||
      (g.nodes[i] == g.links[k].source && g.nodes[j] == g.links[k].target)
  {
    var g := BuildSnapshot(flavors, recommendations);
    var e := Endpoints(g.links);
    EndpointsAt(g.links, k);
    if g.nodes[j] == g.links[k].source {
      assert e[2 * k] == g.nodes[j];
    } else {
      assert e[2 * k + 1] == g.nodes[j];
      assert g.nodes[i] in e[..2 * k + 1];
      assert e[..2 * k + 1] == e[..2 * k] + [e[2 * k]];
    }
  }

  /** No recommended target gives no links and no nodes, and conversely. */
  lemma EmptyGraph(flavors: seq<string>, recommendations: seq<seq<string>>)
    ensures var g := BuildSnapshot(flavors, recommendations);
      (g.links == [] <==> TotalLength(recommendations) == 0) &&
      (g.nodes == [] <==> g.links == []) &&
      (g.nodes == [] <==> ChargeStrength(g) == 0)
  {
    var g := BuildSnapshot(flavors, recommendations);
    LinkCount(flavors, recommendations);
    EndpointsLength(g.links);
    if g.links != [] {
      EndpointsAt(g.links, 0);
      assert g.links[0].source in g.nodes;
    }
  }

  /** There are at most two nodes per link. */
  lemma NodeCountBound(flavors: seq<string>, recommendations: seq<seq<string>>)
    ensures var g := BuildSnapshot(flavors, recommendations);
      |g.nodes| <= 2 * |g.links|
  {
    var g := BuildSnapshot(flavors, recommendations);
    EndpointsLength(g.links);
    DistinctLength(Endpoints(g.links));
  }

  lemma {:induction false} DistinctLength(s: seq<Id>)
    ensures |Distinct(s)| <= |s|
  {
    if s != [] {
      DistinctLength(s[..|s| - 1]);
    }
  }

  /** A larger graph is pushed apart by a strictly stronger repulsion. */
  lemma ChargeGrowsWithSize(g: Snapshot, h: Snapshot)
    requires |g.nodes| < |h.nodes|
    ensures ChargeStrength(h) < ChargeStrength(g)
  {
  }

  /** One flavor with two recommendations: three nodes and two links. */
  lemma VanillaScenario()
    ensures BuildSnapshot(["vanilla"], [["chocolate", "caramel"]])
         == Snapshot([Name("vanilla"), Name("chocolate"), Name("caramel")],
                     [Link(Name("vanilla"), Name("chocolate"), 1), Link(Name("vanilla"), Name("caramel"), 1)])
  {
    VanillaLinks();
    VanillaEndpoints();
    VanillaNodes();
  }

  lemma VanillaLinks()
    ensures BuildLinks(["vanilla"], [["chocolate", "caramel"]])
         == [Link(Name("vanilla"), Name("chocolate"), 1), Link(Name("vanilla"), Name("caramel"), 1)]
  {
    var pair := [Link(Name("vanilla"), Name("chocolate"), 1), Link(Name("vanilla"), Name("caramel"), 1)];
    var g := GroupedLinks(["vanilla"], [["chocolate", "caramel"]]);
    assert LinksFor(Name("vanilla"), ["chocolate", "caramel"]) == pair;
    assert SourceAt(["vanilla"], 0) == Name("vanilla");
    assert g == [pair];
    assert Flatten(g[1..]) == [];
  }

  lemma VanillaEndpoints()
    ensures Endpoints([Link(Name("vanilla"), Name("chocolate"), 1), Link(Name("vanilla"), Name("caramel"), 1)])
         == [Name("vanilla"), Name("chocolate"), Name("vanilla"), Name("caramel")]
  {
    var links := [Link(Name("vanilla"), Name("chocolate"), 1), Link(Name("vanilla"), Name("caramel"), 1)];
    assert links[1..][1..] == [];
    assert Endpoints(links[1..]) == [Name("vanilla"), Name("caramel")];
  }

  lemma VanillaNodes()
    ensures Distinct([Name("vanilla"), Name("chocolate"), Name("vanilla"), Name("caramel")])
         == [Name("vanilla"), Name("chocolate"), Name("caramel")]
  {
    var v, c, k := Name("vanilla"), Name("chocolate"), Name("caramel");
    assert Distinct([v]) == [v] by {
      assert [v][..0] == [];
    }
    assert Distinct([v, c]) == [v, c] by {
      assert [v, c][..1] == [v];
    }
    assert Distinct([v, c, v]) == [v, c] by {
      assert [v, c, v][..2] == [v, c];
    }
    assert [v, c, v, k][..3] == [v, c, v];
  }
}
