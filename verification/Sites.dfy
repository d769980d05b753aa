/** The dependency order, divided among the sites. */
module Sites {
  import opened Strings
  import opened Orders
  import opened Results
  import opened Composition
  import opened Scopes
  import opened Graph
  import opened Proposal
  import opened LinkSpec
  import opened Linking
  import opened Reordering

  /** Node `id` of `c` runs at `site`. */
  ghost predicate RunsAt(c: Composition, id: Str, site: Site) {
    exists n :: n in c.nodes && n.id == id && n.site == site
  }

  predicate NoRepeats(sites: seq<Site>) {
    forall i, j :: 0 <= i < j < |sites| ==> sites[i] != sites[j]
  }

  /** Every site of a node in `order` is seen once. */
  lemma {:induction false} SitesSeenAre(order: seq<Str>, nodes: NodeMap)
    ensures NoRepeats(SitesSeen(order, nodes))
    ensures forall site :: site in SitesSeen(order, nodes) <==>
      exists id :: id in order && id in nodes && nodes[id].site == site
  {
    if order != [] {
      SitesSeenAre(order[..|order| - 1], nodes);
      assert order == order[..|order| - 1] + [order[|order| - 1]];
    }
  }

  lemma {:induction false} AtSiteIff(order: seq<Str>, nodes: NodeMap, site: Site, id: Str)
    ensures id in AtSite(order, nodes, site) <==> id in order && id in nodes && nodes[id].site == site
  {
    if order != [] {
      AtSiteIff(order[..|order| - 1], nodes, site, id);
      assert order == order[..|order| - 1] + [order[|order| - 1]];
    }
  }

  /** `s` lists some of `order`, in its order. */
  ghost predicate KeepsOrder(s: seq<Str>, order: seq<Str>) {
    forall i, j :: 0 <= i < j < |s| ==> Before(s[i], s[j], order)
  }

  ghost predicate Before(x: Str, y: Str, order: seq<Str>) {
    exists p, q :: 0 <= p < q < |order| && order[p] == x && order[q] == y
  }

  lemma BeforeGrows(x: Str, y: Str, order: seq<Str>, last: Str)
    requires Before(x, y, order)
    ensures Before(x, y, order + [last])
  {
    var p, q :| 0 <= p < q < |order| && order[p] == x && order[q] == y;
    assert (order + [last])[p] == x && (order + [last])[q] == y;
  }

  lemma BeforeLast(x: Str, order: seq<Str>, last: Str)
    requires x in order
    ensures Before(x, last, order + [last])
  {
    var p :| 0 <= p < |order| && order[p] == x;
    assert (order + [last])[p] == x && (order + [last])[|order|] == last;
  }

  lemma {:induction false} AtSiteKeepsOrder(order: seq<Str>, nodes: NodeMap, site: Site)
    ensures KeepsOrder(AtSite(order, nodes, site), order)
  {
    if order != [] {
      var init, last := order[..|order| - 1], order[|order| - 1];
      AtSiteKeepsOrder(init, nodes, site);
      var s, t := AtSite(init, nodes, site), AtSite(order, nodes, site);
      assert order == init + [last];
      forall i, j | 0 <= i < j < |t| ensures Before(t[i], t[j], order) {
        if j < |s| {
          assert Before(s[i], s[j], init);
          BeforeGrows(s[i], s[j], init, last);
        } else {
          AtSiteIff(init, nodes, site, s[i]);
          BeforeLast(s[i], init, last);
        }
      }
    }
  }

  /** The sorted proposal has the nodes of the composition, up to the order of their ports. */
  lemma ProposedNodes(c: Composition, id: Str, site: Site)
    ensures RunsAt(Proposed(c), id, site) <==> RunsAt(c, id, site)
  {
    var all := SortAllPorts(c.nodes);
    forall n ensures n in Proposed(c).nodes <==> n in all {
      SortedHas(all, n);
    }
    if n :| n in Proposed(c).nodes && n.id == id && n.site == site {
      var i :| 0 <= i < |all| && all[i] == n;
      assert c.nodes[i] in c.nodes;
    }
    if n :| n in c.nodes && n.id == id && n.site == site {
      var i :| 0 <= i < |c.nodes| && c.nodes[i] == n;
      assert all[i] in all;
    }
  }

  lemma SortedHas(ns: seq<Node>, n: Node)
    ensures n in Sort(ns, CompareNodes) <==> n in ns
  {
    ById(CompareNodes, NodeId);
    SortSorts(ns, CompareNodes);
    assert n in Sort(ns, CompareNodes) <==> n in multiset(ns);
  }

  lemma SiteNodesOrdered()
    ensures Comparator(CompareSiteNodes)
  {
    SitesOrdered();
    forall a, b ensures Flips(CompareSiteNodes, a, b) {
      assert Flips(CompareSites, a.site, b.site);
    }
    forall a, b, c ensures Chains(CompareSiteNodes, a, b, c) {
      assert Chains(CompareSites, a.site, b.site, c.site);
    }
  }

  /** The projections in order of site: no two of one site. */
  lemma SortedProjections(order: seq<Str>, nodes: NodeMap, sites: seq<SiteNodes>)
    requires sites == Sort(Projections(order, nodes), CompareSiteNodes)
    ensures forall i, j :: 0 <= i < j < |sites| ==> CompareSites(sites[i].site, sites[j].site) < 0
    ensures forall e :: e in sites <==> e in Projections(order, nodes)
  {
    var all := Projections(order, nodes);
    SiteNodesOrdered();
    SortSorts(all, CompareSiteNodes);
    SitesSeenAre(order, nodes);
    forall e ensures e in sites <==> e in all {
      assert e in multiset(sites) <==> e in multiset(all);
    }
    forall i, j | 0 <= i < j < |sites| ensures CompareSites(sites[i].site, sites[j].site) < 0 {
      assert CompareSiteNodes(sites[i], sites[j]) <= 0;
      SitesFlip(sites[i].site, sites[j].site);
      if sites[i].site == sites[j].site {
        OncePerSite(order, nodes, sites, i, j);
        assert false;
      }
    }
  }

  lemma OncePerSite(order: seq<Str>, nodes: NodeMap, sites: seq<SiteNodes>, i: nat, j: nat)
    requires i < j < |sites| && multiset(sites) == multiset(Projections(order, nodes))
    ensures sites[i].site != sites[j].site
  {
    var all := Projections(order, nodes);
    SitesSeenAre(order, nodes);
    assert sites[i] in multiset(all) && sites[j] in multiset(all);
    var p :| 0 <= p < |all| && all[p] == sites[i];
    var q :| 0 <= q < |all| && all[q] == sites[j];
    if sites[i] == sites[j] {
      Twice(sites, i, j);
      Once(all, p);
      assert false;
    }
    assert all[p].site == SitesSeen(order, nodes)[p] && all[q].site == SitesSeen(order, nodes)[q];
  }

  /** What one projection holds: the nodes of its site, in dependency order. */
  ghost predicate SiteHolds(c: Composition, order: seq<Str>, e: SiteNodes) {
    && e.nodes != [] && KeepsOrder(e.nodes, order)
    && forall id :: id in e.nodes <==> RunsAt(c, id, e.site)
  }

  /** The sites of a structure are in order, one entry each, and divide the nodes of the composition among them. */
  lemma SitesCorrect(c: Composition, fingerprint: Str)
    requires Check(c, fingerprint).Ok?
    ensures
      var s := Check(c, fingerprint).value;
      && (forall i, j :: 0 <= i < j < |s.sites| ==> CompareSites(s.sites[i].site, s.sites[j].site) < 0)
      && (forall e :: e in s.sites ==> SiteHolds(c, s.dependencyOrder, e))
      && (forall n :: n in c.nodes ==> exists e :: e in s.sites && e.site == n.site)
  {
    var p, s := Proposed(c), Check(c, fingerprint).value;
    var nodes := IndexBy(p.nodes, NodeId);
    ProposedSame(c);
    OutcomeIff(p, fingerprint);
    OutcomeReports(p, fingerprint, s);
    IndexByIndexes(p.nodes, NodeId);
    SitesHold(c, p, s.dependencyOrder, nodes, s.sites);
  }

  lemma SitesHold(c: Composition, p: Composition, order: seq<Str>, nodes: NodeMap, sites: seq<SiteNodes>)
    requires p == Proposed(c) && Indexes(nodes, p.nodes, NodeId) && Members(order) == NodeIds(p)
    requires sites == Sort(Projections(order, nodes), CompareSiteNodes)
    ensures forall i, j :: 0 <= i < j < |sites| ==> CompareSites(sites[i].site, sites[j].site) < 0
    ensures forall e :: e in sites ==> SiteHolds(c, order, e)
    ensures forall n :: n in c.nodes ==> exists e :: e in sites && e.site == n.site
  {
    SortedProjections(order, nodes, sites);
    forall e | e in sites ensures SiteHolds(c, order, e) {
      EntryHolds(c, p, order, nodes, e);
    }
    forall n | n in c.nodes ensures exists e :: e in sites && e.site == n.site {
      NodeSeen(c, p, order, nodes, n);
      SitesSeenAre(order, nodes);
      var i :| 0 <= i < |SitesSeen(order, nodes)| && SitesSeen(order, nodes)[i] == n.site;
      assert Projections(order, nodes)[i] in sites;
    }
  }

  lemma NodeSeen(c: Composition, p: Composition, order: seq<Str>, nodes: NodeMap, n: Node)
    requires p == Proposed(c) && n in c.nodes && Indexes(nodes, p.nodes, NodeId)
    requires Members(order) == NodeIds(p)
    ensures n.site in SitesSeen(order, nodes)
  {
    ProposedNodes(c, n.id, n.site);
    var m :| m in p.nodes && m.id == n.id && m.site == n.site;
    SitesSeenAre(order, nodes);
    assert NodeId(m) in nodes && nodes[NodeId(m)] == m && m.id in Members(order);
  }

  lemma EntryHolds(c: Composition, p: Composition, order: seq<Str>, nodes: NodeMap, e: SiteNodes)
    requires p == Proposed(c) && Indexes(nodes, p.nodes, NodeId) && Members(order) == NodeIds(p)
    requires e in Projections(order, nodes)
    ensures SiteHolds(c, order, e)
  {
    var i :| 0 <= i < |Projections(order, nodes)| && Projections(order, nodes)[i] == e;
    assert e.site in SitesSeen(order, nodes) && e.nodes == AtSite(order, nodes, e.site);
    AtSiteKeepsOrder(order, nodes, e.site);
    forall id ensures id in e.nodes <==> RunsAt(c, id, e.site) {
      AtSiteIff(order, nodes, e.site, id);
      ProposedNodes(c, id, e.site);
      NodeAt(p, order, nodes, e.site, id);
    }
    SitesSeenAre(order, nodes);
    var id :| id in order && id in nodes && nodes[id].site == e.site;
    AtSiteIff(order, nodes, e.site, id);
  }

  lemma NodeAt(p: Composition, order: seq<Str>, nodes: NodeMap, site: Site, id: Str)
    requires Indexes(nodes, p.nodes, NodeId) && Members(order) == NodeIds(p)
    ensures id in order && id in nodes && nodes[id].site == site <==> RunsAt(p, id, site)
  {
    if n :| n in p.nodes && n.id == id && n.site == site {
      assert NodeId(n) in nodes && nodes[NodeId(n)] == n && n.id in Members(order);
    }
  }

  lemma {:induction false} RemoteIs(bs: seq<Binding>, nodes: NodeMap, b: Binding)
    ensures b in RemoteOf(bs, nodes) <==> b in bs && CrossesSites(b, nodes)
  {
    if bs != [] {
      RemoteIs(bs[..|bs| - 1], nodes, b);
      assert bs == bs[..|bs| - 1] + [bs[|bs| - 1]];
    }
  }

  /** The binding joins nodes of two different sites. */
  ghost predicate BetweenSites(c: Composition, b: Binding) {
    exists s, t :: RunsAt(c, b.consumer.node, s) && RunsAt(c, b.provider.node, t) && s != t
  }

  lemma SiteIs(p: Composition, nodes: NodeMap, id: Str, site: Site)
    requires Indexes(nodes, p.nodes, NodeId)
    ensures RunsAt(p, id, site) <==> id in nodes && nodes[id].site == site
  {
    if n :| n in p.nodes && n.id == id && n.site == site {
      assert NodeId(n) in nodes && nodes[NodeId(n)] == n;
    }
  }

  lemma CrossesIs(c: Composition, p: Composition, nodes: NodeMap, b: Binding)
    requires p == Proposed(c) && Indexes(nodes, p.nodes, NodeId)
    ensures CrossesSites(b, nodes) <==> BetweenSites(c, b)
  {
    forall id: Str, site: Site ensures RunsAt(c, id, site) <==> id in nodes && nodes[id].site == site {
      ProposedNodes(c, id, site);
      SiteIs(p, nodes, id, site);
    }
    if CrossesSites(b, nodes) {
      assert RunsAt(c, b.consumer.node, nodes[b.consumer.node].site);
      assert RunsAt(c, b.provider.node, nodes[b.provider.node].site);
    }
  }

  /** The remote bindings of a structure are the bindings between nodes of different sites. */
  lemma RemoteCorrect(c: Composition, fingerprint: Str, b: Binding)
    requires Check(c, fingerprint).Ok?
    ensures b in Check(c, fingerprint).value.remoteBindings <==> b in c.bindings && BetweenSites(c, b)
  {
    var p := Proposed(c);
    var nodes := IndexBy(p.nodes, NodeId);
    ProposedSame(c);
    OutcomeIff(p, fingerprint);
    OutcomeReports(p, fingerprint, Check(c, fingerprint).value);
    IndexByIndexes(p.nodes, NodeId);
    RemoteIs(p.bindings, nodes, b);
    CrossesIs(c, p, nodes, b);
    BindingsOrdered();
    SortSorts(c.bindings, CompareBindings);
    assert b in multiset(p.bindings) <==> b in multiset(c.bindings);
  }
}
