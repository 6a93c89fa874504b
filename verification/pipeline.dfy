/**
 `scan_repo` end to end. The registry (the compose and Kubernetes phases) is
 a function of the repository; the later phases are functions of the
 registry and a `Plan`: the sorted env hints and the `selects`/`routes`
 pairs. Python picks those pairs by iterating sets, so `ScanRepo` makes the
 choices through `LinkByName` and states what every such choice yields.
 */
module Pipeline {
  import opened Options
  import opened Text
  import opened Dicts
  import opened SortedSets
  import opened Ids
  import opened Topology
  import opened Assembly
  import C = Compose
  import K = Kube
  import S = Sniff

  // ---------------------------------------------------------------- inputs of the later phases

  /** Label `l` is reported by one of the first twenty env candidates. */
  ghost predicate Hinted(files: seq<Option<string>>, l: string) {
    exists i :: 0 <= i < S.MaxEnvFiles && S.HintedBy(files, i, l)
  }

  /** `sorted(_sniff_env(root))` */
  ghost predicate HintsOf(files: seq<Option<string>>, hints: seq<string>) {
    IsSorted(hints) && forall l :: l in hints <==> Hinted(files, l)
  }

  /** `l` is the alphabetically first reported label. */
  ghost predicate FirstHint(files: seq<Option<string>>, l: string) {
    Hinted(files, l) && forall m :: Hinted(files, m) && m != l ==> LexLess(l, m)
  }

  /** `svc_names` */
  function SvcNames(repo: Repo): set<string> {
    NamesOf(Units(repo.k8sFiles), {K.Service})
  }

  /** `dep_like_names` */
  function WorkloadNames(repo: Repo): set<string> {
    NamesOf(Units(repo.k8sFiles), {K.Deployment, K.StatefulSet, K.DaemonSet})
  }

  /** `ingress_names` */
  function IngressNames(repo: Repo): set<string> {
    NamesOf(Units(repo.k8sFiles), {K.Ingress})
  }

  /** The env hints in sorted order, and the `selects` and `routes` pairs, in the order they were linked. */
  datatype Plan = Plan(hints: seq<string>, sel: seq<(string, string)>, rts: seq<(string, string)>)

  // ---------------------------------------------------------------- phases

  /** The compose and Kubernetes phases from an empty graph, with `internet_needed`. */
  function Registry(repo: Repo): (r: (Graph, bool))
    ensures Sound(r.0)
    ensures r.1 <==> HasPublic(r.0)
    ensures forall e :: e in r.0.edges ==> e.caption == "depends_on"
  {
    var e := EmptyGraph();
    assert !HasPublic(e);
    var c := ComposeFiles(e, repo.composeFiles, false);
    AddUnits(c.0, Units(repo.k8sFiles), c.1)
  }

  /** The registry with the `selects` and then the `routes` edges appended. */
  function Linked(reg: Graph, p: Plan): (r: Graph)
    ensures r.nodes == reg.nodes
  {
    reg.(edges := reg.edges + PairEdges(p.sel, "selects") + PairEdges(p.rts, "routes"))
  }

  /** Then the external database nodes and the `uses` edges. */
  function Served(reg: Graph, p: Plan): (r: Graph)
    requires WellFormed(reg)
    ensures WellFormed(r)
  {
    AddUses(AddDbNodes(Linked(reg, p), p.hints), p.hints)
  }

  /** Then the Internet node and its fan-out: the graph `scan_repo` returns, but for its summary. */
  function Exposed(reg: Graph, flag: bool, p: Plan): (r: Graph)
    requires WellFormed(reg)
    ensures WellFormed(r)
  {
    AddInternet(Served(reg, p), flag)
  }

  // ---------------------------------------------------------------- what the finished graph satisfies

  /** Every compose service is a node, tagged public when it publishes a host port. */
  ghost predicate ComposeNodes(repo: Repo, g: Graph) {
    forall f, k :: f in repo.composeFiles && k in C.ParseServices(f).entries ==>
      && SanitizeId("compose", k) in g.nodes.entries
      && (C.ParseServices(f).entries[k].ports != [] ==> PublicAt(g, SanitizeId("compose", k)))
  }

  /** Every dependency of every compose service has its node, and the service's `depends_on` edge points at it. */
  ghost predicate ComposeDeps(repo: Repo, g: Graph) {
    forall f, k, d :: f in repo.composeFiles && k in C.ParseServices(f).entries && d in C.ParseServices(f).entries[k].depends ==>
      DepLinked(g, k, d)
  }

  /** `k` is the node id of a Kubernetes unit. */
  ghost predicate UnitId(repo: Repo, k: string) {
    exists u :: u in Units(repo.k8sFiles) && k == SanitizeId("k8s", u.name)
  }

  /** `k` is the node id of a reported label. */
  ghost predicate DbNodeId(files: seq<Option<string>>, k: string) {
    exists l :: Hinted(files, l) && k == DbId(l)
  }

  /** Node `k` of group `grp` has an origin in the repository that belongs to that group. */
  ghost predicate Sourced(repo: Repo, k: string, grp: Group) {
    || (grp == Group.Compose && ComposeOrigin(repo.composeFiles, k))
    || (grp == K8s && UnitId(repo, k))
    || (grp == External && (DbNodeId(repo.envFiles, k) || k == Internet))
  }

  /** No node is invented: each is a compose service or dependency, a Kubernetes unit, a reported database or the Internet, in the group of its origin. */
  ghost predicate NodesSourced(repo: Repo, g: Graph) {
    forall k :: k in g.nodes.entries ==> Sourced(repo, k, g.nodes.entries[k].group)
  }

  /** Every edge carries one of the five captions, and every `depends_on` edge is a declared dependency. */
  ghost predicate EdgesSourced(repo: Repo, edges: seq<Edge>) {
    forall e :: e in edges ==>
      && e.caption in {"depends_on", "selects", "routes", "uses", ""}
      && (e.caption == "depends_on" ==> DepOrigin(repo.composeFiles, e))
  }

  /** Every Kubernetes unit is a node carrying the tags of its kind. */
  ghost predicate UnitNodes(repo: Repo, g: Graph) {
    forall u :: u in Units(repo.k8sFiles) ==>
      SanitizeId("k8s", u.name) in g.nodes.entries && UnitTags(u) <= g.nodes.entries[SanitizeId("k8s", u.name)].tags
  }

  /** The Internet node exists exactly when another node is public, and points at each of them. */
  ghost predicate Exposure(g: Graph) {
    && (Internet in g.nodes.entries <==> exists k :: k != Internet && PublicAt(g, k))
    && (Internet in g.nodes.entries ==> PublicAt(g, Internet) && g.nodes.entries[Internet].group == External)
    && (forall k :: Edge(Internet, k, "") in g.edges <==> k != Internet && PublicAt(g, k))
    && (forall e :: e in g.edges && e.caption == "" ==> e.src == Internet)
  }

  /** Every reported label has a database node. */
  ghost predicate DbNodes(files: seq<Option<string>>, g: Graph) {
    forall l :: Hinted(files, l) ==> HasTag(g, DbId(l), Db)
  }

  /** The `uses` edges run from exactly the source nodes to the node of the first reported label. */
  ghost predicate UsesLinks(files: seq<Option<string>>, g: Graph) {
    && (forall e :: e in g.edges && e.caption == "uses" ==>
          && e.src in g.nodes.entries && UsesSource(g.nodes.entries[e.src])
          && exists l :: FirstHint(files, l) && e.dst == DbId(l))
    && (forall l, k :: FirstHint(files, l) && k in g.nodes.entries && UsesSource(g.nodes.entries[k]) ==>
          Edge(k, DbId(l), "uses") in g.edges)
  }

  /**
   The name-convention edges with `caption`: each joins a name of `from` to
   one of its variants in `to`; every name of `from` with a candidate has
   one, and no name has two.
   */
  ghost predicate NameLinks(edges: seq<Edge>, from: set<string>, to: set<string>, caption: string) {
    && (forall e :: e in edges && e.caption == caption ==>
          exists s, d :: s in from && d in to && d in Variants(s) && e == Edge(SanitizeId("k8s", s), SanitizeId("k8s", d), caption))
    && (forall s, d :: s in from && d in to && d in Variants(s) ==>
          exists d' :: d' in to && d' in Variants(s) && Edge(SanitizeId("k8s", s), SanitizeId("k8s", d'), caption) in edges)
    && (forall i, j :: 0 <= i < j < |edges| && edges[i].caption == caption && edges[j].caption == caption ==>
          edges[i].src != edges[j].src)
  }

  // ---------------------------------------------------------------- the registry

  /** The compose services and the Kubernetes units are all in the registry. */
  lemma RegistryNodes(repo: Repo)
    ensures ComposeNodes(repo, Registry(repo).0)
    ensures UnitNodes(repo, Registry(repo).0)
  {
    var e := EmptyGraph();
    assert !HasPublic(e);
    var c := ComposeFiles(e, repo.composeFiles, false);
    var r := AddUnits(c.0, Units(repo.k8sFiles), c.1);
    forall f, k | f in repo.composeFiles && k in C.ParseServices(f).entries
      ensures SanitizeId("compose", k) in r.0.nodes.entries
      ensures C.ParseServices(f).entries[k].ports != [] ==> PublicAt(r.0, SanitizeId("compose", k))
    {
      if C.ParseServices(f).entries[k].ports != [] {
        assert PublicAt(c.0, SanitizeId("compose", k));
        GrowsKeepsTag(c.0, r.0, SanitizeId("compose", k), Public);
      }
    }
  }

  /** The registry links every compose dependency. */
  lemma RegistryDeps(repo: Repo)
    ensures ComposeDeps(repo, Registry(repo).0)
  {
    var e := EmptyGraph();
    var c := ComposeFiles(e, repo.composeFiles, false);
    var r := AddUnits(c.0, Units(repo.k8sFiles), c.1);
    ComposeFilesDeps(e, repo.composeFiles, false);
    forall f, k, d | f in repo.composeFiles && k in C.ParseServices(f).entries && d in C.ParseServices(f).entries[k].depends
      ensures DepLinked(r.0, k, d)
    {
      GrowsKeepsDep(c.0, r.0, k, d);
    }
  }

  /** The registry's nodes have their origins, and its edges are declared dependencies. */
  ghost predicate Registered(repo: Repo, reg: Graph) {
    NodesSourced(repo, reg) && forall e :: e in reg.edges ==> DepOrigin(repo.composeFiles, e)
  }

  /** The registry holds only compose and Kubernetes nodes, in their groups, and only declared `depends_on` edges. */
  lemma RegistryOrigins(repo: Repo)
    ensures Registered(repo, Registry(repo).0)
  {
    var empty := EmptyGraph();
    var c := ComposeFiles(empty, repo.composeFiles, false);
    var r := AddUnits(c.0, Units(repo.k8sFiles), c.1);
    ComposeFilesNew(empty, repo.composeFiles, false);
    AddUnitsNew(c.0, Units(repo.k8sFiles), c.1);
    assert r == Registry(repo);
    forall k | k in r.0.nodes.entries ensures Sourced(repo, k, r.0.nodes.entries[k].group) {
      if k in c.0.nodes.entries {
        assert k !in empty.nodes.keys;
      }
    }
  }

  /** The names of units of some kinds: non-empty Kubernetes names whose nodes are in `reg`. */
  ghost predicate KubeNames(reg: Graph, names: set<string>) {
    forall n :: n in names ==> |n| > 0 && SanitizeId("k8s", n) == "k8s:" + n && SanitizeId("k8s", n) in reg.nodes.entries
  }

  lemma RegistryNames(repo: Repo, kinds: set<K.Kind>)
    ensures KubeNames(Registry(repo).0, NamesOf(Units(repo.k8sFiles), kinds))
  {
    RegistryNodes(repo);
    forall n | n in NamesOf(Units(repo.k8sFiles), kinds)
      ensures |n| > 0 && SanitizeId("k8s", n) == "k8s:" + n && SanitizeId("k8s", n) in Registry(repo).0.nodes.entries
    {
      var u :| u in Units(repo.k8sFiles) && u.kind in kinds && u.name == n;
      UnitsShaped(repo.k8sFiles, u);
      KubeNameSafe(n);
    }
  }

  /** What the later phases need of the registry, the hints and the chosen pairs. */
  ghost predicate Ready(reg: Graph, flag: bool, files: seq<Option<string>>, p: Plan, svcs: set<string>, wls: set<string>, igs: set<string>) {
    && Sound(reg) && (flag <==> HasPublic(reg)) && (forall e :: e in reg.edges ==> e.caption == "depends_on")
    && HintsOf(files, p.hints)
    && PairsOk(p.sel, svcs, wls) && PairsOk(p.rts, igs, svcs)
    && KubeNames(reg, svcs) && KubeNames(reg, wls) && KubeNames(reg, igs)
  }

  /** What the later phases need for their nodes: a sound registry, its exposure flag, and hints that cannot name the Internet node. */
  ghost predicate Clean(reg: Graph, flag: bool, p: Plan) {
    && Sound(reg) && (flag <==> HasPublic(reg)) && (forall e :: e in reg.edges ==> e.caption == "depends_on")
    && (forall l :: l in p.hints ==> DbId(l) != Internet)
  }

  // ---------------------------------------------------------------- hints

  /** Every reported label is a `DB_HINTS` label, so its node id is not the Internet's. */
  lemma HintedIsDbLabel(files: seq<Option<string>>, l: string)
    requires Hinted(files, l)
    ensures IsDbLabel(l) && DbId(l) != Internet
  {
    var i :| 0 <= i < S.MaxEnvFiles && S.HintedBy(files, i, l);
    DbIdNotInternet(l);
  }

  /** The head of the sorted hints is the first hint, and the only one. */
  lemma HeadIsFirstHint(files: seq<Option<string>>, hints: seq<string>)
    requires HintsOf(files, hints) && hints != []
    ensures FirstHint(files, hints[0])
    ensures forall l :: FirstHint(files, l) ==> l == hints[0]
  {
    assert hints[0] in hints;
    forall m | Hinted(files, m) && m != hints[0] ensures LexLess(hints[0], m) {
      var j :| 0 <= j < |hints| && hints[j] == m;
    }
    forall l | FirstHint(files, l) ensures l == hints[0] {
      if l != hints[0] {
        LexLessAsymmetric(hints[0], l);
      }
    }
  }

  // ---------------------------------------------------------------- soundness of the phases

  /** The edges of pairs between names with nodes join nodes. */
  lemma PairEdgesClosed(reg: Graph, pairs: seq<(string, string)>, caption: string, from: set<string>, to: set<string>)
    requires KubeNames(reg, from) && KubeNames(reg, to)
    requires forall p :: p in pairs ==> p.0 in from && p.1 in to
    ensures forall e :: e in PairEdges(pairs, caption) ==> e.src in reg.nodes.entries && e.dst in reg.nodes.entries && e.caption == caption
  {
    var ps := PairEdges(pairs, caption);
    forall e | e in ps ensures e.src in reg.nodes.entries && e.dst in reg.nodes.entries && e.caption == caption {
      var i :| 0 <= i < |ps| && ps[i] == e;
      assert pairs[i] in pairs;
    }
  }

  /** The name links keep the registry closed. */
  lemma LinkedSound(reg: Graph, p: Plan, svcs: set<string>, wls: set<string>, igs: set<string>)
    requires Sound(reg) && KubeNames(reg, svcs) && KubeNames(reg, wls) && KubeNames(reg, igs)
    requires forall q :: q in p.sel ==> q.0 in svcs && q.1 in wls
    requires forall q :: q in p.rts ==> q.0 in igs && q.1 in svcs
    ensures Sound(Linked(reg, p))
  {
    PairEdgesClosed(reg, p.sel, "selects", svcs, wls);
    PairEdgesClosed(reg, p.rts, "routes", igs, svcs);
  }

  /** The hints of a ready plan cannot name the Internet node. */
  lemma ReadyClean(reg: Graph, flag: bool, files: seq<Option<string>>, p: Plan, svcs: set<string>, wls: set<string>, igs: set<string>)
    requires Ready(reg, flag, files, p, svcs, wls, igs)
    ensures Clean(reg, flag, p)
  {
    forall l | l in p.hints ensures DbId(l) != Internet {
      HintedIsDbLabel(files, l);
    }
  }

  /** No database node is the Internet node when no label's id is. */
  lemma DbNodesNotInternet(g: Graph, hints: seq<string>)
    requires WellFormed(g) && Internet !in g.nodes.entries
    requires forall l :: l in hints ==> DbId(l) != Internet
    ensures Internet !in AddDbNodes(g, hints).nodes.entries
  {
  }

  /** The `uses` edges join existing nodes. */
  lemma UsesKeepSound(g: Graph, hints: seq<string>)
    requires Sound(g) && forall l :: l in hints ==> HasTag(g, DbId(l), Db)
    ensures Sound(AddUses(g, hints))
    ensures forall e :: e in AddUses(g, hints).edges && e !in g.edges ==> e.caption == "uses"
  {
    var r := AddUses(g, hints);
    if hints != [] {
      assert hints[0] in hints;
      assert HasTag(g, DbId(hints[0]), Db);
      forall e | e in r.edges && e !in g.edges ensures e.src in r.nodes.entries && e.dst in r.nodes.entries && e.caption == "uses" {
        assert e in UsesEdges(g.nodes, g.nodes.keys, DbId(hints[0]));
      }
    }
  }

  /** The registry stays closed once the database nodes and the `uses` edges are in. */
  lemma ServedSound(reg: Graph, flag: bool, files: seq<Option<string>>, p: Plan, svcs: set<string>, wls: set<string>, igs: set<string>)
    requires Ready(reg, flag, files, p, svcs, wls, igs)
    ensures Sound(Served(reg, p))
  {
    LinkedSound(reg, p, svcs, wls, igs);
    ReadyClean(reg, flag, files, p, svcs, wls, igs);
    DbNodesNotInternet(Linked(reg, p), p.hints);
    UsesKeepSound(AddDbNodes(Linked(reg, p), p.hints), p.hints);
  }

  /** Before the Internet phase, no phase adds the Internet node. */
  lemma ServedNoInternet(reg: Graph, flag: bool, p: Plan)
    requires Clean(reg, flag, p)
    ensures Internet !in AddDbNodes(Linked(reg, p), p.hints).nodes.entries
    ensures Internet !in Served(reg, p).nodes.entries
  {
    DbNodesNotInternet(Linked(reg, p), p.hints);
  }

  /** Up to the database nodes, every edge is a dependency, a selection or a route. */
  lemma LinkedCaptions(reg: Graph, p: Plan)
    requires WellFormed(reg) && forall e :: e in reg.edges ==> e.caption == "depends_on"
    ensures forall e :: e in AddDbNodes(Linked(reg, p), p.hints).edges ==> e.caption in {"depends_on", "selects", "routes"}
    ensures forall e :: e in AddDbNodes(Linked(reg, p), p.hints).edges ==> e.caption != "uses" && e.caption != ""
  {
    PairCaptions(p.sel, "selects");
    PairCaptions(p.rts, "routes");
  }

  /** Before the Internet phase, no edge has an empty caption. */
  lemma ServedCaptions(reg: Graph, p: Plan)
    requires WellFormed(reg) && forall e :: e in reg.edges ==> e.caption == "depends_on"
    ensures forall e :: e in Served(reg, p).edges ==> e.caption != ""
  {
    var g5 := AddDbNodes(Linked(reg, p), p.hints);
    LinkedCaptions(reg, p);
    if p.hints != [] {
      var u := UsesEdges(g5.nodes, g5.nodes.keys, DbId(p.hints[0]));
      assert forall e :: e in u ==> e.caption == "uses";
    }
  }

  /** The Internet phase's own node never links to the database. */
  lemma InternetNotSource(g: Graph, flag: bool)
    requires WellFormed(g) && Internet !in g.nodes.entries
    ensures Internet in AddInternet(g, flag).nodes.entries ==> !UsesSource(AddInternet(g, flag).nodes.entries[Internet])
  {
  }

  /** The finished graph is closed: every edge joins two of its nodes. */
  lemma ExposedClosed(reg: Graph, flag: bool, files: seq<Option<string>>, p: Plan, svcs: set<string>, wls: set<string>, igs: set<string>)
    requires Ready(reg, flag, files, p, svcs, wls, igs)
    ensures Closed(Exposed(reg, flag, p))
  {
    ServedSound(reg, flag, files, p, svcs, wls, igs);
  }

  // ---------------------------------------------------------------- nodes

  /** Past the registry, nodes only gain tags; the Internet node aside, the finished graph has the nodes of `Served`. */
  lemma NodesKept(reg: Graph, flag: bool, p: Plan)
    requires Clean(reg, flag, p)
    ensures Internet !in Served(reg, p).nodes.entries
    ensures forall k :: k in reg.nodes.entries ==>
      k in Served(reg, p).nodes.entries && reg.nodes.entries[k].tags <= Served(reg, p).nodes.entries[k].tags
    ensures forall k :: PublicAt(Served(reg, p), k) <==> PublicAt(reg, k)
    ensures forall k :: k != Internet ==>
      && (k in Exposed(reg, flag, p).nodes.entries <==> k in Served(reg, p).nodes.entries)
      && (k in Served(reg, p).nodes.entries ==> Exposed(reg, flag, p).nodes.entries[k] == Served(reg, p).nodes.entries[k])
  {
    ServedNoInternet(reg, flag, p);
    ServedCaptions(reg, p);
    var g4 := Linked(reg, p);
    var g5 := AddDbNodes(g4, p.hints);
    var g6 := Served(reg, p);
    assert g6.nodes == g5.nodes;
    assert forall k :: PublicAt(g4, k) <==> PublicAt(reg, k);
    assert forall k :: PublicAt(g6, k) <==> PublicAt(g5, k);
    assert Grows(g6, Exposed(reg, flag, p));
  }

  /** The registry's nodes and tags survive to the end. */
  lemma RegistryKept(reg: Graph, flag: bool, p: Plan)
    requires Clean(reg, flag, p)
    ensures forall k :: k in reg.nodes.entries ==>
      k in Exposed(reg, flag, p).nodes.entries && reg.nodes.entries[k].tags <= Exposed(reg, flag, p).nodes.entries[k].tags
  {
    NodesKept(reg, flag, p);
  }

  /** Every reported label has its database node. */
  lemma DbNodesKept(reg: Graph, flag: bool, files: seq<Option<string>>, p: Plan)
    requires Clean(reg, flag, p) && HintsOf(files, p.hints)
    ensures DbNodes(files, Exposed(reg, flag, p))
  {
    NodesKept(reg, flag, p);
    var g5 := AddDbNodes(Linked(reg, p), p.hints);
    assert Served(reg, p).nodes == g5.nodes;
    forall l | Hinted(files, l) ensures HasTag(Exposed(reg, flag, p), DbId(l), Db) {
      HintedIsDbLabel(files, l);
      assert HasTag(g5, DbId(l), Db);
    }
  }

  // ---------------------------------------------------------------- exposure

  /** The Internet node exists exactly when the registry recorded an exposure, and is then public and external. */
  lemma InternetNode(reg: Graph, flag: bool, p: Plan)
    requires Clean(reg, flag, p)
    ensures Internet in Exposed(reg, flag, p).nodes.entries <==> flag
    ensures Internet in Exposed(reg, flag, p).nodes.entries <==> exists k :: k != Internet && PublicAt(Exposed(reg, flag, p), k)
    ensures Internet in Exposed(reg, flag, p).nodes.entries ==>
      PublicAt(Exposed(reg, flag, p), Internet) && Exposed(reg, flag, p).nodes.entries[Internet].group == External
  {
    NodesKept(reg, flag, p);
    var g := Exposed(reg, flag, p);
    assert forall k :: k != Internet ==> (PublicAt(g, k) <==> PublicAt(reg, k));
    if flag {
      var k :| PublicAt(reg, k);
      assert k != Internet && PublicAt(g, k);
    }
  }

  /** `AddInternet` on a graph without the Internet node or empty-captioned edges: the fan-out reaches exactly the other public nodes. */
  lemma FanOutExact(g: Graph, flag: bool)
    requires WellFormed(g) && Internet !in g.nodes.entries
    requires forall e :: e in g.edges ==> e.caption != ""
    requires flag <==> HasPublic(g)
    ensures forall k :: Edge(Internet, k, "") in AddInternet(g, flag).edges <==> k != Internet && PublicAt(AddInternet(g, flag), k)
    ensures forall e :: e in AddInternet(g, flag).edges && e.caption == "" ==> e.src == Internet
  {
    var r := AddInternet(g, flag);
    if flag {
      var fo := FanOut(r.nodes, r.nodes.keys);
      assert r.edges == g.edges + fo;
      forall k ensures Edge(Internet, k, "") in r.edges <==> k != Internet && PublicAt(r, k) {
        assert Edge(Internet, k, "") !in g.edges;
        assert k in r.nodes.entries <==> k in r.nodes.keys;
      }
      forall e | e in r.edges && e.caption == "" ensures e.src == Internet {
        assert e !in g.edges;
        assert e in fo;
      }
    } else {
      forall k ensures !PublicAt(r, k) {
        assert !PublicAt(g, k);
      }
    }
  }

  /** The Internet node, its fan-out, and nothing else with an empty caption. */
  lemma ExposureHolds(reg: Graph, flag: bool, p: Plan)
    requires Clean(reg, flag, p)
    ensures Exposure(Exposed(reg, flag, p))
  {
    ServedNoInternet(reg, flag, p);
    ServedCaptions(reg, p);
    NodesKept(reg, flag, p);
    InternetNode(reg, flag, p);
    var g6 := Served(reg, p);
    assert flag <==> HasPublic(g6);
    FanOutExact(g6, flag);
  }

  /** The public count is positive exactly when the Internet node exists, in a graph where it exists exactly when some other node is public. */
  lemma CountMatchesInternet(g: Graph)
    requires WellFormed(g) && Exposure(g)
    ensures CountPublic(g.nodes, g.nodes.keys) > 0 <==> Internet in g.nodes.entries
  {
    CountPublicPositive(g.nodes, g.nodes.keys);
    if Internet in g.nodes.entries {
      assert Internet in g.nodes.keys && Public in g.nodes.entries[Internet].tags;
    } else if CountPublic(g.nodes, g.nodes.keys) > 0 {
      var k :| k in g.nodes.keys && Public in g.nodes.entries[k].tags;
      assert PublicAt(g, k);
    }
  }

  // ---------------------------------------------------------------- uses

  /** A grown graph keeps every edge. */
  lemma GrowsKeepsEdge(g: Graph, r: Graph, e: Edge)
    requires Grows(g, r) && e in g.edges
    ensures e in r.edges
  {
    var i :| 0 <= i < |g.edges| && g.edges[i] == e;
    assert r.edges[i] == r.edges[..|g.edges|][i];
  }

  /** The `uses` and Internet phases: every `uses` edge they add leaves a source node for the node of the head hint. */
  lemma UsesExactSound(g: Graph, hints: seq<string>, flag: bool, r: Graph)
    requires WellFormed(g) && Internet !in g.nodes.entries
    requires forall e :: e in g.edges ==> e.caption != "uses"
    requires r == AddInternet(AddUses(g, hints), flag)
    ensures forall e :: e in r.edges && e.caption == "uses" ==>
      hints != [] && e.dst == DbId(hints[0]) && e.src in r.nodes.entries && UsesSource(r.nodes.entries[e.src])
  {
    var g6 := AddUses(g, hints);
    if flag {
      var fo := FanOut(r.nodes, r.nodes.keys);
      assert r.edges == g6.edges + fo;
      assert forall e :: e in fo ==> e.caption == "";
    }
    if hints != [] {
      var u := UsesEdges(g.nodes, g.nodes.keys, DbId(hints[0]));
      assert g6.edges == g.edges + u;
      forall e | e in r.edges && e.caption == "uses"
        ensures e.dst == DbId(hints[0]) && e.src in r.nodes.entries && UsesSource(r.nodes.entries[e.src])
      {
        assert e in u;
      }
    }
  }

  /** ... and every source node, the Internet node aside, has its `uses` edge. */
  lemma UsesExactComplete(g: Graph, hints: seq<string>, flag: bool, r: Graph)
    requires WellFormed(g) && Internet !in g.nodes.entries
    requires r == AddInternet(AddUses(g, hints), flag)
    requires hints != []
    ensures forall k :: k in r.nodes.entries && k != Internet && UsesSource(r.nodes.entries[k]) ==> Edge(k, DbId(hints[0]), "uses") in r.edges
  {
    var g6 := AddUses(g, hints);
    var u := UsesEdges(g.nodes, g.nodes.keys, DbId(hints[0]));
    forall k | k in r.nodes.entries && k != Internet && UsesSource(r.nodes.entries[k]) ensures Edge(k, DbId(hints[0]), "uses") in r.edges {
      assert k in g6.nodes.entries && r.nodes.entries[k] == g6.nodes.entries[k];
      assert k in g.nodes.keys && UsesSource(g.nodes.entries[k]);
      assert Edge(k, DbId(hints[0]), "uses") in u;
      assert Edge(k, DbId(hints[0]), "uses") in g6.edges;
      GrowsKeepsEdge(g6, r, Edge(k, DbId(hints[0]), "uses"));
    }
  }

  /** Every `uses` edge of the finished graph leaves a source node for the node of the first reported label. */
  lemma UsesLinksSound(reg: Graph, flag: bool, files: seq<Option<string>>, p: Plan)
    requires Clean(reg, flag, p) && HintsOf(files, p.hints)
    ensures forall e :: e in Exposed(reg, flag, p).edges && e.caption == "uses" ==>
      && e.src in Exposed(reg, flag, p).nodes.entries && UsesSource(Exposed(reg, flag, p).nodes.entries[e.src])
      && exists l :: FirstHint(files, l) && e.dst == DbId(l)
  {
    ServedNoInternet(reg, flag, p);
    LinkedCaptions(reg, p);
    var g5 := AddDbNodes(Linked(reg, p), p.hints);
    UsesExactSound(g5, p.hints, flag, Exposed(reg, flag, p));
    if p.hints != [] {
      HeadIsFirstHint(files, p.hints);
    }
  }

  /** Every source node of the finished graph has its `uses` edge to the node of the first reported label. */
  lemma UsesLinksComplete(reg: Graph, flag: bool, files: seq<Option<string>>, p: Plan)
    requires Clean(reg, flag, p) && HintsOf(files, p.hints)
    ensures forall l, k :: FirstHint(files, l) && k in Exposed(reg, flag, p).nodes.entries && UsesSource(Exposed(reg, flag, p).nodes.entries[k]) ==>
      Edge(k, DbId(l), "uses") in Exposed(reg, flag, p).edges
  {
    ServedNoInternet(reg, flag, p);
    var g5 := AddDbNodes(Linked(reg, p), p.hints);
    var r := Exposed(reg, flag, p);
    InternetNotSource(Served(reg, p), flag);
    if p.hints != [] {
      UsesExactComplete(g5, p.hints, flag, r);
      HeadIsFirstHint(files, p.hints);
    }
    forall l, k | FirstHint(files, l) && k in r.nodes.entries && UsesSource(r.nodes.entries[k])
      ensures Edge(k, DbId(l), "uses") in r.edges
    {
      assert l in p.hints;
      assert k != Internet;
    }
  }

  // ---------------------------------------------------------------- name links

  /** The captions of the name-link phases. */
  lemma PairCaptions(pairs: seq<(string, string)>, caption: string)
    ensures forall e :: e in PairEdges(pairs, caption) ==> e.caption == caption
  {
  }

  /** An edge with `caption` in `a + p + b`, where neither `a` nor `b` has one, lies in `p`. */
  lemma InSegment(a: seq<Edge>, p: seq<Edge>, b: seq<Edge>, caption: string, i: int)
    requires forall e :: e in a ==> e.caption != caption
    requires forall e :: e in b ==> e.caption != caption
    requires 0 <= i < |a + p + b| && (a + p + b)[i].caption == caption
    ensures |a| <= i < |a| + |p| && (a + p + b)[i] == p[i - |a|]
  {
  }

  /** Every edge with `caption` among the chosen pairs' edges joins a name to one of its variants. */
  lemma PairLinksSound(edges: seq<Edge>, a: seq<Edge>, pairs: seq<(string, string)>, b: seq<Edge>,
                       from: set<string>, to: set<string>, caption: string)
    requires edges == a + PairEdges(pairs, caption) + b
    requires forall e :: e in a ==> e.caption != caption
    requires forall e :: e in b ==> e.caption != caption
    requires forall p :: p in pairs ==> p.0 in from && p.1 in to && p.1 in Variants(p.0)
    ensures forall e :: e in edges && e.caption == caption ==>
      exists s, d :: s in from && d in to && d in Variants(s) && e == Edge(SanitizeId("k8s", s), SanitizeId("k8s", d), caption)
  {
    var ps := PairEdges(pairs, caption);
    forall e | e in edges && e.caption == caption
      ensures exists s, d :: s in from && d in to && d in Variants(s) && e == Edge(SanitizeId("k8s", s), SanitizeId("k8s", d), caption)
    {
      assert e in ps;
      var i :| 0 <= i < |ps| && ps[i] == e;
      assert pairs[i] in pairs;
    }
  }

  /** A name with a candidate has an edge among the chosen pairs' edges. */
  lemma PairLinksComplete(edges: seq<Edge>, a: seq<Edge>, pairs: seq<(string, string)>, b: seq<Edge>,
                          from: set<string>, to: set<string>, caption: string)
    requires edges == a + PairEdges(pairs, caption) + b
    requires forall p :: p in pairs ==> p.1 in to && p.1 in Variants(p.0)
    requires forall s :: s in from && (exists d :: d in to && d in Variants(s)) ==> exists p :: p in pairs && p.0 == s
    ensures forall s, d :: s in from && d in to && d in Variants(s) ==>
      exists d' :: d' in to && d' in Variants(s) && Edge(SanitizeId("k8s", s), SanitizeId("k8s", d'), caption) in edges
  {
    var ps := PairEdges(pairs, caption);
    forall s, d | s in from && d in to && d in Variants(s)
      ensures exists d' :: d' in to && d' in Variants(s) && Edge(SanitizeId("k8s", s), SanitizeId("k8s", d'), caption) in edges
    {
      var p :| p in pairs && p.0 == s;
      var i :| 0 <= i < |pairs| && pairs[i] == p;
      assert ps[i] in ps;
    }
  }

  /** No two edges with `caption` leave the same node, since the chosen pairs have distinct sources. */
  lemma PairLinksUnique(edges: seq<Edge>, a: seq<Edge>, pairs: seq<(string, string)>, b: seq<Edge>,
                        from: set<string>, caption: string)
    requires edges == a + PairEdges(pairs, caption) + b
    requires forall e :: e in a ==> e.caption != caption
    requires forall e :: e in b ==> e.caption != caption
    requires forall p :: p in pairs ==> p.0 in from
    requires forall i, j :: 0 <= i < j < |pairs| ==> pairs[i].0 != pairs[j].0
    requires forall n :: n in from ==> SanitizeId("k8s", n) == "k8s:" + n
    ensures forall i, j :: 0 <= i < j < |edges| && edges[i].caption == caption && edges[j].caption == caption ==>
      edges[i].src != edges[j].src
  {
    var ps := PairEdges(pairs, caption);
    forall i, j | 0 <= i < j < |edges| && edges[i].caption == caption && edges[j].caption == caption
      ensures edges[i].src != edges[j].src
    {
      InSegment(a, ps, b, caption, i);
      InSegment(a, ps, b, caption, j);
      var x, y := pairs[i - |a|].0, pairs[j - |a|].0;
      assert pairs[i - |a|] in pairs && pairs[j - |a|] in pairs;
      assert ("k8s:" + x)[4..] == x && ("k8s:" + y)[4..] == y;
    }
  }

  /** The edges of pairs that `LinkByName` may choose, placed between edges of other captions. */
  lemma PairLinks(edges: seq<Edge>, a: seq<Edge>, pairs: seq<(string, string)>, b: seq<Edge>,
                  from: set<string>, to: set<string>, caption: string)
    requires edges == a + PairEdges(pairs, caption) + b
    requires forall e :: e in a ==> e.caption != caption
    requires forall e :: e in b ==> e.caption != caption
    requires PairsOk(pairs, from, to)
    requires forall n :: n in from ==> SanitizeId("k8s", n) == "k8s:" + n
    requires "" !in to
    ensures NameLinks(edges, from, to, caption)
  {
    PairLinksSound(edges, a, pairs, b, from, to, caption);
    PairLinksComplete(edges, a, pairs, b, from, to, caption);
    PairLinksUnique(edges, a, pairs, b, from, caption);
  }

  /** Both name-link phases inside the phase-by-phase edge list. */
  lemma PhaseLinks(edges: seq<Edge>, r: seq<Edge>, sel: seq<(string, string)>, rts: seq<(string, string)>, u: seq<Edge>, f: seq<Edge>,
                   svcs: set<string>, wls: set<string>, igs: set<string>)
    requires edges == r + PairEdges(sel, "selects") + PairEdges(rts, "routes") + u + f
    requires forall e :: e in r ==> e.caption == "depends_on"
    requires forall e :: e in u ==> e.caption == "uses"
    requires forall e :: e in f ==> e.caption == ""
    requires PairsOk(sel, svcs, wls) && PairsOk(rts, igs, svcs)
    requires forall n :: n in svcs ==> |n| > 0 && SanitizeId("k8s", n) == "k8s:" + n
    requires forall n :: n in wls ==> |n| > 0
    requires forall n :: n in igs ==> SanitizeId("k8s", n) == "k8s:" + n
    ensures NameLinks(edges, svcs, wls, "selects")
    ensures NameLinks(edges, igs, svcs, "routes")
  {
    var ps, pr := PairEdges(sel, "selects"), PairEdges(rts, "routes");
    PairCaptions(sel, "selects");
    PairCaptions(rts, "routes");
    SeqAssoc(r + ps, pr, u);
    SeqAssoc(r + ps, pr + u, f);
    PairLinks(edges, r, sel, pr + u + f, svcs, wls, "selects");
    SeqAssoc(r + ps + pr, u, f);
    PairLinks(edges, r + ps, rts, u + f, igs, svcs, "routes");
  }

  /** The `uses` edges, when there are hints. */
  function UsesPart(reg: Graph, p: Plan): seq<Edge>
    requires WellFormed(reg)
  {
    var g5 := AddDbNodes(Linked(reg, p), p.hints);
    if p.hints == [] then [] else UsesEdges(g5.nodes, g5.nodes.keys, DbId(p.hints[0]))
  }

  /** The Internet fan-out, when an exposure was recorded. */
  function FanPart(reg: Graph, flag: bool, p: Plan): seq<Edge>
    requires WellFormed(reg)
  {
    var g := Exposed(reg, flag, p);
    if flag then FanOut(g.nodes, g.nodes.keys) else []
  }

  /** The edge list of the finished graph, phase by phase, with the caption of each phase. */
  lemma ExposedEdges(reg: Graph, flag: bool, p: Plan)
    requires WellFormed(reg)
    ensures Exposed(reg, flag, p).edges ==
      reg.edges + PairEdges(p.sel, "selects") + PairEdges(p.rts, "routes") + UsesPart(reg, p) + FanPart(reg, flag, p)
    ensures forall e :: e in UsesPart(reg, p) ==> e.caption == "uses"
    ensures forall e :: e in FanPart(reg, flag, p) ==> e.caption == ""
  {
  }

  /** `selects` and `routes`: each Service is joined to at most one workload and each Ingress to at most one Service among its variants, and to one whenever there is a candidate. */
  lemma KubeLinks(reg: Graph, flag: bool, files: seq<Option<string>>, p: Plan, svcs: set<string>, wls: set<string>, igs: set<string>)
    requires Ready(reg, flag, files, p, svcs, wls, igs)
    ensures NameLinks(Exposed(reg, flag, p).edges, svcs, wls, "selects")
    ensures NameLinks(Exposed(reg, flag, p).edges, igs, svcs, "routes")
  {
    ExposedEdges(reg, flag, p);
    PhaseLinks(Exposed(reg, flag, p).edges, reg.edges, p.sel, p.rts, UsesPart(reg, p), FanPart(reg, flag, p), svcs, wls, igs);
  }

  // ---------------------------------------------------------------- the finished graph

  /** The Kubernetes and compose nodes of the registry survive to the finished graph. */
  lemma RepoNodesKept(repo: Repo, reg: Graph, flag: bool, p: Plan)
    requires Clean(reg, flag, p) && ComposeNodes(repo, reg) && UnitNodes(repo, reg)
    ensures ComposeNodes(repo, Exposed(reg, flag, p)) && UnitNodes(repo, Exposed(reg, flag, p))
  {
    RegistryKept(reg, flag, p);
  }

  /** A graph with at least the nodes of `g` and the edges of `g` first keeps the dependency links of `g`. */
  lemma KeepsDeps(repo: Repo, g: Graph, r: Graph)
    requires ComposeDeps(repo, g)
    requires forall n :: n in g.nodes.entries ==> n in r.nodes.entries
    requires g.edges <= r.edges
    ensures ComposeDeps(repo, r)
  {
    forall f, k, d | f in repo.composeFiles && k in C.ParseServices(f).entries && d in C.ParseServices(f).entries[k].depends
      ensures DepLinked(r, k, d)
    {
      PrefixKeepsDep(g, r, k, d);
    }
  }

  /** The later phases keep every dependency link of the registry. */
  lemma DepsKept(repo: Repo, reg: Graph, flag: bool, p: Plan)
    requires Clean(reg, flag, p) && ComposeDeps(repo, reg)
    ensures ComposeDeps(repo, Exposed(reg, flag, p))
  {
    RegistryKept(reg, flag, p);
    ExposedKeepsEdges(reg, flag, p);
    KeepsDeps(repo, reg, Exposed(reg, flag, p));
  }

  /** The later phases only append edges. */
  lemma ExposedKeepsEdges(reg: Graph, flag: bool, p: Plan)
    requires WellFormed(reg)
    ensures reg.edges <= Exposed(reg, flag, p).edges
  {
    ExposedEdges(reg, flag, p);
    var e1 := reg.edges + PairEdges(p.sel, "selects");
    var e2 := e1 + PairEdges(p.rts, "routes");
    var e3 := e2 + UsesPart(reg, p);
    PrefixChain(reg.edges, e1, e2, e3, FanPart(reg, flag, p));
  }

  lemma PrefixChain(a: seq<Edge>, b: seq<Edge>, c: seq<Edge>, d: seq<Edge>, tail: seq<Edge>)
    requires a <= b <= c <= d
    ensures a <= d + tail
  {
    assert (d + tail)[..|a|] == d[..|c|][..|b|][..|a|];
  }

  /** The finished graph with its summary keeps every dependency link of the registry. */
  lemma ScannedDeps(repo: Repo, reg: Graph, flag: bool, p: Plan, pkg: (seq<string>, Option<string>))
    requires Ready(reg, flag, repo.envFiles, p, SvcNames(repo), WorkloadNames(repo), IngressNames(repo))
    requires ComposeDeps(repo, reg)
    ensures ComposeDeps(repo, Summed(Exposed(reg, flag, p), pkg))
  {
    ReadyClean(reg, flag, repo.envFiles, p, SvcNames(repo), WorkloadNames(repo), IngressNames(repo));
    DepsKept(repo, reg, flag, p);
    KeepsDeps(repo, Exposed(reg, flag, p), Summed(Exposed(reg, flag, p), pkg));
  }

  /** Past the registry, the only new nodes are the database nodes of reported labels and the Internet node, both external. */
  lemma ExposedNodesSourced(repo: Repo, reg: Graph, flag: bool, p: Plan)
    requires Clean(reg, flag, p) && HintsOf(repo.envFiles, p.hints) && NodesSourced(repo, reg)
    ensures NodesSourced(repo, Exposed(reg, flag, p))
  {
    NodesKept(reg, flag, p);
    InternetNode(reg, flag, p);
    var g5 := AddDbNodes(Linked(reg, p), p.hints);
    var g7 := Exposed(reg, flag, p);
    assert Served(reg, p).nodes == g5.nodes;
    forall k | k in g7.nodes.entries ensures Sourced(repo, k, g7.nodes.entries[k].group) {
      if k != Internet {
        assert g7.nodes.entries[k] == g5.nodes.entries[k];
        if k !in reg.nodes.entries {
          var l :| l in p.hints && k == DbId(l);
          assert Hinted(repo.envFiles, l);
        }
      }
    }
  }

  /** Five runs of edges, each with its own caption, carry only the five captions. */
  lemma CaptionsOf(repo: Repo, a: seq<Edge>, b: seq<Edge>, c: seq<Edge>, d: seq<Edge>, f: seq<Edge>)
    requires forall e :: e in a ==> e.caption == "depends_on" && DepOrigin(repo.composeFiles, e)
    requires forall e :: e in b ==> e.caption == "selects"
    requires forall e :: e in c ==> e.caption == "routes"
    requires forall e :: e in d ==> e.caption == "uses"
    requires forall e :: e in f ==> e.caption == ""
    ensures EdgesSourced(repo, a + b + c + d + f)
  {
  }

  /** The later phases add only `selects`, `routes`, `uses` and exposure edges. */
  lemma ExposedEdgesSourced(repo: Repo, reg: Graph, flag: bool, p: Plan)
    requires WellFormed(reg)
    requires forall e :: e in reg.edges ==> e.caption == "depends_on" && DepOrigin(repo.composeFiles, e)
    ensures EdgesSourced(repo, Exposed(reg, flag, p).edges)
  {
    ExposedEdges(reg, flag, p);
    PairCaptions(p.sel, "selects");
    PairCaptions(p.rts, "routes");
    CaptionsOf(repo, reg.edges, PairEdges(p.sel, "selects"), PairEdges(p.rts, "routes"), UsesPart(reg, p), FanPart(reg, flag, p));
  }

  /** The finished graph with its summary invents no node and no edge. */
  lemma ScannedSourced(repo: Repo, reg: Graph, flag: bool, p: Plan, pkg: (seq<string>, Option<string>))
    requires Ready(reg, flag, repo.envFiles, p, SvcNames(repo), WorkloadNames(repo), IngressNames(repo))
    requires Registered(repo, reg)
    ensures NodesSourced(repo, Summed(Exposed(reg, flag, p), pkg))
    ensures EdgesSourced(repo, Summed(Exposed(reg, flag, p), pkg).edges)
  {
    ReadyClean(reg, flag, repo.envFiles, p, SvcNames(repo), WorkloadNames(repo), IngressNames(repo));
    ExposedNodesSourced(repo, reg, flag, p);
    ExposedEdgesSourced(repo, reg, flag, p);
  }

  /** Everything the later phases promise of the graph they finish. */
  lemma Finished(repo: Repo, reg: Graph, flag: bool, p: Plan, svcs: set<string>, wls: set<string>, igs: set<string>)
    requires Ready(reg, flag, repo.envFiles, p, svcs, wls, igs)
    requires ComposeNodes(repo, reg) && UnitNodes(repo, reg)
    ensures Closed(Exposed(reg, flag, p))
    ensures ComposeNodes(repo, Exposed(reg, flag, p)) && UnitNodes(repo, Exposed(reg, flag, p))
    ensures Exposure(Exposed(reg, flag, p))
    ensures DbNodes(repo.envFiles, Exposed(reg, flag, p)) && UsesLinks(repo.envFiles, Exposed(reg, flag, p))
    ensures NameLinks(Exposed(reg, flag, p).edges, svcs, wls, "selects")
    ensures NameLinks(Exposed(reg, flag, p).edges, igs, svcs, "routes")
  {
    ExposedClosed(reg, flag, repo.envFiles, p, svcs, wls, igs);
    ReadyClean(reg, flag, repo.envFiles, p, svcs, wls, igs);
    RepoNodesKept(repo, reg, flag, p);
    ExposureHolds(reg, flag, p);
    DbNodesKept(reg, flag, repo.envFiles, p);
    UsesLinksSound(reg, flag, repo.envFiles, p);
    UsesLinksComplete(reg, flag, repo.envFiles, p);
    KubeLinks(reg, flag, repo.envFiles, p, svcs, wls, igs);
  }

  /** A new summary changes none of the properties of the nodes and edges. */
  lemma Resummed(repo: Repo, g: Graph, s: string)
    requires ComposeNodes(repo, g) && UnitNodes(repo, g) && Exposure(g)
    requires DbNodes(repo.envFiles, g) && UsesLinks(repo.envFiles, g)
    ensures ComposeNodes(repo, g.(summary := s)) && UnitNodes(repo, g.(summary := s)) && Exposure(g.(summary := s))
    ensures DbNodes(repo.envFiles, g.(summary := s)) && UsesLinks(repo.envFiles, g.(summary := s))
  {
    var h := g.(summary := s);
    forall k ensures PublicAt(h, k) <==> PublicAt(g, k) {
    }
  }

  /** The finished graph with its summary line. */
  function Summed(g: Graph, pkg: (seq<string>, Option<string>)): (r: Graph)
    requires WellFormed(g)
    ensures r.nodes == g.nodes && r.edges == g.edges
  {
    g.(summary := SummaryText(g.nodes, pkg.0, pkg.1))
  }

  /**
   What `scan_repo` promises of the graph it returns: it is closed, holds
   every compose service and Kubernetes unit and nothing that has no origin
   in the repository, exposes exactly the public nodes, links the database
   of the first hint and the names by convention, and reports public
   endpoints in its summary exactly when the Internet node is there.
   */
  ghost predicate Promised(repo: Repo, g: Graph) {
    && WellFormed(g) && Closed(g)
    && ComposeNodes(repo, g) && UnitNodes(repo, g) && ComposeDeps(repo, g)
    && NodesSourced(repo, g) && EdgesSourced(repo, g.edges)
    && Exposure(g)
    && DbNodes(repo.envFiles, g) && UsesLinks(repo.envFiles, g)
    && NameLinks(g.edges, SvcNames(repo), WorkloadNames(repo), "selects")
    && NameLinks(g.edges, IngressNames(repo), SvcNames(repo), "routes")
    && g.summary == SummaryText(g.nodes, S.SniffPackage(repo.manifest).0, S.SniffPackage(repo.manifest).1)
    && (CountPublic(g.nodes, g.nodes.keys) > 0 <==> Internet in g.nodes.entries)
  }

  /** The properties of the finished graph one by one, for any registry and plan the earlier phases can produce. */
  lemma ScannedParts(repo: Repo, reg: Graph, flag: bool, p: Plan, pkg: (seq<string>, Option<string>))
    requires Ready(reg, flag, repo.envFiles, p, SvcNames(repo), WorkloadNames(repo), IngressNames(repo))
    requires ComposeNodes(repo, reg) && UnitNodes(repo, reg)
    ensures WellFormed(Summed(Exposed(reg, flag, p), pkg)) && Closed(Summed(Exposed(reg, flag, p), pkg))
    ensures ComposeNodes(repo, Summed(Exposed(reg, flag, p), pkg)) && UnitNodes(repo, Summed(Exposed(reg, flag, p), pkg))
    ensures Exposure(Summed(Exposed(reg, flag, p), pkg))
    ensures DbNodes(repo.envFiles, Summed(Exposed(reg, flag, p), pkg)) && UsesLinks(repo.envFiles, Summed(Exposed(reg, flag, p), pkg))
    ensures NameLinks(Summed(Exposed(reg, flag, p), pkg).edges, SvcNames(repo), WorkloadNames(repo), "selects")
    ensures NameLinks(Summed(Exposed(reg, flag, p), pkg).edges, IngressNames(repo), SvcNames(repo), "routes")
    ensures CountPublic(Summed(Exposed(reg, flag, p), pkg).nodes, Summed(Exposed(reg, flag, p), pkg).nodes.keys) > 0
      <==> Internet in Summed(Exposed(reg, flag, p), pkg).nodes.entries
  {
    var g7 := Exposed(reg, flag, p);
    var g := Summed(g7, pkg);
    Finished(repo, reg, flag, p, SvcNames(repo), WorkloadNames(repo), IngressNames(repo));
    Resummed(repo, g7, g.summary);
    assert g == g7.(summary := g.summary);
    CountMatchesInternet(g);
  }

  /** Everything `scan_repo` promises, for any registry and plan the earlier phases can produce. */
  lemma Scanned(repo: Repo, reg: Graph, flag: bool, p: Plan)
    requires Ready(reg, flag, repo.envFiles, p, SvcNames(repo), WorkloadNames(repo), IngressNames(repo))
    requires ComposeNodes(repo, reg) && UnitNodes(repo, reg) && ComposeDeps(repo, reg) && Registered(repo, reg)
    ensures Promised(repo, Summed(Exposed(reg, flag, p), S.SniffPackage(repo.manifest)))
  {
    ScannedParts(repo, reg, flag, p, S.SniffPackage(repo.manifest));
    ScannedDeps(repo, reg, flag, p, S.SniffPackage(repo.manifest));
    ScannedSourced(repo, reg, flag, p, S.SniffPackage(repo.manifest));
  }

  /** The registry and the pairs `LinkByName` picks are ready for the later phases. */
  lemma ScanReady(repo: Repo, hints: seq<string>, sel: seq<(string, string)>, rts: seq<(string, string)>)
    requires HintsOf(repo.envFiles, hints)
    requires PairsOk(sel, SvcNames(repo), WorkloadNames(repo)) && PairsOk(rts, IngressNames(repo), SvcNames(repo))
    ensures Ready(Registry(repo).0, Registry(repo).1, repo.envFiles, Plan(hints, sel, rts), SvcNames(repo), WorkloadNames(repo), IngressNames(repo))
    ensures ComposeNodes(repo, Registry(repo).0) && UnitNodes(repo, Registry(repo).0) && ComposeDeps(repo, Registry(repo).0)
    ensures Registered(repo, Registry(repo).0)
  {
    RegistryNodes(repo);
    RegistryDeps(repo);
    RegistryOrigins(repo);
    RegistryNames(repo, {K.Service});
    RegistryNames(repo, {K.Deployment, K.StatefulSet, K.DaemonSet});
    RegistryNames(repo, {K.Ingress});
  }

  /** The `selects` loop, then the `routes` loop, on the registry. */
  method LinkNames(repo: Repo, reg: Graph) returns (g: Graph, sel: seq<(string, string)>, rts: seq<(string, string)>)
    ensures g.nodes == reg.nodes && g.summary == reg.summary
    ensures g.edges == reg.edges + PairEdges(sel, "selects") + PairEdges(rts, "routes")
    ensures PairsOk(sel, SvcNames(repo), WorkloadNames(repo)) && PairsOk(rts, IngressNames(repo), SvcNames(repo))
  {
    var g3;
    g3, sel := LinkByName(reg, SvcNames(repo), WorkloadNames(repo), "selects");
    g, rts := LinkByName(g3, IngressNames(repo), SvcNames(repo), "routes");
  }

  /**
   `scan_repo`: the registry, the `selects` and `routes` edges chosen by
   name, the database nodes and `uses` edges of the env hints, the Internet
   node and its fan-out, and the summary of the counts.
   */
  method ScanRepo(repo: Repo) returns (g: Graph)
    ensures Promised(repo, g)
  {
    var pkg := S.SniffPackage(repo.manifest);
    var hints := S.SniffEnv(repo.envFiles);
    var reg := Registry(repo);
    var g4, sel, rts := LinkNames(repo, reg.0);
    var p := Plan(hints, sel, rts);
    assert g4 == Linked(reg.0, p);
    ScanReady(repo, hints, sel, rts);
    Scanned(repo, reg.0, reg.1, p);
    g := Summed(AddInternet(AddUses(AddDbNodes(g4, hints), hints), reg.1), pkg);
  }
}
