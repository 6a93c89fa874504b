/**
 The assembly body of `scan_repo`: the compose services and their
 dependencies, the Kubernetes units with their tags, the naming-convention
 links between Services, workloads and Ingresses, the external database
 nodes, the `uses` links, the `Internet` fan-out and the summary line. The
 files arrive as their contents; finding them on disk is left to the caller.
 */
module Assembly {
  import opened Options
  import opened Text
  import opened Dicts
  import opened SortedSets
  import opened Ids
  import opened Topology
  import C = Compose
  import CF = ComposeFacts
  import K = Kube
  import KF = KubeFacts
  import S = Sniff

  /** What `scan_repo` reads: compose and Kubernetes file contents, the parsed `package.json` and the env candidates. */
  datatype Repo = Repo(
    composeFiles: seq<string>,
    k8sFiles: seq<string>,
    manifest: Option<S.Manifest>,
    envFiles: seq<Option<string>>)

  const Internet := "ext:internet"

  // ---------------------------------------------------------------- ids

  /** The id of a compose service or a Kubernetes unit is never the Internet node's id. */
  lemma ScannedId(prefix: string, n: string)
    requires prefix == "compose" || prefix == "k8s"
    ensures SanitizeId(prefix, n) != Internet
  {
    assert SanitizeId(prefix, n)[0] == prefix[0];
  }

  /** The id of the external node for a database hint. */
  function DbId(hint: string): string {
    SanitizeId("ext", Lower(hint))
  }

  /** A label `DB_HINTS` can report. */
  ghost predicate IsDbLabel(l: string) {
    exists k :: 0 <= k < |S.DbHints| && S.DbHints[k].1 == l
  }

  /** A hint whose first letter does not lower to `i` cannot take the Internet node's id. */
  lemma DbIdOfHead(l: string)
    requires |l| > 0 && LowerChar(l[0]) != 'i'
    ensures DbId(l) != Internet
  {
    assert Lower(l)[0] == LowerChar(l[0]);
    if IsSafeChar(Lower(l)[0]) {
      assert DbId(l)[4] == Lower(l)[0];
    } else {
      assert DbId(l)[4] == '_';
    }
  }

  /** Every database label starts with a capital other than `I`. */
  lemma DbIdNotInternet(l: string)
    requires IsDbLabel(l)
    ensures DbId(l) != Internet
  {
    var k :| 0 <= k < |S.DbHints| && S.DbHints[k].1 == l;
    assert l[0] in "PRMKEO";
    DbIdOfHead(l);
  }

  /** Names made of the Kubernetes name characters pass `_sanitize_id` unchanged. */
  lemma KubeNameSafe(n: string)
    requires AllChars(n, KubeName)
    ensures SanitizeId("k8s", n) == "k8s:" + n
  {
    SanitizeSafeName(n);
  }

  // ---------------------------------------------------------------- invariants

  lemma SeqAssoc<T>(a: seq<T>, b: seq<T>, c: seq<T>)
    ensures a + b + c == a + (b + c)
  {
  }

  /** The registry is consistent and closed, and the Internet node is not there yet. */
  ghost predicate Sound(g: Graph) {
    WellFormed(g) && Closed(g) && Internet !in g.nodes.entries
  }

  /** Node `k` exists and is tagged public. */
  ghost predicate PublicAt(g: Graph, k: string) {
    HasTag(g, k, Public)
  }

  ghost predicate HasPublic(g: Graph) {
    exists k :: PublicAt(g, k)
  }

  // ---------------------------------------------------------------- compose phase

  /** `{h for (h, c) in info["ports"]}` */
  function HostPorts(svc: C.Service): (ports: set<string>)
    ensures ports == {} <==> svc.ports == []
  {
    var hs := set p | p in svc.ports :: p.0;
    assert svc.ports != [] ==> svc.ports[0] in svc.ports && svc.ports[0].0 in hs;
    hs
  }

  /** `name`, then `:` and the sorted ports joined by commas when there are any. */
  function Caption(name: string, ports: set<string>): string {
    if ports == {} then name else name + ":" + Join(Listing(ports), ",")
  }

  /** The `depends_on` edges of one service, in list order. */
  function DepEdges(nid: string, deps: seq<string>): (es: seq<Edge>)
    ensures |es| == |deps|
    ensures forall e :: e in es ==> e.src == nid && e.caption == "depends_on"
    ensures forall i :: 0 <= i < |deps| ==> es[i] == Edge(nid, SanitizeId("compose", deps[i]), "depends_on")
  {
    if deps == [] then [] else [Edge(nid, SanitizeId("compose", deps[0]), "depends_on")] + DepEdges(nid, deps[1..])
  }

  /** A placeholder node for every dependency, then the edge to it. */
  function AddDeps(g: Graph, nid: string, deps: seq<string>): (r: Graph)
    requires Sound(g) && nid in g.nodes.entries
    ensures Sound(r)
    ensures r.edges == g.edges + DepEdges(nid, deps)
    ensures r.summary == g.summary
    decreases |deps|
  {
    if deps == [] then g
    else
      var did := SanitizeId("compose", deps[0]);
      ScannedId("compose", deps[0]);
      var g1 := Upsert(g, did, deps[0], Group.Compose, {}, {}, map[]);
      var g2 := Link(g1, nid, did, "depends_on");
      SeqAssoc(g.edges, [Edge(nid, did, "depends_on")], DepEdges(nid, deps[1..]));
      AddDeps(g2, nid, deps[1..])
  }

  /** The placeholders only add nodes: the graph grows, every dependency has a node, and no tag changes. */
  lemma {:induction false} AddDepsFacts(g: Graph, nid: string, deps: seq<string>)
    requires Sound(g) && nid in g.nodes.entries
    ensures Grows(g, AddDeps(g, nid, deps))
    ensures forall d :: d in deps ==> SanitizeId("compose", d) in AddDeps(g, nid, deps).nodes.entries
    ensures forall k :: PublicAt(AddDeps(g, nid, deps), k) <==> PublicAt(g, k)
    decreases |deps|
  {
    if deps != [] {
      var did := SanitizeId("compose", deps[0]);
      ScannedId("compose", deps[0]);
      var g1 := Upsert(g, did, deps[0], Group.Compose, {}, {}, map[]);
      UpsertGrows(g, did, deps[0], Group.Compose, {}, {}, map[]);
      UpsertHasTag(g, did, deps[0], Group.Compose, {}, {}, map[], Public);
      var g2 := Link(g1, nid, did, "depends_on");
      LinkGrows(g1, nid, did, "depends_on");
      AddDepsFacts(g2, nid, deps[1..]);
      var r := AddDeps(g2, nid, deps[1..]);
      assert r == AddDeps(g, nid, deps);
      GrowsTransitive(g, g1, g2);
      GrowsTransitive(g, g2, r);
      assert forall d :: d in deps <==> d == deps[0] || d in deps[1..];
    }
  }

  /** Every dependency gets its `depends_on` edge from the service's node. */
  lemma AddDepsLinks(g: Graph, nid: string, deps: seq<string>)
    requires Sound(g) && nid in g.nodes.entries
    ensures forall d :: d in deps ==> Edge(nid, SanitizeId("compose", d), "depends_on") in AddDeps(g, nid, deps).edges
  {
    var es := DepEdges(nid, deps);
    forall d | d in deps ensures Edge(nid, SanitizeId("compose", d), "depends_on") in es {
      var i :| 0 <= i < |deps| && deps[i] == d;
      assert es[i] == Edge(nid, SanitizeId("compose", d), "depends_on");
    }
    assert AddDeps(g, nid, deps).edges == g.edges + es;
  }

  /** The node of dependency `d` exists and the `depends_on` edge of service `k` points at it. */
  ghost predicate DepLinked(g: Graph, k: string, d: string) {
    && SanitizeId("compose", d) in g.nodes.entries
    && Edge(SanitizeId("compose", k), SanitizeId("compose", d), "depends_on") in g.edges
  }

  /** A grown graph keeps every dependency link. */
  lemma GrowsKeepsDep(g: Graph, r: Graph, k: string, d: string)
    requires Grows(g, r) && DepLinked(g, k, d)
    ensures DepLinked(r, k, d)
  {
    var i :| 0 <= i < |g.edges| && g.edges[i] == Edge(SanitizeId("compose", k), SanitizeId("compose", d), "depends_on");
    assert r.edges[i] == r.edges[..|g.edges|][i];
  }

  /** A graph with the node of `d` and the edges of `g` first keeps the dependency link. */
  lemma PrefixKeepsDep(g: Graph, r: Graph, k: string, d: string)
    requires DepLinked(g, k, d) && SanitizeId("compose", d) in r.nodes.entries && g.edges <= r.edges
    ensures DepLinked(r, k, d)
  {
    var i :| 0 <= i < |g.edges| && g.edges[i] == Edge(SanitizeId("compose", k), SanitizeId("compose", d), "depends_on");
    assert r.edges[i] == g.edges[i];
  }

  /** One compose service: its node, public when it publishes host ports, then its dependencies. */
  function AddService(g: Graph, name: string, svc: C.Service): (r: Graph)
    requires Sound(g)
    ensures Sound(r)
    ensures forall e :: e in r.edges ==> e in g.edges || e.caption == "depends_on"
    ensures r.summary == g.summary
  {
    var nid := SanitizeId("compose", name);
    var ports := HostPorts(svc);
    ScannedId("compose", name);
    var g1 := Upsert(g, nid, Caption(name, ports), Group.Compose, if ports != {} then {Public} else {}, ports, map[]);
    AddDeps(g1, nid, svc.depends)
  }

  /** The service's node exists afterwards, the graph grew, and the only new public node is the service's, when it has host ports. */
  lemma AddServiceFacts(g: Graph, name: string, svc: C.Service)
    requires Sound(g)
    ensures Grows(g, AddService(g, name, svc))
    ensures SanitizeId("compose", name) in AddService(g, name, svc).nodes.entries
    ensures forall k :: PublicAt(AddService(g, name, svc), k) <==>
      PublicAt(g, k) || (k == SanitizeId("compose", name) && svc.ports != [])
    ensures forall d :: d in svc.depends ==> DepLinked(AddService(g, name, svc), name, d)
  {
    var nid := SanitizeId("compose", name);
    var ports := HostPorts(svc);
    ScannedId("compose", name);
    var g1 := Upsert(g, nid, Caption(name, ports), Group.Compose, if ports != {} then {Public} else {}, ports, map[]);
    UpsertGrows(g, nid, Caption(name, ports), Group.Compose, if ports != {} then {Public} else {}, ports, map[]);
    UpsertHasTag(g, nid, Caption(name, ports), Group.Compose, if ports != {} then {Public} else {}, ports, map[], Public);
    AddDepsFacts(g1, nid, svc.depends);
    AddDepsLinks(g1, nid, svc.depends);
    GrowsTransitive(g, g1, AddDeps(g1, nid, svc.depends));
  }

  /** A service of `keys` publishes host ports. */
  predicate AnyPorts(services: Dict<C.Service>, keys: seq<string>)
    requires forall k :: k in keys ==> k in services.entries
  {
    exists k :: k in keys && services.entries[k].ports != []
  }

  /** The services of one compose file in their order: the inner loop of the compose phase. */
  function AddServices(g: Graph, services: Dict<C.Service>, keys: seq<string>): (r: Graph)
    requires Sound(g)
    requires forall k :: k in keys ==> k in services.entries
    ensures Sound(r)
    ensures forall e :: e in r.edges ==> e in g.edges || e.caption == "depends_on"
    ensures r.summary == g.summary
    decreases |keys|
  {
    if keys == [] then g
    else AddServices(AddService(g, keys[0], services.entries[keys[0]]), services, keys[1..])
  }

  /** Every service of `keys` has its node afterwards, public when it has host ports. */
  lemma {:induction false} AddServicesFacts(g: Graph, services: Dict<C.Service>, keys: seq<string>)
    requires Sound(g)
    requires forall k :: k in keys ==> k in services.entries
    ensures var r := AddServices(g, services, keys);
      && Grows(g, r)
      && (forall k :: k in keys ==> SanitizeId("compose", k) in r.nodes.entries)
      && (forall k :: k in keys && services.entries[k].ports != [] ==> PublicAt(r, SanitizeId("compose", k)))
    decreases |keys|
  {
    if keys != [] {
      var g1 := AddService(g, keys[0], services.entries[keys[0]]);
      AddServiceFacts(g, keys[0], services.entries[keys[0]]);
      AddServicesFacts(g1, services, keys[1..]);
      var r := AddServices(g1, services, keys[1..]);
      GrowsTransitive(g, g1, r);
      assert forall k :: k in keys <==> k == keys[0] || k in keys[1..];
      if services.entries[keys[0]].ports != [] {
        assert PublicAt(g1, SanitizeId("compose", keys[0]));
        GrowsKeepsTag(g1, r, SanitizeId("compose", keys[0]), Public);
      }
    }
  }

  /** Every dependency of every service of `keys` has its node and its edge afterwards. */
  lemma {:induction false} AddServicesDeps(g: Graph, services: Dict<C.Service>, keys: seq<string>)
    requires Sound(g)
    requires forall k :: k in keys ==> k in services.entries
    ensures forall k, d :: k in keys && d in services.entries[k].depends ==> DepLinked(AddServices(g, services, keys), k, d)
    decreases |keys|
  {
    if keys != [] {
      var g1 := AddService(g, keys[0], services.entries[keys[0]]);
      AddServiceFacts(g, keys[0], services.entries[keys[0]]);
      AddServicesFacts(g1, services, keys[1..]);
      AddServicesDeps(g1, services, keys[1..]);
      var r := AddServices(g1, services, keys[1..]);
      forall d | d in services.entries[keys[0]].depends ensures DepLinked(r, keys[0], d) {
        GrowsKeepsDep(g1, r, keys[0], d);
      }
      assert forall k :: k in keys <==> k == keys[0] || k in keys[1..];
    }
  }

  /** A public node appears exactly when one of the services has host ports. */
  lemma {:induction false} AddServicesExposure(g: Graph, services: Dict<C.Service>, keys: seq<string>)
    requires Sound(g)
    requires forall k :: k in keys ==> k in services.entries
    ensures HasPublic(AddServices(g, services, keys)) <==> HasPublic(g) || AnyPorts(services, keys)
    decreases |keys|
  {
    if keys != [] {
      var nid := SanitizeId("compose", keys[0]);
      var g1 := AddService(g, keys[0], services.entries[keys[0]]);
      AddServiceFacts(g, keys[0], services.entries[keys[0]]);
      AddServicesExposure(g1, services, keys[1..]);
      assert forall k :: k in keys <==> k == keys[0] || k in keys[1..];
      assert HasPublic(g1) <==> HasPublic(g) || services.entries[keys[0]].ports != [] by {
        if services.entries[keys[0]].ports != [] {
          assert PublicAt(g1, nid);
        }
      }
    }
  }

  /** The compose phase: every file in order, threading `internet_needed`. */
  function ComposeFiles(g: Graph, files: seq<string>, flag: bool): (r: (Graph, bool))
    requires Sound(g)
    ensures Sound(r.0) && Grows(g, r.0)
    ensures forall f, k :: f in files && k in C.ParseServices(f).entries ==>
      SanitizeId("compose", k) in r.0.nodes.entries
    ensures forall f, k :: f in files && k in C.ParseServices(f).entries && C.ParseServices(f).entries[k].ports != [] ==>
      PublicAt(r.0, SanitizeId("compose", k))
    ensures (flag <==> HasPublic(g)) ==> (r.1 <==> HasPublic(r.0))
    ensures forall e :: e in r.0.edges ==> e in g.edges || e.caption == "depends_on"
    ensures r.0.summary == g.summary
    decreases |files|
  {
    if files == [] then (g, flag)
    else
      var services := C.ParseServices(files[0]);
      var g1 := AddServices(g, services, services.keys);
      AddServicesFacts(g, services, services.keys);
      AddServicesExposure(g, services, services.keys);
      var r := ComposeFiles(g1, files[1..], flag || AnyPorts(services, services.keys));
      GrowsTransitive(g, g1, r.0);
      assert forall f :: f in files <==> f == files[0] || f in files[1..];
      r
  }

  /** Every dependency of every service of every file has its node and its `depends_on` edge. */
  lemma {:induction false} ComposeFilesDeps(g: Graph, files: seq<string>, flag: bool)
    requires Sound(g)
    ensures forall f, k, d :: f in files && k in C.ParseServices(f).entries && d in C.ParseServices(f).entries[k].depends ==>
      DepLinked(ComposeFiles(g, files, flag).0, k, d)
    decreases |files|
  {
    if files != [] {
      var services := C.ParseServices(files[0]);
      var g1 := AddServices(g, services, services.keys);
      AddServicesDeps(g, services, services.keys);
      ComposeFilesDeps(g1, files[1..], flag || AnyPorts(services, services.keys));
      var r := ComposeFiles(g1, files[1..], flag || AnyPorts(services, services.keys));
      assert r == ComposeFiles(g, files, flag);
      forall k, d | k in services.entries && d in services.entries[k].depends ensures DepLinked(r.0, k, d) {
        assert k in services.keys;
        GrowsKeepsDep(g1, r.0, k, d);
      }
      assert forall f :: f in files <==> f == files[0] || f in files[1..];
    }
  }

  /** `k` is the node id of one of `deps`. */
  ghost predicate DepId(deps: seq<string>, k: string) {
    exists d :: d in deps && k == SanitizeId("compose", d)
  }

  /** `k` is the node id of service `s` or of one of its dependencies. */
  ghost predicate OwnId(s: string, svc: C.Service, k: string) {
    k == SanitizeId("compose", s) || DepId(svc.depends, k)
  }

  /** `e` is the `depends_on` edge of service `s` to one of its dependencies. */
  ghost predicate OwnEdge(s: string, svc: C.Service, e: Edge) {
    exists d :: d in svc.depends && e == Edge(SanitizeId("compose", s), SanitizeId("compose", d), "depends_on")
  }

  /** `k` is the node id of a service of one of `files`, or of one of that service's dependencies. */
  ghost predicate ComposeOrigin(files: seq<string>, k: string) {
    exists f, s :: f in files && s in C.ParseServices(f).entries && OwnId(s, C.ParseServices(f).entries[s], k)
  }

  /** `e` is the `depends_on` edge of a service of one of `files` to one of its dependencies. */
  ghost predicate DepOrigin(files: seq<string>, e: Edge) {
    exists f, s :: f in files && s in C.ParseServices(f).entries && OwnEdge(s, C.ParseServices(f).entries[s], e)
  }

  /** A dependency id of the tail of `deps` is one of `deps`. */
  lemma DepIdsTail(deps: seq<string>)
    requires deps != []
    ensures forall k :: DepId(deps[1..], k) ==> DepId(deps, k)
  {
    forall k | DepId(deps[1..], k) ensures DepId(deps, k) {
      var d :| d in deps[1..] && k == SanitizeId("compose", d);
      assert d in deps;
    }
  }

  /** The placeholders add only dependency nodes, in the compose group. */
  lemma {:induction false} AddDepsNew(g: Graph, nid: string, deps: seq<string>)
    requires Sound(g) && nid in g.nodes.entries
    ensures forall k :: k in AddDeps(g, nid, deps).nodes.entries && k !in g.nodes.entries ==>
      AddDeps(g, nid, deps).nodes.entries[k].group == Group.Compose && DepId(deps, k)
    decreases |deps|
  {
    if deps != [] {
      var did := SanitizeId("compose", deps[0]);
      ScannedId("compose", deps[0]);
      var g1 := Upsert(g, did, deps[0], Group.Compose, {}, {}, map[]);
      var g2 := Link(g1, nid, did, "depends_on");
      AddDepsNew(g2, nid, deps[1..]);
      AddDepsFacts(g2, nid, deps[1..]);
      var r := AddDeps(g2, nid, deps[1..]);
      assert r == AddDeps(g, nid, deps);
      DepIdsTail(deps);
      assert deps[0] in deps;
    }
  }

  /** Every edge of a service's `depends_on` list is one of its own. */
  lemma DepEdgesOwn(name: string, svc: C.Service)
    ensures forall e :: e in DepEdges(SanitizeId("compose", name), svc.depends) ==> OwnEdge(name, svc, e)
  {
    var es := DepEdges(SanitizeId("compose", name), svc.depends);
    forall e | e in es ensures OwnEdge(name, svc, e) {
      var i :| 0 <= i < |es| && es[i] == e;
      assert svc.depends[i] in svc.depends;
    }
  }

  /** One service adds only its own node and its dependencies' nodes, in the compose group, and only its `depends_on` edges. */
  lemma AddServiceNew(g: Graph, name: string, svc: C.Service)
    requires Sound(g)
    ensures forall k :: k in AddService(g, name, svc).nodes.entries && k !in g.nodes.entries ==>
      AddService(g, name, svc).nodes.entries[k].group == Group.Compose && OwnId(name, svc, k)
    ensures forall e :: e in AddService(g, name, svc).edges ==> e in g.edges || OwnEdge(name, svc, e)
  {
    var nid := SanitizeId("compose", name);
    var ports := HostPorts(svc);
    var tags: set<Tag> := if ports != {} then {Public} else {};
    ScannedId("compose", name);
    var g1 := Upsert(g, nid, Caption(name, ports), Group.Compose, tags, ports, map[]);
    AddDepsFacts(g1, nid, svc.depends);
    AddDepsNew(g1, nid, svc.depends);
    DepEdgesOwn(name, svc);
  }

  /** The services of `keys` add only their own nodes, in the compose group, and only their `depends_on` edges. */
  lemma {:induction false} AddServicesNew(g: Graph, services: Dict<C.Service>, keys: seq<string>)
    requires Sound(g)
    requires forall k :: k in keys ==> k in services.entries
    ensures forall k :: k in AddServices(g, services, keys).nodes.entries && k !in g.nodes.entries ==>
      && AddServices(g, services, keys).nodes.entries[k].group == Group.Compose
      && exists s :: s in keys && OwnId(s, services.entries[s], k)
    ensures forall e :: e in AddServices(g, services, keys).edges ==>
      e in g.edges || exists s :: s in keys && OwnEdge(s, services.entries[s], e)
    decreases |keys|
  {
    if keys != [] {
      var g1 := AddService(g, keys[0], services.entries[keys[0]]);
      AddServiceNew(g, keys[0], services.entries[keys[0]]);
      AddServicesNew(g1, services, keys[1..]);
      AddServicesFacts(g1, services, keys[1..]);
      var r := AddServices(g1, services, keys[1..]);
      assert r == AddServices(g, services, keys);
      assert keys[0] in keys;
      forall k | k in r.nodes.entries && k !in g.nodes.entries
        ensures r.nodes.entries[k].group == Group.Compose && exists s :: s in keys && OwnId(s, services.entries[s], k)
      {
        if k !in g1.nodes.entries {
          var s :| s in keys[1..] && OwnId(s, services.entries[s], k);
          assert s in keys;
        }
      }
      forall e | e in r.edges && e !in g.edges ensures exists s :: s in keys && OwnEdge(s, services.entries[s], e) {
        if e !in g1.edges {
          var s :| s in keys[1..] && OwnEdge(s, services.entries[s], e);
          assert s in keys;
        }
      }
    }
  }

  /** The compose phase adds only the nodes of services and dependencies of `files`, in the compose group, and only their `depends_on` edges. */
  lemma {:induction false} ComposeFilesNew(g: Graph, files: seq<string>, flag: bool)
    requires Sound(g)
    ensures forall k :: k in ComposeFiles(g, files, flag).0.nodes.entries && k !in g.nodes.entries ==>
      ComposeFiles(g, files, flag).0.nodes.entries[k].group == Group.Compose && ComposeOrigin(files, k)
    ensures forall e :: e in ComposeFiles(g, files, flag).0.edges ==> e in g.edges || DepOrigin(files, e)
    decreases |files|
  {
    if files != [] {
      var services := C.ParseServices(files[0]);
      var g1 := AddServices(g, services, services.keys);
      AddServicesNew(g, services, services.keys);
      var f1 := flag || AnyPorts(services, services.keys);
      ComposeFilesNew(g1, files[1..], f1);
      var r := ComposeFiles(g1, files[1..], f1);
      assert r == ComposeFiles(g, files, flag);
      assert files[0] in files;
      forall k | k in r.0.nodes.entries && k !in g.nodes.entries
        ensures r.0.nodes.entries[k].group == Group.Compose && ComposeOrigin(files, k)
      {
        if k in g1.nodes.entries {
          var s :| s in services.keys && OwnId(s, services.entries[s], k);
          assert s in services.entries;
        } else {
          var f, s :| f in files[1..] && s in C.ParseServices(f).entries && OwnId(s, C.ParseServices(f).entries[s], k);
          assert f in files;
        }
      }
      forall e | e in r.0.edges && e !in g.edges ensures DepOrigin(files, e) {
        if e in g1.edges {
          var s :| s in services.keys && OwnEdge(s, services.entries[s], e);
          assert s in services.entries;
        } else {
          var f, s :| f in files[1..] && s in C.ParseServices(f).entries && OwnEdge(s, C.ParseServices(f).entries[s], e);
          assert f in files;
        }
      }
    }
  }

  // ---------------------------------------------------------------- Kubernetes phase

  /** Every unit of every Kubernetes file, in order. */
  function Units(files: seq<string>): seq<K.Unit> {
    if files == [] then [] else K.ParseUnits(files[0]) + Units(files[1..])
  }

  /** Every collected unit has a non-empty name of Kubernetes name characters. */
  lemma {:induction false} UnitsShaped(files: seq<string>, u: K.Unit)
    requires u in Units(files)
    ensures KF.UnitShaped(u)
  {
    if u in K.ParseUnits(files[0]) {
      KF.ParseUnitsShaped(files[0], u);
    } else {
      UnitsShaped(files[1..], u);
    }
  }

  /** The tag rules: a Service is `svc`, and public when it has a type; a workload kind is `workload`; an Ingress is `ingress` and public. */
  function UnitTags(u: K.Unit): (ts: set<Tag>)
    ensures Public in ts <==> u.kind == K.Ingress || (u.kind == K.Service && u.svcType.Some?)
    ensures Svc in ts <==> u.kind == K.Service
    ensures Workload in ts <==> u.kind in {K.Deployment, K.StatefulSet, K.DaemonSet}
    ensures Tag.Ingress in ts <==> u.kind == K.Ingress
    ensures Db !in ts
  {
    match u.kind
    case Service => {Svc} + (if u.svcType.Some? then {Public} else {})
    case Deployment => {Workload}
    case StatefulSet => {Workload}
    case DaemonSet => {Workload}
    case Ingress => {Tag.Ingress, Public}
  }

  /** One unit: its node, with `kind` in its meta, and its tags. */
  function AddUnit(g: Graph, u: K.Unit): (r: Graph)
    requires Sound(g)
    ensures Sound(r) && Grows(g, r)
    ensures SanitizeId("k8s", u.name) in r.nodes.entries
    ensures UnitTags(u) <= r.nodes.entries[SanitizeId("k8s", u.name)].tags
    ensures forall k :: PublicAt(r, k) <==> PublicAt(g, k) || (k == SanitizeId("k8s", u.name) && Public in UnitTags(u))
    ensures r.nodes.entries.Keys == g.nodes.entries.Keys + {SanitizeId("k8s", u.name)}
    ensures SanitizeId("k8s", u.name) !in g.nodes.entries ==> r.nodes.entries[SanitizeId("k8s", u.name)].group == K8s
    ensures r.edges == g.edges && r.summary == g.summary
  {
    var nid := SanitizeId("k8s", u.name);
    ScannedId("k8s", u.name);
    var r := Upsert(g, nid, Caption(u.name, u.ports), K8s, UnitTags(u), u.ports, map["kind" := K.KindName(u.kind)]);
    UpsertGrows(g, nid, Caption(u.name, u.ports), K8s, UnitTags(u), u.ports, map["kind" := K.KindName(u.kind)]);
    r
  }

  /** The Kubernetes phase: every unit in order, threading `internet_needed`. */
  function AddUnits(g: Graph, units: seq<K.Unit>, flag: bool): (r: (Graph, bool))
    requires Sound(g)
    ensures Sound(r.0) && Grows(g, r.0)
    ensures forall u :: u in units ==> SanitizeId("k8s", u.name) in r.0.nodes.entries
                                       && UnitTags(u) <= r.0.nodes.entries[SanitizeId("k8s", u.name)].tags
    ensures (flag <==> HasPublic(g)) ==> (r.1 <==> HasPublic(r.0))
    ensures r.0.edges == g.edges && r.0.summary == g.summary
    decreases |units|
  {
    if units == [] then (g, flag)
    else
      var g1 := AddUnit(g, units[0]);
      var f1 := flag || Public in UnitTags(units[0]);
      assert (flag <==> HasPublic(g)) ==> (f1 <==> HasPublic(g1)) by {
        if Public in UnitTags(units[0]) {
          assert PublicAt(g1, SanitizeId("k8s", units[0].name));
        }
      }
      var r := AddUnits(g1, units[1..], f1);
      GrowsTransitive(g, g1, r.0);
      assert forall u :: u in units <==> u == units[0] || u in units[1..];
      r
  }

  /** The Kubernetes phase adds only the nodes of `units`, in the Kubernetes group. */
  lemma {:induction false} AddUnitsNew(g: Graph, units: seq<K.Unit>, flag: bool)
    requires Sound(g)
    ensures forall k :: k in AddUnits(g, units, flag).0.nodes.entries && k !in g.nodes.entries ==>
      && AddUnits(g, units, flag).0.nodes.entries[k].group == K8s
      && exists u :: u in units && k == SanitizeId("k8s", u.name)
    decreases |units|
  {
    if units != [] {
      var g1 := AddUnit(g, units[0]);
      var f1 := flag || Public in UnitTags(units[0]);
      AddUnitsNew(g1, units[1..], f1);
      var r := AddUnits(g1, units[1..], f1);
      assert r == AddUnits(g, units, flag);
      assert units[0] in units;
      forall k | k in r.0.nodes.entries && k !in g.nodes.entries
        ensures r.0.nodes.entries[k].group == K8s && exists u :: u in units && k == SanitizeId("k8s", u.name)
      {
        if k !in g1.nodes.entries {
          var u :| u in units[1..] && k == SanitizeId("k8s", u.name);
          assert u in units;
        }
      }
    }
  }

  /** The names of the units whose kind is in `kinds`. */
  function NamesOf(units: seq<K.Unit>, kinds: set<K.Kind>): set<string> {
    set u | u in units && u.kind in kinds :: u.name
  }

  // ---------------------------------------------------------------- naming-convention links

  predicate EndsWith(s: string, suffix: string) {
    |suffix| <= |s| && s[|s| - |suffix|..] == suffix
  }

  /** `re.sub(r"-(svc|service)$", "", nm)`: at most one of the two suffixes can end the name. */
  function Base(nm: string): string {
    if EndsWith(nm, "-svc") then nm[..|nm| - 4]
    else if EndsWith(nm, "-service") then nm[..|nm| - 8]
    else nm
  }

  /** `_variants(nm)` */
  function Variants(nm: string): set<string> {
    var b := Base(nm);
    {nm, b, b + "-svc", b + "-service", b + "-api", b + "-app"}
  }

  /** A bare base name and its `-svc` and `-service` forms have the same variants, the `-api` and `-app` forms among them. */
  lemma VariantsOfBase(b: string)
    requires !EndsWith(b, "-svc") && !EndsWith(b, "-service")
    ensures Variants(b + "-svc") == Variants(b) && Variants(b + "-service") == Variants(b)
    ensures b + "-api" in Variants(b + "-svc") && b + "-app" in Variants(b + "-service")
  {
    assert (b + "-svc")[..|b|] == b;
    assert (b + "-service")[..|b|] == b;
    assert EndsWith(b + "-svc", "-svc");
    assert (b + "-service")[|b + "-service"| - 4..] == "vice";
    assert EndsWith(b + "-service", "-service");
  }

  /** The edges of the chosen (source, target) name pairs. */
  function PairEdges(pairs: seq<(string, string)>, caption: string): (es: seq<Edge>)
    ensures |es| == |pairs|
    ensures forall i :: 0 <= i < |pairs| ==>
      es[i] == Edge(SanitizeId("k8s", pairs[i].0), SanitizeId("k8s", pairs[i].1), caption)
  {
    seq(|pairs|, i requires 0 <= i < |pairs| => Edge(SanitizeId("k8s", pairs[i].0), SanitizeId("k8s", pairs[i].1), caption))
  }

  /** `next((d for d in to if d in _variants(s)), None)`: some name of `to` among the variants of `s`, in set order. */
  method FirstMatch(s: string, to: set<string>) returns (m: Option<string>)
    ensures m.Some? ==> m.value in to && m.value in Variants(s)
    ensures m.None? <==> forall d :: d in to ==> d !in Variants(s)
  {
    var matches := set d | d in to && d in Variants(s);
    assert forall d :: d in to && d in Variants(s) ==> d in matches;
    if matches == {} {
      m := None;
    } else {
      var d :| d in matches;
      m := Some(d);
    }
  }

  /** One more pair adds its edge at the end. */
  lemma PairEdgesSnoc(pairs: seq<(string, string)>, p: (string, string), caption: string)
    ensures PairEdges(pairs + [p], caption) == PairEdges(pairs, caption) + [Edge(SanitizeId("k8s", p.0), SanitizeId("k8s", p.1), caption)]
  {
  }

  /** The pairs picked for the names of `done`: valid, one per source, and one for every name with a candidate. */
  ghost predicate PairsOk(pairs: seq<(string, string)>, done: set<string>, to: set<string>) {
    && (forall p :: p in pairs ==> p.0 in done && p.1 in to && p.1 in Variants(p.0) && p.1 != "")
    && (forall i, j :: 0 <= i < j < |pairs| ==> pairs[i].0 != pairs[j].0)
    && ("" !in to ==> forall s :: s in done && (exists d :: d in to && d in Variants(s)) ==> exists p :: p in pairs && p.0 == s)
  }

  /** One more name, linked to the match `FirstMatch` found when it is non-empty. */
  lemma PairsStep(pairs: seq<(string, string)>, done: set<string>, to: set<string>, s: string, m: Option<string>)
    requires PairsOk(pairs, done, to) && s !in done
    requires m.Some? ==> m.value in to && m.value in Variants(s)
    requires m.None? <==> forall d :: d in to ==> d !in Variants(s)
    ensures PairsOk(if m.Some? && m.value != "" then pairs + [(s, m.value)] else pairs, done + {s}, to)
  {
    var next := if m.Some? && m.value != "" then pairs + [(s, m.value)] else pairs;
    assert forall p :: p in pairs ==> p in next;
    if m.Some? && m.value != "" {
      assert next[|next| - 1] == (s, m.value);
    }
    if "" !in to && exists d :: d in to && d in Variants(s) {
      assert m.Some?;
    }
  }

  /**
   The `selects` and `routes` loops: each name of `from`, in an unspecified
   order, is linked to some name of `to` among its variants. Python iterates
   a `set`, so which candidate wins is left open.
   */
  method LinkByName(g: Graph, from: set<string>, to: set<string>, caption: string)
    returns (r: Graph, pairs: seq<(string, string)>)
    ensures r.nodes == g.nodes && r.summary == g.summary
    ensures r.edges == g.edges + PairEdges(pairs, caption)
    ensures forall p :: p in pairs ==> p.0 in from && p.1 in to && p.1 in Variants(p.0) && p.1 != ""
    ensures forall i, j :: 0 <= i < j < |pairs| ==> pairs[i].0 != pairs[j].0
    ensures "" !in to ==>
      forall s :: s in from && (exists d :: d in to && d in Variants(s)) ==> exists p :: p in pairs && p.0 == s
  {
    r := g;
    pairs := [];
    var rest := from;
    while rest != {}
      invariant rest <= from
      invariant r.nodes == g.nodes && r.summary == g.summary
      invariant r.edges == g.edges + PairEdges(pairs, caption)
      invariant PairsOk(pairs, from - rest, to)
      decreases rest
    {
      var s :| s in rest;
      var m := FirstMatch(s, to);
      PairsStep(pairs, from - rest, to, s, m);
      if m.Some? && m.value != "" {
        r := Link(r, SanitizeId("k8s", s), SanitizeId("k8s", m.value), caption);
        PairEdgesSnoc(pairs, (s, m.value), caption);
        pairs := pairs + [(s, m.value)];
      }
      assert from - (rest - {s}) == (from - rest) + {s};
      rest := rest - {s};
    }
  }

  // ---------------------------------------------------------------- external nodes and links

  /** One external database node per hint label, tagged `db`. */
  function AddDbNodes(g: Graph, labels: seq<string>): (r: Graph)
    requires WellFormed(g)
    ensures WellFormed(r) && Grows(g, r)
    ensures Closed(g) ==> Closed(r)
    ensures forall l :: l in labels ==> HasTag(r, DbId(l), Db)
    ensures forall k :: k in r.nodes.entries ==> k in g.nodes.entries || exists l :: l in labels && k == DbId(l)
    ensures forall k :: k in r.nodes.entries && k !in g.nodes.entries ==> r.nodes.entries[k].group == External
    ensures forall k :: PublicAt(r, k) <==> PublicAt(g, k)
    ensures r.edges == g.edges && r.summary == g.summary
    decreases |labels|
  {
    if labels == [] then g
    else
      var id := DbId(labels[0]);
      var g1 := Upsert(g, id, labels[0], External, {Db}, {}, map[]);
      UpsertGrows(g, id, labels[0], External, {Db}, {}, map[]);
      UpsertHasTag(g, id, labels[0], External, {Db}, {}, map[], Public);
      var r := AddDbNodes(g1, labels[1..]);
      GrowsTransitive(g, g1, r);
      assert HasTag(g1, id, Db);
      assert forall l :: l in labels <==> l == labels[0] || l in labels[1..];
      GrowsKeepsTag(g1, r, id, Db);
      r
  }

  /** A node that links to the database: a compose node, or a Kubernetes node tagged `svc` or `workload`. */
  predicate UsesSource(n: Node) {
    (n.group == Group.Compose || n.group == K8s) && (Svc in n.tags || Workload in n.tags || n.group == Group.Compose)
  }

  /** The `uses` edges of the nodes listed in `keys`, in that order. */
  function UsesEdges(nodes: Dict<Node>, keys: seq<string>, target: string): (es: seq<Edge>)
    requires forall k :: k in keys ==> k in nodes.entries
    ensures forall e :: e in es <==> exists k :: k in keys && UsesSource(nodes.entries[k]) && e == Edge(k, target, "uses")
  {
    if keys == [] then []
    else
      var rest := UsesEdges(nodes, keys[1..], target);
      assert forall k :: k in keys <==> k == keys[0] || k in keys[1..];
      (if UsesSource(nodes.entries[keys[0]]) then [Edge(keys[0], target, "uses")] else []) + rest
  }

  /** With any hint, every source node links to the node of the alphabetically first one. */
  function AddUses(g: Graph, hints: seq<string>): (r: Graph)
    requires WellFormed(g)
    ensures r.nodes == g.nodes && r.summary == g.summary
    ensures hints == [] ==> r.edges == g.edges
    ensures hints != [] ==> r.edges == g.edges + UsesEdges(g.nodes, g.nodes.keys, DbId(hints[0]))
  {
    if hints == [] then g
    else g.(edges := g.edges + UsesEdges(g.nodes, g.nodes.keys, DbId(hints[0])))
  }

  /** The exposure edges: from the Internet node to every other public node listed in `keys`. */
  function FanOut(nodes: Dict<Node>, keys: seq<string>): (es: seq<Edge>)
    requires forall k :: k in keys ==> k in nodes.entries
    ensures forall e :: e in es <==>
      exists k :: k in keys && k != Internet && Public in nodes.entries[k].tags && e == Edge(Internet, k, "")
  {
    if keys == [] then []
    else
      var rest := FanOut(nodes, keys[1..]);
      assert forall k :: k in keys <==> k == keys[0] || k in keys[1..];
      (if keys[0] != Internet && Public in nodes.entries[keys[0]].tags then [Edge(Internet, keys[0], "")] else []) + rest
  }

  /** When an exposure was recorded: the public `Internet` node and its fan-out. */
  function AddInternet(g: Graph, flag: bool): (r: Graph)
    requires WellFormed(g)
    ensures WellFormed(r) && Grows(g, r)
    ensures Closed(g) ==> Closed(r)
    ensures !flag ==> r == g
    ensures flag ==> HasTag(r, Internet, Public)
    ensures flag && Internet !in g.nodes.entries ==> r.nodes.entries[Internet].group == External
    ensures forall k :: k in r.nodes.entries && k != Internet ==> k in g.nodes.entries && r.nodes.entries[k] == g.nodes.entries[k]
    ensures flag ==> r.edges == g.edges + FanOut(r.nodes, r.nodes.keys)
    ensures r.summary == g.summary
  {
    if !flag then g
    else
      var g1 := Upsert(g, Internet, "Internet", External, {Public}, {}, map[]);
      UpsertGrows(g, Internet, "Internet", External, {Public}, {}, map[]);
      var r := g1.(edges := g1.edges + FanOut(g1.nodes, g1.nodes.keys));
      assert Grows(g1, r);
      GrowsTransitive(g, g1, r);
      r
  }

  // ---------------------------------------------------------------- summary

  /** The number of nodes listed in `keys` that lie in `grp`. */
  function CountGroup(nodes: Dict<Node>, keys: seq<string>, grp: Group): nat
    requires forall k :: k in keys ==> k in nodes.entries
  {
    if keys == [] then 0
    else (if nodes.entries[keys[0]].group == grp then 1 else 0) + CountGroup(nodes, keys[1..], grp)
  }

  /** The number of nodes listed in `keys` that are tagged public. */
  function CountPublic(nodes: Dict<Node>, keys: seq<string>): nat
    requires forall k :: k in keys ==> k in nodes.entries
  {
    if keys == [] then 0
    else (if Public in nodes.entries[keys[0]].tags then 1 else 0) + CountPublic(nodes, keys[1..])
  }

  /** Every node is counted in exactly one of the three groups. */
  lemma {:induction false} CountsPartition(nodes: Dict<Node>, keys: seq<string>)
    requires forall k :: k in keys ==> k in nodes.entries
    ensures CountGroup(nodes, keys, Group.Compose) + CountGroup(nodes, keys, K8s) + CountGroup(nodes, keys, External) == |keys|
  {
    if keys != [] {
      CountsPartition(nodes, keys[1..]);
    }
  }

  /** The exposure count is positive exactly when a listed node is public. */
  lemma {:induction false} CountPublicPositive(nodes: Dict<Node>, keys: seq<string>)
    requires forall k :: k in keys ==> k in nodes.entries
    ensures CountPublic(nodes, keys) > 0 <==> exists k :: k in keys && Public in nodes.entries[k].tags
  {
    if keys != [] {
      CountPublicPositive(nodes, keys[1..]);
      assert forall k :: k in keys <==> k == keys[0] || k in keys[1..];
    }
  }

  /** `g.summary`: the three node counts, the frameworks, then the port and the exposure count when present. */
  function SummaryText(nodes: Dict<Node>, frameworks: seq<string>, port: Option<string>): string
    requires Valid(nodes)
  {
    var exposures := CountPublic(nodes, nodes.keys);
    "Compose: " + NatToString(CountGroup(nodes, nodes.keys, Group.Compose))
    + " · K8s: " + NatToString(CountGroup(nodes, nodes.keys, K8s))
    + " · External: " + NatToString(CountGroup(nodes, nodes.keys, External))
    + " · Frameworks: " + (if frameworks != [] then Join(frameworks, ", ") else "n/a")
    + (if port.Some? then " · App port: " + port.value else "")
    + (if exposures > 0 then " · Public endpoints: " + NatToString(exposures) else "")
  }
}
