/** Node identifiers and label escaping. */
module Ids {
  import opened Text

  /** Every character outside the safe set becomes `_`; the others stay in place. */
  function SanitizeName(name: string): (s: string)
    ensures |s| == |name|
    ensures forall i :: 0 <= i < |s| ==> IsSafeChar(s[i])
    ensures forall i :: 0 <= i < |name| && IsSafeChar(name[i]) ==> s[i] == name[i]
    ensures forall i :: 0 <= i < |name| && !IsSafeChar(name[i]) ==> s[i] == '_'
  {
    if name == [] then []
    else [if IsSafeChar(name[0]) then name[0] else '_'] + SanitizeName(name[1..])
  }

  /** `_sanitize_id(prefix, name)`: the namespace prefix, a colon, the sanitized name. */
  function SanitizeId(prefix: string, name: string): string {
    prefix + ":" + SanitizeName(name)
  }

  /** A name made only of safe characters is its own sanitized form. */
  lemma SanitizeSafeName(name: string)
    requires AllChars(name, SafeId)
    ensures SanitizeName(name) == name
  {
  }

  /** Sanitizing twice is sanitizing once. */
  lemma SanitizeIdempotent(name: string)
    ensures SanitizeName(SanitizeName(name)) == SanitizeName(name)
  {
    SanitizeSafeName(SanitizeName(name));
  }

  /** Ids under one prefix are equal exactly when the sanitized names are. */
  lemma SanitizeIdSplit(prefix: string, a: string, b: string)
    ensures SanitizeId(prefix, a) == SanitizeId(prefix, b) <==> SanitizeName(a) == SanitizeName(b)
  {
    var p := prefix + ":";
    if SanitizeId(prefix, a) == SanitizeId(prefix, b) {
      assert SanitizeId(prefix, a)[|p|..] == SanitizeName(a);
      assert SanitizeId(prefix, b)[|p|..] == SanitizeName(b);
    }
  }

  /** `_esc`: every double quote becomes an apostrophe, nothing else changes. */
  function Esc(s: string): (r: string)
    ensures |r| == |s|
    ensures forall i :: 0 <= i < |r| ==> r[i] != '"'
    ensures forall i :: 0 <= i < |s| && s[i] != '"' ==> r[i] == s[i]
    ensures forall i :: 0 <= i < |s| && s[i] == '"' ==> r[i] == '\''
  {
    if s == [] then [] else [if s[0] == '"' then '\'' else s[0]] + Esc(s[1..])
  }

  /** A text is left as it is exactly when it has no double quote; so escaping twice is escaping once. */
  lemma EscFixed(s: string)
    ensures Esc(s) == s <==> '"' !in s
    ensures Esc(Esc(s)) == Esc(s)
  {
    if '"' in s {
      var i :| 0 <= i < |s| && s[i] == '"';
      assert Esc(s)[i] != s[i];
    }
    assert forall i :: 0 <= i < |s| ==> Esc(Esc(s))[i] == Esc(s)[i];
  }
}

/** The typed graph of `Node`s and `Edge`s with its upsert and append operations. */
module Topology {
  import opened Dicts

  datatype Group = Compose | K8s | External

  /** The markers the assembler attaches to nodes. */
  datatype Tag = Public | Db | Svc | Workload | Ingress

  datatype Node = Node(
    id: string,
    caption: string,
    group: Group,
    tags: set<Tag>,
    ports: set<string>,
    meta: map<string, string>)

  /** A directed edge; `caption` is its label, empty for the unlabelled exposure edge. */
  datatype Edge = Edge(src: string, dst: string, caption: string)

  datatype Graph = Graph(nodes: Dict<Node>, edges: seq<Edge>, summary: string)

  /** The registry is a valid dict whose entries carry their own key as id. */
  ghost predicate WellFormed(g: Graph) {
    && Valid(g.nodes)
    && forall k :: k in g.nodes.entries ==> g.nodes.entries[k].id == k
  }

  /** Every edge endpoint is a registered node. */
  ghost predicate Closed(g: Graph) {
    forall e :: e in g.edges ==> e.src in g.nodes.entries && e.dst in g.nodes.entries
  }

  function EmptyGraph(): (g: Graph)
    ensures WellFormed(g) && Closed(g)
    ensures g.nodes.keys == [] && g.edges == []
  {
    Graph(Empty(), [], "")
  }

  function Get(g: Graph, id: string): Node
    requires id in g.nodes.entries
  {
    g.nodes.entries[id]
  }

  /**
   `Graph.node`: creates the node on first use, otherwise merges into it. The
   group and a non-empty label are kept, tags and ports are unioned, and meta
   keys given now overwrite earlier ones. An empty `caption` stands for a `None` label.
   */
  function Upsert(g: Graph, id: string, caption: string, group: Group, addTags: set<Tag>,
                  ports: set<string>, meta: map<string, string>): (r: Graph)
    requires WellFormed(g)
    ensures WellFormed(r)
    ensures id in r.nodes.entries
    ensures r.nodes.entries.Keys == g.nodes.entries.Keys + {id}
    ensures id in g.nodes.entries ==> r.nodes.keys == g.nodes.keys
    ensures id !in g.nodes.entries ==> r.nodes.keys == g.nodes.keys + [id]
    ensures r.edges == g.edges && r.summary == g.summary
    ensures forall k :: k in g.nodes.entries && k != id ==> r.nodes.entries[k] == g.nodes.entries[k]
    ensures id in g.nodes.entries ==>
      r.nodes.entries[id] == Merge(g.nodes.entries[id], if caption == "" then id else caption, addTags, ports, meta)
    ensures id !in g.nodes.entries ==>
      r.nodes.entries[id] == Node(id, if caption == "" then id else caption, group, addTags, ports, meta)
  {
    var l := if caption == "" then id else caption;
    if id in g.nodes.entries then Replace(g, Merge(g.nodes.entries[id], l, addTags, ports, meta))
    else Replace(g, Node(id, l, group, addTags, ports, meta))
  }

  /** Puts node `n` under its own id, in place of the node with that id if there is one. */
  function Replace(g: Graph, n: Node): (r: Graph)
    requires WellFormed(g)
    requires n.id in g.nodes.entries ==> g.nodes.entries[n.id].id == n.id
    ensures WellFormed(r)
    ensures r.nodes.entries == g.nodes.entries[n.id := n]
    ensures n.id in r.nodes.entries && r.nodes.entries[n.id] == n
    ensures r.nodes.entries.Keys == g.nodes.entries.Keys + {n.id}
    ensures forall k :: k in g.nodes.entries && k != n.id ==> r.nodes.entries[k] == g.nodes.entries[k]
    ensures n.id in g.nodes.entries ==> r.nodes.keys == g.nodes.keys
    ensures n.id !in g.nodes.entries ==> r.nodes.keys == g.nodes.keys + [n.id]
    ensures r.edges == g.edges && r.summary == g.summary
  {
    g.(nodes := Put(g.nodes, n.id, n))
  }

  /** The attribute merge of `Graph.node` applied to one node. */
  function Merge(n: Node, caption: string, addTags: set<Tag>, ports: set<string>, meta: map<string, string>): (r: Node)
    ensures r.id == n.id && r.group == n.group
    ensures r.caption == if n.caption == "" then caption else n.caption
    ensures r.tags == n.tags + addTags && r.ports == n.ports + ports && r.meta == n.meta + meta
  {
    Node(n.id, if n.caption == "" then caption else n.caption, n.group, n.tags + addTags, n.ports + ports, n.meta + meta)
  }

  /** `n.tags.add(...)` / `n.tags.update(...)` on a node already registered. */
  function AddTags(g: Graph, id: string, ts: set<Tag>): (r: Graph)
    requires WellFormed(g) && id in g.nodes.entries
    ensures WellFormed(r)
    ensures r.nodes.keys == g.nodes.keys && r.nodes.entries.Keys == g.nodes.entries.Keys
    ensures r.edges == g.edges && r.summary == g.summary
    ensures r.nodes.entries[id] == g.nodes.entries[id].(tags := g.nodes.entries[id].tags + ts)
    ensures forall k :: k in g.nodes.entries && k != id ==> r.nodes.entries[k] == g.nodes.entries[k]
  {
    var n := g.nodes.entries[id];
    g.(nodes := Put(g.nodes, id, n.(tags := n.tags + ts)))
  }

  /** `Graph.link`: appends exactly one edge and leaves the earlier ones alone. */
  function Link(g: Graph, a: string, b: string, caption: string): (r: Graph)
    ensures |r.edges| == |g.edges| + 1
    ensures r.edges[..|g.edges|] == g.edges
    ensures r.edges[|g.edges|] == Edge(a, b, caption)
    ensures r.edges == g.edges + [Edge(a, b, caption)]
    ensures r.nodes == g.nodes && r.summary == g.summary
  {
    g.(edges := g.edges + [Edge(a, b, caption)])
  }

  /** `g` grows into `r`: no node disappears or changes group, tags and ports only grow, edges are only appended. */
  ghost predicate Grows(g: Graph, r: Graph) {
    && g.nodes.entries.Keys <= r.nodes.entries.Keys
    && (forall k :: k in g.nodes.entries ==>
          && r.nodes.entries[k].group == g.nodes.entries[k].group
          && g.nodes.entries[k].tags <= r.nodes.entries[k].tags
          && g.nodes.entries[k].ports <= r.nodes.entries[k].ports)
    && |g.edges| <= |r.edges| && r.edges[..|g.edges|] == g.edges
  }

  lemma GrowsTransitive(a: Graph, b: Graph, c: Graph)
    requires Grows(a, b) && Grows(b, c)
    ensures Grows(a, c)
  {
    assert c.edges[..|a.edges|] == c.edges[..|b.edges|][..|a.edges|];
  }

  /** Node `k` exists and carries tag `t`. */
  ghost predicate HasTag(g: Graph, k: string, t: Tag) {
    k in g.nodes.entries && t in g.nodes.entries[k].tags
  }

  /** After an upsert a node carries a tag exactly when it did before or the upsert added it. */
  lemma UpsertHasTag(g: Graph, id: string, caption: string, group: Group, addTags: set<Tag>,
                     ports: set<string>, meta: map<string, string>, t: Tag)
    requires WellFormed(g)
    ensures forall k :: HasTag(Upsert(g, id, caption, group, addTags, ports, meta), k, t) <==>
      HasTag(g, k, t) || (k == id && t in addTags)
  {
    var r := Upsert(g, id, caption, group, addTags, ports, meta);
    if id in g.nodes.entries {
      assert r.nodes.entries[id].tags == g.nodes.entries[id].tags + addTags;
    } else {
      assert r.nodes.entries[id].tags == addTags;
    }
  }

  /** Tags survive growth. */
  lemma GrowsKeepsTag(g: Graph, r: Graph, k: string, t: Tag)
    requires Grows(g, r) && HasTag(g, k, t)
    ensures HasTag(r, k, t)
  {
  }

  /** Upsert and link only make the graph grow, and keep every edge endpoint registered. */
  lemma UpsertGrows(g: Graph, id: string, caption: string, group: Group, addTags: set<Tag>,
                    ports: set<string>, meta: map<string, string>)
    requires WellFormed(g)
    ensures Grows(g, Upsert(g, id, caption, group, addTags, ports, meta))
    ensures Closed(g) ==> Closed(Upsert(g, id, caption, group, addTags, ports, meta))
  {
  }

  lemma LinkGrows(g: Graph, a: string, b: string, caption: string)
    ensures Grows(g, Link(g, a, b, caption))
    ensures Closed(g) && a in g.nodes.entries && b in g.nodes.entries ==> Closed(Link(g, a, b, caption))
  {
  }
}
