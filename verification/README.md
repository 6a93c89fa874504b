# repo-architecture-map, modelled in Dafny

`repo-architecture-map` reads a repository's docker-compose files, Kubernetes
manifests, `package.json` and `.env` files and draws the system as a Mermaid
flowchart wrapped in Markdown. This project models the core of `core.py` as
pure functions from file *contents* to the diagram text, and proves what the
scanners, the graph assembly and the renderer promise.

The modules follow the program's own parts:

- `Options`, `Text`, `SortedSets`, `Dicts` and `Filters` hold the Python
  building blocks:
  - `str.splitlines` and `str.lower`;
  - substring search (`in`) and `"\n".join`;
  - `sorted(set)` as a strictly increasing listing;
  - an insertion-ordered `dict`;
  - list comprehensions with a condition.
- `Ids` covers `_sanitize_id` and `_esc`.
- `Topology` covers the data model (`Node`, `Edge`, `Graph`) and the registry
  operations `Graph.node` (an upsert that merges) and `Graph.link` (an append).
- `Compose` and `ComposeFacts` cover `_parse_compose_services`.
  - It is a fold over the lines that carries a "services block / current
    service" state.
  - The fold is modelled as the source writes it. A bare indented `key:` line
    such as `    ports:` starts a record of its own, and the block is never
    left once a service is current.
- `Kube` and `KubeFacts` cover `_parse_k8s_units`.
  - The document split on `\n---\s*\n` is modelled, including a blank run that
    spans several lines.
  - The per-line scan is modelled with its `continue`s. The Ingress flag
    therefore ignores the `kind: Ingress` line itself, and the first name line
    too.
- `Patterns` covers the unanchored `re.search` patterns, as leftmost anchored
  matches.
- `Sniff` covers the pure parts of `_sniff_package_json` and `_sniff_env`.
- `Assembly` and `Pipeline` cover `scan_repo` after the globbing. It runs these
  phases:
  - compose services and their `depends_on` placeholders;
  - Kubernetes units and their tags;
  - `selects` and `routes` links chosen by `_variants`;
  - database nodes for the env hints, and `uses` edges to the alphabetically
    first hint;
  - the Internet node and its fan-out;
  - the summary line.
  `Pipeline.ScanRepo` establishes the predicate `Promised`, which gathers all of
  these properties of the finished graph. It also states that the graph holds
  nothing else: every node comes from the repository and lies in its origin's
  group, and every edge is one of the five kinds above.
- `Mermaid` covers `_theme_block`, `build_mermaid` and `wrap_markdown`.
  - The renderer builds a sequence of typed lines, then their text.
  - `ReadKind` recovers a line's kind from its text alone, so every diagram
    property is stated on the output strings.

Inputs the source reads from the outside world are parameters here:

- A `Repo` holds the text of each compose file and each Kubernetes file.
- `package.json` is an already-parsed `Manifest`, holding its dependency keys,
  its dev-dependency keys and its script values. It is `None` when the file is
  missing or does not parse.
- The env candidates are a sequence of `Option<string>`. `None` marks a
  candidate that is not a file.
- `os.getenv` in `_theme_block` becomes the flag `preferDark`.
- The colour and settings strings of the directives and class definitions are
  a `Palette` parameter. `Mermaid.SourcePalette` holds the exact strings of
  `core.py`, and every renderer property holds for any palette.

## Model

| member | source | states |
|---|---|---|
| Text.SplitLines | core.py:97 | No line contains a line boundary; an empty text has no lines; a text without a boundary is a single line |
| Text.SplitLinesRejoin | core.py:97 | Putting back after each line the boundary it lost gives the text again: each boundary is `\r\n` or one break character, only a non-empty last line may have none, and a lone `\r` is never directly followed by a `\n` |
| Text.Lower | core.py:199 | Lower-casing keeps the length and maps each character on its own: ASCII capitals to small letters, the Kelvin sign to `k`, everything else unchanged |
| Text.Contains | core.py:201 | `needle in s` holds exactly when the needle occurs at some position of `s` |
| Text.NatToStringRoundTrip | core.py:300 | The decimal text written for a count in the summary reads back as that count |
| SortedSets.Listing | core.py:226-227 | `sorted` of a set is strictly increasing, has exactly the set's members and the set's size |
| SortedSets.SortedListingUnique | core.py:277 | Two strictly increasing listings with the same members are equal, so `sorted(env_hints)` is determined by the set |
| Dicts.Put | core.py:48-49 | A dict write keeps keys distinct, appends a new key at the end of the key order and leaves an existing key in place |
| Ids.SanitizeName | core.py:82-85 | The sanitized name has the input's length; every character is in the safe set; safe characters stay in place and every other one becomes `_` |
| Ids.SanitizeSafeName | core.py:84 | A name made only of safe characters is its own sanitized form |
| Ids.SanitizeIdempotent | core.py:84 | Sanitizing twice is the same as sanitizing once |
| Ids.SanitizeIdSplit | core.py:85 | Two ids with one prefix are equal exactly when their sanitized names are |
| Ids.Esc | core.py:380-381 | Escaping keeps the length, leaves no double quote, keeps every other character and writes `'` for each `"` |
| Ids.EscFixed | core.py:381 | Escaping changes nothing exactly when the text has no double quote, and escaping twice equals escaping once |
| Topology.Upsert | core.py:46-58 | After `node(id, …)` the id is a key; a new id is appended to the key order and an existing one keeps its place; every other node, the edges and the summary are unchanged |
| Topology.Merge | core.py:50-57 | An existing node keeps its id, its group and a non-empty label; its tags and ports grow by union; new meta keys overwrite old ones |
| Topology.UpsertHasTag | core.py:53-55 | After an upsert a node carries a tag exactly when it carried it before or the upsert added it to that node |
| Topology.UpsertGrows | core.py:46-58 | An upsert only grows the graph: keys, groups, tags, ports and the edge list are kept, and every edge endpoint stays registered |
| Topology.Link | core.py:60-61 | `link` appends exactly one edge at the end, leaves the earlier edges in place and the nodes unchanged |
| Topology.LinkGrows | core.py:60-61 | `link` only grows the graph, and keeps every edge endpoint registered when both of its ends are nodes |
| Topology.AddTags | core.py:228 | Adding tags to a node grows only that node's tags and leaves the keys, the edges and the other nodes alone |
| Compose.ServiceKey | core.py:106 | A service key line yields a non-empty name of compose name characters |
| ComposeFacts.ServiceKeyMeans | core.py:106 | A line yields key `name` exactly when it is two or more blanks, the name, blanks, `:`, blanks |
| ComposeFacts.ServicesHeaderMeans | core.py:102 | A line is the `services:` header exactly when it is blanks, `services`, blanks, `:`, blanks |
| Compose.PortItem | core.py:117 | A port item yields a pair of digit strings, the host port and the container port |
| Compose.ListItem | core.py:121 | A list item yields a non-empty name of compose name characters |
| Compose.ConditionItem | core.py:125 | A `name: {condition: …}` item yields a non-empty name of compose name characters |
| Compose.ParseServices | core.py:89-132 | The parsed services form a valid insertion-ordered dict |
| ComposeFacts.StepRecord | core.py:104-131 | One line either leaves a record alone, resets it to empty, or adds that line's items to it |
| ComposeFacts.ParsedDependsSourced | core.py:120-127 | Every recorded dependency is a list or condition-map item on a line right after a line containing `depends_on` |
| ComposeFacts.ParsedNetworksSourced | core.py:128-131 | Every recorded network is a list item on a line right after a line containing `networks` |
| ComposeFacts.ParsedPortsAreDigits | core.py:116-119 | Every recorded port entry is a pair of digit strings |
| ComposeFacts.NoHeaderNoServices | core.py:102-104 | A text with no `services:` header line has no services |
| ComposeFacts.RunKeys | core.py:104-110 | The recorded names are exactly the keys of the indented key lines met inside the block |
| ComposeFacts.KeyLineRestarts | core.py:106-110 | A key line inside the block makes its key current with an empty record, even if that key had been seen before |
| ComposeFacts.NoExitAfterService | core.py:111-114 | Once a service is current, no line but a new header leaves the block or clears the current service |
| ComposeFacts.RunExtends | core.py:104-131 | Until a key line reopens a service, every line only appends to its ports, dependencies and networks |
| ComposeFacts.UnderKeyReads | core.py:106-114 | A line below the key line of a service, with no header or key line in between, is read while that service is current |
| ComposeFacts.RunItemsKept | core.py:114-131 | The port, dependency and network items of a line read into a service stay in its record until the service is reopened |
| ComposeFacts.ParsedItemsRecorded | core.py:104-131 | Completeness: a port item, a dependency item after a `depends_on` line, or a network item after a `networks` line, below a service's key line with no header or key line in between, is in that service's final record unless a later key line reopens it |
| ComposeFacts.PhantomService | core.py:106-119 | For the lines header, `  web:`, `    ports:`, `      - "h:c"`, both keys become records; the port attaches to the `ports` record and `web` stays empty |
| Kube.SepEnd | core.py:144 | A separator found at `i` ends at least five characters later, and the text in between is `\n---`, blanks and a final `\n` |
| Kube.SplitFrom | core.py:144 | The documents and the separators between them interleave back to the text, and there is one more document than separators |
| KubeFacts.SplitDocsRejoin | core.py:144 | The documents of a text, joined with separators, give the text back |
| KubeFacts.NoSeparatorOnePiece | core.py:144 | A text without a separator is a single document |
| KubeFacts.SepEndHasDashes | core.py:144 | A separator has `---` right after its first newline |
| Kube.NameLine | core.py:153 | A name line yields a non-empty name of Kubernetes name characters |
| KubeFacts.KindLineIsNotNameLine | core.py:149-153 | No line is both a kind line and a name line |
| KubeFacts.RunKind | core.py:149-151 | The document's kind is the kind of its last kind line, and there is none without a kind line |
| KubeFacts.RunName | core.py:152-155 | The document has a name exactly when it has a name line, and the name is the one on the first name line |
| KubeFacts.RunPorts | core.py:156-161 | A port is recorded exactly when a scanned line has it as `containerPort`, or as `port` while the kind is already Service |
| KubeFacts.RunServiceType | core.py:162-165 | A service type is recorded exactly when a scanned line matches it while the kind is already Service, and the last such line gives the value |
| KubeFacts.RunIngress | core.py:166-168 | The Ingress flag is set exactly when a scanned line comes after the kind has become Ingress |
| KubeFacts.IngressNameLineNotCounted | core.py:149-155 | A kind `Ingress` line followed by a name line leaves the Ingress flag unset |
| KubeFacts.ParseDocEmits | core.py:169-170 | A document yields a unit exactly when it has a kind line and a name line |
| KubeFacts.ParseDocName | core.py:152-155 | A unit's name is the value of its document's first name line |
| KubeFacts.ParseUnitsShaped | core.py:136-171 | Every unit has a non-empty name of name characters and digit-string ports; its service type, if any, is LoadBalancer or NodePort in any letter case |
| KubeFacts.CollectFromDocs | core.py:146-170 | Every unit comes from one document of the text |
| KubeFacts.CollectHasDoc | core.py:168-169 | Every document with a kind and a name gives its unit |
| KubeFacts.CollectAppend | core.py:146-170 | The units of two runs of documents are those of the first run followed by those of the second, so units keep document order |
| Patterns.Search | core.py:157-164 | A search succeeds exactly when the pattern matches at some position, and it reports the match at the leftmost such position |
| Patterns.MatchAt | core.py:157-164 | A port pattern captures a digit string; the type pattern captures LoadBalancer or NodePort in any letter case |
| Patterns.LitI | core.py:164 | A case-insensitive literal match consumes text that lower-cases to the literal |
| Sniff.SniffEnv | core.py:193-203 | The hints are sorted, and a label is a hint exactly when one of the first twenty candidates is a file whose lower-cased text contains a needle of that label |
| Sniff.MergeKeys | core.py:182 | The merged dependency keys are the keys of both maps, each once |
| Sniff.Frameworks | core.py:183-185 | The frameworks are exactly the keys whose lower-case form is a known framework name |
| Sniff.ScriptPort | core.py:187 | A script yields a port exactly when one of the two patterns matches; the port is a digit string; it is the capture of the leftmost `PORT=` match when there is one, and of the leftmost `--port` match otherwise |
| Sniff.FirstScriptPort | core.py:186-188 | The port is the one of the first script that yields one, and there is none when no script does |
| Sniff.SniffPackage | core.py:175-191 | No manifest gives no frameworks and no port; otherwise the frameworks are exactly the dependency and dev-dependency keys naming a known framework |
| Assembly.ScannedId | core.py:225-241 | No compose service's or Kubernetes unit's node id is the Internet node's id |
| Assembly.DbIdNotInternet | core.py:278 | No database label of the hint table yields the Internet node's id |
| Assembly.KubeNameSafe | core.py:241 | A Kubernetes name is kept unchanged in its node id |
| Assembly.HostPorts | core.py:226 | The host ports of a service are empty exactly when it has no port entries |
| Assembly.DepEdges | core.py:229-232 | One `depends_on` edge per dependency, in list order, each from the service's node to the dependency's node |
| Assembly.AddDepsLinks | core.py:229-232 | Every dependency gets a `depends_on` edge from the service's node to its own node |
| Assembly.AddDeps | core.py:229-232 | The dependency edges are appended after the existing ones, and the graph stays sound: well-formed, closed, and without the Internet node |
| Assembly.AddDepsFacts | core.py:229-232 | Every dependency gets a node, the graph only grows, and the set of public nodes does not change |
| Assembly.AddService | core.py:224-232 | A service keeps the graph sound and adds only `depends_on` edges |
| Assembly.AddServiceFacts | core.py:225-232 | A service's node exists afterwards; a node is public exactly when it was before or it is this service and the service publishes a port; every dependency has its node and the service's `depends_on` edge to it |
| Assembly.AddServices | core.py:224-232 | All services of a file keep the graph sound and add only `depends_on` edges |
| Assembly.AddServicesFacts | core.py:224-232 | Every service of a file has a node, tagged public when it publishes a port |
| Assembly.AddServicesDeps | core.py:224-232 | Every dependency of every service of a file has its node and the service's `depends_on` edge to it |
| Assembly.GrowsKeepsDep | core.py:229-232 | A graph that only grows keeps every dependency node and `depends_on` edge |
| Assembly.AddServicesExposure | core.py:228 | After a file's services some node is public exactly when one was before or some service publishes a port |
| Assembly.ComposeFiles | core.py:222-232 | Every service of every compose file has a node, public when it publishes a port; the exposure flag tracks whether some node is public |
| Assembly.ComposeFilesDeps | core.py:222-232 | Every dependency of every service of every compose file has its node and the service's `depends_on` edge to it |
| Assembly.AddDepsNew | core.py:229-231 | The placeholders add only the nodes of the listed dependencies, each in the compose group |
| Assembly.DepEdgesOwn | core.py:229-232 | Every `depends_on` edge of a service goes from its node to the node of one of its own dependencies |
| Assembly.AddServiceNew | core.py:225-232 | A service adds only its own node and its dependencies' nodes, in the compose group, and only its own `depends_on` edges |
| Assembly.AddServicesNew | core.py:224-232 | The services of a file add only their own and their dependencies' nodes, in the compose group, and only their `depends_on` edges |
| Assembly.ComposeFilesNew | core.py:222-232 | The compose phase adds only nodes of services and dependencies declared in the files, in the compose group, and only their declared `depends_on` edges |
| Assembly.UnitsShaped | core.py:238-239 | Every unit of every manifest has the shape the Kubernetes scanner guarantees |
| Assembly.UnitTags | core.py:245-254 | The tags of a unit's node: `svc` for a Service, `workload` for the three workload kinds, `ingress` for an Ingress; `public` for an Ingress or a typed Service; never `db` |
| Assembly.AddUnit | core.py:240-254 | A unit's node exists with its kind's tags; it is the only node added, in the Kubernetes group when it is new; a node is public exactly when it was before or it is this unit and its tags make it public |
| Assembly.AddUnits | core.py:238-254 | Every unit has a node carrying its kind's tags; no edges are added; the exposure flag tracks whether some node is public |
| Assembly.AddUnitsNew | core.py:238-244 | The Kubernetes phase adds only the nodes of the units, in the Kubernetes group |
| Assembly.VariantsOfBase | core.py:257-260 | A name with a `-svc` or `-service` suffix has the variants of its base, which include `-api` and `-app` forms |
| Assembly.FirstMatch | core.py:265 | The match is a candidate name among the variants, and there is none exactly when no candidate is a variant |
| Assembly.LinkByName | core.py:262-274 | Each source name gets at most one edge, to a target among its variants; every source with a candidate gets one; nodes are unchanged |
| Assembly.AddDbNodes | core.py:276-278 | Every label gets a node tagged `db`; no other node is added, the new ones are external, and no node becomes public |
| Assembly.UsesEdges | core.py:283-285 | The `uses` edges run from exactly the compose nodes and the `svc` or `workload` Kubernetes nodes to the target |
| Assembly.AddUses | core.py:280-285 | Without hints nothing is linked; otherwise the `uses` edges to the first hint's node are appended |
| Assembly.FanOut | core.py:290-292 | The fan-out has an edge from the Internet to exactly every public node other than itself |
| Assembly.AddInternet | core.py:287-292 | Without exposure nothing changes; with it the Internet node is public and external, the other nodes are kept, and the fan-out is appended |
| Assembly.CountsPartition | core.py:295-297 | Every node is counted in exactly one of the three groups |
| Assembly.CountPublicPositive | core.py:298 | The exposure count is positive exactly when some node is public |
| Pipeline.Registry | core.py:219-254 | The compose and Kubernetes phases give a sound graph with only `depends_on` edges, and `internet_needed` holds exactly when some node is public |
| Pipeline.RegistryNodes | core.py:222-254 | Every compose service and every Kubernetes unit is a node in the registry, carrying the tags its source promises |
| Pipeline.RegistryDeps | core.py:222-254 | Every compose dependency has its node and its `depends_on` edge in the registry |
| Pipeline.RegistryOrigins | core.py:222-254 | Every registry node is a declared compose service or dependency in the compose group, or a Kubernetes unit in the Kubernetes group; every registry edge is a declared `depends_on` |
| Pipeline.HintedIsDbLabel | core.py:200-202 | Every env hint is a label of the hint table, and so is not the Internet node |
| Pipeline.HeadIsFirstHint | core.py:282 | The head of the sorted hints is the alphabetically first hint, and it is the only such hint |
| Pipeline.ExposedClosed | core.py:222-292 | Every edge's source and target are nodes of the finished graph |
| Pipeline.InternetNode | core.py:287-289 | The Internet node exists exactly when `internet_needed` holds, and exactly when some other node is public; it is then public and external |
| Pipeline.FanOutExact | core.py:288-292 | The Internet node has an unlabelled edge to a node exactly when that node is public and not itself, and only the Internet node has unlabelled edges |
| Pipeline.ExposureHolds | core.py:287-292 | The finished graph satisfies both the Internet-node property and the fan-out property |
| Pipeline.CountMatchesInternet | core.py:288-303 | The summary reports public endpoints exactly when the graph has the Internet node |
| Pipeline.DbNodesKept | core.py:276-278 | Every env hint has a node tagged `db` in the finished graph |
| Pipeline.UsesLinksSound | core.py:280-285 | Every `uses` edge runs from a compose node or a `svc`/`workload` node to the node of the alphabetically first hint |
| Pipeline.UsesLinksComplete | core.py:280-285 | Every compose node and every `svc`/`workload` node has a `uses` edge to the node of the alphabetically first hint |
| Pipeline.KubeLinks | core.py:262-274 | Each Service has at most one `selects` edge, to a workload among its variants, and has one when a candidate exists; the same holds for each Ingress's `routes` edge to a Service |
| Pipeline.LinkNames | core.py:262-274 | The `selects` pairs and then the `routes` pairs are appended, each valid and one per name |
| Pipeline.RegistryKept | core.py:276-292 | The later phases keep every registry node and its tags |
| Pipeline.ExposedKeepsEdges | core.py:256-292 | The later phases only append edges after those of the registry |
| Pipeline.DepsKept | core.py:256-292 | The later phases keep every compose dependency node and `depends_on` edge |
| Pipeline.ExposedNodesSourced | core.py:276-289 | The later phases add only external nodes: the database node of a reported label and the Internet node |
| Pipeline.ExposedEdgesSourced | core.py:256-292 | The later phases add only `selects`, `routes`, `uses` and unlabelled edges, so every edge has one of the five captions and every `depends_on` edge is a declared dependency |
| Pipeline.ScannedSourced | core.py:219-304 | The finished graph invents nothing: every node has an origin in the repository and lies in that origin's group, and every edge is of one of the five kinds, `depends_on` only for a declared dependency |
| Pipeline.Summed | core.py:294-304 | Setting the summary leaves the nodes and edges untouched |
| Pipeline.Scanned | core.py:207-305 | For any registry and choice of links, the finished graph has every property of `Promised`, including that it has no node or edge without an origin in the repository |
| Pipeline.ScanRepo | core.py:207-305 | The graph returned for a repository has every property of `Promised`: closed edges; all services and units as tagged nodes; every compose dependency as a node with its `depends_on` edge; no other node, each node in the group of its origin; only the five kinds of edge, `depends_on` only for a declared dependency; the exposure, db and `uses` facts; the name links; and the summary |
| Mermaid.ResolveTheme | core.py:312-314 | `auto` becomes `dark` when dark is preferred and `light` otherwise; any other name is kept |
| Mermaid.PresetOf | core.py:312-323 | The dark directive is chosen for `dark` or a dark `auto`, the light one for `light` or a light `auto`, and the plain one for every other name |
| Mermaid.ReadKindRender | core.py:327-378 | Every line the renderer writes is read back from its text alone as the kind of line it is |
| Mermaid.OfRendered | core.py:326-378 | The lines of each kind in the output are, in order, those of the head, the three subgraphs, the edges and the tail |
| Mermaid.DiagramFrame | core.py:326-329 | The output opens with the fence, the theme line and `flowchart LR`, and ends with the closing fence |
| Mermaid.Grouped | core.py:339-357 | The declared nodes are all nodes, each once, with compose nodes before Kubernetes nodes before external ones |
| Mermaid.Members | core.py:340 | A group's items are exactly the nodes of that group |
| Mermaid.MembersPartition | core.py:340 | The three groups' items together are as many as the nodes |
| Mermaid.DiagramDeclarations | core.py:339-357 | There is one declaration line per node, in group order |
| Mermaid.DeclarationShape | core.py:344-346 | A declaration has the quoted id and the escaped label, in `(…)` exactly when the node is tagged `db` and in `[…]` otherwise |
| Mermaid.DiagramEdges | core.py:359-362 | There is one edge line per edge, in insertion order |
| Mermaid.EdgeTextShape | core.py:361-362 | An edge line starts with the quoted source and an arrow, and has no label exactly when the edge's label is empty |
| Mermaid.TitlesDiffer | core.py:355-357 | The three group titles are distinct and none is `Legend` |
| Mermaid.DiagramSubgraph | core.py:339-357 | A group's subgraph line appears exactly when the group has a node |
| Mermaid.DiagramLegend | core.py:364-375 | The legend's lines appear exactly when the legend is requested |
| Mermaid.DiagramClassDefs | core.py:331-337 | The class definitions appear, all five in order, exactly when the style is not plain |
| Mermaid.DiagramClassLines | core.py:339-352 | Outside the plain style the class lines are, in subgraph order, each node's group class, then `public` and `db` when it is so tagged; the plain style writes none |
| Mermaid.PickedItemsClass | core.py:342-352 | The class lines of a subgraph's node lines are those of every node in order in the fancy style, and none in the plain one |
| Mermaid.UnwrapWrap | core.py:383-391 | The diagram can be read back out of the Markdown that wraps it |
| Mermaid.WrapUnwrap | core.py:383-391 | A document that reads back as a diagram is exactly the wrapping of that diagram |

## Left out

- File access is not modelled, because the model works on file contents. This covers `_safe_read`, `glob`, `os.path.isfile` and the directory lists of `scan_repo`. The compose files, the manifests and the env candidates are given as contents.
- UTF-8 decoding with `errors="ignore"` is left out: texts are already strings.
- `json.loads` is not modelled: the manifest arrives parsed. A manifest whose `dependencies`, `devDependencies` or `scripts` is not an object would raise and fall into the `except`; that case is not modelled.
- Python's regex engine is not modelled. Each pattern is a hand-written matcher with these limits:
  - `\s` is the set of `str.isspace`;
  - `\d` and `\w` are ASCII only, so non-ASCII digits and letters are not matched;
  - the `\b` word boundaries use ASCII word characters.
- Text.Lower: lower-cases ASCII capitals and the Kelvin sign only. Other non-ASCII capitals are kept, because Unicode case tables are out of scope.
- Python set iteration order is not modelled. `selects` and `routes` pick the next name and its candidate by arbitrary choice. So `Pipeline.ScanRepo` states what holds for every order Python might use, not which edge a given run draws.
- Pipeline.ScanRepo: the order of the `selects` and `routes` edges is not fixed, for the reason above. Their order is what the source leaves to `set` iteration.
- Kube.SplitDocs: the `"---" in text` guard is not modelled separately. A text without `---` has no separator, so the split gives the same single document.
- The `ingress` flag of a unit is computed and proved (`KubeFacts.RunIngress`), but the assembly ignores it, as the source does.
- Sniff.MergeKeys: its contract states the keys and that each appears once, not their order. The body keeps `a`'s keys first and each key at its first place, and the summary line uses that order, so the order is modelled but not proved.
- Sniff.Frameworks: its contract states which keys are kept, not that they stay in key order, which the body does.
- Sniff.SniffPackage: its contract states only the frameworks. The port is stated by `Sniff.FirstScriptPort`, which computes it.
- Compose.ParseServices: its contract states only that the result is a valid dict. What it records is stated by the `ComposeFacts` lemmas: soundness by the `Parsed…Sourced` lemmas, completeness by `ComposeFacts.ParsedItemsRecorded`, which describes the service a line belongs to through the scan's state (`OpensRecord`) rather than through the text alone.
- The colour and settings strings are opaque, as the `Palette` parameter. No property depends on their content.
- The output is not proved to be free of stray newlines inside a line. A label or an id containing a newline would break a Mermaid line, as it would in the source.
- `cli.py` is not part of this model. It holds argument parsing, writing files and the default `include_legend` rule, which is a plain parameter here.
- `os.getenv` in `_theme_block` is replaced by the parameter `preferDark`.
