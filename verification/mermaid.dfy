/**
 The Mermaid renderer: `_theme_block`, `build_mermaid` and `wrap_markdown`.
 `build_mermaid` appends lines to a list and joins them with newlines. Here
 each line is first a `Line` value saying what it is, and `Render` writes it out
 exactly as the Python f-strings do; `ReadKind` reads the kind back from the
 text alone. The `GITHUB_DARK_MODE`/`DARK`/`THEME_DARK` lookup of the `auto`
 theme is the `preferDark` parameter.
 */
module Mermaid {
  import opened Options
  import opened Text
  import opened Dicts
  import opened Ids
  import opened Topology
  import opened Filters

  // ---------------------------------------------------------------- fixed text

  /** The line prefixes that tell the kinds of line apart. */
  const ClassDefPrefix := "  classDef "
  const ClassPrefix := "    class "
  const DeclarationPrefix := "    \""
  const EdgePrefix := "  \""
  const SubgraphOpen := "  subgraph "
  const LegendItem := "    legend_"
  const LegendMark := "  %% Legend"
  const SubgraphEnd := "  end"
  const Fence := "```mermaid"
  const Flowchart := "flowchart LR"
  const Closing := "```"
  const InitOpen := "%%{init: "

  predicate StartsWith(s: string, p: string) {
    |p| <= |s| && s[..|p|] == p
  }

  // ---------------------------------------------------------------- theme

  /** The three init directives `_theme_block` chooses from. */
  datatype Preset = PlainPreset | DarkPreset | LightPreset

  /** `auto` becomes `dark` or `light` by the environment hint; other names stay. */
  function ResolveTheme(theme: string, preferDark: bool): (t: string)
    ensures t != "auto"
    ensures theme != "auto" ==> t == theme
    ensures theme == "auto" ==> (t == "dark" <==> preferDark) && (t == "light" <==> !preferDark)
  {
    if theme == "auto" then (if preferDark then "dark" else "light") else theme
  }

  /** The preset of a theme name: `dark` and `light` by name, `plain` for `plain` and for any name it does not know. */
  function PresetOf(theme: string, preferDark: bool): (p: Preset)
    ensures p == DarkPreset <==> theme == "dark" || (theme == "auto" && preferDark)
    ensures p == LightPreset <==> theme == "light" || (theme == "auto" && !preferDark)
    ensures p == PlainPreset <==> theme != "auto" && theme != "dark" && theme != "light"
  {
    var t := ResolveTheme(theme, preferDark);
    if t == "plain" then PlainPreset
    else if t == "dark" then DarkPreset
    else if t == "light" then LightPreset
    else PlainPreset
  }

  /**
   The colours and settings the renderer writes verbatim: the settings of the
   three init directives, then the style of each class. Nothing here reads
   them, so they are a parameter; `SourcePalette` holds the values
   `_theme_block` and `build_mermaid` use.
   */
  datatype Palette = Palette(
    plain: string, dark: string, light: string,
    compose: string, k8s: string, external: string, public: string, db: string)

  const SourcePalette := Palette(
    "{'flowchart': {'curve': 'monotoneX'}}}%%",
    "{'theme':'dark','flowchart':{'curve':'monotoneX'},'themeVariables':{'primaryColor':'#0ea5e9','primaryTextColor':'#ffffff','lineColor':'#38bdf8'}}}%%",
    "{'theme':'base','flowchart':{'curve':'monotoneX'},'themeVariables':{'primaryColor':'#0ea5e9','primaryTextColor':'#111827','lineColor':'#0ea5e9'}}}%%",
    "fill:#0ea5e9,stroke:#0369a1,color:#fff,stroke-width:1px;",
    "fill:#22c55e,stroke:#166534,color:#062;",
    "fill:#e2e8f0,stroke:#64748b,color:#111;",
    "stroke-dasharray: 3 2,stroke-width:2px;",
    "fill:#fde68a,stroke:#b45309,color:#3b2f00;")

  /** The directive of a preset: the init opening, then its settings, whose colours are opaque text. */
  function Directive(p: Preset, pal: Palette): string {
    InitOpen + Settings(p, pal)
  }

  function Settings(p: Preset, pal: Palette): string {
    match p
    case PlainPreset => pal.plain
    case DarkPreset => pal.dark
    case LightPreset => pal.light
  }

  /** `_theme_block` */
  function ThemeBlock(theme: string, preferDark: bool, pal: Palette): string {
    Directive(PresetOf(theme, preferDark), pal)
  }

  // ---------------------------------------------------------------- lines

  /** The five classes of the fancy style: one per group, and the `public` and `db` markers. */
  datatype Marker = ComposeClass | K8sClass | ExternalClass | PublicClass | DbClass

  function MarkerName(m: Marker): string {
    match m
    case ComposeClass => "compose"
    case K8sClass => "k8s"
    case ExternalClass => "external"
    case PublicClass => "public"
    case DbClass => "db"
  }

  /** A class definition: its name, then its colours. */
  function MarkerStyle(m: Marker, pal: Palette): string {
    MarkerName(m) + " " + Fill(m, pal)
  }

  function Fill(m: Marker, pal: Palette): string {
    match m
    case ComposeClass => pal.compose
    case K8sClass => pal.k8s
    case ExternalClass => pal.external
    case PublicClass => pal.public
    case DbClass => pal.db
  }

  /** The legend's sample node of a class. */
  function LegendSample(m: Marker): string {
    match m
    case ComposeClass => "compose[Compose]:::compose"
    case K8sClass => "k8s[Kubernetes]:::k8s"
    case ExternalClass => "ext[External]:::external"
    case PublicClass => "pub[Public Exposure]:::public"
    case DbClass => "db(DB Service):::db"
  }

  datatype Line =
    | FenceLine
    | InitLine(preset: Preset)
    | FlowchartLine
    | ClassDefLine(def: Marker)
    | OpenLine(title: string)
    | DeclLine(node: Node)
    | ClassLine(id: string, cls: Marker)
    | EndLine
    | EdgeLine(edge: Edge)
    | LegendMarkLine
    | LegendItemLine(sample: Marker)
    | CloseLine

  function Quoted(id: string): string {
    "\"" + id + "\""
  }

  /** The node's declaration: rounded for a database, square otherwise, with its label escaped. */
  function Declaration(n: Node): string {
    "    " + Quoted(n.id) + (if Db in n.tags then "(" else "[") + Esc(n.caption) + (if Db in n.tags then ")" else "]")
  }

  /** An edge; a non-empty caption is written, escaped, between bars. */
  function EdgeText(e: Edge): string {
    "  " + Quoted(e.src) + " -->" + (if e.caption != "" then " |" + Esc(e.caption) + "|" else "") + " " + Quoted(e.dst)
  }

  /** A line as `build_mermaid` writes it. */
  function Render(l: Line, pal: Palette): string {
    match l
    case FenceLine => Fence
    case InitLine(p) => Directive(p, pal)
    case FlowchartLine => Flowchart
    case ClassDefLine(m) => ClassDefPrefix + MarkerStyle(m, pal)
    case OpenLine(title) => SubgraphOpen + title
    case DeclLine(n) => Declaration(n)
    case ClassLine(id, m) => ClassPrefix + Quoted(id) + " " + MarkerName(m) + ";"
    case EndLine => SubgraphEnd
    case EdgeLine(e) => EdgeText(e)
    case LegendMarkLine => LegendMark
    case LegendItemLine(m) => LegendItem + LegendSample(m)
    case CloseLine => Closing
  }

  /** The text of each line, in order. */
  function Texts(lines: seq<Line>, pal: Palette): (r: seq<string>)
    ensures |r| == |lines|
  {
    if lines == [] then [] else [Render(lines[0], pal)] + Texts(lines[1..], pal)
  }

  lemma {:induction false} TextsAt(lines: seq<Line>, pal: Palette)
    ensures forall i :: 0 <= i < |lines| ==> Texts(lines, pal)[i] == Render(lines[i], pal)
  {
    if lines != [] {
      TextsAt(lines[1..], pal);
    }
  }

  // ---------------------------------------------------------------- the diagram

  /** The class definitions of the fancy style, one per group and marker. */
  const ClassDefs: seq<Line> := [
    ClassDefLine(ComposeClass), ClassDefLine(K8sClass), ClassDefLine(ExternalClass),
    ClassDefLine(PublicClass), ClassDefLine(DbClass)]

  /** The legend: a comment, then a subgraph of one sample node per class. */
  const Legend: seq<Line> := [LegendMarkLine, OpenLine("Legend")] + LegendItems + [EndLine]

  const LegendItems: seq<Line> := [
    LegendItemLine(ComposeClass), LegendItemLine(K8sClass), LegendItemLine(ExternalClass),
    LegendItemLine(PublicClass), LegendItemLine(DbClass)]

  /** Any style but `plain` is the fancy one, with classes. */
  predicate IsFancy(style: string) {
    style != "plain"
  }

  function GroupMarker(gr: Group): Marker {
    match gr
    case Compose => ComposeClass
    case K8s => K8sClass
    case External => ExternalClass
  }

  function GroupTitle(gr: Group): string {
    match gr
    case Compose => "Compose"
    case K8s => "Kubernetes"
    case External => "External"
  }

  /** The class lines of a node in the fancy style: its group, then `public` and `db` when tagged. */
  function ClassLines(n: Node): seq<Line> {
    [ClassLine(n.id, GroupMarker(n.group))]
    + (if Public in n.tags then [ClassLine(n.id, PublicClass)] else [])
    + (if Db in n.tags then [ClassLine(n.id, DbClass)] else [])
  }

  function NodeLines(n: Node, style: string): seq<Line> {
    [DeclLine(n)] + (if IsFancy(style) then ClassLines(n) else [])
  }

  /** `[n for n in g.nodes.values() if n.group == group]`, in insertion order. */
  function Members(nodes: Dict<Node>, keys: seq<string>, gr: Group): (r: seq<Node>)
    requires forall k :: k in keys ==> k in nodes.entries
    ensures forall n :: n in r ==> n.group == gr
    ensures forall k :: k in keys && nodes.entries[k].group == gr ==> nodes.entries[k] in r
    ensures forall n :: n in r ==> exists k :: k in keys && nodes.entries[k] == n
  {
    if keys == [] then []
    else
      var rest := Members(nodes, keys[1..], gr);
      var n := nodes.entries[keys[0]];
      if n.group == gr then [n] + rest else rest
  }

  function ItemLines(items: seq<Node>, style: string): seq<Line> {
    if items == [] then [] else NodeLines(items[0], style) + ItemLines(items[1..], style)
  }

  /** A titled subgraph of `items`, or nothing when there are none. */
  function Section(title: string, items: seq<Node>, style: string): seq<Line> {
    if items == [] then [] else [OpenLine(title)] + ItemLines(items, style) + [EndLine]
  }

  /** The subgraph of one group. */
  function SubgraphLines(nodes: Dict<Node>, gr: Group, style: string): seq<Line>
    requires Valid(nodes)
  {
    Section(GroupTitle(gr), Members(nodes, nodes.keys, gr), style)
  }

  function EdgeLines(edges: seq<Edge>): (r: seq<Line>)
    ensures |r| == |edges|
    ensures forall i :: 0 <= i < |edges| ==> r[i] == EdgeLine(edges[i])
  {
    if edges == [] then [] else [EdgeLine(edges[0])] + EdgeLines(edges[1..])
  }

  function HeadLines(theme: string, preferDark: bool, style: string): seq<Line> {
    [FenceLine, InitLine(PresetOf(theme, preferDark)), FlowchartLine] + (if IsFancy(style) then ClassDefs else [])
  }

  function TailLines(legend: bool): seq<Line> {
    (if legend then Legend else []) + [CloseLine]
  }

  /** The lines `build_mermaid` collects. */
  function MermaidLines(g: Graph, theme: string, preferDark: bool, style: string, legend: bool): seq<Line>
    requires Valid(g.nodes)
  {
    HeadLines(theme, preferDark, style)
    + SubgraphLines(g.nodes, Compose, style) + SubgraphLines(g.nodes, K8s, style) + SubgraphLines(g.nodes, External, style)
    + EdgeLines(g.edges) + TailLines(legend)
  }

  /** The text of those lines. */
  function Rendered(g: Graph, theme: string, preferDark: bool, style: string, legend: bool, pal: Palette): seq<string>
    requires Valid(g.nodes)
  {
    Texts(MermaidLines(g, theme, preferDark, style, legend), pal)
  }

  /** `build_mermaid`: the lines joined by newlines. */
  function BuildMermaid(g: Graph, theme: string, preferDark: bool, style: string, legend: bool, pal: Palette): string
    requires Valid(g.nodes)
  {
    Join(Rendered(g, theme, preferDark, style, legend, pal), "\n")
  }

  /** `wrap_markdown`: the title, the diagram, the summary in `<sub>`, and the footer. */
  function WrapMarkdown(mermaid: string, summary: string): string {
    MarkdownHead + mermaid + MarkdownMiddle + summary + MarkdownFoot
  }

  const MarkdownHead := "# System Architecture (auto-generated)\n\n"
  const MarkdownMiddle := "\n\n<sub>"
  const MarkdownFoot := "</sub>\n\n> Generated by **repo-architecture-map** (zero deps). Edit freely after generation.\n"

  // ---------------------------------------------------------------- reading a line's kind back

  /** What a reader of the diagram tells lines apart by. */
  datatype LineKind = OtherKind | ClassDefKind | OpenKind(title: string) | DeclKind | ClassKind | EdgeKind | LegendKind

  function KindOf(l: Line): LineKind {
    match l
    case ClassDefLine(_) => ClassDefKind
    case OpenLine(t) => OpenKind(t)
    case DeclLine(_) => DeclKind
    case ClassLine(_, _) => ClassKind
    case EdgeLine(_) => EdgeKind
    case LegendMarkLine => LegendKind
    case _ => OtherKind
  }

  /** The kind of a line, from its text alone. */
  function ReadKind(t: string): LineKind {
    if StartsWith(t, ClassDefPrefix) then ClassDefKind
    else if StartsWith(t, SubgraphOpen) then OpenKind(t[|SubgraphOpen|..])
    else if StartsWith(t, ClassPrefix) then ClassKind
    else if StartsWith(t, DeclarationPrefix) then DeclKind
    else if StartsWith(t, EdgePrefix) then EdgeKind
    else if t == LegendMark then LegendKind
    else OtherKind
  }

  /** `t` differs from `p` at index `i`, so it does not start with `p`. */
  lemma Differs(t: string, p: string, i: nat)
    requires i < |p| && (i >= |t| || t[i] != p[i])
    ensures !StartsWith(t, p)
  {
  }

  lemma Prefixed(p: string, rest: string)
    ensures StartsWith(p + rest, p)
    ensures forall i :: 0 <= i < |p| ==> (p + rest)[i] == p[i]
  {
    assert (p + rest)[..|p|] == p;
  }

  /** A text starting with a space-free character is of no counted kind. */
  lemma ReadKindFlush(t: string)
    requires |t| > 0 && t[0] != ' '
    ensures ReadKind(t) == OtherKind
  {
    Differs(t, ClassDefPrefix, 0);
    Differs(t, SubgraphOpen, 0);
    Differs(t, ClassPrefix, 0);
    Differs(t, DeclarationPrefix, 0);
    Differs(t, EdgePrefix, 0);
  }

  /** Two spaces and then a third character `c` that starts no prefix. */
  lemma ClassifyTwoSpaced(t: string)
    requires |t| > 2 && t[0] == ' ' && t[2] != 'c' && t[2] != 's' && t[2] != ' ' && t[2] != '"' && t != LegendMark
    ensures ReadKind(t) == OtherKind
  {
    Differs(t, ClassDefPrefix, 2);
    Differs(t, SubgraphOpen, 2);
    Differs(t, ClassPrefix, 2);
    Differs(t, DeclarationPrefix, 2);
    Differs(t, EdgePrefix, 2);
  }

  lemma ClassifyOpen(title: string)
    ensures ReadKind(SubgraphOpen + title) == OpenKind(title)
  {
    var t := SubgraphOpen + title;
    Prefixed(SubgraphOpen, title);
    Differs(t, ClassDefPrefix, 2);
    assert t[|SubgraphOpen|..] == title;
  }

  lemma ClassifyIndented(p: string, rest: string)
    requires p == ClassPrefix || p == DeclarationPrefix || p == LegendItem
    ensures ReadKind(p + rest) == (if p == ClassPrefix then ClassKind else if p == DeclarationPrefix then DeclKind else OtherKind)
  {
    var t := p + rest;
    Prefixed(p, rest);
    Differs(t, ClassDefPrefix, 2);
    Differs(t, SubgraphOpen, 2);
    Differs(t, EdgePrefix, 2);
    if p != ClassPrefix {
      Differs(t, ClassPrefix, 4);
    }
    if p == LegendItem {
      Differs(t, DeclarationPrefix, 4);
      assert t[2] != LegendMark[2];
    }
  }

  lemma ClassifyEdge(rest: string)
    ensures ReadKind(EdgePrefix + rest) == EdgeKind
  {
    var t := EdgePrefix + rest;
    Prefixed(EdgePrefix, rest);
    Differs(t, ClassDefPrefix, 2);
    Differs(t, SubgraphOpen, 2);
    Differs(t, ClassPrefix, 2);
    Differs(t, DeclarationPrefix, 2);
  }

  lemma ClassifyClassDef(rest: string)
    ensures ReadKind(ClassDefPrefix + rest) == ClassDefKind
  {
    Prefixed(ClassDefPrefix, rest);
  }

  lemma ClassifyInit(rest: string)
    ensures ReadKind(InitOpen + rest) == OtherKind
  {
    Prefixed(InitOpen, rest);
    ReadKindFlush(InitOpen + rest);
  }

  lemma ClassifyDeclaration(n: Node)
    ensures ReadKind(Declaration(n)) == DeclKind
  {
    var rest := n.id + "\"" + (if Db in n.tags then "(" else "[") + Esc(n.caption) + (if Db in n.tags then ")" else "]");
    assert Declaration(n) == DeclarationPrefix + rest;
    ClassifyIndented(DeclarationPrefix, rest);
  }

  lemma ClassifyClassLine(id: string, m: Marker, pal: Palette)
    ensures ReadKind(Render(ClassLine(id, m), pal)) == ClassKind
  {
    assert Render(ClassLine(id, m), pal) == ClassPrefix + (Quoted(id) + " " + MarkerName(m) + ";");
    ClassifyIndented(ClassPrefix, Quoted(id) + " " + MarkerName(m) + ";");
  }

  lemma ClassifyEdgeText(e: Edge)
    ensures ReadKind(EdgeText(e)) == EdgeKind
  {
    var rest := e.src + "\" -->" + (if e.caption != "" then " |" + Esc(e.caption) + "|" else "") + " " + Quoted(e.dst);
    assert EdgeText(e) == EdgePrefix + rest;
    ClassifyEdge(rest);
  }

  lemma ClassifyLegendMark()
    ensures ReadKind(LegendMark) == LegendKind
  {
    Differs(LegendMark, ClassDefPrefix, 2);
    Differs(LegendMark, SubgraphOpen, 2);
    Differs(LegendMark, ClassPrefix, 2);
    Differs(LegendMark, DeclarationPrefix, 2);
    Differs(LegendMark, EdgePrefix, 2);
  }

  /** Reading a rendered line gives back the kind it was written as. */
  lemma ReadKindRender(l: Line, pal: Palette)
    ensures ReadKind(Render(l, pal)) == KindOf(l)
  {
    match l
    case FenceLine => ReadKindFlush(Fence);
    case InitLine(p) => ClassifyInit(Settings(p, pal));
    case FlowchartLine => ReadKindFlush(Flowchart);
    case ClassDefLine(m) => ClassifyClassDef(MarkerStyle(m, pal));
    case OpenLine(title) => ClassifyOpen(title);
    case DeclLine(n) => ClassifyDeclaration(n);
    case ClassLine(id, m) => ClassifyClassLine(id, m, pal);
    case EndLine => ClassifyTwoSpaced(SubgraphEnd);
    case EdgeLine(e) => ClassifyEdgeText(e);
    case LegendMarkLine => ClassifyLegendMark();
    case LegendItemLine(m) => ClassifyIndented(LegendItem, LegendSample(m));
    case CloseLine => ReadKindFlush(Closing);
  }

  // ---------------------------------------------------------------- what the diagram shows

  /** Selects the texts a reader classifies as `k`. */
  function ReadsAs(k: LineKind): string -> bool {
    t => ReadKind(t) == k
  }

  /** Selects the lines written as kind `k`. */
  function WrittenAs(k: LineKind): Line -> bool {
    l => KindOf(l) == k
  }

  /** The texts of `ts` a reader classifies as `k`, in order. */
  function Of(ts: seq<string>, k: LineKind): seq<string> {
    Filter(ts, ReadsAs(k))
  }

  lemma OfMember(ts: seq<string>, k: LineKind, t: string)
    ensures t in Of(ts, k) <==> t in ts && ReadKind(t) == k
  {
    FilterMember(ts, ReadsAs(k), t);
  }

  /** The lines of `lines` written as kind `k`, in order. */
  function Picked(lines: seq<Line>, k: LineKind): seq<Line> {
    Filter(lines, WrittenAs(k))
  }

  lemma PickedAppend(a: seq<Line>, b: seq<Line>, k: LineKind)
    ensures Picked(a + b, k) == Picked(a, k) + Picked(b, k)
  {
    FilterAppend(a, b, WrittenAs(k));
  }

  /** Lines all of one kind are picked whole for that kind and not at all for another. */
  lemma PickedUniform(lines: seq<Line>, k0: LineKind, k: LineKind)
    requires forall i :: 0 <= i < |lines| ==> KindOf(lines[i]) == k0
    ensures Picked(lines, k) == if k == k0 then lines else []
  {
    FilterUniform(lines, WrittenAs(k), k == k0);
  }

  lemma {:induction false} TextsAppend(a: seq<Line>, b: seq<Line>, pal: Palette)
    ensures Texts(a + b, pal) == Texts(a, pal) + Texts(b, pal)
  {
    if a == [] {
      assert a + b == b;
    } else {
      assert (a + b)[0] == a[0] && (a + b)[1..] == a[1..] + b;
      TextsAppend(a[1..], b, pal);
    }
  }

  /** Filtering the text by the kind it reads as is filtering the lines by the kind they were written as. */
  lemma {:induction false} OfTexts(lines: seq<Line>, k: LineKind, pal: Palette)
    ensures Of(Texts(lines, pal), k) == Texts(Picked(lines, k), pal)
  {
    if lines != [] {
      ReadKindRender(lines[0], pal);
      assert Texts(lines, pal)[0] == Render(lines[0], pal) && Texts(lines, pal)[1..] == Texts(lines[1..], pal);
      OfTexts(lines[1..], k, pal);
      TextsAppend(if KindOf(lines[0]) == k then [lines[0]] else [], Picked(lines[1..], k), pal);
    }
  }

  function DeclLines(items: seq<Node>): (r: seq<Line>)
    ensures |r| == |items|
    ensures forall i :: 0 <= i < |items| ==> r[i] == DeclLine(items[i])
  {
    if items == [] then [] else [DeclLine(items[0])] + DeclLines(items[1..])
  }

  lemma {:induction false} DeclLinesAppend(a: seq<Node>, b: seq<Node>)
    ensures DeclLines(a + b) == DeclLines(a) + DeclLines(b)
  {
    if a == [] {
      assert a + b == b;
    } else {
      assert (a + b)[0] == a[0] && (a + b)[1..] == a[1..] + b;
      DeclLinesAppend(a[1..], b);
      assert DeclLines(a + b) == [DeclLine(a[0])] + DeclLines(a[1..] + b);
    }
  }

  lemma PickedHead(theme: string, preferDark: bool, style: string, k: LineKind)
    requires k != OtherKind
    ensures Picked(HeadLines(theme, preferDark, style), k) == if k == ClassDefKind && IsFancy(style) then ClassDefs else []
  {
    var frame := [FenceLine, InitLine(PresetOf(theme, preferDark)), FlowchartLine];
    PickedUniform(frame, OtherKind, k);
    PickedUniform(ClassDefs, ClassDefKind, k);
    PickedAppend(frame, if IsFancy(style) then ClassDefs else [], k);
  }

  lemma PickedOne(l: Line, k: LineKind)
    ensures Picked([l], k) == if KindOf(l) == k then [l] else []
  {
    PickedUniform([l], KindOf(l), k);
  }

  lemma PickedLegend(k: LineKind)
    requires k != OtherKind
    ensures Picked(Legend, k) ==
      if k == LegendKind then [LegendMarkLine] else if k == OpenKind("Legend") then [OpenLine("Legend")] else []
  {
    var rest := LegendItems + [EndLine];
    assert forall i :: 0 <= i < |rest| ==> KindOf(rest[i]) == OtherKind;
    assert Legend == [LegendMarkLine, OpenLine("Legend")] + rest;
    PickedPair(LegendMarkLine, OpenLine("Legend"), rest, k);
    PickedOne(LegendMarkLine, k);
    PickedOne(OpenLine("Legend"), k);
  }

  /** Two lines ahead of lines no kind but `OtherKind` picks. */
  lemma PickedPair(a: Line, b: Line, rest: seq<Line>, k: LineKind)
    requires k != OtherKind
    requires forall i :: 0 <= i < |rest| ==> KindOf(rest[i]) == OtherKind
    ensures Picked([a, b] + rest, k) == Picked([a], k) + Picked([b], k)
  {
    PickedUniform(rest, OtherKind, k);
    PickedAppend([a, b], rest, k);
    assert [a] + [b] == [a, b];
    PickedAppend([a], [b], k);
  }

  lemma PickedTail(legend: bool, k: LineKind)
    requires k != OtherKind
    ensures Picked(TailLines(legend), k) ==
      if legend && k == LegendKind then [LegendMarkLine]
      else if legend && k == OpenKind("Legend") then [OpenLine("Legend")]
      else []
  {
    PickedOne(CloseLine, k);
    if legend {
      PickedLegend(k);
    }
    PickedAppend(if legend then Legend else [], [CloseLine], k);
  }

  lemma PickedEdges(edges: seq<Edge>, k: LineKind)
    ensures Picked(EdgeLines(edges), k) == if k == EdgeKind then EdgeLines(edges) else []
  {
    PickedUniform(EdgeLines(edges), EdgeKind, k);
  }

  /** The lines one node contributes, split into its declaration and its class lines. */
  lemma NodeLinesSplit(n: Node, style: string)
    ensures NodeLines(n, style) == [DeclLine(n)] + (if IsFancy(style) then ClassLines(n) else [])
    ensures forall i :: 0 <= i < |ClassLines(n)| ==> KindOf(ClassLines(n)[i]) == ClassKind
  {
  }

  lemma {:induction false} PickedItemsDecl(items: seq<Node>, style: string)
    ensures Picked(ItemLines(items, style), DeclKind) == DeclLines(items)
  {
    if items != [] {
      var n := items[0];
      NodeLinesSplit(n, style);
      PickedItemsDecl(items[1..], style);
      PickedAppend(NodeLines(n, style), ItemLines(items[1..], style), DeclKind);
      PickedAppend([DeclLine(n)], if IsFancy(style) then ClassLines(n) else [], DeclKind);
      PickedOne(DeclLine(n), DeclKind);
      PickedUniform(if IsFancy(style) then ClassLines(n) else [], ClassKind, DeclKind);
    }
  }

  /** The class lines of `items`, node by node. */
  function AllClassLines(items: seq<Node>): seq<Line> {
    if items == [] then [] else ClassLines(items[0]) + AllClassLines(items[1..])
  }

  lemma {:induction false} AllClassLinesAppend(a: seq<Node>, b: seq<Node>)
    ensures AllClassLines(a + b) == AllClassLines(a) + AllClassLines(b)
  {
    if a == [] {
      assert a + b == b;
    } else {
      assert (a + b)[0] == a[0] && (a + b)[1..] == a[1..] + b;
      AllClassLinesAppend(a[1..], b);
    }
  }

  /** The class lines among the node lines are, in the fancy style, those of every node in order, and none in the plain one. */
  lemma {:induction false} PickedItemsClass(items: seq<Node>, style: string)
    ensures Picked(ItemLines(items, style), ClassKind) == if IsFancy(style) then AllClassLines(items) else []
  {
    if items != [] {
      var n := items[0];
      var cls := if IsFancy(style) then ClassLines(n) else [];
      NodeLinesSplit(n, style);
      PickedItemsClass(items[1..], style);
      PickedAppend(NodeLines(n, style), ItemLines(items[1..], style), ClassKind);
      PickedAppend([DeclLine(n)], cls, ClassKind);
      PickedOne(DeclLine(n), ClassKind);
      PickedUniform(cls, ClassKind, ClassKind);
      assert Picked(NodeLines(n, style), ClassKind) == cls;
    }
  }

  /** Every node has at least its group's class line. */
  lemma {:induction false} AllClassLinesEmpty(items: seq<Node>)
    ensures AllClassLines(items) == [] <==> items == []
  {
    if items != [] {
      assert |ClassLines(items[0])| >= 1;
    }
  }

  /** Node lines hold only declarations and class lines. */
  lemma {:induction false} PickedItemsOther(items: seq<Node>, style: string, k: LineKind)
    requires k != DeclKind && k != ClassKind
    ensures Picked(ItemLines(items, style), k) == []
  {
    if items != [] {
      var n := items[0];
      NodeLinesSplit(n, style);
      PickedItemsOther(items[1..], style, k);
      PickedAppend(NodeLines(n, style), ItemLines(items[1..], style), k);
      PickedAppend([DeclLine(n)], if IsFancy(style) then ClassLines(n) else [], k);
      PickedOne(DeclLine(n), k);
      PickedUniform(if IsFancy(style) then ClassLines(n) else [], ClassKind, k);
    }
  }

  /** A section picked by kind is its opening, its end and what its node lines give. */
  lemma PickedSectionSplit(title: string, items: seq<Node>, style: string, k: LineKind)
    ensures Picked(Section(title, items, style), k) ==
      if items == [] then []
      else Picked([OpenLine(title)], k) + Picked(ItemLines(items, style), k) + Picked([EndLine], k)
  {
    if items != [] {
      var open := [OpenLine(title)];
      PickedAppend(open + ItemLines(items, style), [EndLine], k);
      PickedAppend(open, ItemLines(items, style), k);
    }
  }

  lemma PickedSectionDecl(title: string, items: seq<Node>, style: string)
    ensures Picked(Section(title, items, style), DeclKind) == DeclLines(items)
  {
    PickedSectionSplit(title, items, style, DeclKind);
    PickedItemsDecl(items, style);
    PickedOne(OpenLine(title), DeclKind);
    PickedOne(EndLine, DeclKind);
  }

  lemma PickedSectionClass(title: string, items: seq<Node>, style: string)
    ensures Picked(Section(title, items, style), ClassKind) == if IsFancy(style) then AllClassLines(items) else []
    ensures Picked(Section(title, items, style), ClassKind) != [] <==> IsFancy(style) && items != []
  {
    PickedSectionSplit(title, items, style, ClassKind);
    PickedItemsClass(items, style);
    AllClassLinesEmpty(items);
    PickedOne(OpenLine(title), ClassKind);
    PickedOne(EndLine, ClassKind);
  }

  lemma PickedSectionOpen(title: string, items: seq<Node>, style: string, t: string)
    ensures Picked(Section(title, items, style), OpenKind(t)) == if items != [] && t == title then [OpenLine(t)] else []
  {
    PickedSectionSplit(title, items, style, OpenKind(t));
    PickedItemsOther(items, style, OpenKind(t));
    PickedOne(OpenLine(title), OpenKind(t));
    PickedOne(EndLine, OpenKind(t));
  }

  /** Sections hold no class definitions, edges or legend comment. */
  lemma PickedSectionOther(title: string, items: seq<Node>, style: string, k: LineKind)
    requires k == ClassDefKind || k == EdgeKind || k == LegendKind
    ensures Picked(Section(title, items, style), k) == []
  {
    PickedSectionSplit(title, items, style, k);
    PickedItemsOther(items, style, k);
    PickedOne(OpenLine(title), k);
    PickedOne(EndLine, k);
  }

  // ---------------------------------------------------------------- the diagram, read back

  function GroupRank(gr: Group): nat {
    match gr
    case Compose => 0
    case K8s => 1
    case External => 2
  }

  lemma {:induction false} MembersPartition(nodes: Dict<Node>, keys: seq<string>)
    requires forall k :: k in keys ==> k in nodes.entries
    ensures |Members(nodes, keys, Compose)| + |Members(nodes, keys, K8s)| + |Members(nodes, keys, External)| == |keys|
  {
    if keys != [] {
      MembersPartition(nodes, keys[1..]);
    }
  }

  /** Nodes listed group by group come in group order. */
  lemma {:induction false} RankedConcat(c: seq<Node>, k: seq<Node>, e: seq<Node>)
    requires forall n :: n in c ==> n.group == Compose
    requires forall n :: n in k ==> n.group == K8s
    requires forall n :: n in e ==> n.group == External
    ensures forall i, j :: 0 <= i < j < |c + k + e| ==> GroupRank((c + k + e)[i].group) <= GroupRank((c + k + e)[j].group)
  {
    var r := c + k + e;
    forall i | 0 <= i < |r|
      ensures GroupRank(r[i].group) == if i < |c| then 0 else if i < |c| + |k| then 1 else 2
    {
      if i < |c| {
        assert r[i] == c[i];
      } else if i < |c| + |k| {
        assert r[i] == k[i - |c|];
      } else {
        assert r[i] == e[i - |c| - |k|];
      }
    }
  }

  /** The nodes in the order the diagram declares them: the Compose subgraph, then Kubernetes, then External. */
  function Grouped(nodes: Dict<Node>): (r: seq<Node>)
    requires Valid(nodes)
    ensures |r| == |nodes.keys|
    ensures forall k :: k in nodes.keys ==> nodes.entries[k] in r
    ensures forall n :: n in r ==> exists k :: k in nodes.keys && nodes.entries[k] == n
    ensures forall i, j :: 0 <= i < j < |r| ==> GroupRank(r[i].group) <= GroupRank(r[j].group)
  {
    MembersPartition(nodes, nodes.keys);
    var c := Members(nodes, nodes.keys, Compose);
    var k := Members(nodes, nodes.keys, K8s);
    var e := Members(nodes, nodes.keys, External);
    RankedConcat(c, k, e);
    MembersCover(nodes, c, k, e);
    c + k + e
  }

  /** Every node lies in one of the three groups, so the three member lists hold every node and nothing else. */
  lemma MembersCover(nodes: Dict<Node>, c: seq<Node>, k: seq<Node>, e: seq<Node>)
    requires Valid(nodes)
    requires c == Members(nodes, nodes.keys, Compose)
    requires k == Members(nodes, nodes.keys, K8s)
    requires e == Members(nodes, nodes.keys, External)
    ensures forall key :: key in nodes.keys ==> nodes.entries[key] in c + k + e
    ensures forall n :: n in c + k + e ==> exists key :: key in nodes.keys && nodes.entries[key] == n
  {
    forall key | key in nodes.keys ensures nodes.entries[key] in c + k + e {
      var n := nodes.entries[key];
      match n.group
      case Compose => assert n in c;
      case K8s => assert n in k;
      case External => assert n in e;
    }
    forall n | n in c + k + e ensures exists key :: key in nodes.keys && nodes.entries[key] == n {
      assert n in c || n in k || n in e;
    }
  }

  /** The texts of one kind in lines made of six parts, part by part. */
  lemma OfSixParts(h: seq<Line>, c: seq<Line>, k: seq<Line>, x: seq<Line>, ed: seq<Line>, t: seq<Line>, kind: LineKind, pal: Palette)
    ensures Of(Texts(h + c + k + x + ed + t, pal), kind) ==
      Texts(Picked(h, kind) + Picked(c, kind) + Picked(k, kind) + Picked(x, kind) + Picked(ed, kind) + Picked(t, kind), pal)
  {
    OfTexts(h + c + k + x + ed + t, kind, pal);
    PickedAppend(h + c + k + x + ed, t, kind);
    PickedAppend(h + c + k + x, ed, kind);
    PickedAppend(h + c + k, x, kind);
    PickedAppend(h + c, k, kind);
    PickedAppend(h, c, kind);
  }

  /** The texts of one kind in the rendered diagram, section by section. */
  lemma OfRendered(g: Graph, theme: string, preferDark: bool, style: string, legend: bool, k: LineKind, pal: Palette)
    requires Valid(g.nodes)
    ensures Of(Rendered(g, theme, preferDark, style, legend, pal), k) == Texts(
      Picked(HeadLines(theme, preferDark, style), k)
      + Picked(SubgraphLines(g.nodes, Compose, style), k)
      + Picked(SubgraphLines(g.nodes, K8s, style), k)
      + Picked(SubgraphLines(g.nodes, External, style), k)
      + Picked(EdgeLines(g.edges), k)
      + Picked(TailLines(legend), k), pal)
  {
    var h := HeadLines(theme, preferDark, style);
    var c := SubgraphLines(g.nodes, Compose, style);
    var ks := SubgraphLines(g.nodes, K8s, style);
    var x := SubgraphLines(g.nodes, External, style);
    var ed := EdgeLines(g.edges);
    var t := TailLines(legend);
    assert MermaidLines(g, theme, preferDark, style, legend) == h + c + ks + x + ed + t;
    OfSixParts(h, c, ks, x, ed, t, k, pal);
  }

  /** Six parts concatenate to the non-empty ones, for the patterns of empty parts the renderer produces. */
  lemma OnlyParts(a: seq<Line>, b: seq<Line>, c: seq<Line>, d: seq<Line>, e: seq<Line>, f: seq<Line>)
    ensures a == [] && e == [] && f == [] ==> a + b + c + d + e + f == b + c + d
    ensures b == [] && c == [] && d == [] && e == [] && f == [] ==> a + b + c + d + e + f == a
    ensures a == [] && b == [] && c == [] && d == [] && f == [] ==> a + b + c + d + e + f == e
    ensures a == [] && b == [] && c == [] && d == [] && e == [] ==> a + b + c + d + e + f == f
  {
  }

  /** The diagram declares every node once, in subgraph order, and nothing else reads as a declaration. */
  lemma DiagramDeclarations(g: Graph, theme: string, preferDark: bool, style: string, legend: bool, pal: Palette)
    requires Valid(g.nodes)
    ensures var decls := Of(Rendered(g, theme, preferDark, style, legend, pal), DeclKind);
      && |decls| == |g.nodes.keys|
      && forall i :: 0 <= i < |decls| ==> decls[i] == Declaration(Grouped(g.nodes)[i])
  {
    var nodes := g.nodes;
    var c := Members(nodes, nodes.keys, Compose);
    var k := Members(nodes, nodes.keys, K8s);
    var e := Members(nodes, nodes.keys, External);
    OfRendered(g, theme, preferDark, style, legend, DeclKind, pal);
    PickedHead(theme, preferDark, style, DeclKind);
    PickedSectionDecl(GroupTitle(Compose), c, style);
    PickedSectionDecl(GroupTitle(K8s), k, style);
    PickedSectionDecl(GroupTitle(External), e, style);
    PickedEdges(g.edges, DeclKind);
    PickedTail(legend, DeclKind);
    OnlyParts(Picked(HeadLines(theme, preferDark, style), DeclKind), DeclLines(c), DeclLines(k), DeclLines(e),
      Picked(EdgeLines(g.edges), DeclKind), Picked(TailLines(legend), DeclKind));
    DeclLinesAppend(c, k);
    DeclLinesAppend(c + k, e);
    DeclTexts(Grouped(nodes), pal);
  }

  lemma DeclTexts(items: seq<Node>, pal: Palette)
    ensures |Texts(DeclLines(items), pal)| == |items|
    ensures forall i :: 0 <= i < |items| ==> Texts(DeclLines(items), pal)[i] == Declaration(items[i])
  {
    TextsAt(DeclLines(items), pal);
  }

  /** One line per edge, in insertion order, and nothing else reads as an edge. */
  lemma DiagramEdges(g: Graph, theme: string, preferDark: bool, style: string, legend: bool, pal: Palette)
    requires Valid(g.nodes)
    ensures var lines := Of(Rendered(g, theme, preferDark, style, legend, pal), EdgeKind);
      && |lines| == |g.edges|
      && forall i :: 0 <= i < |lines| ==> lines[i] == EdgeText(g.edges[i])
  {
    var nodes := g.nodes;
    OfRendered(g, theme, preferDark, style, legend, EdgeKind, pal);
    PickedHead(theme, preferDark, style, EdgeKind);
    PickedSectionOther(GroupTitle(Compose), Members(nodes, nodes.keys, Compose), style, EdgeKind);
    PickedSectionOther(GroupTitle(K8s), Members(nodes, nodes.keys, K8s), style, EdgeKind);
    PickedSectionOther(GroupTitle(External), Members(nodes, nodes.keys, External), style, EdgeKind);
    PickedEdges(g.edges, EdgeKind);
    PickedTail(legend, EdgeKind);
    OnlyParts(Picked(HeadLines(theme, preferDark, style), EdgeKind),
      Picked(SubgraphLines(nodes, Compose, style), EdgeKind),
      Picked(SubgraphLines(nodes, K8s, style), EdgeKind),
      Picked(SubgraphLines(nodes, External, style), EdgeKind),
      EdgeLines(g.edges), Picked(TailLines(legend), EdgeKind));
    EdgeTexts(g.edges, pal);
  }

  lemma EdgeTexts(edges: seq<Edge>, pal: Palette)
    ensures |Texts(EdgeLines(edges), pal)| == |edges|
    ensures forall i :: 0 <= i < |edges| ==> Texts(EdgeLines(edges), pal)[i] == EdgeText(edges[i])
  {
    TextsAt(EdgeLines(edges), pal);
  }

  /** Every group's title differs from the others' and from the legend's. */
  lemma TitlesDiffer(gr: Group, other: Group)
    ensures GroupTitle(gr) == GroupTitle(other) <==> gr == other
    ensures GroupTitle(gr) != "Legend"
  {
  }

  lemma MembersEmpty(nodes: Dict<Node>, gr: Group)
    requires Valid(nodes)
    ensures Members(nodes, nodes.keys, gr) != [] <==> exists k :: k in nodes.keys && nodes.entries[k].group == gr
  {
    var items := Members(nodes, nodes.keys, gr);
    if items != [] {
      assert items[0] in items;
    }
  }

  lemma TextsOne(l: Line, pal: Palette)
    ensures Texts([l], pal) == [Render(l, pal)]
  {
  }

  /** A text of kind `k` is in `ts` exactly when it is among the texts of that kind. */
  lemma Present(ts: seq<string>, k: LineKind, t: string, picked: seq<string>)
    requires Of(ts, k) == picked && ReadKind(t) == k
    ensures t in ts <==> t in picked
  {
    OfMember(ts, k, t);
  }

  /** Only a group's own subgraph opens with its title. */
  lemma SectionOpenFor(nodes: Dict<Node>, gr: Group, other: Group, style: string)
    requires Valid(nodes)
    ensures Picked(SubgraphLines(nodes, other, style), OpenKind(GroupTitle(gr))) ==
      if gr == other then Picked(SubgraphLines(nodes, gr, style), OpenKind(GroupTitle(gr))) else []
  {
    TitlesDiffer(gr, other);
    PickedSectionOpen(GroupTitle(other), Members(nodes, nodes.keys, other), style, GroupTitle(gr));
  }

  lemma OpenOutsideBody(theme: string, preferDark: bool, style: string, edges: seq<Edge>, legend: bool, gr: Group)
    ensures Picked(HeadLines(theme, preferDark, style), OpenKind(GroupTitle(gr))) == []
    ensures Picked(EdgeLines(edges), OpenKind(GroupTitle(gr))) == []
    ensures Picked(TailLines(legend), OpenKind(GroupTitle(gr))) == []
  {
    TitlesDiffer(gr, gr);
    PickedHead(theme, preferDark, style, OpenKind(GroupTitle(gr)));
    PickedEdges(edges, OpenKind(GroupTitle(gr)));
    PickedTail(legend, OpenKind(GroupTitle(gr)));
  }

  /** The opening lines for a title come from that group's subgraph alone. */
  lemma OpenedBy(g: Graph, theme: string, preferDark: bool, style: string, legend: bool, gr: Group, pal: Palette)
    requires Valid(g.nodes)
    ensures Of(Rendered(g, theme, preferDark, style, legend, pal), OpenKind(GroupTitle(gr)))
      == Texts(Picked(SubgraphLines(g.nodes, gr, style), OpenKind(GroupTitle(gr))), pal)
  {
    var nodes := g.nodes;
    var k := OpenKind(GroupTitle(gr));
    OfRendered(g, theme, preferDark, style, legend, k, pal);
    OpenOutsideBody(theme, preferDark, style, g.edges, legend, gr);
    SectionOpenFor(nodes, gr, Compose, style);
    SectionOpenFor(nodes, gr, K8s, style);
    SectionOpenFor(nodes, gr, External, style);
    SoleSection(Picked(HeadLines(theme, preferDark, style), k),
      Picked(SubgraphLines(nodes, Compose, style), k),
      Picked(SubgraphLines(nodes, K8s, style), k),
      Picked(SubgraphLines(nodes, External, style), k),
      Picked(EdgeLines(g.edges), k), Picked(TailLines(legend), k),
      gr, Picked(SubgraphLines(nodes, gr, style), k));
  }

  /** Six parts of which only the subgraph of `gr` is non-empty. */
  lemma SoleSection(a: seq<Line>, b: seq<Line>, c: seq<Line>, d: seq<Line>, e: seq<Line>, f: seq<Line>, gr: Group, own: seq<Line>)
    requires a == [] && e == [] && f == []
    requires b == (if gr == Compose then own else [])
    requires c == (if gr == K8s then own else [])
    requires d == (if gr == External then own else [])
    ensures a + b + c + d + e + f == own
  {
    match gr
    case Compose => assert b + c + d == own + [] + [];
    case K8s => assert b + c + d == [] + own + [];
    case External => assert b + c + d == [] + [] + own;
  }

  /** A group's subgraph is opened exactly when the group has a node. */
  lemma DiagramSubgraph(g: Graph, theme: string, preferDark: bool, style: string, legend: bool, gr: Group, pal: Palette)
    requires Valid(g.nodes)
    ensures SubgraphOpen + GroupTitle(gr) in Rendered(g, theme, preferDark, style, legend, pal)
      <==> exists k :: k in g.nodes.keys && g.nodes.entries[k].group == gr
  {
    var title := GroupTitle(gr);
    OpenedBy(g, theme, preferDark, style, legend, gr, pal);
    SubgraphOpened(g.nodes, gr, style, pal);
    ClassifyOpen(title);
    Present(Rendered(g, theme, preferDark, style, legend, pal), OpenKind(title), SubgraphOpen + title,
      Texts(Picked(SubgraphLines(g.nodes, gr, style), OpenKind(title)), pal));
  }

  lemma SubgraphOpened(nodes: Dict<Node>, gr: Group, style: string, pal: Palette)
    requires Valid(nodes)
    ensures SubgraphOpen + GroupTitle(gr) in Texts(Picked(SubgraphLines(nodes, gr, style), OpenKind(GroupTitle(gr))), pal)
      <==> exists k :: k in nodes.keys && nodes.entries[k].group == gr
  {
    SectionOpened(GroupTitle(gr), Members(nodes, nodes.keys, gr), style, pal);
    MembersEmpty(nodes, gr);
  }

  /** A section writes its opening line exactly when it has items. */
  lemma SectionOpened(title: string, items: seq<Node>, style: string, pal: Palette)
    ensures SubgraphOpen + title in Texts(Picked(Section(title, items, style), OpenKind(title)), pal) <==> items != []
  {
    PickedSectionOpen(title, items, style, title);
    TextsOne(OpenLine(title), pal);
  }

  /** The legend comment and the legend subgraph are there exactly when the legend is asked for. */
  lemma DiagramLegend(g: Graph, theme: string, preferDark: bool, style: string, legend: bool, pal: Palette)
    requires Valid(g.nodes)
    ensures LegendMark in Rendered(g, theme, preferDark, style, legend, pal) <==> legend
    ensures SubgraphOpen + "Legend" in Rendered(g, theme, preferDark, style, legend, pal) <==> legend
  {
    var r := Rendered(g, theme, preferDark, style, legend, pal);
    LegendTexts(g, theme, preferDark, style, legend, pal);
    ClassifyLegendMark();
    ClassifyOpen("Legend");
    Present(r, LegendKind, LegendMark, if legend then [LegendMark] else []);
    Present(r, OpenKind("Legend"), SubgraphOpen + "Legend", if legend then [SubgraphOpen + "Legend"] else []);
  }

  lemma LegendTexts(g: Graph, theme: string, preferDark: bool, style: string, legend: bool, pal: Palette)
    requires Valid(g.nodes)
    ensures Of(Rendered(g, theme, preferDark, style, legend, pal), LegendKind) == if legend then [LegendMark] else []
    ensures Of(Rendered(g, theme, preferDark, style, legend, pal), OpenKind("Legend")) == if legend then [SubgraphOpen + "Legend"] else []
  {
    LegendShown(g, theme, preferDark, style, legend, LegendKind, pal);
    LegendShown(g, theme, preferDark, style, legend, OpenKind("Legend"), pal);
    TailTexts(legend, pal);
  }

  lemma TailTexts(legend: bool, pal: Palette)
    ensures Texts(Picked(TailLines(legend), LegendKind), pal) == if legend then [LegendMark] else []
    ensures Texts(Picked(TailLines(legend), OpenKind("Legend")), pal) == if legend then [SubgraphOpen + "Legend"] else []
  {
    PickedTail(legend, LegendKind);
    PickedTail(legend, OpenKind("Legend"));
    TextsOne(LegendMarkLine, pal);
    TextsOne(OpenLine("Legend"), pal);
  }

  lemma LegendShown(g: Graph, theme: string, preferDark: bool, style: string, legend: bool, k: LineKind, pal: Palette)
    requires Valid(g.nodes)
    requires k == LegendKind || k == OpenKind("Legend")
    ensures Of(Rendered(g, theme, preferDark, style, legend, pal), k) == Texts(Picked(TailLines(legend), k), pal)
  {
    var nodes := g.nodes;
    OfRendered(g, theme, preferDark, style, legend, k, pal);
    PickedHead(theme, preferDark, style, k);
    if k == LegendKind {
      PickedSectionOther(GroupTitle(Compose), Members(nodes, nodes.keys, Compose), style, k);
      PickedSectionOther(GroupTitle(K8s), Members(nodes, nodes.keys, K8s), style, k);
      PickedSectionOther(GroupTitle(External), Members(nodes, nodes.keys, External), style, k);
    } else {
      TitlesDiffer(Compose, Compose);
      TitlesDiffer(K8s, K8s);
      TitlesDiffer(External, External);
      PickedSectionOpen(GroupTitle(Compose), Members(nodes, nodes.keys, Compose), style, "Legend");
      PickedSectionOpen(GroupTitle(K8s), Members(nodes, nodes.keys, K8s), style, "Legend");
      PickedSectionOpen(GroupTitle(External), Members(nodes, nodes.keys, External), style, "Legend");
    }
    PickedEdges(g.edges, k);
    OnlyParts(Picked(HeadLines(theme, preferDark, style), k),
      Picked(SubgraphLines(nodes, Compose, style), k),
      Picked(SubgraphLines(nodes, K8s, style), k),
      Picked(SubgraphLines(nodes, External, style), k),
      Picked(EdgeLines(g.edges), k), Picked(TailLines(legend), k));
  }

  /** The plain style writes no class definitions; any other writes all five. */
  lemma DiagramClassDefs(g: Graph, theme: string, preferDark: bool, style: string, legend: bool, pal: Palette)
    requires Valid(g.nodes)
    ensures Of(Rendered(g, theme, preferDark, style, legend, pal), ClassDefKind) == if IsFancy(style) then Texts(ClassDefs, pal) else []
  {
    var nodes := g.nodes;
    OfRendered(g, theme, preferDark, style, legend, ClassDefKind, pal);
    PickedHead(theme, preferDark, style, ClassDefKind);
    PickedSectionOther(GroupTitle(Compose), Members(nodes, nodes.keys, Compose), style, ClassDefKind);
    PickedSectionOther(GroupTitle(K8s), Members(nodes, nodes.keys, K8s), style, ClassDefKind);
    PickedSectionOther(GroupTitle(External), Members(nodes, nodes.keys, External), style, ClassDefKind);
    PickedEdges(g.edges, ClassDefKind);
    PickedTail(legend, ClassDefKind);
    OnlyParts(Picked(HeadLines(theme, preferDark, style), ClassDefKind),
      Picked(SubgraphLines(nodes, Compose, style), ClassDefKind),
      Picked(SubgraphLines(nodes, K8s, style), ClassDefKind),
      Picked(SubgraphLines(nodes, External, style), ClassDefKind),
      Picked(EdgeLines(g.edges), ClassDefKind), Picked(TailLines(legend), ClassDefKind));
  }

  /**
   In a style other than plain, the class lines are those of every node in
   subgraph order, its group first, then `public` and `db` when tagged; the
   plain style writes none.
   */
  lemma DiagramClassLines(g: Graph, theme: string, preferDark: bool, style: string, legend: bool, pal: Palette)
    requires Valid(g.nodes)
    ensures Of(Rendered(g, theme, preferDark, style, legend, pal), ClassKind) ==
      if IsFancy(style) then Texts(AllClassLines(Grouped(g.nodes)), pal) else []
    ensures Of(Rendered(g, theme, preferDark, style, legend, pal), ClassKind) != [] <==> IsFancy(style) && g.nodes.keys != []
  {
    var nodes := g.nodes;
    var c := Members(nodes, nodes.keys, Compose);
    var k := Members(nodes, nodes.keys, K8s);
    var e := Members(nodes, nodes.keys, External);
    OfRendered(g, theme, preferDark, style, legend, ClassKind, pal);
    PickedHead(theme, preferDark, style, ClassKind);
    PickedSectionClass(GroupTitle(Compose), c, style);
    PickedSectionClass(GroupTitle(K8s), k, style);
    PickedSectionClass(GroupTitle(External), e, style);
    PickedEdges(g.edges, ClassKind);
    PickedTail(legend, ClassKind);
    MembersPartition(nodes, nodes.keys);
    OnlyParts(Picked(HeadLines(theme, preferDark, style), ClassKind),
      Picked(SubgraphLines(nodes, Compose, style), ClassKind),
      Picked(SubgraphLines(nodes, K8s, style), ClassKind),
      Picked(SubgraphLines(nodes, External, style), ClassKind),
      Picked(EdgeLines(g.edges), ClassKind), Picked(TailLines(legend), ClassKind));
    AllClassLinesAppend(c, k);
    AllClassLinesAppend(c + k, e);
  }

  /** The diagram opens with the fence, the theme directive and the flowchart header, one per line, and closes with the fence. */
  lemma DiagramFrame(g: Graph, theme: string, preferDark: bool, style: string, legend: bool, pal: Palette)
    requires Valid(g.nodes)
    ensures var r := Rendered(g, theme, preferDark, style, legend, pal);
      && |r| >= 4
      && r[0] == Fence && r[1] == ThemeBlock(theme, preferDark, pal) && r[2] == Flowchart && r[|r| - 1] == Closing
      && BuildMermaid(g, theme, preferDark, style, legend, pal) ==
           Fence + "\n" + ThemeBlock(theme, preferDark, pal) + "\n" + Flowchart + "\n" + Terminated(r[3..|r| - 1], "\n") + Closing
  {
    var lines := MermaidLines(g, theme, preferDark, style, legend);
    var r := Rendered(g, theme, preferDark, style, legend, pal);
    LinesFrame(g, theme, preferDark, style, legend);
    FrameTexts(lines, PresetOf(theme, preferDark), pal);
    JoinFramed(r, "\n");
  }

  lemma FrameTexts(lines: seq<Line>, p: Preset, pal: Palette)
    requires |lines| >= 4
    requires lines[0] == FenceLine && lines[1] == InitLine(p) && lines[2] == FlowchartLine && lines[|lines| - 1] == CloseLine
    ensures var r := Texts(lines, pal);
      r[0] == Fence && r[1] == Directive(p, pal) && r[2] == Flowchart && r[|r| - 1] == Closing
  {
    TextsIndex(lines, 0, pal);
    TextsIndex(lines, 1, pal);
    TextsIndex(lines, 2, pal);
    TextsIndex(lines, |lines| - 1, pal);
  }

  lemma TextsIndex(lines: seq<Line>, i: nat, pal: Palette)
    requires i < |lines|
    ensures Texts(lines, pal)[i] == Render(lines[i], pal)
  {
    TextsAt(lines, pal);
  }

  lemma LinesFrame(g: Graph, theme: string, preferDark: bool, style: string, legend: bool)
    requires Valid(g.nodes)
    ensures var lines := MermaidLines(g, theme, preferDark, style, legend);
      && |lines| >= 4
      && lines[0] == FenceLine && lines[1] == InitLine(PresetOf(theme, preferDark)) && lines[2] == FlowchartLine
      && lines[|lines| - 1] == CloseLine
  {
    var h := HeadLines(theme, preferDark, style);
    Framed(h, SubgraphLines(g.nodes, Compose, style), SubgraphLines(g.nodes, K8s, style),
      SubgraphLines(g.nodes, External, style), EdgeLines(g.edges), if legend then Legend else [], CloseLine);
  }

  lemma Framed(h: seq<Line>, c: seq<Line>, k: seq<Line>, x: seq<Line>, ed: seq<Line>, l: seq<Line>, last: Line)
    requires |h| >= 3
    ensures var all := h + c + k + x + ed + (l + [last]);
      |all| >= 4 && all[0] == h[0] && all[1] == h[1] && all[2] == h[2] && all[|all| - 1] == last
  {
  }

  // ---------------------------------------------------------------- single lines and the document

  /** A declaration quotes the node's id and shows its escaped label, in parentheses exactly for a database node. */
  lemma DeclarationShape(n: Node)
    ensures var d := Declaration(n); var at := |DeclarationPrefix| + |n.id| + 1;
      && |d| == at + |n.caption| + 2
      && d[..at] == DeclarationPrefix + n.id + "\""
      && d[at + 1..|d| - 1] == Esc(n.caption)
      && (d[at] == '(' <==> Db in n.tags) && (d[|d| - 1] == ')' <==> Db in n.tags)
      && (d[at] == '[' <==> Db !in n.tags) && (d[|d| - 1] == ']' <==> Db !in n.tags)
  {
    var open := if Db in n.tags then "(" else "[";
    var close := if Db in n.tags then ")" else "]";
    var head := DeclarationPrefix + n.id + "\"";
    assert Declaration(n) == head + open + Esc(n.caption) + close;
  }

  /** An edge line names both ends; it shows a label exactly when the edge has a caption. */
  lemma EdgeTextShape(e: Edge)
    ensures StartsWith(EdgeText(e), EdgePrefix + e.src + "\" -->")
    ensures e.caption == "" <==> EdgeText(e) == EdgePrefix + e.src + "\" --> " + Quoted(e.dst)
  {
    var head := EdgePrefix + e.src + "\" -->";
    var shown := if e.caption != "" then " |" + Esc(e.caption) + "|" else "";
    assert EdgeText(e) == head + (shown + " " + Quoted(e.dst));
    assert EdgeText(e)[..|head|] == head;
    if e.caption != "" {
      assert |EdgeText(e)| > |EdgePrefix + e.src + "\" --> " + Quoted(e.dst)|;
    }
  }

  /** The diagram of a generated document whose summary is `summary`, when the document has the generated shape. */
  function Unwrap(doc: string, summary: string): (r: Option<string>)
    ensures r.Some? ==> |r.value| + |MarkdownHead| + |MarkdownMiddle| + |summary| + |MarkdownFoot| == |doc|
  {
    var tail := MarkdownMiddle + summary + MarkdownFoot;
    if |MarkdownHead| + |tail| <= |doc| && doc[..|MarkdownHead|] == MarkdownHead && doc[|doc| - |tail|..] == tail
    then Some(doc[|MarkdownHead|..|doc| - |tail|])
    else None
  }

  /** Unwrapping a wrapped diagram gives it back. */
  lemma UnwrapWrap(mermaid: string, summary: string)
    ensures Unwrap(WrapMarkdown(mermaid, summary), summary) == Some(mermaid)
  {
    var tail := MarkdownMiddle + summary + MarkdownFoot;
    var doc := WrapMarkdown(mermaid, summary);
    assert doc == MarkdownHead + mermaid + tail;
    assert doc[..|MarkdownHead|] == MarkdownHead;
    assert doc[|doc| - |tail|..] == tail;
    assert doc[|MarkdownHead|..|doc| - |tail|] == mermaid;
  }

  /** A document that unwraps is the wrapping of what it unwraps to. */
  lemma WrapUnwrap(doc: string, summary: string)
    requires Unwrap(doc, summary).Some?
    ensures WrapMarkdown(Unwrap(doc, summary).value, summary) == doc
  {
    var tail := MarkdownMiddle + summary + MarkdownFoot;
    Reframe(doc, MarkdownHead, tail);
    assert WrapMarkdown(Unwrap(doc, summary).value, summary) == MarkdownHead + Unwrap(doc, summary).value + tail;
  }

  /** A text that starts with `head` and ends with `tail` is `head`, its middle, and `tail`. */
  lemma Reframe(doc: string, head: string, tail: string)
    requires |head| + |tail| <= |doc| && doc[..|head|] == head && doc[|doc| - |tail|..] == tail
    ensures head + doc[|head|..|doc| - |tail|] + tail == doc
  {
    assert doc == doc[..|head|] + doc[|head|..|doc| - |tail|] + doc[|doc| - |tail|..];
  }
}
