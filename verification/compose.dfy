/**
 The docker-compose scanner `_parse_compose_services`: one pass over the
 lines of a compose file with two pieces of state, "inside the `services:`
 block" and "the current service". It never fails; lines it does not
 recognise are skipped.
 */
module Compose {
  import opened Options
  import opened Text
  import opened Dicts

  predicate IsName(s: string) {
    |s| > 0 && AllChars(s, ComposeName)
  }

  /** `^\s*services\s*:\s*$` */
  predicate IsServicesHeader(ln: string) {
    match Sym(ln, "services")
    case None => false
    case Some(r) =>
      match Sym(r, ":")
      case None => false
      case Some(t) => IsBlank(t)
  }

  /** `^\s{2,}([A-Za-z0-9._-]+)\s*:\s*$`: a bare key line indented by two or more blanks. */
  function ServiceKey(ln: string): (r: Option<string>)
    ensures r.Some? ==> IsName(r.value)
  {
    var rest :- Indented(ln, 2);
    var w :- Word(rest, ComposeName);
    var t :- Sym(w.1, ":");
    if IsBlank(t) then Some(w.0) else None
  }

  /** Number of blanks at the end of `s`. */
  function TrailingBlanks(s: string): (n: nat)
    ensures n <= |s|
    ensures IsBlank(s[|s| - n..])
    ensures n < |s| ==> !IsSpace(s[|s| - n - 1])
  {
    if s == [] || !IsSpace(s[|s| - 1]) then 0
    else
      var p := s[..|s| - 1];
      var n := TrailingBlanks(p);
      assert s[|s| - (n + 1)..] == p[|p| - n..] + [s[|s| - 1]];
      BlankExtend(p[|p| - n..], s[|s| - 1]);
      n + 1
  }

  lemma BlankExtend(a: string, c: char)
    requires IsBlank(a) && IsSpace(c)
    ensures IsBlank(a + [c])
  {
    assert forall i :: 0 <= i < |a| ==> (a + [c])[i] == a[i];
  }

  /** `^[A-Za-z].*:\s*$`: a top-level key line (`.` does not match a newline). */
  predicate IsRootKey(ln: string) {
    var t := ln[..|ln| - TrailingBlanks(ln)];
    |t| >= 2 && IsLetter(t[0]) && t[|t| - 1] == ':' && '\n' !in t
  }

  /** `"?` and the like: drops one leading `c` if present. */
  function Optional(s: string, c: char): string {
    if |s| > 0 && s[0] == c then s[1..] else s
  }

  /** `(?:/(tcp|udp))?` */
  function OptionalProtocol(s: string): string {
    match Lit(s, "/tcp")
    case Some(r) => r
    case None =>
      match Lit(s, "/udp")
      case Some(r) => r
      case None => s
  }

  /** `^\s{6,}-\s*"?(\d+)\s*:\s*(\d+)(?:/(tcp|udp))?"?\s*$`: a `host:container` port item. */
  function PortItem(ln: string): (r: Option<(string, string)>)
    ensures r.Some? ==> IsDigits(r.value.0) && IsDigits(r.value.1)
  {
    var r0 :- Indented(ln, 6);
    var r1 :- Lit(r0, "-");
    var host :- Word(Optional(SkipSpaces(r1), '"'), Digit);
    var r2 :- Sym(host.1, ":");
    var container :- Word(SkipSpaces(r2), Digit);
    var tail := Optional(OptionalProtocol(container.1), '"');
    if IsBlank(tail) then Some((host.0, container.0)) else None
  }

  /** `^\s{6,}-\s*([A-Za-z0-9._-]+)\s*$`: a list item holding one name. */
  function ListItem(ln: string): (r: Option<string>)
    ensures r.Some? ==> IsName(r.value)
  {
    var r0 :- Indented(ln, 6);
    var r1 :- Lit(r0, "-");
    var w :- Word(SkipSpaces(r1), ComposeName);
    if IsBlank(w.1) then Some(w.0) else None
  }

  /** `^\s{6,}([A-Za-z0-9._-]+)\s*:\s*\{\s*condition\s*:\s*[A-Za-z_]+\s*\}\s*$`: a map-style dependency. */
  function ConditionItem(ln: string): (r: Option<string>)
    ensures r.Some? ==> IsName(r.value)
  {
    var r0 :- Indented(ln, 6);
    var w :- Word(r0, ComposeName);
    var r1 :- Sym(w.1, ":");
    var r2 :- Sym(r1, "{");
    var r3 :- Sym(r2, "condition");
    var r4 :- Sym(r3, ":");
    var cond :- Word(SkipSpaces(r4), ConditionName);
    var r5 :- Sym(cond.1, "}");
    if IsBlank(r5) then Some(w.0) else None
  }

  /** What the scanner records per service name. */
  datatype Service = Service(ports: seq<(string, string)>, depends: seq<string>, nets: seq<string>)

  const NoService := Service([], [], [])

  /**
   What the patterns of the loop body say about one line, given the line
   before it. The loop consults these and nothing else about the text.
   */
  datatype LineInfo = LineInfo(
    header: bool,
    key: Option<string>,
    rootKey: bool,
    port: Option<(string, string)>,
    listItem: Option<string>,
    conditionItem: Option<string>,
    afterDepends: bool,
    afterNetworks: bool)

  function Classify(prev: string, ln: string): LineInfo {
    LineInfo(
      IsServicesHeader(ln), ServiceKey(ln), IsRootKey(ln), PortItem(ln), ListItem(ln), ConditionItem(ln),
      Contains(prev, "depends_on"), Contains(prev, "networks"))
  }

  /** The line before line `i`, or the empty string for the first line. */
  function Prev(lines: seq<string>, i: nat): string
    requires i <= |lines|
  {
    if 0 < i then lines[i - 1] else ""
  }

  /** The classification of every line, in order. */
  function ClassifyLines(lines: seq<string>): (infos: seq<LineInfo>)
    ensures |infos| == |lines|
    ensures forall j :: 0 <= j < |lines| ==> infos[j] == Classify(Prev(lines, j), lines[j])
  {
    seq(|lines|, j requires 0 <= j < |lines| => Classify(Prev(lines, j), lines[j]))
  }

  datatype ScanState = ScanState(inServices: bool, current: Option<string>, services: Dict<Service>)

  const Start := ScanState(false, None, Empty())

  function Singleton<T>(o: Option<T>): seq<T> {
    match o
    case Some(x) => [x]
    case None => []
  }

  /** The items one line inside the current service adds to its record. */
  function AddItems(svc: Service, li: LineInfo): Service {
    var ports := Singleton(li.port);
    var listDep := if li.afterDepends then Singleton(li.listItem) else [];
    var mapDep := if li.afterDepends then Singleton(li.conditionItem) else [];
    var nets := if li.afterNetworks then Singleton(li.listItem) else [];
    Service(svc.ports + ports, svc.depends + listDep + mapDep, svc.nets + nets)
  }

  /** Invariant of the scan: the current service is inside the block and has a record. */
  ghost predicate Consistent(st: ScanState) {
    && Valid(st.services)
    && (st.current.Some? ==> st.inServices && st.current.value in st.services.entries)
  }

  /** One iteration of the loop of `_parse_compose_services`. */
  function Step(st: ScanState, li: LineInfo): (r: ScanState)
    requires Consistent(st)
    ensures Consistent(r)
  {
    if li.header then st.(inServices := true, current := None)
    else if !st.inServices then st
    else
      match li.key
      case Some(k) => st.(current := Some(k), services := Put(st.services, k, NoService))
      case None =>
        if st.current.None? then
          if li.rootKey then st.(inServices := false) else st
        else
          var k := st.current.value;
          st.(services := Put(st.services, k, AddItems(st.services.entries[k], li)))
  }

  /** The state after the first `n` lines. */
  function Run(infos: seq<LineInfo>, n: nat): (st: ScanState)
    requires n <= |infos|
    ensures Consistent(st)
  {
    if n == 0 then Start else Step(Run(infos, n - 1), infos[n - 1])
  }

  /** `_parse_compose_services(text)`: service name to its record, in first-seen order. */
  function ParseServices(text: string): (services: Dict<Service>)
    ensures Valid(services)
  {
    var infos := ClassifyLines(SplitLines(text));
    Run(infos, |infos|).services
  }
}

/** Properties of the compose scanner. */
module ComposeFacts {
  import opened Options
  import opened Text
  import opened Dicts
  import opened Compose

  /** The lines `^\s*services\s*:\s*$` matches, described as a decomposition. */
  ghost predicate HeaderShape(ln: string) {
    exists a, b, c :: IsBlank(a) && IsBlank(b) && IsBlank(c) && ln == a + ("services" + (b + (":" + c)))
  }

  lemma ServicesHeaderMeans(ln: string)
    ensures IsServicesHeader(ln) <==> HeaderShape(ln)
  {
    if IsServicesHeader(ln) {
      ServicesHeaderShaped(ln);
    }
    if HeaderShape(ln) {
      var a, b, c :| IsBlank(a) && IsBlank(b) && IsBlank(c) && ln == a + ("services" + (b + (":" + c)));
      ShapedServicesHeader(a, b, c);
    }
  }

  lemma ServicesHeaderShaped(ln: string)
    requires IsServicesHeader(ln)
    ensures HeaderShape(ln)
  {
    SkipSpacesSplit(ln);
    var a := ln[..Span(ln, Space)];
    var r := Sym(ln, "services").value;
    assert SkipSpaces(ln) == "services" + r;
    SkipSpacesSplit(r);
    var b := r[..Span(r, Space)];
    var c := Sym(r, ":").value;
    assert SkipSpaces(r) == ":" + c;
    assert ln == a + ("services" + (b + (":" + c)));
  }

  lemma ShapedServicesHeader(a: string, b: string, c: string)
    requires IsBlank(a) && IsBlank(b) && IsBlank(c)
    ensures IsServicesHeader(a + ("services" + (b + (":" + c))))
  {
    var tail := b + (":" + c);
    var ln := a + ("services" + tail);
    SkipSpacesOfConcat(a, "services" + tail);
    LitOfConcat("services", tail);
    assert Sym(ln, "services") == Some(tail);
    SkipSpacesOfConcat(b, ":" + c);
    LitOfConcat(":", c);
    assert Sym(tail, ":") == Some(c);
  }

  /** The lines `^\s{2,}([A-Za-z0-9._-]+)\s*:\s*$` matches with `name` as its group. */
  ghost predicate KeyShape(ln: string, name: string) {
    exists a, b, c :: |a| >= 2 && IsBlank(a) && IsBlank(b) && IsBlank(c) && IsName(name)
                      && ln == a + (name + (b + (":" + c)))
  }

  lemma ServiceKeyMeans(ln: string, name: string)
    ensures ServiceKey(ln) == Some(name) <==> KeyShape(ln, name)
  {
    if ServiceKey(ln) == Some(name) {
      ServiceKeyShaped(ln);
    }
    if KeyShape(ln, name) {
      var a, b, c :| |a| >= 2 && IsBlank(a) && IsBlank(b) && IsBlank(c) && IsName(name)
                     && ln == a + (name + (b + (":" + c)));
      ShapedServiceKey(a, name, b, c);
    }
  }

  lemma ServiceKeyShaped(ln: string)
    requires ServiceKey(ln).Some?
    ensures KeyShape(ln, ServiceKey(ln).value)
  {
    var rest := Indented(ln, 2).value;
    var w := Word(rest, ComposeName).value;
    var c := Sym(w.1, ":").value;
    assert ServiceKey(ln).value == w.0 && IsBlank(c);
    SkipSpacesSplit(ln);
    var a := ln[..Span(ln, Space)];
    assert ln == a + rest && |a| >= 2;
    assert rest == w.0 + w.1;
    SkipSpacesSplit(w.1);
    var b := w.1[..Span(w.1, Space)];
    assert w.1 == b + (":" + c);
    assert ln == a + (w.0 + (b + (":" + c)));
  }

  lemma ShapedServiceKey(a: string, name: string, b: string, c: string)
    requires |a| >= 2 && IsBlank(a) && IsBlank(b) && IsBlank(c) && IsName(name)
    ensures ServiceKey(a + (name + (b + (":" + c)))) == Some(name)
  {
    var tail := b + (":" + c);
    var rest := name + tail;
    var ln := a + rest;
    assert !IsSpace(name[0]) by { assert In(name[0], ComposeName); }
    SpanOfConcat(a, rest, Space);
    SkipSpacesOfConcat(a, rest);
    assert Indented(ln, 2) == Some(rest);
    assert tail == [] || !In(tail[0], ComposeName) by {
      if b != [] {
        assert In(b[0], Space);
      }
    }
    SpanOfConcat(name, tail, ComposeName);
    assert rest[..|name|] == name && rest[|name|..] == tail;
    assert Word(rest, ComposeName) == Some((name, tail));
    SkipSpacesOfConcat(b, ":" + c);
    LitOfConcat(":", c);
    assert Sym(tail, ":") == Some(c);
  }

  /** Line `j` adds `d` to a dependency list: a list or map item right after a line mentioning `depends_on`. */
  ghost predicate DependsAt(infos: seq<LineInfo>, j: int, d: string) {
    && 0 <= j < |infos|
    && infos[j].afterDepends
    && (infos[j].listItem == Some(d) || infos[j].conditionItem == Some(d))
  }

  /** Line `j` adds `x` to a network list: a list item right after a line mentioning `networks`. */
  ghost predicate NetworkAt(infos: seq<LineInfo>, j: int, x: string) {
    0 <= j < |infos| && infos[j].afterNetworks && infos[j].listItem == Some(x)
  }

  ghost predicate PortAt(infos: seq<LineInfo>, j: int, p: (string, string)) {
    0 <= j < |infos| && infos[j].port == Some(p)
  }

  /** Every recorded dependency comes from one of the first `n` lines. */
  ghost predicate DependsSourced(infos: seq<LineInfo>, n: nat, services: Dict<Service>) {
    forall k, d :: k in services.entries && d in services.entries[k].depends ==>
      exists j :: j < n && DependsAt(infos, j, d)
  }

  /** Every recorded network comes from one of the first `n` lines. */
  ghost predicate NetworksSourced(infos: seq<LineInfo>, n: nat, services: Dict<Service>) {
    forall k, x :: k in services.entries && x in services.entries[k].nets ==>
      exists j :: j < n && NetworkAt(infos, j, x)
  }

  /** Every recorded port pair comes from one of the first `n` lines. */
  ghost predicate PortsSourced(infos: seq<LineInfo>, n: nat, services: Dict<Service>) {
    forall k, p :: k in services.entries && p in services.entries[k].ports ==>
      exists j :: j < n && PortAt(infos, j, p)
  }

  /**
   One step either leaves a record alone, resets it to empty, or extends the
   current one with the items of the step's line.
   */
  lemma StepRecord(st: ScanState, li: LineInfo, k: string)
    requires Consistent(st) && k in Step(st, li).services.entries
    ensures || (k in st.services.entries && Step(st, li).services.entries[k] == st.services.entries[k])
            || Step(st, li).services.entries[k] == NoService
            || (k in st.services.entries && Step(st, li).services.entries[k] == AddItems(st.services.entries[k], li))
  {
  }

  lemma {:induction false} RunDependsSourced(infos: seq<LineInfo>, n: nat)
    requires n <= |infos|
    ensures DependsSourced(infos, n, Run(infos, n).services)
  {
    if n > 0 {
      RunDependsSourced(infos, n - 1);
      var st := Run(infos, n - 1);
      forall k, d | k in Run(infos, n).services.entries && d in Run(infos, n).services.entries[k].depends
        ensures exists j :: j < n && DependsAt(infos, j, d)
      {
        StepRecord(st, infos[n - 1], k);
        if k in st.services.entries && d in st.services.entries[k].depends {
        } else {
          assert DependsAt(infos, n - 1, d);
        }
      }
    }
  }

  lemma {:induction false} RunNetworksSourced(infos: seq<LineInfo>, n: nat)
    requires n <= |infos|
    ensures NetworksSourced(infos, n, Run(infos, n).services)
  {
    if n > 0 {
      RunNetworksSourced(infos, n - 1);
      var st := Run(infos, n - 1);
      forall k, x | k in Run(infos, n).services.entries && x in Run(infos, n).services.entries[k].nets
        ensures exists j :: j < n && NetworkAt(infos, j, x)
      {
        StepRecord(st, infos[n - 1], k);
        if k in st.services.entries && x in st.services.entries[k].nets {
        } else {
          assert NetworkAt(infos, n - 1, x);
        }
      }
    }
  }

  lemma {:induction false} RunPortsSourced(infos: seq<LineInfo>, n: nat)
    requires n <= |infos|
    ensures PortsSourced(infos, n, Run(infos, n).services)
  {
    if n > 0 {
      RunPortsSourced(infos, n - 1);
      var st := Run(infos, n - 1);
      forall k, p | k in Run(infos, n).services.entries && p in Run(infos, n).services.entries[k].ports
        ensures exists j :: j < n && PortAt(infos, j, p)
      {
        StepRecord(st, infos[n - 1], k);
        if k in st.services.entries && p in st.services.entries[k].ports {
        } else {
          assert PortAt(infos, n - 1, p);
        }
      }
    }
  }

  /** A line of the file that adds `d` to a dependency list. */
  ghost predicate DependsLine(lines: seq<string>, j: int, d: string) {
    && 0 <= j < |lines|
    && Contains(Prev(lines, j), "depends_on")
    && (ListItem(lines[j]) == Some(d) || ConditionItem(lines[j]) == Some(d))
  }

  /** A line of the file that adds `x` to a network list. */
  ghost predicate NetworkLine(lines: seq<string>, j: int, x: string) {
    && 0 <= j < |lines|
    && Contains(Prev(lines, j), "networks")
    && ListItem(lines[j]) == Some(x)
  }

  /** Dependencies are recorded only from list or map items right after a line mentioning `depends_on`. */
  lemma ParsedDependsSourced(text: string, k: string, d: string)
    requires k in ParseServices(text).entries && d in ParseServices(text).entries[k].depends
    ensures exists j :: DependsLine(SplitLines(text), j, d)
  {
    var lines := SplitLines(text);
    var infos := ClassifyLines(lines);
    RunDependsSourced(infos, |infos|);
    var j :| j < |infos| && DependsAt(infos, j, d);
    DependsAtLine(lines, j, d);
  }

  /** Networks are recorded only from list items right after a line mentioning `networks`. */
  lemma ParsedNetworksSourced(text: string, k: string, x: string)
    requires k in ParseServices(text).entries && x in ParseServices(text).entries[k].nets
    ensures exists j :: NetworkLine(SplitLines(text), j, x)
  {
    var lines := SplitLines(text);
    var infos := ClassifyLines(lines);
    RunNetworksSourced(infos, |infos|);
    var j :| j < |infos| && NetworkAt(infos, j, x);
    NetworkAtLine(lines, j, x);
  }

  /** Every port entry is a pair of digit strings taken from a port item line. */
  lemma ParsedPortsAreDigits(text: string, k: string, p: (string, string))
    requires k in ParseServices(text).entries && p in ParseServices(text).entries[k].ports
    ensures IsDigits(p.0) && IsDigits(p.1)
  {
    var lines := SplitLines(text);
    var infos := ClassifyLines(lines);
    RunPortsSourced(infos, |infos|);
    var j :| j < |infos| && PortAt(infos, j, p);
    PortAtLine(lines, j, p);
  }

  lemma DependsAtLine(lines: seq<string>, j: int, d: string)
    requires DependsAt(ClassifyLines(lines), j, d)
    ensures DependsLine(lines, j, d)
  {
    assert ClassifyLines(lines)[j] == Classify(Prev(lines, j), lines[j]);
  }

  lemma NetworkAtLine(lines: seq<string>, j: int, x: string)
    requires NetworkAt(ClassifyLines(lines), j, x)
    ensures NetworkLine(lines, j, x)
  {
    assert ClassifyLines(lines)[j] == Classify(Prev(lines, j), lines[j]);
  }

  lemma PortAtLine(lines: seq<string>, j: int, p: (string, string))
    requires PortAt(ClassifyLines(lines), j, p)
    ensures PortItem(lines[j]) == Some(p)
  {
    assert ClassifyLines(lines)[j] == Classify(Prev(lines, j), lines[j]);
  }

  lemma {:induction false} NoHeaderKeepsStart(infos: seq<LineInfo>, n: nat)
    requires n <= |infos|
    requires forall i :: 0 <= i < n ==> !infos[i].header
    ensures Run(infos, n) == Start
  {
    if n > 0 {
      NoHeaderKeepsStart(infos, n - 1);
    }
  }

  /** A file without a `services:` line yields no services. */
  lemma NoHeaderNoServices(text: string)
    requires forall ln :: ln in SplitLines(text) ==> !IsServicesHeader(ln)
    ensures ParseServices(text).keys == [] && ParseServices(text).entries == map[]
  {
    var lines := SplitLines(text);
    var infos := ClassifyLines(lines);
    forall i | 0 <= i < |infos| ensures !infos[i].header {
      assert infos[i] == Classify(Prev(lines, i), lines[i]);
      assert lines[i] in lines;
    }
    NoHeaderKeepsStart(infos, |infos|);
  }

  /** Line `j` (re)opens the record of `k`: a bare indented key while inside the block. */
  ghost predicate OpensRecord(infos: seq<LineInfo>, j: int, k: string) {
    && 0 <= j < |infos|
    && Run(infos, j).inServices
    && !infos[j].header
    && infos[j].key == Some(k)
  }

  /** The recorded names are exactly the keys of indented key lines seen inside the block. */
  lemma {:induction false} RunKeys(infos: seq<LineInfo>, n: nat)
    requires n <= |infos|
    ensures forall k :: k in Run(infos, n).services.entries <==> exists j :: j < n && OpensRecord(infos, j, k)
  {
    if n > 0 {
      RunKeys(infos, n - 1);
      var st := Run(infos, n - 1);
      var r := Run(infos, n);
      forall k ensures k in r.services.entries <==> exists j :: j < n && OpensRecord(infos, j, k) {
        if k in r.services.entries && k !in st.services.entries {
          assert OpensRecord(infos, n - 1, k);
        }
        if exists j :: j < n && OpensRecord(infos, j, k) {
          var j :| j < n && OpensRecord(infos, j, k);
          if j < n - 1 {
            assert k in st.services.entries;
          }
        }
      }
    }
  }

  /** A key line inside the block starts an empty record for its key and makes it current. */
  lemma KeyLineRestarts(infos: seq<LineInfo>, n: nat, k: string)
    requires 0 < n <= |infos|
    requires OpensRecord(infos, n - 1, k)
    ensures Run(infos, n).current == Some(k)
    ensures Run(infos, n).services.entries[k] == NoService
  {
  }

  /**
   Once a service is current, only another `services:` line can end it: any
   other line, including a top-level key, leaves the scan inside the block.
   */
  lemma {:induction false} NoExitAfterService(infos: seq<LineInfo>, m: nat, n: nat)
    requires m <= n <= |infos|
    requires Run(infos, m).current.Some?
    requires forall i :: m <= i < n ==> !infos[i].header
    ensures Run(infos, n).inServices && Run(infos, n).current.Some?
  {
    if n > m {
      NoExitAfterService(infos, m, n - 1);
    }
  }

  /** `b` has every item of `a`, in the same places. */
  predicate Extends(a: Service, b: Service) {
    a.ports <= b.ports && a.depends <= b.depends && a.nets <= b.nets
  }

  /** Line `j` is read into the record of `k`: `k` is current and the line is neither a header nor a key line. */
  ghost predicate ReadInto(infos: seq<LineInfo>, j: int, k: string) {
    && 0 <= j < |infos|
    && Run(infos, j).current == Some(k)
    && !infos[j].header
    && infos[j].key.None?
  }

  /** A line that does not reopen `k` only extends the record of `k`. */
  lemma StepExtends(st: ScanState, li: LineInfo, k: string)
    requires Consistent(st) && k in st.services.entries
    requires !(st.inServices && !li.header && li.key == Some(k))
    ensures k in Step(st, li).services.entries
    ensures Extends(st.services.entries[k], Step(st, li).services.entries[k])
  {
  }

  /** Until `k` is reopened, its record keeps every item it has. */
  lemma {:induction false} RunExtends(infos: seq<LineInfo>, m: nat, n: nat, k: string)
    requires m <= n <= |infos| && k in Run(infos, m).services.entries
    requires forall i :: m <= i < n ==> !OpensRecord(infos, i, k)
    ensures k in Run(infos, n).services.entries
    ensures Extends(Run(infos, m).services.entries[k], Run(infos, n).services.entries[k])
  {
    if n > m {
      RunExtends(infos, m, n - 1, k);
      assert !OpensRecord(infos, n - 1, k);
      StepExtends(Run(infos, n - 1), infos[n - 1], k);
    }
  }

  /** Line `j` comes after the key line `i` of `k`, with no header or key line from there to `j`. */
  ghost predicate UnderKey(infos: seq<LineInfo>, i: int, j: int, k: string) {
    && 0 <= i < j < |infos|
    && OpensRecord(infos, i, k)
    && forall m :: i < m <= j ==> !infos[m].header && infos[m].key.None?
  }

  /** A line under the key line of `k` is read into the record of `k`. */
  lemma {:induction false} UnderKeyReads(infos: seq<LineInfo>, i: int, j: int, k: string)
    requires UnderKey(infos, i, j, k)
    ensures ReadInto(infos, j, k)
    decreases j
  {
    if j == i + 1 {
      KeyLineRestarts(infos, i + 1, k);
    } else {
      UnderKeyReads(infos, i, j - 1, k);
    }
  }

  /** The items of a line read into `k` stay in the record of `k` until `k` is reopened. */
  lemma RunItemsKept(infos: seq<LineInfo>, j: int, n: nat, k: string)
    requires ReadInto(infos, j, k) && j < n <= |infos|
    requires forall i :: j < i < n ==> !OpensRecord(infos, i, k)
    ensures k in Run(infos, n).services.entries
    ensures forall d :: DependsAt(infos, j, d) ==> d in Run(infos, n).services.entries[k].depends
    ensures forall x :: NetworkAt(infos, j, x) ==> x in Run(infos, n).services.entries[k].nets
    ensures forall p :: PortAt(infos, j, p) ==> p in Run(infos, n).services.entries[k].ports
  {
    var added := AddItems(Run(infos, j).services.entries[k], infos[j]);
    assert Run(infos, j + 1).services.entries[k] == added;
    RunExtends(infos, j + 1, n, k);
    var last := Run(infos, n).services.entries[k];
    assert added.depends == last.depends[..|added.depends|];
    assert added.nets == last.nets[..|added.nets|];
    assert added.ports == last.ports[..|added.ports|];
  }

  /**
   Completeness of the scan: a dependency, network or port item on a line
   below the key line of `k`, with no header or key line in between, is in the
   final record of `k`, unless a later key line reopens `k`.
   */
  lemma ParsedItemsRecorded(text: string, i: int, j: int, k: string)
    requires UnderKey(ClassifyLines(SplitLines(text)), i, j, k)
    requires forall m :: j < m < |SplitLines(text)| ==> !OpensRecord(ClassifyLines(SplitLines(text)), m, k)
    ensures k in ParseServices(text).entries
    ensures forall d :: DependsLine(SplitLines(text), j, d) ==> d in ParseServices(text).entries[k].depends
    ensures forall x :: NetworkLine(SplitLines(text), j, x) ==> x in ParseServices(text).entries[k].nets
    ensures forall p :: PortItem(SplitLines(text)[j]) == Some(p) ==> p in ParseServices(text).entries[k].ports
  {
    var lines := SplitLines(text);
    var infos := ClassifyLines(lines);
    UnderKeyReads(infos, i, j, k);
    RunItemsKept(infos, j, |infos|, k);
    assert infos[j] == Classify(Prev(lines, j), lines[j]);
  }

  /**
   Nested keys open records of their own: after a service key `w`, a deeper
   bare key such as `    ports:` is taken for a second service `n`, the port
   item below it attaches to `n`, and `w` keeps an empty record.
   */
  lemma PhantomService(h: string, k1: string, k2: string, pl: string, w: string, n: string, p: (string, string))
    requires IsServicesHeader(h)
    requires KeyShape(k1, w) && !IsServicesHeader(k1)
    requires KeyShape(k2, n) && !IsServicesHeader(k2) && w != n
    requires PortItem(pl) == Some(p) && ServiceKey(pl).None? && !IsServicesHeader(pl)
    requires !Contains(k2, "depends_on") && !Contains(k2, "networks")
    ensures var services := Run(ClassifyLines([h, k1, k2, pl]), 4).services;
      && services.keys == [w, n]
      && w in services.entries && services.entries[w] == NoService
      && n in services.entries && services.entries[n] == Service([p], [], [])
  {
    var lines := [h, k1, k2, pl];
    var infos := ClassifyLines(lines);
    assert Prev(lines, 1) == h && Prev(lines, 2) == k1 && Prev(lines, 3) == k2;
    assert infos[0] == Classify("", h);
    assert infos[1] == Classify(h, k1);
    assert infos[2] == Classify(k1, k2);
    assert infos[3] == Classify(k2, pl);
    ServiceKeyMeans(k1, w);
    ServiceKeyMeans(k2, n);
    PhantomRun(infos, w, n, p);
  }

  /** The state-machine half of `PhantomService`. */
  lemma PhantomRun(infos: seq<LineInfo>, w: string, n: string, p: (string, string))
    requires |infos| == 4 && infos[0].header
    requires !infos[1].header && infos[1].key == Some(w)
    requires !infos[2].header && infos[2].key == Some(n) && w != n
    requires !infos[3].header && infos[3].key.None? && infos[3].port == Some(p)
    requires !infos[3].afterDepends && !infos[3].afterNetworks
    ensures var services := Run(infos, 4).services;
      && services.keys == [w, n]
      && w in services.entries && services.entries[w] == NoService
      && n in services.entries && services.entries[n] == Service([p], [], [])
  {
    assert Run(infos, 0) == Start;
    var st1 := Run(infos, 1);
    assert st1 == Step(Start, infos[0]);
    assert st1 == Start.(inServices := true);
    var st2 := Run(infos, 2);
    assert st2 == ScanState(true, Some(w), Put(Start.services, w, NoService));
    var st3 := Run(infos, 3);
    assert st3 == ScanState(true, Some(n), Put(st2.services, n, NoService));
    assert st3.services.entries[n] == NoService;
    assert AddItems(NoService, infos[3]) == Service([p], [], []);
    assert Run(infos, 4) == Step(st3, infos[3]);
    assert Run(infos, 4) == st3.(services := Put(st3.services, n, Service([p], [], [])));
  }
}
