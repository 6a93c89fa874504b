/**
 The Kubernetes scanner `_parse_k8s_units`: the file is cut into documents at
 `---` separator lines, and each document is scanned line by line for its
 kind, its first name, its ports, its Service type and whether it is an
 Ingress. A document with both a kind and a name yields one unit.
 */
module Kube {
  import opened Options
  import opened Text
  import opened Patterns

  /** `\n---\s*\n` starts at index `i`: the index just past it. The blank run may span several lines. */
  function SepEnd(s: string, i: nat): (e: Option<nat>)
    requires i <= |s|
    ensures e.Some? ==> i + 5 <= e.value <= |s| && IsSeparator(s[i..e.value])
  {
    if i + 4 <= |s| && s[i] == '\n' && s[i + 1..i + 4] == "---" then
      var tail := s[i + 4..];
      var run := tail[..Span(tail, Space)];
      assert IsBlank(run);
      match LastNewline(run)
      case Some(k) =>
        var x := s[i..i + 4 + k + 1];
        assert x[..4] == s[i..i + 4];
        assert x[4..] == tail[..k + 1];
        assert tail[..k + 1] == run[..k + 1];
        BlankPrefix(run, k + 1);
        Some(i + 4 + k + 1)
      case None => None
    else None
  }

  lemma BlankPrefix(run: string, m: nat)
    requires IsBlank(run) && m <= |run|
    ensures IsBlank(run[..m])
  {
    assert forall j :: 0 <= j < m ==> run[..m][j] == run[j];
  }

  /** A separator as the pattern `\n---\s*\n` accepts it. */
  predicate IsSeparator(x: string) {
    && |x| >= 5 && x[0] == '\n' && x[1..4] == "---" && x[|x| - 1] == '\n'
    && IsBlank(x[4..])
  }

  /** Index of the last `\n` in `t`. */
  function LastNewline(t: string): (k: Option<nat>)
    ensures k.Some? ==> k.value < |t| && t[k.value] == '\n'
    ensures k.Some? ==> forall j :: k.value < j < |t| ==> t[j] != '\n'
    ensures k.None? ==> forall j :: 0 <= j < |t| ==> t[j] != '\n'
  {
    if t == [] then None
    else if t[|t| - 1] == '\n' then Some(|t| - 1)
    else LastNewline(t[..|t| - 1])
  }

  /** The pieces of `s[start..]` with the separators between them, scanning for a separator from `i` on. */
  function SplitFrom(s: string, start: nat, i: nat): (r: (seq<string>, seq<string>))
    requires start <= i <= |s|
    ensures |r.0| == |r.1| + 1
    ensures forall k :: 0 <= k < |r.1| ==> IsSeparator(r.1[k])
    ensures Interleave(r.0, r.1) == s[start..]
    decreases |s| - i
  {
    if i == |s| then ([s[start..]], [])
    else
      match SepEnd(s, i)
      case Some(e) =>
        var rest := SplitFrom(s, e, e);
        assert s[start..] == s[start..i] + s[i..e] + s[e..];
        ([s[start..i]] + rest.0, [s[i..e]] + rest.1)
      case None => SplitFrom(s, start, i + 1)
  }

  /** The pieces joined back with the separators between them. */
  function Interleave(docs: seq<string>, seps: seq<string>): string
    requires |docs| == |seps| + 1
  {
    if seps == [] then docs[0] else docs[0] + seps[0] + Interleave(docs[1..], seps[1..])
  }

  /** `re.split(r"\n---\s*\n", text) if "---" in text else [text]` */
  function SplitDocs(text: string): (docs: seq<string>)
    ensures |docs| >= 1
  {
    if Contains(text, "---") then SplitFrom(text, 0, 0).0 else [text]
  }

  datatype Kind = Deployment | StatefulSet | DaemonSet | Service | Ingress

  function KindName(k: Kind): string {
    match k
    case Deployment => "Deployment"
    case StatefulSet => "StatefulSet"
    case DaemonSet => "DaemonSet"
    case Service => "Service"
    case Ingress => "Ingress"
  }

  /** `(Deployment|StatefulSet|DaemonSet|Service|Ingress)`: the kind and the rest. */
  function KindWord(s: string): (r: Option<(Kind, string)>)
    ensures r.Some? ==> s == KindName(r.value.0) + r.value.1
  {
    if Lit(s, "Deployment").Some? then Some((Deployment, Lit(s, "Deployment").value))
    else if Lit(s, "StatefulSet").Some? then Some((StatefulSet, Lit(s, "StatefulSet").value))
    else if Lit(s, "DaemonSet").Some? then Some((DaemonSet, Lit(s, "DaemonSet").value))
    else if Lit(s, "Service").Some? then Some((Service, Lit(s, "Service").value))
    else if Lit(s, "Ingress").Some? then Some((Ingress, Lit(s, "Ingress").value))
    else None
  }

  /** `^\s*kind\s*:\s*(Deployment|StatefulSet|DaemonSet|Service|Ingress)\s*$` */
  function KindLine(ln: string): Option<Kind> {
    var r0 :- Sym(ln, "kind");
    var r1 :- Sym(r0, ":");
    var w :- KindWord(SkipSpaces(r1));
    if IsBlank(w.1) then Some(w.0) else None
  }

  /** `^\s*name\s*:\s*([a-z0-9\-_.]+)\s*$` */
  function NameLine(ln: string): (r: Option<string>)
    ensures r.Some? ==> |r.value| > 0 && AllChars(r.value, KubeName)
  {
    var r0 :- Sym(ln, "name");
    var r1 :- Sym(r0, ":");
    var w :- Word(SkipSpaces(r1), KubeName);
    if IsBlank(w.1) then Some(w.0) else None
  }

  /** What the loop body's patterns say about one line. */
  datatype LineInfo = LineInfo(
    kind: Option<Kind>,
    name: Option<string>,
    containerPort: Option<string>,
    servicePort: Option<string>,
    svcType: Option<string>)

  function Classify(ln: string): LineInfo {
    LineInfo(KindLine(ln), NameLine(ln), Search(ContainerPort, ln), Search(ServicePort, ln), Search(ServiceType, ln))
  }

  /** The classification of every line, in order (line by line: `ClassifiedAt`). */
  function ClassifyLines(lines: seq<string>): (infos: seq<LineInfo>)
    ensures |infos| == |lines|
  {
    if lines == [] then [] else [Classify(lines[0])] + ClassifyLines(lines[1..])
  }

  lemma {:induction false} ClassifiedAt(lines: seq<string>, j: int)
    requires 0 <= j < |lines|
    ensures ClassifyLines(lines)[j] == Classify(lines[j])
  {
    if j > 0 {
      ClassifiedAt(lines[1..], j - 1);
    }
  }

  /** The variables of one document's scan. */
  datatype DocState = DocState(
    kind: Option<Kind>,
    name: Option<string>,
    ports: set<string>,
    svcType: Option<string>,
    ingress: bool)

  const Fresh := DocState(None, None, {}, None, false)

  function AsSet<T>(o: Option<T>): set<T> {
    match o
    case Some(x) => {x}
    case None => {}
  }

  /**
   One iteration of the inner loop. A kind line only sets the kind, and the
   first name line only sets the name; every other line is searched for
   ports, for the Service type while the kind is Service, and marks the
   document as an Ingress while the kind is Ingress.
   */
  function Step(st: DocState, li: LineInfo): DocState {
    if li.kind.Some? then st.(kind := li.kind)
    else if st.name.None? && li.name.Some? then st.(name := li.name)
    else
      var isService := st.kind == Some(Service);
      st.(ports := st.ports + AsSet(li.containerPort) + (if isService then AsSet(li.servicePort) else {}),
          svcType := if isService && li.svcType.Some? then li.svcType else st.svcType,
          ingress := st.ingress || st.kind == Some(Ingress))
  }

  function Run(infos: seq<LineInfo>, n: nat): DocState
    requires n <= |infos|
  {
    if n == 0 then Fresh else Step(Run(infos, n - 1), infos[n - 1])
  }

  datatype Unit = Unit(kind: Kind, name: string, ports: set<string>, svcType: Option<string>, ingress: bool)

  /** The state after all of `lines`. */
  function ScanLines(lines: seq<string>): DocState {
    Run(ClassifyLines(lines), |lines|)
  }

  /** The state at the end of one document. */
  function Scan(doc: string): DocState {
    ScanLines(SplitLines(doc))
  }

  /** The unit of one document, when it named both a kind and a name. */
  function ParseDoc(doc: string): Option<Unit> {
    var st := Scan(doc);
    if st.kind.Some? && st.name.Some? then
      Some(Unit(st.kind.value, st.name.value, st.ports, st.svcType, st.ingress))
    else None
  }

  function Collect(docs: seq<string>): (units: seq<Unit>)
    ensures |units| <= |docs|
  {
    if docs == [] then [] else Singleton(ParseDoc(docs[0])) + Collect(docs[1..])
  }

  function Singleton<T>(o: Option<T>): seq<T> {
    match o
    case Some(x) => [x]
    case None => []
  }

  /** `_parse_k8s_units(text)`: one unit per document with a kind and a name, in file order. */
  function ParseUnits(text: string): seq<Unit> {
    Collect(SplitDocs(text))
  }
}

/** Properties of the Kubernetes scanner. */
module KubeFacts {
  import opened Options
  import opened Text
  import opened Patterns
  import opened Kube

  /** A separator needs `---` right after its first character. */
  lemma SepEndHasDashes(s: string, i: nat)
    requires i <= |s| && SepEnd(s, i).Some?
    ensures OccursAt(s, "---", i + 1)
  {
  }

  lemma {:induction false} NoSeparatorOnePiece(s: string, start: nat, i: nat)
    requires start <= i <= |s|
    requires forall j :: i <= j <= |s| ==> SepEnd(s, j).None?
    ensures SplitFrom(s, start, i).0 == [s[start..]]
    decreases |s| - i
  {
    if i < |s| {
      NoSeparatorOnePiece(s, start, i + 1);
    }
  }

  /** The `"---" in text` guard never changes the result: without `---` there is no separator to split at. */
  lemma SplitDocsIsSplit(text: string)
    ensures SplitDocs(text) == SplitFrom(text, 0, 0).0
  {
    if !Contains(text, "---") {
      forall j | 0 <= j <= |text| ensures SepEnd(text, j).None? {
        if SepEnd(text, j).Some? {
          SepEndHasDashes(text, j);
        }
      }
      NoSeparatorOnePiece(text, 0, 0);
    }
  }

  /** The documents, joined back with the separators that were cut out, give the text. */
  lemma SplitDocsRejoin(text: string)
    ensures exists seps :: && |seps| + 1 == |SplitDocs(text)|
                           && (forall k :: 0 <= k < |seps| ==> IsSeparator(seps[k]))
                           && Interleave(SplitDocs(text), seps) == text
  {
    SplitDocsIsSplit(text);
    var r := SplitFrom(text, 0, 0);
    assert text[0..] == text;
    assert Interleave(r.0, r.1) == text;
  }

  /** Line `j` reaches the name test and matches it. */
  ghost predicate IsNameLine(infos: seq<LineInfo>, j: int) {
    0 <= j < |infos| && infos[j].kind.None? && infos[j].name.Some?
  }

  /** Line `j` is the first name line. */
  ghost predicate FirstNameLine(infos: seq<LineInfo>, j: int) {
    IsNameLine(infos, j) && forall i :: 0 <= i < j ==> !IsNameLine(infos, i)
  }

  /** Line `j` is the last kind line among the first `n`. */
  ghost predicate LastKindLine(infos: seq<LineInfo>, n: nat, j: int) {
    0 <= j < n <= |infos| && infos[j].kind.Some? && forall i :: j < i < n ==> infos[i].kind.None?
  }

  /** Line `j` gets past the kind and name tests to the port, type and ingress tests. */
  ghost predicate Scanned(infos: seq<LineInfo>, j: int) {
    0 <= j < |infos| && infos[j].kind.None? && !FirstNameLine(infos, j)
  }

  /** The kind is the one on the last kind line, and there is none without a kind line. */
  lemma {:induction false} RunKind(infos: seq<LineInfo>, n: nat)
    requires n <= |infos|
    ensures Run(infos, n).kind.None? <==> forall j :: 0 <= j < n ==> infos[j].kind.None?
    ensures forall j :: LastKindLine(infos, n, j) ==> Run(infos, n).kind == infos[j].kind
  {
    if n > 0 {
      RunKind(infos, n - 1);
      forall j | LastKindLine(infos, n, j) ensures Run(infos, n).kind == infos[j].kind {
        if j < n - 1 {
          assert LastKindLine(infos, n - 1, j);
        }
      }
    }
  }

  /** The name is the one on the first name line, and there is none without a name line. */
  lemma {:induction false} RunName(infos: seq<LineInfo>, n: nat)
    requires n <= |infos|
    ensures Run(infos, n).name.Some? <==> exists j :: 0 <= j < n && FirstNameLine(infos, j)
    ensures forall j :: 0 <= j < n && FirstNameLine(infos, j) ==> Run(infos, n).name == infos[j].name
  {
    if n > 0 {
      RunName(infos, n - 1);
      var st := Run(infos, n - 1);
      if st.name.None? && IsNameLine(infos, n - 1) {
        forall i | 0 <= i < n - 1 ensures !IsNameLine(infos, i) {
          if IsNameLine(infos, i) {
            FirstExists(infos, i);
          }
        }
        assert FirstNameLine(infos, n - 1);
      }
      if exists j :: 0 <= j < n && FirstNameLine(infos, j) {
        var j :| 0 <= j < n && FirstNameLine(infos, j);
        if j < n - 1 {
          assert st.name.Some?;
        }
      }
      forall j | 0 <= j < n && FirstNameLine(infos, j) ensures Run(infos, n).name == infos[j].name {
        if j == n - 1 {
          assert st.name.None?;
        }
      }
    }
  }

  /** `Run(infos, j).name` is still unset exactly when no name line came before `j`. */
  lemma NameUnsetBefore(infos: seq<LineInfo>, j: nat)
    requires j < |infos|
    ensures Run(infos, j).name.None? <==> forall i :: 0 <= i < j ==> !IsNameLine(infos, i)
  {
    RunName(infos, j);
    if !forall i :: 0 <= i < j ==> !IsNameLine(infos, i) {
      var i :| 0 <= i < j && IsNameLine(infos, i);
      FirstExists(infos, i);
    }
  }

  /** Some name line comes first. */
  lemma {:induction false} FirstExists(infos: seq<LineInfo>, i: int)
    requires IsNameLine(infos, i)
    ensures exists f :: 0 <= f <= i && FirstNameLine(infos, f)
    decreases i
  {
    if !FirstNameLine(infos, i) {
      var h :| 0 <= h < i && IsNameLine(infos, h);
      FirstExists(infos, h);
    }
  }

  /** Whether line `j` is the one that sets the name, told by the state before it. */
  lemma SetsName(infos: seq<LineInfo>, j: nat)
    requires j < |infos|
    ensures FirstNameLine(infos, j) <==> IsNameLine(infos, j) && Run(infos, j).name.None?
  {
    NameUnsetBefore(infos, j);
  }

  /**
   A port is recorded exactly when a scanned line carries it: a `containerPort`
   at any time, a `port` only while the kind is Service.
   */
  lemma {:induction false} RunPorts(infos: seq<LineInfo>, n: nat, p: string)
    requires n <= |infos|
    ensures p in Run(infos, n).ports <==>
      exists j :: 0 <= j < n && Scanned(infos, j)
        && (infos[j].containerPort == Some(p) || (infos[j].servicePort == Some(p) && Run(infos, j).kind == Some(Service)))
  {
    if n > 0 {
      RunPorts(infos, n - 1, p);
      SetsName(infos, n - 1);
    }
  }

  /** The Ingress flag is raised exactly by a scanned line while the kind is Ingress. */
  lemma {:induction false} RunIngress(infos: seq<LineInfo>, n: nat)
    requires n <= |infos|
    ensures Run(infos, n).ingress <==> exists j :: 0 <= j < n && Scanned(infos, j) && Run(infos, j).kind == Some(Ingress)
  {
    if n > 0 {
      RunIngress(infos, n - 1);
      SetsName(infos, n - 1);
    }
  }

  /** Line `j` is scanned while the kind is Service and carries a service type. */
  ghost predicate TypeLine(infos: seq<LineInfo>, j: int) {
    Scanned(infos, j) && Run(infos, j).kind == Some(Service) && infos[j].svcType.Some?
  }

  /** Line `j` is the last type line among the first `n`. */
  ghost predicate LastTypeLine(infos: seq<LineInfo>, n: nat, j: int) {
    0 <= j < n <= |infos| && TypeLine(infos, j) && forall i :: j < i < n ==> !TypeLine(infos, i)
  }

  /** A Service type is recorded exactly when a scanned line of a Service carries one, and the last such line wins. */
  lemma {:induction false} RunServiceType(infos: seq<LineInfo>, n: nat)
    requires n <= |infos|
    ensures Run(infos, n).svcType.Some? <==> exists j :: 0 <= j < n && TypeLine(infos, j)
    ensures Run(infos, n).svcType.Some? ==>
      exists j :: 0 <= j < n && infos[j].svcType == Run(infos, n).svcType
    ensures forall j :: LastTypeLine(infos, n, j) ==> Run(infos, n).svcType == infos[j].svcType
  {
    if n > 0 {
      RunServiceType(infos, n - 1);
      SetsName(infos, n - 1);
      assert Run(infos, n).svcType == if TypeLine(infos, n - 1) then infos[n - 1].svcType else Run(infos, n - 1).svcType;
      forall j | LastTypeLine(infos, n, j) ensures Run(infos, n).svcType == infos[j].svcType {
        if j < n - 1 {
          assert LastTypeLine(infos, n - 1, j);
        }
      }
    }
  }

  /** A name line right after an Ingress kind line is consumed as the name, so it does not raise the flag. */
  lemma IngressNameLineNotCounted(k: LineInfo, nm: LineInfo)
    requires k.kind == Some(Ingress)
    requires nm.kind.None? && nm.name.Some?
    ensures !Run([k, nm], 2).ingress && Run([k, nm], 2).kind == Some(Ingress)
  {
    assert Run([k, nm], 1) == Fresh.(kind := Some(Ingress));
  }

  /** A kind line is never a name line: after the blanks one starts with `kind`, the other with `name`. */
  lemma KindLineIsNotNameLine(ln: string)
    requires KindLine(ln).Some?
    ensures NameLine(ln).None?
  {
    assert SkipSpaces(ln)[..4] == "kind";
  }

  /** The kind and name tests of line `j`, as the scan sees them. */
  lemma KindNameAt(lines: seq<string>, j: int)
    requires 0 <= j < |lines|
    ensures ClassifyLines(lines)[j].kind == KindLine(lines[j])
    ensures ClassifyLines(lines)[j].name == NameLine(lines[j])
  {
    ClassifiedAt(lines, j);
  }

  /** A name line of the file is a name line of the scan. */
  lemma NameLineAt(lines: seq<string>, j: int)
    requires 0 <= j < |lines| && NameLine(lines[j]).Some?
    ensures IsNameLine(ClassifyLines(lines), j)
  {
    KindNameAt(lines, j);
    if KindLine(lines[j]).Some? {
      KindLineIsNotNameLine(lines[j]);
    }
  }

  ghost predicate HasKindLine(lines: seq<string>) {
    exists j :: 0 <= j < |lines| && KindLine(lines[j]).Some?
  }

  ghost predicate HasNameLine(lines: seq<string>) {
    exists j :: 0 <= j < |lines| && NameLine(lines[j]).Some?
  }

  /** A document has a kind exactly when it has a kind line. */
  lemma ScanKind(lines: seq<string>)
    ensures ScanLines(lines).kind.Some? <==> HasKindLine(lines)
  {
    var infos := ClassifyLines(lines);
    RunKind(infos, |infos|);
    if exists j :: 0 <= j < |lines| && KindLine(lines[j]).Some? {
      var j :| 0 <= j < |lines| && KindLine(lines[j]).Some?;
      KindNameAt(lines, j);
    }
    if Run(infos, |infos|).kind.Some? {
      var j :| 0 <= j < |infos| && infos[j].kind.Some?;
      KindNameAt(lines, j);
    }
  }

  /** The scan ends with a name exactly when some line is a name line. */
  lemma RunNameIff(infos: seq<LineInfo>)
    ensures Run(infos, |infos|).name.Some? <==> exists j :: IsNameLine(infos, j)
  {
    RunName(infos, |infos|);
    if exists j :: IsNameLine(infos, j) {
      var j :| IsNameLine(infos, j);
      FirstExists(infos, j);
    }
  }

  /** The name lines of the scan are the name lines of the file. */
  lemma NameLinesAgree(lines: seq<string>)
    ensures (exists j :: IsNameLine(ClassifyLines(lines), j)) <==> exists j :: 0 <= j < |lines| && NameLine(lines[j]).Some?
  {
    if exists j :: 0 <= j < |lines| && NameLine(lines[j]).Some? {
      var j :| 0 <= j < |lines| && NameLine(lines[j]).Some?;
      NameLineAt(lines, j);
    }
    if exists j :: IsNameLine(ClassifyLines(lines), j) {
      var j :| IsNameLine(ClassifyLines(lines), j);
      KindNameAt(lines, j);
    }
  }

  /** A document has a name exactly when it has a name line. */
  lemma ScanName(lines: seq<string>)
    ensures ScanLines(lines).name.Some? <==> HasNameLine(lines)
  {
    RunNameIff(ClassifyLines(lines));
    NameLinesAgree(lines);
  }

  /** A document yields a unit exactly when it has a kind line and a name line. */
  lemma ParseDocEmits(doc: string)
    ensures ParseDoc(doc).Some? <==> HasKindLine(SplitLines(doc)) && HasNameLine(SplitLines(doc))
  {
    ScanKind(SplitLines(doc));
    ScanName(SplitLines(doc));
  }

  /** The parts of a unit have the shapes the patterns allow. */
  ghost predicate UnitShaped(u: Unit) {
    && |u.name| > 0 && AllChars(u.name, KubeName)
    && (forall p :: p in u.ports ==> IsDigits(p))
    && (u.svcType.Some? ==> Lower(u.svcType.value) == "loadbalancer" || Lower(u.svcType.value) == "nodeport")
  }

  /** Every captured value of a classified line has its pattern's shape. */
  lemma ClassifiedShapes(lines: seq<string>, j: int)
    requires 0 <= j < |lines|
    ensures var li := ClassifyLines(lines)[j];
      && (li.name.Some? ==> |li.name.value| > 0 && AllChars(li.name.value, KubeName))
      && (li.containerPort.Some? ==> IsDigits(li.containerPort.value))
      && (li.servicePort.Some? ==> IsDigits(li.servicePort.value))
      && (li.svcType.Some? ==> Lower(li.svcType.value) == "loadbalancer" || Lower(li.svcType.value) == "nodeport")
  {
    var ln := lines[j];
    ClassifiedAt(lines, j);
    if Search(ContainerPort, ln).Some? {
      var i :| 0 <= i <= |ln| && MatchAt(ContainerPort, ln, i) == Search(ContainerPort, ln);
    }
    if Search(ServicePort, ln).Some? {
      var i :| 0 <= i <= |ln| && MatchAt(ServicePort, ln, i) == Search(ServicePort, ln);
    }
    if Search(ServiceType, ln).Some? {
      var i :| 0 <= i <= |ln| && MatchAt(ServiceType, ln, i) == Search(ServiceType, ln);
    }
  }

  lemma ParseDocShaped(doc: string)
    requires ParseDoc(doc).Some?
    ensures UnitShaped(ParseDoc(doc).value)
  {
    var lines := SplitLines(doc);
    var infos := ClassifyLines(lines);
    var n := |infos|;
    var u := ParseDoc(doc).value;
    RunName(infos, n);
    var f :| 0 <= f < n && FirstNameLine(infos, f);
    ClassifiedShapes(lines, f);
    forall p | p in u.ports ensures IsDigits(p) {
      RunPorts(infos, n, p);
      var j :| 0 <= j < n && Scanned(infos, j)
        && (infos[j].containerPort == Some(p) || (infos[j].servicePort == Some(p) && Run(infos, j).kind == Some(Service)));
      ClassifiedShapes(lines, j);
    }
    if u.svcType.Some? {
      RunServiceType(infos, n);
      var j :| 0 <= j < n && infos[j].svcType == u.svcType;
      ClassifiedShapes(lines, j);
    }
  }

  /** Every unit comes from one document of the file. */
  lemma {:induction false} CollectFromDocs(docs: seq<string>, u: Unit)
    requires u in Collect(docs)
    ensures exists d :: d in docs && ParseDoc(d) == Some(u)
  {
    if u in Singleton(ParseDoc(docs[0])) {
      assert docs[0] in docs;
    } else {
      CollectFromDocs(docs[1..], u);
      var d :| d in docs[1..] && ParseDoc(d) == Some(u);
      assert d in docs;
    }
  }

  /** Every document with a kind and a name gives its unit. */
  lemma {:induction false} CollectHasDoc(docs: seq<string>, i: nat)
    requires i < |docs| && ParseDoc(docs[i]).Some?
    ensures ParseDoc(docs[i]).value in Collect(docs)
  {
    if 0 < i {
      assert docs[1..][i - 1] == docs[i];
      CollectHasDoc(docs[1..], i - 1);
    }
  }

  /**
   The units of two runs of documents are those of the first run followed by
   those of the second: units keep the order of their documents.
   */
  lemma {:induction false} CollectAppend(a: seq<string>, b: seq<string>)
    ensures Collect(a + b) == Collect(a) + Collect(b)
  {
    if a == [] {
      assert a + b == b;
    } else {
      assert (a + b)[0] == a[0] && (a + b)[1..] == a[1..] + b;
      CollectAppend(a[1..], b);
    }
  }

  /** Every unit of a file has a non-empty name of `[a-z0-9-_.]`, digit-string ports and a LoadBalancer or NodePort type. */
  lemma ParseUnitsShaped(text: string, u: Unit)
    requires u in ParseUnits(text)
    ensures UnitShaped(u)
  {
    CollectFromDocs(SplitDocs(text), u);
    var d :| d in SplitDocs(text) && ParseDoc(d) == Some(u);
    ParseDocShaped(d);
  }

  /** `v` is on a name line with no name line before it. */
  ghost predicate FirstNameIs(lines: seq<string>, v: string) {
    exists j :: 0 <= j < |lines| && NameLine(lines[j]) == Some(v) && forall i :: 0 <= i < j ==> NameLine(lines[i]).None?
  }

  /** The unit's name is taken from the first name line of its document; later ones are ignored. */
  lemma ParseDocName(doc: string)
    requires ParseDoc(doc).Some?
    ensures FirstNameIs(SplitLines(doc), ParseDoc(doc).value.name)
  {
    var lines := SplitLines(doc);
    var infos := ClassifyLines(lines);
    RunName(infos, |infos|);
    var f :| 0 <= f < |infos| && FirstNameLine(infos, f);
    KindNameAt(lines, f);
    forall i | 0 <= i < f ensures NameLine(lines[i]).None? {
      if NameLine(lines[i]).Some? {
        NameLineAt(lines, i);
      }
    }
  }
}
