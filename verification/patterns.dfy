/**
 The unanchored `re.search` patterns of the scanners, each with one capture
 group. `MatchAt` is the pattern anchored at one index; `Search` reports the
 capture of the leftmost index where the pattern matches.
 */
module Patterns {
  import opened Options
  import opened Text

  datatype Pattern =
    | ContainerPort   // `containerPort\s*:\s*(\d+)`
    | ServicePort     // `\bport\s*:\s*(\d+)`
    | ServiceType     // `\btype\s*:\s*(LoadBalancer|NodePort)\b`, case-insensitive
    | EnvPort         // `PORT\s*=\s*(\d+)`
    | PortFlag        // `--port\s+(\d+)`

  /** `\b` in front of a word character: the start, or a non-word character before it. */
  predicate WordStart(s: string, i: nat)
    requires i <= |s|
  {
    i == 0 || !IsWordChar(s[i - 1])
  }

  /** `\b` behind a word character: the end, or a non-word character after it. */
  predicate WordEnd(s: string) {
    s == [] || !IsWordChar(s[0])
  }

  /** The literal `p` (lower-case letters) matched case-insensitively: the text matched and the rest. */
  function LitI(s: string, p: string): (r: Option<(string, string)>)
    ensures r.Some? ==> |p| <= |s| && Lower(r.value.0) == p && s == r.value.0 + r.value.1
  {
    if |p| <= |s| && Lower(s[..|p|]) == p then
      assert s == s[..|p|] + s[|p|..];
      Some((s[..|p|], s[|p|..]))
    else None
  }

  /** `\s*` then digits: the maximal run of digits. */
  function Number(s: string): (r: Option<string>)
    ensures r.Some? ==> IsDigits(r.value)
  {
    var w :- Word(SkipSpaces(s), Digit);
    Some(w.0)
  }

  /** `(LoadBalancer|NodePort)\b`, case-insensitive: the text as written. */
  function TypeName(s: string): (r: Option<string>)
    ensures r.Some? ==> Lower(r.value) == "loadbalancer" || Lower(r.value) == "nodeport"
  {
    var lb := LitI(s, "loadbalancer");
    if lb.Some? && WordEnd(lb.value.1) then Some(lb.value.0)
    else
      var np := LitI(s, "nodeport");
      if np.Some? && WordEnd(np.value.1) then Some(np.value.0) else None
  }

  /** The capture of `p` when the match starts exactly at index `i` of `s`. */
  function MatchAt(p: Pattern, s: string, i: nat): (r: Option<string>)
    requires i <= |s|
    ensures r.Some? && p != ServiceType ==> IsDigits(r.value)
    ensures r.Some? && p == ServiceType ==> Lower(r.value) == "loadbalancer" || Lower(r.value) == "nodeport"
  {
    var t := s[i..];
    match p
    case ContainerPort =>
      var r :- Lit(t, "containerPort");
      var r1 :- Sym(r, ":");
      Number(r1)
    case ServicePort =>
      if !WordStart(s, i) then None
      else
        var r :- Lit(t, "port");
        var r1 :- Sym(r, ":");
        Number(r1)
    case ServiceType =>
      if !WordStart(s, i) then None
      else
        var r :- LitI(t, "type");
        var r1 :- Sym(r.1, ":");
        TypeName(SkipSpaces(r1))
    case EnvPort =>
      var r :- Lit(t, "PORT");
      var r1 :- Sym(r, "=");
      Number(r1)
    case PortFlag =>
      var r :- Lit(t, "--port");
      if Span(r, Space) == 0 then None
      else
        var w :- Word(SkipSpaces(r), Digit);
        Some(w.0)
  }

  /** The anchored match of `p` at every index of `s`, end included. */
  function Table(p: Pattern, s: string): (t: seq<Option<string>>)
    ensures |t| == |s| + 1
    ensures forall j :: 0 <= j <= |s| ==> t[j] == MatchAt(p, s, j)
  {
    seq(|s| + 1, j requires 0 <= j <= |s| => MatchAt(p, s, j))
  }

  /** The first present entry of `t` at or after `from`, with its index. */
  function FirstFrom<T>(t: seq<Option<T>>, from: nat): (r: Option<(nat, T)>)
    requires from <= |t|
    ensures r.Some? ==> from <= r.value.0 < |t| && t[r.value.0] == Some(r.value.1)
    ensures r.Some? ==> forall j :: from <= j < r.value.0 ==> t[j].None?
    ensures r.None? ==> forall j :: from <= j < |t| ==> t[j].None?
    decreases |t| - from
  {
    if from == |t| then None
    else if t[from].Some? then Some((from, t[from].value))
    else FirstFrom(t, from + 1)
  }

  /** `p` matches somewhere in `s`. */
  ghost predicate Matches(p: Pattern, s: string) {
    exists i :: 0 <= i <= |s| && MatchAt(p, s, i).Some?
  }

  /** `r` is the capture of the leftmost match of `p` in `s`. */
  ghost predicate Leftmost(p: Pattern, s: string, r: Option<string>) {
    && r.Some?
    && exists i :: 0 <= i <= |s| && MatchAt(p, s, i) == r && forall j :: 0 <= j < i ==> MatchAt(p, s, j).None?
  }

  /** `re.search(p, s)`: the capture of the leftmost match. */
  function Search(p: Pattern, s: string): (r: Option<string>)
    ensures r.Some? <==> exists i :: 0 <= i <= |s| && MatchAt(p, s, i).Some?
    ensures r.Some? ==> exists i :: 0 <= i <= |s| && MatchAt(p, s, i) == r
                          && forall j :: 0 <= j < i ==> MatchAt(p, s, j).None?
  {
    var t := Table(p, s);
    match FirstFrom(t, 0)
    case Some(m) =>
      assert t[m.0] == MatchAt(p, s, m.0);
      Some(m.1)
    case None =>
      assert forall i :: 0 <= i <= |s| ==> t[i] == MatchAt(p, s, i);
      None
  }
}
