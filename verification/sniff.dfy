/**
 The two sniffers: `_sniff_env` looks for database and broker names in the
 `.env` files, `_sniff_package_json` reads framework dependencies and an
 application port from `package.json`. Reading the files is left to the
 caller: the env files arrive as their contents (`None` for a candidate path
 that is not a regular file) and `package.json` as an already parsed record.
 */
module Sniff {
  import opened Options
  import opened Text
  import opened Patterns
  import SortedSets

  /** `DB_HINTS`, in its insertion order: needle, then the label it reports. */
  const DbHints: seq<(string, string)> := [
    ("postgres", "Postgres"), ("postgresql", "Postgres"), ("psql", "Postgres"),
    ("redis", "Redis"), ("rediscache", "Redis"),
    ("mongo", "MongoDB"), ("mongodb", "MongoDB"),
    ("mysql", "MySQL"), ("mariadb", "MariaDB"),
    ("kafka", "Kafka"), ("rabbit", "RabbitMQ"), ("amqp", "RabbitMQ"),
    ("elasticsearch", "Elasticsearch"), ("opensearch", "OpenSearch")]

  const FrameworkHints: seq<string> :=
    ["express", "fastify", "nest", "koa", "next", "sveltekit", "django", "flask", "fastapi", "rails"]

  /** At most this many env candidates are looked at. */
  const MaxEnvFiles := 20

  /** Label `l` is hinted by candidate `i`: it is a file whose lower-cased text contains a needle of `l`. */
  ghost predicate HintedBy(candidates: seq<Option<string>>, i: int, l: string) {
    && 0 <= i < |candidates| && candidates[i].Some?
    && exists k :: 0 <= k < |DbHints| && DbHints[k].1 == l && Contains(Lower(candidates[i].value), DbHints[k].0)
  }

  /** `_sniff_env`: the hinted labels of the first twenty candidates, as `sorted(...)` lists them. */
  method SniffEnv(candidates: seq<Option<string>>) returns (hints: seq<string>)
    ensures SortedSets.IsSorted(hints)
    ensures forall l :: l in hints <==> exists i :: 0 <= i < MaxEnvFiles && HintedBy(candidates, i, l)
  {
    hints := [];
    var n := if |candidates| < MaxEnvFiles then |candidates| else MaxEnvFiles;
    var i := 0;
    while i < n
      invariant 0 <= i <= n
      invariant SortedSets.IsSorted(hints)
      invariant forall l :: l in hints <==> exists j :: 0 <= j < i && HintedBy(candidates, j, l)
    {
      if candidates[i].Some? {
        var text := Lower(candidates[i].value);
        var k := 0;
        while k < |DbHints|
          invariant 0 <= k <= |DbHints|
          invariant SortedSets.IsSorted(hints)
          invariant forall l :: l in hints <==>
            (exists j :: 0 <= j < i && HintedBy(candidates, j, l))
            || exists h :: 0 <= h < k && DbHints[h].1 == l && Contains(text, DbHints[h].0)
        {
          if Contains(text, DbHints[k].0) {
            hints := SortedSets.Insert(hints, DbHints[k].1);
          }
          k := k + 1;
        }
        assert forall l :: HintedBy(candidates, i, l) <==>
          exists h :: 0 <= h < |DbHints| && DbHints[h].1 == l && Contains(text, DbHints[h].0);
      }
      assert forall l :: l in hints <==> (exists j :: 0 <= j < i && HintedBy(candidates, j, l)) || HintedBy(candidates, i, l);
      forall l ensures l in hints <==> exists j :: 0 <= j < i + 1 && HintedBy(candidates, j, l) {
        if exists j :: 0 <= j < i + 1 && HintedBy(candidates, j, l) {
          var j :| 0 <= j < i + 1 && HintedBy(candidates, j, l);
          assert j < i || j == i;
        }
      }
      i := i + 1;
    }
  }

  /**
   What `package.json` offers the sniffer: the keys of `dependencies` and of
   `devDependencies`, and the values of `scripts`, each in file order.
   */
  datatype Manifest = Manifest(deps: seq<string>, devDeps: seq<string>, scripts: seq<string>)

  /** `{**a, **b}` on the keys: every key of `a` or of `b`, each once. */
  function MergeKeys(a: seq<string>, b: seq<string>): (r: seq<string>)
    ensures forall k :: k in r <==> k in a || k in b
    ensures forall i, j :: 0 <= i < j < |r| ==> r[i] != r[j]
  {
    var r := Dedup(a + b, []);
    assert [] + r == r;
    r
  }

  /** Drops every key already in `seen` or earlier in `s`. */
  function Dedup(s: seq<string>, seen: seq<string>): (r: seq<string>)
    requires forall i, j :: 0 <= i < j < |seen| ==> seen[i] != seen[j]
    ensures forall k :: k in seen + r <==> k in seen || k in s
    ensures forall i, j :: 0 <= i < j < |seen + r| ==> (seen + r)[i] != (seen + r)[j]
    ensures forall k :: k in r ==> k !in seen
    decreases |s|
  {
    if s == [] then []
    else if s[0] in seen then Dedup(s[1..], seen)
    else
      var r := Dedup(s[1..], seen + [s[0]]);
      assert seen + [s[0]] + r == seen + ([s[0]] + r);
      [s[0]] + r
  }

  /** `any(k.lower() == h for h in FRAMEWORK_HINTS)` */
  predicate IsFramework(k: string) {
    Lower(k) in FrameworkHints
  }

  /** The keys that name a framework. */
  function Frameworks(keys: seq<string>): (r: seq<string>)
    ensures forall k :: k in r <==> k in keys && IsFramework(k)
    ensures |r| <= |keys|
  {
    if keys == [] then []
    else (if IsFramework(keys[0]) then [keys[0]] else []) + Frameworks(keys[1..])
  }

  /** `re.search(r"PORT\s*=\s*(\d+)", s) or re.search(r"--port\s+(\d+)", s)`: the port a script names. */
  function ScriptPort(s: string): (r: Option<string>)
    ensures r.Some? ==> IsDigits(r.value)
    ensures r.Some? <==> Matches(EnvPort, s) || Matches(PortFlag, s)
    ensures Matches(EnvPort, s) ==> Leftmost(EnvPort, s, r)
    ensures !Matches(EnvPort, s) && Matches(PortFlag, s) ==> Leftmost(PortFlag, s, r)
  {
    var e := Search(EnvPort, s);
    if e.Some? then
      var i :| 0 <= i <= |s| && MatchAt(EnvPort, s, i) == e;
      e
    else
      var f := Search(PortFlag, s);
      if f.Some? then
        var i :| 0 <= i <= |s| && MatchAt(PortFlag, s, i) == f;
        f
      else None
  }

  /** The port of the first script that names one. */
  function FirstScriptPort(scripts: seq<string>): (r: Option<string>)
    ensures r.Some? ==> exists i :: 0 <= i < |scripts| && ScriptPort(scripts[i]) == r
                          && forall j :: 0 <= j < i ==> ScriptPort(scripts[j]).None?
    ensures r.None? ==> forall i :: 0 <= i < |scripts| ==> ScriptPort(scripts[i]).None?
  {
    FirstFound(scripts, ScriptPort)
  }

  /** The first `Some` that `find` gives along `s`. */
  function FirstFound(s: seq<string>, find: string -> Option<string>): (r: Option<string>)
    ensures r.Some? ==> exists i :: 0 <= i < |s| && find(s[i]) == r && forall j :: 0 <= j < i ==> find(s[j]).None?
    ensures r.None? ==> forall i :: 0 <= i < |s| ==> find(s[i]).None?
  {
    if s == [] then None
    else if find(s[0]).Some? then find(s[0])
    else
      var r := FirstFound(s[1..], find);
      if r.Some? then
        var i :| 0 <= i < |s[1..]| && find(s[1..][i]) == r && forall j :: 0 <= j < i ==> find(s[1..][j]).None?;
        assert find(s[i + 1]) == r;
        r
      else r
  }

  /** `_sniff_package_json`: no manifest gives no frameworks and no port. */
  function SniffPackage(m: Option<Manifest>): (r: (seq<string>, Option<string>))
    ensures m.None? ==> r == ([], None)
    ensures m.Some? ==> forall k :: k in r.0 <==> (k in m.value.deps || k in m.value.devDeps) && IsFramework(k)
  {
    match m
    case None => ([], None)
    case Some(mf) => (Frameworks(MergeKeys(mf.deps, mf.devDeps)), FirstScriptPort(mf.scripts))
  }
}
