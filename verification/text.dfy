/** The optional-value datatype used throughout the model. */
module Options {
  datatype Option<+T> = None | Some(value: T) {
    predicate IsFailure() {
      None?
    }

    function PropagateFailure<U>(): Option<U>
      requires None?
    {
      None
    }

    function Extract(): T
      requires Some?
    {
      value
    }
  }
}

/**
 Character classes and string helpers shared by the scanners, the assembler
 and the renderer. Regular expressions of the source are expressed with the
 small vocabulary defined here: `Span` (a greedy run of one character class),
 `SkipSpaces` (`\s*`) and `Lit` (a literal prefix).
 */
module Text {
  import opened Options

  /** What `\s` matches in a Python `str` pattern: the characters `str.isspace` accepts. */
  predicate IsSpace(c: char) {
    ('\t' <= c <= '\r') || ('\U{1C}' <= c <= ' ') || c == '\U{85}' || c == '\U{A0}'
    || c == '\U{1680}' || ('\U{2000}' <= c <= '\U{200A}') || c == '\U{2028}' || c == '\U{2029}'
    || c == '\U{202F}' || c == '\U{205F}' || c == '\U{3000}'
  }

  /** The line boundaries of Python's `str.splitlines` (`\r\n` is handled by `SplitLines`). */
  predicate IsLineBreak(c: char) {
    c == '\n' || c == '\r' || c == '\U{0B}' || c == '\U{0C}' || ('\U{1C}' <= c <= '\U{1E}')
    || c == '\U{85}' || c == '\U{2028}' || c == '\U{2029}'
  }

  predicate IsDigit(c: char) { '0' <= c <= '9' }
  predicate IsUpper(c: char) { 'A' <= c <= 'Z' }
  predicate IsLetter(c: char) { IsUpper(c) || 'a' <= c <= 'z' }
  /** `\w`, restricted to ASCII. */
  predicate IsWordChar(c: char) { IsLetter(c) || IsDigit(c) || c == '_' }

  /** `[A-Za-z0-9._-]`: compose service, dependency and network names. */
  predicate IsComposeNameChar(c: char) {
    IsLetter(c) || IsDigit(c) || c == '.' || c == '_' || c == '-'
  }

  /** `[a-z0-9\-_.]`: Kubernetes object names. */
  predicate IsKubeNameChar(c: char) {
    'a' <= c <= 'z' || IsDigit(c) || c == '-' || c == '_' || c == '.'
  }

  /** `[A-Za-z_]`: the value of a compose `condition`. */
  predicate IsConditionChar(c: char) {
    IsLetter(c) || c == '_'
  }

  /** `[A-Za-z0-9:_\-/.]`: the characters `_sanitize_id` keeps. */
  predicate IsSafeChar(c: char) {
    IsLetter(c) || IsDigit(c) || c == ':' || c == '_' || c == '-' || c == '/' || c == '.'
  }

  /** The character classes the patterns use. */
  datatype CharClass = Space | Digit | ComposeName | KubeName | ConditionName | SafeId

  predicate In(c: char, cls: CharClass) {
    match cls
    case Space => IsSpace(c)
    case Digit => IsDigit(c)
    case ComposeName => IsComposeNameChar(c)
    case KubeName => IsKubeNameChar(c)
    case ConditionName => IsConditionChar(c)
    case SafeId => IsSafeChar(c)
  }

  predicate AllChars(s: string, cls: CharClass) {
    forall i :: 0 <= i < |s| ==> In(s[i], cls)
  }

  /** `\d+` matched in full. */
  predicate IsDigits(s: string) { |s| > 0 && AllChars(s, Digit) }

  /** `\s*` matched in full. */
  predicate IsBlank(s: string) { AllChars(s, Space) }

  /** Length of the longest prefix of `s` whose characters satisfy `p`: a greedy `[...]*`. */
  function Span(s: string, cls: CharClass): (n: nat)
    ensures n <= |s|
    ensures forall i :: 0 <= i < n ==> In(s[i], cls)
    ensures n < |s| ==> !In(s[n], cls)
  {
    if s == [] || !In(s[0], cls) then 0 else 1 + Span(s[1..], cls)
  }

  /** A greedy run is exactly a prefix of satisfying characters followed by one that fails. */
  lemma {:induction false} SpanOfConcat(x: string, y: string, cls: CharClass)
    requires AllChars(x, cls)
    requires y == [] || !In(y[0], cls)
    ensures Span(x + y, cls) == |x|
  {
    if x != [] {
      assert (x + y)[1..] == x[1..] + y;
      SpanOfConcat(x[1..], y, cls);
    }
  }

  /** `\s*` consumed greedily. */
  function SkipSpaces(s: string): string {
    s[Span(s, Space)..]
  }

  lemma SkipSpacesOfConcat(x: string, y: string)
    requires IsBlank(x)
    requires y == [] || !IsSpace(y[0])
    ensures SkipSpaces(x + y) == y
  {
    SpanOfConcat(x, y, Space);
    assert (x + y)[|x|..] == y;
  }

  /** Every string is its leading blanks followed by the rest. */
  lemma SkipSpacesSplit(s: string)
    ensures IsBlank(s[..Span(s, Space)])
    ensures s == s[..Span(s, Space)] + SkipSpaces(s)
    ensures SkipSpaces(s) == [] || !IsSpace(SkipSpaces(s)[0])
  {
  }

  /** `\s{min,}` at the start of a line: the rest after all leading blanks, if there are at least `min`. */
  function Indented(s: string, min: nat): (r: Option<string>)
    ensures r.Some? <==> Span(s, Space) >= min
    ensures r.Some? ==> r.value == SkipSpaces(s)
  {
    var k := Span(s, Space);
    if k >= min then Some(s[k..]) else None
  }

  /** A non-empty greedy run of `p` at the start of `s`, and what follows it. */
  function Word(s: string, cls: CharClass): (r: Option<(string, string)>)
    ensures r.Some? <==> Span(s, cls) > 0
    ensures r.Some? ==> r.value.0 == s[..Span(s, cls)] && r.value.1 == s[Span(s, cls)..]
    ensures r.Some? ==> |r.value.0| > 0 && AllChars(r.value.0, cls)
  {
    var n := Span(s, cls);
    if n > 0 then Some((s[..n], s[n..])) else None
  }

  /** `\s*` followed by the literal `p`: the rest after both. */
  function Sym(s: string, p: string): Option<string> {
    Lit(SkipSpaces(s), p)
  }

  /** The rest of `s` after the literal prefix `p`, if `s` starts with `p`. */
  function Lit(s: string, p: string): (r: Option<string>)
    ensures r.Some? <==> |p| <= |s| && s[..|p|] == p
    ensures r.Some? ==> s == p + r.value
  {
    if |p| <= |s| && s[..|p|] == p then Some(s[|p|..]) else None
  }

  lemma LitOfConcat(p: string, y: string)
    ensures Lit(p + y, p) == Some(y)
  {
    assert (p + y)[..|p|] == p;
    assert (p + y)[|p|..] == y;
  }

  /**
   Python's `str.lower` on one character, as far as it can produce ASCII:
   ASCII capitals and the KELVIN SIGN (U+212A), which lowers to `k`. Other
   characters are kept; see the notes on lower-casing in the README.
   */
  function LowerChar(c: char): (d: char)
    ensures IsUpper(c) ==> d as int == c as int + 32
    ensures c == '\U{212A}' ==> d == 'k'
    ensures !IsUpper(c) && c != '\U{212A}' ==> d == c
  {
    if IsUpper(c) then (c as int + 32) as char else if c == '\U{212A}' then 'k' else c
  }

  function Lower(s: string): (r: string)
    ensures |r| == |s|
    ensures forall i :: 0 <= i < |s| ==> r[i] == LowerChar(s[i])
  {
    if s == [] then [] else [LowerChar(s[0])] + Lower(s[1..])
  }

  /** `needle` occurs in `s` starting at index `i`. */
  ghost predicate OccursAt(s: string, needle: string, i: int) {
    0 <= i && i + |needle| <= |s| && s[i..i + |needle|] == needle
  }

  /** Python's `needle in s`. */
  function Contains(s: string, needle: string): (b: bool)
    ensures b <==> exists i :: OccursAt(s, needle, i)
    decreases |s|
  {
    if |needle| > |s| then
      assert forall i :: !OccursAt(s, needle, i);
      false
    else if s[..|needle|] == needle then
      assert OccursAt(s, needle, 0);
      true
    else
      var b := Contains(s[1..], needle);
      assert forall i :: OccursAt(s[1..], needle, i) <==> OccursAt(s, needle, i + 1) by {
        forall i ensures OccursAt(s[1..], needle, i) <==> OccursAt(s, needle, i + 1) {
          if 0 <= i && i + |needle| <= |s| - 1 {
            assert s[1..][i..i + |needle|] == s[i + 1..i + 1 + |needle|];
          }
        }
      }
      assert !OccursAt(s, needle, 0);
      assert b <==> exists i :: OccursAt(s, needle, i) by {
        if b {
          var i :| OccursAt(s[1..], needle, i);
          assert OccursAt(s, needle, i + 1);
        }
        if exists i :: OccursAt(s, needle, i) {
          var i :| OccursAt(s, needle, i);
          assert i != 0;
          assert OccursAt(s[1..], needle, i - 1);
        }
      }
      b
  }

  /** Python's `sep.join(parts)`. */
  function Join(parts: seq<string>, sep: string): string {
    if parts == [] then ""
    else if |parts| == 1 then parts[0]
    else parts[0] + sep + Join(parts[1..], sep)
  }

  /** Every part followed by `sep`. */
  function Terminated(parts: seq<string>, sep: string): (r: string)
    ensures |r| == |Join(parts, sep)| + (if parts == [] then 0 else |sep|)
  {
    if parts == [] then "" else parts[0] + sep + Terminated(parts[1..], sep)
  }

  /** Three leading parts, a middle run, and a last part, joined. */
  lemma JoinFramed(parts: seq<string>, sep: string)
    requires |parts| >= 4
    ensures Join(parts, sep) ==
      parts[0] + sep + parts[1] + sep + parts[2] + sep + Terminated(parts[3..|parts| - 1], sep) + parts[|parts| - 1]
  {
    var n := |parts|;
    var init := parts[..n - 1];
    assert parts == init + [parts[n - 1]];
    JoinLast(init, parts[n - 1], sep);
    TerminatedThree(init, sep);
    assert init[3..] == parts[3..n - 1];
    Nested(parts[0], sep, parts[1], parts[2], Terminated(parts[3..n - 1], sep), parts[n - 1]);
  }

  lemma TerminatedThree(parts: seq<string>, sep: string)
    requires |parts| >= 3
    ensures Terminated(parts, sep) == parts[0] + sep + (parts[1] + sep + (parts[2] + sep + Terminated(parts[3..], sep)))
  {
    var t1 := parts[1..];
    var t2 := t1[1..];
    assert t2[1..] == parts[3..];
    assert t1[0] == parts[1] && t2[0] == parts[2];
    assert Terminated(t2, sep) == parts[2] + sep + Terminated(parts[3..], sep);
    assert Terminated(t1, sep) == parts[1] + sep + Terminated(t2, sep);
    assert Terminated(parts, sep) == parts[0] + sep + Terminated(t1, sep);
  }

  lemma Nested(a: string, sep: string, b: string, c: string, mid: string, last: string)
    ensures a + sep + (b + sep + (c + sep + mid)) + last == a + sep + b + sep + c + sep + mid + last
  {
  }

  /** Joining puts `sep` after every part but the last. */
  lemma {:induction false} JoinLast(parts: seq<string>, last: string, sep: string)
    ensures Join(parts + [last], sep) == Terminated(parts, sep) + last
  {
    if parts != [] {
      assert (parts + [last])[1..] == parts[1..] + [last];
      JoinLast(parts[1..], last, sep);
    }
  }

  /** Index of the first line boundary of `s`, or `|s|` when there is none. */
  function FirstBreak(s: string): (k: nat)
    ensures k <= |s|
    ensures forall j :: 0 <= j < k ==> !IsLineBreak(s[j])
    ensures k < |s| ==> IsLineBreak(s[k])
  {
    if s == [] || IsLineBreak(s[0]) then 0 else 1 + FirstBreak(s[1..])
  }

  /**
   Python's `str.splitlines()`: a final line boundary does not open an empty
   last line, and `\r\n` counts as one boundary.
   */
  function SplitLines(s: string): (lines: seq<string>)
    ensures forall i, j :: 0 <= i < |lines| && 0 <= j < |lines[i]| ==> !IsLineBreak(lines[i][j])
    ensures s == [] <==> lines == []
    ensures (forall j :: 0 <= j < |s| ==> !IsLineBreak(s[j])) && s != [] ==> lines == [s]
    decreases |s|
  {
    if s == [] then []
    else
      var k := FirstBreak(s);
      if k == |s| then [s]
      else
        [s[..k]] + SplitLines(s[k + BreakLength(s, k)..])
  }

  /** A line boundary `splitlines` recognises: `\r\n` or one break character. */
  predicate IsBoundary(b: string) {
    b == "\r\n" || (|b| == 1 && IsLineBreak(b[0]))
  }

  /** Each line followed by its ending. */
  function Rejoin(lines: seq<string>, ends: seq<string>): string
    requires |lines| == |ends|
  {
    if lines == [] then "" else lines[0] + ends[0] + Rejoin(lines[1..], ends[1..])
  }

  /**
   `ends` are endings `splitlines` could have dropped from `lines`: each is a
   boundary, except that a non-empty last line may have none, and a lone `\r`
   is never followed directly by a `\n` (the two would be one boundary).
   */
  ghost predicate LineEnds(lines: seq<string>, ends: seq<string>) {
    && |ends| == |lines|
    && (forall i :: 0 <= i < |ends| ==> IsBoundary(ends[i]) || (i == |ends| - 1 && ends[i] == [] && lines[i] != []))
    && (forall i :: 0 <= i < |ends| - 1 && ends[i] == "\r" ==> lines[i + 1] != [] || ends[i + 1] != "\n")
  }

  /** One more line with its boundary in front of lines that rejoin to `rest`. */
  lemma EndsCons(s: string, lines: seq<string>, l: string, b: string, tail: seq<string>, ends: seq<string>, rest: string)
    requires lines == [l] + tail && s == l + (b + rest)
    requires LineEnds(tail, ends) && Rejoin(tail, ends) == rest && IsBoundary(b)
    requires b == "\r" ==> rest == [] || rest[0] != '\n'
    ensures LineEnds(lines, [b] + ends) && Rejoin(lines, [b] + ends) == s
  {
    var e := [b] + ends;
    assert lines[1..] == tail && e[1..] == ends;
    assert forall i :: 1 <= i < |e| ==> e[i] == ends[i - 1] && lines[i] == tail[i - 1];
  }

  /** The length of the boundary at `k`: two for `\r\n`, one otherwise. */
  function BreakLength(s: string, k: nat): (n: nat)
    requires k < |s| && IsLineBreak(s[k])
    ensures k + n <= |s| && IsBoundary(s[k..k + n])
    ensures s[k..k + n] == "\r" ==> k + n == |s| || s[k + n] != '\n'
  {
    if s[k] == '\r' && k + 1 < |s| && s[k + 1] == '\n' then 2 else 1
  }

  lemma Split3<T>(s: seq<T>, i: nat, j: nat)
    requires i <= j <= |s|
    ensures s == s[..i] + (s[i..j] + s[j..])
  {
    assert s[i..] == s[i..j] + s[j..];
    assert s == s[..i] + s[i..];
  }

  lemma SplitLinesUnfold(s: string)
    requires FirstBreak(s) < |s|
    ensures SplitLines(s) == [s[..FirstBreak(s)]] + SplitLines(s[FirstBreak(s) + BreakLength(s, FirstBreak(s))..])
  {
  }

  /** The endings of the lines of `s`, read off the text. */
  lemma {:induction false} EndsOf(s: string) returns (ends: seq<string>)
    ensures LineEnds(SplitLines(s), ends) && Rejoin(SplitLines(s), ends) == s
    decreases |s|
  {
    var k := FirstBreak(s);
    if s == [] {
      ends := [];
    } else if k == |s| {
      ends := [""];
      assert SplitLines(s) == [s];
      assert Rejoin([s], ends) == s + "" + Rejoin([], []);
    } else {
      var n := BreakLength(s, k);
      var rest := s[k + n..];
      var tail := EndsOf(rest);
      SplitLinesUnfold(s);
      Split3(s, k, k + n);
      EndsCons(s, SplitLines(s), s[..k], s[k..k + n], SplitLines(rest), tail, rest);
      ends := [s[k..k + n]] + tail;
    }
  }

  /** Splitting loses only the boundaries: putting them back gives the text again. */
  lemma SplitLinesRejoin(s: string)
    ensures exists ends :: LineEnds(SplitLines(s), ends) && Rejoin(SplitLines(s), ends) == s
  {
    var ends := EndsOf(s);
  }

  /** The decimal digit for `d`. */
  function DigitChar(d: nat): (c: char)
    requires d < 10
    ensures IsDigit(c)
  {
    ('0' as int + d) as char
  }

  /** Python's `str(n)` for a natural number. */
  function NatToString(n: nat): (s: string)
    ensures IsDigits(s)
    ensures |s| > 1 ==> s[0] != '0'
    decreases n
  {
    if n < 10 then [DigitChar(n)] else NatToString(n / 10) + [DigitChar(n % 10)]
  }

  /** The value of a string of decimal digits. */
  function DigitsValue(s: string): nat
    requires AllChars(s, Digit)
  {
    if s == [] then 0 else DigitsValue(s[..|s| - 1]) * 10 + (s[|s| - 1] as int - '0' as int)
  }

  /** Reading back what `NatToString` wrote gives the number again. */
  lemma {:induction false} NatToStringRoundTrip(n: nat)
    ensures DigitsValue(NatToString(n)) == n
    decreases n
  {
    var s := NatToString(n);
    if n >= 10 {
      NatToStringRoundTrip(n / 10);
      assert s[..|s| - 1] == NatToString(n / 10);
    }
  }

  /** Python's `<` on `str`: code-point lexicographic order. */
  predicate LexLess(a: string, b: string) {
    if a == [] then b != []
    else if b == [] then false
    else if a[0] != b[0] then a[0] < b[0]
    else LexLess(a[1..], b[1..])
  }

  lemma {:induction false} LexLessIrreflexive(a: string)
    ensures !LexLess(a, a)
  {
    if a != [] {
      LexLessIrreflexive(a[1..]);
    }
  }

  lemma {:induction false} LexLessTransitive(a: string, b: string, c: string)
    requires LexLess(a, b) && LexLess(b, c)
    ensures LexLess(a, c)
  {
    if a != [] && b != [] && c != [] && a[0] == b[0] && b[0] == c[0] {
      LexLessTransitive(a[1..], b[1..], c[1..]);
    }
  }

  lemma {:induction false} LexLessTotal(a: string, b: string)
    ensures a == b || LexLess(a, b) || LexLess(b, a)
  {
    if a != [] && b != [] && a[0] == b[0] {
      LexLessTotal(a[1..], b[1..]);
      if a[1..] == b[1..] {
        assert a == [a[0]] + a[1..] && b == [b[0]] + b[1..];
      }
    }
  }

  lemma LexLessAsymmetric(a: string, b: string)
    requires LexLess(a, b)
    ensures !LexLess(b, a)
  {
    if LexLess(b, a) {
      LexLessTransitive(a, b, a);
      LexLessIrreflexive(a);
    }
  }
}
