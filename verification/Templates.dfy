/** Strict template rendering (integration/render_template.go): every ${NAME} is replaced by its
    value, and a name without one is an error.  */
module Templates {
  import opened Wrappers

  // ----- Placeholders -----

  predicate IsStart(c: char) {
    'A' <= c <= 'Z' || 'a' <= c <= 'z' || c == '_'
  }

  predicate IsPart(c: char) {
    IsStart(c) || '0' <= c <= '9'
  }

  predicate IsName(s: string) {
    s != "" && IsStart(s[0]) && forall k | 0 <= k < |s| :: IsPart(s[k])
  }

  /** The pattern \$\{([A-Za-z_][A-Za-z0-9_]*)\} matches the n characters from i on. */
  predicate IsPlaceholder(s: string, i: nat, n: nat) {
    && n >= 4 && i + n <= |s|
    && s[i] == '$' && s[i + 1] == '{' && s[i + n - 1] == '}'
    && IsName(s[i + 2..i + n - 1])
  }

  function NameEnd(s: string, i: nat): (e: nat)
    requires i <= |s|
    ensures i <= e <= |s|
    ensures forall k | i <= k < e :: IsPart(s[k])
    ensures e < |s| ==> !IsPart(s[e])
    decreases |s| - i
  {
    if i < |s| && IsPart(s[i]) then NameEnd(s, i + 1) else i
  }

  /** The length of the match at i, 0 if there is none. */
  function MatchAt(s: string, i: nat): (n: nat)
    requires i <= |s|
    ensures n > 0 ==> IsPlaceholder(s, i, n)
    ensures n == 0 ==> forall m :: !IsPlaceholder(s, i, m)
  {
    if i + 2 < |s| && s[i] == '$' && s[i + 1] == '{' && IsStart(s[i + 2]) then
      var e := NameEnd(s, i + 2);
      if e < |s| && s[e] == '}' then
        assert IsPlaceholder(s, i, e + 1 - i);
        e + 1 - i
      else
        NoMatch(s, i, e);
        0
    else
      NoStart(s, i);
      0
  }

  lemma NoStart(s: string, i: nat)
    requires i <= |s| && !(i + 2 < |s| && s[i] == '$' && s[i + 1] == '{' && IsStart(s[i + 2]))
    ensures forall m :: !IsPlaceholder(s, i, m)
  {
  }

  lemma NoMatch(s: string, i: nat, e: nat)
    requires i + 2 <= e <= |s|
    requires forall k | i + 2 <= k < e :: IsPart(s[k])
    requires e < |s| ==> !IsPart(s[e]) && s[e] != '}'
    ensures forall m :: !IsPlaceholder(s, i, m)
  {
    forall m: nat
      ensures !IsPlaceholder(s, i, m)
    {
      if IsPlaceholder(s, i, m) {
        MatchEnd(s, i, m, e);
      }
    }
  }

  /** A match ends at the first character behind the brace that is no part of a name. */
  lemma MatchEnd(s: string, i: nat, n: nat, e: nat)
    requires IsPlaceholder(s, i, n) && i + 2 <= e <= |s|
    requires forall k | i + 2 <= k < e :: IsPart(s[k])
    requires e < |s| ==> !IsPart(s[e])
    ensures e == i + n - 1
  {
    assert forall k | i + 2 <= k < i + n - 1 :: s[k] == s[i + 2..i + n - 1][k - i - 2];
  }

  lemma OneLength(s: string, i: nat, n: nat)
    requires IsPlaceholder(s, i, n)
    ensures MatchAt(s, i) == n
  {
    var m := MatchAt(s, i);
    assert IsPlaceholder(s, i, m);
    MatchEnd(s, i, n, i + m - 1);
  }

  /** Matches never overlap: inside a placeholder no other one begins. */
  lemma NoOverlap(s: string, i: nat, n: nat, j: nat)
    requires IsPlaceholder(s, i, n) && i < j < i + n
    ensures MatchAt(s, j) == 0
  {
    assert s[j] != '$' by {
      if j > i + 1 && j < i + n - 1 {
        assert s[j] == s[i + 2..i + n - 1][j - i - 2];
      }
    }
  }

  // ----- Segments -----

  datatype Segment = Literal(c: char) | Placeholder(name: string)

  function Source(seg: Segment): string {
    match seg
    case Literal(c) => [c]
    case Placeholder(name) => "${" + name + "}"
  }

  function Flatten(segs: seq<Segment>): string {
    if segs == [] then "" else Source(segs[0]) + Flatten(segs[1..])
  }

  lemma PlaceholderFits(s: string, i: nat, n: nat)
    requires IsPlaceholder(s, i, n)
    ensures n >= 4 && i + n <= |s| && IsName(s[i + 2..i + n - 1])
  {
  }

  lemma PlaceholderText(s: string, i: nat, n: nat)
    requires IsPlaceholder(s, i, n)
    ensures Source(Placeholder(s[i + 2..i + n - 1])) == s[i..i + n]
  {
    var name, w := s[i + 2..i + n - 1], s[i..i + n];
    var src := "${" + name + "}";
    assert |src| == n && src[0] == s[i] && src[1] == s[i + 1] && src[n - 1] == s[i + n - 1];
    assert forall k | 2 <= k < n - 1 :: src[k] == name[k - 2] == s[i + k];
  }

  /** The leftmost, non-overlapping matches from i on and the characters between them. */
  function Scan(s: string, i: nat): seq<Segment>
    requires i <= |s|
    decreases |s| - i
  {
    if i == |s| then []
    else
      var n := MatchAt(s, i);
      if n > 0 then [Placeholder(s[i + 2..i + n - 1])] + Scan(s, i + n)
      else [Literal(s[i])] + Scan(s, i + 1)
  }

  lemma FlattenCons(seg: Segment, rest: seq<Segment>)
    ensures Flatten([seg] + rest) == Source(seg) + Flatten(rest)
  {
    assert ([seg] + rest)[1..] == rest;
  }

  /** Every character of the input is kept in exactly one segment. */
  lemma {:induction false} FlattenOfScan(s: string, i: nat)
    requires i <= |s|
    ensures Flatten(Scan(s, i)) == s[i..]
    decreases |s| - i
  {
    hide Source, IsName, Flatten, MatchAt, IsPlaceholder;
    FlattenNil();
    if i < |s| {
      var n := MatchAt(s, i);
      if n > 0 {
        PlaceholderFits(s, i, n);
        FlattenOfScan(s, i + n);
        PlaceholderText(s, i, n);
        FlattenCons(Placeholder(s[i + 2..i + n - 1]), Scan(s, i + n));
        assert s[i..] == s[i..i + n] + s[i + n..];
      } else {
        FlattenOfScan(s, i + 1);
        LiteralText(s, i);
        FlattenCons(Literal(s[i]), Scan(s, i + 1));
        assert s[i..] == s[i..i + 1] + s[i + 1..];
      }
    }
  }

  lemma FlattenNil()
    ensures Flatten([]) == ""
  {
  }

  /** A reading of s from i on: placeholders carry names, and no literal begins a match. */
  ghost predicate Reads(segs: seq<Segment>, s: string, i: nat) {
    if segs == [] then i == |s|
    else
      var src := Source(segs[0]);
      && i + |src| <= |s| && s[i..i + |src|] == src
      && (segs[0].Placeholder? ==> IsName(segs[0].name))
      && (segs[0].Literal? ==> MatchAt(s, i) == 0)
      && Reads(segs[1..], s, i + |src|)
  }

  lemma ReadsHead(segs: seq<Segment>, s: string, i: nat)
    requires segs != [] && Reads(segs, s, i)
    ensures var src := Source(segs[0]);
            i + |src| <= |s| && s[i..i + |src|] == src && Reads(segs[1..], s, i + |src|)
    ensures segs[0].Placeholder? ==> IsName(segs[0].name)
    ensures segs[0].Literal? ==> MatchAt(s, i) == 0
  {
    hide Source, IsName, MatchAt;
  }

  lemma ScanHead(seg: Segment, s: string, i: nat)
    requires i + |Source(seg)| <= |s| && s[i..i + |Source(seg)|] == Source(seg)
    requires seg.Placeholder? ==> IsName(seg.name)
    requires seg.Literal? ==> MatchAt(s, i) == 0
    ensures Scan(s, i) == [seg] + Scan(s, i + |Source(seg)|)
  {
    hide MatchAt, IsName, IsPlaceholder;
    match seg {
      case Literal(c) =>
        assert s[i] == s[i..i + 1][0];
      case Placeholder(name) =>
        PlaceholderRead(s, i, name);
    }
  }

  /** There is only one reading, so any two passes of the pattern see the same names. */
  lemma {:induction false} OneReading(segs: seq<Segment>, s: string, i: nat)
    requires i <= |s| && Reads(segs, s, i)
    ensures segs == Scan(s, i)
    decreases |segs|
  {
    hide Source, IsName, MatchAt, IsPlaceholder;
    if segs != [] {
      ReadsHead(segs, s, i);
      hide Reads;
      OneReading(segs[1..], s, i + |Source(segs[0])|);
      ScanHead(segs[0], s, i);
      assert segs == [segs[0]] + segs[1..];
    }
  }

  lemma PlaceholderRead(s: string, i: nat, name: string)
    requires IsName(name) && i + |name| + 3 <= |s| && s[i..i + |name| + 3] == "${" + name + "}"
    ensures MatchAt(s, i) == |name| + 3 && s[i + 2..i + |name| + 2] == name
  {
    var w, n := s[i..i + |name| + 3], |name| + 3;
    assert s[i] == w[0] && s[i + 1] == w[1] && s[i + n - 1] == w[n - 1];
    assert forall k | 0 <= k < |name| :: s[i + 2 + k] == w[k + 2] == name[k];
    assert s[i + 2..i + n - 1] == name;
    OneLength(s, i, n);
  }

  lemma LiteralText(s: string, i: nat)
    requires i < |s|
    ensures Source(Literal(s[i])) == s[i..i + 1]
  {
  }

  lemma ReadsNil(s: string)
    ensures Reads([], s, |s|)
  {
  }

  lemma ReadsCons(seg: Segment, rest: seq<Segment>, s: string, i: nat)
    requires i + |Source(seg)| <= |s| && s[i..i + |Source(seg)|] == Source(seg)
    requires seg.Placeholder? ==> IsName(seg.name)
    requires seg.Literal? ==> MatchAt(s, i) == 0
    requires Reads(rest, s, i + |Source(seg)|)
    ensures Reads([seg] + rest, s, i)
  {
    hide Source, IsName, MatchAt;
    var segs := [seg] + rest;
    assert segs[0] == seg && segs[1..] == rest;
  }

  lemma {:induction false} ScanReads(s: string, i: nat)
    requires i <= |s|
    ensures Reads(Scan(s, i), s, i)
    decreases |s| - i
  {
    hide MatchAt, Source, IsName, Reads, IsPlaceholder;
    ReadsNil(s);
    if i < |s| {
      var n := MatchAt(s, i);
      if n > 0 {
        PlaceholderFits(s, i, n);
        ScanReads(s, i + n);
        PlaceholderText(s, i, n);
        ReadsCons(Placeholder(s[i + 2..i + n - 1]), Scan(s, i + n), s, i);
      } else {
        ScanReads(s, i + 1);
        LiteralText(s, i);
        ReadsCons(Literal(s[i]), Scan(s, i + 1), s, i);
      }
    }
  }

  // ----- Rendering -----

  function Names(segs: seq<Segment>): set<string> {
    if segs == [] then {}
    else (if segs[0].Placeholder? then {segs[0].name} else {}) + Names(segs[1..])
  }

  predicate NameAt(s: string, j: nat, name: string) {
    j <= |s| && MatchAt(s, j) == |name| + 3 && s[j + 2..j + |name| + 2] == name
  }

  lemma ScanStep(s: string, i: nat)
    requires i < |s|
    ensures var n := MatchAt(s, i);
            if n > 0 then n >= 4 && i + n <= |s| && Scan(s, i) == [Placeholder(s[i + 2..i + n - 1])] + Scan(s, i + n)
            else Scan(s, i) == [Literal(s[i])] + Scan(s, i + 1)
  {
    hide MatchAt, IsName;
  }

  lemma NamesStep(seg: Segment, rest: seq<Segment>)
    ensures Names([seg] + rest) == (if seg.Placeholder? then {seg.name} else {}) + Names(rest)
  {
    assert ([seg] + rest)[1..] == rest;
  }

  /** No match is passed over: every placeholder in the template is one of the scan's. */
  lemma {:induction false} MatchIsNamed(s: string, i: nat, j: nat, name: string)
    requires i <= j < |s| && NameAt(s, j, name)
    ensures name in Names(Scan(s, i))
    decreases |s| - i
  {
    hide MatchAt, Names, Scan, IsPlaceholder;
    ScanStep(s, i);
    var n := MatchAt(s, i);
    if n > 0 {
      NamesStep(Placeholder(s[i + 2..i + n - 1]), Scan(s, i + n));
      if i < j {
        MatchesApart(s, i, j, |name| + 3);
        MatchIsNamed(s, i + n, j, name);
      }
    } else {
      NamesStep(Literal(s[i]), Scan(s, i + 1));
      MatchIsNamed(s, i + 1, j, name);
    }
  }

  lemma MatchesApart(s: string, i: nat, j: nat, m: nat)
    requires i < j < |s| && MatchAt(s, i) > 0 && MatchAt(s, j) == m > 0
    ensures i + MatchAt(s, i) <= j
  {
    hide IsName;
    if j < i + MatchAt(s, i) {
      NoOverlap(s, i, MatchAt(s, i), j);
      assert false;
    }
  }

  /** And the scan names nothing else. */
  lemma {:induction false} NameIsMatched(s: string, i: nat, name: string) returns (j: nat)
    requires i <= |s| && name in Names(Scan(s, i))
    ensures i <= j < |s| && NameAt(s, j, name)
    decreases |s| - i
  {
    hide MatchAt, Names, Scan, IsPlaceholder;
    NamesOfNothing(s);
    ScanStep(s, i);
    var n := MatchAt(s, i);
    if n > 0 {
      NamesStep(Placeholder(s[i + 2..i + n - 1]), Scan(s, i + n));
      if name == s[i + 2..i + n - 1] {
        j := i;
      } else {
        j := NameIsMatched(s, i + n, name);
      }
    } else {
      NamesStep(Literal(s[i]), Scan(s, i + 1));
      j := NameIsMatched(s, i + 1, name);
    }
  }

  lemma NamesOfNothing(s: string)
    ensures Names(Scan(s, |s|)) == {}
  {
  }

  function Value(seg: Segment, env: map<string, string>): string
    requires seg.Placeholder? ==> seg.name in env
  {
    match seg case Literal(c) => [c] case Placeholder(name) => env[name]
  }

  /** The segments with every name replaced by its value, once; values are not scanned again. */
  function Substitute(segs: seq<Segment>, env: map<string, string>): string
    requires Names(segs) <= env.Keys
  {
    if segs == [] then "" else Value(segs[0], env) + Substitute(segs[1..], env)
  }

  const IFACE := "SURICATA_IFACE"

  datatype RenderError = DetectionFailed | Missing(names: set<string>)

  /** The values at hand: the environment and, for a missing interface name, the detected one. */
  function Values(names: set<string>, environ: map<string, string>, detected: Option<string>): map<string, string> {
    if IFACE in names && IFACE !in environ && detected.Some? && detected.value != ""
    then environ[IFACE := detected.value] else environ
  }

  /** RenderTemplateStrict, given the environment and what interface detection would answer. */
  function Rendered(template: string, environ: map<string, string>, detected: Option<string>): Result<string, RenderError> {
    var segs := Scan(template, 0);
    var names := Names(segs);
    var env := Values(names, environ, detected);
    if IFACE in names && IFACE !in environ && detected.None? then Err(DetectionFailed)
    else if names <= env.Keys then Ok(Substitute(segs, env))
    else Err(Missing(names - env.Keys))
  }

  function Concat(parts: seq<string>): string {
    if parts == [] then "" else parts[0] + Concat(parts[1..])
  }

  /** What stands in the output for a segment: the character itself, the environment's value for
      the name, or, for the interface name only, the detected one.  */
  predicate StandsFor(part: string, seg: Segment, environ: map<string, string>, detected: Option<string>) {
    match seg
    case Literal(c) => part == [c]
    case Placeholder(name) =>
      if name in environ then part == environ[name] else name == "SURICATA_IFACE" && detected == Some(part)
  }

  predicate Covered(name: string, environ: map<string, string>, detected: Option<string>) {
    name in environ || (name == "SURICATA_IFACE" && detected.Some? && detected.value != "")
  }

  /** Rendering succeeds exactly when every name of the template has a value, in the environment
      or, for the interface name, by detection; the output is the one reading of the template with
      each placeholder replaced by that value.  It fails for want of detection exactly when the
      interface name is unset and detection fails, and otherwise names what has no value.  */
  lemma RenderedIs(template: string, environ: map<string, string>, detected: Option<string>)
    returns (segs: seq<Segment>, parts: seq<string>)
    ensures var names, r := Names(Scan(template, 0)), Rendered(template, environ, detected);
            && (r.Ok? <==> forall name | name in names :: Covered(name, environ, detected))
            && (r == Err(DetectionFailed) <==> "SURICATA_IFACE" in names && "SURICATA_IFACE" !in environ && detected.None?)
            && (r.Err? && r.error.Missing? ==>
                  r.error.names != {}
                  && forall name :: name in r.error.names <==> name in names && !Covered(name, environ, detected))
            && (r.Ok? ==>
                  && Reads(segs, template, 0) && |parts| == |segs| && r.value == Concat(parts)
                  && forall k | 0 <= k < |segs| :: StandsFor(parts[k], segs[k], environ, detected))
  {
    hide Scan, Names, Reads, Substitute, Source;
    segs := Scan(template, 0);
    parts := [];
    ScanReads(template, 0);
    var names, env := Names(segs), Values(Names(segs), environ, detected);
    ValuesCover(names, environ, detected);
    if names <= env.Keys {
      parts := PartsOf(segs, env);
      NamesHas(segs);
    } else {
      var name :| name in names && name !in env;
      assert name in names - env.Keys;
    }
  }

  lemma ValuesCover(names: set<string>, environ: map<string, string>, detected: Option<string>)
    ensures forall name | name in names :: name in Values(names, environ, detected) <==> Covered(name, environ, detected)
    ensures forall name | name in names && name in Values(names, environ, detected) ::
              StandsFor(Values(names, environ, detected)[name], Placeholder(name), environ, detected)
  {
  }

  lemma {:induction false} NamesHas(segs: seq<Segment>)
    ensures forall k | 0 <= k < |segs| :: segs[k].Placeholder? ==> segs[k].name in Names(segs)
  {
    if segs != [] {
      NamesHas(segs[1..]);
      assert forall k | 1 <= k < |segs| :: segs[k] == segs[1..][k - 1];
    }
  }

  lemma {:induction false} PartsOf(segs: seq<Segment>, env: map<string, string>) returns (parts: seq<string>)
    requires Names(segs) <= env.Keys
    ensures |parts| == |segs| && Substitute(segs, env) == Concat(parts)
    ensures forall k | 0 <= k < |segs| ::
              (segs[k].Placeholder? ==> segs[k].name in env) && parts[k] == Value(segs[k], env)
  {
    parts := [];
    if segs != [] {
      var rest := PartsOf(segs[1..], env);
      parts := [Value(segs[0], env)] + rest;
      assert parts[1..] == rest;
      assert forall k | 1 <= k < |segs| :: segs[k] == segs[1..][k - 1];
    }
  }

  /** Without placeholders a template renders to itself, whatever the environment. */
  lemma RenderIdentity(template: string, environ: map<string, string>, detected: Option<string>)
    requires Names(Scan(template, 0)) == {}
    ensures Rendered(template, environ, detected) == Ok(template)
  {
    FlattenOfScan(template, 0);
    LiteralsStay(Scan(template, 0), Values({}, environ, detected));
  }

  lemma {:induction false} LiteralsStay(segs: seq<Segment>, env: map<string, string>)
    requires Names(segs) == {}
    ensures Substitute(segs, env) == Flatten(segs)
  {
    if segs != [] {
      LiteralsStay(segs[1..], env);
    }
  }

  lemma {:induction false} SameSubstitution(segs: seq<Segment>, e: map<string, string>, f: map<string, string>)
    requires Names(segs) <= e.Keys && Names(segs) <= f.Keys
    requires forall x | x in Names(segs) :: e[x] == f[x]
    ensures Substitute(segs, e) == Substitute(segs, f)
  {
    if segs != [] {
      SameSubstitution(segs[1..], e, f);
    }
  }

  // ----- An instance -----

  /** Text without a dollar sign and a placeholder behind it. */
  lemma {:induction false} TextThenName(text: string, name: string, env: map<string, string>, i: nat)
    requires '$' !in text && IsName(name) && name in env && i <= |text|
    ensures var segs := Scan(text + ("${" + name + "}"), i);
            Names(segs) == {name} && Substitute(segs, env) == text[i..] + env[name]
    decreases |text| - i
  {
    hide IsName, MatchAt, Scan, Names, Substitute;
    var s := text + ("${" + name + "}");
    ScanStep(s, i);
    if i < |text| {
      assert s[i] in text;
      NoDollar(s, i);
      TextThenName(text, name, env, i + 1);
      NamesStep(Literal(s[i]), Scan(s, i + 1));
      SubstituteStep(Literal(s[i]), Scan(s, i + 1), env);
      assert text[i..] == [text[i]] + text[i + 1..];
    } else {
      assert s[i..i + |name| + 3] == "${" + name + "}";
      PlaceholderRead(s, i, name);
      NamesOfNothing(s);
      NothingIn(s, env);
      NamesStep(Placeholder(name), Scan(s, |s|));
      SubstituteStep(Placeholder(name), Scan(s, |s|), env);
    }
  }

  lemma NoDollar(s: string, i: nat)
    requires i < |s| && s[i] != '$'
    ensures MatchAt(s, i) == 0
  {
  }

  lemma NothingIn(s: string, env: map<string, string>)
    ensures Names(Scan(s, |s|)) == {} && Substitute(Scan(s, |s|), env) == ""
  {
  }

  lemma SubstituteStep(seg: Segment, rest: seq<Segment>, env: map<string, string>)
    requires Names(rest) <= env.Keys && (seg.Placeholder? ==> seg.name in env)
    ensures Names([seg] + rest) <= env.Keys && Substitute([seg] + rest, env) == Value(seg, env) + Substitute(rest, env)
  {
    assert ([seg] + rest)[1..] == rest;
  }

  /** What is a placeholder: a name of letters, digits and underscores that starts with no digit. */
  lemma NameText()
    ensures MatchAt("${_a9Z}", 0) == 7 && MatchAt("${zA}", 0) == 5
    ensures MatchAt("${9a}", 0) == 0 && MatchAt("${}", 0) == 0 && MatchAt("${a-b}", 0) == 0 && MatchAt("$a", 0) == 0
  {
    assert NameEnd("${_a9Z}", 2) == 6 && NameEnd("${zA}", 2) == 4 && NameEnd("${a-b}", 2) == 3;
  }

  /** The detected interface reaches the output, and only if there is one. */
  lemma DetectedExample()
    ensures var template := "interface: " + "${SURICATA_IFACE}";
            && Rendered(template, map[], Some("eth0")) == Ok("interface: " + "eth0")
            && Rendered(template, map[], Some("")) == Err(Missing({"SURICATA_IFACE"}))
            && Rendered(template, map[], None) == Err(DetectionFailed)
            && Rendered(template, map["SURICATA_IFACE" := "lo"], None) == Ok("interface: " + "lo")
  {
    var text := "interface: ";
    assert IsName(IFACE) && '$' !in text;
    TextThenName(text, IFACE, map[IFACE := "eth0"], 0);
    TextThenName(text, IFACE, map[IFACE := "lo"], 0);
    assert "${" + IFACE + "}" == "${SURICATA_IFACE}";
    hide Scan, Names, Substitute, IsName;
    var nothing: map<string, string> := map[];
    assert {IFACE} - nothing.Keys == {IFACE};
  }
}
