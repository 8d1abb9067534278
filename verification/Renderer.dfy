/** RenderTemplateStrict as it runs: one pass collects the names, the values are looked up in
    sorted order, and a second pass over the template replaces them.  */
module Renderer {
  import opened Wrappers
  import opened Templates

  // ----- The order of sort.Strings -----

  predicate Below(a: string, b: string) {
    b != "" && (a == "" || a[0] < b[0] || (a[0] == b[0] && Below(a[1..], b[1..])))
  }

  /** It is the order of bytes: at the first difference, or the shorter one first. */
  lemma {:induction false} BelowIs(a: string, b: string)
    ensures Below(a, b) <==>
              exists k: nat :: k <= |a| && k < |b| && a[..k] == b[..k] && (k == |a| || a[k] < b[k])
  {
    if a != "" && b != "" && a[0] == b[0] {
      BelowIs(a[1..], b[1..]);
      if Below(a, b) {
        var k: nat :| k <= |a[1..]| && k < |b[1..]| && a[1..][..k] == b[1..][..k] && (k == |a[1..]| || a[1..][k] < b[1..][k]);
        assert a[..k + 1] == [a[0]] + a[1..][..k] && b[..k + 1] == [b[0]] + b[1..][..k];
      }
      if k: nat :| k <= |a| && k < |b| && a[..k] == b[..k] && (k == |a| || a[k] < b[k]) {
        assert a[..k] == b[..k];
        if k > 0 {
          assert a[1..][..k - 1] == a[..k][1..] && b[1..][..k - 1] == b[..k][1..];
        }
      }
    } else {
      assert a[..0] == b[..0];
      assert forall k: nat | 0 < k <= |a| && k < |b| && a[..k] == b[..k] :: a[0] == a[..k][0] == b[..k][0] == b[0];
    }
  }

  lemma {:induction false} BelowIsTotal(a: string, b: string)
    requires a != b
    ensures Below(a, b) || Below(b, a)
  {
    if a != "" && b != "" && a[0] == b[0] {
      assert a == [a[0]] + a[1..] && b == [b[0]] + b[1..];
      BelowIsTotal(a[1..], b[1..]);
    }
  }

  lemma {:induction false} BelowIsTransitive(a: string, b: string, c: string)
    requires Below(a, b) && Below(b, c)
    ensures Below(a, c)
  {
    if a != "" && a[0] == b[0] == c[0] {
      BelowIsTransitive(a[1..], b[1..], c[1..]);
    }
  }

  predicate Sorted(s: seq<string>) {
    forall i, j | 0 <= i < j < |s| :: Below(s[i], s[j])
  }

  lemma ElementsOfInsert(s: seq<string>, i: nat, x: string)
    requires i <= |s|
    ensures forall y :: y in s[..i] + [x] + s[i..] <==> y == x || y in s
  {
    assert s == s[..i] + s[i..];
  }

  lemma PlacedIsSorted(s: seq<string>, i: nat, x: string)
    requires Sorted(s) && x !in s && i <= |s|
    requires forall k | 0 <= k < i :: Below(s[k], x)
    requires i < |s| ==> !Below(s[i], x)
    ensures Sorted(s[..i] + [x] + s[i..])
  {
    hide Below;
    if i < |s| {
      BelowIsTotal(s[i], x);
    }
    forall k | i <= k < |s|
      ensures Below(x, s[k])
    {
      if k > i {
        BelowIsTransitive(x, s[i], s[k]);
      }
    }
    var r := s[..i] + [x] + s[i..];
    assert forall k | 0 <= k < |r| :: r[k] == if k < i then s[k] else if k == i then x else s[k - 1];
  }

  /** Puts x into its place. */
  method InsertSorted(s: seq<string>, x: string) returns (r: seq<string>)
    requires Sorted(s) && x !in s
    ensures Sorted(r) && |r| == |s| + 1 && forall y :: y in r <==> y == x || y in s
  {
    hide Below;
    var i := 0;
    while i < |s| && Below(s[i], x)
      invariant i <= |s|
      invariant forall k | 0 <= k < i :: Below(s[k], x)
    {
      i := i + 1;
    }
    ElementsOfInsert(s, i, x);
    PlacedIsSorted(s, i, x);
    r := s[..i] + [x] + s[i..];
  }

  /** The set of names, sorted and without duplicates. */
  method SortStrings(names: set<string>) returns (vars: seq<string>)
    ensures Sorted(vars) && forall x :: x in vars <==> x in names
  {
    vars := [];
    var rest := names;
    while rest != {}
      invariant rest <= names && Sorted(vars)
      invariant forall x :: x in vars <==> x in names - rest
      decreases |rest|
    {
      var x :| x in rest;
      vars := InsertSorted(vars, x);
      rest := rest - {x};
    }
  }

  // ----- The two passes -----

  method CollectNames(template: string) returns (names: set<string>)
    ensures names == Names(Scan(template, 0))
  {
    hide MatchAt, IsPlaceholder;
    names := {};
    var i := 0;
    while i < |template|
      invariant i <= |template|
      invariant Names(Scan(template, 0)) == names + Names(Scan(template, i))
      decreases |template| - i
    {
      var n := MatchAt(template, i);
      if n > 0 {
        PlaceholderFits(template, i, n);
        names := names + {template[i + 2..i + n - 1]};
        i := i + n;
      } else {
        i := i + 1;
      }
    }
  }

  /** The replacing pass looks up only names the collecting pass has seen. */
  method ReplaceAll(template: string, env: map<string, string>) returns (out: string)
    requires Names(Scan(template, 0)) <= env.Keys
    ensures out == Substitute(Scan(template, 0), env)
  {
    hide MatchAt, IsPlaceholder, Scan, Names, Substitute;
    out := "";
    var i := 0;
    while i < |template|
      invariant i <= |template| && Names(Scan(template, i)) <= env.Keys
      invariant Substitute(Scan(template, 0), env) == out + Substitute(Scan(template, i), env)
      decreases |template| - i
    {
      var n := MatchAt(template, i);
      if n > 0 {
        PlaceholderFits(template, i, n);
        NextPlaceholder(template, i, n, env);
        var name := template[i + 2..i + n - 1];
        out := out + env[name];
        i := i + n;
      } else {
        NextLiteral(template, i, env);
        out := out + [template[i]];
        i := i + 1;
      }
    }
    NothingIn(template, env);
  }

  lemma NextPlaceholder(s: string, i: nat, n: nat, env: map<string, string>)
    requires i < |s| && MatchAt(s, i) == n >= 4 && i + n <= |s| && Names(Scan(s, i)) <= env.Keys
    ensures s[i + 2..i + n - 1] in env && Names(Scan(s, i + n)) <= env.Keys
    ensures Substitute(Scan(s, i), env) == env[s[i + 2..i + n - 1]] + Substitute(Scan(s, i + n), env)
  {
    hide MatchAt, IsPlaceholder;
    assert Scan(s, i)[1..] == Scan(s, i + n);
  }

  lemma NextLiteral(s: string, i: nat, env: map<string, string>)
    requires i < |s| && MatchAt(s, i) == 0 && Names(Scan(s, i)) <= env.Keys
    ensures Names(Scan(s, i + 1)) <= env.Keys
    ensures Substitute(Scan(s, i), env) == [s[i]] + Substitute(Scan(s, i + 1), env)
  {
    hide MatchAt, IsPlaceholder;
    assert Scan(s, i)[1..] == Scan(s, i + 1);
  }

  // ----- The whole function -----

  /** autoDetectEnv */
  method AutoDetectEnv(missing: seq<string>, detected: Option<string>) returns (r: Option<map<string, string>>)
    ensures IFACE !in missing ==> r == Some(map[])
    ensures IFACE in missing && detected.None? ==> r == None
    ensures IFACE in missing && detected.Some? ==>
              r == Some(if detected.value == "" then map[] else map[IFACE := detected.value])
  {
    var needsIface := false;
    var i := 0;
    while i < |missing|
      invariant i <= |missing| && !needsIface && IFACE !in missing[..i]
    {
      if missing[i] == IFACE {
        needsIface := true;
        break;
      }
      i := i + 1;
    }
    if !needsIface {
      return Some(map[]);
    }
    if detected.None? {
      return None;
    }
    return Some(if detected.value != "" then map[IFACE := detected.value] else map[]);
  }

  /** The lookups: what the environment has, and the names it lacks, in order. */
  method LookUp(vars: seq<string>, environ: map<string, string>) returns (env: map<string, string>, missing: seq<string>)
    ensures forall x :: x in missing <==> x in vars && x !in environ
    ensures forall x :: x in env <==> x in vars && x in environ
    ensures forall x | x in env :: env[x] == environ[x]
  {
    env, missing := map[], [];
    var i := 0;
    while i < |vars|
      invariant i <= |vars|
      invariant forall x :: x in missing <==> x in vars[..i] && x !in environ
      invariant forall x :: x in env <==> x in vars[..i] && x in environ
      invariant forall x | x in env :: env[x] == environ[x]
    {
      assert vars[..i + 1] == vars[..i] + [vars[i]];
      if vars[i] in environ {
        env := env[vars[i] := environ[vars[i]]];
      } else {
        missing := missing + [vars[i]];
      }
      i := i + 1;
    }
    assert vars[..i] == vars;
  }

  /** The names the detected values do not cover either. */
  method StillMissing(missing: seq<string>, env: map<string, string>) returns (still: seq<string>)
    ensures forall x :: x in still <==> x in missing && x !in env
  {
    still := [];
    var i := 0;
    while i < |missing|
      invariant i <= |missing|
      invariant forall x :: x in still <==> x in missing[..i] && x !in env
    {
      assert missing[..i + 1] == missing[..i] + [missing[i]];
      if missing[i] !in env {
        still := still + [missing[i]];
      }
      i := i + 1;
    }
    assert missing[..i] == missing;
  }

  /** RenderTemplateStrict.  Vars lists the template's names, sorted and each once. */
  method RenderTemplateStrict(template: string, environ: map<string, string>, detected: Option<string>)
    returns (r: Result<string, RenderError>, vars: seq<string>)
    ensures r == Rendered(template, environ, detected)
    ensures Sorted(vars) && forall x :: x in vars <==> x in Names(Scan(template, 0))
  {
    hide Scan, Below, Sorted, Names, Substitute;
    var names := CollectNames(template);
    vars := SortStrings(names);
    if |vars| == 0 {
      assert names == {} by {
        assert forall x :: x !in names;
      }
      RenderIdentity(template, environ, detected);
      return Ok(template), vars;
    }
    var env, missing := LookUp(vars, environ);
    if |missing| > 0 {
      var auto := AutoDetectEnv(missing, detected);
      if auto.None? {
        return Err(DetectionFailed), vars;
      }
      env := env + auto.value;
      missing := StillMissing(missing, env);
    }
    ghost var values := Values(names, environ, detected);
    assert forall x | x in names :: x in env <==> x in values;
    assert forall x | x in names && x in env :: env[x] == values[x];
    if |missing| > 0 {
      assert missing[0] in names - values.Keys;
      assert (set x | x in missing) == names - values.Keys;
      return Err(Missing(set x | x in missing)), vars;
    }
    assert names <= env.Keys && names <= values.Keys;
    var out := ReplaceAll(template, env);
    SameSubstitution(Scan(template, 0), env, values);
    return Ok(out), vars;
  }
}
