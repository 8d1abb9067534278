/** What the second pass makes of an untidy file: other bytes, but for one shape of file, in which
    it takes the plugin line for a part of the unix block, cuts it, and writes it again.  */
module PatchUntidy {
  import opened Text
  import opened Comments
  import opened Blocks
  import opened PatchSpec
  import opened PatchConvergence
  import opened PatchFrame
  import opened PatchTails
  import opened PatchReadings
  import opened PatchOverlap
  import opened PatchRestored
  import opened PatchPasses

  // ----- A pass, seen from what it leaves -----

  /** Stage two finds nothing to work on and puts its entry into the unix block, or right behind it
      and deeper than its header.  */
  predicate PutsIn(t: Template, m: seq<string>, u: nat) {
    var i := First(m, 0, Header(PLUGINS));
    t.unix.Some? && |t.unix.value| >= 1 && i < |m| &&
    var k := Target(t, m, i);
    !Found(t, m, k) && !KeepsOut(t, u, k)
  }

  /** A pass leaves the lines s, with w lines in place of the block at v, none beside it with more
      than c carriage returns.  */
  predicate View(t: Template, m: seq<string>, u: nat, s: seq<string>, v: nat, w: nat, c: nat) {
    && t.unix.Some? && |t.unix.value| >= 1 && v + |t.unix.value| <= |s| && UnixIn(t, s, v)
    && Overgrown(t, s, v, EnsurePlugin(t, m).lines, w) && BesideWithin(t, s, v, c)
    && w == |t.unix.value| + if PutsIn(t, m, u) then 1 else 0
  }

  /** The lines s are those of m beside the block, give or take a mark, and what stage two added. */
  ghost predicate Carried(t: Template, m: seq<string>, u: nat, s: seq<string>, v: nat) {
    && (forall c | BesideWithin(t, s, v, c) :: BesideWithin(t, m, u, c))
    && (UnixAt(t, m, u) ==> Ended(t, s, v))
    && (Grown(t, m, u) ==> Grown(t, s, v))
  }

  lemma ViewOf(t: Template, m: seq<string>, u: nat, c: nat) returns (s: seq<string>, v: nat, w: nat)
    requires WellFormed(t) && t.unix.Some? && UnixIn(t, m, u) && BesideWithin(t, m, u, c)
    ensures View(t, m, u, s, v, w, c) && Carried(t, m, u, s, v)
  {
    hide First, Target, UnixIn, UnixAt, BesideWithin, Overgrown, EnsurePlugin, WellFormed, NextState, NextPlace, Carried, Found, KeepsOut;
    BlockIsInside(t, m, u);
    var i := First(m, 0, Header(PLUGINS));
    if i == |m| {
      SectionOvergrows(t, m, u, c);
      s, v, w := EnsurePlugin(t, m).lines, u, |t.unix.value|;
      SectionCarried(t, m, u);
    } else {
      var k := Target(t, m, i);
      TargetMeans(t, m, i, k);
      s, v := NextState(t, m, u, i, k), NextPlace(t, m, u, k);
      w := PassOvergrows(t, m, u, i, k, c);
      StateCarried(t, m, u, i, k, c);
    }
  }

  lemma SectionCarried(t: Template, m: seq<string>, u: nat)
    requires WellFormed(t) && t.unix.Some? && UnixIn(t, m, u) && First(m, 0, Header(PLUGINS)) == |m|
    ensures Carried(t, m, u, EnsurePlugin(t, m).lines, u)
  {
    hide First, UnixIn, UnixAt, EnsurePlugin, WellFormed, PluginPart, Lead, Tail, EntryLine, Normalize, IsCommented;
    var part, out := PluginPart(t, m), EnsurePlugin(t, m).lines;
    AppendOutcome(t, m);
    SectionParts(t, m);
    SectionStartsAtMargin(t);
    PrefixKeepsBlock(t, m, part, u);
    if UnixAt(t, m, u) {
      UnixAtIsEnded(t, m, part, u);
    }
    forall c | BesideWithin(t, out, u, c)
      ensures BesideWithin(t, m, u, c)
    {
      assert forall j | 0 <= j < |m| :: out[j] == m[j];
    }
  }

  lemma EndedWithNothing(t: Template, s: seq<string>, v: nat)
    requires t.unix.Some? && UnixAt(t, s, v)
    ensures Ended(t, s, v)
  {
    UnixAtIsEnded(t, s, [], v);
    assert s + [] == s;
  }

  lemma StateCarried(t: Template, m: seq<string>, u: nat, i: nat, k: nat, c: nat)
    requires WellFormed(t) && Standing(t, m, u, i, k) && k <= |m| && BesideWithin(t, m, u, c)
    ensures Carried(t, m, u, NextState(t, m, u, i, k), NextPlace(t, m, u, k))
  {
    hide First, Target, UnixIn, UnixAt, BesideWithin, WellFormed, NextState, NextPlace, Found, KeepsOut, Lead, Ended, Grown;
    var s, v := NextState(t, m, u, i, k), NextPlace(t, m, u, k);
    StateStands(t, m, u, i, k, c);
    if UnixAt(t, m, u) {
      EndedWithNothing(t, s, v);
    }
    if Grown(t, m, u) {
      StateGrown(t, m, u, i, k);
    }
    forall d | BesideWithin(t, s, v, d)
      ensures BesideWithin(t, m, u, d)
    {
      StateTails(t, m, u, i, k, d);
    }
  }

  lemma StateGrown(t: Template, m: seq<string>, u: nat, i: nat, k: nat)
    requires WellFormed(t) && Standing(t, m, u, i, k) && k <= |m| && Grown(t, m, u)
    requires UnixIn(t, NextState(t, m, u, i, k), NextPlace(t, m, u, k))
    ensures Grown(t, NextState(t, m, u, i, k), NextPlace(t, m, u, k))
  {
    hide First, Target, UnixIn, WellFormed, Found, Lead, Has, Normalize, Uncomment, IsCommented, EntryLine, Remains;
    TargetMeans(t, m, i, k);
    StandingMeans(t, m, u, i, k);
    RemainsKeeps(t, m, u, i);
    if Found(t, m, k) {
      RemainsKeeps(t, m, u, k);
    } else if k < |m| {
      StopsAtLeaver(t, m, i, k);
    }
  }

  lemma StateTails(t: Template, m: seq<string>, u: nat, i: nat, k: nat, c: nat)
    requires WellFormed(t) && Standing(t, m, u, i, k) && k <= |m|
    requires BesideWithin(t, NextState(t, m, u, i, k), NextPlace(t, m, u, k), c)
    ensures BesideWithin(t, m, u, c)
  {
    hide First, Target, UnixIn, WellFormed, Found, KeepsOut, Lead, Has, Normalize, Uncomment, IsCommented, EntryLine, Remains,
         Tail, Insert;
    TargetMeans(t, m, i, k);
    StandingMeans(t, m, u, i, k);
    RemainsKeeps(t, m, u, i);
    var s, v := NextState(t, m, u, i, k), NextPlace(t, m, u, k);
    if Found(t, m, k) {
      RemainsKeeps(t, m, u, k);
      assert forall j | 0 <= j < |m| :: Tail(s[j]) == Tail(m[j]);
    } else if KeepsOut(t, u, k) {
      var active := m[i := Remains(t, m, u, i)];
      KeepsOutMeans(t, u, k);
      ShiftedLines(active, k, EntryLine(t, t.indent + 2));
      forall j | 0 <= j < |m| && Beside(t, u, j)
        ensures Tail(m[j]) <= c
      {
        var y := if j < k then j else j + 1;
        assert s[y] == active[j] && Beside(t, v, y);
      }
    } else {
      IntoBlock(t, u, k);
      assert forall j | 0 <= j < |m| :: Tail(s[j]) == Tail(m[j]);
    }
  }

  lemma IntoBlock(t: Template, u: nat, k: nat)
    requires t.unix.Some? && |t.unix.value| >= 1 && !KeepsOut(t, u, k)
    ensures u < k <= u + |t.unix.value| && (k == u + |t.unix.value| ==> t.indent + 2 > Lead(t.unix.value[0]))
  {
    hide Lead;
  }

  // ----- The written lines -----

  lemma OutEnds(out: seq<string>, y: nat)
    requires |out| >= 1
    ensures |out| <= |Close(out)| <= |out| + 1
    ensures y < |Close(out)| ==> Close(out)[y] == if y < |out| then out[y] else ""
  {
  }

  lemma ViewHeader(t: Template, m: seq<string>, u: nat, s: seq<string>, v: nat, w: nat, c: nat)
    requires WellFormed(t) && View(t, m, u, s, v, w, c)
    ensures var x := Close(EnsurePlugin(t, m).lines);
            && First(x, 0, Header(UNIX)) == v && v + w <= |x|
            && forall y | v < y < v + w :: InBlock(x[y], Lead(t.unix.value[0]))
  {
    hide First, UnixIn, WellFormed, BesideWithin, EnsurePlugin, Lead, Normalize, InBlock, Close, PutsIn;
    var out := EnsurePlugin(t, m).lines;
    CloseIsPrefix(out);
    OwnUnixIn(t, s, v);
    FirstIs(Close(out), 0, Header(UNIX), v);
  }

  lemma ViewEnds(t: Template, m: seq<string>, u: nat, s: seq<string>, v: nat, w: nat, c: nat)
    requires View(t, m, u, s, v, w, c)
    ensures var x := Close(EnsurePlugin(t, m).lines);
            && (Ended(t, s, v) && v + w < |x| ==> x[v + w] == "" || Lead(x[v + w]) <= Lead(t.unix.value[0]))
            && (Grown(t, s, v) ==> v + w < |x| && x[v + w] != "" && Lead(x[v + w]) > Lead(t.unix.value[0]))
  {
    hide UnixIn, BesideWithin, EnsurePlugin, Lead, Normalize, InBlock, Close, PutsIn;
    OutEnds(EnsurePlugin(t, m).lines, v + w);
    assert v + |t.unix.value| < |s| ==> EnsurePlugin(t, m).lines[v + |t.unix.value| - |t.unix.value| + w] == s[v + |t.unix.value|];
  }

  lemma ViewTails(t: Template, m: seq<string>, u: nat, s: seq<string>, v: nat, w: nat, c: nat, d: nat)
    requires View(t, m, u, s, v, w, c)
    requires var x := Close(EnsurePlugin(t, m).lines);
             forall y | 0 <= y < |x| && (y < v || v + w <= y) :: Tail(x[y]) <= d
    ensures BesideWithin(t, s, v, d)
  {
    hide UnixIn, EnsurePlugin, Lead, Normalize, InBlock, Close, PutsIn, Tail;
    var out := EnsurePlugin(t, m).lines;
    CloseIsPrefix(out);
    forall j | 0 <= j < |s| && Beside(t, v, j)
      ensures Tail(s[j]) <= d
    {
      var y := if j < v then j else j - |t.unix.value| + w;
      assert out[y] == s[j] == Close(out)[y];
    }
  }

  lemma ViewWithin(t: Template, m: seq<string>, u: nat, s: seq<string>, v: nat, w: nat, c: nat)
    requires View(t, m, u, s, v, w, c)
    ensures var x := Close(EnsurePlugin(t, m).lines);
            forall y | 0 <= y < |x| && (y < v || v + w <= y) :: Tail(x[y]) <= c
  {
    hide UnixIn, EnsurePlugin, Lead, Normalize, InBlock, Close, PutsIn, Tail;
    var out := EnsurePlugin(t, m).lines;
    NoTail();
    forall y | 0 <= y < |Close(out)| && (y < v || v + w <= y)
      ensures Tail(Close(out)[y]) <= c
    {
      OutEnds(out, y);
      if y < |out| {
        var j := if y < v then y else y - w + |t.unix.value|;
        assert y >= v ==> y == j - |t.unix.value| + w;
        assert out[y] == s[j];
      }
    }
  }

  // ----- Where the plugin line stands -----

  lemma PassFacts(t: Template, m: seq<string>, u: nat, i: nat, k: nat)
    requires WellFormed(t) && t.unix.Some? && UnixIn(t, m, u)
    requires First(m, 0, Header(PLUGINS)) == i < |m| && Target(t, m, i) == k
    ensures var x := Close(EnsurePlugin(t, m).lines);
            && PluginAt(t, x, i, k) && i < k < |x|
            && x[k] == (if Found(t, m, k) then Uncomment(m[k]) else EntryLine(t, t.indent + 2))
            && (if u < k then First(x, 0, Header(UNIX)) == u else First(x, 0, Header(UNIX)) > k)
  {
    hide First, Target, UnixIn, WellFormed, Found, Lead, Has, Normalize, Uncomment, IsCommented, EntryLine, Insert, Close,
         EnsurePlugin, PluginAt, InBlock;
    TargetMeans(t, m, i, k);
    PassPlaces(t, m, i, k);
    var out := EnsurePlugin(t, m).lines;
    CloseKeepsPlugin(t, out, i, k);
    CloseIsPrefix(out);
    if u < k {
      EditedLines(t, m, u, i, k);
      FirstIs(Close(out), 0, Header(UNIX), u);
    } else {
      PluginIsFirst(t, m, u, i, k);
    }
  }

  lemma PluginIsFirst(t: Template, m: seq<string>, u: nat, i: nat, k: nat)
    requires WellFormed(t) && t.unix.Some? && UnixIn(t, m, u)
    requires First(m, 0, Header(PLUGINS)) == i < |m| && Target(t, m, i) == k <= u
    ensures First(Close(EnsurePlugin(t, m).lines), 0, Header(UNIX)) > k
  {
    hide First, Target, UnixIn, WellFormed, Found, Lead, Has, Uncomment, Normalize, IsCommented, EntryLine, Insert, Close,
         EnsurePlugin, PluginAt, InBlock, Alike;
    PassPlaces(t, m, i, k);
    var out := EnsurePlugin(t, m).lines;
    TargetMeans(t, m, i, k);
    CloseIsPrefix(out);
    OwnUnixIn(t, m, u);
    UncommentIsAlike(m[i]);
    InsertedLine(t, t.indent + 2);
    if Found(t, m, k) {
      UncommentIsAlike(m[k]);
    }
    NoHeaderUpTo(out, u, i, k, m);
  }

  lemma NoHeaderUpTo(out: seq<string>, u: nat, i: nat, k: nat, m: seq<string>)
    requires k < |out| && k <= u <= |m| && First(m, 0, Header(UNIX)) == u && Normalize(out[k]) != UNIX
    requires forall y | 0 <= y < k :: y == i || out[y] == m[y]
    requires i < k ==> Normalize(out[i]) != UNIX
    ensures First(Close(out), 0, Header(UNIX)) > k
  {
    hide Normalize, First, Close;
    CloseIsPrefix(out);
  }

  lemma PassPlaces(t: Template, m: seq<string>, i: nat, k: nat)
    requires WellFormed(t) && First(m, 0, Header(PLUGINS)) == i < |m| && Target(t, m, i) == k
    ensures var out := EnsurePlugin(t, m).lines;
            && PluginAt(t, out, i, k) && k < |out|
            && out[k] == (if Found(t, m, k) then Uncomment(m[k]) else EntryLine(t, t.indent + 2))
            && forall y | 0 <= y < k :: y < |m| && out[y] == if y == i then Uncomment(m[y]) else m[y]
  {
    hide First, Target, WellFormed, Found, Lead, Has, Normalize, Uncomment, IsCommented, EntryLine, Insert,
         EnsurePlugin, PluginAt, InBlock;
    TargetMeans(t, m, i, k);
    if Found(t, m, k) {
      FoundOutcome(t, m, i, k);
      UncommentedPlugin(t, m, i, k);
    } else {
      InsertOutcome(t, m, i, k);
      InsertedPlugin(t, m, i, k);
    }
  }

  // ----- Two passes that write the same lines -----

  lemma SamePlace(t: Template, x: seq<string>, i: nat, k: nat, i1: nat, k1: nat)
    requires PluginAt(t, x, i, k) && PluginAt(t, x, i1, k1)
    ensures i == i1 && k == k1
  {
    hide First, Target, Found;
  }

  lemma SectionIsLast(t: Template, m: seq<string>, i: nat, k: nat)
    requires WellFormed(t) && First(m, 0, Header(PLUGINS)) == |m| && PluginAt(t, Close(EnsurePlugin(t, m).lines), i, k)
    ensures k > |m|
  {
    hide First, Target, Found, WellFormed, EntryLine, Normalize, IsCommented, Lead, Has, PluginPart, EnsurePlugin, Close;
    AppendOutcome(t, m);
    CloseIsPrefix(EnsurePlugin(t, m).lines);
    HeaderBehind(t, m, Close(EnsurePlugin(t, m).lines), i, k);
  }

  lemma HeaderBehind(t: Template, m: seq<string>, x: seq<string>, i: nat, k: nat)
    requires First(m, 0, Header(PLUGINS)) == |m| && m <= x && PluginAt(t, x, i, k)
    ensures k > |m|
  {
    hide Found, Normalize, IsCommented, Target;
    assert forall j | 0 <= j < |m| :: x[j] == m[j];
  }

  lemma PutsInMeans(t: Template, m: seq<string>, u: nat) returns (i: nat, k: nat)
    requires WellFormed(t) && t.unix.Some? && UnixIn(t, m, u) && PutsIn(t, m, u)
    ensures |t.unix.value| >= 1 && First(m, 0, Header(PLUGINS)) == i < |m| && Target(t, m, i) == k && !Found(t, m, k)
    ensures u < k <= u + |t.unix.value| && t.indent + 2 > Lead(t.unix.value[0])
    ensures var x := Close(EnsurePlugin(t, m).lines);
            PluginAt(t, x, i, k) && k < |x| && x[k] == EntryLine(t, t.indent + 2) && First(x, 0, Header(UNIX)) == u
  {
    hide First, Target, UnixIn, WellFormed, Found, KeepsOut, Lead, Close, EnsurePlugin, PluginAt, EntryLine, Uncomment;
    i := First(m, 0, Header(PLUGINS));
    k := Target(t, m, i);
    IntoBlock(t, u, k);
    PassFacts(t, m, u, i, k);
    EntryDepth(t, m, u, i, k);
  }

  /** A pass that does not, and whose plugin line stands there all the same, has found it. */
  lemma FoundThere(t: Template, m: seq<string>, u: nat, i: nat, k: nat, v: nat)
    requires WellFormed(t) && t.unix.Some? && UnixIn(t, m, u) && !PutsIn(t, m, u) && |t.unix.value| >= 1
    requires var x := Close(EnsurePlugin(t, m).lines);
             PluginAt(t, x, i, k) && First(x, 0, Header(UNIX)) == v < k <= v + |t.unix.value|
    requires t.indent + 2 > Lead(t.unix.value[0])
    ensures u == v && First(m, 0, Header(PLUGINS)) == i < |m| && Target(t, m, i) == k < |m| && Found(t, m, k)
    ensures var x := Close(EnsurePlugin(t, m).lines); k < |x| && x[k] == Uncomment(m[k])
  {
    hide First, Target, UnixIn, WellFormed, Found, KeepsOut, Lead, Close, EnsurePlugin, PluginAt, EntryLine, Uncomment;
    BlockIsInside(t, m, u);
    var h := First(m, 0, Header(PLUGINS));
    if h == |m| {
      SectionIsLast(t, m, i, k);
      SectionUnix(t, m, u);
      assert false;
    }
    var x := Close(EnsurePlugin(t, m).lines);
    PassFacts(t, m, u, h, Target(t, m, h));
    SamePlace(t, x, h, Target(t, m, h), i, k);
    if !Found(t, m, k) {
      KeepsOutMeans(t, u, k);
      assert false;
    }
    TargetMeans(t, m, i, k);
  }

  /** One pass puts its entry into the block and the other does not: then the other found, right
      behind the block, a plugin line that is the entry.  */
  lemma EntryForEntry(t: Template, m: seq<string>, u: nat, m1: seq<string>, u1: nat) returns (i: nat, e: nat)
    requires WellFormed(t) && t.unix.Some? && UnixIn(t, m, u) && UnixIn(t, m1, u1) && PutsIn(t, m1, u1) && !PutsIn(t, m, u)
    requires Close(EnsurePlugin(t, m).lines) == Close(EnsurePlugin(t, m1).lines)
    ensures |t.unix.value| >= 1 && u == u1 && e == u + |t.unix.value| && t.indent + 2 > Lead(t.unix.value[0])
    ensures First(m, 0, Header(PLUGINS)) == i < |m| && e < |m| && First(m1, 0, Header(PLUGINS)) == i < |m1|
    ensures Target(t, m, i) == e && Found(t, m, e) && Uncomment(m[e]) == EntryLine(t, t.indent + 2)
    ensures Target(t, m1, i) == e && !Found(t, m1, e)
  {
    hide First, Target, UnixIn, WellFormed, Found, Lead, Close, EnsurePlugin, PluginAt, EntryLine, Uncomment, PutsIn;
    i, e := PutsInMeans(t, m1, u1);
    FoundThere(t, m, u, i, e, u1);
    if e < u + |t.unix.value| {
      SameInBlock(t, m, m1, u, e);
      assert false;
    }
  }

  lemma SameInBlock(t: Template, m: seq<string>, m1: seq<string>, u: nat, k: nat)
    requires t.unix.Some? && UnixIn(t, m, u) && UnixIn(t, m1, u) && u <= k < u + |t.unix.value|
    ensures Found(t, m, k) == Found(t, m1, k)
  {
    hide UnixIn, Found;
    BlockLine(t, m, u, k - u);
    BlockLine(t, m1, u, k - u);
    FoundAlike(t, m, m1, k);
  }

  lemma FoundAlike(t: Template, m: seq<string>, m1: seq<string>, k: nat)
    requires k < |m| && k < |m1| && m[k] == m1[k]
    ensures Found(t, m, k) == Found(t, m1, k)
  {
    hide Lead, Has;
  }

  lemma SectionUnix(t: Template, m: seq<string>, u: nat)
    requires WellFormed(t) && t.unix.Some? && UnixIn(t, m, u) && First(m, 0, Header(PLUGINS)) == |m|
    ensures First(Close(EnsurePlugin(t, m).lines), 0, Header(UNIX)) == u
  {
    hide First, UnixIn, WellFormed, PluginPart, Close, EnsurePlugin;
    AppendOutcome(t, m);
    var out := EnsurePlugin(t, m).lines;
    CloseIsPrefix(out);
    PrefixKeepsBlock(t, m, PluginPart(t, m), u);
    PrefixKeepsBlock(t, out, [""], u);
    OwnUnixIn(t, Close(out), u);
  }

  lemma EntryDepth(t: Template, m: seq<string>, u: nat, i: nat, k: nat)
    requires WellFormed(t) && t.unix.Some? && |t.unix.value| >= 1 && UnixIn(t, m, u)
    requires First(m, 0, Header(PLUGINS)) == i < |m| && Target(t, m, i) == k && !Found(t, m, k) && !KeepsOut(t, u, k)
    ensures t.indent + 2 > Lead(t.unix.value[0])
  {
    hide First, Target, UnixIn, WellFormed, Found, KeepsOut, Lead;
    IntoBlock(t, u, k);
    BlockIsInside(t, m, u);
    EntryIsDeep(t, m, u, i, k);
  }

  // ----- When the second pass repeats the first -----

  /** The line e of the closed lines x ends the file or leaves the unix block and the plugins block. */
  predicate LeavesBoth(t: Template, x: seq<string>, e: nat)
    requires t.unix.Some? && |t.unix.value| >= 1 && e < |x|
  {
    e + 1 == |x| || (!InBlock(x[e], Lead(t.unix.value[0])) && !InBlock(x[e], t.indent))
  }

  /** At e, right behind the unix block and deeper than its header, stands the plugin line, which
      once uncommented is the template's entry; and nothing that follows could be taken for a part
      of the block.  */
  predicate EntryAt(t: Template, m: seq<string>, i: nat, e: nat)
    requires t.unix.Some? && |t.unix.value| >= 1 && i < |m|
  {
    && Target(t, m, i) == e < |m| && Uncomment(m[e]) == EntryLine(t, t.indent + 2)
    && t.indent + 2 > Lead(t.unix.value[0]) && e + 1 < |Close(m)| && LeavesBoth(t, Close(m), e + 1)
  }

  /** The file has such a line, and no kept line ends in a carriage return.  The second pass takes
      the line for a part of the block, cuts it, and puts the entry in its place.  */
  predicate Regrows(t: Template, ls: seq<string>) {
    var m := EnsureUnix(t, ls).lines;
    var i, u := First(m, 0, Header(PLUGINS)), First(m, 0, Header(UNIX));
    && t.unix.Some? && |t.unix.value| >= 1 && i < |m| && EntryAt(t, m, i, u + |t.unix.value|)
    && NoneEndsInCR(Outside(t, ls))
  }

  lemma ShallowOrGrown(t: Template, ls: seq<string>) returns (u: nat)
    requires WellFormed(t) && t.unix.Some? && |ls| >= 1
    ensures var m := EnsureUnix(t, ls).lines;
            UnixIn(t, m, u) && if Shallow(t, ls) then UnixAt(t, m, u) else Grown(t, m, u)
  {
    hide WellFormed, EnsureUnix, UnixIn, UnixAt, Shallow, First, Lead, BlockEnd;
    if Shallow(t, ls) {
      u := EnsureUnixPlaces(t, ls);
      AtIsIn(t, EnsureUnix(t, ls).lines, u);
    } else {
      u := StageOneBlock(t, ls);
      DeepLine(t, ls);
    }
  }

  /** Nothing but an entry in place of a deep plugin line lets two passes leave the block unlike. */
  lemma BothViews(t: Template, m: seq<string>, u: nat, m1: seq<string>, u1: nat)
    requires WellFormed(t) && t.unix.Some? && UnixIn(t, m, u) && UnixIn(t, m1, u1) && UnixAt(t, m1, u1)
    requires UnixAt(t, m, u) || Grown(t, m, u)
    requires Close(EnsurePlugin(t, m).lines) == Close(EnsurePlugin(t, m1).lines)
    ensures PutsIn(t, m, u) ==> PutsIn(t, m1, u1)
    ensures UnixAt(t, m, u) ==> PutsIn(t, m, u) == PutsIn(t, m1, u1)
  {
    hide WellFormed, UnixIn, UnixAt, Grown, First, Target, Found, EnsurePlugin, PutsIn, Close, Lead, EntryLine, Uncomment;
    if PutsIn(t, m, u) && !PutsIn(t, m1, u1) {
      var i, e := EntryForEntry(t, m1, u1, m, u);
      NotRightBehind(t, m1, u1, e);
      assert false;
    }
    if UnixAt(t, m, u) && !PutsIn(t, m, u) && PutsIn(t, m1, u1) {
      var i, e := EntryForEntry(t, m, u, m1, u1);
      NotRightBehind(t, m, u, e);
      assert false;
    }
  }

  lemma NotRightBehind(t: Template, m: seq<string>, u: nat, e: nat)
    requires WellFormed(t) && t.unix.Some? && |t.unix.value| >= 1 && UnixAt(t, m, u) && e == u + |t.unix.value| < |m|
    requires t.indent + 2 > Lead(t.unix.value[0])
    ensures !(Found(t, m, e) && Uncomment(m[e]) == EntryLine(t, t.indent + 2))
  {
    hide WellFormed, First, Lead, EntryLine, Uncomment, Has, Normalize, IsCommented;
    InsertedLine(t, t.indent + 2);
    UncommentKeepsIndent(m[e]);
  }

  lemma SameUnix(t: Template, m: seq<string>, u: nat, s: seq<string>, v: nat, w: nat, c: nat,
                 m1: seq<string>, u1: nat, s1: seq<string>, v1: nat, w1: nat, d: nat)
    requires WellFormed(t) && View(t, m, u, s, v, w, c) && View(t, m1, u1, s1, v1, w1, d)
    requires Close(EnsurePlugin(t, m).lines) == Close(EnsurePlugin(t, m1).lines)
    ensures v == v1
  {
    hide WellFormed, View, EnsurePlugin, Close, First, InBlock, Lead;
    ViewHeader(t, m, u, s, v, w, c);
    ViewHeader(t, m1, u1, s1, v1, w1, d);
  }

  /** A pass that leaves a deep line behind the block, and one that does not. */
  lemma GrownAndEnded(t: Template, m: seq<string>, u: nat, s: seq<string>, v: nat, w: nat, c: nat,
                      m1: seq<string>, u1: nat, s1: seq<string>, w1: nat, d: nat)
    requires View(t, m, u, s, v, w, c) && View(t, m1, u1, s1, v, w1, d)
    requires Close(EnsurePlugin(t, m).lines) == Close(EnsurePlugin(t, m1).lines)
    requires Grown(t, s, v) && Ended(t, s1, v)
    ensures w != w1
  {
    hide View, EnsurePlugin, Close, Grown, Ended, Lead;
    ViewEnds(t, m, u, s, v, w, c);
    ViewEnds(t, m1, u1, s1, v, w1, d);
  }

  lemma TailsOver(t: Template, m: seq<string>, u: nat, s: seq<string>, v: nat, w: nat, c: nat,
                  m1: seq<string>, u1: nat, s1: seq<string>, w1: nat, d: nat)
    requires View(t, m, u, s, v, w, c) && View(t, m1, u1, s1, v, w1, d)
    requires Close(EnsurePlugin(t, m).lines) == Close(EnsurePlugin(t, m1).lines)
    requires w1 == w || (w1 == w + 1 && var x := Close(EnsurePlugin(t, m).lines); v + w < |x| && Tail(x[v + w]) == 0)
    ensures BesideWithin(t, s, v, d)
  {
    hide UnixIn, EnsurePlugin, PutsIn, Close, Lead, BesideWithin, Overgrown, Tail;
    ViewWithin(t, m1, u1, s1, v, w1, d);
    ViewTails(t, m, u, s, v, w, c, d);
  }

  /** Two passes that write the same lines: the first leaves no more carriage returns than the
      second, and if a deep line is behind its block, the second puts its entry there.  */
  lemma NoTailsLeft(t: Template, m: seq<string>, u: nat, m1: seq<string>, u1: nat, c: nat, d: nat)
    requires WellFormed(t) && t.unix.Some? && UnixIn(t, m, u) && UnixIn(t, m1, u1) && UnixAt(t, m1, u1)
    requires UnixAt(t, m, u) || Grown(t, m, u)
    requires Close(EnsurePlugin(t, m).lines) == Close(EnsurePlugin(t, m1).lines)
    requires BesideWithin(t, m, u, c) && BesideWithin(t, m1, u1, d)
    ensures BesideWithin(t, m, u, d)
    ensures Grown(t, m, u) ==> PutsIn(t, m1, u1) && !PutsIn(t, m, u)
  {
    hide WellFormed, UnixIn, UnixAt, Grown, First, EnsurePlugin, PutsIn, Close, Lead, BesideWithin, Ended, Overgrown, Tail;
    var s, v, w := ViewOf(t, m, u, c);
    var s1, v1, w1 := ViewOf(t, m1, u1, d);
    SameUnix(t, m, u, s, v, w, c, m1, u1, s1, v1, w1, d);
    if Grown(t, m, u) {
      GrownAndEnded(t, m, u, s, v, w, c, m1, u1, s1, w1, d);
    }
    BothViews(t, m, u, m1, u1);
    if w != w1 {
      ViewHeader(t, m, u, s, v, w, c);
      EntryHasNoTail(t, m, u, m1, u1, v);
    }
    TailsOver(t, m, u, s, v, w, c, m1, u1, s1, w1, d);
  }

  lemma EntryHasNoTail(t: Template, m: seq<string>, u: nat, m1: seq<string>, u1: nat, v: nat)
    requires WellFormed(t) && t.unix.Some? && UnixIn(t, m, u) && UnixIn(t, m1, u1) && PutsIn(t, m1, u1) && !PutsIn(t, m, u)
    requires Close(EnsurePlugin(t, m).lines) == Close(EnsurePlugin(t, m1).lines)
    requires First(Close(EnsurePlugin(t, m).lines), 0, Header(UNIX)) == v
    ensures var x := Close(EnsurePlugin(t, m).lines);
            v + |t.unix.value| < |x| && Tail(x[v + |t.unix.value|]) == 0
  {
    hide WellFormed, UnixIn, First, EnsurePlugin, PutsIn, Close, Lead, Tail, PluginAt, EntryLine, Target, Found, Has,
         Normalize, IsCommented, EndsInCR;
    var i0, e0 := EntryForEntry(t, m, u, m1, u1);
    var i, e := PutsInMeans(t, m1, u1);
    InsertedLine(t, t.indent + 2);
  }

  lemma KeptBack(t: Template, ls: seq<string>, u: nat, c: nat)
    requires WellFormed(t) && t.unix.Some? && UnixIn(t, EnsureUnix(t, ls).lines, u) && BesideWithin(t, EnsureUnix(t, ls).lines, u, c)
    ensures Within(Outside(t, ls), c)
  {
    hide UnixIn, EnsureUnix, First, BlockEnd, Tail, Outside, Normalize, Lead, Contains, InBlock;
    var m, block, i := EnsureUnix(t, ls).lines, t.unix.value, First(ls, 0, Header(UNIX));
    OwnUnixIn(t, m, u);
    if i == |ls| {
      AppendedUnixLines(t, ls);
      AppendedIsFirst(ls, block);
      AllOutside(t, ls);
      assert forall j | 0 <= j < |ls| :: m[j] == ls[j];
    } else {
      var e := BlockEnd(ls, i);
      ReplacedPieces(t, ls, i, e);
      ReplacedIsFirst(ls, i, e, block);
      PiecesBack(t, ls, i, e, c);
    }
  }

  lemma PiecesBack(t: Template, ls: seq<string>, i: nat, e: nat, c: nat)
    requires t.unix.Some? && i <= e <= |ls| && BesideWithin(t, ls[..i] + t.unix.value + ls[e..], i, c)
    ensures Within(ls[..i] + ls[e..], c)
  {
    hide Tail;
    var m, p := ls[..i] + t.unix.value + ls[e..], ls[..i] + ls[e..];
    assert forall j | 0 <= j < |p| :: p[j] == m[if j < i then j else j + |t.unix.value|];
  }

  /** What follows the plugin line, when the second pass has put the entry in its place. */
  lemma RegrownEnd(t: Template, m: seq<string>, m1: seq<string>, u: nat, i: nat, e: nat)
    requires WellFormed(t) && t.unix.Some? && |t.unix.value| >= 1 && UnixAt(t, m1, u) && e == u + |t.unix.value| < |m|
    requires First(m, 0, Header(PLUGINS)) == i < |m| && Target(t, m, i) == e && Found(t, m, e)
    requires First(m1, 0, Header(PLUGINS)) == i < |m1| && Target(t, m1, i) == e && !Found(t, m1, e)
    requires Close(EnsurePlugin(t, m).lines) == Close(EnsurePlugin(t, m1).lines)
    ensures e + 1 < |Close(m)| && LeavesBoth(t, Close(m), e + 1)
  {
    hide WellFormed, UnixAt, First, Target, EnsurePlugin, Close, Lead, Found, Has, InBlock, Uncomment, EntryLine, Normalize, Insert;
    FoundOutcome(t, m, i, e);
    InsertOutcome(t, m1, i, e);
    TargetMeans(t, m, i, e);
    MentionUncommented(m[e]);
    HeaderTwice(m[i]);
    BlankIsNoHeader();
    CloseOfUpdate(m, i, Uncomment(m[i]));
    CloseOfUpdate(m[i := Uncomment(m[i])], e, Uncomment(m[e]));
    CloseIsPrefix(m);
    InsertedLine(t, t.indent + 2);
    InsertedEnd(m1[i := Uncomment(m1[i])], e, EntryLine(t, t.indent + 2));
    if e < |m1| {
      StopsAtLeaver(t, m1, i, e);
      BehindBlock(t, m1, u);
      StopsPlugins(m1[e], t.indent);
    }
  }

  lemma RegrownEntry(t: Template, m: seq<string>, m1: seq<string>, u: nat, i: nat, e: nat)
    requires WellFormed(t) && t.unix.Some? && |t.unix.value| >= 1 && UnixAt(t, m1, u) && e == u + |t.unix.value| < |m|
    requires First(m, 0, Header(PLUGINS)) == i < |m| && Target(t, m, i) == e && Found(t, m, e)
    requires First(m1, 0, Header(PLUGINS)) == i < |m1| && Target(t, m1, i) == e && !Found(t, m1, e)
    requires Close(EnsurePlugin(t, m).lines) == Close(EnsurePlugin(t, m1).lines)
    requires Uncomment(m[e]) == EntryLine(t, t.indent + 2) && t.indent + 2 > Lead(t.unix.value[0])
    ensures EntryAt(t, m, i, e)
  {
    hide WellFormed, UnixAt, First, Target, EnsurePlugin, Close, Lead, Found, Uncomment, EntryLine, LeavesBoth, Hits;
    RegrownEnd(t, m, m1, u, i, e);
  }

  lemma StopsPlugins(l: string, base: nat)
    requires l != "" && Lead(l) <= base
    ensures !InBlock(l, base)
  {
    hide Lead;
  }

  lemma InsertedEnd(m: seq<string>, e: nat, x: string)
    requires e <= |m| && x != ""
    ensures e + 1 < |Close(Insert(m, e, x))|
    ensures if e < |m| then Close(Insert(m, e, x))[e + 1] == m[e] else |Close(Insert(m, e, x))| == e + 2
  {
    var out := Insert(m, e, x);
    if e < |m| {
      assert out[e + 1] == m[e];
    } else {
      assert out[|out| - 1] == x;
    }
  }

  lemma SamePasses(t: Template, ls: seq<string>) returns (u: nat, u1: nat)
    requires WellFormed(t) && t.unix.Some? && |ls| >= 1 && Round(t, Reading(t, ls)) == Round(t, ls)
    ensures var m, m1 := EnsureUnix(t, ls).lines, EnsureUnix(t, Reading(t, ls)).lines;
            && UnixIn(t, m, u) && (if Shallow(t, ls) then UnixAt(t, m, u) else Grown(t, m, u))
            && UnixIn(t, m1, u1) && UnixAt(t, m1, u1)
            && Close(EnsurePlugin(t, m).lines) == Close(EnsurePlugin(t, m1).lines)
  {
    hide WellFormed, UnixIn, UnixAt, EnsureUnix, EnsurePlugin, Shallow, Reading, Grown, Close;
    ReadingIsShallow(t, ls);
    u := ShallowOrGrown(t, ls);
    u1 := ShallowOrGrown(t, Reading(t, ls));
    PatchIsStageTwo(t, ls);
    PatchIsStageTwo(t, Reading(t, ls));
  }

  lemma NoTailsAtAll(t: Template, ls: seq<string>)
    requires WellFormed(t) && t.unix.Some? && |ls| >= 1 && Round(t, Reading(t, ls)) == Round(t, ls)
    ensures NoneEndsInCR(Outside(t, ls))
  {
    hide WellFormed, UnixIn, UnixAt, EnsureUnix, EnsurePlugin, BesideWithin, Within, MaxTail, Outside, Shallow, Reading,
         NoneEndsInCR, Grown, PutsIn, Close, Round;
    var c, d := MaxTail(Outside(t, ls)), MaxTail(Outside(t, Reading(t, ls)));
    var u, u1 := SamePasses(t, ls);
    KeptWithin(t, ls, u, c);
    KeptWithin(t, Reading(t, ls), u1, d);
    NoTailsLeft(t, EnsureUnix(t, ls).lines, u, EnsureUnix(t, Reading(t, ls)).lines, u1, c, d);
    KeptBack(t, ls, u, d);
    MaxTailIsLeast(Outside(t, ls), d);
    OutsideShortens(t, ls);
    NoTailIsClean(Outside(t, ls));
  }

  /** If the second pass over a file repeats the first, the file is tidy or it is that shape. */
  lemma OnlyRegrown(t: Template, ls: seq<string>)
    requires WellFormed(t) && t.unix.Some? && |ls| >= 1 && Round(t, Reading(t, ls)) == Round(t, ls)
    ensures NoneEndsInCR(Outside(t, ls)) && (Shallow(t, ls) || Regrows(t, ls))
  {
    hide WellFormed, UnixIn, UnixAt, EnsureUnix, EnsurePlugin, BesideWithin, Within, MaxTail, Outside, Shallow, Reading,
         NoneEndsInCR, Grown, PutsIn, Close, First, Target, Found, Lead, LeavesBoth, Uncomment, EntryLine, Round, EntryAt;
    NoTailsAtAll(t, ls);
    if !Shallow(t, ls) {
      var u, u1 := SamePasses(t, ls);
      OwnUnixIn(t, EnsureUnix(t, ls).lines, u);
      GrownHasEntry(t, EnsureUnix(t, ls).lines, u, EnsureUnix(t, Reading(t, ls)).lines, u1);
    }
  }

  lemma GrownHasEntry(t: Template, m: seq<string>, u: nat, m1: seq<string>, u1: nat)
    requires WellFormed(t) && t.unix.Some? && UnixIn(t, m, u) && UnixIn(t, m1, u1) && UnixAt(t, m1, u1) && Grown(t, m, u)
    requires Close(EnsurePlugin(t, m).lines) == Close(EnsurePlugin(t, m1).lines)
    ensures var i := First(m, 0, Header(PLUGINS));
            |t.unix.value| >= 1 && i < |m| && EntryAt(t, m, i, u + |t.unix.value|)
  {
    hide WellFormed, UnixIn, UnixAt, EnsurePlugin, Grown, PutsIn, Close, First, Target, Found, Lead, LeavesBoth, Uncomment,
         EntryLine, EntryAt, Hits;
    GrownPutsIn(t, m, u, m1, u1);
    var i, e := EntryForEntry(t, m, u, m1, u1);
    RegrownEntry(t, m, m1, u, i, e);
  }

  lemma GrownPutsIn(t: Template, m: seq<string>, u: nat, m1: seq<string>, u1: nat)
    requires WellFormed(t) && t.unix.Some? && UnixIn(t, m, u) && UnixIn(t, m1, u1) && UnixAt(t, m1, u1) && Grown(t, m, u)
    requires Close(EnsurePlugin(t, m).lines) == Close(EnsurePlugin(t, m1).lines)
    ensures PutsIn(t, m1, u1) && !PutsIn(t, m, u)
  {
    hide WellFormed, UnixIn, UnixAt, EnsurePlugin, BesideWithin, PutsIn, Close, Grown, MaxTail;
    AllWithin(t, m, u);
    AllWithin(t, m1, u1);
    NoTailsLeft(t, m, u, m1, u1, MaxTail(m), MaxTail(m1));
  }

  lemma AllWithin(t: Template, m: seq<string>, u: nat)
    ensures BesideWithin(t, m, u, MaxTail(m))
  {
    hide Tail;
  }

  // ----- And repeats it when it does -----

  /** The lines without that plugin line, and without a blank one behind it at the end. */
  function WithoutEntry(t: Template, m: seq<string>, u: nat, i: nat, e: nat): seq<string>
    requires i < e < |m|
  {
    m[..e][i := Remains(t, m, u, i)] + if e + 2 == |Close(m)| then [] else m[e + 1..]
  }

  lemma WithoutLines(t: Template, m: seq<string>, u: nat, i: nat, e: nat)
    requires i < e < |m|
    ensures var s, x := WithoutEntry(t, m, u, i, e), Close(m);
            && |s| >= e && (forall y | 0 <= y < e :: s[y] == if y == i then Remains(t, m, u, i) else m[y])
            && (if e + 2 == |x| then |s| == e else |s| == |m| - 1 && forall y | e <= y < |s| :: s[y] == m[y + 1])
  {
    hide Remains, Close;
  }

  lemma EntryMeans(t: Template, m: seq<string>, i: nat, e: nat)
    requires WellFormed(t) && t.unix.Some? && |t.unix.value| >= 1 && i < |m| && EntryAt(t, m, i, e)
    ensures i < e < |m| && Target(t, m, i) == e && Found(t, m, e) && Uncomment(m[e]) == EntryLine(t, t.indent + 2)
    ensures m[e] != "" && Lead(m[e]) == t.indent + 2 > Lead(t.unix.value[0]) && e + 1 < |Close(m)| && LeavesBoth(t, Close(m), e + 1)
  {
    hide WellFormed, First, Lead, EntryLine, Uncomment, Has, Normalize, IsCommented, LeavesBoth, Close, Hits, Contains;
    InsertedLine(t, t.indent + 2);
    UncommentKeepsIndent(m[e]);
    HasIsContains(m[e]);
    HasIsContains(Uncomment(m[e]));
    UncommentContains(m[e], NDPI);
    BlankIsNoHeader();
  }

  /** What follows the plugin line in the file. */
  lemma AfterEntry(t: Template, m: seq<string>, e: nat)
    requires t.unix.Some? && |t.unix.value| >= 1 && e < |m| && m[e] != "" && e + 1 < |Close(m)| && LeavesBoth(t, Close(m), e + 1)
    ensures if e + 2 == |Close(m)| then |m| == e + 1 || (|m| == e + 2 && m[e + 1] == "")
            else e + 1 < |m| && !InBlock(m[e + 1], Lead(t.unix.value[0])) && !InBlock(m[e + 1], t.indent)
  {
    hide InBlock, Lead;
    NothingLeaves(t);
  }

  lemma NothingLeaves(t: Template)
    ensures forall base :: InBlock("", base)
  {
  }

  lemma WithoutIsReady(t: Template, m: seq<string>, u: nat, i: nat, e: nat)
    requires WellFormed(t) && t.unix.Some? && |t.unix.value| >= 1 && UnixIn(t, m, u) && BesideWithin(t, m, u, 0)
    requires First(m, 0, Header(PLUGINS)) == i < |m| && EntryAt(t, m, i, e) && e == u + |t.unix.value|
    ensures i < e < |m|
    ensures var s := WithoutEntry(t, m, u, i, e);
            |s| >= 1 && Ready(t, s, u, i, e) && !Found(t, s, e) && !KeepsOut(t, u, e)
            && s[i] == Remains(t, m, u, i) && (e == |s| || e < |s|)
  {
    hide WellFormed, UnixIn, First, Lead, EntryLine, Uncomment, Has, Normalize, IsCommented, LeavesBoth, Close, Remains, Tail,
         WithoutEntry, EntryAt, InBlock;
    EntryMeans(t, m, i, e);
    AfterEntry(t, m, e);
    WithoutLines(t, m, u, i, e);
    var s := WithoutEntry(t, m, u, i, e);
    RemainsKeeps(t, m, u, i);
    WithoutUnix(t, m, s, u, i, e);
    AtIsIn(t, s, u);
    WithoutScan(t, m, s, i, e);
    WithoutTails(t, m, s, u, i, e);
  }

  lemma WithoutUnix(t: Template, m: seq<string>, s: seq<string>, u: nat, i: nat, e: nat)
    requires t.unix.Some? && |t.unix.value| >= 1 && UnixIn(t, m, u) && i < e == u + |t.unix.value| < |m|
    requires |s| >= e && (forall y | 0 <= y < e :: s[y] == if y == i then Remains(t, m, u, i) else m[y])
    requires Normalize(Remains(t, m, u, i)) != UNIX && Normalize(m[i]) != UNIX
    requires e < |s| ==> !InBlock(s[e], Lead(t.unix.value[0]))
    ensures UnixAt(t, s, u)
  {
    hide InBlock, Lead, First, Normalize, Uncomment;
    BlockIsInside(t, m, u);
    BlockSlice(t, m, u);
    assert s[u..e] == m[u..e];
    FirstIs(s, 0, Header(UNIX), u);
  }

  lemma WithoutScan(t: Template, m: seq<string>, s: seq<string>, i: nat, e: nat)
    requires First(m, 0, Header(PLUGINS)) == i < e < |m| && Target(t, m, i) == e && |s| >= e
    requires forall y | 0 <= y < e && y != i :: s[y] == m[y]
    requires Normalize(s[i]) == PLUGINS && (e < |s| ==> !InBlock(s[e], t.indent))
    ensures First(s, 0, Header(PLUGINS)) == i && Target(t, s, i) == e && !Found(t, s, e)
  {
    hide InBlock, Lead, First, Normalize, Has;
    FirstIs(s, 0, Header(PLUGINS), i);
    FirstIs(s, i + 1, Stops(t.indent), e);
  }

  lemma WithoutTails(t: Template, m: seq<string>, s: seq<string>, u: nat, i: nat, e: nat)
    requires t.unix.Some? && BesideWithin(t, m, u, 0) && i < e == u + |t.unix.value| < |m| && e <= |s|
    requires forall y | 0 <= y < e && y != i :: s[y] == m[y]
    requires Tail(s[i]) == Tail(m[i])
    requires e < |s| ==> |s| == |m| - 1 && forall y | e <= y < |s| :: s[y] == m[y + 1]
    ensures BesideWithin(t, s, u, 0)
  {
    hide Tail;
    forall j | 0 <= j < |s| && Beside(t, u, j)
      ensures Tail(s[j]) <= 0
    {
      if j >= e {
        assert s[j] == m[j + 1];
      }
    }
  }

  /** The pass leaves that line, active, between the block and what follows. */
  lemma WithoutOvergrown(t: Template, m: seq<string>, u: nat, i: nat, e: nat) returns (w: nat)
    requires WellFormed(t) && t.unix.Some? && |t.unix.value| >= 1 && UnixIn(t, m, u)
    requires First(m, 0, Header(PLUGINS)) == i < |m| && EntryAt(t, m, i, e) && e == u + |t.unix.value|
    ensures i < e < |m| && e <= |WithoutEntry(t, m, u, i, e)|
    ensures Overgrown(t, WithoutEntry(t, m, u, i, e), u, EnsurePlugin(t, m).lines, w)
  {
    hide WellFormed, UnixIn, First, Target, Lead, EntryLine, Uncomment, Has, Normalize, IsCommented, LeavesBoth, Close, Remains,
         WithoutEntry, EntryAt, InBlock, Found, Hits, EnsurePlugin;
    EntryMeans(t, m, i, e);
    AfterEntry(t, m, e);
    WithoutLines(t, m, u, i, e);
    BlockIsInside(t, m, u);
    var s, out, base := WithoutEntry(t, m, u, i, e), EnsurePlugin(t, m).lines, Lead(t.unix.value[0]);
    StandingBlock(t, m, u, i, e);
    FoundOutcome(t, m, i, e);
    RemainsMeans(t, m, u, i);
    InsertedLine(t, t.indent + 2);
    DeepIsInBlock(out[e], base);
    NothingLeaves(t);
    w := |m| + |t.unix.value| - |s|;
    forall y | u < y < u + w
      ensures InBlock(out[y], base)
    {
      UncommentedInBlock(m[y], base);
    }
    forall y | e <= y < |s|
      ensures out[y - |t.unix.value| + w] == s[y]
    {
      assert s[y] == m[y + 1];
    }
  }

  lemma RemainsMeans(t: Template, m: seq<string>, u: nat, i: nat)
    requires i < |m|
    ensures t.unix.None? || i < u ==> Remains(t, m, u, i) == Uncomment(m[i])
  {
    hide Uncomment;
  }

  /** Putting the entry back writes the lines of the pass before. */
  lemma EntryBack(t: Template, m: seq<string>, u: nat, i: nat, e: nat, a: string, x: string)
    requires i < e < |m| && m[e] != "" && x != "" && a != ""
    requires e + 2 == |Close(m)| ==> |m| == e + 1 || (|m| == e + 2 && m[e + 1] == "")
    requires e + 2 != |Close(m)| ==> e + 1 < |m|
    ensures var s := WithoutEntry(t, m, u, i, e);
            e <= |s| && Close(Insert(s[i := a], e, x)) == Close(m[i := a][e := x])
  {
    hide Remains, Close;
    var s := WithoutEntry(t, m, u, i, e);
    WithoutLines(t, m, u, i, e);
    var back, out := Insert(s[i := a], e, x), m[i := a][e := x];
    if e + 2 == |Close(m)| {
      assert back == out[..e + 1];
      CloseEntry(out, e);
    } else {
      assert back == out;
    }
  }

  lemma CloseEntry(out: seq<string>, e: nat)
    requires e < |out| && out[e] != "" && (|out| == e + 1 || (|out| == e + 2 && out[e + 1] == ""))
    ensures Close(out[..e + 1]) == Close(out)
  {
    if |out| == e + 1 {
      assert out[..e + 1] == out;
    } else {
      assert out == out[..e + 1] + [""];
    }
  }

  /** Over such a file the second pass repeats the first. */
  lemma RegrowsRepeats(t: Template, ls: seq<string>)
    requires WellFormed(t) && t.unix.Some? && Regrows(t, ls)
    ensures Round(t, Reading(t, ls)) == Round(t, ls)
  {
    hide WellFormed, UnixIn, First, Target, EnsureUnix, EnsurePlugin, BesideWithin, Outside, NoneEndsInCR, Close, EntryAt,
         WithoutEntry, Overgrown, Ready, Found, FoldLines, KeepsOut, Remains, Hits;
    var m := EnsureUnix(t, ls).lines;
    var u := StageOneBlock(t, ls);
    OwnUnixIn(t, m, u);
    var i, e := First(m, 0, Header(PLUGINS)), u + |t.unix.value|;
    WithinZero(Outside(t, ls));
    KeptWithin(t, ls, u, 0);
    WithoutIsReady(t, m, u, i, e);
    var w := WithoutOvergrown(t, m, u, i, e);
    var s := WithoutEntry(t, m, u, i, e);
    PatchIsStageTwo(t, ls);
    PatchIsStageTwo(t, Reading(t, ls));
    RestoredReady(t, s, u, i, e, EnsurePlugin(t, m).lines, w);
    EntryAgain(t, m, u, i, e);
  }

  lemma RestoredReady(t: Template, s: seq<string>, u: nat, i: nat, k: nat, out: seq<string>, w: nat)
    requires WellFormed(t) && Ready(t, s, u, i, k) && t.unix.Some? && |t.unix.value| >= 1 && u + |t.unix.value| <= |s|
    requires Overgrown(t, s, u, out, w)
    ensures |s| >= 1 && EnsureUnix(t, FoldLines(Close(out))).lines == Reclosed(t, s, u)
  {
    hide WellFormed, UnixIn, UnixAt, First, Target, EnsureUnix, BesideWithin, Overgrown, FoldLines, Close, Reclosed;
    Restored(t, s, u, out, w);
  }

  lemma EntryAgain(t: Template, m: seq<string>, u: nat, i: nat, e: nat)
    requires WellFormed(t) && t.unix.Some? && |t.unix.value| >= 1 && UnixIn(t, m, u) && BesideWithin(t, m, u, 0)
    requires First(m, 0, Header(PLUGINS)) == i < |m| && EntryAt(t, m, i, e) && e == u + |t.unix.value|
    ensures i < e < |m| && |WithoutEntry(t, m, u, i, e)| >= 1
    ensures var r := Reclosed(t, WithoutEntry(t, m, u, i, e), u);
            Close(EnsurePlugin(t, r).lines) == Close(EnsurePlugin(t, m).lines)
  {
    hide WellFormed, UnixIn, UnixAt, First, Target, EnsurePlugin, BesideWithin, Close, EntryAt, Normalize, Lead, Has, InBlock,
         WithoutEntry, Found, KeepsOut, EntryLine, Uncomment, LeavesBoth, UnixTrails, Insert;
    EntryMeans(t, m, i, e);
    AfterEntry(t, m, e);
    WithoutIsReady(t, m, u, i, e);
    var s, a, x := WithoutEntry(t, m, u, i, e), Uncomment(m[i]), EntryLine(t, t.indent + 2);
    var r := Reclosed(t, s, u);
    ReclosedReady(t, s, u, i, e);
    InsertOutcome(t, r, i, e);
    FoundOutcome(t, m, i, e);
    StandingMeans(t, s, u, i, e);
    StandingMeans(t, r, u, i, e);
    HeaderTwice(m[i]);
    RemainsKeeps(t, m, u, i);
    InsertedLine(t, t.indent + 2);
    EntryBack(t, m, u, i, e, a, x);
    if e < |s| {
      InsertWritten(s, r, i, e, a, x);
    } else {
      BlankEnd(t, s, u);
    }
  }

  lemma RegrowsIsDeep(t: Template, ls: seq<string>)
    requires WellFormed(t) && t.unix.Some? && Regrows(t, ls) && |ls| >= 1
    ensures !Shallow(t, ls)
  {
    hide WellFormed, UnixAt, First, EnsureUnix, EntryAt, Found, Uncomment, EntryLine, Lead, LeavesBoth, Hits, Outside, Shallow,
         NoneEndsInCR;
    if Shallow(t, ls) {
      var m := EnsureUnix(t, ls).lines;
      var u := EnsureUnixPlaces(t, ls);
      OwnUnix(t, m, u);
      EntryMeans(t, m, First(m, 0, Header(PLUGINS)), u + |t.unix.value|);
      NotRightBehind(t, m, u, u + |t.unix.value|);
      assert false;
    }
  }

  /** A second pass repeats the first over an untidy file exactly if the file has that shape. */
  lemma UntidyRepeats(t: Template, ls: seq<string>)
    requires WellFormed(t) && t.unix.Some? && |ls| >= 1 && !Tidy(t, ls)
    ensures Round(t, Reading(t, ls)) == Round(t, ls) <==> Regrows(t, ls)
  {
    hide WellFormed, Round, Reading, Regrows, NoneEndsInCR, Outside, Shallow;
    if Regrows(t, ls) {
      RegrowsRepeats(t, ls);
    }
    if Round(t, Reading(t, ls)) == Round(t, ls) {
      OnlyRegrown(t, ls);
    }
  }
}
