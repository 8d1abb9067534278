/** Iterating the patcher: when a pass leaves the file as it is, when it reports no
    change, and how many passes it takes to get there.  */
module PatchConvergence {
  import opened Text
  import opened Comments
  import opened Blocks
  import opened PatchSpec

  // ----- What the two stages leave behind -----

  predicate Closed(ls: seq<string>) {
    |ls| >= 2 && ls[|ls| - 1] == ""
  }

  /** The template's unix block stands at u, under the first such header. */
  predicate UnixIn(t: Template, ls: seq<string>, u: nat) {
    t.unix.Some? ==>
      && |t.unix.value| >= 1 && u + |t.unix.value| <= |ls| && ls[u..u + |t.unix.value|] == t.unix.value
      && First(ls, 0, Header(UNIX)) == u
  }

  /** It does, and is followed by the end of the lines or by a line that leaves it. */
  predicate UnixAt(t: Template, ls: seq<string>, u: nat) {
    t.unix.Some? ==>
      var block := t.unix.value;
      var e := u + |block|;
      && |block| >= 1 && e <= |ls| && ls[u..e] == block
      && First(ls, 0, Header(UNIX)) == u
      && (e == |ls| || !InBlock(ls[e], Lead(block[0])))
  }

  /** The unix block is the last thing in the file and does not end in a blank line. */
  predicate UnixTrails(t: Template, ls: seq<string>, u: nat) {
    t.unix.Some? && |t.unix.value| >= 1 && t.unix.value[|t.unix.value| - 1] != "" && u + |t.unix.value| == |ls|
  }

  /** An active `plugins:` header at `i`, its scan stopping at the plugin line `k`. */
  predicate PluginAt(t: Template, ls: seq<string>, i: nat, k: nat) {
    && First(ls, 0, Header(PLUGINS)) == i < |ls| && !IsCommented(ls[i])
    && Target(t, ls, i) == k && Found(t, ls, k)
  }

  /** The line j is not part of the unix block at u. */
  predicate Beside(t: Template, u: nat, j: nat) {
    t.unix.Some? ==> j < u || u + |t.unix.value| <= j
  }

  /** Uncommenting the line j leaves the unix block at u as it is. */
  predicate Harmless(t: Template, ls: seq<string>, u: nat, j: nat)
    requires j < |ls|
  {
    Beside(t, u, j) || !IsCommented(ls[j])
  }

  predicate Settled(t: Template, ls: seq<string>, i: nat, k: nat, u: nat) {
    UnixAt(t, ls, u) && PluginAt(t, ls, i, k) && Harmless(t, ls, u, k)
  }

  // ----- Conditions on the template and the file -----

  /** An entry inserted at k does not come to stand in the unix block, nor does it prolong it. */
  predicate KeepsOut(t: Template, u: nat, k: nat)
    requires t.unix.Some? && |t.unix.value| >= 1
  {
    var e := u + |t.unix.value|;
    k <= u || e < k || (k == e && t.indent + 2 <= Lead(t.unix.value[0]))
  }

  /** Stage two, working on the lines that stage one left, does not change the unix block. */
  predicate WorksBeside(t: Template, m: seq<string>) {
    var i := First(m, 0, Header(PLUGINS));
    t.unix.Some? && |t.unix.value| >= 1 && i < |m| ==>
      var u := First(m, 0, Header(UNIX));
      var k := Target(t, m, i);
      Harmless(t, m, u, i) && if Found(t, m, k) then Harmless(t, m, u, k) else KeepsOut(t, u, k)
  }

  /** The sections of the file do not overlap in the first pass. */
  predicate Disjoint(t: Template, ls: seq<string>) {
    WorksBeside(t, EnsureUnix(t, ls).lines)
  }

  /** A condition on the template alone: the unix header is not indented deeper than the plugins
      header, and the uncommented unix block contains no plugins header.  */
  predicate DisjointTemplate(t: Template) {
    t.unix.Some? && |t.unix.value| >= 1 ==>
      && Lead(t.unix.value[0]) <= t.indent
      && forall k | 0 <= k < |t.unix.value| :: Normalize(t.unix.value[k]) != PLUGINS
  }

  /** The line that follows the file's unix block, if any, is not indented deeper than the
      template's unix header.  */
  predicate Shallow(t: Template, ls: seq<string>) {
    t.unix.Some? && |t.unix.value| >= 1 ==>
      var i := First(ls, 0, Header(UNIX));
      i < |ls| && BlockEnd(ls, i) < |ls| ==> Lead(ls[BlockEnd(ls, i)]) <= Lead(t.unix.value[0])
  }

  // ----- Stage one -----

  lemma BlockStaysTogether(t: Template, ls: seq<string>, u: nat)
    requires WellFormed(t) && t.unix.Some? && UnixAt(t, ls, u)
    ensures BlockEnd(ls, u) == u + |t.unix.value|
  {
    hide Normalize, Lead, Has;
    var block := t.unix.value;
    var e := u + |block|;
    assert forall j | u <= j < e :: ls[j] == ls[u..e][j - u] == block[j - u];
    FirstIs(ls, u + 1, Leaves(Lead(block[0])), e);
  }

  lemma AppendedIsFirst(ls: seq<string>, block: seq<string>)
    requires First(ls, 0, Header(UNIX)) == |ls| && |block| >= 1 && Normalize(block[0]) == UNIX
    ensures First(Separated(ls) + block, 0, Header(UNIX)) == |Separated(ls)|
  {
    hide Normalize, First;
    KeyIsTrimmed(UNIX);
    BlankIsNoHeader();
    FirstIs(Separated(ls) + block, 0, Header(UNIX), |Separated(ls)|);
  }

  function Spliced(ls: seq<string>, i: nat, e: nat, block: seq<string>): seq<string>
    requires i <= e <= |ls|
  {
    ls[..i] + block + ls[e..]
  }

  lemma SplicedIs(ls: seq<string>, i: nat, e: nat, block: seq<string>)
    requires i <= e <= |ls|
    ensures Spliced(ls, i, e, block) == ls[..i] + block + ls[e..]
  {
  }

  lemma SplicedLines(ls: seq<string>, i: nat, e: nat, block: seq<string>)
    requires i <= e <= |ls| && |block| >= 1
    ensures var out := Spliced(ls, i, e, block);
            && |out| == i + |block| + |ls| - e
            && (forall k | 0 <= k < i :: out[k] == ls[k]) && out[i] == block[0]
            && out[i..i + |block|] == block && (e < |ls| ==> out[i + |block|] == ls[e])
  {
  }

  lemma ReplacedIsFirst(ls: seq<string>, i: nat, e: nat, block: seq<string>)
    requires First(ls, 0, Header(UNIX)) == i < e <= |ls| && |block| >= 1 && Normalize(block[0]) == UNIX
    ensures var out := ls[..i] + block + ls[e..];
            First(out, 0, Header(UNIX)) == i && out[i..i + |block|] == block && (e < |ls| ==> out[i + |block|] == ls[e])
  {
    hide Normalize, First, Spliced;
    var out := Spliced(ls, i, e, block);
    SplicedLines(ls, i, e, block);
    FirstIs(out, 0, Header(UNIX), i);
    SplicedIs(ls, i, e, block);
  }

  lemma EnsureUnixPlaces(t: Template, ls: seq<string>) returns (u: nat)
    requires WellFormed(t) && Shallow(t, ls) && |ls| >= 1
    ensures UnixAt(t, EnsureUnix(t, ls).lines, u) && |EnsureUnix(t, ls).lines| >= 1
  {
    hide Normalize, Lead, Has, First;
    u := 0;
    if t.unix.Some? {
      var block, out := t.unix.value, EnsureUnix(t, ls).lines;
      var i := First(ls, 0, Header(UNIX));
      if i == |ls| {
        u := |Separated(ls)|;
        AppendedIsFirst(ls, block);
      } else {
        u := i;
        ReplacedIsFirst(ls, i, BlockEnd(ls, i), block);
      }
    }
  }

  lemma BlankIsNoHeader()
    ensures Normalize("") != UNIX && Normalize("") != PLUGINS && !Has("")
  {
    TrimSpaceIs("", 0, 0);
    HasIsContains("");
  }

  // ----- Stage two -----

  /** The entry line that stage two inserts is a plugin line, active and inside the block. */
  lemma InsertedLine(t: Template, n: nat)
    requires WellFormed(t)
    ensures var x := EntryLine(t, n);
            Lead(x) == n && Has(x) && !IsCommented(x) && x != "" && x[|x| - 1] == t.entry[|t.entry| - 1]
    ensures var x := EntryLine(t, n);
            Normalize(x) != PLUGINS && Normalize(x) != UNIX && NoNewline(x) && !EndsInCR(x)
  {
    hide Normalize, Contains, Lead;
    var x := EntryLine(t, n);
    LeadIs(x, n);
    ContainsSkip(Pad(n), t.entry, NDPI);
    HasIsContains(x);
    MentionIsNoHeader(x);
  }

  lemma ScanStopsBeforeUnix(t: Template, ls: seq<string>, i: nat, u: nat)
    requires WellFormed(t) && DisjointTemplate(t) && UnixIn(t, ls, u) && t.unix.Some?
    requires i < u
    ensures Target(t, ls, i) <= u
    ensures Found(t, ls, Target(t, ls, i)) ==> Target(t, ls, i) < u
  {
    hide Normalize, Has;
    var block := t.unix.value;
    assert ls[u] == ls[u..u + |block|][0] == block[0];
    BlankIsNoHeader();
  }

  lemma HeaderOutsideUnix(t: Template, ls: seq<string>, u: nat)
    requires WellFormed(t) && DisjointTemplate(t) && UnixIn(t, ls, u) && t.unix.Some?
    ensures var i := First(ls, 0, Header(PLUGINS)); i < u || u + |t.unix.value| <= i
  {
    hide Normalize, Lead, Has;
    var block := t.unix.value;
    assert forall j | u <= j < u + |block| :: ls[j] == ls[u..u + |block|][j - u] == block[j - u];
  }

  /** Rewriting one line outside the unix block, or not at all, keeps the block in its place, if
      the new line is no unix header and, right behind the block, still leaves it.  */
  lemma UpdateKeepsUnix(t: Template, ls: seq<string>, u: nat, j: nat, x: string)
    requires WellFormed(t) && UnixAt(t, ls, u) && j < |ls|
    requires Beside(t, u, j) || x == ls[j]
    requires Normalize(x) != UNIX
    requires x != "" && Lead(x) == Lead(ls[j])
    requires ls[j] != ""
    ensures UnixAt(t, ls[j := x], u)
  {
    hide Normalize, Lead, Has;
    if x == ls[j] {
      assert ls[j := x] == ls;
    } else if t.unix.Some? {
      var block := t.unix.value;
      var e := u + |block|;
      assert ls[j := x][u..e] == ls[u..e];
      assert u < |ls| ==> ls[u] == ls[u..e][0];
      FirstIs(ls[j := x], 0, Header(UNIX), u);
    }
  }

  lemma KeysDiffer()
    ensures PLUGINS != UNIX
  {
    assert PLUGINS[0] == 'p';
  }

  /** With such a template stage two works beside the unix block in every file. */
  lemma TemplateWorksBeside(t: Template, ls: seq<string>, u: nat)
    requires WellFormed(t) && DisjointTemplate(t) && UnixIn(t, ls, u)
    ensures WorksBeside(t, ls)
  {
    hide First, Target, Found, Normalize, Lead, DisjointTemplate, WellFormed;
    if t.unix.Some? {
      HeaderOutsideUnix(t, ls, u);
      var i := First(ls, 0, Header(PLUGINS));
      if i < u {
        ScanStopsBeforeUnix(t, ls, i, u);
      }
    }
  }

  lemma SettledWorksBeside(t: Template, ls: seq<string>, i: nat, k: nat, u: nat)
    requires Settled(t, ls, i, k, u)
    ensures WorksBeside(t, ls)
  {
    hide First, Target, Normalize, Lead, InBlock, Has;
  }

  /** Activating the header moves neither the header nor the scan behind it. */
  lemma ActiveHeader(t: Template, ls: seq<string>, i: nat)
    requires First(ls, 0, Header(PLUGINS)) == i < |ls|
    ensures var active := ls[i := Uncomment(ls[i])];
            && First(active, 0, Header(PLUGINS)) == i && !IsCommented(active[i])
            && Target(t, active, i) == Target(t, ls, i)
  {
    HeaderUncommented(ls[i], PLUGINS);
    hide Normalize, Lead, Has, Uncomment, IsCommented, InBlock;
    var active := ls[i := Uncomment(ls[i])];
    FirstIs(active, 0, Header(PLUGINS), i);
    FirstIs(active, i + 1, Stops(t.indent), Target(t, ls, i));
  }

  /** Writing a plugin line where the scan stops makes the scan find it there. */
  lemma PlacedPlugin(t: Template, before: seq<string>, after: seq<string>, i: nat, k: nat)
    requires First(before, 0, Header(PLUGINS)) == i < |before| && !IsCommented(before[i])
    requires Target(t, before, i) == k < |after| && before[..k] == after[..k]
    requires Lead(after[k]) > t.indent && Has(after[k]) && Normalize(after[k]) != PLUGINS
    ensures PluginAt(t, after, i, k)
  {
    hide Normalize, Lead, Has, IsCommented;
    assert forall j | 0 <= j < k :: after[j] == after[..k][j] == before[j];
    FirstIs(after, 0, Header(PLUGINS), i);
    FirstIs(after, i + 1, Stops(t.indent), k);
  }

  lemma UncommentedPlugin(t: Template, ls: seq<string>, i: nat, k: nat)
    requires First(ls, 0, Header(PLUGINS)) == i < |ls| && Target(t, ls, i) == k && Found(t, ls, k)
    ensures var out := ls[i := Uncomment(ls[i])][k := Uncomment(ls[k])];
            EnsurePlugin(t, ls).lines == out && PluginAt(t, out, i, k)
  {
    ActiveHeader(t, ls, i);
    MentionUncommented(ls[k]);
    BlankIsNoHeader();
    hide Normalize, Lead, Has, Uncomment, IsCommented, PluginAt, First, Target;
    var active := ls[i := Uncomment(ls[i])];
    PlacedPlugin(t, active, active[k := Uncomment(ls[k])], i, k);
  }

  lemma OwnUnix(t: Template, ls: seq<string>, u: nat)
    requires UnixAt(t, ls, u)
    ensures t.unix.Some? ==> First(ls, 0, Header(UNIX)) == u
  {
    hide First;
  }

  lemma FoundBeside(t: Template, ls: seq<string>, u: nat)
    requires UnixAt(t, ls, u) && WorksBeside(t, ls)
    requires First(ls, 0, Header(PLUGINS)) < |ls|
    requires Found(t, ls, Target(t, ls, First(ls, 0, Header(PLUGINS))))
    ensures var i := First(ls, 0, Header(PLUGINS)); var k := Target(t, ls, i);
            k < |ls| && Harmless(t, ls, u, i) && Harmless(t, ls, u, k)
  {
    hide First, Target, IsCommented;
    OwnUnix(t, ls, u);
  }

  lemma HarmlessMeans(t: Template, ls: seq<string>, u: nat, j: nat)
    requires j < |ls| && Harmless(t, ls, u, j)
    ensures Beside(t, u, j) || Uncomment(ls[j]) == ls[j]
  {
    hide IsCommented;
  }

  /** Stage two with a plugin line in reach: header and plugin line lose one mark each. */
  lemma EnsurePluginUncomments(t: Template, ls: seq<string>, u: nat)
    requires WellFormed(t) && UnixAt(t, ls, u) && WorksBeside(t, ls)
    requires First(ls, 0, Header(PLUGINS)) < |ls|
    requires Found(t, ls, Target(t, ls, First(ls, 0, Header(PLUGINS))))
    ensures var i := First(ls, 0, Header(PLUGINS)); var k := Target(t, ls, i);
            && Settled(t, EnsurePlugin(t, ls).lines, i, k, u)
            && EnsurePlugin(t, ls).lines[k] == Uncomment(ls[k])
            && UnixTrails(t, EnsurePlugin(t, ls).lines, u) == UnixTrails(t, ls, u)
  {
    var i := First(ls, 0, Header(PLUGINS));
    var k := Target(t, ls, i);
    UncommentedPlugin(t, ls, i, k);
    FoundBeside(t, ls, u);
    HarmlessMeans(t, ls, u, i);
    HarmlessMeans(t, ls, u, k);
    HeaderUncommented(ls[i], PLUGINS);
    MentionUncommented(ls[k]);
    KeysDiffer();
    hide Normalize, Lead, Has, Uncomment, IsCommented, UnixAt, UnixTrails, PluginAt, EnsurePlugin, First, WellFormed,
         WorksBeside;
    BothUpdatesKeepUnix(t, ls, u, i, k, Uncomment(ls[i]), Uncomment(ls[k]));
  }

  lemma BothUpdatesKeepUnix(t: Template, ls: seq<string>, u: nat, i: nat, k: nat, x: string, y: string)
    requires WellFormed(t) && UnixAt(t, ls, u) && i < k < |ls|
    requires (Beside(t, u, i) || x == ls[i]) && (Beside(t, u, k) || y == ls[k])
    requires Normalize(x) != UNIX && x != "" && Lead(x) == Lead(ls[i]) && ls[i] != ""
    requires Normalize(y) != UNIX && y != "" && Lead(y) == Lead(ls[k]) && ls[k] != ""
    ensures UnixAt(t, ls[i := x][k := y], u) && UnixTrails(t, ls[i := x][k := y], u) == UnixTrails(t, ls, u)
  {
    hide Normalize, Lead, UnixAt, WellFormed;
    UpdateKeepsUnix(t, ls, u, i, x);
    UpdateKeepsUnix(t, ls[i := x], u, k, y);
  }

  /** Inserting a line outside the unix block moves the block or leaves it. */
  lemma InsertBeforeUnix(t: Template, ls: seq<string>, u: nat, k: nat, x: string)
    requires WellFormed(t) && UnixAt(t, ls, u) && t.unix.Some? && k <= u
    requires Normalize(x) != UNIX
    ensures UnixAt(t, Insert(ls, k, x), u + 1)
  {
    hide Normalize, Lead, Insert, WellFormed;
    var block, out := t.unix.value, Insert(ls, k, x);
    var e := u + |block|;
    assert out[u + 1..e + 1] == ls[u..e];
    assert ls[u] == ls[u..e][0];
    FirstIs(out, 0, Header(UNIX), u + 1);
  }

  lemma InsertBehindUnix(t: Template, ls: seq<string>, u: nat, k: nat, x: string)
    requires WellFormed(t) && UnixAt(t, ls, u) && t.unix.Some? && |t.unix.value| >= 1 && u + |t.unix.value| <= k <= |ls|
    requires k == u + |t.unix.value| ==> x != "" && Lead(x) <= Lead(t.unix.value[0])
    ensures UnixAt(t, Insert(ls, k, x), u)
  {
    hide Normalize, Lead, Insert, WellFormed;
    var block, out := t.unix.value, Insert(ls, k, x);
    var e := u + |block|;
    assert out[u..e] == ls[u..e];
    FirstIs(out, 0, Header(UNIX), u);
  }

  lemma FoundOutcome(t: Template, ls: seq<string>, i: nat, k: nat)
    requires First(ls, 0, Header(PLUGINS)) == i < |ls| && Target(t, ls, i) == k && Found(t, ls, k)
    ensures EnsurePlugin(t, ls) == Outcome(ls[i := Uncomment(ls[i])][k := Uncomment(ls[k])], IsCommented(ls[k]))
  {
    hide First, Target, Insert, EntryLine, Uncomment, Lead, Has, Normalize, InBlock, IsCommented, Separated;
  }

  lemma InsertOutcome(t: Template, ls: seq<string>, i: nat, k: nat)
    requires First(ls, 0, Header(PLUGINS)) == i < |ls| && Target(t, ls, i) == k && !Found(t, ls, k)
    ensures EnsurePlugin(t, ls) == Outcome(Insert(ls[i := Uncomment(ls[i])], k, EntryLine(t, t.indent + 2)), true)
  {
    hide First, Target, Found, Insert, EntryLine, Uncomment, Lead, Has, Normalize, InBlock, IsCommented, Separated;
  }

  lemma InsertedPlugin(t: Template, ls: seq<string>, i: nat, k: nat)
    requires WellFormed(t)
    requires First(ls, 0, Header(PLUGINS)) == i < |ls| && Target(t, ls, i) == k && !Found(t, ls, k)
    ensures PluginAt(t, Insert(ls[i := Uncomment(ls[i])], k, EntryLine(t, t.indent + 2)), i, k)
  {
    hide Normalize, Lead, Has, Uncomment, IsCommented, PluginAt, First, Target, EntryLine, Insert, WellFormed, Found;
    ActiveHeader(t, ls, i);
    InsertedLine(t, t.indent + 2);
    var active := ls[i := Uncomment(ls[i])];
    PlacedPlugin(t, active, Insert(active, k, EntryLine(t, t.indent + 2)), i, k);
  }

  lemma InsertKeepsOut(t: Template, ls: seq<string>, u: nat)
    requires UnixAt(t, ls, u) && WorksBeside(t, ls)
    requires First(ls, 0, Header(PLUGINS)) < |ls|
    requires !Found(t, ls, Target(t, ls, First(ls, 0, Header(PLUGINS))))
    ensures var i := First(ls, 0, Header(PLUGINS));
            Harmless(t, ls, u, i) && (t.unix.Some? ==> |t.unix.value| >= 1 && KeepsOut(t, u, Target(t, ls, i)))
  {
    hide First, Target, Found, IsCommented, KeepsOut;
    OwnUnix(t, ls, u);
  }

  lemma KeepsOutMeans(t: Template, u: nat, k: nat)
    requires t.unix.Some? && |t.unix.value| >= 1 && KeepsOut(t, u, k)
    ensures var e := u + |t.unix.value|; k <= u || (e <= k && (k == e ==> t.indent + 2 <= Lead(t.unix.value[0])))
  {
    hide Lead;
  }

  /** Stage two with a header but no plugin line in reach: the entry goes where the scan stopped. */
  lemma EnsurePluginInserts(t: Template, ls: seq<string>, u: nat) returns (v: nat)
    requires WellFormed(t) && UnixAt(t, ls, u) && WorksBeside(t, ls)
    requires First(ls, 0, Header(PLUGINS)) < |ls|
    requires !Found(t, ls, Target(t, ls, First(ls, 0, Header(PLUGINS))))
    ensures var i := First(ls, 0, Header(PLUGINS)); var k := Target(t, ls, i);
            && Settled(t, EnsurePlugin(t, ls).lines, i, k, v)
            && EnsurePlugin(t, ls) == Outcome(Insert(ls[i := Uncomment(ls[i])], k, EntryLine(t, t.indent + 2)), true)
            && UnixTrails(t, EnsurePlugin(t, ls).lines, v)
               == (UnixTrails(t, ls, u) && !(t.unix.Some? && k == u + |t.unix.value|))
  {
    hide Normalize, Lead, Has, Uncomment, IsCommented, PluginAt, EnsurePlugin, First, Insert, EntryLine,
         WellFormed, Target, Found, WorksBeside, KeepsOut;
    var i := First(ls, 0, Header(PLUGINS));
    var k := Target(t, ls, i);
    InsertedLine(t, t.indent + 2);
    InsertOutcome(t, ls, i, k);
    InsertedPlugin(t, ls, i, k);
    InsertKeepsOut(t, ls, u);
    HarmlessMeans(t, ls, u, i);
    KeysDiffer();
    var x := EntryLine(t, t.indent + 2);
    HeaderUncommented(ls[i], PLUGINS);
    var active := ls[i := Uncomment(ls[i])];
    UpdateKeepsUnix(t, ls, u, i, Uncomment(ls[i]));
    v := u;
    if t.unix.Some? {
      KeepsOutMeans(t, u, k);
      if k <= u {
        InsertBeforeUnix(t, active, u, k, x);
        v := u + 1;
      } else {
        InsertBehindUnix(t, active, u, k, x);
      }
    }
  }

  // ----- One round: patch, write, read back -----

  /** The lines the next pass reads, when no line ends in CR. */
  function Round(t: Template, ls: seq<string>): (r: seq<string>)
    ensures Closed(r)
  {
    hide PatchLines;
    Close(PatchLines(t, ls).lines)
  }

  function Rounds(t: Template, ls: seq<string>, n: nat): seq<string> {
    if n == 0 then ls else Round(t, Rounds(t, ls, n - 1))
  }

  lemma CloseKeepsPlugin(t: Template, m: seq<string>, i: nat, k: nat)
    requires |m| >= 1 && PluginAt(t, m, i, k)
    ensures PluginAt(t, Close(m), i, k)
  {
    hide Normalize, Lead, Has, IsCommented;
    FirstIs(Close(m), 0, Header(PLUGINS), i);
    FirstIs(Close(m), i + 1, Stops(t.indent), k);
  }

  lemma CloseIs(m: seq<string>)
    requires |m| >= 1
    ensures m <= Close(m) && |Close(m)| <= |m| + 1 && (|Close(m)| > |m| ==> Close(m)[|m|] == "")
    ensures m[|m| - 1] != "" ==> |Close(m)| == |m| + 1
    ensures |m| >= 2 && m[|m| - 1] == "" ==> Close(m) == m
  {
  }

  lemma CloseKeepsUnix(t: Template, m: seq<string>, u: nat)
    requires WellFormed(t) && |m| >= 1 && UnixAt(t, m, u) && !UnixTrails(t, m, u)
    ensures UnixAt(t, Close(m), u)
  {
    hide Lead, Has, Normalize, First, WellFormed, Close;
    CloseIs(m);
    if t.unix.Some? {
      var block, r := t.unix.value, Close(m);
      var e := u + |block|;
      BlankIsNoHeader();
      assert m[u] == m[u..e][0] && m[e - 1] == m[u..e][|block| - 1];
      assert r[u..e] == m[u..e];
      FirstIs(r, 0, Header(UNIX), u);
    }
  }

  /** Stage one on a file that a pass has written: the final newline of a trailing unix block
      is taken for part of the block and cut; anywhere else the block is found in place.  */
  lemma EnsureUnixAgain(t: Template, m: seq<string>, u: nat)
    requires WellFormed(t) && |m| >= 1 && UnixAt(t, m, u)
    ensures EnsureUnix(t, Close(m)) == if UnixTrails(t, m, u) then Outcome(m, true) else Outcome(Close(m), false)
  {
    hide Normalize, Lead, Has;
    if t.unix.Some? {
      var block, r := t.unix.value, Close(m);
      var e := u + |block|;
      if UnixTrails(t, m, u) {
        assert m[e - 1] == m[u..e][|block| - 1];
        assert r == m + [""] + [] && m + [] == m;
        TrailingUnixCut(t, m, [], u);
      } else {
        CloseKeepsUnix(t, m, u);
        BlockStaysTogether(t, r, u);
      }
    }
  }

  /** Stage two where an active header already has its plugin line. */
  lemma EnsurePluginAgain(t: Template, ls: seq<string>, i: nat, k: nat)
    requires PluginAt(t, ls, i, k)
    ensures EnsurePlugin(t, ls) == Outcome(ls[k := Uncomment(ls[k])], IsCommented(ls[k]))
  {
    hide First, Found, Lead, Normalize, Has;
    assert ls[i := Uncomment(ls[i])] == ls;
  }

  lemma CloseOfUpdate(m: seq<string>, k: nat, x: string)
    requires k < |m| && m[k] != "" && x != ""
    ensures Close(m[k := x]) == Close(m)[k := x]
    ensures Close(Close(m)[k := x]) == Close(m)[k := x]
  {
  }

  /** On a file that a pass has written, the next pass removes one comment mark from the plugin
      line and does nothing else to the bytes; what it reports is another matter.  */
  lemma NextRound(t: Template, m: seq<string>, i: nat, k: nat, u: nat)
    requires WellFormed(t) && Settled(t, m, i, k, u)
    ensures var o := PatchLines(t, Close(m));
            && Settled(t, o.lines, i, k, u) && k < |o.lines|
            && o.lines[k] == Uncomment(m[k])
            && Close(o.lines) == Close(m)[k := Uncomment(m[k])]
            && o.changed == (UnixTrails(t, m, u) || IsCommented(m[k]))
            && UnixTrails(t, o.lines, u) == UnixTrails(t, m, u)
  {
    hide Normalize, Lead, Has, IsCommented, Uncomment, EnsurePlugin, EnsureUnix, First, InBlock, WellFormed, WorksBeside;
    EnsureUnixAgain(t, m, u);
    MentionUncommented(m[k]);
    CloseOfUpdate(m, k, Uncomment(m[k]));
    BlankIsNoHeader();
    var q := EnsureUnix(t, Close(m)).lines;
    if !UnixTrails(t, m, u) {
      CloseKeepsUnix(t, m, u);
      CloseKeepsPlugin(t, m, i, k);
    }
    assert Settled(t, q, i, k, u);
    assert q[k] == m[k];
    EnsurePluginAgain(t, q, i, k);
    SettledWorksBeside(t, q, i, k, u);
    EnsurePluginUncomments(t, q, u);
  }

  // ----- The first round -----

  /** The file as stage one leaves it has a `plugins:` header, commented or not. */
  predicate HasPlugins(t: Template, ls: seq<string>) {
    var m := EnsureUnix(t, ls).lines;
    First(m, 0, Header(PLUGINS)) < |m|
  }

  /** Comment marks on the plugin line k that stage two is to work on, if it stands beside the
      unix block at u; 0 if stage two inserts one.  */
  function MarksLeft(t: Template, m: seq<string>, u: nat, k: nat): nat {
    if Found(t, m, k) && Beside(t, u, k) then Marks(m[k]) else 0
  }

  /** The same for a file before the first pass. */
  function Depth(t: Template, ls: seq<string>): nat
    requires HasPlugins(t, ls)
  {
    var m := EnsureUnix(t, ls).lines;
    MarksLeft(t, m, First(m, 0, Header(UNIX)), Target(t, m, First(m, 0, Header(PLUGINS))))
  }

  /** The template's unix block ends in text and the file's unix block runs to the end of the
      file, or is missing and so will be appended there.  */
  predicate EndsWithUnix(t: Template, ls: seq<string>) {
    && t.unix.Some? && |t.unix.value| >= 1 && t.unix.value[|t.unix.value| - 1] != ""
    && var i := First(ls, 0, Header(UNIX));
       i == |ls| || BlockEnd(ls, i) == |ls|
  }

  /** Stage two puts its entry right behind the unix block. */
  predicate EntryBehind(t: Template, ls: seq<string>) {
    var m := EnsureUnix(t, ls).lines;
    var i := First(m, 0, Header(PLUGINS));
    t.unix.Some? && i < |m| &&
    var k := Target(t, m, i);
    !Found(t, m, k) && k == First(m, 0, Header(UNIX)) + |t.unix.value|
  }

  /** The unix block, and no entry behind it, ends a file that has a plugins header. */
  predicate Trails(t: Template, ls: seq<string>) {
    EndsWithUnix(t, ls) && !EntryBehind(t, ls)
  }

  lemma StageOneTrails(t: Template, ls: seq<string>, u: nat)
    requires WellFormed(t) && UnixAt(t, EnsureUnix(t, ls).lines, u)
    requires Shallow(t, ls)
    ensures UnixTrails(t, EnsureUnix(t, ls).lines, u) == EndsWithUnix(t, ls)
  {
    hide Normalize, Lead, Has, First;
    if t.unix.Some? {
      var block, out := t.unix.value, EnsureUnix(t, ls).lines;
      var i := First(ls, 0, Header(UNIX));
      if i == |ls| {
        AppendedIsFirst(ls, block);
      } else {
        assert out == ls[..i] + block + ls[BlockEnd(ls, i)..];
        ReplacedIsFirst(ls, i, BlockEnd(ls, i), block);
      }
    }
  }

  lemma BehindMeans(t: Template, ls: seq<string>)
    requires HasPlugins(t, ls)
    ensures var m := EnsureUnix(t, ls).lines;
            var k := Target(t, m, First(m, 0, Header(PLUGINS)));
            EntryBehind(t, ls) <==> t.unix.Some? && !Found(t, m, k) && k == First(m, 0, Header(UNIX)) + |t.unix.value|
  {
    hide EnsureUnix, First, Target, Found;
  }

  lemma DepthMeans(t: Template, ls: seq<string>, u: nat)
    requires HasPlugins(t, ls) && WorksBeside(t, EnsureUnix(t, ls).lines) && UnixAt(t, EnsureUnix(t, ls).lines, u)
    ensures var m := EnsureUnix(t, ls).lines;
            var k := Target(t, m, First(m, 0, Header(PLUGINS)));
            Depth(t, ls) == if Found(t, m, k) then Marks(m[k]) else 0
  {
    hide EnsureUnix, First, Target, IsCommented, WorksBeside, Lead;
    var m := EnsureUnix(t, ls).lines;
    OwnUnix(t, m, u);
    if Found(t, m, Target(t, m, First(m, 0, Header(PLUGINS)))) {
      FoundBeside(t, m, u);
    }
  }

  /** The first pass over a file with a `plugins:` header. */
  lemma FirstRound(t: Template, ls: seq<string>) returns (i: nat, k: nat, u: nat)
    requires WellFormed(t) && Disjoint(t, ls) && Shallow(t, ls) && |ls| >= 1
    requires HasPlugins(t, ls)
    ensures var m := PatchLines(t, ls).lines;
            && Settled(t, m, i, k, u) && k < |m|
            && Marks(m[k]) == (if Depth(t, ls) > 0 then Depth(t, ls) - 1 else 0)
            && UnixTrails(t, m, u) == Trails(t, ls)
  {
    hide Normalize, Lead, Has, IsCommented, Uncomment, EnsurePlugin, EnsureUnix, First, InBlock, WellFormed, WorksBeside,
         EndsWithUnix, EntryBehind, UnixTrails, UnixAt, EntryLine, Shallow, Target, Depth;
    var m := EnsureUnix(t, ls).lines;
    u := EnsureUnixPlaces(t, ls);
    DepthMeans(t, ls, u);
    StageOneTrails(t, ls, u);
    OwnUnix(t, m, u);
    BehindMeans(t, ls);
    i := First(m, 0, Header(PLUGINS));
    k := Target(t, m, i);
    if Found(t, m, k) {
      EnsurePluginUncomments(t, m, u);
    } else {
      u := EnsurePluginInserts(t, m, u);
      InsertedLine(t, t.indent + 2);
    }
  }

  /** Where the file stands after n passes: settled, with n marks fewer on the plugin line. */
  lemma {:induction false} AfterRounds(t: Template, ls: seq<string>, n: nat)
    returns (m: seq<string>, i: nat, k: nat, u: nat)
    requires WellFormed(t) && Disjoint(t, ls) && Shallow(t, ls) && |ls| >= 1
    requires HasPlugins(t, ls) && n >= 1
    ensures Settled(t, m, i, k, u) && k < |m| && Rounds(t, ls, n) == Close(m)
    ensures Marks(m[k]) == (if Depth(t, ls) > n then Depth(t, ls) - n else 0)
    ensures UnixTrails(t, m, u) == Trails(t, ls)
  {
    hide Settled, Trails, UnixTrails, Depth, HasPlugins, PatchLines, WellFormed, Disjoint, Shallow, Uncomment,
         IsCommented, Close;
    if n == 1 {
      i, k, u := FirstRound(t, ls);
      m := PatchLines(t, ls).lines;
      assert Rounds(t, ls, 0) == ls;
    } else {
      m, i, k, u := AfterRounds(t, ls, n - 1);
      NextRound(t, m, i, k, u);
      m := PatchLines(t, Close(m)).lines;
    }
  }

  /** Files with a `plugins:` header: exactly from pass number Depth on does a further pass
      leave the bytes alone; and from then on it also reports no change, unless the file
      ends with the unix block, in which case every pass reports one.  */
  lemma FixpointWithPlugins(t: Template, ls: seq<string>, n: nat)
    requires WellFormed(t) && Disjoint(t, ls) && Shallow(t, ls) && |ls| >= 1
    requires HasPlugins(t, ls) && n >= 1
    ensures Rounds(t, ls, n + 1) == Rounds(t, ls, n) <==> n >= Depth(t, ls)
    ensures PatchLines(t, Rounds(t, ls, n)).changed <==> n < Depth(t, ls) || Trails(t, ls)
  {
    var m, i, k, u := AfterRounds(t, ls, n);
    NextRound(t, m, i, k, u);
    hide Trails, UnixTrails, UnixAt, Beside, Depth, HasPlugins, PatchLines, WellFormed, Disjoint, Shallow;
    assert Rounds(t, ls, n + 1) == Close(m)[k := Uncomment(m[k])];
    assert Close(m)[k] == m[k];
  }

  // ----- Files without a plugins header -----

  /** The section that stage two appends, with the final newline. */
  function Section(t: Template): (r: seq<string>)
    ensures |r| == 3
  {
    [PLUGINS, EntryLine(t, 2), ""]
  }

  lemma SectionHeader(t: Template, q: seq<string>)
    requires WellFormed(t) && First(q, 0, Header(PLUGINS)) == |q|
    ensures First(q + Section(t), 0, Header(PLUGINS)) == |q|
    ensures Target(t, q + Section(t), |q|) == |q| + 1
    ensures t.indent <= 1 <==> Found(t, q + Section(t), |q| + 1)
    ensures t.indent <= 1 ==> PluginAt(t, q + Section(t), |q|, |q| + 1)
    ensures !IsCommented((q + Section(t))[|q|]) && !IsCommented((q + Section(t))[|q| + 1])
  {
    KeyIsTrimmed(PLUGINS);
    InsertedLine(t, 2);
    hide Normalize, Lead, Has, EntryLine, WellFormed;
    var ls := q + Section(t);
    FirstIs(ls, 0, Header(PLUGINS), |q|);
    FirstIs(ls, |q| + 1, Stops(t.indent), |q| + 1);
  }

  /** Lines that start at the margin, put behind the unix block, leave it as it is. */
  lemma TailKeepsUnix(t: Template, q: seq<string>, tail: seq<string>, u: nat)
    requires WellFormed(t) && UnixAt(t, q, u)
    requires |tail| >= 1 && tail[0] != "" && Lead(tail[0]) == 0
    ensures UnixAt(t, q + tail, u) && !UnixTrails(t, q + tail, u)
  {
    hide Normalize, Lead, Has, WellFormed;
    if t.unix.Some? {
      var block, ls := t.unix.value, q + tail;
      var e := u + |block|;
      assert ls[|q|] == tail[0];
      assert ls[u..e] == q[u..e];
      assert q[u] == q[u..e][0] == ls[u];
      FirstIs(ls, 0, Header(UNIX), u);
    }
  }

  lemma SectionStartsAtMargin(t: Template)
    ensures Section(t)[0] != "" && Lead(Section(t)[0]) == 0
  {
    KeyIsTrimmed(PLUGINS);
  }

  lemma EnsureUnixStable(t: Template, ls: seq<string>, u: nat)
    requires WellFormed(t) && UnixAt(t, ls, u)
    ensures EnsureUnix(t, ls) == Outcome(ls, false)
  {
    hide Normalize, Lead, Has;
    if t.unix.Some? {
      BlockStaysTogether(t, ls, u);
      assert ls[u] == ls[u..u + |t.unix.value|][0];
    }
  }

  /** What is in front of the section when the second pass has passed stage one: the blank line
      that separated it from a trailing unix block is gone, any other is kept.  */
  function BeforeSection(t: Template, ls: seq<string>): seq<string> {
    var m := EnsureUnix(t, ls).lines;
    if EndsWithUnix(t, ls) then m else Separated(m)
  }

  lemma SeparatedKeepsUnix(t: Template, m: seq<string>, u: nat)
    requires WellFormed(t) && UnixAt(t, m, u) && !UnixTrails(t, m, u)
    ensures UnixAt(t, Separated(m), u)
  {
    hide Normalize, Lead, Has;
    if t.unix.Some? {
      var block, q := t.unix.value, Separated(m);
      var e := u + |block|;
      assert m[u] == m[u..e][0] && m[e - 1] == m[u..e][|block| - 1];
      assert q[u..e] == m[u..e];
      FirstIs(q, 0, Header(UNIX), u);
    }
  }

  lemma FirstRoundAppends(t: Template, ls: seq<string>)
    requires !HasPlugins(t, ls)
    ensures Round(t, ls) == Separated(EnsureUnix(t, ls).lines) + Section(t)
    ensures PatchLines(t, ls).changed
  {
    hide EnsureUnix, First;
  }

  /** Stage one of the second pass. */
  lemma SecondRoundUnix(t: Template, ls: seq<string>) returns (u: nat)
    requires WellFormed(t) && Shallow(t, ls) && |ls| >= 1
    ensures var m := EnsureUnix(t, ls).lines;
            && EnsureUnix(t, Separated(m) + Section(t)) == Outcome(BeforeSection(t, ls) + Section(t), EndsWithUnix(t, ls))
            && UnixAt(t, BeforeSection(t, ls) + Section(t), u)
            && !UnixTrails(t, BeforeSection(t, ls) + Section(t), u)
            && (EndsWithUnix(t, ls) ==> Separated(m) == m + [""])
  {
    u := EnsureUnixPlaces(t, ls);
    StageOneTrails(t, ls, u);
    var m, q := EnsureUnix(t, ls).lines, BeforeSection(t, ls);
    SectionStartsAtMargin(t);
    hide EndsWithUnix, WellFormed, Shallow, Section, EnsureUnix, Lead, UnixAt, UnixTrails;
    if UnixTrails(t, m, u) {
      TailKeepsUnix(t, q, Section(t), u);
      TrailingUnixCut(t, m, Section(t), u);
    } else {
      SeparatedKeepsUnix(t, m, u);
      TailKeepsUnix(t, q, Section(t), u);
      EnsureUnixStable(t, q + Section(t), u);
    }
  }

  /** A blank line between a trailing unix block and what follows is taken for part of the block. */
  lemma TrailingBlock(t: Template, m: seq<string>, tail: seq<string>, u: nat)
    requires WellFormed(t) && UnixAt(t, m, u) && UnixTrails(t, m, u)
    requires |tail| >= 1 ==> tail[0] != "" && Lead(tail[0]) == 0
    ensures var ls := m + [""] + tail;
            First(ls, 0, Header(UNIX)) == u && BlockEnd(ls, u) == |m| + 1
            && ls[u..|m| + 1] == t.unix.value + [""]
  {
    hide Normalize, Lead, Has, WellFormed;
    var block, e, ls := t.unix.value, |m|, m + [""] + tail;
    assert m[u] == m[u..e][0];
    assert ls[e] == "" && |tail| >= 1 ==> ls[e + 1] == tail[0];
    FirstIs(ls, 0, Header(UNIX), u);
    BlockInFront(t, ls, m, u);
    FirstIs(ls, u + 1, Leaves(Lead(block[0])), e + 1);
    assert ls[u..e] == m[u..e];
  }

  lemma TrailingUnixCut(t: Template, m: seq<string>, tail: seq<string>, u: nat)
    requires WellFormed(t) && UnixAt(t, m, u) && UnixTrails(t, m, u)
    requires |tail| >= 1 ==> tail[0] != "" && Lead(tail[0]) == 0
    ensures Separated(m) == m + [""]
    ensures EnsureUnix(t, m + [""] + tail) == Outcome(m + tail, true)
  {
    hide Normalize, Lead, Has, WellFormed, First, BlockEnd;
    var block, ls := t.unix.value, m + [""] + tail;
    TrailingBlock(t, m, tail, u);
    assert m[|m| - 1] == m[u..|m|][|block| - 1];
    assert ls[|m| + 1..] == tail && ls[..u] + block == m;
    assert |ls[u..|m| + 1]| == |block| + 1;
  }

  lemma BlockInFront(t: Template, ls: seq<string>, m: seq<string>, u: nat)
    requires WellFormed(t) && UnixAt(t, m, u) && UnixTrails(t, m, u) && m <= ls
    ensures forall j | u < j < |m| :: InBlock(ls[j], Lead(t.unix.value[0]))
    ensures ls[u] == t.unix.value[0]
  {
    hide Normalize, Lead, Has, InBlock;
    assert forall j | u <= j < |m| :: ls[j] == m[j] == m[u..|m|][j - u];
  }

  lemma NoPluginsBeforeSection(t: Template, ls: seq<string>)
    requires !HasPlugins(t, ls)
    ensures First(BeforeSection(t, ls), 0, Header(PLUGINS)) == |BeforeSection(t, ls)|
  {
    BlankIsNoHeader();
    hide EnsureUnix, EndsWithUnix, Normalize;
    FirstIs(BeforeSection(t, ls), 0, Header(PLUGINS), |BeforeSection(t, ls)|);
  }

  /** Stage two on a file that ends with the appended section: with a template header at the
      margin the entry is found, otherwise a second one is inserted above it.  */
  function SettledSection(t: Template, q: seq<string>): (r: seq<string>)
    ensures Closed(r)
  {
    if t.indent <= 1 then q + Section(t) else Insert(q + Section(t), |q| + 1, EntryLine(t, t.indent + 2))
  }

  /** The unix block does not reach into the appended section, which starts at the margin. */
  lemma UnixInFrontOfSection(t: Template, q: seq<string>, u: nat)
    requires WellFormed(t) && UnixAt(t, q + Section(t), u) && t.unix.Some?
    ensures u + |t.unix.value| <= |q|
  {
    hide Normalize, Lead, Has, First, UnixAt, UnixIn, WellFormed, Section;
    SectionIsNoUnix(t);
    var ls := q + Section(t);
    AtIsIn(t, ls, u);
    BlockLines(t, ls, u);
    assert forall j | |q| <= j < |q| + 3 :: ls[j] == Section(t)[j - |q|];
    assert u < |q| && !InBlock(ls[|q|], Lead(t.unix.value[0]));
  }

  lemma AtIsIn(t: Template, ls: seq<string>, u: nat)
    requires UnixAt(t, ls, u)
    ensures UnixIn(t, ls, u)
  {
    hide First, Lead;
  }

  lemma BlockLines(t: Template, ls: seq<string>, u: nat)
    requires WellFormed(t) && UnixIn(t, ls, u) && t.unix.Some?
    ensures |t.unix.value| >= 1 && u + |t.unix.value| <= |ls| && Normalize(ls[u]) == UNIX && ls[u] == t.unix.value[0]
    ensures forall j | u < j < u + |t.unix.value| :: InBlock(ls[j], Lead(t.unix.value[0]))
  {
    hide Normalize, Lead, Has, First, InBlock;
    var block := t.unix.value;
    assert forall j | u <= j < u + |block| :: ls[j] == ls[u..u + |block|][j - u];
  }

  lemma SectionIsNoUnix(t: Template)
    requires WellFormed(t)
    ensures var s := Section(t); s[0] != "" && Lead(s[0]) == 0 && forall j | 0 <= j < 3 :: Normalize(s[j]) != UNIX
  {
    hide Normalize, Lead, EntryLine, WellFormed;
    InsertedLine(t, 2);
    BlankIsNoHeader();
    KeyIsTrimmed(PLUGINS);
    KeysDiffer();
  }

  lemma SectionWorksBeside(t: Template, q: seq<string>, u: nat)
    requires WellFormed(t) && First(q, 0, Header(PLUGINS)) == |q| && UnixAt(t, q + Section(t), u)
    ensures WorksBeside(t, q + Section(t))
  {
    hide Normalize, Lead, Has, Section, First, Target, Found, UnixAt, WellFormed;
    SectionHeader(t, q);
    OwnUnix(t, q + Section(t), u);
    if t.unix.Some? {
      UnixInFrontOfSection(t, q, u);
    }
  }

  lemma EnsurePluginOnSection(t: Template, q: seq<string>, u: nat) returns (v: nat)
    requires WellFormed(t) && First(q, 0, Header(PLUGINS)) == |q|
    requires UnixAt(t, q + Section(t), u) && !UnixTrails(t, q + Section(t), u)
    ensures var m := SettledSection(t, q);
            && EnsurePlugin(t, q + Section(t)) == Outcome(m, t.indent > 1)
            && Settled(t, m, |q|, |q| + 1, v) && |q| + 1 < |m| && Marks(m[|q| + 1]) == 0 && !UnixTrails(t, m, v)
  {
    hide UnixAt, UnixTrails, PluginAt, WellFormed, WorksBeside, First, Target, Found, EntryLine, EnsurePlugin, Section,
         Normalize, Lead, Has, IsCommented, Uncomment, Insert;
    var x, i, k := q + Section(t), |q|, |q| + 1;
    SectionHeader(t, q);
    SectionWorksBeside(t, q, u);
    assert x[i := Uncomment(x[i])] == x && x[k := Uncomment(x[k])] == x;
    InsertedLine(t, t.indent + 2);
    if t.indent <= 1 {
      v := u;
      EnsurePluginAgain(t, x, i, k);
      EnsurePluginUncomments(t, x, u);
    } else {
      v := EnsurePluginInserts(t, x, u);
    }
  }

  /** The second pass over a file that had no `plugins:` header. */
  lemma SecondRound(t: Template, ls: seq<string>) returns (m: seq<string>, i: nat, k: nat, u: nat)
    requires WellFormed(t) && Shallow(t, ls) && |ls| >= 1
    requires !HasPlugins(t, ls)
    ensures PatchLines(t, Round(t, ls)) == Outcome(m, EndsWithUnix(t, ls) || t.indent > 1)
    ensures m == SettledSection(t, BeforeSection(t, ls))
    ensures Settled(t, m, i, k, u) && k < |m| && Marks(m[k]) == 0 && !UnixTrails(t, m, u) && Closed(m)
    ensures m == Round(t, ls) <==> t.indent <= 1 && !EndsWithUnix(t, ls)
  {
    hide BeforeSection, EndsWithUnix, EnsureUnix, UnixAt, UnixTrails, WellFormed, Shallow, HasPlugins,
         EnsurePlugin, PluginAt, Settled, Marks, SettledSection, Section;
    var q := BeforeSection(t, ls);
    FirstRoundAppends(t, ls);
    u := SecondRoundUnix(t, ls);
    NoPluginsBeforeSection(t, ls);
    u := EnsurePluginOnSection(t, q, u);
    m, i, k := SettledSection(t, q), |q|, |q| + 1;
    SecondRoundDiffers(t, ls);
  }

  lemma SecondRoundDiffers(t: Template, ls: seq<string>)
    requires EndsWithUnix(t, ls) ==> Separated(EnsureUnix(t, ls).lines) == EnsureUnix(t, ls).lines + [""]
    ensures SettledSection(t, BeforeSection(t, ls)) == Separated(EnsureUnix(t, ls).lines) + Section(t)
            <==> t.indent <= 1 && !EndsWithUnix(t, ls)
  {
    hide EnsureUnix, EndsWithUnix, EntryLine, Separated;
    var m, x := EnsureUnix(t, ls).lines, EntryLine(t, t.indent + 2);
    var a, q := Separated(m) + Section(t), BeforeSection(t, ls);
    if EndsWithUnix(t, ls) {
      assert a[|m|] == "" && (q + Section(t))[|m|] == PLUGINS && Insert(q + Section(t), |q| + 1, x)[|m|] == PLUGINS;
    }
  }

  /** A settled, closed file without a trailing unix block and without marks does not change. */
  lemma SettledOnce(t: Template, m: seq<string>, i: nat, k: nat, u: nat)
    requires WellFormed(t) && Closed(m)
    requires Settled(t, m, i, k, u) && k < |m| && Marks(m[k]) == 0 && !UnixTrails(t, m, u)
    ensures Round(t, m) == m && !PatchLines(t, m).changed
  {
    hide WellFormed, UnixTrails, PatchLines, Settled;
    NextRound(t, m, i, k, u);
    assert Uncomment(m[k]) == m[k];
    assert Close(m) == m;
  }

  lemma {:induction false} FixedForever(t: Template, m: seq<string>, n: nat)
    requires Round(t, m) == m
    ensures Rounds(t, m, n) == m
  {
    hide Round;
    if n > 0 {
      FixedForever(t, m, n - 1);
    }
  }

  lemma {:induction false} RoundsFromSecond(t: Template, ls: seq<string>, n: nat)
    requires |ls| >= 1
    ensures Rounds(t, ls, n + 2) == Rounds(t, Round(t, Round(t, ls)), n)
  {
    hide Round;
    if n > 0 {
      RoundsFromSecond(t, ls, n - 1);
    } else {
      assert Rounds(t, ls, 0) == ls;
      assert Rounds(t, ls, 1) == Round(t, ls);
    }
  }

  /** Files without a `plugins:` header: the second pass leaves the bytes of the first alone, and
      reports no change, exactly when the template's header is indented by at most one and the
      file does not end with the unix block; from the second pass on both always hold.  */
  lemma FixpointWithoutPlugins(t: Template, ls: seq<string>, n: nat)
    requires WellFormed(t) && Shallow(t, ls) && |ls| >= 1
    requires !HasPlugins(t, ls) && n >= 1
    ensures Rounds(t, ls, n + 1) == Rounds(t, ls, n) <==> n >= 2 || (t.indent <= 1 && !EndsWithUnix(t, ls))
    ensures PatchLines(t, Rounds(t, ls, n)).changed <==> !(n >= 2 || (t.indent <= 1 && !EndsWithUnix(t, ls)))
  {
    hide EndsWithUnix, UnixTrails, HasPlugins, PatchLines, WellFormed, Shallow, Settled, Marks, Hits;
    var m, i, k, u := SecondRound(t, ls);
    SettledOnce(t, m, i, k, u);
    assert Round(t, Round(t, ls)) == m;
    assert Rounds(t, ls, 0) == ls;
    assert Rounds(t, ls, 1) == Round(t, ls);
    hide Round, Closed;
    if n >= 2 {
      RoundsFromSecond(t, ls, n - 2);
      FixedForever(t, m, n - 2);
    }
  }
}
