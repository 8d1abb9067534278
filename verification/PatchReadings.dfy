/** From one pass to the next: what a pass writes, and what the next one reads. */
module PatchReadings {
  import opened Text
  import opened Comments
  import opened Blocks
  import opened PatchSpec
  import opened PatchConvergence
  import opened PatchFrame
  import opened PatchTails

  // ----- The template's block in the file -----

  /** One line is blank if the other is, and both are indented alike. */
  predicate Alike(x: string, l: string) {
    (x == "" <==> l == "") && Lead(x) == Lead(l)
  }

  lemma StageOneBlock(t: Template, ls: seq<string>) returns (u: nat)
    requires WellFormed(t)
    ensures var m := EnsureUnix(t, ls).lines;
            UnixIn(t, m, u)
            && (t.unix.Some? ==>
                  var i := First(ls, 0, Header(UNIX)); var e := u + |t.unix.value|;
                  if i == |ls| || BlockEnd(ls, i) == |ls| then e == |m|
                  else e < |m| && m[e] == ls[BlockEnd(ls, i)])
  {
    hide Normalize, Lead, Has, First, EnsureUnix, BlockEnd, Separated, InBlock;
    u := 0;
    if t.unix.Some? {
      var block, i := t.unix.value, First(ls, 0, Header(UNIX));
      if i == |ls| {
        u := |Separated(ls)|;
        AppendedUnixLines(t, ls);
        AppendedIsFirst(ls, block);
      } else {
        u := i;
        ReplacedLines(t, ls, i, BlockEnd(ls, i));
        ReplacedIsFirst(ls, i, BlockEnd(ls, i), block);
      }
    }
  }

  lemma AppendedUnixLines(t: Template, ls: seq<string>)
    requires t.unix.Some? && First(ls, 0, Header(UNIX)) == |ls|
    ensures EnsureUnix(t, ls).lines == Separated(ls) + t.unix.value
    ensures (Separated(ls) + t.unix.value)[|Separated(ls)|..] == t.unix.value
  {
    hide First, Separated;
  }

  lemma BlockIsInside(t: Template, m: seq<string>, u: nat)
    requires UnixIn(t, m, u) && t.unix.Some?
    ensures |t.unix.value| >= 1 && u + |t.unix.value| <= |m| && First(m, 0, Header(UNIX)) == u
  {
    hide First;
  }

  /** A template with disjoint sections keeps them so in every file. */
  lemma TemplateIsDisjoint(t: Template, ls: seq<string>)
    requires WellFormed(t) && DisjointTemplate(t)
    ensures Disjoint(t, ls)
  {
    hide EnsureUnix, WellFormed, DisjointTemplate, WorksBeside, UnixIn, First, BlockEnd;
    var u := StageOneBlock(t, ls);
    TemplateWorksBeside(t, EnsureUnix(t, ls).lines, u);
  }

  /** And stage two never puts its entry right behind the unix block. */
  lemma NoEntryBehind(t: Template, ls: seq<string>)
    requires WellFormed(t) && DisjointTemplate(t)
    ensures !EntryBehind(t, ls)
  {
    hide EnsureUnix, WellFormed, DisjointTemplate, UnixIn, First, BlockEnd, Found, Target, Normalize, Lead;
    var m := EnsureUnix(t, ls).lines;
    var u := StageOneBlock(t, ls);
    if t.unix.Some? {
      BlockIsInside(t, m, u);
      HeaderOutsideUnix(t, m, u);
      var i := First(m, 0, Header(PLUGINS));
      if i < u {
        ScanStopsBeforeUnix(t, m, i, u);
      }
    }
  }

  lemma UpdateKeepsBlock(t: Template, ls: seq<string>, u: nat, j: nat, x: string)
    requires UnixIn(t, ls, u) && j < |ls| && (Beside(t, u, j) || x == ls[j]) && Normalize(x) != UNIX
    ensures UnixIn(t, ls[j := x], u)
  {
    hide Normalize, First;
    if x == ls[j] {
      assert ls[j := x] == ls;
    } else if t.unix.Some? {
      var e := u + |t.unix.value|;
      assert ls[j := x][u..e] == ls[u..e];
      FirstIs(ls[j := x], 0, Header(UNIX), u);
    }
  }

  lemma InsertKeepsBlock(t: Template, ls: seq<string>, u: nat, k: nat, x: string)
    requires UnixIn(t, ls, u) && t.unix.Some? && k <= |ls| && Normalize(x) != UNIX
    requires k <= u || u + |t.unix.value| <= k
    ensures UnixIn(t, Insert(ls, k, x), if k <= u then u + 1 else u)
  {
    hide Normalize, First, Insert;
    var e, out := u + |t.unix.value|, Insert(ls, k, x);
    if k <= u {
      assert out[u + 1..e + 1] == ls[u..e];
      FirstIs(out, 0, Header(UNIX), u + 1);
    } else {
      assert out[u..e] == ls[u..e];
      FirstIs(out, 0, Header(UNIX), u);
    }
  }

  lemma PrefixKeepsBlock(t: Template, m: seq<string>, tail: seq<string>, u: nat)
    requires UnixIn(t, m, u)
    ensures UnixIn(t, m + tail, u)
  {
    hide Normalize, First;
    if t.unix.Some? {
      var e := u + |t.unix.value|;
      assert (m + tail)[u..e] == m[u..e];
      FirstIs(m + tail, 0, Header(UNIX), u);
    }
  }

  lemma UncommentIsAlike(l: string)
    requires Normalize(l) == PLUGINS || Has(l)
    ensures Alike(Uncomment(l), l) && Normalize(Uncomment(l)) != UNIX
  {
    hide Normalize, Has, Lead, Uncomment;
    KeysDiffer();
    if Has(l) {
      MentionUncommented(l);
      BlankIsNoHeader();
    } else {
      HeaderUncommented(l, PLUGINS);
    }
  }

  lemma FoundBlock(t: Template, m: seq<string>, u: nat, i: nat, k: nat)
    requires UnixIn(t, m, u) && t.unix.Some? && WorksBeside(t, m)
    requires First(m, 0, Header(PLUGINS)) == i < |m| && Target(t, m, i) == k && Found(t, m, k)
    ensures var out := EnsurePlugin(t, m).lines;
            UnixIn(t, out, u) && |out| == |m| && forall j | 0 <= j < |m| :: Alike(out[j], m[j])
  {
    hide Normalize, Lead, Has, First, EnsurePlugin, Target, IsCommented, Uncomment, UnixIn, Alike;
    FoundOutcome(t, m, i, k);
    FoundSides(t, m, u, i, k);
    HarmlessMeans(t, m, u, i);
    HarmlessMeans(t, m, u, k);
    UncommentIsAlike(m[i]);
    UncommentIsAlike(m[k]);
    UpdateKeepsBlock(t, m, u, i, Uncomment(m[i]));
    UpdateKeepsBlock(t, m[i := Uncomment(m[i])], u, k, Uncomment(m[k]));
    forall j | 0 <= j < |m| && j != i && j != k
      ensures Alike(m[j], m[j])
    {
      AlikeItself(m[j]);
    }
  }

  lemma AlikeItself(l: string)
    ensures Alike(l, l)
  {
  }

  lemma FoundSides(t: Template, m: seq<string>, u: nat, i: nat, k: nat)
    requires UnixIn(t, m, u) && t.unix.Some? && WorksBeside(t, m)
    requires First(m, 0, Header(PLUGINS)) == i < |m| && Target(t, m, i) == k && Found(t, m, k)
    ensures k < |m| && Harmless(t, m, u, i) && Harmless(t, m, u, k)
  {
    hide First, Target, IsCommented;
  }

  lemma InsertSides(t: Template, m: seq<string>, u: nat, i: nat, k: nat)
    requires UnixIn(t, m, u) && t.unix.Some? && WorksBeside(t, m)
    requires First(m, 0, Header(PLUGINS)) == i < |m| && Target(t, m, i) == k && !Found(t, m, k)
    ensures |t.unix.value| >= 1 && Harmless(t, m, u, i) && KeepsOut(t, u, k)
  {
    hide First, Target, Found, IsCommented, KeepsOut;
  }

  lemma StopsAtLeaver(t: Template, m: seq<string>, i: nat, k: nat)
    requires i < |m| && Target(t, m, i) == k < |m| && !Found(t, m, k)
    ensures m[k] != "" && Lead(m[k]) <= t.indent
  {
    hide Lead, Has, Normalize;
  }

  lemma InsertBlock(t: Template, m: seq<string>, u: nat, i: nat, k: nat)
    requires WellFormed(t) && UnixIn(t, m, u) && t.unix.Some? && WorksBeside(t, m)
    requires First(m, 0, Header(PLUGINS)) == i < |m| && Target(t, m, i) == k && !Found(t, m, k)
    ensures var out, v := EnsurePlugin(t, m).lines, if k <= u then u + 1 else u;
            var e := u + |t.unix.value|;
            |t.unix.value| >= 1 && UnixIn(t, out, v) && |out| == |m| + 1
            && (e < |m| && Lead(m[e]) > Lead(t.unix.value[0]) ==> Alike(out[v + |t.unix.value|], m[e]))
  {
    hide Normalize, Lead, Has, First, EnsurePlugin, Target, IsCommented, Uncomment, UnixIn, Alike, WellFormed, EntryLine,
         Insert, Found, KeepsOut, WorksBeside;
    InsertOutcome(t, m, i, k);
    InsertSides(t, m, u, i, k);
    KeepsOutMeans(t, u, k);
    HarmlessMeans(t, m, u, i);
    UncommentIsAlike(m[i]);
    InsertedLine(t, t.indent + 2);
    var active := m[i := Uncomment(m[i])];
    UpdateKeepsBlock(t, m, u, i, Uncomment(m[i]));
    InsertKeepsBlock(t, active, u, k, EntryLine(t, t.indent + 2));
    var e := u + |t.unix.value|;
    if e < |m| && Lead(m[e]) > Lead(t.unix.value[0]) {
      if k == e {
        StopsAtLeaver(t, m, i, k);
      }
      AlikeItself(m[e]);
      assert Insert(active, k, EntryLine(t, t.indent + 2))[if k <= u then e + 1 else e] == active[e];
    }
  }

  /** Where stage two works beside the block, the block and a deep line behind it stay together. */
  lemma StageTwoBlock(t: Template, m: seq<string>, u: nat) returns (v: nat)
    requires WellFormed(t) && UnixIn(t, m, u) && t.unix.Some? && WorksBeside(t, m)
    ensures var out := EnsurePlugin(t, m).lines; var n := |t.unix.value|;
            n >= 1 && UnixIn(t, out, v)
            && (u + n < |m| && Lead(m[u + n]) > Lead(t.unix.value[0]) ==> v + n < |out| && Alike(out[v + n], m[u + n]))
  {
    hide Normalize, Lead, Has, First, EnsurePlugin, Target, Found, UnixIn, Alike, WellFormed, WorksBeside, PluginPart;
    BlockIsInside(t, m, u);
    var i := First(m, 0, Header(PLUGINS));
    v := u;
    if i == |m| {
      AppendOutcome(t, m);
      PrefixKeepsBlock(t, m, PluginPart(t, m), u);
      if u + |t.unix.value| < |m| {
        AlikeItself(m[u + |t.unix.value|]);
      }
    } else {
      var k := Target(t, m, i);
      if Found(t, m, k) {
        FoundBlock(t, m, u, i, k);
      } else {
        InsertBlock(t, m, u, i, k);
        v := if k <= u then u + 1 else u;
      }
    }
  }

  // ----- Every written file is shallow -----

  /** The first unix header is indented like the template's. */
  predicate Headed(t: Template, ls: seq<string>) {
    t.unix.Some? ==>
      var i := First(ls, 0, Header(UNIX));
      |t.unix.value| >= 1 && i < |ls| && Lead(ls[i]) == Lead(t.unix.value[0])
  }

  lemma BlockIsHeaded(t: Template, m: seq<string>, u: nat)
    requires UnixIn(t, m, u)
    ensures Headed(t, m)
  {
    hide Lead, Normalize, First;
    if t.unix.Some? {
      assert m[u] == m[u..u + |t.unix.value|][0];
    }
  }

  /** Lines that were no unix headers and do not become ones move the first one at most. */
  lemma StillHeaded(t: Template, m: seq<string>, out: seq<string>, v: nat)
    requires Headed(t, m) && (t.unix.Some? ==> v < |out|)
    requires t.unix.Some? ==> out[v] == m[First(m, 0, Header(UNIX))] && forall j | 0 <= j < v :: Normalize(out[j]) != UNIX
    ensures Headed(t, out)
  {
    hide Lead, Normalize, First;
    if t.unix.Some? {
      FirstIs(out, 0, Header(UNIX), v);
    }
  }

  lemma FoundStaysHeaded(t: Template, m: seq<string>, i: nat, k: nat)
    requires Headed(t, m) && First(m, 0, Header(PLUGINS)) == i < |m| && Target(t, m, i) == k && Found(t, m, k)
    ensures Headed(t, EnsurePlugin(t, m).lines)
  {
    hide Normalize, Lead, Has, First, EnsurePlugin, Target, IsCommented, Uncomment, Headed, Alike;
    FoundOutcome(t, m, i, k);
    UncommentIsAlike(m[i]);
    UncommentIsAlike(m[k]);
    KeysDiffer();
    MentionIsNoHeader(m[k]);
    HeadedMeans(t, m);
    StillHeaded(t, m, EnsurePlugin(t, m).lines, First(m, 0, Header(UNIX)));
  }

  lemma HeadedMeans(t: Template, m: seq<string>)
    requires Headed(t, m)
    ensures t.unix.Some? ==> var v := First(m, 0, Header(UNIX)); v < |m| && Normalize(m[v]) == UNIX
  {
    hide Lead, Normalize, First;
  }

  lemma InsertStaysHeaded(t: Template, m: seq<string>, i: nat, k: nat)
    requires WellFormed(t) && Headed(t, m)
    requires First(m, 0, Header(PLUGINS)) == i < |m| && Target(t, m, i) == k && !Found(t, m, k)
    ensures Headed(t, EnsurePlugin(t, m).lines)
  {
    hide Normalize, Lead, Has, First, EnsurePlugin, Target, Found, IsCommented, Uncomment, Headed, WellFormed, EntryLine,
         Insert, Alike;
    InsertOutcome(t, m, i, k);
    UncommentIsAlike(m[i]);
    InsertedLine(t, t.indent + 2);
    KeysDiffer();
    HeadedMeans(t, m);
    var v := First(m, 0, Header(UNIX));
    StillHeaded(t, m, EnsurePlugin(t, m).lines, if k <= v then v + 1 else v);
  }

  lemma PrefixStaysHeaded(t: Template, m: seq<string>, tail: seq<string>)
    requires Headed(t, m)
    ensures Headed(t, m + tail)
  {
    hide Normalize, Lead, First, Headed;
    HeadedMeans(t, m);
    StillHeaded(t, m, m + tail, First(m, 0, Header(UNIX)));
  }

  lemma StageTwoStaysHeaded(t: Template, m: seq<string>)
    requires WellFormed(t) && Headed(t, m)
    ensures Headed(t, EnsurePlugin(t, m).lines)
  {
    hide Normalize, Lead, Has, First, EnsurePlugin, Target, Found, Headed, WellFormed, PluginPart;
    var i := First(m, 0, Header(PLUGINS));
    if i == |m| {
      AppendOutcome(t, m);
      PrefixStaysHeaded(t, m, PluginPart(t, m));
    } else if Found(t, m, Target(t, m, i)) {
      FoundStaysHeaded(t, m, i, Target(t, m, i));
    } else {
      InsertStaysHeaded(t, m, i, Target(t, m, i));
    }
  }

  lemma FoldStaysHeaded(t: Template, x: seq<string>)
    requires Headed(t, x)
    ensures Headed(t, FoldLines(x))
  {
    hide Normalize, Lead, First, DropCR, IsCommented, FoldLines;
    if t.unix.Some? {
      var v := First(x, 0, Header(UNIX));
      forall j | 0 <= j <= v
        ensures Normalize(FoldLines(x)[j]) == Normalize(x[j]) && Lead(FoldLines(x)[j]) == Lead(x[j])
      {
        DropCRKeepsKey(x[j]);
      }
      FirstIs(FoldLines(x), 0, Header(UNIX), v);
    }
  }

  lemma HeadedIsShallow(t: Template, ls: seq<string>)
    requires Headed(t, ls)
    ensures Shallow(t, ls)
  {
    hide Normalize, Lead, Has;
  }

  lemma PassIsHeaded(t: Template, ls: seq<string>)
    requires WellFormed(t)
    ensures Headed(t, PatchLines(t, ls).lines)
  {
    hide WellFormed, EnsureUnix, EnsurePlugin, Headed, UnixIn, First, BlockEnd;
    var u := StageOneBlock(t, ls);
    BlockIsHeaded(t, EnsureUnix(t, ls).lines, u);
    StageTwoStaysHeaded(t, EnsureUnix(t, ls).lines);
  }

  lemma CloseIsPrefix(m: seq<string>)
    requires |m| >= 1
    ensures Close(m) == m || Close(m) == m + [""]
  {
  }

  // ----- Readings -----

  /** The lines the next pass reads from what a pass over `ls` writes. */
  function Reading(t: Template, ls: seq<string>): (r: seq<string>)
    ensures |r| >= 1
  {
    FoldLines(Round(t, ls))
  }

  function Readings(t: Template, ls: seq<string>, n: nat): seq<string> {
    if n == 0 then ls else Reading(t, Readings(t, ls, n - 1))
  }

  lemma {:induction false} ReadingsShift(t: Template, ls: seq<string>, n: nat)
    ensures Readings(t, ls, n + 1) == Readings(t, Reading(t, ls), n)
  {
    hide Reading;
    if n > 0 {
      ReadingsShift(t, ls, n - 1);
    } else {
      assert Readings(t, ls, 0) == ls && Readings(t, ls, 1) == Reading(t, ls);
    }
  }

  lemma ReadingIsHeaded(t: Template, ls: seq<string>)
    requires WellFormed(t)
    ensures Headed(t, Reading(t, ls)) && Headed(t, Round(t, ls))
  {
    hide WellFormed, PatchLines, Headed, Close;
    var m := PatchLines(t, ls).lines;
    PassIsHeaded(t, ls);
    CloseIsPrefix(m);
    PrefixStaysHeaded(t, m, [""]);
    assert Headed(t, Close(m));
    FoldStaysHeaded(t, Close(m));
  }

  /** Whatever the file was, what the next pass reads is shallow. */
  lemma ReadingIsShallow(t: Template, ls: seq<string>)
    requires WellFormed(t)
    ensures Shallow(t, Reading(t, ls)) && Shallow(t, Round(t, ls))
  {
    hide WellFormed, Headed, Shallow, Reading, Round;
    ReadingIsHeaded(t, ls);
    HeadedIsShallow(t, Round(t, ls));
    HeadedIsShallow(t, Reading(t, ls));
  }

  /** No carriage return at the end of a line that stage one keeps, and nothing behind the unix
      block that the next pass would take for a part of it.  */
  predicate Tidy(t: Template, ls: seq<string>) {
    NoneEndsInCR(Outside(t, ls)) && Shallow(t, ls)
  }

  lemma TidyPass(t: Template, ls: seq<string>)
    requires WellFormed(t) && CleanTemplate(t) && NoneEndsInCR(Outside(t, ls))
    ensures NoneEndsInCR(Round(t, ls)) && Reading(t, ls) == Round(t, ls) && Tidy(t, Round(t, ls))
  {
    hide WellFormed, CleanTemplate, PatchLines, Outside, Shallow, Close, NoneEndsInCR;
    var m := PatchLines(t, ls).lines;
    WithinZero(Outside(t, ls));
    PassWithin(t, ls, 0);
    CloseWithin(m, 0);
    WithinZero(Close(m));
    NothingToFold(Close(m));
    ReadingIsShallow(t, ls);
    OutsideIsPart(t, Close(m));
    PartWithin(Outside(t, Close(m)), Close(m), 0);
    WithinZero(Outside(t, Close(m)));
  }

  lemma {:induction false} TidyRounds(t: Template, ls: seq<string>, n: nat)
    requires WellFormed(t) && CleanTemplate(t) && Tidy(t, ls)
    ensures Readings(t, ls, n) == Rounds(t, ls, n) && Tidy(t, Rounds(t, ls, n))
  {
    hide WellFormed, CleanTemplate, Outside, Shallow, NoneEndsInCR, Reading, Round;
    if n > 0 {
      TidyRounds(t, ls, n - 1);
      TidyPass(t, Rounds(t, ls, n - 1));
    }
  }

  // ----- The line behind the block -----

  /** The block is followed by a line that the next pass takes for a part of it. */
  predicate Grown(t: Template, ls: seq<string>, u: nat) {
    && t.unix.Some? && UnixIn(t, ls, u)
    && u + |t.unix.value| < |ls|
    && ls[u + |t.unix.value|] != "" && Lead(ls[u + |t.unix.value|]) > Lead(t.unix.value[0])
  }

  /** The block is followed by the end of the lines, a blank one, or one that leaves it. */
  predicate Ended(t: Template, ls: seq<string>, u: nat) {
    && t.unix.Some? && UnixIn(t, ls, u)
    && (u + |t.unix.value| < |ls| ==>
          ls[u + |t.unix.value|] == "" || Lead(ls[u + |t.unix.value|]) <= Lead(t.unix.value[0]))
  }

  lemma DeepFileGrows(t: Template, ls: seq<string>) returns (v: nat)
    requires WellFormed(t) && !Shallow(t, ls) && Disjoint(t, ls)
    ensures Grown(t, Round(t, ls), v)
  {
    hide WellFormed, Lead, First, Normalize, EnsureUnix, EnsurePlugin, WorksBeside, BlockEnd, UnixIn, Close;
    var m := EnsureUnix(t, ls).lines;
    var u := StageOneBlock(t, ls);
    DeepLine(t, ls);
    v := StageTwoBlock(t, m, u);
    var out := EnsurePlugin(t, m).lines;
    CloseIsPrefix(out);
    PrefixKeepsBlock(t, out, [""], v);
  }

  lemma DeepLine(t: Template, ls: seq<string>)
    requires !Shallow(t, ls)
    ensures t.unix.Some? && |t.unix.value| >= 1
    ensures var i := First(ls, 0, Header(UNIX));
            i < |ls| && BlockEnd(ls, i) < |ls|
            && ls[BlockEnd(ls, i)] != "" && Lead(ls[BlockEnd(ls, i)]) > Lead(t.unix.value[0])
  {
    hide Lead, Normalize, Has;
  }

  lemma UnixAtIsEnded(t: Template, m: seq<string>, tail: seq<string>, u: nat)
    requires t.unix.Some? && UnixAt(t, m, u)
    requires |tail| >= 1 ==> tail[0] == "" || Lead(tail[0]) == 0
    ensures Ended(t, m + tail, u)
  {
    hide Lead, First, Normalize;
    PrefixKeepsBlock(t, m, tail, u);
  }
}
