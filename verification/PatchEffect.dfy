/** What a pass reports, and what the file looks like when the patcher is through with it. */
module PatchEffect {
  import opened Wrappers
  import opened Text
  import opened Comments
  import opened Blocks
  import opened PatchSpec
  import opened PatchConvergence
  import opened PatchFrame
  import opened PatchTails
  import opened PatchReadings
  import opened PatchOverlap
  import opened PatchPasses
  import opened PatchDelay
  import opened PatchUntidy
  import opened PatchTheorems

  // ----- The flag -----

  /** Stage one reports a change exactly when it changes the lines. */
  lemma StageOneFlag(t: Template, ls: seq<string>)
    requires WellFormed(t)
    ensures EnsureUnix(t, ls).changed <==> EnsureUnix(t, ls).lines != ls
  {
    hide Normalize, Lead, Has, First;
    if t.unix.Some? {
      var block := t.unix.value;
      var i := First(ls, 0, Header(UNIX));
      if i < |ls| {
        var e := BlockEnd(ls, i);
        var out := ls[..i] + block + ls[e..];
        if out == ls {
          assert |block| == e - i;
          assert out[i..e] == block;
        }
      }
    }
  }

  predicate CommentedPlugins(ls: seq<string>) {
    var i := First(ls, 0, Header(PLUGINS));
    i < |ls| && IsCommented(ls[i])
  }

  /** Stage two changes the lines exactly when it reports a change or finds the header commented:
      a header that only has to be uncommented is rewritten without a report.  */
  lemma StageTwoFlag(t: Template, ls: seq<string>)
    ensures EnsurePlugin(t, ls).lines != ls <==> EnsurePlugin(t, ls).changed || CommentedPlugins(ls)
  {
    hide Normalize, Lead, Has, First, IsCommented, Uncomment;
    var i := First(ls, 0, Header(PLUGINS));
    if i < |ls| {
      var k := Target(t, ls, i);
      if Found(t, ls, k) {
        UncommentDiffers(ls[i]);
        UncommentDiffers(ls[k]);
        var out := ls[i := Uncomment(ls[i])][k := Uncomment(ls[k])];
        assert out[i] == Uncomment(ls[i]) && out[k] == Uncomment(ls[k]);
      }
    }
  }

  lemma UncommentDiffers(l: string)
    ensures Uncomment(l) != l <==> IsCommented(l)
  {
  }

  /** A pass without a report has at most uncommented the plugins header; the bytes are the
      file's own, with folded newlines and a final one, exactly if the header was active.  */
  lemma UnreportedPass(t: Template, current: string)
    requires WellFormed(t) && !PatchBytes(t, current).changed
    ensures var ls := SplitLines(current); var i := First(ls, 0, Header(PLUGINS));
            && i < |ls| && PatchLines(t, ls).lines == ls[i := Uncomment(ls[i])]
            && (PatchBytes(t, current).bytes == Terminate(Fold(current)) <==> !CommentedPlugins(ls))
  {
    hide WellFormed, Normalize, Lead, Has, First, IsCommented, Uncomment, SplitLines, Terminate, Join;
    var ls := SplitLines(current);
    var i := First(ls, 0, Header(PLUGINS));
    StageOneFlag(t, ls);
    UnreportedStageTwo(t, ls);
    var out := PatchLines(t, ls).lines;
    JoinedBack(current);
    UncommentDiffers(ls[i]);
    CommentsKeepLine(ls[i]);
    HeaderUncommented(ls[i], PLUGINS);
    assert ls[i := ls[i]] == ls;
    if Terminate(Join(out)) == Terminate(Join(ls)) {
      SameLinesWritten(out, ls, i);
    }
  }

  lemma UnreportedStageTwo(t: Template, ls: seq<string>)
    requires !EnsurePlugin(t, ls).changed
    ensures var i := First(ls, 0, Header(PLUGINS));
            i < |ls| && EnsurePlugin(t, ls).lines == ls[i := Uncomment(ls[i])]
  {
    hide EnsurePlugin, First, Target, Uncomment, IsCommented, Normalize, Lead, Has;
    var i := First(ls, 0, Header(PLUGINS));
    UnreportedMeansFound(t, ls);
    UnreportedFound(t, ls, i, Target(t, ls, i));
  }

  lemma UnreportedMeansFound(t: Template, ls: seq<string>)
    requires !EnsurePlugin(t, ls).changed
    ensures var i := First(ls, 0, Header(PLUGINS));
            i < |ls| && Found(t, ls, Target(t, ls, i)) && !IsCommented(ls[Target(t, ls, i)])
  {
    hide EnsurePlugin, First, Target, Uncomment, IsCommented, EntryLine, Insert, Separated, Has, Lead, Normalize;
    var i := First(ls, 0, Header(PLUGINS));
    if i == |ls| {
      AppendReports(t, ls);
    } else if !Found(t, ls, Target(t, ls, i)) {
      InsertOutcome(t, ls, i, Target(t, ls, i));
    } else {
      FoundOutcome(t, ls, i, Target(t, ls, i));
    }
  }

  lemma AppendReports(t: Template, ls: seq<string>)
    requires First(ls, 0, Header(PLUGINS)) == |ls|
    ensures EnsurePlugin(t, ls).changed
  {
    hide First, EntryLine, Separated, Target, Insert, Uncomment, IsCommented, Found;
  }

  lemma UnreportedFound(t: Template, ls: seq<string>, i: nat, k: nat)
    requires First(ls, 0, Header(PLUGINS)) == i < |ls| && Target(t, ls, i) == k && Found(t, ls, k)
    requires !IsCommented(ls[k])
    ensures EnsurePlugin(t, ls).lines == ls[i := Uncomment(ls[i])]
  {
    hide First, Uncomment, IsCommented, Target, EnsurePlugin;
    FoundOutcome(t, ls, i, k);
    UncommentDiffers(ls[k]);
    UpdateSame(ls[i := Uncomment(ls[i])], k);
  }

  lemma UpdateSame<T>(s: seq<T>, k: nat)
    requires k < |s|
    ensures s[k := s[k]] == s
  {
  }

  lemma JoinedBack(current: string)
    ensures Join(SplitLines(current)) == Fold(current)
  {
    JoinOfSplit(Fold(current));
  }

  lemma SameLinesWritten(out: seq<string>, ls: seq<string>, i: nat)
    requires i < |ls| == |out| && out == ls[i := out[i]] && ls[i] != "" && out[i] != ""
    requires AllNoNewline(out) && AllNoNewline(ls)
    requires Terminate(Join(out)) == Terminate(Join(ls))
    ensures out == ls
  {
    hide Join, Terminate;
    TerminateOfJoin(out);
    TerminateOfJoin(ls);
    JoinInjective(Close(out), Close(ls));
    assert Close(out)[i] == out[i] && Close(ls)[i] == ls[i];
  }

  // ----- The file when the patcher is through -----

  /** Passes after which plugin header and plugin line of a tidy file are active. */
  predicate EffectiveTidy(t: Template, ls: seq<string>, n: nat) {
    n >= 1 && if HasPlugins(t, ls) then n >= Depth(t, ls) else n >= 2 || t.indent <= 1
  }

  /** The same for any file, if stage two does not edit the unix block and no line of the template's
      ends in a carriage return.  */
  predicate Effective(t: Template, ls: seq<string>, n: nat)
    requires WellFormed(t)
  {
    && n > Delay(t, ls) && EffectiveTidy(t, Tidied(t, ls), n - Delay(t, ls))
    && CleanTemplate(t) && Disjoint(t, Tidied(t, ls))
  }

  /** The first plugins header is active at i, the first plugin line in its reach at k is too,
      and the unix section is the template's, give or take one blank line at its end.  */
  predicate InEffect(t: Template, r: seq<string>, i: nat, k: nat) {
    && PluginAt(t, r, i, k) && !IsCommented(r[k])
    && (t.unix.Some? ==> Block(r, UNIX) == t.unix || Block(r, UNIX) == Some(t.unix.value + [""]))
  }

  lemma UnixInEffect(t: Template, m: seq<string>, u: nat)
    requires WellFormed(t) && |m| >= 1 && UnixAt(t, m, u) && t.unix.Some?
    ensures Block(Close(m), UNIX) == t.unix || Block(Close(m), UNIX) == Some(t.unix.value + [""])
  {
    hide Normalize, Lead, Has, First, BlockEnd;
    var e := u + |t.unix.value|;
    if UnixTrails(t, m, u) {
      assert m[e - 1] == m[u..e][|t.unix.value| - 1];
      TrailingBlock(t, m, [], u);
      assert Close(m) == m + [""] + [];
    } else {
      CloseKeepsUnix(t, m, u);
      BlockStaysTogether(t, Close(m), u);
    }
  }

  lemma UnixBeforeSection(t: Template, m: seq<string>, tail: seq<string>, u: nat)
    requires WellFormed(t) && |m| >= 1 && UnixAt(t, m, u) && t.unix.Some?
    requires |tail| >= 1 && tail[0] != "" && Lead(tail[0]) == 0
    ensures var b := Block(Separated(m) + tail, UNIX); b == t.unix || b == Some(t.unix.value + [""])
  {
    hide Normalize, Lead, Has, First, BlockEnd;
    if UnixTrails(t, m, u) {
      TrailingBlock(t, m, tail, u);
      TrailingUnixCut(t, m, tail, u);
    } else {
      SeparatedKeepsUnix(t, m, u);
      hide Separated;
      TailKeepsUnix(t, Separated(m), tail, u);
      BlockStaysTogether(t, Separated(m) + tail, u);
    }
  }

  lemma NoPluginsSeparated(m: seq<string>)
    requires First(m, 0, Header(PLUGINS)) == |m|
    ensures First(Separated(m), 0, Header(PLUGINS)) == |Separated(m)|
  {
    hide Normalize;
    BlankIsNoHeader();
    FirstIs(Separated(m), 0, Header(PLUGINS), |Separated(m)|);
  }

  lemma SectionInEffect(t: Template, ls: seq<string>) returns (i: nat, k: nat)
    requires WellFormed(t) && Shallow(t, ls) && |ls| >= 1 && !HasPlugins(t, ls) && t.indent <= 1
    ensures InEffect(t, Round(t, ls), i, k)
  {
    hide WellFormed, Shallow, Normalize, Lead, Has, First, Block, PluginAt, Section, EntryLine, IsCommented, EnsureUnix,
         Separated, UnixAt, Round;
    var m := EnsureUnix(t, ls).lines;
    FirstRoundAppends(t, ls);
    NoPluginsSeparated(m);
    SectionHeader(t, Separated(m));
    i, k := |Separated(m)|, |Separated(m)| + 1;
    if t.unix.Some? {
      SectionStartsAtMargin(t);
      var u := EnsureUnixPlaces(t, ls);
      UnixBeforeSection(t, m, Section(t), u);
    }
  }

  /** What the patcher is for: when it has run once over the tidied file, the file loads the plugin
      and carries the template's unix section exactly if it has run often enough, and stage two
      does not edit that section and no line of it ends in a carriage return.  */
  lemma PatchTakesEffect(template: string, t: Template, current: string, n: nat)
    requires Parses(template, t) && n > Delay(t, SplitLines(current))
    ensures (exists i: nat, k: nat :: InEffect(t, SplitLines(PatchTimes(t, current, n)), i, k))
            <==> Effective(t, SplitLines(current), n)
  {
    hide WellFormed, SplitLines, Parses, Delay, Readings, PatchTimes, Effective, InEffect, Join, Round, AllNoNewline;
    BytesAndLines(t, current, n);
    EffectAfterDelay(t, SplitLines(current), n);
  }

  lemma EffectAfterDelay(t: Template, ls: seq<string>, n: nat)
    requires WellFormed(t) && |ls| >= 1 && n > Delay(t, ls)
    ensures (exists i: nat, k: nat :: InEffect(t, Readings(t, ls, n), i, k)) <==> Effective(t, ls, n)
  {
    hide WellFormed, CleanTemplate, Disjoint, Delay, Tidied, Readings, EffectiveTidy, InEffect, Tidy;
    AfterDelay(t, ls, n);
    EffectOnReadings(t, Tidied(t, ls), n - Delay(t, ls));
  }

  lemma InEffectIsPlugin(t: Template, r: seq<string>, i: nat, k: nat)
    requires InEffect(t, r, i, k)
    ensures PluginAt(t, r, i, k)
  {
    hide PluginAt, Block;
  }

  /** The lines in effect are active; where header and template are indented alike, the plugin line
      is the block's first mention of the plugin.  */
  lemma EffectIsFirst(t: Template, r: seq<string>, i: nat, k: nat)
    requires InEffect(t, r, i, k)
    ensures i < k < |r| && !IsCommented(r[i]) && !IsCommented(r[k])
    ensures Lead(r[i]) == t.indent ==> k < BlockEnd(r, i) && k == First(r, i + 1, Mentions)
  {
    hide First, Lead, Normalize, Has, Block, IsCommented, BlockEnd, InBlock;
    TargetInBlock(t, r, i, k);
  }

  lemma EffectOnReadings(t: Template, ls: seq<string>, n: nat)
    requires WellFormed(t) && Tidy(t, ls) && |ls| >= 1 && n >= 1
    ensures (exists i: nat, k: nat :: InEffect(t, Readings(t, ls, n), i, k))
            <==> EffectiveTidy(t, ls, n) && CleanTemplate(t) && Disjoint(t, ls)
  {
    hide WellFormed, CleanTemplate, Disjoint, Shallow, Outside, NoneEndsInCR, EffectiveTidy, InEffect, Reading, Rounds, Displaced;
    if !CleanTemplate(t) || !Disjoint(t, ls) {
      StaysDisplaced(t, ls, n);
      DisplacedHasNoEffect(t, Readings(t, ls, n));
    } else {
      TidyRounds(t, ls, n);
      if EffectiveTidy(t, ls, n) {
        var i, k := EffectOnLines(t, ls, n);
      } else {
        NoEffectYet(t, ls, n);
      }
    }
  }

  lemma StaysDisplaced(t: Template, ls: seq<string>, n: nat)
    requires WellFormed(t) && Tidy(t, ls) && |ls| >= 1 && n >= 1 && (!CleanTemplate(t) || !Disjoint(t, ls))
    ensures Displaced(t, Readings(t, ls, n))
  {
    hide WellFormed, CleanTemplate, Disjoint, Tidy, Reading, Displaced;
    if CleanTemplate(t) {
      OverlapStays(t, ls, n - 1);
      OverlapReports(t, Readings(t, ls, n - 1));
    } else {
      DirtyIsDisplaced(t, Readings(t, ls, n - 1));
    }
  }

  lemma DisplacedHasNoEffect(t: Template, r: seq<string>)
    requires Displaced(t, r)
    ensures !exists i: nat, k: nat :: InEffect(t, r, i, k)
  {
    hide Block, PluginAt;
  }

  lemma NoEffectYet(t: Template, ls: seq<string>, n: nat)
    requires WellFormed(t) && Disjoint(t, ls) && Shallow(t, ls) && |ls| >= 1 && !EffectiveTidy(t, ls, n) && n >= 1
    ensures !exists i: nat, k: nat :: InEffect(t, Rounds(t, ls, n), i, k)
  {
    hide WellFormed, Disjoint, Shallow, HasPlugins, PatchLines, UnixTrails, Trails, Depth, UnixAt, Harmless,
         Marks, Round, InEffect, PluginAt, Hits, Lead, Separated, EnsureUnix, First;
    var r := Rounds(t, ls, n);
    forall i: nat, k: nat
      ensures !InEffect(t, r, i, k)
    {
      if InEffect(t, r, i, k) {
        InEffectIsPlugin(t, r, i, k);
        if HasPlugins(t, ls) {
          var m, i0, k0, u := AfterRounds(t, ls, n);
          CloseKeepsPlugin(t, m, i0, k0);
          SamePlace(t, r, i, k, i0, k0);
          CommentedHasNoEffect(t, r, i, k, m[k0]);
        } else {
          SectionTooShallow(t, ls, i, k);
        }
        assert false;
      }
    }
  }

  lemma CommentedHasNoEffect(t: Template, r: seq<string>, i: nat, k: nat, l: string)
    requires PluginAt(t, r, i, k) && r[k] == l && Marks(l) > 0
    ensures !InEffect(t, r, i, k)
  {
    hide PluginAt, Block, IsCommented, Marks;
  }

  lemma SectionTooShallow(t: Template, ls: seq<string>, i: nat, k: nat)
    requires WellFormed(t) && !HasPlugins(t, ls) && t.indent > 1
    ensures !PluginAt(t, Rounds(t, ls, 1), i, k)
  {
    hide WellFormed, Round, Lead, Has, Normalize, First, EntryLine, Section, Separated, EnsureUnix, IsCommented, Target, Found;
    FirstRoundAppends(t, ls);
    NoPluginsSeparated(EnsureUnix(t, ls).lines);
    SectionHeader(t, Separated(EnsureUnix(t, ls).lines));
    assert Rounds(t, ls, 0) == ls;
  }

  lemma TargetInBlock(t: Template, r: seq<string>, i: nat, k: nat)
    requires PluginAt(t, r, i, k)
    ensures Lead(r[i]) == t.indent ==> k < BlockEnd(r, i) && k == First(r, i + 1, Mentions)
  {
    hide Normalize, Lead, Has;
    ScanStopsAtBlockEnd(r, i);
  }

  lemma SettledInEffect(t: Template, m: seq<string>, i: nat, k: nat, u: nat)
    requires WellFormed(t) && Settled(t, m, i, k, u) && k < |m| && Marks(m[k]) == 0
    ensures InEffect(t, Close(m), i, k)
  {
    hide WellFormed, First, PluginAt, UnixAt, Block;
    CloseKeepsPlugin(t, m, i, k);
    if t.unix.Some? {
      UnixInEffect(t, m, u);
    }
  }

  lemma EffectOnLines(t: Template, ls: seq<string>, n: nat) returns (i: nat, k: nat)
    requires WellFormed(t) && Disjoint(t, ls) && Shallow(t, ls) && |ls| >= 1 && EffectiveTidy(t, ls, n)
    ensures InEffect(t, Rounds(t, ls, n), i, k)
  {
    hide WellFormed, Disjoint, Shallow, HasPlugins, PatchLines, UnixTrails, EndsWithUnix, Depth, InEffect, Settled, Marks,
         Round;
    if HasPlugins(t, ls) {
      var m, u;
      m, i, k, u := AfterRounds(t, ls, n);
      SettledInEffect(t, m, i, k, u);
    } else if n == 1 {
      i, k := SectionInEffect(t, ls);
      assert Rounds(t, ls, 0) == ls;
    } else {
      i, k := LaterEffect(t, ls, n - 2);
    }
  }

  lemma LaterEffect(t: Template, ls: seq<string>, n: nat) returns (i: nat, k: nat)
    requires WellFormed(t) && Shallow(t, ls) && |ls| >= 1 && !HasPlugins(t, ls)
    ensures InEffect(t, Rounds(t, ls, n + 2), i, k)
  {
    hide WellFormed, Shallow, HasPlugins, PatchLines, UnixTrails, EndsWithUnix, InEffect, Settled, Marks;
    var m, u;
    m, i, k, u := SecondRound(t, ls);
    SettledOnce(t, m, i, k, u);
    SettledInEffect(t, m, i, k, u);
    assert Close(m) == m == Round(t, Round(t, ls));
    hide Round;
    RoundsFromSecond(t, ls, n);
    FixedForever(t, m, n);
  }
}
