/** A template and a file that meet the conditions under which the two writers undo each other. */
module WritersExample {
  import opened Wrappers
  import opened Text
  import opened Comments
  import opened Blocks
  import opened PatchSpec
  import opened PatchConvergence
  import opened PatchTails
  import opened PatchReadings
  import opened PatchUntidy
  import opened PatchDelay
  import opened PatchTheorems
  import opened PatchEffect
  import opened PatchShipped
  import opened PatchExamples
  import opened Toggle
  import opened Agreement
  import opened TwoWriters

  lemma EntryIsShort()
    ensures var t := SmallTemplate([]); |EntryLine(t, 2)| < 100
  {
    hide Has;
    assert |Entry(PLUGIN)| <= |PLUGIN| + 2;
    assert |NDPI| == 7;
  }

  lemma PluginBase()
    ensures Base(NDPI) == NDPI
  {
    assert NDPI == "ndpi.so";
    NoSlash(NDPI);
  }

  lemma NoSlash(path: string)
    requires path != "" && '/' !in path
    ensures Base(path) == path
  {
  }

  /** The file of the example, and what a pass makes of it. */
  lemma ExampleLines()
    ensures var t := SmallTemplate([]); var ls := [PLUGINS, EntryLine(t, 2), ""];
            && WellFormed(t) && EnsureUnix(t, ls).lines == ls && EnsurePlugin(t, ls).lines == ls && Closed(ls)
            && First(ls, 0, Header(PLUGINS)) == 0 && Target(t, ls, 0) == 1 && Found(t, ls, 1) && !IsCommented(ls[1])
            && SplitLines(Join(ls)) == ls && NoneEndsInCR(ls) && Parses(Join(SmallLines([])), t) && ls[1] != ""
  {
    hide Normalize, Lead, Has, First, EntryLine, WellFormed, IsCommented, CleanLine, Join, SplitLines, Entry, Parses, SmallLines,
         AllNoNewline, NoneEndsInCR, EnsurePlugin, Hits;
    var t := SmallTemplate([]);
    SmallParses([]);
    EntryIsClean(t);
    SilentStage(t);
    KeyIsTrimmed(PLUGINS);
    InsertedLine(t, 2);
    var ls := [PLUGINS, EntryLine(t, 2), ""];
    CleanText(ls);
    SplitLinesOfJoin(ls);
    ScanSmall(t);
    FoundOutcome(t, ls, 0, 1);
    assert ls[0 := ls[0]][1 := ls[1]] == ls;
  }

  lemma ScanSmall(t: Template)
    requires WellFormed(t) && t.indent == 0
    ensures var ls := [PLUGINS, EntryLine(t, 2), ""];
            First(ls, 0, Header(PLUGINS)) == 0 && Target(t, ls, 0) == 1 && Found(t, ls, 1)
  {
    hide Normalize, Lead, Has, First, EntryLine, WellFormed, IsCommented;
    KeyIsTrimmed(PLUGINS);
    InsertedLine(t, 2);
    var ls := [PLUGINS, EntryLine(t, 2), ""];
    FirstIs(ls, 0, Header(PLUGINS), 0);
    FirstIs(ls, 1, Stops(0), 1);
  }

  lemma ExampleFits()
    ensures RoomFor(SmallTemplate([]), [PLUGINS, EntryLine(SmallTemplate([]), 2), ""])
  {
    hide EntryLine, Entry, First, BlockEnd, WellFormed, Hits;
    EntryIsShort();
    ShortLines([PLUGINS, EntryLine(SmallTemplate([]), 2), ""]);
  }

  lemma ShortLines(ls: seq<string>)
    requires |ls| == 3 && ls[0] == PLUGINS && |ls[1]| < 100 && ls[2] == ""
    ensures Fits(ls)
  {
    assert |PLUGINS| == 8;
  }

  lemma ExampleSettles(t: Template, ls: seq<string>)
    requires t.unix.None? && t.indent == 0 && |ls| >= 1 && WellFormed(t) && NoneEndsInCR(ls)
    requires First(ls, 0, Header(PLUGINS)) == 0 && Target(t, ls, 0) == 1 && Found(t, ls, 1) && !IsCommented(ls[1])
    ensures Tidy(t, ls) && HasPlugins(t, ls) && Depth(t, ls) == 0 && Settling(t, ls) == 1 && !Regrows(t, ls)
    ensures Delay(t, ls) == 0 && Tidied(t, ls) == ls && PassesNeeded(t, ls) == 1 && Effective(t, ls, 1)
  {
    hide WellFormed, First, Target, Found, IsCommented, NoneEndsInCR;
    NoUnixIsDisjoint(t, ls);
    assert Tidy(t, ls);
    TidyNow(t, ls);
  }

  lemma ExampleBytes(t: Template, ls: seq<string>)
    requires EnsureUnix(t, ls).lines == ls && EnsurePlugin(t, ls).lines == ls && Closed(ls) && SplitLines(Join(ls)) == ls
    requires AllNoNewline(ls)
    ensures PatchTimes(t, Join(ls), 1) == Join(ls)
  {
    hide EnsureUnix, EnsurePlugin, Join, SplitLines, Terminate, AllNoNewline;
    assert PatchTimes(t, Join(ls), 0) == Join(ls);
    TerminateOfJoin(ls);
  }

  /** A toggle takes the plugin line out of this file, and the next pass restores the bytes. */
  lemma UndoneExample() returns (off: string)
    ensures var t := SmallTemplate([]); var file := Join([PLUGINS, EntryLine(t, 2), ""]);
            && Parses(Join(SmallLines([])), t)
            && Decide(file, NDPI, false) == Ok(Replace(off)) && off != file && PatchBytes(t, off) == Patched(file, true)
  {
    hide WellFormed, First, Target, Found, IsCommented, NoneEndsInCR, AllNoNewline, Join, SplitLines, Entry, EntryLine, Parses,
         SmallLines, EnsureUnix, EnsurePlugin, RoomFor, Effective, PassesNeeded, Tidied, Delay, Contains, Match, Hits, Base,
         PatchTimes, PatchBytes, Decide;
    var t := SmallTemplate([]);
    var ls := [PLUGINS, EntryLine(t, 2), ""];
    ExampleLines();
    ExampleFits();
    ExampleSettles(t, ls);
    ExampleBytes(t, ls);
    PluginBase();
    EntryHasDash(t, 2);
    off := DisableIsUndone(Join(SmallLines([])), t, Join(ls), 1, NDPI);
  }
}
