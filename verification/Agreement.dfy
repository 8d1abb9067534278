/** The patcher and the toggler, two readers of one file, agree on what is enabled. */
module Agreement {
  import opened Wrappers
  import opened Text
  import opened Comments
  import opened Blocks
  import opened PatchSpec
  import opened PatchConvergence
  import opened PatchFrame
  import opened PatchTails
  import opened PatchReadings
  import opened PatchDelay
  import opened PatchTheorems
  import opened PatchEffect
  import opened Toggle

  // ----- The plugin path -----

  /** For a path that ends in ndpi.so the toggler's lines are the patcher's plugin lines with a dash. */
  lemma MatchIsMention(l: string, path: string)
    requires Base(path) == NDPI
    ensures Match(l, path) <==> Has(l) && Contains(l, "-")
  {
    hide Match, Contains, Base, Has;
    HasIsContains(l);
    EmptyPath();
    MatchOnRawLine(l, path);
  }

  lemma EmptyPath()
    ensures Base("") != NDPI
  {
  }

  // ----- Lines -----

  lemma InEffectIsPicked(t: Template, r: seq<string>, i: nat, k: nat, path: string)
    requires InEffect(t, r, i, k) && Base(path) == NDPI
    requires forall j | 0 <= j < i :: !Match(r[j], path)
    requires Contains(r[k], "-")
    ensures FirstMatch(r, path) == k && !IsCommented(r[k]) && r[k] != ""
  {
    hide Match, Contains, Has, Base, Normalize, Lead, IsCommented;
    forall j | i <= j <= k
      ensures Match(r[j], path) <==> j == k
    {
      MatchIsMention(r[j], path);
      if j == i && Has(r[i]) {
        MentionIsNoHeader(r[i]);
      }
    }
    BlankIsNoHeader();
    FirstMatchIs(r, path, k);
  }

  /** The toggler reads a written file without carriage returns as the patcher does, less the
      final empty line.  */
  lemma ReadClosed(r: seq<string>)
    requires AllNoNewline(r) && NoneEndsInCR(r) && Closed(r)
    ensures ReadLines(Join(r)) == if Fits(r) then Ok(r[..|r| - 1]) else Err(LineTooLong)
  {
    hide Join, Split, Fold, AllNoNewline, NoneEndsInCR, DropCRs, Fits;
    SplitLinesOfJoin(r);
    assert Tokens(Fold(Join(r))) == r[..|r| - 1];
    NoCRsToDrop(r);
    LastFits(r);
  }

  lemma LastFits(r: seq<string>)
    requires Closed(r)
    ensures Fits(r) <==> Fits(r[..|r| - 1])
  {
    assert r[|r| - 1] == "";
  }

  lemma NoCRsToDrop(r: seq<string>)
    requires NoneEndsInCR(r) && |r| >= 1
    ensures DropCRs(r[..|r| - 1]) == r[..|r| - 1]
  {
  }

  // ----- From the lines before the first pass -----

  /** The line stage two works on: the first plugin line in reach, or the entry it inserts. */
  function PluginLine(t: Template, ls: seq<string>): string {
    var m := EnsureUnix(t, ls).lines;
    if !HasPlugins(t, ls) then EntryLine(t, 2)
    else
      var k := Target(t, m, First(m, 0, Header(PLUGINS)));
      if Found(t, m, k) then m[k] else EntryLine(t, t.indent + 2)
  }

  /** No pass after stage one touches the lines above the plugins header. */
  lemma FirstRoundKeepsTop(t: Template, ls: seq<string>)
    requires WellFormed(t) && HasPlugins(t, ls)
    ensures var m, out := EnsureUnix(t, ls).lines, PatchLines(t, ls).lines;
            var i := First(m, 0, Header(PLUGINS));
            && i < |out| && out[..i] == m[..i]
            && (i < Target(t, m, i) < |out| && out[Target(t, m, i)] == Uncomment(PluginLine(t, ls)))
  {
    hide Normalize, Lead, Has, First, IsCommented, Uncomment, EntryLine, EnsureUnix, EnsurePlugin, Target;
    var m := EnsureUnix(t, ls).lines;
    var i := First(m, 0, Header(PLUGINS));
    var k := Target(t, m, i);
    if Found(t, m, k) {
      FoundOutcome(t, m, i, k);
    } else {
      InsertOutcome(t, m, i, k);
      InsertedLine(t, t.indent + 2);
      assert Insert(m[i := Uncomment(m[i])], k, EntryLine(t, t.indent + 2))[..k] == m[i := Uncomment(m[i])][..k];
    }
  }

  lemma CloseKeepsTop(out: seq<string>, i: nat, k: nat)
    requires i < k < |out|
    ensures Close(out)[..i] == out[..i] && Close(out)[k] == out[k]
  {
  }

  lemma DashSurvives(l: string)
    ensures Contains(Uncomment(l), "-") == Contains(l, "-")
  {
    UncommentContains(l, "-");
  }

  predicate TopKept(t: Template, ls: seq<string>, r: seq<string>, i: nat, k: nat)
    requires HasPlugins(t, ls)
  {
    var m := EnsureUnix(t, ls).lines;
    && PluginAt(t, r, i, k) && i == First(m, 0, Header(PLUGINS)) && r[..i] == m[..i]
    && Contains(r[k], "-") == Contains(PluginLine(t, ls), "-")
  }

  lemma TopAfterFirst(t: Template, ls: seq<string>) returns (i: nat, k: nat)
    requires WellFormed(t) && Disjoint(t, ls) && Shallow(t, ls) && |ls| >= 1 && HasPlugins(t, ls)
    ensures TopKept(t, ls, Round(t, ls), i, k)
  {
    hide WellFormed, Disjoint, Shallow, HasPlugins, PatchLines, UnixAt, UnixTrails, Trails, Depth, Contains, First,
         Target, EnsureUnix, PluginLine, Uncomment, Harmless, IsCommented, Close, InBlock, Has;
    var out := PatchLines(t, ls).lines;
    var u;
    i, k, u := FirstRound(t, ls);
    FirstRoundKeepsTop(t, ls);
    CloseKeepsPlugin(t, out, i, k);
    FirstRoundTarget(t, ls, i, k);
    CloseKeepsTop(out, i, k);
    DashSurvives(PluginLine(t, ls));
  }

  lemma TopAfterNext(t: Template, ls: seq<string>, m: seq<string>, i: nat, k: nat, u: nat)
    requires WellFormed(t) && HasPlugins(t, ls)
    requires Settled(t, m, i, k, u) && TopKept(t, ls, Close(m), i, k)
    ensures TopKept(t, ls, Round(t, Close(m)), i, k)
  {
    hide WellFormed, HasPlugins, PatchLines, UnixAt, UnixTrails, Contains, First, Target, EnsureUnix, PluginLine,
         Uncomment, Beside, IsCommented, Close, InBlock, Has;
    NextRound(t, m, i, k, u);
    var out := PatchLines(t, Close(m)).lines;
    CloseKeepsPlugin(t, out, i, k);
    CloseKeepsTop(m, i, k);
    CloseKeepsTop(out, i, k);
    DashSurvives(m[k]);
    assert Close(m)[k := Uncomment(m[k])][..i] == Close(m)[..i];
  }

  /** After any number of passes the lines above the header are those stage one left, and the
      plugin line has a dash if it had one to begin with.  */
  lemma {:induction false} RoundsKeepTop(t: Template, ls: seq<string>, n: nat) returns (i: nat, k: nat)
    requires WellFormed(t) && Disjoint(t, ls) && Shallow(t, ls) && |ls| >= 1 && HasPlugins(t, ls) && n >= 1
    ensures TopKept(t, ls, Rounds(t, ls, n), i, k)
  {
    hide WellFormed, Disjoint, Shallow, HasPlugins, PatchLines, UnixTrails, Trails, Depth, Round, TopKept, PluginAt,
         Close, UnixAt, Harmless;
    if n == 1 {
      i, k := TopAfterFirst(t, ls);
      assert Rounds(t, ls, 0) == ls;
    } else {
      var i0, k0 := RoundsKeepTop(t, ls, n - 1);
      var m, u;
      m, i, k, u := AfterRounds(t, ls, n - 1);
      SamePlugin(t, ls, m, i0, k0, i, k);
      TopAfterNext(t, ls, m, i, k, u);
    }
  }

  lemma SamePlugin(t: Template, ls: seq<string>, m: seq<string>, i0: nat, k0: nat, i: nat, k: nat)
    requires HasPlugins(t, ls) && |m| >= 1 && TopKept(t, ls, Close(m), i0, k0) && PluginAt(t, m, i, k)
    ensures i0 == i && k0 == k
  {
    hide HasPlugins, PluginLine, Contains, First, Target, EnsureUnix;
    CloseKeepsPlugin(t, m, i, k);
  }

  lemma FirstRoundTarget(t: Template, ls: seq<string>, i: nat, k: nat)
    requires WellFormed(t) && HasPlugins(t, ls) && PluginAt(t, PatchLines(t, ls).lines, i, k)
    ensures var m := EnsureUnix(t, ls).lines;
            i == First(m, 0, Header(PLUGINS)) && k == Target(t, m, i)
  {
    hide Normalize, Lead, Has, First, IsCommented, Uncomment, EntryLine, EnsureUnix, EnsurePlugin, Target, Insert;
    var m := EnsureUnix(t, ls).lines;
    var i0 := First(m, 0, Header(PLUGINS));
    var k0 := Target(t, m, i0);
    if Found(t, m, k0) {
      UncommentedPlugin(t, m, i0, k0);
    } else {
      InsertOutcome(t, m, i0, k0);
      InsertedPlugin(t, m, i0, k0);
    }
  }

  lemma StatusOfClosed(r: seq<string>, k: nat, path: string)
    requires AllNoNewline(r) && NoneEndsInCR(r) && Closed(r) && Fits(r)
    requires FirstMatch(r, path) == k < |r| && !IsCommented(r[k]) && r[k] != ""
    ensures Status(Join(r), path) == Ok((k, true))
  {
    hide Match, IsCommented, Join, ReadLines, NoNewline, EndsInCR, FirstMatch;
    ReadClosed(r);
    FirstMatchIsFirst(r, path);
    FirstMatchIs(r[..|r| - 1], path, k);
  }

  // ----- Files without a plugins header -----

  /** The section at the end of a written file, and the lines in front of it. */
  predicate AppendedSection(t: Template, m: seq<string>, q: seq<string>, tail: seq<string>) {
    && (q == m || q == Separated(m))
    && |tail| >= 3 && tail[0] == PLUGINS && (tail[1] == EntryLine(t, 2) || tail[1] == EntryLine(t, t.indent + 2))
  }

  lemma SettledSectionAppended(t: Template, m: seq<string>, q: seq<string>) returns (tail: seq<string>)
    requires q == m || q == Separated(m)
    ensures AppendedSection(t, m, q, tail) && SettledSection(t, q) == q + tail
  {
    hide EntryLine, Separated;
    var x := EntryLine(t, t.indent + 2);
    tail := if t.indent <= 1 then Section(t) else [PLUGINS, x, EntryLine(t, 2), ""];
    assert t.indent > 1 ==> Insert(q + Section(t), |q| + 1, x) == q + tail;
  }

  lemma RoundsAppendSection(t: Template, ls: seq<string>, n: nat) returns (q: seq<string>, tail: seq<string>)
    requires WellFormed(t) && Shallow(t, ls) && |ls| >= 1 && !HasPlugins(t, ls) && n >= 1
    ensures AppendedSection(t, EnsureUnix(t, ls).lines, q, tail) && Rounds(t, ls, n) == q + tail
  {
    hide WellFormed, Shallow, HasPlugins, PatchLines, UnixTrails, EndsWithUnix, Settled, Marks, Separated,
         EntryLine, EnsureUnix, SettledSection, AppendedSection;
    FirstRoundAppends(t, ls);
    assert Rounds(t, ls, 0) == ls && Rounds(t, ls, 1) == Round(t, ls);
    if n == 1 {
      q, tail := Separated(EnsureUnix(t, ls).lines), Section(t);
      assert AppendedSection(t, EnsureUnix(t, ls).lines, q, tail) by { SectionAppended(t, EnsureUnix(t, ls).lines); }
    } else {
      q := BeforeSection(t, ls);
      var m, i, k, u := SecondRound(t, ls);
      SettledOnce(t, m, i, k, u);
      assert m == Round(t, Round(t, ls));
      hide Round;
      RoundsFromSecond(t, ls, n - 2);
      FixedForever(t, m, n - 2);
      tail := SettledSectionAppended(t, EnsureUnix(t, ls).lines, q);
    }
  }

  lemma SectionAppended(t: Template, m: seq<string>)
    ensures AppendedSection(t, m, Separated(m), Section(t))
  {
  }

  lemma SectionIsPicked(t: Template, m: seq<string>, q: seq<string>, tail: seq<string>, path: string)
    requires WellFormed(t) && AppendedSection(t, m, q, tail) && Base(path) == NDPI
    requires forall j | 0 <= j < |m| :: !Match(m[j], path)
    ensures var r, k := q + tail, |q| + 1;
            FirstMatch(r, path) == k && !IsCommented(r[k]) && r[k] != ""
  {
    hide Match, Contains, Has, Base, Normalize, Lead, IsCommented, EntryLine, WellFormed;
    var r, k := q + tail, |q| + 1;
    InsertedLine(t, 2);
    InsertedLine(t, t.indent + 2);
    EntryHasDash(t, 2);
    EntryHasDash(t, t.indent + 2);
    MatchIsMention(r[k], path);
    MatchIsMention(PLUGINS, path);
    MatchIsMention("", path);
    BlankIsNoHeader();
    KeyIsTrimmed(PLUGINS);
    if Has(PLUGINS) {
      MentionIsNoHeader(PLUGINS);
    }
    FirstMatchIs(r, path, k);
  }

  lemma EntryHasDash(t: Template, n: nat)
    requires WellFormed(t)
    ensures Contains(EntryLine(t, n), "-")
  {
    hide Normalize, Lead;
    var x := EntryLine(t, n);
    assert x[n..n + 1] == "-";
    OccursAt(x, n, "-");
  }

  // ----- Line lengths -----

  /** All lines that a pass can write fit the toggler's scanner. */
  predicate RoomFor(t: Template, ls: seq<string>) {
    && Fits(Outside(t, ls)) && (t.unix.Some? ==> Fits(t.unix.value)) && |EntryLine(t, t.indent + 2)| < MAX_TOKEN
  }

  lemma OwnLineFits(t: Template, l: string)
    requires |EntryLine(t, t.indent + 2)| < MAX_TOKEN && (t.unix.Some? ==> Fits(t.unix.value))
    requires l == "" || (t.unix.Some? && l in t.unix.value) || l == PLUGINS || l == EntryLine(t, 2) || l == EntryLine(t, t.indent + 2)
    ensures |l| < MAX_TOKEN
  {
    assert |PLUGINS| == 8;
  }

  lemma UncommentShortens(l: string)
    ensures |Uncomment(l)| <= |l|
  {
    hide Lead;
  }

  lemma PassFits(t: Template, ls: seq<string>)
    requires WellFormed(t) && RoomFor(t, ls)
    ensures Fits(PatchLines(t, ls).lines)
  {
    hide PatchLines, Outside, WellFormed, EntryLine, Uncomment;
    forall y | 0 <= y < |PatchLines(t, ls).lines|
      ensures |PatchLines(t, ls).lines[y]| < MAX_TOKEN
    {
      var l := LineOrigin(t, ls, y);
      UncommentShortens(l);
      if l in Outside(t, ls) {
        var k :| 0 <= k < |Outside(t, ls)| && Outside(t, ls)[k] == l;
      } else {
        OwnLineFits(t, l);
      }
    }
  }

  lemma ReadingFits(t: Template, ls: seq<string>)
    requires WellFormed(t) && RoomFor(t, ls)
    ensures Fits(Reading(t, ls)) && RoomFor(t, Reading(t, ls))
  {
    hide PatchLines, Outside, WellFormed, EntryLine, FoldLines, Close, EndsInCR;
    PassFits(t, ls);
    var m := PatchLines(t, ls).lines;
    CloseIsPrefix(m);
    FoldedFits(Close(m));
    var r := Reading(t, ls);
    OutsideIsPart(t, r);
    forall k | 0 <= k < |Outside(t, r)|
      ensures |Outside(t, r)[k]| < MAX_TOKEN
    {
      assert Outside(t, r)[k] in r;
    }
  }

  lemma FoldedFits(x: seq<string>)
    requires Fits(x)
    ensures Fits(FoldLines(x))
  {
    hide FoldLines;
  }

  lemma {:induction false} ReadingsFit(t: Template, ls: seq<string>, n: nat)
    requires WellFormed(t) && RoomFor(t, ls)
    ensures RoomFor(t, Readings(t, ls, n)) && (n >= 1 ==> Fits(Readings(t, ls, n)))
  {
    hide WellFormed, RoomFor, Fits, Reading;
    if n > 0 {
      ReadingsFit(t, ls, n - 1);
      ReadingFits(t, Readings(t, ls, n - 1));
    }
  }

  // ----- Agreement -----

  /** A file the patcher is through with is one the toggler calls enabled, at the patcher's own
      plugin line: when the plugin path ends in ndpi.so, nothing above the plugins header of the
      tidy file looks like a plugin entry, the plugin line has a dash, and no line is too long
      for the toggler's scanner.  */
  lemma PatchedReportsEnabled(template: string, t: Template, current: string, n: nat, path: string) returns (k: nat)
    requires Parses(template, t) && Effective(t, SplitLines(current), n) && RoomFor(t, SplitLines(current))
    requires var ls := Tidied(t, SplitLines(current));
             && Base(path) == NDPI && Contains(PluginLine(t, ls), "-")
             && var m := EnsureUnix(t, ls).lines; forall j | 0 <= j < First(m, 0, Header(PLUGINS)) :: !Match(m[j], path)
    ensures Status(PatchTimes(t, current, n), path) == Ok((k, true))
  {
    hide WellFormed, CleanTemplate, SplitLines, Parses, Disjoint, Shallow, HasPlugins, PatchLines, First, Match, Delay,
         Tidied, Contains, PluginLine, EnsureUnix, IsCommented, Fits, Base, PatchBytes, Status, Join, EffectiveTidy,
         RoomFor, Readings, PatchTimes, AllNoNewline, NoneEndsInCR, PluginAt, Hits, Rounds;
    var ls := SplitLines(current);
    var last, passes := Tidied(t, ls), n - Delay(t, ls);
    var i;
    i, k := PickedAfterRounds(t, last, passes, path);
    WrittenAfter(t, current, n);
    ReadingsFit(t, ls, n);
    StatusOfClosed(Rounds(t, last, passes), k, path);
  }

  lemma WrittenAfter(t: Template, current: string, n: nat)
    requires WellFormed(t) && CleanTemplate(t) && n > Delay(t, SplitLines(current))
    ensures var ls := SplitLines(current);
            var r := Rounds(t, Tidied(t, ls), n - Delay(t, ls));
            && PatchTimes(t, current, n) == Join(r) && Readings(t, ls, n) == r
            && AllNoNewline(r) && NoneEndsInCR(r) && Closed(r)
  {
    hide WellFormed, CleanTemplate, SplitLines, PatchTimes, Readings, Tidied, Delay, AllNoNewline, NoneEndsInCR, Shallow,
         Outside, Join, PatchLines;
    var ls := SplitLines(current);
    var last, passes := Tidied(t, ls), n - Delay(t, ls);
    BytesAndLines(t, current, n);
    AfterDelay(t, ls, n);
    AfterDelay(t, ls, n - 1);
    TidyRounds(t, last, passes);
    TidyRounds(t, last, passes - 1);
    TidyPass(t, Rounds(t, last, passes - 1));
  }

  lemma PickedAfterRounds(t: Template, ls: seq<string>, n: nat, path: string) returns (i: nat, k: nat)
    requires WellFormed(t) && Disjoint(t, ls) && Shallow(t, ls) && |ls| >= 1 && EffectiveTidy(t, ls, n)
    requires Base(path) == NDPI && Contains(PluginLine(t, ls), "-")
    requires var m := EnsureUnix(t, ls).lines;
             forall j | 0 <= j < First(m, 0, Header(PLUGINS)) :: !Match(m[j], path)
    ensures var r := Rounds(t, ls, n);
            PluginAt(t, r, i, k) && k < |r| && FirstMatch(r, path) == k && !IsCommented(r[k]) && r[k] != ""
  {
    hide WellFormed, Disjoint, Shallow, HasPlugins, First, Match, Contains, PluginLine, EnsureUnix, Target, Base,
         IsCommented, Rounds, EffectiveTidy, Block, InBlock, Has, InEffect, TopKept, PluginAt, AppendedSection, Hits;
    EffectiveIsPositive(t, ls, n);
    var r := Rounds(t, ls, n);
    i, k := EffectOnLines(t, ls, n);
    InEffectIsPlugin(t, r, i, k);
    if HasPlugins(t, ls) {
      var i0, k0 := RoundsKeepTop(t, ls, n);
      OneTarget(t, ls, r, i0, k0, i, k);
      TopHasNoMatch(t, ls, r, i, k, path);
      InEffectIsPicked(t, r, i, k, path);
    } else {
      var q, tail := RoundsAppendSection(t, ls, n);
      NoHeaderAnywhere(t, ls);
      SectionIsPicked(t, EnsureUnix(t, ls).lines, q, tail, path);
      SectionPlace(t, EnsureUnix(t, ls).lines, q, tail, i, k);
    }
  }

  lemma SectionPlace(t: Template, m: seq<string>, q: seq<string>, tail: seq<string>, i: nat, k: nat)
    requires WellFormed(t) && AppendedSection(t, m, q, tail) && First(m, 0, Header(PLUGINS)) == |m|
    requires PluginAt(t, q + tail, i, k)
    ensures k == |q| + 1 < |q + tail|
  {
    hide WellFormed, Normalize, Lead, Has, EntryLine, Separated, IsCommented, Found, First;
    NoPluginsSeparated(m);
    KeyIsTrimmed(PLUGINS);
    InsertedLine(t, 2);
    InsertedLine(t, t.indent + 2);
    var r := q + tail;
    FirstIs(r, 0, Header(PLUGINS), |q|);
    assert r[|q| + 1] == tail[1] && Has(tail[1]);
    StopsAtMention(t, r, |q|);
  }

  lemma StopsAtMention(t: Template, r: seq<string>, i: nat)
    requires i + 1 < |r| && Has(r[i + 1])
    ensures Target(t, r, i) == i + 1
  {
    hide Has, Lead;
  }

  lemma EffectiveIsPositive(t: Template, ls: seq<string>, n: nat)
    requires EffectiveTidy(t, ls, n)
    ensures n >= 1
  {
  }

  lemma NoHeaderAnywhere(t: Template, ls: seq<string>)
    requires !HasPlugins(t, ls)
    ensures var m := EnsureUnix(t, ls).lines; First(m, 0, Header(PLUGINS)) == |m|
  {
    hide First, EnsureUnix;
  }

  lemma OneTarget(t: Template, ls: seq<string>, r: seq<string>, i0: nat, k0: nat, i: nat, k: nat)
    requires HasPlugins(t, ls) && TopKept(t, ls, r, i0, k0) && InEffect(t, r, i, k)
    requires Contains(PluginLine(t, ls), "-")
    ensures i0 == i && k0 == k < |r| && Contains(r[k], "-")
  {
    hide HasPlugins, PluginLine, Contains, First, Target, EnsureUnix, Block, InBlock, Has, IsCommented;
  }

  lemma TopHasNoMatch(t: Template, ls: seq<string>, r: seq<string>, i: nat, k: nat, path: string)
    requires HasPlugins(t, ls) && TopKept(t, ls, r, i, k)
    requires var m := EnsureUnix(t, ls).lines;
             forall j | 0 <= j < First(m, 0, Header(PLUGINS)) :: !Match(m[j], path)
    ensures forall j | 0 <= j < i :: !Match(r[j], path)
  {
    hide HasPlugins, Match, Contains, PluginLine, EnsureUnix, First, Target, Found;
    assert forall j | 0 <= j < i :: r[j] == r[..i][j];
  }
}
