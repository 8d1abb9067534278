/** The reconciler and the toggler at work on one file: each undoes what the other has done. */
module TwoWriters {
  import opened Wrappers
  import opened Text
  import opened Comments
  import opened Blocks
  import opened PatchSpec
  import opened PatchConvergence
  import opened PatchFrame
  import opened PatchTails
  import opened PatchReadings
  import opened PatchRestored
  import opened PatchUntidy
  import opened PatchDelay
  import opened PatchTheorems
  import opened PatchEffect
  import opened Toggle
  import opened Agreement

  // ----- On lines -----

  /** Where a tidy file stands when its bytes no longer change: settled, its plugin line active. */
  lemma SettledAt(t: Template, ls: seq<string>, n: nat) returns (m: seq<string>, i: nat, k: nat, u: nat)
    requires WellFormed(t) && Disjoint(t, ls) && Shallow(t, ls) && |ls| >= 1 && n >= Settling(t, ls)
    ensures Settled(t, m, i, k, u) && k < |m| && Marks(m[k]) == 0 && Rounds(t, ls, n) == Close(m)
  {
    hide WellFormed, Disjoint, Shallow, HasPlugins, PatchLines, Trails, UnixTrails, Settled, Depth, Marks, EndsWithUnix;
    if HasPlugins(t, ls) {
      m, i, k, u := AfterRounds(t, ls, n);
    } else {
      m, i, k, u := SectionSettled(t, ls, n);
    }
  }

  lemma SectionSettled(t: Template, ls: seq<string>, n: nat) returns (m: seq<string>, i: nat, k: nat, u: nat)
    requires WellFormed(t) && Shallow(t, ls) && |ls| >= 1 && !HasPlugins(t, ls)
    requires n >= 2 || (n == 1 && t.indent <= 1 && !EndsWithUnix(t, ls))
    ensures Settled(t, m, i, k, u) && k < |m| && Marks(m[k]) == 0 && Rounds(t, ls, n) == Close(m)
  {
    hide WellFormed, Shallow, HasPlugins, PatchLines, UnixTrails, Settled, Marks, EndsWithUnix, Hits;
    m, i, k, u := SecondRound(t, ls);
    SettledOnce(t, m, i, k, u);
    FixpointWithoutPlugins(t, ls, 1);
    TwoRounds(t, ls);
    CloseClosed(m);
    hide Round, Rounds, Closed, Close;
    if n >= 2 {
      RoundsFromSecond(t, ls, n - 2);
      FixedForever(t, m, n - 2);
    }
  }

  lemma TwoRounds(t: Template, ls: seq<string>)
    ensures Rounds(t, ls, 1) == Round(t, ls) && Rounds(t, ls, 2) == Round(t, Round(t, ls))
  {
    hide Round;
    assert Rounds(t, ls, 0) == ls;
  }

  lemma CloseClosed(m: seq<string>)
    requires Closed(m)
    ensures Close(m) == m
  {
  }


  lemma CommentKeepsPlace(l: string)
    requires Has(l) && !IsCommented(l)
    ensures var x := Comment(l);
            && Has(x) && Lead(x) == Lead(l) && IsCommented(x) && Uncomment(x) == l && x != "" && x != l
            && Normalize(x) != PLUGINS && Normalize(x) != UNIX
  {
    hide Has, Lead, Normalize, IsCommented, Uncomment, Comment;
    UncommentOfComment(l);
    var x := Comment(l);
    HasIsContains(l);
    HasIsContains(x);
    UncommentContains(x, NDPI);
    UncommentKeepsIndent(x);
    BlankIsNoHeader();
    MentionIsNoHeader(x);
  }

  /** The plugin line commented, beside the unix block. */
  lemma CommentedBeside(t: Template, m: seq<string>, i: nat, k: nat, u: nat)
    requires WellFormed(t) && Settled(t, m, i, k, u) && k < |m| && !IsCommented(m[k]) && Beside(t, u, k)
    ensures var o := PatchLines(t, Close(m)[k := Comment(m[k])]); o.changed && Close(o.lines) == Close(m)
  {
    hide WellFormed, UnixAt, UnixTrails, First, Target, Has, Lead, Normalize, IsCommented, Uncomment, Comment, PatchLines, Close,
         InBlock, Hits, PluginAt;
    SettledLine(t, m, i, k, u);
    CommentKeepsPlace(m[k]);
    var x := Comment(m[k]);
    var off := m[k := x];
    UpdateKeepsUnix(t, m, u, k, x);
    PlacedPlugin(t, m, off, i, k);
    CloseOfUpdate(m, k, x);
    NextRound(t, off, i, k, u);
    CloseIsPrefix(m);
    assert Close(m)[k := x][k := m[k]] == Close(m);
  }

  lemma SettledLine(t: Template, m: seq<string>, i: nat, k: nat, u: nat)
    requires Settled(t, m, i, k, u)
    ensures First(m, 0, Header(PLUGINS)) == i < k < |m| && !IsCommented(m[i]) && Target(t, m, i) == k && Found(t, m, k)
    ensures Has(m[k]) && Lead(m[k]) > t.indent && m[k] != "" && Harmless(t, m, u, k) && UnixAt(t, m, u)
  {
    hide UnixAt, First, Has, Lead, Normalize, IsCommented;
    BlankIsNoHeader();
  }

  /** Commented inside the unix block: stage one puts the block back. */
  lemma CommentedInside(t: Template, m: seq<string>, i: nat, k: nat, u: nat)
    requires WellFormed(t) && Settled(t, m, i, k, u) && k < |m| && !IsCommented(m[k]) && !Beside(t, u, k)
    requires NoneEndsInCR(Close(m))
    ensures var o := PatchLines(t, Close(m)[k := Comment(m[k])]); o.changed && Close(o.lines) == Close(m)
  {
    hide WellFormed, UnixAt, UnixTrails, First, Target, Has, Lead, Normalize, IsCommented, Uncomment, Comment, EnsureUnix,
         EnsurePlugin, Close, InBlock, Hits, PluginAt, NoneEndsInCR;
    SettledLine(t, m, i, k, u);
    CommentKeepsPlace(m[k]);
    var x := Comment(m[k]);
    CloseIsPrefix(m);
    var off := Close(m)[k := x];
    assert Close(m)[k] == m[k] != off[k];
    BlockPutBack(t, m, k, u, x);
    StageOneFlag(t, off);
    NextRound(t, m, i, k, u);
    EnsureUnixAgain(t, m, u);
    assert Close(m)[k := m[k]] == Close(m);
  }

  lemma BlockPutBack(t: Template, m: seq<string>, k: nat, u: nat, x: string)
    requires WellFormed(t) && t.unix.Some? && UnixAt(t, m, u) && k < |m| && !Beside(t, u, k) && x == Comment(m[k])
    requires Has(m[k]) && !IsCommented(m[k]) && Lead(x) == Lead(m[k]) && x != "" && m[k] != ""
    requires NoneEndsInCR(Close(m))
    ensures EnsureUnix(t, Close(m)[k := x]).lines == Reclosed(t, m, u)
  {
    hide WellFormed, UnixAt, UnixIn, UnixTrails, First, Has, Lead, Normalize, IsCommented, Comment, EnsureUnix, Close, Hits,
         FoldLines, EndsInCR;
    AtIsIn(t, m, u);
    BlockLines(t, m, u);
    var off := m[k := x];
    MentionIsNoHeader(m[k]);
    CleanIsWithin(t, m, u);
    CommentedIsClean(m, k);
    CloseOfUpdate(m, k, x);
    Restored(t, m, u, off, |t.unix.value|);
    NothingToFold(Close(off));
  }

  lemma CleanIsWithin(t: Template, m: seq<string>, u: nat)
    requires |m| >= 1 && NoneEndsInCR(Close(m))
    ensures BesideWithin(t, m, u, 0)
  {
    hide Tail, EndsInCR;
    CloseIsPrefix(m);
    assert forall j | 0 <= j < |m| :: Close(m)[j] == m[j];
  }

  lemma CommentedIsClean(m: seq<string>, k: nat)
    requires k < |m| && NoneEndsInCR(Close(m)) && m[k] != "" && Comment(m[k]) != ""
    ensures NoneEndsInCR(Close(m[k := Comment(m[k])]))
  {
    hide EndsInCR, Comment;
    CommentsKeepCR(m[k]);
    CloseOfUpdate(m, k, Comment(m[k]));
    assert Close(m)[k] == m[k];
  }

  /** A pass over a settled file whose plugin line was commented reports a change and writes the
      lines it had before.  */
  lemma CommentUndone(t: Template, m: seq<string>, i: nat, k: nat, u: nat)
    requires WellFormed(t) && Settled(t, m, i, k, u) && k < |m| && Marks(m[k]) == 0 && NoneEndsInCR(Close(m))
    ensures var o := PatchLines(t, Close(m)[k := Comment(m[k])]); o.changed && Close(o.lines) == Close(m)
  {
    hide WellFormed, Settled, PatchLines, Close, NoneEndsInCR, Comment, IsCommented;
    if Beside(t, u, k) {
      CommentedBeside(t, m, i, k, u);
    } else {
      CommentedInside(t, m, i, k, u);
    }
  }

  // ----- On bytes -----

  /** The written file does not end in a blank line. */
  predicate EndsInText(r: seq<string>) {
    |r| >= 3 ==> r[|r| - 2] != ""
  }

  /** What the toggler writes when it disables the line k of the file. */
  lemma DisableWrites(r: seq<string>, k: nat, path: string)
    requires AllNoNewline(r) && NoneEndsInCR(r) && Closed(r) && Fits(r) && EndsInText(r)
    requires FirstMatch(r, path) == k < |r| && !IsCommented(r[k]) && r[k] != "" && Comment(r[k]) != ""
    ensures var off := r[k := Comment(r[k])];
            && Decide(Join(r), path, false) == Ok(Replace(Join(off)))
            && AllNoNewline(off) && NoneEndsInCR(off) && Closed(off)
  {
    hide Match, IsCommented, Comment, Join, ReadLines, NoNewline, EndsInCR, FirstMatch, Terminate, Fits;
    var c := r[..|r| - 1];
    var off := r[k := Comment(r[k])];
    ReadClosed(r);
    FirstMatchIsFirst(r, path);
    FirstMatchIs(c, path, k);
    CommentsKeepCR(r[k]);
    CommentsKeepLine(r[k]);
    assert AllNoNewline(off) && NoneEndsInCR(off);
    var kept := c[k := Comment(r[k])];
    assert kept + [""] == off;
    TerminateOfJoin(kept);
  }

  /** The lines of a file that the patcher is through with, and the place of its plugin line. */
  predicate ThroughWith(t: Template, m: seq<string>, i: nat, k: nat, u: nat, path: string) {
    && Settled(t, m, i, k, u) && k < |m| && Marks(m[k]) == 0
    && AllNoNewline(Close(m)) && NoneEndsInCR(Close(m)) && Fits(Close(m)) && FirstMatch(Close(m), path) == k
  }

  lemma TidyPlace(t: Template, ls: seq<string>, n: nat, path: string) returns (m: seq<string>, i: nat, k: nat, u: nat)
    requires WellFormed(t) && Disjoint(t, ls) && Shallow(t, ls) && |ls| >= 1 && EffectiveTidy(t, ls, n) && n >= Settling(t, ls)
    requires Base(path) == NDPI && Contains(PluginLine(t, ls), "-")
    requires var m := EnsureUnix(t, ls).lines;
             forall j | 0 <= j < First(m, 0, Header(PLUGINS)) :: !Match(m[j], path)
    ensures Settled(t, m, i, k, u) && k < |m| && Marks(m[k]) == 0 && Rounds(t, ls, n) == Close(m)
    ensures FirstMatch(Rounds(t, ls, n), path) == k
  {
    hide WellFormed, Disjoint, Shallow, First, Match, Contains, PluginLine, EnsureUnix, Base, Settling,
         IsCommented, Rounds, EffectiveTidy, PluginAt, Hits, UnixAt, Harmless, Marks, Close, FirstMatch;
    m, i, k, u := SettledAt(t, ls, n);
    var i0, k0 := PickedAfterRounds(t, ls, n, path);
    CloseKeepsPlugin(t, m, i, k);
    SamePlace(t, Close(m), i, k, i0, k0);
  }

  lemma FilePlace(t: Template, current: string, n: nat, path: string) returns (m: seq<string>, i: nat, k: nat, u: nat)
    requires WellFormed(t) && Effective(t, SplitLines(current), n) && n >= PassesNeeded(t, SplitLines(current))
    requires RoomFor(t, SplitLines(current))
    requires var ls := Tidied(t, SplitLines(current));
             && Base(path) == NDPI && Contains(PluginLine(t, ls), "-")
             && var m := EnsureUnix(t, ls).lines; forall j | 0 <= j < First(m, 0, Header(PLUGINS)) :: !Match(m[j], path)
    ensures ThroughWith(t, m, i, k, u, path)
    ensures PatchTimes(t, current, n) == Join(Close(m)) && SplitLines(PatchTimes(t, current, n)) == Close(m)
  {
    hide WellFormed, CleanTemplate, SplitLines, Disjoint, PatchLines, First, Match, Delay, Settling, PassesNeeded,
         Tidied, Contains, PluginLine, EnsureUnix, IsCommented, Fits, Base, Join, EffectiveTidy, Settled, Marks, Close,
         RoomFor, Readings, PatchTimes, AllNoNewline, NoneEndsInCR, Hits, Rounds, Outside, Shallow, FirstMatch, Round;
    var ls := SplitLines(current);
    PassesAfterDelay(t, ls, n);
    m, i, k, u := TidyPlace(t, Tidied(t, ls), n - Delay(t, ls), path);
    WrittenAfter(t, current, n);
    ReadingsFit(t, ls, n);
    BytesAndLines(t, current, n);
  }

  /** A disabling toggle of a file that the patcher is through with is undone by the next
      reconciliation, byte for byte, which reports a change and so restarts Suricata; after it the
      toggler finds the line active again and would replace the file again.  */
  lemma DisableIsUndone(template: string, t: Template, current: string, n: nat, path: string) returns (off: string)
    requires Parses(template, t) && Effective(t, SplitLines(current), n) && n >= PassesNeeded(t, SplitLines(current))
    requires RoomFor(t, SplitLines(current)) && EndsInText(SplitLines(PatchTimes(t, current, n)))
    requires var ls := Tidied(t, SplitLines(current));
             && Base(path) == NDPI && Contains(PluginLine(t, ls), "-")
             && var m := EnsureUnix(t, ls).lines; forall j | 0 <= j < First(m, 0, Header(PLUGINS)) :: !Match(m[j], path)
    ensures var file := PatchTimes(t, current, n);
            Decide(file, path, false) == Ok(Replace(off)) && off != file && PatchBytes(t, off) == Patched(file, true)
  {
    hide WellFormed, SplitLines, Parses, Effective, PassesNeeded, RoomFor, Tidied, Base, Contains, PluginLine, EnsureUnix, First,
         Match, Hits, PatchTimes, Settled, Marks, AllNoNewline, NoneEndsInCR, Fits, Join, Terminate, PatchLines, Decide, Comment,
         IsCommented, Close, EndsInText, FirstMatch;
    var m, i, k, u := FilePlace(t, current, n, path);
    LineOf(t, m, i, k, u);
    CommentUndone(t, m, i, k, u);
    off := LineCommented(t, m, i, k, u, path);
  }

  lemma LineCommented(t: Template, m: seq<string>, i: nat, k: nat, u: nat, path: string) returns (off: string)
    requires WellFormed(t) && ThroughWith(t, m, i, k, u, path) && EndsInText(Close(m)) && k < |Close(m)|
    requires var o := PatchLines(t, Close(m)[k := Comment(m[k])]); o.changed && Close(o.lines) == Close(m)
    ensures Decide(Join(Close(m)), path, false) == Ok(Replace(off)) && off != Join(Close(m))
    ensures PatchBytes(t, off) == Patched(Join(Close(m)), true)
  {
    hide WellFormed, SplitLines, Match, Hits, Settled, Marks, AllNoNewline, NoneEndsInCR, Fits, Join, Terminate, PatchLines,
         Decide, Comment, IsCommented, Close, EndsInText, FirstMatch, Uncomment;
    LineOf(t, m, i, k, u);
    var r := Close(m);
    var c := r[k := Comment(r[k])];
    DisableWrites(r, k, path);
    off := Join(c);
    SplitLinesOfJoin(c);
    PassIsLines(t, c);
    TerminateOfJoin(PatchLines(t, c).lines);
    assert c[k] != r[k];
    if off == Join(r) {
      JoinInjective(c, r);
      assert false;
    }
  }

  lemma LineOf(t: Template, m: seq<string>, i: nat, k: nat, u: nat)
    requires Settled(t, m, i, k, u) && k < |m| && Marks(m[k]) == 0
    ensures k < |Close(m)| && Close(m)[k] == m[k] && !IsCommented(m[k]) && m[k] != ""
    ensures Comment(m[k]) != "" && Comment(m[k]) != m[k]
  {
    hide Settled, Close, Has, Lead, Normalize, Hits, First, Target, Found, Harmless, UnixAt, Comment, Uncomment, IsCommented;
    SettledLine(t, m, i, k, u);
    CommentKeepsPlace(m[k]);
    CloseIsPrefix(m);
  }
}
