/** How long the bytes of a tidy file go on changing, whatever the template's unix section is and
    whether or not stage two edits it.  */
module PatchPasses {
  import opened Text
  import opened Comments
  import opened Blocks
  import opened PatchSpec
  import opened PatchConvergence
  import opened PatchFrame
  import opened PatchTails
  import opened PatchReadings
  import opened PatchOverlap
  import opened PatchRestored

  // ----- The next pass finds the same place -----

  lemma CloseScans(t: Template, s: seq<string>, i: nat, k: nat)
    requires First(s, 0, Header(PLUGINS)) == i < |s| && Target(t, s, i) == k < |s|
    ensures First(Close(s), 0, Header(PLUGINS)) == i && Target(t, Close(s), i) == k && Close(s)[k] == s[k]
  {
    hide Normalize, Lead, Has;
    FirstIs(Close(s), 0, Header(PLUGINS), i);
    FirstIs(Close(s), i + 1, Stops(t.indent), k);
  }

  lemma CloseWithinBeside(t: Template, s: seq<string>, u: nat, c: nat)
    requires |s| >= 1 && BesideWithin(t, s, u, c)
    ensures BesideWithin(t, Close(s), u, c)
  {
    hide Tail;
    NoTail();
  }

  lemma ReclosedReady(t: Template, s: seq<string>, u: nat, i: nat, k: nat)
    requires WellFormed(t) && Ready(t, s, u, i, k) && (k < |s| || k == u + |t.unix.value|)
    ensures var r := Reclosed(t, s, u);
            Ready(t, r, u, i, k) && (Found(t, r, k) <==> Found(t, s, k)) && (k < |s| ==> k < |r| && r[k] == s[k]) && r[i] == s[i]
  {
    hide First, Target, UnixIn, UnixAt, BesideWithin, WellFormed, Close, UnixTrails, InBlock, Has;
    if !UnixTrails(t, s, u) {
      CloseIsPrefix(s);
      CloseKeepsUnix(t, s, u);
      AtIsIn(t, Close(s), u);
      CloseWithinBeside(t, s, u, 0);
      if k < |s| {
        CloseScans(t, s, i, k);
      } else {
        TargetMeans(t, s, i, k);
        BlankEnd(t, s, u);
      }
    }
  }

  // ----- And writes the same bytes -----

  /** Updating the reading of the lines s at the places i and k, and writing it. */
  lemma UpdatesWritten(s: seq<string>, r: seq<string>, i: nat, k: nat, y: string, z: string)
    requires i < k < |s| && (r == s || r == Close(s)) && s[i] != "" && s[k] != "" && y != "" && z != ""
    ensures |s| <= |r| && Close(r[i := y][k := z]) == Close(s[i := y][k := z])
  {
    hide Close;
    CloseIsPrefix(s);
    if r != s {
      CloseOfUpdate(s, i, y);
      CloseOfUpdate(s[i := y], k, z);
      assert Close(s[i := y][k := z]) == r[i := y][k := z];
      CloseTwice(s[i := y][k := z]);
    }
  }

  lemma CloseTwice(m: seq<string>)
    requires |m| >= 1
    ensures Close(Close(m)) == Close(m)
  {
  }

  lemma UncommentTwice(l: string)
    ensures Uncomment(Uncomment(l)) == Uncomment(l) <==> Marks(l) <= 1
    ensures Marks(Uncomment(l)) == if Marks(l) > 0 then Marks(l) - 1 else 0
  {
    hide Lead, TrimLeft;
  }

  lemma HeaderTwice(l: string)
    requires Normalize(l) == PLUGINS
    ensures Uncomment(Uncomment(l)) == Uncomment(l) && l != "" && Uncomment(l) != ""
  {
    hide Normalize, Lead;
    HeaderUncommented(l, PLUGINS);
  }

  lemma StandingMeans(t: Template, m: seq<string>, u: nat, i: nat, k: nat)
    requires Standing(t, m, u, i, k)
    ensures First(m, 0, Header(PLUGINS)) == i < k <= |m| && Target(t, m, i) == k && Normalize(m[i]) == PLUGINS
    ensures t.unix.Some? && |t.unix.value| >= 1 && First(m, 0, Header(UNIX)) == u
    ensures Found(t, m, k) ==> k < |m| && Has(m[k])
  {
    hide First, Has, Lead, InBlock, Normalize;
  }

  /** What one more pass leaves of the plugin line, and whether it writes other bytes. */
  predicate Again(t: Template, m: seq<string>, u: nat, r: seq<string>, v: nat, i: nat, k: nat) {
    && Ready(t, r, v, i, k)
    && MarksLeft(t, r, v, k) == (if MarksLeft(t, m, u, k) > 0 then MarksLeft(t, m, u, k) - 1 else 0)
    && (Close(EnsurePlugin(t, r).lines) == Close(EnsurePlugin(t, m).lines) <==> MarksLeft(t, m, u, k) <= 1)
  }

  lemma FoundAgain(t: Template, m: seq<string>, u: nat, i: nat, k: nat)
    requires WellFormed(t) && Ready(t, m, u, i, k) && Found(t, m, k) && k < |m|
    ensures Again(t, m, u, Reclosed(t, NextState(t, m, u, i, k), u), u, i, k)
  {
    hide First, Target, UnixIn, UnixAt, BesideWithin, WellFormed, Close, UnixTrails, InBlock, Has, Normalize, Lead,
         Uncomment, IsCommented, EnsurePlugin, Marks;
    var s := NextState(t, m, u, i, k);
    var r := Reclosed(t, s, u);
    StandingMeans(t, m, u, i, k);
    FoundState(t, m, u, i, k, 0);
    ReclosedReady(t, s, u, i, k);
    FoundOutcome(t, m, i, k);
    FoundOutcome(t, r, i, k);
    HeaderTwice(m[i]);
    MentionUncommented(m[k]);
    UncommentTwice(m[k]);
    BlankIsNoHeader();
    var y, z := Uncomment(m[i]), Uncomment(s[k]);
    MentionUncommented(s[k]);
    UpdatesWritten(s, r, i, k, y, z);
    WrittenDiffers(m[i := y], k, Uncomment(m[k]), z);
    assert s[i := y][k := z] == m[i := y][k := z];
  }

  lemma WrittenDiffers(m: seq<string>, k: nat, x: string, z: string)
    requires k < |m|
    ensures Close(m[k := x]) == Close(m[k := z]) <==> x == z
  {
    assert Close(m[k := x])[k] == x && Close(m[k := z])[k] == z;
  }

  lemma InsertAgain(t: Template, m: seq<string>, u: nat, i: nat, k: nat)
    requires WellFormed(t) && Ready(t, m, u, i, k) && !Found(t, m, k) && KeepsOut(t, u, k) && k <= |m|
    ensures var v := if k <= u then u + 1 else u;
            Again(t, m, u, Reclosed(t, NextState(t, m, u, i, k), v), v, i, k)
  {
    hide First, Target, UnixIn, UnixAt, BesideWithin, WellFormed, Close, UnixTrails, InBlock, Has, Normalize, Lead,
         Uncomment, IsCommented, EnsurePlugin, Marks, EntryLine, KeepsOut, Found;
    var s, v, x := NextState(t, m, u, i, k), if k <= u then u + 1 else u, EntryLine(t, t.indent + 2);
    var r := Reclosed(t, s, v);
    StandingMeans(t, m, u, i, k);
    InsertState(t, m, u, i, k, 0);
    ReclosedReady(t, s, v, i, k);
    InsertOutcome(t, m, i, k);
    FoundOutcome(t, r, i, k);
    InsertedLine(t, t.indent + 2);
    HeaderTwice(m[i]);
    var y := Uncomment(m[i]);
    UncommentTwice(x);
    UpdatesWritten(s, r, i, k, y, x);
    assert s[i := y][k := x] == Insert(m[i := y], k, x);
  }

  lemma PutBackAgain(t: Template, m: seq<string>, u: nat, i: nat, k: nat)
    requires WellFormed(t) && Ready(t, m, u, i, k) && !Found(t, m, k) && !KeepsOut(t, u, k) && k <= |m|
    ensures Again(t, m, u, Reclosed(t, NextState(t, m, u, i, k), u), u, i, k)
  {
    hide First, Target, UnixIn, UnixAt, BesideWithin, WellFormed, Close, UnixTrails, InBlock, Has, Normalize, Lead,
         Uncomment, IsCommented, EnsurePlugin, Marks, EntryLine, KeepsOut, Found;
    var s, x := NextState(t, m, u, i, k), EntryLine(t, t.indent + 2);
    var r := Reclosed(t, s, u);
    StandingMeans(t, m, u, i, k);
    PutBackState(t, m, u, i, k, 0);
    ReclosedReady(t, s, u, i, k);
    InsertOutcome(t, m, i, k);
    InsertOutcome(t, r, i, k);
    HeaderTwice(m[i]);
    var y := Uncomment(m[i]);
    if k < |s| {
      InsertWritten(s, r, i, k, y, x);
    } else {
      BlankEnd(t, s, u);
    }
    assert s[i := y] == m[i := y];
  }

  lemma InsertWritten(s: seq<string>, r: seq<string>, i: nat, k: nat, y: string, x: string)
    requires i < k < |s| && (r == s || r == Close(s)) && s[i] != "" && y != ""
    ensures k <= |r| && Close(Insert(r[i := y], k, x)) == Close(Insert(s[i := y], k, x))
  {
    if r != s {
      assert Insert(r[i := y], k, x) == Insert(s[i := y], k, x) + [""];
    }
  }

  /** The pass after a pass, for every template: the plugin line beside the unix block has one mark
      less, and the bytes are the same exactly if it had at most one.  */
  lemma PassAgain(t: Template, m: seq<string>, u: nat, i: nat, k: nat)
    requires WellFormed(t) && Ready(t, m, u, i, k) && k <= |m|
    ensures |NextState(t, m, u, i, k)| >= 1
    ensures var v := NextPlace(t, m, u, k); Again(t, m, u, Reclosed(t, NextState(t, m, u, i, k), v), v, i, k)
  {
    hide First, Target, UnixIn, UnixAt, BesideWithin, Found, KeepsOut, NextState, WellFormed, Again, Reclosed;
    StandingMeans(t, m, u, i, k);
    if Found(t, m, k) {
      FoundAgain(t, m, u, i, k);
      FoundState(t, m, u, i, k, 0);
    } else if KeepsOut(t, u, k) {
      InsertAgain(t, m, u, i, k);
      InsertState(t, m, u, i, k, 0);
    } else {
      PutBackAgain(t, m, u, i, k);
      PutBackState(t, m, u, i, k, 0);
    }
  }

  /** And where stage two edits the unix block, it does so again. */
  lemma OverlapAgain(t: Template, m: seq<string>, u: nat, i: nat, k: nat)
    requires WellFormed(t) && Ready(t, m, u, i, k) && !WorksBeside(t, m) && |NextState(t, m, u, i, k)| >= 1
    ensures !WorksBeside(t, Reclosed(t, NextState(t, m, u, i, k), NextPlace(t, m, u, k)))
  {
    hide First, Target, UnixIn, UnixAt, BesideWithin, Found, KeepsOut, WellFormed, IsCommented, Uncomment, Close,
         UnixTrails, Insert, EntryLine;
    StandingMeans(t, m, u, i, k);
    var s, v := NextState(t, m, u, i, k), NextPlace(t, m, u, k);
    if Found(t, m, k) {
      FoundState(t, m, u, i, k, 0);
      ReclosedReady(t, s, u, i, k);
      StandingMeans(t, Reclosed(t, s, u), u, i, k);
    } else if KeepsOut(t, u, k) {
      InsertState(t, m, u, i, k, 0);
      ReclosedReady(t, s, v, i, k);
      StandingMeans(t, Reclosed(t, s, v), v, i, k);
    } else {
      PutBackState(t, m, u, i, k, 0);
      ReclosedReady(t, s, u, i, k);
      StandingMeans(t, Reclosed(t, s, u), u, i, k);
    }
  }

  // ----- Passes -----

  /** The lines of the file as stage one of the next pass leaves them. */
  lemma NextStageOne(t: Template, ls: seq<string>, u: nat, i: nat, k: nat)
    requires WellFormed(t) && Ready(t, EnsureUnix(t, ls).lines, u, i, k)
    ensures var m := EnsureUnix(t, ls).lines;
            k <= |m| && |NextState(t, m, u, i, k)| >= 1
            && EnsureUnix(t, Reading(t, ls)).lines == Reclosed(t, NextState(t, m, u, i, k), NextPlace(t, m, u, k))
  {
    hide First, Target, UnixIn, UnixAt, BesideWithin, WellFormed, EnsureUnix, EnsurePlugin, NextState, NextPlace, FoldLines,
         Close, Overgrown, Reclosed;
    var m := EnsureUnix(t, ls).lines;
    StandingMeans(t, m, u, i, k);
    var w := PassOvergrows(t, m, u, i, k, 0);
    Restored(t, NextState(t, m, u, i, k), NextPlace(t, m, u, k), EnsurePlugin(t, m).lines, w);
    PatchIsStageTwo(t, ls);
  }

  /** Where the file stands after n passes, seen from the next one. */
  lemma {:induction false} AfterReadings(t: Template, ls: seq<string>, u: nat, i: nat, k: nat, n: nat) returns (v: nat)
    requires WellFormed(t) && Ready(t, EnsureUnix(t, ls).lines, u, i, k)
    ensures var m, r := EnsureUnix(t, ls).lines, EnsureUnix(t, Readings(t, ls, n)).lines;
            && Ready(t, r, v, i, k)
            && MarksLeft(t, r, v, k) == (if MarksLeft(t, m, u, k) > n then MarksLeft(t, m, u, k) - n else 0)
            && (!WorksBeside(t, m) ==> !WorksBeside(t, r))
  {
    hide Ready, WellFormed, EnsureUnix, Reading, MarksLeft, WorksBeside, NextState, NextPlace, Reclosed;
    if n == 0 {
      v := u;
    } else {
      var x := AfterReadings(t, ls, u, i, k, n - 1);
      var before := Readings(t, ls, n - 1);
      var m := EnsureUnix(t, before).lines;
      NextStageOne(t, before, x, i, k);
      PassAgain(t, m, x, i, k);
      if !WorksBeside(t, m) {
        OverlapAgain(t, m, x, i, k);
      }
      v := NextPlace(t, m, x, k);
    }
  }

  /** Pass n + 1 repeats pass n from the number of marks on and not before. */
  lemma MarksCount(t: Template, ls: seq<string>, u: nat, i: nat, k: nat, n: nat)
    requires WellFormed(t) && Ready(t, EnsureUnix(t, ls).lines, u, i, k) && n >= 1
    ensures Round(t, Readings(t, ls, n)) == Round(t, Readings(t, ls, n - 1))
            <==> n >= MarksLeft(t, EnsureUnix(t, ls).lines, u, k)
  {
    hide Ready, WellFormed, EnsureUnix, EnsurePlugin, Reading, MarksLeft, WorksBeside, NextState, NextPlace, Reclosed, Close;
    var v := AfterReadings(t, ls, u, i, k, n - 1);
    var before := Readings(t, ls, n - 1);
    NextStageOne(t, before, v, i, k);
    PassAgain(t, EnsureUnix(t, before).lines, v, i, k);
    PatchIsStageTwo(t, before);
    PatchIsStageTwo(t, Reading(t, before));
  }

  // ----- Tidy files -----

  lemma TidyStands(t: Template, ls: seq<string>) returns (u: nat)
    requires WellFormed(t) && t.unix.Some? && Tidy(t, ls) && |ls| >= 1
    ensures var m := EnsureUnix(t, ls).lines;
            UnixAt(t, m, u) && UnixIn(t, m, u) && BesideWithin(t, m, u, 0) && |t.unix.value| >= 1 && u + |t.unix.value| <= |m|
            && First(m, 0, Header(UNIX)) == u
  {
    hide WellFormed, Shallow, EnsureUnix, UnixAt, UnixIn, BesideWithin, Outside, Within, NoneEndsInCR, First;
    var m := EnsureUnix(t, ls).lines;
    u := EnsureUnixPlaces(t, ls);
    AtIsIn(t, m, u);
    WithinZero(Outside(t, ls));
    KeptWithin(t, ls, u, 0);
    BlockIsInside(t, m, u);
  }

  lemma TidyIsReady(t: Template, ls: seq<string>) returns (u: nat, i: nat, k: nat)
    requires WellFormed(t) && t.unix.Some? && Tidy(t, ls) && |ls| >= 1 && HasPlugins(t, ls)
    ensures Ready(t, EnsureUnix(t, ls).lines, u, i, k) && MarksLeft(t, EnsureUnix(t, ls).lines, u, k) == Depth(t, ls)
  {
    hide WellFormed, Tidy, EnsureUnix, UnixAt, UnixIn, BesideWithin, First, Target, Found, Marks;
    var m := EnsureUnix(t, ls).lines;
    u := TidyStands(t, ls);
    i := First(m, 0, Header(PLUGINS));
    k := Target(t, m, i);
  }

  // ----- Files without a plugins header -----

  /** The section that stage two appends. */
  function NewLines(t: Template): (r: seq<string>)
    ensures |r| == 2
  {
    [PLUGINS, EntryLine(t, 2)]
  }

  lemma NewLinesAre(t: Template)
    requires WellFormed(t)
    ensures var added := NewLines(t);
            && added[0] != "" && Lead(added[0]) == 0 && added[1] != "" && Tail(added[0]) == 0 && Tail(added[1]) == 0
            && !IsCommented(added[1]) && Section(t) == added + [""]
  {
    hide Lead, EntryLine, IsCommented, Normalize, WellFormed, Tail;
    KeyIsTrimmed(PLUGINS);
    InsertedLine(t, 2);
    assert !EndsInCR(PLUGINS);
  }

  lemma SectionBefore(t: Template, ls: seq<string>, u: nat)
    requires WellFormed(t) && t.unix.Some? && Shallow(t, ls) && UnixAt(t, EnsureUnix(t, ls).lines, u) && !HasPlugins(t, ls)
    requires BesideWithin(t, EnsureUnix(t, ls).lines, u, 0)
    ensures var m, s := EnsureUnix(t, ls).lines, BeforeSection(t, ls) + NewLines(t);
            && BeforeSection(t, ls) == (if UnixTrails(t, m, u) then m else Separated(m))
            && EnsurePlugin(t, m).lines == Separated(m) + NewLines(t)
            && UnixAt(t, s, u) && UnixAt(t, s + [""], u) && !UnixTrails(t, s, u) && !UnixTrails(t, s + [""], u) && BesideWithin(t, s, u, 0)
  {
    hide WellFormed, Shallow, EnsureUnix, UnixAt, UnixTrails, EndsWithUnix, Lead, Tail, IsCommented, BesideWithin, First;
    var m, q, added := EnsureUnix(t, ls).lines, BeforeSection(t, ls), NewLines(t);
    StageOneTrails(t, ls, u);
    NewLinesAre(t);
    if !UnixTrails(t, m, u) {
      SeparatedKeepsUnix(t, m, u);
    }
    TailKeepsUnix(t, q, added, u);
    TailKeepsUnix(t, q, added + [""], u);
    assert q + (added + [""]) == q + added + [""];
    AddedWithin(t, m, q, added, u);
  }

  lemma AddedWithin(t: Template, m: seq<string>, q: seq<string>, tail: seq<string>, u: nat)
    requires BesideWithin(t, m, u, 0) && (q == m || q == Separated(m)) && |tail| == 2 && Tail(tail[0]) == 0 && Tail(tail[1]) == 0
    ensures BesideWithin(t, q + tail, u, 0)
  {
    hide Tail;
    NoTail();
  }

  lemma SectionGrows(t: Template, m: seq<string>, q: seq<string>, u: nat) returns (w: nat)
    requires WellFormed(t) && t.unix.Some? && |t.unix.value| >= 1 && u + |t.unix.value| <= |m| && UnixIn(t, m, u)
    requires q == if UnixTrails(t, m, u) then m else Separated(m)
    requires UnixIn(t, q + NewLines(t), u)
    ensures Overgrown(t, q + NewLines(t), u, Separated(m) + NewLines(t), w)
  {
    hide WellFormed, UnixIn, NewLines, Lead, Normalize, First;
    var s := q + NewLines(t);
    w := |t.unix.value|;
    BlockLines(t, s, u);
    BlockSlice(t, m, u);
    if UnixTrails(t, m, u) {
      assert m[|m| - 1] == m[u..|m|][w - 1];
      w := w + 1;
      assert forall y | 0 <= y < |m| :: (m + [""] + NewLines(t))[y] == s[y];
    }
  }

  /** The second pass over a file that had no plugins header. */
  lemma SectionIsRead(t: Template, ls: seq<string>) returns (u: nat)
    requires WellFormed(t) && t.unix.Some? && Tidy(t, ls) && |ls| >= 1 && !HasPlugins(t, ls)
    ensures var q := BeforeSection(t, ls);
            && EnsureUnix(t, Reading(t, ls)).lines == q + Section(t)
            && UnixAt(t, q + Section(t), u) && !UnixTrails(t, q + Section(t), u) && BesideWithin(t, q + Section(t), u, 0)
  {
    hide WellFormed, Shallow, EnsureUnix, EnsurePlugin, UnixAt, UnixTrails, UnixIn, EndsWithUnix, Lead, Tail, IsCommented,
         BesideWithin, First, HasPlugins, NewLines, Section, Reading, Outside, NoneEndsInCR, Close, Separated, BeforeSection, Hits;
    var m, q := EnsureUnix(t, ls).lines, BeforeSection(t, ls);
    u := TidyStands(t, ls);
    SectionBefore(t, ls, u);
    var s := q + NewLines(t);
    SectionRestored(t, ls, m, q, u);
    SectionCloses(t, q);
    CloseWithinBeside(t, s, u, 0);
  }

  lemma SectionCloses(t: Template, q: seq<string>)
    requires WellFormed(t)
    ensures Close(q + NewLines(t)) == q + NewLines(t) + [""] == q + Section(t)
  {
    hide WellFormed, NewLines, Section, Close, Lead, Tail, IsCommented;
    NewLinesAre(t);
    CloseIs(q + NewLines(t));
    assert q + NewLines(t) + [""] == q + (NewLines(t) + [""]);
  }

  lemma SectionRestored(t: Template, ls: seq<string>, m: seq<string>, q: seq<string>, u: nat)
    requires WellFormed(t) && t.unix.Some? && |t.unix.value| >= 1 && m == EnsureUnix(t, ls).lines
    requires u + |t.unix.value| <= |m| && UnixIn(t, m, u) && EnsurePlugin(t, m).lines == Separated(m) + NewLines(t)
    requires q == if UnixTrails(t, m, u) then m else Separated(m)
    requires var s := q + NewLines(t); UnixAt(t, s, u) && !UnixTrails(t, s, u) && BesideWithin(t, s, u, 0)
    ensures EnsureUnix(t, Reading(t, ls)).lines == Close(q + NewLines(t))
  {
    hide WellFormed, EnsureUnix, EnsurePlugin, UnixAt, UnixTrails, UnixIn, BesideWithin, NewLines, Overgrown, FoldLines,
         Close, Separated, PatchLines;
    var s := q + NewLines(t);
    AtIsIn(t, s, u);
    var w := SectionGrows(t, m, q, u);
    BlockIsInside(t, s, u);
    Restored(t, s, u, EnsurePlugin(t, m).lines, w);
    PatchIsStageTwo(t, ls);
  }

  lemma SectionIsReady(t: Template, ls: seq<string>) returns (u: nat)
    requires WellFormed(t) && t.unix.Some? && Tidy(t, ls) && |ls| >= 1 && !HasPlugins(t, ls)
    ensures var q, r := BeforeSection(t, ls), EnsureUnix(t, Reading(t, ls)).lines;
            && Ready(t, r, u, |q|, |q| + 1) && MarksLeft(t, r, u, |q| + 1) == 0
            && Close(EnsurePlugin(t, r).lines) == SettledSection(t, q)
  {
    hide WellFormed, EnsureUnix, EnsurePlugin, UnixAt, UnixTrails, UnixIn, BesideWithin, First, HasPlugins, Section,
         Reading, BeforeSection, Tidy, Found, IsCommented, SettledSection, PluginAt, Lead, Has, InBlock;
    var q := BeforeSection(t, ls);
    u := SectionIsRead(t, ls);
    NoPluginsBeforeSection(t, ls);
    SectionHeader(t, q);
    AtIsIn(t, q + Section(t), u);
    BlockIsInside(t, q + Section(t), u);
    var v := EnsurePluginOnSection(t, q, u);
    assert Close(SettledSection(t, q)) == SettledSection(t, q);
  }

  /** Files without a plugins header, for every template: the exact number of passes. */
  lemma SectionCount(t: Template, ls: seq<string>, n: nat)
    requires WellFormed(t) && t.unix.Some? && Tidy(t, ls) && |ls| >= 1 && !HasPlugins(t, ls) && n >= 1
    ensures Round(t, Readings(t, ls, n)) == Round(t, Readings(t, ls, n - 1))
            <==> n >= 2 || (t.indent <= 1 && !EndsWithUnix(t, ls))
  {
    hide WellFormed, EnsureUnix, EnsurePlugin, HasPlugins, Section, Reading, BeforeSection, Tidy, SettledSection, Close, Ready,
         MarksLeft, EndsWithUnix, Separated;
    var q := BeforeSection(t, ls);
    var u := SectionIsReady(t, ls);
    if n == 1 {
      FirstRoundAppends(t, ls);
      PatchIsStageTwo(t, Reading(t, ls));
      SeparatedFromUnix(t, ls);
      SecondRoundDiffers(t, ls);
      assert Readings(t, ls, 0) == ls;
    } else {
      MarksCount(t, Reading(t, ls), u, |q|, |q| + 1, n - 1);
      ReadingsShift(t, ls, n - 1);
      ReadingsShift(t, ls, n - 2);
    }
  }

  lemma SeparatedFromUnix(t: Template, ls: seq<string>)
    requires WellFormed(t) && t.unix.Some? && Tidy(t, ls) && |ls| >= 1
    ensures EndsWithUnix(t, ls) ==> Separated(EnsureUnix(t, ls).lines) == EnsureUnix(t, ls).lines + [""]
  {
    hide WellFormed, EnsureUnix, EndsWithUnix, Separated, UnixAt, UnixIn, BesideWithin, Shallow, UnixTrails, First;
    var m := EnsureUnix(t, ls).lines;
    var u := TidyStands(t, ls);
    StageOneTrails(t, ls, u);
    if EndsWithUnix(t, ls) {
      TrailingUnixCut(t, m, [], u);
    }
  }

  /** Files with a plugins header, for every template: the exact number of passes. */
  lemma HeaderCount(t: Template, ls: seq<string>, n: nat)
    requires WellFormed(t) && t.unix.Some? && Tidy(t, ls) && |ls| >= 1 && HasPlugins(t, ls) && n >= 1
    ensures Round(t, Readings(t, ls, n)) == Round(t, Readings(t, ls, n - 1)) <==> n >= Depth(t, ls)
  {
    hide WellFormed, EnsureUnix, HasPlugins, Reading, Readings, Tidy, Ready, MarksLeft, Depth, Round;
    var u, i, k := TidyIsReady(t, ls);
    MarksCount(t, ls, u, i, k, n);
  }

  /** And if stage two edits the unix block in the first pass, it does so in every pass. */
  lemma OverlapStays(t: Template, ls: seq<string>, n: nat)
    requires WellFormed(t) && Tidy(t, ls) && |ls| >= 1 && !Disjoint(t, ls)
    ensures !Disjoint(t, Readings(t, ls, n))
  {
    hide WellFormed, EnsureUnix, Reading, Readings, Tidy, Ready, MarksLeft, Depth, WorksBeside;
    OverlapHasHeader(t, ls);
    var u, i, k := TidyIsReady(t, ls);
    var v := AfterReadings(t, ls, u, i, k, n);
  }

  lemma OverlapHasHeader(t: Template, ls: seq<string>)
    requires !Disjoint(t, ls)
    ensures t.unix.Some? && HasPlugins(t, ls)
  {
    hide EnsureUnix, First, Target, Found, IsCommented, KeepsOut;
  }
}
