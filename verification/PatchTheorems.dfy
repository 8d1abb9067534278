/** The patcher's main results on bytes: how many passes a file needs, when a pass reports a
    change, and for which files it reports one forever.  */
module PatchTheorems {
  import opened Wrappers
  import opened Text
  import opened Comments
  import opened Blocks
  import opened PatchSpec
  import opened PatchConvergence
  import opened PatchFrame
  import opened PatchTails
  import opened PatchReadings
  import opened PatchOverlap
  import opened PatchPasses
  import opened PatchDelay
  import opened PatchUntidy

  // ----- Bytes -----

  /** The file's bytes after n passes. */
  function PatchTimes(t: Template, current: string, n: nat): string {
    if n == 0 then current else PatchBytes(t, PatchTimes(t, current, n - 1)).bytes
  }

  /** One pass on bytes and on lines. */
  lemma PassOnBytes(t: Template, current: string)
    requires WellFormed(t)
    ensures var ls, bytes := SplitLines(current), PatchBytes(t, current).bytes;
            && bytes == Join(Round(t, ls)) && SplitLines(bytes) == Reading(t, ls)
            && AllNoNewline(Round(t, ls))
  {
    hide WellFormed, PatchLines, SplitLines, Join, Terminate, Close, FoldLines, AllNoNewline;
    var out := PatchLines(t, SplitLines(current)).lines;
    PassIsLines(t, SplitLines(current));
    CloseIsPlain(out);
    TerminateOfJoin(out);
    SplitLinesOfWritten(out);
  }

  /** Passes over the bytes are passes over the lines that are read from them. */
  lemma {:induction false} BytesAndLines(t: Template, current: string, n: nat)
    requires WellFormed(t)
    ensures SplitLines(PatchTimes(t, current, n)) == Readings(t, SplitLines(current), n)
    ensures n >= 1 ==> PatchTimes(t, current, n) == Join(Round(t, Readings(t, SplitLines(current), n - 1)))
    ensures n >= 1 ==> AllNoNewline(Round(t, Readings(t, SplitLines(current), n - 1)))
  {
    hide WellFormed, SplitLines, Join, Round, Reading, PatchBytes;
    if n > 0 {
      BytesAndLines(t, current, n - 1);
      PassOnBytes(t, PatchTimes(t, current, n - 1));
    }
  }

  lemma SameBytes(t: Template, current: string, n: nat)
    requires WellFormed(t) && n >= 1
    ensures var ls := SplitLines(current);
            PatchTimes(t, current, n + 1) == PatchTimes(t, current, n)
            <==> Round(t, Readings(t, ls, n)) == Round(t, Readings(t, ls, n - 1))
  {
    hide WellFormed, SplitLines, Join, Reading, PatchBytes, PatchLines, Readings, PatchTimes, Close;
    BytesAndLines(t, current, n);
    BytesAndLines(t, current, n + 1);
    var ls := SplitLines(current);
    if PatchTimes(t, current, n + 1) == PatchTimes(t, current, n) {
      JoinInjective(Round(t, Readings(t, ls, n)), Round(t, Readings(t, ls, n - 1)));
    }
  }

  // ----- Repeated patching -----

  /** How many passes a tidy file needs until its bytes no longer change. */
  function Settling(t: Template, ls: seq<string>): (n: nat)
    ensures n >= 1
  {
    if HasPlugins(t, ls) then (if Depth(t, ls) > 1 then Depth(t, ls) else 1)
    else if t.indent <= 1 && !EndsWithUnix(t, ls) then 1 else 2
  }

  /** How many passes any file needs. */
  function PassesNeeded(t: Template, ls: seq<string>): (n: nat)
    requires WellFormed(t)
    ensures n >= 1
  {
    if Regrows(t, ls) then 1 else Delay(t, ls) + Settling(t, Tidied(t, ls))
  }

  /** Every pass over such a tidy file reports a change, whatever the bytes do: the template ends
      a line of its unix section with a carriage return, stage two edits the unix block, or the
      block is the end of the file.  */
  predicate NeverQuiet(t: Template, ls: seq<string>) {
    !CleanTemplate(t) || !Disjoint(t, ls) || (HasPlugins(t, ls) && Trails(t, ls))
  }

  /** What the patcher reads from the template's bytes. */
  predicate Parses(template: string, t: Template): (p: bool)
    ensures p ==> WellFormed(t)
  {
    hide ParseTemplate, WellFormed, SplitLines;
    var r := ParseTemplate(SplitLines(template));
    r == Ok(t) && (ParsedIsWellFormed(SplitLines(template)); true)
  }

  lemma PatchIsParsed(template: string, t: Template, current: string)
    requires Parses(template, t)
    ensures Patch(template, current) == Ok(PatchBytes(t, current))
  {
    hide ParseTemplate, PatchBytes, SplitLines, WellFormed;
  }

  lemma TidyRepeats(t: Template, ls: seq<string>, n: nat)
    requires WellFormed(t) && Shallow(t, ls) && Disjoint(t, ls) && |ls| >= 1 && n >= 1
    ensures Rounds(t, ls, n + 1) == Rounds(t, ls, n) <==> n >= Settling(t, ls)
    ensures PatchLines(t, Rounds(t, ls, n)).changed <==> n < Settling(t, ls) || (HasPlugins(t, ls) && Trails(t, ls))
  {
    hide WellFormed, Shallow, Disjoint, PatchLines, HasPlugins, Depth, EndsWithUnix, Trails, Rounds;
    if HasPlugins(t, ls) {
      FixpointWithPlugins(t, ls, n);
    } else {
      FixpointWithoutPlugins(t, ls, n);
    }
  }

  lemma NextRounds(t: Template, ls: seq<string>, n: nat)
    requires n >= 1
    ensures Round(t, Rounds(t, ls, n)) == Rounds(t, ls, n + 1) && Round(t, Rounds(t, ls, n - 1)) == Rounds(t, ls, n)
  {
    hide Round;
  }

  lemma NoUnixIsDisjoint(t: Template, ls: seq<string>)
    requires t.unix.None?
    ensures CleanTemplate(t) && Disjoint(t, ls)
  {
    hide EnsureUnix, First, Target, Found;
  }

  /** Tidy files: pass n + 1 repeats pass n from Settling on and not before. */
  lemma TidyLinesRepeat(t: Template, ls: seq<string>, n: nat)
    requires WellFormed(t) && Tidy(t, ls) && |ls| >= 1 && n >= 1
    ensures Round(t, Readings(t, ls, n)) == Round(t, Readings(t, ls, n - 1)) <==> n >= Settling(t, ls)
  {
    hide WellFormed, Round, Readings, Rounds, HasPlugins, Depth, EndsWithUnix, CleanTemplate, Disjoint, Outside, NoneEndsInCR,
         Shallow, PatchLines;
    if t.unix.None? {
      NoUnixIsDisjoint(t, ls);
      TidyRounds(t, ls, n);
      TidyRounds(t, ls, n - 1);
      TidyRepeats(t, ls, n);
      NextRounds(t, ls, n);
    } else if HasPlugins(t, ls) {
      HeaderCount(t, ls, n);
    } else {
      SectionCount(t, ls, n);
    }
  }

  /** And which passes after the first report a change. */
  lemma TidyReports(t: Template, ls: seq<string>, n: nat)
    requires WellFormed(t) && Tidy(t, ls) && |ls| >= 1 && n >= 1
    ensures PatchLines(t, Readings(t, ls, n)).changed <==> n < Settling(t, ls) || NeverQuiet(t, ls)
  {
    hide WellFormed, Reading, Rounds, HasPlugins, CleanTemplate, Disjoint, Outside, NoneEndsInCR, Shallow,
         PatchLines, Settling, Trails, Displaced;
    var before := Readings(t, ls, n - 1);
    if !CleanTemplate(t) {
      DirtyIsDisplaced(t, before);
      DisplacedIsReported(t, Reading(t, before));
    } else if !Disjoint(t, ls) {
      OverlapStays(t, ls, n - 1);
      OverlapReports(t, before);
      DisplacedIsReported(t, Reading(t, before));
    } else {
      TidyRounds(t, ls, n);
      TidyRepeats(t, ls, n);
    }
  }

  lemma DirtyIsDisplaced(t: Template, ls: seq<string>)
    requires WellFormed(t) && !CleanTemplate(t)
    ensures Displaced(t, Reading(t, ls))
  {
    hide WellFormed, Disjoint, Reading, Displaced;
    if Disjoint(t, ls) {
      DirtyReading(t, ls);
    } else {
      OverlapReports(t, ls);
    }
  }

  lemma DisplacedIsReported(t: Template, ls: seq<string>)
    requires Displaced(t, ls)
    ensures PatchLines(t, ls).changed
  {
    hide EnsureUnix, EnsurePlugin, Displaced;
    DisplacedReports(t, ls);
  }

  lemma FirstReadings(t: Template, ls: seq<string>)
    ensures Readings(t, ls, 0) == ls && Readings(t, ls, 1) == Reading(t, ls)
  {
    hide Reading;
    assert Readings(t, ls, 0) == ls;
  }

  /** Over an untidy file the second pass writes something else than the first, but for one shape. */
  lemma UntidyMoves(t: Template, ls: seq<string>)
    requires WellFormed(t) && |ls| >= 1 && !Tidy(t, ls)
    ensures Round(t, Reading(t, ls)) == Round(t, ls) <==> Regrows(t, ls)
  {
    hide WellFormed, Outside, NoneEndsInCR, Reading, Round, EnsureUnix, First, EntryAt;
    if t.unix.Some? {
      UntidyRepeats(t, ls);
    } else {
      NoUnixIsDisjoint(t, ls);
      TailsDiffer(t, ls);
    }
  }

  lemma {:induction false} OnceRepeated(t: Template, ls: seq<string>, n: nat)
    requires Round(t, Reading(t, ls)) == Round(t, ls) && n >= 1
    ensures Readings(t, ls, n) == Reading(t, ls) && Round(t, Readings(t, ls, n)) == Round(t, Readings(t, ls, n - 1))
  {
    hide Round;
    FirstReadings(t, ls);
    if n > 1 {
      OnceRepeated(t, ls, n - 1);
      assert Readings(t, ls, n) == Reading(t, Reading(t, ls)) == FoldLines(Round(t, Reading(t, ls)));
    }
  }

  lemma ShallowNeverRegrows(t: Template, ls: seq<string>)
    requires WellFormed(t) && |ls| >= 1 && Shallow(t, ls)
    ensures !Regrows(t, ls)
  {
    hide WellFormed, Shallow, Outside, EnsureUnix, First, EntryAt, NoneEndsInCR;
    if Regrows(t, ls) {
      RegrowsIsDeep(t, ls);
      assert false;
    }
  }

  /** Pass n + 1 repeats pass n, on lines, exactly from PassesNeeded on. */
  lemma {:induction false} LinesRepeat(t: Template, ls: seq<string>, n: nat)
    requires WellFormed(t) && |ls| >= 1 && n >= 1
    ensures Round(t, Readings(t, ls, n)) == Round(t, Readings(t, ls, n - 1)) <==> n >= PassesNeeded(t, ls)
    decreases n
  {
    hide WellFormed, Shallow, NoneEndsInCR, Outside, Round, Reading, Readings, Delay, Tidied, Settling, Regrows;
    if Tidy(t, ls) {
      TidyNow(t, ls);
      ShallowNeverRegrows(t, ls);
      TidyLinesRepeat(t, ls, n);
    } else {
      TidyLater(t, ls);
      FirstReadings(t, ls);
      UntidyMoves(t, ls);
      if Regrows(t, ls) {
        OnceRepeated(t, ls, n);
      } else if n > 1 {
        ReadingIsShallow(t, ls);
        ShallowNeverRegrows(t, Reading(t, ls));
        LinesRepeat(t, Reading(t, ls), n - 1);
        ReadingsShift(t, ls, n - 1);
        ReadingsShift(t, ls, n - 2);
      }
    }
  }

  lemma PassesAfterDelay(t: Template, ls: seq<string>, n: nat)
    requires WellFormed(t) && |ls| >= 1 && n > Delay(t, ls)
    ensures n >= PassesNeeded(t, ls) <==> n - Delay(t, ls) >= Settling(t, Tidied(t, ls))
  {
    hide WellFormed, Tidy, Round, Reading, Readings, Delay, Tidied, PassesNeeded, Settling;
    LinesRepeat(t, ls, n);
    AfterDelay(t, ls, n);
    AfterDelay(t, ls, n - 1);
    TidyLinesRepeat(t, Tidied(t, ls), n - Delay(t, ls));
  }

  /** Convergence, exactly, for every template and every file: pass n + 1 repeats the bytes of pass
      n from PassesNeeded on and not before; and once the file is tidy, a pass reports no change
      from there on too, unless the file is one that never goes quiet.  */
  lemma PatchConverges(template: string, t: Template, current: string, n: nat)
    requires Parses(template, t) && n >= 1
    ensures var ls := SplitLines(current);
            && (PatchTimes(t, current, n + 1) == PatchTimes(t, current, n) <==> n >= PassesNeeded(t, ls))
            && (n > Delay(t, ls) ==>
                  (PatchBytes(t, PatchTimes(t, current, n)).changed
                   <==> n < PassesNeeded(t, ls) || NeverQuiet(t, Tidied(t, ls))))
  {
    hide WellFormed, Shallow, NoneEndsInCR, Outside, Round, Reading, Readings, Delay, Tidied, PassesNeeded,
         Settling, SplitLines, PatchTimes, NeverQuiet, PatchLines, Parses, Join, Terminate;
    var ls := SplitLines(current);
    SameBytes(t, current, n);
    LinesRepeat(t, ls, n);
    if n > Delay(t, ls) {
      BytesAndLines(t, current, n);
      AfterDelay(t, ls, n);
      PassesAfterDelay(t, ls, n);
      TidyReports(t, Tidied(t, ls), n - Delay(t, ls));
    }
  }

  /** A bound that can be read off the file: the carriage returns on a line that stage one keeps,
      one pass for a deep line behind the unix block, and the marks on the plugin line.  */
  lemma PassesBound(t: Template, ls: seq<string>)
    requires WellFormed(t)
    ensures var deep, last := if Shallow(t, ls) then 0 else 1, Tidied(t, ls);
            PassesNeeded(t, ls) <= MaxTail(Outside(t, ls)) + deep
                                   + if HasPlugins(t, last) && Depth(t, last) > 2 then Depth(t, last) else 2
  {
    hide WellFormed, Shallow, Outside, Tidied, Delay, MaxTail, HasPlugins, Depth, EndsWithUnix, Regrows;
    DelayBound(t, ls);
  }

  /** Whether the second pass over a tidy file reports a change. */
  lemma SecondReport(t: Template, current: string)
    requires WellFormed(t) && Tidy(t, SplitLines(current))
    ensures var ls := SplitLines(current);
            PatchBytes(t, PatchBytes(t, current).bytes).changed <==> !(Settling(t, ls) == 1 && !NeverQuiet(t, ls))
  {
    hide WellFormed, SplitLines, PatchLines, Reading, Join, Terminate, Round, Tidy, Settling, NeverQuiet;
    PassOnBytes(t, current);
    FirstReadings(t, SplitLines(current));
    TidyReports(t, SplitLines(current), 1);
  }

  /** With a carriage return at the end of a line of its unix block a template is never satisfied:
      the file's copy of that line has lost one when it is read.  */
  lemma DirtyTemplateReports(t: Template, current: string)
    requires WellFormed(t) && !CleanTemplate(t)
    ensures PatchBytes(t, PatchBytes(t, current).bytes).changed
  {
    hide WellFormed, SplitLines, PatchLines, Reading, Join, Terminate, CleanTemplate, Displaced, Round;
    PassOnBytes(t, current);
    DirtyIsDisplaced(t, SplitLines(current));
    DisplacedIsReported(t, Reading(t, SplitLines(current)));
  }

  /** Where stage two edits the unix block, stage one of the next pass puts it back. */
  lemma OverlapNeverQuiet(t: Template, current: string)
    requires WellFormed(t) && !Disjoint(t, SplitLines(current))
    ensures PatchBytes(t, PatchBytes(t, current).bytes).changed
  {
    hide WellFormed, SplitLines, PatchLines, Disjoint, Reading, Join, Terminate, Displaced, Round;
    PassOnBytes(t, current);
    OverlapReports(t, SplitLines(current));
    DisplacedIsReported(t, Reading(t, SplitLines(current)));
  }

  /** A second pass over a file that was not tidy writes other bytes or reports a change. */
  lemma UntidyIsNotDone(t: Template, current: string)
    requires WellFormed(t) && CleanTemplate(t) && Disjoint(t, SplitLines(current)) && !Tidy(t, SplitLines(current))
    ensures var once := PatchBytes(t, current).bytes; PatchBytes(t, once) != Patched(once, false)
  {
    hide WellFormed, SplitLines, PatchLines, Disjoint, Reading, Round, Join, Terminate,
         CleanTemplate, NoneEndsInCR, Outside, Shallow, Grown, AllNoNewline, Displaced;
    var ls := SplitLines(current);
    var once := PatchBytes(t, current).bytes;
    PassOnBytes(t, current);
    PassOnBytes(t, once);
    if NoneEndsInCR(Outside(t, ls)) {
      TidyPass(t, ls);
      var v := DeepFileGrows(t, ls);
      GrownReports(t, Round(t, ls), v);
      DisplacedIsReported(t, Reading(t, ls));
    } else {
      TailsDiffer(t, ls);
      if PatchBytes(t, once).bytes == once {
        JoinInjective(Round(t, Reading(t, ls)), Round(t, ls));
      }
    }
  }

  /** For every template and every file: a second patch returns the same bytes and reports no
      change exactly when the file is tidy, one pass is enough, and the file is not one that never
      goes quiet.  */
  lemma PatchIsIdempotent(template: string, t: Template, current: string)
    requires Parses(template, t)
    ensures var once, ls := PatchBytes(t, current).bytes, SplitLines(current);
            PatchBytes(t, once) == Patched(once, false) <==> Tidy(t, ls) && Settling(t, ls) == 1 && !NeverQuiet(t, ls)
  {
    hide WellFormed, CleanTemplate, Disjoint, Tidied, Delay, Tidy, Settling, SplitLines, HasPlugins, Trails, PatchBytes, Parses,
         Regrows;
    var ls := SplitLines(current);
    if !CleanTemplate(t) {
      DirtyTemplateReports(t, current);
    } else if !Disjoint(t, ls) {
      OverlapNeverQuiet(t, current);
    } else if !Tidy(t, ls) {
      UntidyIsNotDone(t, current);
    } else {
      TidyNow(t, ls);
      TidyNeverRegrows(t, ls);
      PatchConverges(template, t, current, 1);
      assert PatchTimes(t, current, 0) == current;
      assert PatchTimes(t, current, 1) == PatchBytes(t, current).bytes;
      assert PatchTimes(t, current, 2) == PatchBytes(t, PatchTimes(t, current, 1)).bytes;
    }
  }

  lemma TidyNeverRegrows(t: Template, ls: seq<string>)
    requires WellFormed(t) && |ls| >= 1 && Tidy(t, ls)
    ensures !Regrows(t, ls)
  {
    hide WellFormed, Shallow, Outside, NoneEndsInCR, Regrows;
    ShallowNeverRegrows(t, ls);
  }

  // ----- Stage one alone, and why the condition on the file is there -----

  /** Repeating stage one changes nothing exactly when the line behind the file's unix block is
      not indented deeper than the template's header; otherwise the second run takes that line,
      which the first had kept, for a part of the block and deletes it.  */
  lemma StageOneIdempotent(t: Template, ls: seq<string>)
    requires WellFormed(t) && t.unix.Some? && |ls| >= 1
    ensures var m := EnsureUnix(t, ls).lines;
            EnsureUnix(t, m).lines == m <==> Shallow(t, ls)
  {
    var m := EnsureUnix(t, ls).lines;
    if Shallow(t, ls) {
      var u := EnsureUnixPlaces(t, ls);
      EnsureUnixStable(t, m, u);
    } else {
      SwallowedLine(t, ls);
    }
  }

  lemma SwallowedLine(t: Template, ls: seq<string>)
    requires WellFormed(t) && t.unix.Some? && |ls| >= 1 && !Shallow(t, ls)
    ensures var m := EnsureUnix(t, ls).lines; |EnsureUnix(t, m).lines| < |m|
  {
    hide Normalize, Lead, Has;
    var block := t.unix.value;
    var i := First(ls, 0, Header(UNIX));
    var e := BlockEnd(ls, i);
    var m := EnsureUnix(t, ls).lines;
    assert m == ls[..i] + block + ls[e..];
    FirstIs(m, 0, Header(UNIX), i);
    assert forall j | i <= j < i + |block| :: m[j] == block[j - i];
    assert m[i + |block|] == ls[e];
    assert BlockEnd(m, i) > i + |block|;
  }

  /** Headers at the margin, the usual layout, meet both conditions. */
  lemma MarginIsShallow(t: Template, ls: seq<string>)
    requires WellFormed(t)
    requires forall k | 0 <= k < |ls| :: Normalize(ls[k]) == UNIX ==> Lead(ls[k]) == 0
    ensures Shallow(t, ls)
  {
    hide Normalize, Lead, Has, WellFormed;
    var i := First(ls, 0, Header(UNIX));
    if i < |ls| {
      var e := BlockEnd(ls, i);
      assert e < |ls| ==> !InBlock(ls[e], 0);
    }
  }
}
