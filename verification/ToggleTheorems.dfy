/** Toggling and status agree; toggling back restores the file; and the toggler agrees with the
    patcher on what is enabled.  */
module ToggleTheorems {
  import opened Wrappers
  import opened Text
  import opened Comments
  import opened Toggle

  // ----- One mark -----

  /** The line as normalizeKey leaves it carries no further mark. */
  predicate OneMark(l: string) {
    !StartsWithMark(Normalize(l))
  }

  /** All white space on the line is blanks. */
  predicate PlainSpace(l: string) {
    forall c | c in l :: IsSpace(c) ==> IsBlank(c)
  }

  lemma PlainTrim(l: string)
    requires PlainSpace(l)
    ensures StartsWithMark(TrimSpace(l)) <==> IsCommented(l)
  {
    var a, b := TrimSpaceWindow(l);
    if a < b {
      LeadIs(l, a);
    } else {
      assert forall k | 0 <= k < |l| :: IsSpace(l[k]);
      LeadIs(l, |l|);
    }
  }

  lemma OneMarkIsMarks(l: string)
    requires PlainSpace(l)
    ensures OneMark(l) <==> Marks(l) <= 1
  {
    PlainTrim(l);
    if IsCommented(l) {
      UncommentReveals(l);
      var indent, gap, body := Anatomy(l);
      assert forall c | c in Uncomment(l) :: c in l;
      PlainTrim(Uncomment(l));
      assert Marks(l) == 1 + Marks(Uncomment(l));
    }
  }

  // ----- The toggled line is found again -----

  lemma NormalizeIsPart(l: string, sub: string)
    requires Contains(Normalize(l), sub)
    ensures Contains(TrimSpace(l), sub)
  {
    hide TrimSpace, Contains;
    var a, b := StripMarkWindow(TrimSpace(l));
    ContainsWiden(TrimSpace(l), a, b, sub);
  }

  lemma ToggledMatches(l: string, path: string, enable: bool)
    requires Match(l, path) && enable == IsCommented(l)
    requires enable ==> OneMark(l)
    ensures Match(Toggled(l, enable), path) && IsCommented(Toggled(l, enable)) == !enable
  {
    hide Normalize, Contains, Base, TrimSpace, Lead;
    if enable {
      NormalizeUncommented(l);
    } else {
      UncommentOfComment(l);
      forall sub | Contains(Normalize(l), sub) ensures Contains(TrimSpace(l), sub) {
        NormalizeIsPart(l, sub);
      }
    }
  }

  lemma BlankDoesNotMatch(path: string)
    ensures !Match("", path)
  {
    TrimSpaceIs("", 0, 0);
  }

  lemma RereadLength(ls: seq<string>)
    ensures |Reread(ls)| == |Chop(ls)|
  {
  }

  lemma RereadLine(ls: seq<string>, j: nat)
    requires j < |Chop(ls)|
    ensures |Reread(ls)| == |Chop(ls)| && Reread(ls)[j] == DropCR(DropCR(ls[j]))
  {
  }

  /** Rewriting the picked line so that it still matches keeps it the picked line. */
  lemma PickedAgain(ls: seq<string>, m: nat, x: string, path: string)
    requires FirstMatch(ls, path) == m < |ls| && Match(x, path)
    ensures var r := Reread(ls[m := x]);
            m < |r| && FirstMatch(r, path) == m && IsCommented(r[m]) == IsCommented(x)
  {
    hide Match, IsCommented, DropCR, DropCRs, Reread, Normalize;
    BlankDoesNotMatch(path);
    FirstMatchIsFirst(ls, path);
    var out := ls[m := x];
    var r := Reread(out);
    RereadLength(out);
    forall j | 0 <= j <= m
      ensures j < |r| && Match(r[j], path) == Match(out[j], path) && IsCommented(r[j]) == IsCommented(out[j])
    {
      RereadLine(out, j);
      DropCRKeepsMatch(out[j], path);
      DropCRKeepsMatch(DropCR(out[j]), path);
    }
    FirstMatchIs(r, path, m);
  }

  lemma ReadLinesFit(content: string)
    requires ReadLines(content).Ok?
    ensures Fits(ReadLines(content).value)
  {
  }

  lemma DropCRsFit(ls: seq<string>)
    requires Fits(ls)
    ensures Fits(DropCRs(ls))
  {
  }

  lemma RewrittenFits(ls: seq<string>, m: nat, x: string)
    requires Fits(ls) && m < |ls| && x != ""
    ensures Fits(DropCRs(Chop(ls[m := x]))) <==> |DropCR(x)| < MAX_TOKEN
  {
    hide DropCR;
    DropCRsFit(ls);
    var r := DropCRs(Chop(ls[m := x]));
    assert m < |r| && r[m] == DropCR(x);
    assert forall k | 0 <= k < |r| && k != m :: r[k] == DropCRs(ls)[k];
  }

  // ----- Status after a toggle -----

  /** The line a toggle would touch. */
  function Picked(content: string, path: string): (m: nat)
    requires ReadLines(content).Ok?
  {
    FirstMatch(ReadLines(content).value, path)
  }

  /** What the next reading of a replaced file gives: its lines, unless a line longer by the
      comment mark no longer fits the scanner.  */
  lemma ReplacedStatus(content: string, path: string, enable: bool)
    requires Decide(content, path, enable).Ok? && Decide(content, path, enable).value.Replace?
    ensures ReadLines(content).Ok?
    ensures var ls, m := ReadLines(content).value, Picked(content, path);
            m < |ls| && Match(ls[m], path) && enable == IsCommented(ls[m])
    ensures var ls, m := ReadLines(content).value, Picked(content, path);
            var x := Toggled(ls[m], enable);
            ReadLines(Decide(content, path, enable).value.bytes)
            == if |DropCR(x)| < MAX_TOKEN then Ok(Reread(ls[m := x])) else Err(LineTooLong)
  {
    hide Match, IsCommented, Uncomment, Comment, Written, Reread, Tokens, DropCR, DropCRs, Chop, NoNewline, Fits;
    var ls, m := ReadLines(content).value, Picked(content, path);
    FirstMatchIsFirst(ls, path);
    ReadIsPlain(content);
    ReadLinesFit(content);
    hide ReadLines;
    CommentsKeepLine(ls[m]);
    var x := Toggled(ls[m], enable);
    ToggledIsText(ls[m], path, enable);
    ReadWritten(ls[m := x]);
    RewrittenFits(ls, m, x);
  }

  lemma ToggledIsText(l: string, path: string, enable: bool)
    requires Match(l, path)
    ensures Toggled(l, enable) != ""
  {
    hide Normalize, Lead, Base;
    NormalizeContains(l, "-");
    UncommentContains(l, "-");
    if Toggled(l, enable) == "" {
      var i := Occurrence(if enable then Uncomment(l) else l, "-");
    }
  }

  /** After a toggle that rewrote the file, status reports the requested state at the same line,
      exactly when the line carried at most one mark or was being disabled, and still fits the
      scanner.  Enabling a line with more marks writes the file, answers "enabled", and leaves
      the line commented; disabling a line of nearly 64 KB writes a file that cannot be read.  */
  lemma StatusAfterToggle(content: string, path: string, enable: bool)
    requires Decide(content, path, enable).Ok? && Decide(content, path, enable).value.Replace?
    requires Solid(Base(path)) || PlainSpace(ReadLines(content).value[Picked(content, path)])
    ensures var l := ReadLines(content).value[Picked(content, path)];
            Status(Decide(content, path, enable).value.bytes, path) == Ok((Picked(content, path), enable))
            <==> (enable ==> Marks(l) <= 1) && |DropCR(Toggled(l, enable))| < MAX_TOKEN
  {
    hide Match, Comment, Written, Reread, ReadLines, Normalize, PlainSpace, Lead, Decide, DropCR, Base, Solid;
    ReplacedStatus(content, path, enable);
    var ls, m := ReadLines(content).value, Picked(content, path);
    var l, x := ls[m], Toggled(ls[m], enable);
    if Solid(Base(path)) {
      AnyToggledMatches(l, path, enable);
      PickedAgain(ls, m, x, path);
    } else {
      OneMarkIsMarks(l);
      hide OneMark;
      if enable ==> Marks(l) <= 1 {
        ToggledMatches(l, path, enable);
        PickedAgain(ls, m, x, path);
      } else {
        TwiceMarkedStaysOff(ls, m, path);
      }
    }
  }

  /** For a usual path a toggled line matches, whatever marks are left on it. */
  lemma AnyToggledMatches(l: string, path: string, enable: bool)
    requires Match(l, path) && enable == IsCommented(l) && Solid(Base(path))
    ensures var x := Toggled(l, enable);
            Match(x, path) && (IsCommented(x) == !enable <==> (enable ==> Marks(l) <= 1))
  {
    hide Match, Base, Solid, Uncomment, Comment, IsCommented;
    if enable {
      UncommentKeepsMatch(l, path);
      assert Marks(l) == 1 + Marks(Uncomment(l));
    } else {
      ToggledMatches(l, path, false);
    }
  }

  lemma TwiceMarkedStaysOff(ls: seq<string>, m: nat, path: string)
    requires m < |ls| && Marks(ls[m]) >= 2
    ensures var r := Reread(ls[m := Uncomment(ls[m])]);
            m < |r| ==> IsCommented(r[m])
  {
    hide DropCR, DropCRs, Reread, Normalize, Uncomment, Lead, Match;
    var out := ls[m := Uncomment(ls[m])];
    assert Marks(ls[m]) == 1 + Marks(Uncomment(ls[m]));
    if m < |Reread(out)| {
      RereadLength(out);
      RereadLine(out, m);
      DropCRKeepsMatch(out[m], path);
      DropCRKeepsMatch(DropCR(out[m]), path);
    }
  }

  lemma KeepMeans(content: string, ls: seq<string>, path: string, enable: bool)
    requires ReadLines(content) == Ok(ls)
    ensures Decide(content, path, enable) == Ok(Keep)
            <==> FirstMatch(ls, path) < |ls| && IsCommented(ls[FirstMatch(ls, path)]) == !enable
  {
    hide ReadLines, FirstMatch, IsCommented, Written;
  }

  /** Toggling again the same way keeps the file exactly when status reports the requested state:
      for a usual path, if there was at most one mark to remove and the line still fits.  */
  lemma ToggleTwice(content: string, path: string, enable: bool)
    requires Decide(content, path, enable).Ok? && Decide(content, path, enable).value.Replace?
    requires Solid(Base(path))
    ensures var l := ReadLines(content).value[Picked(content, path)];
            Decide(Decide(content, path, enable).value.bytes, path, enable) == Ok(Keep)
            <==> (enable ==> Marks(l) <= 1) && |DropCR(Toggled(l, enable))| < MAX_TOKEN
  {
    hide Match, Comment, Uncomment, Written, Reread, ReadLines, Normalize, Decide, Lead, DropCR, Base, Solid, IsCommented;
    ReplacedStatus(content, path, enable);
    var ls, m := ReadLines(content).value, Picked(content, path);
    var l, x, d := ls[m], Toggled(ls[m], enable), Decide(content, path, enable).value.bytes;
    AnyToggledMatches(l, path, enable);
    PickedAgain(ls, m, x, path);
    if |DropCR(x)| < MAX_TOKEN {
      KeepMeans(d, Reread(ls[m := x]), path, enable);
    } else {
      UnreadableDecision(d, path, enable);
    }
  }

  /** For any path, if the line carried one mark in the eyes of the matcher. */
  lemma OneMarkSettles(content: string, path: string, enable: bool)
    requires Decide(content, path, enable).Ok? && Decide(content, path, enable).value.Replace?
    requires var l := ReadLines(content).value[Picked(content, path)];
             (enable ==> OneMark(l)) && |DropCR(Toggled(l, enable))| < MAX_TOKEN
    ensures Decide(Decide(content, path, enable).value.bytes, path, enable) == Ok(Keep)
  {
    hide Match, Comment, Uncomment, Written, Reread, ReadLines, Normalize, OneMark, Lead, DropCR, Decide, IsCommented;
    ReplacedStatus(content, path, enable);
    var ls, m := ReadLines(content).value, Picked(content, path);
    ToggledMatches(ls[m], path, enable);
    PickedAgain(ls, m, Toggled(ls[m], enable), path);
    KeepMeans(Decide(content, path, enable).value.bytes, Reread(ls[m := Toggled(ls[m], enable)]), path, enable);
  }

  // ----- Round trip -----

  /** Disabling an active plugin line and enabling it again restores every line as the next
      reading sees it, without a trailing blank line and up to two carriage returns per line;
      only a line too long to be commented cannot be enabled again.  */
  lemma DisableThenEnable(content: string, path: string)
    requires Decide(content, path, false).Ok? && Decide(content, path, false).value.Replace?
    ensures var ls := ReadLines(content).value;
            Decide(Decide(content, path, false).value.bytes, path, true)
            == if |DropCR(Comment(ls[Picked(content, path)]))| < MAX_TOKEN then Ok(Replace(Written(Reread(ls))))
               else Err(LineTooLong)
  {
    hide Match, ReadLines, Decide, Normalize, OneMark, Lead, DropCR, Written, Chop, Reread, Comment, Uncomment, IsCommented;
    ReplacedStatus(content, path, false);
    var ls, m := ReadLines(content).value, Picked(content, path);
    var l, d := ls[m], Decide(content, path, false).value.bytes;
    ToggledMatches(l, path, false);
    PickedAgain(ls, m, Comment(l), path);
    BlankDoesNotMatch(path);
    RereadRestored(ls, m);
    if |DropCR(Comment(l))| < MAX_TOKEN {
      DecideOn(d, Reread(ls[m := Comment(l)]), m, path, true);
    } else {
      UnreadableDecision(d, path, true);
    }
  }

  /** Uncommenting the commented line of the next reading gives that line of the reading. */
  lemma RereadRestored(ls: seq<string>, m: nat)
    requires m < |ls| && ls[m] != "" && !IsCommented(ls[m])
    ensures var r := Reread(ls[m := Comment(ls[m])]);
            m < |r| && r[m := Uncomment(r[m])] == Reread(ls)
  {
    hide DropCR, Comment, Uncomment, IsCommented, Chop, DropCRs, Reread;
    var l, out := ls[m], ls[m := Comment(ls[m])];
    UncommentOfComment(l);
    CommentIsText(l);
    ChopUpdate(ls, m, Comment(l));
    CommentOfDropCR(l);
    DropCRKeepsIndent(l);
    CommentOfDropCR(DropCR(l));
    DropCRKeepsIndent(DropCR(l));
    UncommentOfComment(DropCR(DropCR(l)));
    RereadLength(out);
    RereadLength(ls);
    forall j | 0 <= j < |Reread(out)|
      ensures j < |Reread(ls)| && Reread(out)[m := Uncomment(Reread(out)[m])][j] == Reread(ls)[j]
    {
      RereadLine(out, j);
      RereadLine(ls, j);
    }
  }

  lemma CommentIsText(l: string)
    requires !IsCommented(l)
    ensures Comment(l) != ""
  {
    hide Lead;
  }

  lemma UnreadableDecision(content: string, path: string, enable: bool)
    requires ReadLines(content) == Err(LineTooLong)
    ensures Decide(content, path, enable) == Err(LineTooLong)
  {
  }

  lemma ChopUpdate(ls: seq<string>, m: nat, x: string)
    requires m < |ls| && ls[m] != "" && x != ""
    ensures m < |Chop(ls[m := x])| && Chop(ls[m := x])[m] == x
    ensures |Chop(ls[m := x])| == |Chop(ls)| && m < |Chop(ls)| && Chop(ls[m := x])[m := ls[m]] == Chop(ls)
  {
  }

  lemma DecideOn(content: string, ls: seq<string>, m: nat, path: string, enable: bool)
    requires ReadLines(content) == Ok(ls) && FirstMatch(ls, path) == m < |ls| && enable == IsCommented(ls[m])
    ensures Decide(content, path, enable) == Ok(Replace(Written(ls[m := Toggled(ls[m], enable)])))
  {
    hide Match, ReadLines, Written, Toggled;
  }

  /** The bytes come back, up to newline folding and the final newline, exactly when the file
      had no trailing blank line and no carriage return at the end of a line.  */
  lemma RoundTripBytes(content: string)
    requires ReadLines(content).Ok? && ReadLines(content).value != []
    ensures var ls := ReadLines(content).value;
            Written(Reread(ls)) == Terminate(Fold(content)) <==> NoneEndsInCR(Tokens(Fold(content))) && Chop(ls) == ls
  {
    var raw, ls := Tokens(Fold(content)), ReadLines(content).value;
    assert ls == DropCRs(raw);
    hide ReadLines, Fold, Split, Tokens, Terminate, Join, Chop, DropCRs, Reread, NoneEndsInCR, AllNoNewline, Close;
    TokensTerminated(Fold(content));
    TokensAreLines(Fold(content));
    RereadIsLines(ls);
    TerminateOfJoin(Reread(ls));
    ClosedReread(raw);
    if Written(Reread(ls)) == Terminate(Fold(content)) {
      RawIsLines(raw);
      JoinInjective(Close(Reread(ls)), raw + [""]);
    }
  }

  lemma RawIsLines(raw: seq<string>)
    requires AllNoNewline(raw)
    ensures AllNoNewline(raw + [""])
  {
  }

  lemma RereadIsLines(ls: seq<string>)
    requires AllNoNewline(ls) && ls != []
    ensures AllNoNewline(Reread(ls)) && |Reread(ls)| >= 1 && AllNoNewline(Close(Reread(ls)))
  {
  }

  lemma ClosedReread(raw: seq<string>)
    requires raw != []
    ensures |Reread(DropCRs(raw))| >= 1
    ensures Close(Reread(DropCRs(raw))) == raw + [""] <==> NoneEndsInCR(raw) && Chop(DropCRs(raw)) == DropCRs(raw)
  {
    hide DropCRs, DropCR, EndsInCR;
    var ls := DropCRs(raw);
    var r := Reread(ls);
    forall k | 0 <= k < |r|
      ensures k < |raw| && r[k] == DropCR(DropCR(DropCR(raw[k])))
      ensures r[k] == raw[k] <==> !EndsInCR(raw[k])
    {
      RereadLine(ls, k);
      ThreeDrops(raw[k]);
    }
    assert Close(r) == raw + [""] ==> |r| == |raw|;
    assert |r| == |raw| ==> Chop(ls) == ls;
    assert Close(r) == raw + [""] ==> forall k | 0 <= k < |raw| :: Close(r)[k] == raw[k];
    if NoneEndsInCR(raw) && Chop(ls) == ls {
      RereadLength(ls);
      assert r == raw;
      NoCRsDropped(raw);
    }
  }

  lemma NoCRsDropped(raw: seq<string>)
    requires NoneEndsInCR(raw)
    ensures DropCRs(raw) == raw
  {
  }

  lemma ThreeDrops(l: string)
    ensures DropCR(DropCR(DropCR(l))) == l <==> !EndsInCR(l)
  {
  }

  lemma TokensTerminated(s: string)
    requires Tokens(s) != []
    ensures Terminate(s) == Join(Tokens(s) + [""])
  {
    hide Terminate, Join, Split;
    JoinOfSplit(s);
    TerminateOfJoin(Split(s));
    var ls := Split(s);
    if ls[|ls| - 1] == "" {
      assert Tokens(s) + [""] == ls;
    } else {
      assert Tokens(s) == ls;
    }
  }
}
