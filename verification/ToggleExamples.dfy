/** Concrete inputs on which the toggler and the handlers do less than one might expect of them. */
module ToggleExamples {
  import opened Wrappers
  import opened Text
  import opened Comments
  import opened PatchSpec
  import opened Toggle
  import opened ToggleTheorems
  import opened ToggleVersions
  import opened Disk
  import opened Host
  import HostRuns

  // ----- An answer that is not so -----

  const ACTIVE := "- " + NDPI
  const OFF := "# " + ACTIVE
  const OFF_TWICE := "# " + OFF

  lemma MarkInFront(rest: string)
    requires rest != "" && !IsBlank(rest[0])
    ensures IsCommented("# " + rest) && Uncomment("# " + rest) == rest
  {
    var l := "# " + rest;
    LeadIs(l, 0);
    assert l[1..] == " " + rest;
    LeadIs(" " + rest, 1);
  }

  lemma OffLines()
    ensures Uncomment(OFF_TWICE) == OFF && IsCommented(OFF_TWICE) && IsCommented(OFF)
  {
    hide IsCommented, Uncomment;
    MarkInFront(ACTIVE);
    MarkInFront(OFF);
  }

  lemma OffIsShort(l: string)
    requires l == OFF_TWICE || l == OFF
    ensures NoNewline(l) && !EndsInCR(l) && 0 < |l| < MAX_TOKEN
  {
    assert NoNewline(ACTIVE);
  }

  lemma OffMatches(l: string)
    requires l == OFF_TWICE || l == OFF
    ensures Match(l, NDPI)
  {
    hide Normalize, Contains, Base;
    var n := |l| - |ACTIVE|;
    assert l[n..n + 1] == "-" && l[n + 2..n + 2 + |NDPI|] == NDPI;
    OccursAt(l, n, "-");
    OccursAt(l, n + 2, NDPI);
    NormalizeContains(l, "-");
    NormalizeContains(l, NDPI);
  }

  lemma OneLineRead(l: string)
    requires NoNewline(l) && !EndsInCR(l) && 0 < |l| < MAX_TOKEN
    ensures ReadLines(Written([l])) == Ok([l])
  {
    hide ReadLines, Written;
    ReadWritten([l]);
    RereadPlain([l]);
  }

  /** Enabling a line with two marks writes the file and answers "enabled"; status says it is not. */
  lemma TwoMarksExample()
    ensures Decide(Written([OFF_TWICE]), NDPI, true) == Ok(Replace(Written([OFF])))
    ensures Status(Written([OFF]), NDPI) == Ok((0, false))
  {
    hide Match, ReadLines, Written, IsCommented, Uncomment, OFF, OFF_TWICE, NoNewline, EndsInCR;
    OffLines();
    OffIsShort(OFF_TWICE);
    OffIsShort(OFF);
    OffMatches(OFF_TWICE);
    OffMatches(OFF);
    OneLineRead(OFF_TWICE);
    OneLineRead(OFF);
    assert [OFF_TWICE][0 := OFF] == [OFF];
  }

  // ----- A file that can no longer be read -----

  function Long(): (l: string)
    ensures |l| == MAX_TOKEN - 1
  {
    ACTIVE + seq(MAX_TOKEN - 1 - |ACTIVE|, _ => 'x')
  }

  lemma LongLine()
    ensures !IsCommented(Long()) && NoNewline(Long()) && !EndsInCR(Long()) && Match(Long(), NDPI)
  {
    hide Normalize, Contains, Base;
    var l := Long();
    LeadIs(l, 0);
    assert NoNewline(ACTIVE);
    assert l[..1] == "-" && l[2..2 + |NDPI|] == NDPI;
    OccursAt(l, 0, "-");
    OccursAt(l, 2, NDPI);
    NormalizeContains(l, "-");
    NormalizeContains(l, NDPI);
  }

  lemma CommentedLong()
    ensures var c := Comment(Long());
            NoNewline(c) && !EndsInCR(c) && |c| == MAX_TOKEN + 1
  {
    hide Long;
    LongLine();
    CommentsKeepLine(Long());
    CommentsKeepCR(Long());
  }

  lemma OneLineTooLong(c: string)
    requires NoNewline(c) && !EndsInCR(c) && |c| >= MAX_TOKEN
    ensures ReadLines(Written([c])) == Err(LineTooLong)
  {
    hide ReadLines, Written;
    ReadWritten([c]);
    RereadPlain([c]);
    assert Chop([c])[0] == c;
  }

  /** Disabling a plugin line that just fits the scanner writes one that does not. */
  lemma LongLineExample()
    ensures Decide(Written([Long()]), NDPI, false) == Ok(Replace(Written([Comment(Long())])))
    ensures Status(Written([Comment(Long())]), NDPI) == Err(LineTooLong)
  {
    hide Match, ReadLines, Written, IsCommented, Comment, Long, NoNewline, EndsInCR;
    LongLine();
    CommentedLong();
    OneLineRead(Long());
    OneLineTooLong(Comment(Long()));
    assert [Long()][0 := Comment(Long())] == [Comment(Long())];
  }

  // ----- A file that any number of toggles leave whole -----

  lemma MarkedOnce()
    ensures OneMark(OFF) && NoNewline(OFF) && !EndsInCR(OFF) && Uncomment(OFF) == ACTIVE
  {
    MarkInFront(ACTIVE);
    TrimSpaceIs(ACTIVE, 0, |ACTIVE|);
    UncommentReveals(OFF);
    OffIsShort(OFF);
  }

  /** A file whose only line is the commented plugin line. */
  lemma OneLineIsToggleable()
    ensures Toggleable(Written([OFF]), NDPI) && RoomForMark(Written([OFF]), NDPI)
  {
    hide Match, ReadLines, Written, IsCommented, Uncomment, OFF, NoNewline, EndsInCR, OneMark, Lead;
    MarkedOnce();
    OffIsShort(OFF);
    OffMatches(OFF);
    OneLineRead(OFF);
  }

  // ----- A restart that no retry repairs -----

  function OneLineSetup(cfg: string, t: Template): Setup {
    Setup(cfg, NDPI, t)
  }

  function OneLineStart(cfg: string): State {
    State(map[Path(cfg) := File(Written([OFF]), DEFAULT_MODE)], {}, map[], None, false, {}, None)
  }

  lemma OneLineDecision()
    ensures Decide(Written([OFF]), NDPI, true) == Ok(Replace(Written([ACTIVE])))
    ensures ReadLines(Written([OFF])) == Ok([OFF]) && Picked(Written([OFF]), NDPI) == 0
    ensures Marks(OFF) == 1 && |DropCR(Uncomment(OFF))| < MAX_TOKEN
  {
    hide Match, ReadLines, Written, Uncomment, OFF, NoNewline, EndsInCR, Lead;
    OffIsShort(OFF);
    OffMatches(OFF);
    OneLineRead(OFF);
    OnceMarked();
    assert [OFF][0 := ACTIVE] == [ACTIVE];
  }

  lemma OnceMarked()
    ensures IsCommented(OFF) && Uncomment(OFF) == ACTIVE && Marks(OFF) == 1 && |ACTIVE| < MAX_TOKEN
  {
    MarkInFront(ACTIVE);
    LeadIs(ACTIVE, 0);
    hide Uncomment, Lead;
    assert !IsCommented(ACTIVE);
  }

  lemma UsualPath()
    ensures Solid(Base(NDPI))
  {
    assert '/' !in NDPI;
    assert NDPI[|NDPI| - 1] == 'o';
    assert StripSlashes(NDPI) == NDPI;
  }

  /** Suricata is down and the plugin line is commented; enabling it succeeds, and the restart
      that follows fails.  From there no number of further enabling requests starts Suricata.  */
  lemma FailedRestartExample(cfg: string, t: Template) returns (es: seq<Event>)
    ensures var c, s := OneLineSetup(cfg, t), OneLineStart(cfg);
            var now := Run(c, s, es);
            && Init(c, s) && 0 in now.procs && now.procs[0].Pending?
            && forall more | HostRuns.OnlyRepeats(more, true) ::
                 Run(c, Next(c, now, Restart(0, false, None)), more).running == None
  {
    hide Run, Next, Decide, ReadLines, Written, OFF, Base, Solid, Marks, Status, Uncomment, DropCR;
    var c, s := OneLineSetup(cfg, t), OneLineStart(cfg);
    OneLineDecision();
    UsualPath();
    es := HostRuns.RestartCanFailForGood(c, s, true);
    HostRuns.RetryRepairs(c, Run(c, s, es), 0, None, true);
  }

  // ----- In plain text -----

  const HEAD := "plugins:"
  const ON := "  - /usr/lib/" + "ndpi.so"
  const COMMENTED := "  # - /usr/lib/" + "ndpi.so"
  const PLUGIN_PATH := "/usr/lib/" + "ndpi.so"

  lemma CommentText()
    ensures Comment(ON) == COMMENTED && Uncomment(COMMENTED) == ON && !IsCommented(ON) && IsCommented(COMMENTED)
  {
    LeadIs(ON, 2);
    assert ON[..2] == "  " && ON[2..] == "- /usr/lib/" + "ndpi.so";
    assert COMMENTED == "  " + "# " + ("- /usr/lib/" + "ndpi.so");
    UncommentOfComment(ON);
  }

  lemma PathText()
    ensures Base(PLUGIN_PATH) == NDPI && PLUGIN_PATH != "" && Solid(NDPI)
  {
    hide Base;
    BaseIs("/usr/lib/", NDPI, "");
    assert "/usr/lib/" + NDPI + "" == PLUGIN_PATH;
  }

  lemma LinesText()
    ensures NoNewline(HEAD) && !EndsInCR(HEAD) && HEAD != "" && |HEAD| < MAX_TOKEN
    ensures NoNewline(ON) && !EndsInCR(ON) && ON != "" && |ON| < MAX_TOKEN
  {
    assert NoNewline("  - /usr/lib/") && NoNewline("ndpi.so");
    assert ON[|ON| - 1] == 'o';
  }

  lemma MatchText(l: string)
    requires l == ON || l == COMMENTED
    ensures Match(l, PLUGIN_PATH)
  {
    hide Normalize, Contains, Base;
    PathText();
    MatchOnRawLine(l, PLUGIN_PATH);
    var n := |l| - |NDPI|;
    assert l[n..n + |NDPI|] == NDPI;
    OccursAt(l, n, NDPI);
    var k := if l == ON then 2 else 4;
    assert l[k..k + 1] == "-";
    OccursAt(l, k, "-");
  }

  lemma HeadText()
    ensures !Match(HEAD, PLUGIN_PATH)
  {
    hide Normalize, Contains, Base;
    PathText();
    MatchOnRawLine(HEAD, PLUGIN_PATH);
    if Contains(HEAD, "-") {
      var i := Occurrence(HEAD, "-");
      OccurrenceEnds(HEAD, i, "-");
      assert false;
    }
  }

  lemma TwoLinesRead(a: string, b: string)
    requires NoNewline(a) && !EndsInCR(a) && NoNewline(b) && !EndsInCR(b) && b != "" && |a| < MAX_TOKEN && |b| < MAX_TOKEN
    ensures ReadLines(a + "\n" + b + "\n") == Ok([a, b]) && Terminate(Join([a, b])) == a + "\n" + b + "\n"
  {
    hide ReadLines, NoNewline, EndsInCR;
    assert [a, b][1..] == [b];
    assert Join([a, b]) == a + "\n" + b;
    LastIsText(b);
    ReadWritten([a, b]);
    RereadPlain([a, b]);
    assert Written([a, b]) == a + "\n" + b + "\n";
  }

  lemma LastIsText(b: string)
    requires NoNewline(b) && b != ""
    ensures b[|b| - 1] != '\n'
  {
    assert b[|b| - 1] in b;
  }

  /** A toggle in plain text: the mark goes behind the indent, with a blank, and comes off again. */
  lemma ToggleText()
    ensures var file, off := HEAD + "\n" + ON + "\n", HEAD + "\n" + COMMENTED + "\n";
            && Status(file, PLUGIN_PATH) == Ok((1, true)) && Decide(file, PLUGIN_PATH, true) == Ok(Keep)
            && Decide(file, PLUGIN_PATH, false) == Ok(Replace(off))
            && Status(off, PLUGIN_PATH) == Ok((1, false)) && Decide(off, PLUGIN_PATH, true) == Ok(Replace(file))
  {
    hide Match, ReadLines, IsCommented, Uncomment, Comment, Join, Terminate, HEAD, ON, COMMENTED, PLUGIN_PATH, NoNewline,
         EndsInCR, Status, Decide;
    CommentText();
    LinesText();
    CommentsKeepLine(ON);
    CommentsKeepCR(ON);
    CommentLength(ON);
    CommentedText();
    MatchText(ON);
    MatchText(COMMENTED);
    HeadText();
    OnOffRead(ON);
    OnOffRead(COMMENTED);
    assert [HEAD, ON][1 := COMMENTED] == [HEAD, COMMENTED] && [HEAD, COMMENTED][1 := ON] == [HEAD, ON];
  }

  lemma CommentedText()
    ensures COMMENTED != "" && |COMMENTED| < MAX_TOKEN
  {
  }

  lemma OnOffRead(l: string)
    requires Match(l, PLUGIN_PATH) && !Match(HEAD, PLUGIN_PATH) && NoNewline(l) && !EndsInCR(l) && l != "" && |l| < MAX_TOKEN
    ensures var file := HEAD + "\n" + l + "\n"; var flip := if IsCommented(l) then Uncomment(l) else Comment(l);
            && Status(file, PLUGIN_PATH) == Ok((1, !IsCommented(l)))
            && Decide(file, PLUGIN_PATH, !IsCommented(l)) == Ok(Keep)
            && Decide(file, PLUGIN_PATH, IsCommented(l)) == Ok(Replace(Terminate(Join([HEAD, l][1 := flip]))))
    ensures Terminate(Join([HEAD, l])) == HEAD + "\n" + l + "\n"
  {
    hide Match, ReadLines, IsCommented, Uncomment, Comment, Join, Terminate, HEAD, PLUGIN_PATH, NoNewline, EndsInCR, Decide, Status;
    LinesText();
    var file := HEAD + "\n" + l + "\n";
    TwoLinesRead(HEAD, l);
    assert Picks([HEAD, l], PLUGIN_PATH, 1);
    DecideIs(file, PLUGIN_PATH, true);
    DecideIs(file, PLUGIN_PATH, false);
    StatusIs(file, PLUGIN_PATH);
  }

  /** Line ends in plain text: a carriage return goes with its newline, any other stays. */
  lemma LineEndsText()
    ensures Fold("a\r\nb\r") == "a\nb\r" && SplitLines("a\r\nb\r") == ["a", "b\r"] && SplitLines("a\n") == ["a", ""]
    ensures Normalize("\t# plugins: ") == "plugins:" && Lead("\t # x") == 2 && Uncomment("\t#  x") == "\tx"
    ensures TrimSpace([11 as char, 'x', 12 as char, '\r']) == "x"
  {
    TrimSpaceIs([11 as char, 'x', 12 as char, '\r'], 1, 2);
    FoldText();
    SplitText();
    MarkText();
  }

  lemma FoldText()
    ensures Fold("a\r\nb\r") == "a\nb\r" && Fold("a\n") == "a\n"
  {
    assert "a\r\nb\r"[1..] == "\r\nb\r" && "\r\nb\r"[2..] == "b\r" && "b\r"[1..] == "\r" && "a\n"[1..] == "\n";
    assert Fold("\r") == "\r" && Fold("b\r") == "b\r" && Fold("\r\nb\r") == "\n" + "b\r";
  }

  lemma SplitText()
    ensures Split("a\nb\r") == ["a", "b\r"] && Split("a\n") == ["a", ""]
  {
    SplitLine("a", "b\r");
    SplitLine("b\r", "");
    SplitLine("a", "");
    SplitLine("", "");
    assert "a" + "\n" + "b\r" == "a\nb\r" && "a" + "\n" + "" == "a\n";
  }

  lemma MarkText()
    ensures Normalize("\t# plugins: ") == "plugins:" && Lead("\t # x") == 2 && Uncomment("\t#  x") == "\tx"
  {
    hide Normalize, Lead, Uncomment;
    KeyText();
    LeadIs("\t # x", 2);
    TabText();
  }

  lemma KeyText()
    ensures Normalize("\t# plugins: ") == "plugins:"
  {
    hide TrimSpace;
    TrimSpaceIs("\t# plugins: ", 1, 11);
    assert "\t# plugins: "[1..11] == "# plugins:";
    TrimSpaceIs(" plugins:", 1, 9);
    assert "# plugins:"[1..] == " plugins:" && " plugins:"[1..9] == "plugins:";
  }

  lemma TabText()
    ensures Uncomment("\t#  x") == "\tx"
  {
    hide Uncomment;
    MarkedLine("\t", "  ", "x");
    assert "\t" + "#" + "  " + "x" == "\t#  x" && "\t" + "x" == "\tx";
  }
}
