/** Concrete inputs on which the patcher does less than one might expect of it. */
module PatchExamples {
  import opened Wrappers
  import opened Text
  import opened Comments
  import opened Blocks
  import opened PatchSpec
  import opened PatchConvergence
  import opened PatchFrame
  import opened PatchTails
  import opened PatchReadings
  import opened PatchRestored
  import opened PatchDelay
  import opened PatchUntidy
  import opened PatchTheorems
  import opened PatchShipped

  // ----- A report on every pass -----

  const BARE := [PLUGINS, ""]

  lemma BareLines()
    ensures SplitLines(Join(BARE)) == BARE && NoneEndsInCR(BARE) && Block(BARE, UNIX).None?
  {
    hide Normalize, Lead, Has, Join, SplitLines;
    SplitLinesOfJoin(BARE);
    KeyIsTrimmed(PLUGINS);
    KeysDiffer();
    BlankIsNoHeader();
    FirstIs(BARE, 0, Header(UNIX), 2);
  }

  lemma BareSettlesAtOnce(t: Template)
    requires WellFormed(t) && t.unix.Some? && t.unix.value[0] == UNIX && t.indent == 0
    ensures HasPlugins(t, BARE) && Depth(t, BARE) == 0
  {
    hide Normalize, Lead, Has, First;
    KeyIsTrimmed(PLUGINS);
    KeyIsTrimmed(UNIX);
    KeysDiffer();
    BlankIsNoHeader();
    var m := EnsureUnix(t, BARE).lines;
    FirstIs(BARE, 0, Header(UNIX), 2);
    assert m == BARE + t.unix.value;
    FirstIs(m, 0, Header(PLUGINS), 0);
    FirstIs(m, 1, Stops(0), 2);
  }

  /** With the repository's own template and a file that only has a `plugins:` header, the first
      pass writes the final bytes, and all passes report a change.  */
  lemma ShippedExample(n: nat)
    requires n >= 1
    ensures var t, current := LayoutTemplate(PLUGIN, SETTINGS), Join(BARE);
            && PatchTimes(t, current, n + 1) == PatchTimes(t, current, n)
            && PatchBytes(t, PatchTimes(t, current, n)).changed
  {
    hide Shipped, LayoutTemplate, WellFormed, DisjointTemplate, CleanTemplate, Shallow, HasPlugins, Depth, NoneEndsInCR,
         SplitLines, Join, PatchBytes, Parses, Layout, EndsWithUnix, Block, EnsureUnix, Delay, Tidied, Outside,
         EntryBehind, Disjoint, Regrows;
    var t := LayoutTemplate(PLUGIN, SETTINGS);
    RepositoryTemplate();
    LayoutParses(PLUGIN, SETTINGS);
    BareLines();
    LayoutStart(PLUGIN, SETTINGS);
    BareSettlesAtOnce(t);
    LayoutEndsInText(PLUGIN, SETTINGS);
    AppendedUnix(t, BARE);
    TidyNeverRegrows(t, BARE);
    NoEntryBehind(t, BARE);
    TidyNow(t, BARE);
    PatchConverges(Join(Layout(PLUGIN, SETTINGS)), t, Join(BARE), n);
  }

  lemma LayoutStart(plugin: string, settings: seq<string>)
    ensures var t := LayoutTemplate(plugin, settings); t.unix.Some? && t.unix.value[0] == UNIX && t.indent == 0
  {
  }

  // ----- In plain text -----

  const PLUGIN_TEXT := "  - /usr/local/lib/suricata/" + "ndpi.so"
  const SETTINGS_TEXT := ["  enabled: yes", "  filename: /run/suricata/" + "suricata-command.socket", "  mode: 0660"]

  lemma ShippedText()
    ensures PLUGIN == PLUGIN_TEXT && SETTINGS == SETTINGS_TEXT
    ensures Layout(PLUGIN, SETTINGS) == ["plugins:", PLUGIN_TEXT, "", "unix-command:"] + SETTINGS_TEXT
  {
    var dir := "- /usr/local/lib/suricata/";
    assert "  " + (dir + NDPI) == ("  " + dir) + NDPI;
    assert "  " + dir == "  - /usr/local/lib/suricata/";
    SocketText();
  }

  lemma SocketText()
    ensures "  " + SOCKET == "  filename: /run/suricata/" + "suricata-command.socket"
    ensures "  " + ENABLED == "  enabled: yes" && "  " + MODE == "  mode: 0660"
  {
    hide SOCKET_DIR, SOCKET_NAME;
    SocketDirText();
    Associates("  ", SOCKET_DIR, SOCKET_NAME);
  }

  lemma SocketDirText()
    ensures "  " + SOCKET_DIR == "  filename: /run/suricata/" && SOCKET_NAME == "suricata-command.socket"
  {
  }

  lemma Associates(a: string, b: string, c: string)
    ensures a + (b + c) == (a + b) + c
  {
  }

  lemma ShippedEntry()
    ensures Entry(PLUGIN) == "- /usr/local/lib/suricata/" + "ndpi.so"
    ensures EntryLine(LayoutTemplate(PLUGIN, SETTINGS), 2) == PLUGIN_TEXT
  {
    var e := "- /usr/local/lib/suricata/" + NDPI;
    TrimSpaceIs(PLUGIN, 2, |PLUGIN|);
    assert PLUGIN[2..|PLUGIN|] == e && e[0] == '-';
    assert Pad(2) == "  ";
    ShippedText();
  }

  lemma BareStages(t: Template)
    requires WellFormed(t) && t.unix.Some? && t.unix.value[0] == UNIX && t.indent == 0
    ensures PatchLines(t, BARE) == Outcome([PLUGINS, "", EntryLine(t, 2)] + t.unix.value, true)
  {
    hide Normalize, Lead, Has, First, EntryLine, WellFormed, IsCommented, Insert;
    BareSettlesAtOnce(t);
    BareLines();
    KeyIsTrimmed(PLUGINS);
    KeyIsTrimmed(UNIX);
    KeysDiffer();
    BlankIsNoHeader();
    var m := BARE + t.unix.value;
    FirstIs(BARE, 0, Header(UNIX), 2);
    FirstIs(m, 0, Header(PLUGINS), 0);
    FirstIs(m, 1, Stops(0), 2);
    InsertOutcome(t, m, 0, 2);
    assert m[0 := Uncomment(m[0])] == m;
    InsertedBehind(m, EntryLine(t, 2));
    assert m[..2] == BARE && m[2..] == t.unix.value;
  }

  lemma InsertedBehind(m: seq<string>, x: string)
    requires |m| >= 2
    ensures Insert(m, 2, x) == m[..2] + [x] + m[2..]
  {
  }

  /** The repository's template, and a file with nothing but `plugins:`, in plain text: the
      template's plugin line and its unix section are written, and a change is reported.  */
  lemma ShippedBytes()
    ensures var template := Join(["plugins:", PLUGIN_TEXT, "", "unix-command:"] + SETTINGS_TEXT);
            Patch(template, "plugins:\n")
            == Ok(Patched(Join(["plugins:", "", PLUGIN_TEXT, "unix-command:"] + SETTINGS_TEXT + [""]), true))
  {
    hide WellFormed, LayoutTemplate, Parses, SplitLines, Join, Layout, PLUGIN_TEXT, SETTINGS_TEXT, PLUGIN, SETTINGS, Shipped,
         EntryLine, Entry, PatchLines, PatchBytes, NoneEndsInCR, AllNoNewline, Block, CleanTemplate, DisjointTemplate, ParseTemplate;
    var t := LayoutTemplate(PLUGIN, SETTINGS);
    RepositoryTemplate();
    LayoutParses(PLUGIN, SETTINGS);
    ShippedText();
    ShippedEntry();
    ShippedUnix();
    LayoutStart(PLUGIN, SETTINGS);
    BareStages(t);
    BareLines();
    BareIsText();
    PassOnText(t, BARE);
    PatchIsParsed(Join(Layout(PLUGIN, SETTINGS)), t, Join(BARE));
    var out := [PLUGINS, "", PLUGIN_TEXT] + t.unix.value;
    CloseIs(out);
    assert out + [""] == ["plugins:", "", PLUGIN_TEXT, "unix-command:"] + SETTINGS_TEXT + [""];
  }

  lemma ShippedUnix()
    ensures LayoutTemplate(PLUGIN, SETTINGS).unix == Some([UNIX] + SETTINGS_TEXT)
    ensures SETTINGS_TEXT[2] != "" && |SETTINGS_TEXT| == 3
  {
    ShippedText();
  }

  lemma BareIsText()
    ensures Join(BARE) == "plugins:\n" && AllNoNewline(BARE)
  {
    assert Join(BARE) == BARE[0] + "\n" + Join(BARE[1..]);
    assert BARE[1..] == [""];
  }

  // ----- Small templates -----

  /** The template's lines: the plugins section and, unless it is empty, a unix section. */
  function SmallLines(unix: seq<string>): seq<string> {
    [PLUGINS, PLUGIN] + unix
  }

  function SmallTemplate(unix: seq<string>): Template {
    Template(if unix == [] then None else Some(unix), 0, Entry(PLUGIN))
  }

  /** A unix section that is its own header and active lines below it. */
  predicate SmallUnix(unix: seq<string>) {
    unix != [] ==> unix[0] == UNIX && forall k | 0 < k < |unix| :: Lead(unix[k]) > 0 && !IsCommented(unix[k]) && CleanLine(unix[k])
  }

  lemma FrontLines()
    ensures Normalize(PLUGINS) == PLUGINS && Lead(PLUGINS) == 0 && !Has(PLUGINS) && Normalize(PLUGINS) != UNIX
    ensures Lead(PLUGIN) > 0 && Has(PLUGIN) && CleanLine(PLUGIN) && Normalize(PLUGIN) != UNIX
  {
    KeyIsTrimmed(PLUGINS);
    PluginLine();
    hide Normalize, Lead, Has, CleanLine, PLUGIN;
    KeysDiffer();
    MentionIsNoHeader(PLUGIN);
    if Has(PLUGINS) {
      MentionIsNoHeader(PLUGINS);
    }
  }

  lemma SmallPlugins(unix: seq<string>)
    requires SmallUnix(unix)
    ensures |SmallLines(unix)| >= 2 && Block(SmallLines(unix), PLUGINS) == Some([PLUGINS, PLUGIN]) && First([PLUGINS, PLUGIN], 0, Mentions) == 1
  {
    hide Normalize, Lead, Has, CleanLine, First, Block, IsCommented, PLUGIN;
    KeyIsTrimmed(UNIX);
    FrontLines();
    var ls := SmallLines(unix);
    assert ls[0] == PLUGINS && ls[1] == PLUGIN && ls[0..2] == [PLUGINS, PLUGIN] && (unix != [] ==> ls[2] == UNIX);
    FirstIs(ls, 0, Header(PLUGINS), 0);
    FirstIs(ls, 1, Leaves(0), 2);
    BlockIs(ls, PLUGINS, 0, 2);
    FirstIs([PLUGINS, PLUGIN], 0, Mentions, 1);
  }

  lemma SmallUnixIsRead(unix: seq<string>)
    requires SmallUnix(unix)
    ensures Block(SmallLines(unix), UNIX) == if unix == [] then None else Some(unix)
  {
    hide Normalize, Lead, Has, CleanLine, First, Block, IsCommented, PLUGIN, Hits;
    FrontLines();
    var front := [PLUGINS, PLUGIN];
    if unix == [] {
      assert SmallLines(unix) == front;
      NoUnixIn(front);
    } else {
      BelowHeader(unix);
      UnixSection(front, unix[1..]);
      UnixBehind(front, unix);
    }
  }

  lemma BelowHeader(unix: seq<string>)
    requires SmallUnix(unix) && unix != []
    ensures [UNIX] + unix[1..] == unix && forall k | 0 <= k < |unix| - 1 :: Lead(unix[1..][k]) > 0
  {
    hide Lead, IsCommented, CleanLine;
    assert forall k | 0 <= k < |unix| - 1 :: unix[1..][k] == unix[k + 1];
  }

  lemma UnixBehind(front: seq<string>, unix: seq<string>)
    requires unix != [] && unix[0] == UNIX
    ensures front + [UNIX] + unix[1..] == front + unix
  {
    assert unix == [UNIX] + unix[1..];
  }

  lemma NoUnixIn(front: seq<string>)
    requires forall k | 0 <= k < |front| :: Normalize(front[k]) != UNIX
    ensures Block(front, UNIX) == None
  {
    hide Normalize;
    FirstIs(front, 0, Header(UNIX), |front|);
  }

  lemma SmallIsClean(unix: seq<string>)
    requires SmallUnix(unix)
    ensures AllNoNewline(SmallLines(unix)) && NoneEndsInCR(SmallLines(unix)) && UncommentAll(unix) == unix
  {
    KeyIsTrimmed(UNIX);
    PluginLine();
    hide Lead, IsCommented, Normalize, Has, PLUGIN, TrimSpace, CleanLine, AllNoNewline, NoneEndsInCR, UncommentAll;
    HeadersAreClean();
    SmallLinesAreClean(unix);
    CleanText(SmallLines(unix));
    ActiveStays(unix);
  }

  lemma HeadersAreClean()
    ensures CleanLine(PLUGINS) && CleanLine(UNIX) && CleanLine("")
  {
  }

  lemma SmallLinesAreClean(unix: seq<string>)
    requires SmallUnix(unix) && CleanLine(PLUGINS) && CleanLine(PLUGIN) && CleanLine(UNIX)
    ensures forall k | 0 <= k < |SmallLines(unix)| :: CleanLine(SmallLines(unix)[k])
  {
    hide CleanLine, Lead, IsCommented, PLUGIN;
  }

  lemma ActiveStays(unix: seq<string>)
    requires forall k | 0 <= k < |unix| :: !IsCommented(unix[k])
    ensures UncommentAll(unix) == unix
  {
    hide IsCommented;
  }

  /** The templates of the examples below. */
  lemma SmallParses(unix: seq<string>)
    requires SmallUnix(unix)
    ensures Parses(Join(SmallLines(unix)), SmallTemplate(unix))
  {
    hide Normalize, Lead, Has, CleanLine, First, Join, Split, Fold, Block, UncommentAll, SmallLines, Entry, IsCommented,
         WellFormed, AllNoNewline, NoneEndsInCR, SmallUnix, PLUGIN;
    SmallIsClean(unix);
    SmallPlugins(unix);
    SplitLinesOfJoin(SmallLines(unix));
    SmallUnixIsRead(unix);
    KeyIsTrimmed(PLUGINS);
  }

  /** A pass over a text with the lines ls. */
  lemma PassOnText(t: Template, ls: seq<string>)
    requires WellFormed(t) && |ls| >= 1 && AllNoNewline(ls) && NoneEndsInCR(ls)
    ensures var o := PatchLines(t, ls); PatchBytes(t, Join(ls)) == Patched(Join(Close(o.lines)), o.changed)
  {
    hide WellFormed, AllNoNewline, NoneEndsInCR, Join, SplitLines, Terminate, PatchLines, Close;
    SplitLinesOfJoin(ls);
    PassIsLines(t, ls);
    TerminateOfJoin(PatchLines(t, ls).lines);
  }

  // ----- A line that the second pass deletes -----

  const WIDE := "  " + UNIX

  lemma IndentedUnix()
    ensures Normalize(WIDE) == UNIX && Lead(WIDE) == 2 && CleanLine(WIDE)
  {
    var l := WIDE;
    LeadIs(l, 2);
    TrimSpaceIs(l, 2, |l|);
    assert l[2..|l|] == UNIX;
  }

  lemma KeptLine()
    ensures Lead(" x") == 1 && Normalize(" x") != UNIX && Normalize(" x") != PLUGINS && CleanLine(" x")
  {
    LeadIs(" x", 1);
    TrimSpaceIs(" x", 1, 2);
    assert " x"[1..2] == "x" && |UNIX| == 13 && |PLUGINS| == 8;
  }

  /** The indented unix section of the file is replaced by one at the margin, and the line behind
      it, kept by that pass, becomes a part of the section for the next.  */
  lemma SwallowedStages(t: Template)
    requires WellFormed(t) && t.unix == Some([UNIX]) && t.indent == 0
    ensures var e := EntryLine(t, 2);
            && EnsureUnix(t, [WIDE, " x", ""]) == Outcome([UNIX, " x", ""], true)
            && EnsurePlugin(t, [UNIX, " x", ""]) == Outcome([UNIX, " x", "", PLUGINS, e], true)
            && EnsureUnix(t, [UNIX, " x", "", PLUGINS, e, ""]) == Outcome([UNIX, PLUGINS, e, ""], true)
            && EnsurePlugin(t, [UNIX, PLUGINS, e, ""]) == Outcome([UNIX, PLUGINS, e, ""], false)
  {
    hide Normalize, Lead, Has, First, EntryLine, WellFormed, IsCommented, CleanLine, EnsurePlugin, EnsureUnix, Hits, WIDE;
    SwallowedOne(t);
    SwallowedTwo(t);
    SwallowedThree(t);
    SwallowedFour(t);
  }

  lemma SwallowedOne(t: Template)
    requires t.unix == Some([UNIX])
    ensures EnsureUnix(t, [WIDE, " x", ""]) == Outcome([UNIX, " x", ""], true)
  {
    hide Normalize, Lead, Has, First, CleanLine;
    IndentedUnix();
    KeptLine();
    var ls := [WIDE, " x", ""];
    FirstIs(ls, 0, Header(UNIX), 0);
    FirstIs(ls, 1, Leaves(2), 1);
    assert ls[0..1] == [WIDE] && ls[..0] + [UNIX] + ls[1..] == [UNIX, " x", ""];
    assert WIDE != UNIX by { assert |WIDE| == |UNIX| + 2; }
  }

  lemma SwallowedTwo(t: Template)
    ensures EnsurePlugin(t, [UNIX, " x", ""]) == Outcome([UNIX, " x", "", PLUGINS, EntryLine(t, 2)], true)
  {
    hide Normalize, Lead, Has, First, CleanLine, EntryLine;
    KeptLine();
    KeyIsTrimmed(UNIX);
    KeysDiffer();
    BlankIsNoHeader();
    FirstIs([UNIX, " x", ""], 0, Header(PLUGINS), 3);
  }

  lemma SwallowedThree(t: Template)
    requires t.unix == Some([UNIX])
    ensures var e := EntryLine(t, 2); EnsureUnix(t, [UNIX, " x", "", PLUGINS, e, ""]) == Outcome([UNIX, PLUGINS, e, ""], true)
  {
    hide Normalize, Lead, Has, First, CleanLine, EntryLine;
    KeptLine();
    KeyIsTrimmed(UNIX);
    KeyIsTrimmed(PLUGINS);
    var e := EntryLine(t, 2);
    var ls := [UNIX, " x", "", PLUGINS, e, ""];
    FirstIs(ls, 0, Header(UNIX), 0);
    FirstIs(ls, 1, Leaves(0), 3);
    assert |ls[0..3]| == 3 && ls[..0] + [UNIX] + ls[3..] == [UNIX, PLUGINS, e, ""];
  }

  lemma SwallowedFour(t: Template)
    requires WellFormed(t) && t.indent == 0
    ensures var e := EntryLine(t, 2); EnsurePlugin(t, [UNIX, PLUGINS, e, ""]) == Outcome([UNIX, PLUGINS, e, ""], false)
  {
    hide Normalize, Lead, Has, First, EntryLine, WellFormed, IsCommented, EnsurePlugin;
    KeyIsTrimmed(UNIX);
    KeyIsTrimmed(PLUGINS);
    KeysDiffer();
    InsertedLine(t, 2);
    var ls := [UNIX, PLUGINS, EntryLine(t, 2), ""];
    FirstIs(ls, 0, Header(PLUGINS), 1);
    FirstIs(ls, 2, Stops(0), 2);
    FoundOutcome(t, ls, 1, 2);
    assert ls[1 := ls[1]][2 := ls[2]] == ls;
  }

  lemma EntryIsClean(t: Template)
    requires WellFormed(t)
    ensures EntryLine(t, 2) != "" && CleanLine(EntryLine(t, 2)) && CleanLine("") && CleanLine(PLUGINS) && CleanLine(UNIX)
  {
    HeadersAreClean();
    hide Normalize, Lead, Has, EntryLine, WellFormed, IsCommented;
    InsertedLine(t, 2);
  }

  lemma CleanText(ls: seq<string>)
    requires forall k | 0 <= k < |ls| :: CleanLine(ls[k])
    ensures AllNoNewline(ls) && NoneEndsInCR(ls)
  {
  }

  /** On the text of a file: the first pass keeps the line " x", and the second deletes it. */
  lemma SwallowedExample()
    ensures var t := SmallTemplate([UNIX]); var e := EntryLine(t, 2);
            && Parses(Join(SmallLines([UNIX])), t)
            && PatchBytes(t, Join([WIDE, " x", ""])) == Patched(Join([UNIX, " x", "", PLUGINS, e, ""]), true)
            && PatchBytes(t, Join([UNIX, " x", "", PLUGINS, e, ""])) == Patched(Join([UNIX, PLUGINS, e, ""]), true)
  {
    hide Normalize, Lead, Has, First, EntryLine, WellFormed, IsCommented, CleanLine, EnsurePlugin, EnsureUnix, Hits, Join,
         SplitLines, Entry, Parses, PatchBytes, AllNoNewline, NoneEndsInCR, WIDE;
    var t := SmallTemplate([UNIX]);
    SmallParses([UNIX]);
    SwallowedStages(t);
    EntryIsClean(t);
    KeptLine();
    IndentedUnix();
    var e := EntryLine(t, 2);
    var ls, once := [WIDE, " x", ""], [UNIX, " x", "", PLUGINS, e, ""];
    CleanText(ls);
    CleanText(once);
    PassOnText(t, ls);
    PassOnText(t, once);
    assert Close([UNIX, " x", "", PLUGINS, e]) == once;
  }

  // ----- Sections that overlap -----

  const NESTED := "  " + PLUGINS

  lemma NestedPlugins()
    ensures Normalize(NESTED) == PLUGINS && Lead(NESTED) == 2 && !IsCommented(NESTED) && NESTED != "" && CleanLine(NESTED)
    ensures Normalize("z") != PLUGINS && Normalize("z") != UNIX && Lead("z") == 0 && CleanLine("z")
  {
    LeadIs(NESTED, 2);
    TrimSpaceIs(NESTED, 2, |NESTED|);
    assert NESTED[2..|NESTED|] == PLUGINS;
    LeadIs("z", 0);
    TrimSpaceIs("z", 0, 1);
  }

  /** A `plugins:` line inside the template's unix section: stage one takes the entry that stage
      two puts under it for a foreign line and cuts it, so that both work forever and every pass
      reports a change, though the bytes repeat.  */
  lemma OverlapExample()
    ensures var t := SmallTemplate([UNIX, NESTED]); var r := [UNIX, NESTED, EntryLine(t, 2), "z", ""];
            && Parses(Join(SmallLines([UNIX, NESTED])), t)
            && PatchBytes(t, Join([UNIX, NESTED, "z", ""])) == Patched(Join(r), true)
            && PatchBytes(t, Join(r)) == Patched(Join(r), true)
  {
    hide Normalize, Lead, Has, First, EntryLine, WellFormed, EnsurePlugin, EnsureUnix, NESTED, Uncomment, IsCommented, CleanLine,
         Join, SplitLines, Entry, Parses, PatchBytes, AllNoNewline, NoneEndsInCR, Hits;
    var t := SmallTemplate([UNIX, NESTED]);
    NestedPlugins();
    SmallParses([UNIX, NESTED]);
    OverlapStageOne(t);
    OverlapStageTwo(t);
    EntryIsClean(t);
    var ls, r := [UNIX, NESTED, "z", ""], [UNIX, NESTED, EntryLine(t, 2), "z", ""];
    CleanText(ls);
    CleanText(r);
    PassOnText(t, ls);
    PassOnText(t, r);
    assert Close(r) == r;
  }

  lemma OverlapStageOne(t: Template)
    requires WellFormed(t) && t.unix == Some([UNIX, NESTED])
    ensures var ls, r := [UNIX, NESTED, "z", ""], [UNIX, NESTED, EntryLine(t, 2), "z", ""];
            EnsureUnix(t, ls) == Outcome(ls, false) && EnsureUnix(t, r) == Outcome(ls, true)
  {
    hide Normalize, Lead, Has, First, EntryLine, WellFormed, NESTED, IsCommented;
    NestedPlugins();
    KeyIsTrimmed(UNIX);
    InsertedLine(t, 2);
    var ls, r := [UNIX, NESTED, "z", ""], [UNIX, NESTED, EntryLine(t, 2), "z", ""];
    FirstIs(ls, 0, Header(UNIX), 0);
    FirstIs(ls, 1, Leaves(0), 2);
    FirstIs(r, 0, Header(UNIX), 0);
    FirstIs(r, 1, Leaves(0), 3);
    assert ls[0..2] == [UNIX, NESTED] && |r[0..3]| == 3;
    assert r[..0] + [UNIX, NESTED] + r[3..] == ls;
  }

  lemma OverlapStageTwo(t: Template)
    requires WellFormed(t) && t.indent == 0
    ensures EnsurePlugin(t, [UNIX, NESTED, "z", ""]) == Outcome([UNIX, NESTED, EntryLine(t, 2), "z", ""], true)
  {
    hide Normalize, Lead, Has, First, EntryLine, WellFormed, NESTED, IsCommented, EnsurePlugin, Insert;
    NestedPlugins();
    KeyIsTrimmed(UNIX);
    KeysDiffer();
    var ls := [UNIX, NESTED, "z", ""];
    FirstIs(ls, 0, Header(PLUGINS), 1);
    FirstIs(ls, 2, Stops(0), 2);
    assert ls[1 := Uncomment(ls[1])] == ls;
    InsertOutcome(t, ls, 1, 2);
    InsertedAt(ls, EntryLine(t, 2));
  }

  lemma InsertedAt(ls: seq<string>, x: string)
    requires |ls| == 4
    ensures Insert(ls, 2, x) == [ls[0], ls[1], x, ls[2], ls[3]]
  {
  }

  // ----- An edit without a report -----

  /** A commented header over an active plugin line is uncommented, and nothing is reported. */
  lemma SilentHeader()
    ensures var t := SmallTemplate([]); var e := EntryLine(t, 2);
            && Parses(Join(SmallLines([])), t) && Comment(PLUGINS) != PLUGINS
            && PatchBytes(t, Join([Comment(PLUGINS), e, ""])) == Patched(Join([PLUGINS, e, ""]), false)
  {
    hide Normalize, Lead, Has, First, Comment, EntryLine, WellFormed, Uncomment, IsCommented, Hits, CleanLine, Join, SplitLines,
         Entry, Parses, PatchBytes, AllNoNewline, NoneEndsInCR, EnsurePlugin;
    var t := SmallTemplate([]);
    SmallParses([]);
    EntryIsClean(t);
    KeyIsTrimmed(PLUGINS);
    UncommentOfComment(PLUGINS);
    CommentedIsCleanLine(PLUGINS);
    SilentStage(t);
    var ls := [Comment(PLUGINS), EntryLine(t, 2), ""];
    CleanText(ls);
    PassOnText(t, ls);
    assert Close([PLUGINS, EntryLine(t, 2), ""]) == [PLUGINS, EntryLine(t, 2), ""];
  }

  lemma CommentedIsCleanLine(l: string)
    requires CleanLine(l)
    ensures CleanLine(Comment(l))
  {
    hide Comment;
    CommentsKeepLine(l);
    CommentsKeepCR(l);
  }

  lemma SilentStage(t: Template)
    requires WellFormed(t) && t.indent <= 1
    ensures EnsurePlugin(t, [Comment(PLUGINS), EntryLine(t, 2), ""]) == Outcome([PLUGINS, EntryLine(t, 2), ""], false)
  {
    hide Normalize, Lead, Has, First, Comment, EntryLine, WellFormed, Uncomment, IsCommented, TrimSpace;
    KeyIsTrimmed(PLUGINS);
    UncommentOfComment(PLUGINS);
    InsertedLine(t, 2);
    var ls := [Comment(PLUGINS), EntryLine(t, 2), ""];
    FirstIs(ls, 0, Header(PLUGINS), 0);
    FirstIs(ls, 1, Stops(t.indent), 1);
    FoundOutcome(t, ls, 0, 1);
    assert ls[0 := PLUGINS][1 := EntryLine(t, 2)] == [PLUGINS, EntryLine(t, 2), ""];
  }

  // ----- A plugin line that is cut and written again -----

  const NEAR := " " + UNIX
  const FAR := "   " + UNIX

  lemma NearLine()
    ensures Normalize(NEAR) == UNIX && Lead(NEAR) == 1 && CleanLine(NEAR) && !IsCommented(NEAR) && NEAR != ""
  {
    LeadIs(NEAR, 1);
    TrimSpaceIs(NEAR, 1, |NEAR|);
    assert NEAR[1..|NEAR|] == UNIX;
  }

  lemma FarLine()
    ensures Normalize(FAR) == UNIX && Lead(FAR) == 3 && CleanLine(FAR)
  {
    LeadIs(FAR, 3);
    TrimSpaceIs(FAR, 3, |FAR|);
    assert FAR[3..|FAR|] == UNIX;
  }

  lemma NearAndFar()
    ensures Normalize(NEAR) == UNIX && Lead(NEAR) == 1 && CleanLine(NEAR) && !IsCommented(NEAR) && !Has(NEAR) && NEAR != ""
    ensures Normalize(FAR) == UNIX && Lead(FAR) == 3 && CleanLine(FAR) && FAR != NEAR
  {
    hide Normalize, Lead, CleanLine, IsCommented, Has;
    NearLine();
    FarLine();
    if Has(NEAR) {
      MentionIsNoHeader(NEAR);
    }
  }

  const INNER := [PLUGINS, PLUGIN, NEAR]

  lemma InnerPlugins()
    ensures Block(INNER, PLUGINS) == Some(INNER) && First(INNER, 0, Mentions) == 1
  {
    hide Normalize, Lead, Has, CleanLine, First, Block, IsCommented, PLUGIN, NEAR;
    FrontLines();
    NearAndFar();
    FirstIs(INNER, 0, Header(PLUGINS), 0);
    FirstIs(INNER, 1, Leaves(0), 3);
    BlockIs(INNER, PLUGINS, 0, 3);
    FirstIs(INNER, 0, Mentions, 1);
    assert INNER[0..3] == INNER;
  }

  lemma InnerUnix()
    ensures Block(INNER, UNIX) == Some([NEAR])
  {
    hide Normalize, Lead, Has, CleanLine, First, Block, IsCommented, PLUGIN, NEAR;
    FrontLines();
    NearAndFar();
    FirstIs(INNER, 0, Header(UNIX), 2);
    FirstIs(INNER, 3, Leaves(1), 3);
    BlockIs(INNER, UNIX, 2, 3);
    assert INNER[2..3] == [NEAR];
  }

  lemma InnerParses()
    ensures Parses(Join(INNER), Template(Some([NEAR]), 0, Entry(PLUGIN)))
  {
    hide Normalize, Lead, Has, CleanLine, First, Join, SplitLines, Block, Entry, IsCommented, WellFormed, AllNoNewline,
         NoneEndsInCR, PLUGIN, NEAR, INNER, UncommentAll;
    InnerText();
    InnerPlugins();
    InnerUnix();
    ActiveStays([NEAR]);
  }

  lemma InnerText()
    ensures |INNER| == 3 && INNER[0] == PLUGINS && INNER[1] == PLUGIN && SplitLines(Join(INNER)) == INNER
    ensures Lead(PLUGINS) == 0 && !IsCommented(NEAR)
  {
    hide Normalize, Lead, Has, CleanLine, Join, SplitLines, IsCommented, AllNoNewline, NoneEndsInCR, PLUGIN, NEAR;
    FrontLines();
    NearAndFar();
    HeadersAreClean();
    CleanText(INNER);
    SplitLinesOfJoin(INNER);
  }

  lemma RegrownStages(t: Template)
    requires WellFormed(t) && t.unix == Some([NEAR]) && t.indent == 0
    ensures var e := EntryLine(t, 2);
            && EnsureUnix(t, [PLUGINS, FAR, e, ""]) == Outcome([PLUGINS, NEAR, e, ""], true)
            && EnsureUnix(t, [PLUGINS, NEAR, e, ""]) == Outcome([PLUGINS, NEAR], true)
  {
    hide Normalize, Lead, Has, First, EntryLine, WellFormed, IsCommented, CleanLine, NEAR, FAR;
    NearAndFar();
    InsertedLine(t, 2);
    KeyIsTrimmed(PLUGINS);
    KeysDiffer();
    var e := EntryLine(t, 2);
    var ls, once := [PLUGINS, FAR, e, ""], [PLUGINS, NEAR, e, ""];
    FirstIs(ls, 0, Header(UNIX), 1);
    FirstIs(ls, 2, Leaves(3), 2);
    assert ls[1..2] == [FAR] && ls[..1] + [NEAR] + ls[2..] == once;
    FirstIs(once, 0, Header(UNIX), 1);
    FirstIs(once, 2, Leaves(1), 4);
    assert |once[1..4]| == 3 && once[..1] + [NEAR] + once[4..] == [PLUGINS, NEAR];
  }

  lemma RegrownEntry(t: Template)
    requires WellFormed(t) && t.indent == 0
    ensures var e := EntryLine(t, 2);
            && EnsurePlugin(t, [PLUGINS, NEAR, e, ""]) == Outcome([PLUGINS, NEAR, e, ""], false)
            && EnsurePlugin(t, [PLUGINS, NEAR]) == Outcome([PLUGINS, NEAR, e], true)
  {
    hide Normalize, Lead, Has, First, EntryLine, WellFormed, IsCommented, CleanLine, NEAR, EnsurePlugin, Insert;
    NearAndFar();
    InsertedLine(t, 2);
    KeyIsTrimmed(PLUGINS);
    var e := EntryLine(t, 2);
    var once, cut := [PLUGINS, NEAR, e, ""], [PLUGINS, NEAR];
    FirstIs(once, 0, Header(PLUGINS), 0);
    FirstIs(once, 1, Stops(0), 2);
    FoundOutcome(t, once, 0, 2);
    assert once[0 := PLUGINS][2 := e] == once;
    FirstIs(cut, 0, Header(PLUGINS), 0);
    FirstIs(cut, 1, Stops(0), 2);
    InsertOutcome(t, cut, 0, 2);
    assert cut[0 := PLUGINS] == cut;
    ShiftedLines(cut, 2, e);
    assert Insert(cut, 2, e) == [PLUGINS, NEAR, e];
  }

  /** The unix section of this template stands inside its plugins section: the second pass takes the
      plugin line for a part of the unix section, cuts it, and puts it back, and so does every
      later one.  The file was not tidy, and its bytes repeat at once.  */
  lemma RegrownExample()
    ensures var t := Template(Some([NEAR]), 0, Entry(PLUGIN)); var once := [PLUGINS, NEAR, EntryLine(t, 2), ""];
            && Parses(Join(INNER), t)
            && PatchBytes(t, Join([PLUGINS, FAR, EntryLine(t, 2), ""])) == Patched(Join(once), true)
            && PatchBytes(t, Join(once)) == Patched(Join(once), true)
  {
    hide Normalize, Lead, Has, First, EntryLine, WellFormed, EnsurePlugin, EnsureUnix, NEAR, FAR, INNER, IsCommented, CleanLine,
         Join, SplitLines, Entry, Parses, PatchBytes, AllNoNewline, NoneEndsInCR, Hits;
    var t := Template(Some([NEAR]), 0, Entry(PLUGIN));
    NearAndFar();
    InnerParses();
    RegrownStages(t);
    RegrownEntry(t);
    EntryIsClean(t);
    var e := EntryLine(t, 2);
    var ls, once := [PLUGINS, FAR, e, ""], [PLUGINS, NEAR, e, ""];
    CleanText(ls);
    CleanText(once);
    PassOnText(t, ls);
    PassOnText(t, once);
    assert Close(once) == once && Close([PLUGINS, NEAR, e]) == once;
  }
}
