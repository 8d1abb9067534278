/** Templates laid out like the one the repository ships, config/suricata.yaml.tpl: the plugins
    section, a blank line, and a unix-command section that ends with the file, without a newline.  */
module PatchShipped {
  import opened Wrappers
  import opened Text
  import opened Comments
  import opened Blocks
  import opened PatchSpec
  import opened PatchConvergence
  import opened PatchFrame
  import opened PatchTails
  import opened PatchReadings
  import opened PatchDelay
  import opened PatchTheorems

  /** An active setting inside a section. */
  predicate Setting(l: string) {
    CleanLine(l) && l != "" && Lead(l) > 0 && !IsCommented(l) && Normalize(l) != PLUGINS
  }

  /** The template's lines, given the plugin line and the settings of the unix section. */
  function Layout(plugin: string, settings: seq<string>): seq<string> {
    [PLUGINS, plugin, "", UNIX] + settings
  }

  predicate Shipped(plugin: string, settings: seq<string>) {
    && CleanLine(plugin) && Lead(plugin) > 0 && Has(plugin)
    && |settings| >= 1 && forall k | 0 <= k < |settings| :: Setting(settings[k])
  }

  function LayoutTemplate(plugin: string, settings: seq<string>): Template {
    Template(Some([UNIX] + settings), 0, Entry(plugin))
  }

  lemma LayoutIsRead(plugin: string, settings: seq<string>)
    requires Shipped(plugin, settings)
    ensures SplitLines(Join(Layout(plugin, settings))) == Layout(plugin, settings)
  {
    hide Lead, Has, IsCommented, Normalize, Join, SplitLines;
    var ls := Layout(plugin, settings);
    assert CleanLine("") && CleanLine(PLUGINS) && CleanLine(UNIX);
    assert forall k | 0 <= k < |ls| :: CleanLine(ls[k]) by { hide CleanLine; }
    SplitLinesOfJoin(ls);
  }

  lemma LayoutTemplateIsClean(plugin: string, settings: seq<string>)
    requires Shipped(plugin, settings)
    ensures CleanTemplate(LayoutTemplate(plugin, settings))
  {
    hide Lead, Has, IsCommented, Normalize, Entry;
    assert CleanLine(UNIX);
  }

  lemma SettingsAreActive(settings: seq<string>)
    requires forall k | 0 <= k < |settings| :: Setting(settings[k])
    ensures UncommentAll([UNIX] + settings) == [UNIX] + settings
  {
    KeyIsTrimmed(UNIX);
    hide Normalize, Lead, IsCommented, CleanLine;
  }

  lemma FrontIsNoUnix(plugin: string)
    requires Has(plugin)
    ensures Normalize(PLUGINS) != UNIX && Normalize(plugin) != UNIX && Normalize("") != UNIX
  {
    hide Normalize, Has;
    KeyIsTrimmed(PLUGINS);
    KeysDiffer();
    BlankIsNoHeader();
    MentionIsNoHeader(plugin);
  }

  lemma UnixSection(front: seq<string>, settings: seq<string>)
    requires forall k | 0 <= k < |front| :: Normalize(front[k]) != UNIX
    requires forall k | 0 <= k < |settings| :: Lead(settings[k]) > 0
    ensures Block(front + [UNIX] + settings, UNIX) == Some([UNIX] + settings)
  {
    KeyIsTrimmed(UNIX);
    hide Normalize, Lead, Has, First, Block;
    SectionAt(front, UNIX, settings);
    var n, ls := |front|, front + [UNIX] + settings;
    FirstIs(ls, 0, Header(UNIX), n);
    FirstIs(ls, n + 1, Leaves(0), |ls|);
    BlockIs(ls, UNIX, n, |ls|);
  }

  lemma SectionAt(front: seq<string>, key: string, settings: seq<string>)
    ensures var n, ls := |front|, front + [key] + settings;
            && (forall k | 0 <= k < n :: ls[k] == front[k]) && ls[n] == key
            && (forall k | n < k < |ls| :: ls[k] == settings[k - n - 1])
            && ls[n..|ls|] == [key] + settings
  {
  }

  lemma LayoutUnix(plugin: string, settings: seq<string>)
    requires Shipped(plugin, settings)
    ensures Block(Layout(plugin, settings), UNIX) == Some([UNIX] + settings)
  {
    hide Normalize, Lead, Has, CleanLine, IsCommented, Block, Layout;
    FrontIsNoUnix(plugin);
    var front := [PLUGINS, plugin, ""];
    UnixSection(front, settings);
    LayoutIsFrontUnix(plugin, settings);
  }

  lemma LayoutIsFrontUnix(plugin: string, settings: seq<string>)
    ensures [PLUGINS, plugin, ""] + [UNIX] + settings == Layout(plugin, settings)
  {
    assert [PLUGINS, plugin, ""] + [UNIX] == [PLUGINS, plugin, "", UNIX];
  }

  lemma LayoutStarts(plugin: string, settings: seq<string>)
    ensures var ls := Layout(plugin, settings);
            |ls| >= 4 && ls[0] == PLUGINS && ls[1] == plugin && ls[2] == "" && ls[3] == UNIX && ls[0..3] == [PLUGINS, plugin, ""]
  {
  }

  lemma LayoutPlugins(plugin: string, settings: seq<string>)
    requires Shipped(plugin, settings)
    ensures Block(Layout(plugin, settings), PLUGINS) == Some([PLUGINS, plugin, ""])
    ensures First([PLUGINS, plugin, ""], 0, Mentions) == 1
  {
    KeyIsTrimmed(UNIX);
    KeyIsTrimmed(PLUGINS);
    BlankIsNoHeader();
    if Has(PLUGINS) {
      MentionIsNoHeader(PLUGINS);
    }
    hide Normalize, Lead, Has, CleanLine, First, Block;
    var ls := Layout(plugin, settings);
    LayoutStarts(plugin, settings);
    FirstIs(ls, 0, Header(PLUGINS), 0);
    FirstIs(ls, 1, Leaves(0), 3);
    BlockIs(ls, PLUGINS, 0, 3);
    FirstIs([PLUGINS, plugin, ""], 0, Mentions, 1);
  }

  lemma LayoutParses(plugin: string, settings: seq<string>)
    requires Shipped(plugin, settings)
    ensures Parses(Join(Layout(plugin, settings)), LayoutTemplate(plugin, settings))
    ensures DisjointTemplate(LayoutTemplate(plugin, settings)) && CleanTemplate(LayoutTemplate(plugin, settings))
  {
    hide Normalize, Lead, Has, CleanLine, First, Join, SplitLines, Block, UncommentAll, Layout, Entry, IsCommented,
         CleanTemplate, WellFormed;
    LayoutIsRead(plugin, settings);
    LayoutTemplateIsClean(plugin, settings);
    LayoutUnix(plugin, settings);
    SettingsAreActive(settings);
    LayoutPlugins(plugin, settings);
    KeyIsTrimmed(PLUGINS);
    KeyIsTrimmed(UNIX);
    KeysDiffer();
  }

  /** Without a `unix-command:` section stage one appends the template's. */
  lemma AppendedUnix(t: Template, ls: seq<string>)
    requires t.unix.Some? && |t.unix.value| >= 1 && t.unix.value[|t.unix.value| - 1] != ""
    requires Block(ls, UNIX).None?
    ensures EndsWithUnix(t, ls) && Shallow(t, ls) && EnsureUnix(t, ls).changed && Outside(t, ls) == ls
  {
    hide First, BlockEnd;
  }

  lemma LayoutEndsInText(plugin: string, settings: seq<string>)
    requires Shipped(plugin, settings)
    ensures var t := LayoutTemplate(plugin, settings);
            t.unix.Some? && |t.unix.value| >= 1 && t.unix.value[|t.unix.value| - 1] != ""
  {
    hide Has, CleanLine, Lead, IsCommented, Normalize, Entry;
  }

  /** With such a template a configuration that has a `plugins:` header but no `unix-command:`
      section is never at rest: the first pass appends the section at the end of the file, and
      every later one reports a change, so that every reconciliation restarts Suricata.  */
  lemma ShippedLayoutNeverQuiet(plugin: string, settings: seq<string>, current: string, n: nat)
    requires Shipped(plugin, settings)
    requires NoneEndsInCR(SplitLines(current)) && Block(SplitLines(current), UNIX).None?
    requires HasPlugins(LayoutTemplate(plugin, settings), SplitLines(current))
    ensures PatchBytes(LayoutTemplate(plugin, settings), PatchTimes(LayoutTemplate(plugin, settings), current, n)).changed
  {
    hide Shipped, Layout, LayoutTemplate, EndsWithUnix, Shallow, HasPlugins, Parses, DisjointTemplate, CleanTemplate,
         SplitLines, NoneEndsInCR, Outside, Block, EnsureUnix, EnsurePlugin, Join, Terminate, Delay, Tidied,
         EntryBehind, Disjoint, PassesNeeded;
    var t, ls := LayoutTemplate(plugin, settings), SplitLines(current);
    LayoutEndsInText(plugin, settings);
    AppendedUnix(t, ls);
    if n > 0 {
      LayoutParses(plugin, settings);
      NoEntryBehind(t, ls);
      TidyNow(t, ls);
      hide PatchBytes;
      PatchConverges(Join(Layout(plugin, settings)), t, current, n);
    }
  }

  // ----- The shipped file itself -----

  predicate Printable(s: string) {
    forall c | c in s :: c >= ' '
  }

  lemma IndentedSetting(word: string)
    requires Printable(word) && word != "" && word[0] > ' ' && word[|word| - 1] > ' '
    requires word[0] != 'p' && word[0] != '#'
    ensures Setting("  " + word)
  {
    var l := "  " + word;
    LeadIs(l, 2);
    TrimSpaceIs(l, 2, |l|);
    assert l[2..|l|] == word;
    assert PLUGINS[0] == 'p';
    assert Printable(l);
  }

  const PLUGIN := "  " + ("- /usr/local/lib/suricata/" + NDPI)
  const ENABLED := "enabled: yes"
  const SOCKET_DIR := "filename: /run/suricata/"
  const SOCKET_NAME := "suricata-command.socket"
  const SOCKET := SOCKET_DIR + SOCKET_NAME
  const MODE := "mode: 0660"
  const SETTINGS := ["  " + ENABLED, "  " + SOCKET, "  " + MODE]

  lemma PluginLine()
    ensures CleanLine(PLUGIN) && Lead(PLUGIN) > 0 && Has(PLUGIN)
  {
    var dir := "- /usr/local/lib/suricata/";
    assert Printable(dir) && Printable(NDPI);
    assert PLUGIN == ("  " + dir) + NDPI;
    LeadIs(PLUGIN, 2);
    EndsWithNdpi("  " + dir);
    HasIsContains(PLUGIN);
  }

  lemma EndsWithNdpi(front: string)
    requires Printable(front)
    ensures Contains(front + NDPI, NDPI) && CleanLine(front + NDPI)
  {
    var l := front + NDPI;
    assert l[|front|..|front| + |NDPI|] == NDPI;
    assert At(l, |front|, NDPI);
    assert Printable(NDPI);
  }

  lemma EnabledSetting()
    ensures Setting("  " + ENABLED)
  {
    IndentedSetting(ENABLED);
  }

  lemma IndentedPair(front: string, back: string)
    requires Printable(front) && front != "" && front[0] > ' ' && front[0] != 'p' && front[0] != '#'
    requires Printable(back) && back != "" && back[|back| - 1] > ' '
    ensures Setting("  " + (front + back))
  {
    hide Setting;
    IndentedSetting(front + back);
  }

  lemma SocketDir()
    ensures Printable(SOCKET_DIR) && |SOCKET_DIR| == 24 && SOCKET_DIR[0] == 'f'
  {
  }

  lemma SocketName()
    ensures Printable(SOCKET_NAME) && |SOCKET_NAME| == 23 && SOCKET_NAME[22] == 't'
  {
  }

  lemma SocketSetting()
    ensures Setting("  " + SOCKET)
  {
    hide Setting;
    SocketDir();
    SocketName();
    IndentedPair(SOCKET_DIR, SOCKET_NAME);
  }

  lemma ModeSetting()
    ensures Setting("  " + MODE)
  {
    IndentedSetting(MODE);
  }

  lemma RepositoryTemplate()
    ensures Shipped(PLUGIN, SETTINGS)
  {
    hide Setting, Has, Lead, CleanLine;
    PluginLine();
    EnabledSetting();
    SocketSetting();
    ModeSetting();
  }
}
