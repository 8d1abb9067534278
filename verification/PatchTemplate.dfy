/** What the patcher takes from a template, line by line, and how it writes it. */
module PatchTemplate {
  import opened Wrappers
  import opened Text
  import opened Comments
  import opened Blocks
  import opened PatchSpec
  import opened PatchTheorems

  // ----- Reading -----

  /** The line i is the first with this normalized text. */
  predicate FirstKey(ls: seq<string>, i: nat, key: string) {
    i < |ls| && Normalize(ls[i]) == key && forall j | 0 <= j < i :: Normalize(ls[j]) != key
  }

  /** The lines behind i up to e are blank or indented deeper than line i. */
  predicate Below(ls: seq<string>, i: nat, e: nat) {
    i < e <= |ls| && forall j | i < j < e :: ls[j] == "" || Lead(ls[j]) > Lead(ls[i])
  }

  /** From i to e reaches the block of the header at i. */
  predicate Reaches(ls: seq<string>, i: nat, e: nat) {
    Below(ls, i, e) && (e < |ls| ==> ls[e] != "" && Lead(ls[e]) <= Lead(ls[i]))
  }

  /** The line k is the first of these that mentions the plugin. */
  predicate FirstMention(ls: seq<string>, i: nat, k: nat) {
    && i <= k < |ls| && Contains(Normalize(ls[k]), "ndpi.so")
    && forall j | i <= j < k :: !Contains(Normalize(ls[j]), "ndpi.so")
  }

  /** The list entry for a plugin line: the line trimmed, behind a dash if it has none. */
  predicate EntryFor(entry: string, line: string) {
    var s := TrimSpace(line);
    s != "" && entry == if s[0] == '-' then s else "- " + s
  }

  lemma BlockIsReached(ls: seq<string>, key: string) returns (i: nat, e: nat)
    requires Block(ls, key).Some?
    ensures FirstKey(ls, i, key) && Reaches(ls, i, e) && Block(ls, key) == Some(ls[i..e])
  {
    hide Normalize, Lead;
    i := First(ls, 0, Header(key));
    e := BlockEnd(ls, i);
  }

  lemma NoBlock(ls: seq<string>, key: string)
    ensures Block(ls, key).None? <==> forall j | 0 <= j < |ls| :: Normalize(ls[j]) != key
  {
    hide Normalize, Lead;
    var i := First(ls, 0, Header(key));
  }

  lemma MentionInBlock(ls: seq<string>, i: nat, e: nat)
    requires i < e <= |ls|
    ensures var j := First(ls[i..e], 0, Mentions);
            if j == |ls[i..e]| then forall k | i <= k < e :: !Contains(Normalize(ls[k]), "ndpi.so")
            else i + j < e && FirstMention(ls, i, i + j)
  {
    hide Normalize, Contains;
    var b := ls[i..e];
    var j := First(b, 0, Mentions);
    assert forall k | i <= k < e :: b[k - i] == ls[k];
    assert forall k | 0 <= k < j :: !Has(b[k]);
  }

  lemma EntryIsFor(line: string)
    requires Has(line) && NoNewline(line)
    ensures EntryFor(Entry(line), line)
  {
    hide TrimSpace, Has, Contains, NoNewline, EndsInCR;
    TrimmedMention(line);
  }

  lemma PluginsAre(ls: seq<string>, t: Template) returns (i: nat, k: nat)
    requires ParseTemplate(ls) == Ok(t) && AllNoNewline(ls)
    ensures FirstKey(ls, i, PLUGINS) && t.indent == Lead(ls[i])
    ensures Below(ls, i, k + 1) && FirstMention(ls, i, k) && EntryFor(t.entry, ls[k])
  {
    hide Normalize, Lead, First, Block, Entry, Contains, UncommentAll, FirstKey, EntryFor, Has, TrimSpace, NoNewline, Hits;
    var e;
    i, e := BlockIsReached(ls, PLUGINS);
    MentionInBlock(ls, i, e);
    k := i + First(ls[i..e], 0, Mentions);
    assert ls[i..e][k - i] == ls[k];
    MentionMeans(ls[k]);
    EntryIsFor(ls[k]);
    FirstLineOfBlock(ls, i, e);
  }

  lemma UnixIs(ls: seq<string>, t: Template) returns (u: nat, e: nat)
    requires ParseTemplate(ls) == Ok(t)
    ensures t.unix.None? <==> forall j | 0 <= j < |ls| :: Normalize(ls[j]) != UNIX
    ensures t.unix.Some? ==>
              && FirstKey(ls, u, UNIX) && Reaches(ls, u, e) && |t.unix.value| == e - u
              && forall j | u <= j < e :: t.unix.value[j - u] == Uncomment(ls[j])
  {
    hide Normalize, Lead, First, Block, Entry, UncommentAll, FirstKey, Hits;
    NoBlock(ls, UNIX);
    u, e := 0, 0;
    if t.unix.Some? {
      u, e := BlockIsReached(ls, UNIX);
      UncommentedLines(ls, u, e);
    }
  }

  /** For every template that is accepted: the plugins header is the first, at i; its indent is the
      template's; the entry is made of the first line of its block that mentions the plugin, at k;
      the unix section is the block of the first such header, at u, each line less one mark; and
      there is none only if there is no such header.  */
  lemma TemplateIs(template: string, t: Template) returns (i: nat, k: nat, u: nat, e: nat)
    requires Parses(template, t)
    ensures var ls := SplitLines(template);
            && FirstKey(ls, i, "plugins:") && t.indent == Lead(ls[i])
            && Below(ls, i, k + 1) && FirstMention(ls, i, k) && EntryFor(t.entry, ls[k])
            && (t.unix.None? <==> forall j | 0 <= j < |ls| :: Normalize(ls[j]) != "unix-command:")
            && (t.unix.Some? ==>
                  && FirstKey(ls, u, "unix-command:") && Reaches(ls, u, e) && |t.unix.value| == e - u
                  && forall j | u <= j < e :: t.unix.value[j - u] == Uncomment(ls[j]))
  {
    hide Normalize, Lead, ParseTemplate, WellFormed, SplitLines, Contains, FirstKey, EntryFor, Below, Reaches, FirstMention;
    i, k := PluginsAre(SplitLines(template), t);
    u, e := UnixIs(SplitLines(template), t);
  }

  lemma MentionMeans(l: string)
    requires Contains(Normalize(l), "ndpi.so")
    ensures Has(l)
  {
  }

  lemma FirstLineOfBlock(ls: seq<string>, i: nat, e: nat)
    requires i < e <= |ls|
    ensures ls[i..e][0] == ls[i]
  {
  }

  lemma UncommentedLines(ls: seq<string>, u: nat, e: nat)
    requires u < e <= |ls|
    ensures var b := UncommentAll(ls[u..e]); |b| == e - u && forall j | u <= j < e :: b[j - u] == Uncomment(ls[j])
  {
    hide Uncomment;
    assert forall j | u <= j < e :: ls[u..e][j - u] == ls[j];
  }

  /** A template is refused exactly if it has no plugins header, or if the block of the first one
      does not mention the plugin; the file is not looked at.  */
  lemma TemplateErrors(template: string, current: string)
    ensures var ls, r := SplitLines(template), Patch(template, current);
            && (r == Err(NoPluginsBlock) <==> forall j | 0 <= j < |ls| :: Normalize(ls[j]) != "plugins:")
            && (r == Err(NoPluginLine) <==>
                  exists i, e :: FirstKey(ls, i, "plugins:") && Reaches(ls, i, e)
                                 && forall j | i <= j < e :: !Contains(Normalize(ls[j]), "ndpi.so"))
  {
    hide Normalize, Lead, First, Block, Entry, SplitLines, Contains, UncommentAll, FirstKey, Has, PatchBytes;
    var ls := SplitLines(template);
    NoBlock(ls, PLUGINS);
    if Block(ls, PLUGINS).Some? {
      var i, e := BlockIsReached(ls, PLUGINS);
      MentionInBlock(ls, i, e);
      forall i1, e1 | FirstKey(ls, i1, "plugins:") && Reaches(ls, i1, e1)
        ensures i1 == i && e1 == e
      {
        OneBlock(ls, i, e, i1, e1, PLUGINS);
      }
    } else {
      forall i1
        ensures !FirstKey(ls, i1, "plugins:")
      {
        KeyIsThere(ls, i1, "plugins:");
      }
    }
  }

  lemma KeyIsThere(ls: seq<string>, i: nat, key: string)
    ensures FirstKey(ls, i, key) ==> exists j :: 0 <= j < |ls| && Normalize(ls[j]) == key
  {
    hide Normalize;
  }

  lemma OneBlock(ls: seq<string>, i: nat, e: nat, i1: nat, e1: nat, key: string)
    requires FirstKey(ls, i, key) && FirstKey(ls, i1, key) && Reaches(ls, i, e) && Reaches(ls, i1, e1)
    ensures i1 == i && e1 == e
  {
    hide Normalize, Lead;
  }

  // ----- Writing -----

  /** What is written for the entry at an indent: so many blanks, and the entry. */
  lemma EntryLineIs(t: Template, n: nat)
    ensures var x := EntryLine(t, n);
            |x| == n + |t.entry| && x[n..] == t.entry && forall j | 0 <= j < n :: x[j] == ' '
  {
  }
}
