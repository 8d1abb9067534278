/** What PatchSuricataConfigFromTemplate computes, as functions on lines and bytes.
    Patcher.dfy proves the in-place code equal to these functions; PatchConvergence.dfy
    and PatchEffect.dfy prove what they achieve.  */
module PatchSpec {
  import opened Wrappers
  import opened Text
  import opened Comments
  import opened Blocks

  /** What the patcher takes from the template: the uncommented unix-command block if
      there is one, the indent of the `plugins:` header, and the list entry to insert.  */
  datatype Template = Template(unix: Option<seq<string>>, indent: nat, entry: string)

  datatype PatchError = NoPluginsBlock | NoPluginLine

  /** Lines after a stage, and whether the stage reports a change. */
  datatype Outcome = Outcome(lines: seq<string>, changed: bool)

  /** makeBlockUncommented */
  function UncommentAll(block: seq<string>): (r: seq<string>)
    ensures |r| == |block|
    ensures forall k | 0 <= k < |block| :: r[k] == Uncomment(block[k])
  {
    seq(|block|, k requires 0 <= k < |block| => Uncomment(block[k]))
  }

  function Entry(line: string): string {
    var t := TrimSpace(line);
    if t != "" && t[0] == '-' then t else "- " + t
  }

  /** findBlock on the lines of a file */
  function Block(ls: seq<string>, key: string): (b: Option<seq<string>>)
    ensures b.Some? ==> |b.value| >= 1
  {
    var i := First(ls, 0, Header(key));
    if i == |ls| then None else Some(ls[i..BlockEnd(ls, i)])
  }

  lemma BlockIs(ls: seq<string>, key: string, i: nat, e: nat)
    requires First(ls, 0, Header(key)) == i < |ls| && BlockEnd(ls, i) == e
    ensures Block(ls, key) == Some(ls[i..e])
  {
    hide First, BlockEnd;
  }

  function ParseTemplate(ls: seq<string>): Result<Template, PatchError> {
    match Block(ls, PLUGINS)
    case None => Err(NoPluginsBlock)
    case Some(block) =>
      var j := First(block, 0, Mentions);
      if j == |block| then Err(NoPluginLine)
      else
        var unix := match Block(ls, UNIX) case None => None case Some(b) => Some(UncommentAll(b));
        Ok(Template(unix, Lead(block[0]), Entry(block[j])))
  }

  /** A blank line is put in front of a section appended to a file that ends in text. */
  function Separated(ls: seq<string>): seq<string> {
    if ls != [] && ls[|ls| - 1] != "" then ls + [""] else ls
  }

  /** ensureBlockExact */
  function EnsureUnix(t: Template, ls: seq<string>): Outcome
  {
    match t.unix
    case None => Outcome(ls, false)
    case Some(block) =>
      var i := First(ls, 0, Header(UNIX));
      if i == |ls| then Outcome(Separated(ls) + block, true)
      else
        var e := BlockEnd(ls, i);
        if ls[i..e] == block then Outcome(ls, false)
        else Outcome(ls[..i] + block + ls[e..], true)
  }

  function Pad(n: nat): (s: string)
    ensures |s| == n && forall k | 0 <= k < n :: s[k] == ' '
  {
    seq(n, _ => ' ')
  }

  /** The template's list entry at indent n. */
  function EntryLine(t: Template, n: nat): string {
    Pad(n) + t.entry
  }

  /** Where the scan for the plugin line stops, given the header's index. */
  function Target(t: Template, ls: seq<string>, i: nat): (k: nat)
    requires i < |ls|
    ensures i < k <= |ls|
  {
    First(ls, i + 1, Stops(t.indent))
  }

  predicate Found(t: Template, ls: seq<string>, k: nat) {
    k < |ls| && InBlock(ls[k], t.indent) && Has(ls[k])
  }

  function Insert(ls: seq<string>, k: nat, x: string): (r: seq<string>)
    requires k <= |ls|
    ensures |r| == |ls| + 1 && r[k] == x && r[..k] == ls[..k]
    ensures forall j | 0 <= j < k :: r[j] == ls[j]
    ensures forall j {:trigger r[j]} | k < j <= |ls| :: r[j] == ls[j - 1]
  {
    ls[..k] + [x] + ls[k..]
  }

  /** ensurePluginsNDPI */
  function EnsurePlugin(t: Template, ls: seq<string>): (o: Outcome)
    ensures |o.lines| >= 1
  {
    var i := First(ls, 0, Header(PLUGINS));
    if i == |ls| then Outcome(Separated(ls) + [PLUGINS, EntryLine(t, 2)], true)
    else
      var k := Target(t, ls, i);
      var active := ls[i := Uncomment(ls[i])];
      if Found(t, ls, k) then Outcome(active[k := Uncomment(ls[k])], IsCommented(ls[k]))
      else Outcome(Insert(active, k, EntryLine(t, t.indent + 2)), true)
  }

  function PatchLines(t: Template, ls: seq<string>): (o: Outcome)
    ensures |o.lines| >= 1
  {
    var first := EnsureUnix(t, ls);
    var second := EnsurePlugin(t, first.lines);
    Outcome(second.lines, first.changed || second.changed)
  }

  datatype Patched = Patched(bytes: string, changed: bool)

  function PatchBytes(t: Template, current: string): Patched {
    var o := PatchLines(t, SplitLines(current));
    Patched(Terminate(Join(o.lines)), o.changed)
  }

  /** PatchSuricataConfigFromTemplate */
  function Patch(template: string, current: string): Result<Patched, PatchError> {
    match ParseTemplate(SplitLines(template))
    case Err(e) => Err(e)
    case Ok(t) => Ok(PatchBytes(t, current))
  }

  // ----- What every parsed template satisfies -----

  predicate WellFormed(t: Template) {
    && t.entry != "" && t.entry[0] == '-' && Contains(t.entry, NDPI)
    && NoNewline(t.entry) && !EndsInCR(t.entry)
    && match t.unix
       case None => true
       case Some(block) =>
         && |block| >= 1 && AllNoNewline(block) && Normalize(block[0]) == UNIX
         && forall k | 1 <= k < |block| :: InBlock(block[k], Lead(block[0]))
  }

  lemma TrimmedMention(line: string)
    requires NoNewline(line) && Has(line)
    ensures var t := TrimSpace(line);
            t != "" && Contains(t, NDPI) && NoNewline(t) && !EndsInCR(t)
  {
    hide Has, TrimSpace, Contains, Normalize;
    HasIsContains(line);
    var a, b := TrimSpaceWindow(line);
    ContainsWindow(line, a, b, NDPI);
    var i := Occurrence(line[a..b], NDPI);
  }

  lemma EntryIsWellFormed(line: string)
    requires NoNewline(line) && Has(line)
    ensures var e := Entry(line);
            e != "" && e[0] == '-' && Contains(e, NDPI) && NoNewline(e) && !EndsInCR(e)
  {
    hide Has, TrimSpace, Contains, Normalize;
    TrimmedMention(line);
    var t := TrimSpace(line);
    if t[0] != '-' {
      DashInFront(t);
    }
  }

  lemma DashInFront(t: string)
    requires t != "" && NoNewline(t) && !EndsInCR(t)
    ensures var e := "- " + t; Contains(e, NDPI) == Contains(t, NDPI) && NoNewline(e) && !EndsInCR(e)
  {
    hide Contains;
    ContainsSkip("- ", t, NDPI);
  }

  lemma UncommentedInBlock(l: string, base: nat)
    ensures InBlock(l, base) ==> InBlock(Uncomment(l), base)
  {
    UncommentKeepsIndent(l);
  }

  lemma UncommentedBlockIsBlock(ls: seq<string>, key: string)
    requires key == UNIX && Block(ls, key).Some? && AllNoNewline(ls)
    ensures var block := UncommentAll(Block(ls, key).value);
            && AllNoNewline(block) && Normalize(block[0]) == key
            && forall k | 1 <= k < |block| :: InBlock(block[k], Lead(block[0]))
    ensures NoneEndsInCR(ls) ==> NoneEndsInCR(UncommentAll(Block(ls, key).value))
  {
    hide Normalize, Lead, Has, NoNewline, EndsInCR, Uncomment;
    var i := First(ls, 0, Header(key));
    var b := ls[i..BlockEnd(ls, i)];
    var block := UncommentAll(b);
    HeaderUncommented(b[0], key);
    forall k | 0 <= k < |b|
      ensures NoNewline(block[k]) && (EndsInCR(block[k]) ==> EndsInCR(ls[i + k]))
      ensures 1 <= k ==> InBlock(block[k], Lead(block[0]))
    {
      assert b[k] == ls[i + k];
      UncommentedInBlock(b[k], Lead(b[0]));
      CommentsKeepLine(b[k]);
      CommentsKeepCR(b[k]);
    }
  }

  lemma ParsedIsWellFormed(ls: seq<string>)
    requires AllNoNewline(ls) && ParseTemplate(ls).Ok?
    ensures WellFormed(ParseTemplate(ls).value)
    ensures var u := ParseTemplate(ls).value.unix; u.Some? && NoneEndsInCR(ls) ==> NoneEndsInCR(u.value)
  {
    hide Has, Normalize, Entry, UncommentAll, Contains, Lead, EndsInCR, NoNewline;
    var i := First(ls, 0, Header(PLUGINS));
    var block := Block(ls, PLUGINS).value;
    var j := First(block, 0, Mentions);
    assert block[j] == ls[i + j];
    EntryIsWellFormed(block[j]);
    if Block(ls, UNIX).Some? {
      UncommentedBlockIsBlock(ls, UNIX);
    }
  }
}
