/** integration/patch_suricata_config.go as it runs: scanners that walk a slice of lines, and two
    stages that overwrite, append to and splice the slice in place.  Each method is proved
    equal to the function of PatchSpec.dfy on the slice's contents at entry.  */
module Patcher {
  import opened Wrappers
  import opened Text
  import opened Comments
  import opened Blocks
  import opened PatchSpec
  import opened PatchConvergence
  import opened GoSlices

  /** findBlock */
  method FindBlock(lines: Slice, key: string) returns (block: seq<string>, baseIndent: nat, found: bool)
    requires lines.Valid()
    ensures found <==> Block(lines.View(), key).Some?
    ensures found ==> Block(lines.View(), key) == Some(block) && baseIndent == Lead(block[0])
  {
    hide Normalize, Lead;
    ghost var ls := lines.View();
    var i := 0;
    while i < lines.len
      invariant i <= lines.len
      invariant forall k | 0 <= k < i :: Normalize(ls[k]) != key
    {
      if Normalize(lines.base[i]) != key {
        i := i + 1;
        continue;
      }
      baseIndent := Lead(lines.base[i]);
      block := [lines.base[i]];
      var j := i + 1;
      while j < lines.len
        invariant i < j <= lines.len
        invariant forall k | i < k < j :: InBlock(ls[k], baseIndent)
        invariant block == ls[i..j]
      {
        assert ls[i..j + 1] == ls[i..j] + [ls[j]];
        if lines.base[j] == "" {
          block := block + [lines.base[j]];
          j := j + 1;
          continue;
        }
        if Lead(lines.base[j]) <= baseIndent {
          break;
        }
        block := block + [lines.base[j]];
        j := j + 1;
      }
      FirstIs(ls, 0, Header(key), i);
      FirstIs(ls, i + 1, Leaves(baseIndent), j);
      return block, baseIndent, true;
    }
    return [], 0, false;
  }

  /** findBlockRange */
  method FindBlockRange(lines: Slice, key: string) returns (start: nat, end: nat, baseIndent: nat, found: bool)
    requires lines.Valid()
    ensures found <==> First(lines.View(), 0, Header(key)) < lines.len
    ensures found ==> start == First(lines.View(), 0, Header(key)) && end == BlockEnd(lines.View(), start)
    ensures found ==> baseIndent == Lead(lines.View()[start])
    ensures found ==> Block(lines.View(), key) == Some(lines.View()[start..end])
  {
    hide Normalize, Lead;
    ghost var ls := lines.View();
    var i := 0;
    while i < lines.len
      invariant i <= lines.len
      invariant forall k | 0 <= k < i :: Normalize(ls[k]) != key
    {
      if Normalize(lines.base[i]) != key {
        i := i + 1;
        continue;
      }
      baseIndent := Lead(lines.base[i]);
      start, end := i, i + 1;
      var j := i + 1;
      while j < lines.len
        invariant i < j <= lines.len && end == j
        invariant forall k | i < k < j :: InBlock(ls[k], baseIndent)
      {
        if lines.base[j] == "" {
          end := j + 1;
          j := j + 1;
          continue;
        }
        if Lead(lines.base[j]) <= baseIndent {
          end := j;
          break;
        }
        end := j + 1;
        j := j + 1;
      }
      FirstIs(ls, 0, Header(key), i);
      FirstIs(ls, i + 1, Leaves(baseIndent), j);
      return start, end, baseIndent, true;
    }
    return 0, 0, 0, false;
  }

  /** findNDPIPluginLine */
  method FindPluginLine(block: seq<string>) returns (line: string, found: bool)
    ensures found <==> First(block, 0, Mentions) < |block|
    ensures found ==> line == TrimSpace(block[First(block, 0, Mentions)])
  {
    hide Normalize, TrimSpace, Contains;
    var i := 0;
    while i < |block|
      invariant i <= |block|
      invariant forall k | 0 <= k < i :: !Has(block[k])
    {
      if Contains(Normalize(block[i]), NDPI) {
        FirstIs(block, 0, Mentions, i);
        return TrimSpace(block[i]), true;
      }
      i := i + 1;
    }
    return "", false;
  }

  /** makeBlockUncommented */
  method MakeBlockUncommented(block: seq<string>) returns (out: seq<string>)
    ensures out == UncommentAll(block)
  {
    hide IsCommented;
    out := [];
    var i := 0;
    while i < |block|
      invariant i <= |block| && |out| == i
      invariant forall k | 0 <= k < i :: out[k] == Uncomment(block[k])
    {
      if IsCommented(block[i]) {
        out := out + [Uncomment(block[i])];
      } else {
        out := out + [block[i]];
      }
      i := i + 1;
    }
  }

  /** Both stages end this way when their header is missing: a separating blank line, then the section. */
  method AppendSection(lines: Slice, section: seq<string>) returns (r: Slice)
    requires lines.Valid()
    modifies lines.base
    ensures r.Valid() && (r.base == lines.base || fresh(r.base))
    ensures r.View() == Separated(old(lines.View())) + section
  {
    r := lines;
    if r.len > 0 && r.base[r.len - 1] != "" {
      r := Append(r, [""]);
    }
    assert r.View() == Separated(old(lines.View()));
    r := Append(r, section);
  }

  method ReplaceRange(lines: Slice, start: nat, end: nat, block: seq<string>) returns (r: Slice)
    requires lines.Valid() && start <= end <= lines.len
    ensures r.Valid() && fresh(r.base)
    ensures r.View() == lines.View()[..start] + block + lines.View()[end..]
  {
    r := FromSeq([]);
    r := Append(r, lines.base[..start]);
    r := Append(r, block);
    r := Append(r, lines.base[end..lines.len]);
  }

  /** ensureBlockExact for the unix-command section */
  method EnsureBlockExact(lines: Slice, tplBlock: seq<string>, hasTemplate: bool, ghost t: Template)
    returns (r: Slice, changed: bool)
    requires lines.Valid()
    requires t.unix == if hasTemplate then Some(UncommentAll(tplBlock)) else None
    modifies lines.base
    ensures r.Valid() && (r.base == lines.base || fresh(r.base))
    ensures Outcome(r.View(), changed) == EnsureUnix(t, old(lines.View()))
  {
    hide Normalize, Lead, First, UncommentAll, BlockEnd, Separated;
    if !hasTemplate {
      return lines, false;
    }
    var tpl := MakeBlockUncommented(tplBlock);
    var start, end, _, found := FindBlockRange(lines, UNIX);
    if found {
      assert lines.base[start..end] == lines.View()[start..end];
      if lines.base[start..end] == tpl {
        return lines, false;
      }
      r := ReplaceRange(lines, start, end, tpl);
      return r, true;
    }
    r := AppendSection(lines, tpl);
    return r, true;
  }

  /** The scan of ensurePluginsNDPI behind the header at i: where it stops, and whether on a plugin line. */
  method ScanForPlugin(lines: Slice, i: nat, pluginsIndent: nat, ghost t: Template) returns (insertAt: nat, j: nat, found: bool)
    requires lines.Valid() && i < lines.len && t.indent == pluginsIndent
    ensures j == Target(t, lines.View(), i)
    ensures found <==> Found(t, lines.View(), j)
    ensures !found ==> insertAt == j
  {
    hide Normalize, Lead, Contains;
    ghost var ls := lines.View();
    insertAt, j, found := i + 1, i + 1, false;
    while j < lines.len
      invariant i < j <= lines.len && insertAt == j && !found
      invariant forall k | i < k < j :: InBlock(ls[k], pluginsIndent) && !Has(ls[k])
    {
      if lines.base[j] == "" {
        BlankIsNotMentioned();
        insertAt := j + 1;
        j := j + 1;
        continue;
      }
      if Lead(lines.base[j]) <= pluginsIndent {
        insertAt := j;
        break;
      }
      insertAt := j + 1;
      if Contains(Normalize(lines.base[j]), NDPI) {
        found := true;
        break;
      }
      j := j + 1;
    }
    FirstIs(ls, i + 1, Stops(pluginsIndent), j);
  }

  lemma BlankIsNotMentioned()
    ensures !Has("")
  {
    HasIsContains("");
  }

  /** The search for the plugins header in ensurePluginsNDPI. */
  method FindPluginsHeader(lines: Slice) returns (i: nat)
    requires lines.Valid()
    ensures i == First(lines.View(), 0, Header(PLUGINS))
  {
    hide Normalize;
    i := 0;
    while i < lines.len && Normalize(lines.base[i]) != PLUGINS
      invariant i <= lines.len
      invariant forall k | 0 <= k < i :: Normalize(lines.View()[k]) != PLUGINS
    {
      i := i + 1;
    }
    FirstIs(lines.View(), 0, Header(PLUGINS), i);
  }

  /** Activating the header in place does not disturb the scan that follows. */
  lemma ScanUnmoved(t: Template, ls: seq<string>, i: nat)
    requires First(ls, 0, Header(PLUGINS)) == i < |ls|
    ensures var active := ls[i := Uncomment(ls[i])]; var k := Target(t, ls, i);
            Target(t, active, i) == k && Found(t, active, k) == Found(t, ls, k)
  {
    hide First, Uncomment, Lead, Has;
    ActiveHeader(t, ls, i);
  }

  /** ensurePluginsNDPI */
  method EnsurePluginsNDPI(lines: Slice, pluginsIndent: nat, ndpiLine: string, ghost t: Template)
    returns (r: Slice, changed: bool)
    requires lines.Valid()
    requires t.indent == pluginsIndent && t.entry == Entry(ndpiLine)
    modifies lines.base
    ensures r.Valid() && (r.base == lines.base || fresh(r.base))
    ensures Outcome(r.View(), changed) == EnsurePlugin(t, old(lines.View()))
  {
    hide Normalize, Lead, First, Target, InBlock, Uncomment, Has, TrimSpace, IsCommented, Insert, Separated;
    ghost var before := lines.View();
    var entry := TrimSpace(ndpiLine);
    if !(entry != "" && entry[0] == '-') {
      entry := "- " + entry;
    }
    var i := FindPluginsHeader(lines);
    if i == lines.len {
      r := AppendSection(lines, [PLUGINS, Pad(2) + entry]);
      return r, true;
    }
    if IsCommented(lines.base[i]) {
      lines.base[i] := Uncomment(lines.base[i]);
    }
    ghost var active := before[i := Uncomment(before[i])];
    assert lines.View() == active;
    ScanUnmoved(t, before, i);
    var insertAt, j, found := ScanForPlugin(lines, i, pluginsIndent, t);
    if !found {
      InsertOutcome(t, before, i, j);
      hide EnsurePlugin;
      r := Splice(lines, insertAt, Pad(pluginsIndent + 2) + entry);
      return r, true;
    }
    FoundOutcome(t, before, i, j);
    hide EnsurePlugin;
    changed := IsCommented(lines.base[j]);
    if changed {
      lines.base[j] := Uncomment(lines.base[j]);
    }
    assert lines.View() == active[j := Uncomment(before[j])];
    r := lines;
  }

  // ----- The whole pass -----

  /** What the patcher reads from the template. */
  method ReadTemplate(template: string) returns (r: Result<(nat, string, Option<seq<string>>), PatchError>)
    ensures match ParseTemplate(SplitLines(template))
            case Err(e) => r == Err(e)
            case Ok(t) =>
              && r.Ok? && r.value.0 == t.indent && Entry(r.value.1) == t.entry
              && t.unix == match r.value.2 case None => None case Some(b) => Some(UncommentAll(b))
  {
    hide Normalize, Lead, First, TrimSpace, SplitLines, UncommentAll;
    var lines := FromSeq(SplitLines(template));
    var block, pluginsIndent, ok := FindBlock(lines, PLUGINS);
    if !ok {
      return Err(NoPluginsBlock);
    }
    var ndpiLine, found := FindPluginLine(block);
    if !found {
      return Err(NoPluginLine);
    }
    TrimSpaceIdempotent(block[First(block, 0, Mentions)]);
    var unixBlock, _, unixOk := FindBlock(lines, UNIX);
    return Ok((pluginsIndent, ndpiLine, if unixOk then Some(unixBlock) else None));
  }

  /** PatchSuricataConfigFromTemplate */
  method PatchSuricataConfigFromTemplate(template: string, current: string) returns (r: Result<Patched, PatchError>)
    ensures r == Patch(template, current)
  {
    hide Join, Terminate, SplitLines, ParseTemplate, UncommentAll, Entry, EnsureUnix, EnsurePlugin;
    var read := ReadTemplate(template);
    if read.Err? {
      return Err(read.error);
    }
    ghost var t := ParseTemplate(SplitLines(template)).value;
    var (pluginsIndent, ndpiLine, unixBlock) := read.value;
    var lines := FromSeq(SplitLines(current));
    var changed := false;
    var unixChanged, pluginsChanged;
    var tplBlock := if unixBlock.Some? then unixBlock.value else [];
    lines, unixChanged := EnsureBlockExact(lines, tplBlock, unixBlock.Some?, t);
    if unixChanged {
      changed := true;
    }
    lines, pluginsChanged := EnsurePluginsNDPI(lines, pluginsIndent, ndpiLine, t);
    if pluginsChanged {
      changed := true;
    }
    var out := Join(lines.View());
    return Ok(Patched(Terminate(out), changed));
  }
}
