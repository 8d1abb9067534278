/** When the next pass finds a unix section that is not the template's: stage two has edited the
    block, a line of the template's has lost a carriage return, or a deep line follows.  */
module PatchOverlap {
  import opened Wrappers
  import opened Text
  import opened Comments
  import opened Blocks
  import opened PatchSpec
  import opened PatchConvergence
  import opened PatchTails
  import opened PatchReadings

  // ----- A unix section that is not the template's -----

  /** The unix section is neither the template's nor that with one blank line behind it. */
  predicate Displaced(t: Template, r: seq<string>) {
    t.unix.Some? && Block(r, UNIX).Some? && Block(r, UNIX) != t.unix && Block(r, UNIX) != Some(t.unix.value + [""])
  }

  lemma DisplacedReports(t: Template, r: seq<string>)
    requires Displaced(t, r)
    ensures EnsureUnix(t, r).changed
  {
    hide First, BlockEnd, Separated;
  }

  lemma DisplacedAt(t: Template, r: seq<string>, u: nat, j: nat)
    requires t.unix.Some? && First(r, 0, Header(UNIX)) == u < |r| && j < |t.unix.value|
    requires u + j < |r| ==> r[u + j] != t.unix.value[j]
    ensures Displaced(t, r)
  {
    hide First, BlockEnd, Hits;
    var b, block := BlockEnd(r, u), t.unix.value;
    BlockIs(r, UNIX, u, b);
    assert u + j < b ==> r[u..b][j] == r[u + j];
    assert (block + [""])[j] == block[j];
  }

  lemma DisplacedBy(t: Template, r: seq<string>, u: nat)
    requires t.unix.Some? && First(r, 0, Header(UNIX)) == u < |r| && BlockEnd(r, u) > u + |t.unix.value| && r[u + |t.unix.value|] != ""
    ensures Displaced(t, r)
  {
    hide First, BlockEnd, Hits;
    var b, n := BlockEnd(r, u), |t.unix.value|;
    BlockIs(r, UNIX, u, b);
    assert r[u..b][n] == r[u + n];
    assert (t.unix.value + [""])[n] == "";
  }

  lemma FoldedHeader(x: seq<string>, u: nat)
    requires First(x, 0, Header(UNIX)) == u < |x|
    ensures First(FoldLines(x), 0, Header(UNIX)) == u
  {
    hide Lead, Normalize, First, IsCommented, FoldLines, DropCR;
    forall k | 0 <= k <= u
      ensures Normalize(FoldLines(x)[k]) == Normalize(x[k])
    {
      DropCRKeepsKey(x[k]);
    }
    FirstIs(FoldLines(x), 0, Header(UNIX), u);
  }

  /** A line as the next pass reads it is no longer, and indented alike. */
  lemma FoldedLine(x: seq<string>, y: nat)
    requires y < |x|
    ensures |FoldLines(x)[y]| <= |x[y]| && Lead(FoldLines(x)[y]) == Lead(x[y])
    ensures !EndsInCR(x[y]) ==> FoldLines(x)[y] == x[y]
  {
    hide Lead, FoldLines;
    DropCRKeepsKey(x[y]);
  }

  // ----- A template with carriage returns -----

  lemma BlockLine(t: Template, x: seq<string>, u: nat, j: nat)
    requires t.unix.Some? && UnixIn(t, x, u) && j < |t.unix.value|
    ensures u + j < |x| && x[u + j] == t.unix.value[j] && First(x, 0, Header(UNIX)) == u
  {
    hide First, Hits;
    assert x[u + j] == x[u..u + |t.unix.value|][j];
  }

  lemma ShorterWithoutCR(l: string)
    requires EndsInCR(l)
    ensures DropCR(l) != l && l != ""
  {
  }

  lemma FoldedDrops(x: seq<string>, y: nat)
    requires Closed(x) && y < |x| && x[y] != ""
    ensures FoldLines(x)[y] == DropCR(x[y])
  {
    hide FoldLines, DropCR;
  }

  lemma FoldedBlockDiffers(t: Template, x: seq<string>, u: nat, j: nat)
    requires t.unix.Some? && UnixIn(t, x, u) && Closed(x) && j < |t.unix.value| && EndsInCR(t.unix.value[j])
    ensures Displaced(t, FoldLines(x))
  {
    hide First, FoldLines, EndsInCR, DropCR, UnixIn, EnsureUnix, Closed;
    BlockLine(t, x, u, j);
    ShorterWithoutCR(t.unix.value[j]);
    FoldedDrops(x, u + j);
    FoldedHeader(x, u);
    DisplacedAt(t, FoldLines(x), u, j);
  }

  lemma DirtyReading(t: Template, ls: seq<string>)
    requires WellFormed(t) && !CleanTemplate(t) && Disjoint(t, ls)
    ensures Displaced(t, Reading(t, ls))
  {
    hide WellFormed, EnsureUnix, EnsurePlugin, WorksBeside, UnixIn, Close, BlockEnd, First, EndsInCR, FoldLines, Lead;
    var block := t.unix.value;
    var u := StageOneBlock(t, ls);
    u := StageTwoBlock(t, EnsureUnix(t, ls).lines, u);
    var out := EnsurePlugin(t, EnsureUnix(t, ls).lines).lines;
    CloseIsPrefix(out);
    PrefixKeepsBlock(t, out, [""], u);
    var j :| 0 <= j < |block| && EndsInCR(block[j]);
    FoldedBlockDiffers(t, Round(t, ls), u, j);
  }

  // ----- A deep line behind the block -----

  /** The block with a line behind it that prolongs it. */
  lemma GrownReports(t: Template, r: seq<string>, v: nat)
    requires WellFormed(t) && Grown(t, r, v)
    ensures Displaced(t, r)
  {
    hide Lead, Normalize, First, EnsureUnix, UnixIn, WellFormed;
    BlockLines(t, r, v);
    OwnUnixIn(t, r, v);
    var e := v + |t.unix.value|;
    assert forall j | v < j <= e :: InBlock(r[j], Lead(r[v]));
    assert BlockEnd(r, v) > e by { hide InBlock; }
    DisplacedBy(t, r, v);
  }

  lemma OwnUnixIn(t: Template, ls: seq<string>, u: nat)
    requires t.unix.Some? && UnixIn(t, ls, u)
    ensures First(ls, 0, Header(UNIX)) == u
  {
    hide First;
  }

  // ----- An edit in the block -----

  /** What stage two leaves, up to the line where its scan stopped behind the unix header. */
  lemma EditedLines(t: Template, m: seq<string>, u: nat, i: nat, k: nat)
    requires WellFormed(t) && t.unix.Some? && UnixIn(t, m, u)
    requires First(m, 0, Header(PLUGINS)) == i < |m| && Target(t, m, i) == k && u < k
    ensures var out := EnsurePlugin(t, m).lines;
            && k < |out| && First(out, 0, Header(UNIX)) == u
            && (forall y | 0 <= y < k :: y < |m| && out[y] == if y == i then Uncomment(m[y]) else m[y])
            && out[k] == if Found(t, m, k) then Uncomment(m[k]) else EntryLine(t, t.indent + 2)
  {
    hide Normalize, Lead, Has, First, EnsurePlugin, Target, IsCommented, Uncomment, UnixIn, WellFormed, EntryLine, Insert,
         InBlock, Alike;
    if Found(t, m, k) {
      FoundOutcome(t, m, i, k);
    } else {
      InsertOutcome(t, m, i, k);
    }
    var out := EnsurePlugin(t, m).lines;
    OwnUnixIn(t, m, u);
    UncommentIsAlike(m[i]);
    KeysDiffer();
    FirstIs(out, 0, Header(UNIX), u);
  }

  lemma ClosedReading(t: Template, ls: seq<string>, u: nat, y: nat)
    requires var out := PatchLines(t, ls).lines; First(out, 0, Header(UNIX)) == u < |out| && y < |out|
    ensures var out, r := PatchLines(t, ls).lines, Reading(t, ls);
            && First(r, 0, Header(UNIX)) == u < |r| && y < |r|
            && |r[y]| <= |out[y]| && Lead(r[y]) == Lead(out[y]) && (!EndsInCR(out[y]) ==> r[y] == out[y])
  {
    hide Lead, Normalize, First, PatchLines, FoldLines, Close, EndsInCR;
    var out := PatchLines(t, ls).lines;
    CloseIsPrefix(out);
    FirstIs(Close(out), 0, Header(UNIX), u);
    FoldedHeader(Close(out), u);
    FoldedLine(Close(out), y);
  }

  lemma PatchIsStageTwo(t: Template, ls: seq<string>)
    ensures PatchLines(t, ls).lines == EnsurePlugin(t, EnsureUnix(t, ls).lines).lines
  {
    hide EnsureUnix, EnsurePlugin;
  }

  /** A commented line of the block, header or plugin line, loses its mark. */
  lemma UncommentedInUnix(t: Template, ls: seq<string>, u: nat, i: nat, k: nat, y: nat)
    requires WellFormed(t) && t.unix.Some? && UnixIn(t, EnsureUnix(t, ls).lines, u)
    requires var m := EnsureUnix(t, ls).lines;
             && First(m, 0, Header(PLUGINS)) == i < |m| && Target(t, m, i) == k && u <= y < u + |t.unix.value|
             && (y == i || (y == k && Found(t, m, k))) && y < |m| && IsCommented(m[y])
    ensures Displaced(t, Reading(t, ls))
  {
    hide Normalize, Lead, Has, First, EnsurePlugin, EnsureUnix, Target, UnixIn, WellFormed, PatchLines, Reading, EntryLine,
         EndsInCR, Found, Hits, Displaced, IsCommented, Uncomment;
    var m := EnsureUnix(t, ls).lines;
    BlockLine(t, m, u, y - u);
    HeadIsOther(t, m, u, i, k);
    EditedLines(t, m, u, i, k);
    PatchIsStageTwo(t, ls);
    ClosedReading(t, ls, u, y);
    DisplacedAt(t, Reading(t, ls), u, y - u);
  }

  /** The unix header is neither plugins header nor plugin line. */
  lemma HeadIsOther(t: Template, m: seq<string>, u: nat, i: nat, k: nat)
    requires WellFormed(t) && t.unix.Some? && UnixIn(t, m, u)
    requires First(m, 0, Header(PLUGINS)) == i < |m| && Target(t, m, i) == k
    ensures i != u && (Found(t, m, k) ==> k != u) && i < k
  {
    hide Normalize, Lead, First, UnixIn, WellFormed;
    BlockLines(t, m, u);
    KeysDiffer();
    if Found(t, m, k) {
      MentionIsNoHeader(m[k]);
    }
  }

  lemma EntryIsRead(t: Template, ls: seq<string>, u: nat, k: nat)
    requires WellFormed(t)
    requires var out := PatchLines(t, ls).lines;
             First(out, 0, Header(UNIX)) == u < |out| && k < |out| && out[k] == EntryLine(t, t.indent + 2)
    ensures var r := Reading(t, ls);
            First(r, 0, Header(UNIX)) == u < |r| && k < |r| && r[k] == EntryLine(t, t.indent + 2) && Lead(r[k]) == t.indent + 2
  {
    hide Normalize, Lead, Has, First, WellFormed, PatchLines, Reading, EntryLine, EndsInCR;
    InsertedLine(t, t.indent + 2);
    ClosedReading(t, ls, u, k);
  }

  /** An entry inserted into the block differs from the line it displaced. */
  lemma InsertedInUnix(t: Template, ls: seq<string>, u: nat, i: nat, k: nat)
    requires WellFormed(t) && t.unix.Some? && UnixIn(t, EnsureUnix(t, ls).lines, u)
    requires var m := EnsureUnix(t, ls).lines;
             First(m, 0, Header(PLUGINS)) == i < |m| && Target(t, m, i) == k && !Found(t, m, k) && u < k < u + |t.unix.value|
    ensures Displaced(t, Reading(t, ls))
  {
    hide Normalize, Lead, Has, First, EnsurePlugin, EnsureUnix, Target, UnixIn, WellFormed, PatchLines, Reading, EntryLine,
         EndsInCR, Found;
    var m := EnsureUnix(t, ls).lines;
    BlockLine(t, m, u, k - u);
    StopsAtLeaver(t, m, i, k);
    EditedLines(t, m, u, i, k);
    PatchIsStageTwo(t, ls);
    EntryIsRead(t, ls, u, k);
    DisplacedAt(t, Reading(t, ls), u, k - u);
  }

  lemma StaysInBlock(l: string, r: string, base: nat)
    requires InBlock(l, base) && (r == l || r == Uncomment(l) || r == DropCR(l) || r == DropCR(Uncomment(l)))
    ensures InBlock(r, base)
  {
    hide Lead, Uncomment, DropCR, IsCommented;
    UncommentedInBlock(l, base);
    DropCRKeepsKey(l);
    DropCRKeepsKey(Uncomment(l));
    NothingDropped();
  }

  lemma NothingDropped()
    ensures DropCR("") == ""
  {
  }

  lemma ReadLine(x: seq<string>, y: nat)
    requires y < |x|
    ensures FoldLines(x)[y] == x[y] || FoldLines(x)[y] == DropCR(x[y])
  {
    hide FoldLines;
  }

  /** An entry right behind the block, indented deeper than the unix header, prolongs it. */
  lemma ProlongedUnix(t: Template, ls: seq<string>, u: nat, i: nat, k: nat)
    requires WellFormed(t) && t.unix.Some? && UnixIn(t, EnsureUnix(t, ls).lines, u) && |t.unix.value| >= 1
    requires var m := EnsureUnix(t, ls).lines;
             && First(m, 0, Header(PLUGINS)) == i < |m| && Target(t, m, i) == k && !Found(t, m, k)
             && k == u + |t.unix.value| && t.indent + 2 > Lead(t.unix.value[0])
    ensures Displaced(t, Reading(t, ls))
  {
    hide Normalize, Lead, Has, First, EnsurePlugin, EnsureUnix, Target, UnixIn, WellFormed, PatchLines, EntryLine, Close,
         EndsInCR, Found, Uncomment, DropCR, InBlock, FoldLines;
    var m, out, r, base := EnsureUnix(t, ls).lines, PatchLines(t, ls).lines, Reading(t, ls), Lead(t.unix.value[0]);
    BlockLines(t, m, u);
    HeadIsOther(t, m, u, i, k);
    EditedLines(t, m, u, i, k);
    PatchIsStageTwo(t, ls);
    EntryIsRead(t, ls, u, k);
    ClosedReading(t, ls, u, u);
    CloseIsPrefix(out);
    forall y | u < y < k
      ensures InBlock(r[y], base)
    {
      ReadLine(Close(out), y);
      StaysInBlock(m[y], r[y], base);
    }
    DeepIsInBlock(r[k], base);
    BlockReaches(r, u, k);
    DisplacedBy(t, r, u);
  }

  lemma DeepIsInBlock(l: string, base: nat)
    requires Lead(l) > base
    ensures InBlock(l, base)
  {
    hide Lead;
  }

  lemma BlockReaches(r: seq<string>, u: nat, k: nat)
    requires u < k < |r| && forall y | u < y <= k :: InBlock(r[y], Lead(r[u]))
    ensures BlockEnd(r, u) > k
  {
    hide InBlock, Lead;
  }

  /** Where stage two does not work beside the unix block, the next pass reports a change. */
  lemma OverlapReports(t: Template, ls: seq<string>)
    requires WellFormed(t) && !Disjoint(t, ls)
    ensures Displaced(t, Reading(t, ls))
  {
    hide Normalize, Lead, Has, First, EnsurePlugin, EnsureUnix, Target, UnixIn, WellFormed, PatchLines, Reading, EntryLine,
         BlockEnd, IsCommented;
    var m := EnsureUnix(t, ls).lines;
    var u := StageOneBlock(t, ls);
    OwnUnixIn(t, m, u);
    var i := First(m, 0, Header(PLUGINS));
    var k := Target(t, m, i);
    HeadIsOther(t, m, u, i, k);
    if !Harmless(t, m, u, i) {
      UncommentedInUnix(t, ls, u, i, k, i);
    } else if Found(t, m, k) {
      UncommentedInUnix(t, ls, u, i, k, k);
    } else if k < u + |t.unix.value| {
      InsertedInUnix(t, ls, u, i, k);
    } else {
      ProlongedUnix(t, ls, u, i, k);
    }
  }
}
