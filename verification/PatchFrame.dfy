/** Where every line of a pass's output comes from. */
module PatchFrame {
  import opened Text
  import opened Comments
  import opened Blocks
  import opened PatchSpec
  import opened PatchConvergence

  // ----- The pieces -----

  /** The file without its unix block, which stage one may replace. */
  function Outside(t: Template, ls: seq<string>): seq<string> {
    var i := First(ls, 0, Header(UNIX));
    if t.unix.None? || i == |ls| then ls else ls[..i] + ls[BlockEnd(ls, i)..]
  }

  /** How many of these lines stand in front of the template's block. */
  function Cut(t: Template, ls: seq<string>): (c: nat)
    ensures c <= |ls|
  {
    if t.unix.None? then |ls| else First(ls, 0, Header(UNIX))
  }

  /** A blank line, if something is to be put behind text. */
  function Separator(ls: seq<string>): seq<string> {
    if ls != [] && ls[|ls| - 1] != "" then [""] else []
  }

  /** The lines stage one brings in: the template's block, behind a separator if it is appended. */
  function UnixPart(t: Template, ls: seq<string>): seq<string> {
    match t.unix
    case None => []
    case Some(block) => (if First(ls, 0, Header(UNIX)) < |ls| then [] else Separator(ls)) + block
  }

  /** The lines stage two brings in: nothing, the entry, or a section behind a separator. */
  function PluginPart(t: Template, m: seq<string>): seq<string> {
    var i := First(m, 0, Header(PLUGINS));
    if i == |m| then Separator(m) + [PLUGINS, EntryLine(t, 2)]
    else if Found(t, m, Target(t, m, i)) then []
    else [EntryLine(t, t.indent + 2)]
  }

  // ----- Their places in the output -----

  /** The lines appear in `out` at the positions f, in order; those at h and k uncommented. */
  predicate Placed(lines: seq<string>, out: seq<string>, f: seq<nat>, h: nat, k: nat) {
    && |f| == |lines|
    && (forall j | 0 <= j < |f| :: f[j] < |out|)
    && (forall i, j | 0 <= i < j < |f| :: f[i] < f[j])
    && forall j | 0 <= j < |f| :: out[f[j]] == if f[j] == h || f[j] == k then Uncomment(lines[j]) else lines[j]
  }

  /** The positions follow each other, but for one at x. */
  predicate InOnePiece(s: seq<nat>, x: seq<nat>) {
    forall j | 0 < j < |s| :: s[j] == s[j - 1] + 1 || (s[j] == s[j - 1] + 2 && x == [s[j - 1] + 1])
  }

  /** Each position of an output of length n is one of f, s and x, and only one. */
  predicate Partition(n: nat, f: seq<nat>, s: seq<nat>, x: seq<nat>) {
    && n == |f| + |s| + |x|
    && forall y | 0 <= y < n :: y in f || y in s || y in x
  }

  // ----- Stage one -----

  /** m is `kept` with `part` put in behind the first c lines. */
  predicate Joined(m: seq<string>, kept: seq<string>, part: seq<string>, c: nat) {
    && c <= |kept| && |m| == |kept| + |part|
    && (forall j | 0 <= j < |kept| :: m[if j < c then j else j + |part|] == kept[j])
    && forall l | 0 <= l < |part| :: m[c + l] == part[l]
  }

  lemma ReplacedIsJoined(ls: seq<string>, i: nat, e: nat, part: seq<string>)
    requires i <= e <= |ls|
    ensures Joined(ls[..i] + part + ls[e..], ls[..i] + ls[e..], part, i)
  {
  }

  lemma AppendedIsJoined(ls: seq<string>, part: seq<string>)
    ensures Joined(ls + part, ls, part, |ls|)
  {
  }

  lemma SeparatedIs(ls: seq<string>, section: seq<string>)
    ensures Separated(ls) + section == ls + (Separator(ls) + section)
  {
  }

  lemma Resplit(ls: seq<string>, i: nat, e: nat)
    requires i <= e <= |ls|
    ensures ls == ls[..i] + ls[i..e] + ls[e..]
  {
  }

  lemma ReplacedLines(t: Template, ls: seq<string>, i: nat, e: nat)
    requires t.unix.Some? && First(ls, 0, Header(UNIX)) == i < |ls| && BlockEnd(ls, i) == e
    ensures EnsureUnix(t, ls).lines == ls[..i] + t.unix.value + ls[e..]
  {
    hide First, BlockEnd, Separated;
    Resplit(ls, i, e);
  }

  lemma ReplacedPieces(t: Template, ls: seq<string>, i: nat, e: nat)
    requires t.unix.Some? && First(ls, 0, Header(UNIX)) == i < |ls| && BlockEnd(ls, i) == e
    ensures EnsureUnix(t, ls).lines == ls[..i] + t.unix.value + ls[e..]
    ensures Outside(t, ls) == ls[..i] + ls[e..] && UnixPart(t, ls) == t.unix.value && Cut(t, ls) == i
  {
    hide First, BlockEnd, Separator, EnsureUnix, UnixPart;
    ReplacedLines(t, ls, i, e);
    ReplacedPart(t, ls);
  }

  lemma ReplacedPart(t: Template, ls: seq<string>)
    requires t.unix.Some? && First(ls, 0, Header(UNIX)) < |ls|
    ensures UnixPart(t, ls) == t.unix.value
  {
    hide First, Separator;
    assert [] + t.unix.value == t.unix.value;
  }

  lemma AppendedPieces(t: Template, ls: seq<string>)
    requires t.unix.Some? && First(ls, 0, Header(UNIX)) == |ls|
    ensures EnsureUnix(t, ls).lines == ls + UnixPart(t, ls) && Outside(t, ls) == ls && Cut(t, ls) == |ls|
  {
    hide First, BlockEnd, Separator, Separated;
    SeparatedIs(ls, t.unix.value);
  }

  lemma UnchangedPieces(t: Template, ls: seq<string>)
    requires t.unix.None?
    ensures EnsureUnix(t, ls).lines == ls + UnixPart(t, ls) && Outside(t, ls) == ls && Cut(t, ls) == |ls|
  {
    hide First, BlockEnd, Separator;
    assert ls + [] == ls;
  }

  lemma StageOnePieces(t: Template, ls: seq<string>)
    ensures Joined(EnsureUnix(t, ls).lines, Outside(t, ls), UnixPart(t, ls), Cut(t, ls))
    ensures Cut(t, ls) <= |Outside(t, ls)| && |EnsureUnix(t, ls).lines| == |Outside(t, ls)| + |UnixPart(t, ls)|
  {
    hide First, BlockEnd, EnsureUnix, Outside, UnixPart, Cut;
    var i := First(ls, 0, Header(UNIX));
    if t.unix.Some? && i < |ls| {
      ReplacedPieces(t, ls, i, BlockEnd(ls, i));
      ReplacedIsJoined(ls, i, BlockEnd(ls, i), t.unix.value);
    } else {
      if t.unix.Some? {
        AppendedPieces(t, ls);
      } else {
        UnchangedPieces(t, ls);
      }
      AppendedIsJoined(ls, UnixPart(t, ls));
    }
  }

  lemma UnixPartHasNoHeader(t: Template, ls: seq<string>)
    requires WellFormed(t) && DisjointTemplate(t)
    ensures forall l | l in UnixPart(t, ls) :: Normalize(l) != PLUGINS
  {
    hide First, Normalize, Lead;
    BlankIsNoHeader();
  }

  /** With a template of disjoint sections the plugins header that stage two finds is one of the
      file's own, outside its unix block.  */
  lemma HeaderIsOutside(t: Template, ls: seq<string>)
    requires WellFormed(t) && DisjointTemplate(t)
    ensures HasPlugins(t, ls) <==> exists j :: 0 <= j < |Outside(t, ls)| && Normalize(Outside(t, ls)[j]) == PLUGINS
  {
    hide First, Normalize, Outside, UnixPart, Cut, EnsureUnix, WellFormed, DisjointTemplate, Joined;
    var m, kept, part, c := EnsureUnix(t, ls).lines, Outside(t, ls), UnixPart(t, ls), Cut(t, ls);
    StageOnePieces(t, ls);
    UnixPartHasNoHeader(t, ls);
    if j :| 0 <= j < |kept| && Normalize(kept[j]) == PLUGINS {
      var k := JoinedHas(m, kept, part, c, j);
    }
    var i := First(m, 0, Header(PLUGINS));
    if i < |m| {
      JoinedFrom(m, kept, part, c, i);
      var j :| 0 <= j < |kept| && kept[j] == m[i];
    }
  }

  lemma JoinedHas(m: seq<string>, kept: seq<string>, part: seq<string>, c: nat, j: nat) returns (k: nat)
    requires Joined(m, kept, part, c) && j < |kept|
    ensures k < |m| && m[k] == kept[j]
  {
    k := if j < c then j else j + |part|;
  }

  lemma JoinedFrom(m: seq<string>, kept: seq<string>, part: seq<string>, c: nat, i: nat)
    requires Joined(m, kept, part, c) && i < |m|
    ensures m[i] in kept || m[i] in part
  {
    if i < c {
      assert m[i] == kept[i];
    } else if i < c + |part| {
      assert m[c + (i - c)] == part[i - c];
    } else {
      assert m[(i - |part|) + |part|] == kept[i - |part|];
    }
  }

  // ----- Stage two -----

  /** Where a line that stage one left at y ends up, if an entry is inserted at k. */
  function Shift(y: nat, k: nat, inserted: bool): nat {
    if inserted && k <= y then y + 1 else y
  }

  /** What the positions h and k are, and whether the line at k is a new one in front of others. */
  predicate Worked(t: Template, m: seq<string>, out: seq<string>, h: nat, k: nat, inserted: bool) {
    && h == First(out, 0, Header(PLUGINS)) < k < |out| && !IsCommented(out[h])
    && if First(m, 0, Header(PLUGINS)) < |m| then PluginAt(t, out, h, k) && inserted == (PluginPart(t, m) != [])
       else h == |out| - 2 && k == |out| - 1 && !inserted
  }

  predicate Moved(m: seq<string>, out: seq<string>, h: nat, k: nat, inserted: bool) {
    forall y | 0 <= y < |m| ::
      var z := Shift(y, k, inserted);
      z < |out| && out[z] == if z == h || z == k then Uncomment(m[y]) else m[y]
  }

  lemma InsertMoves(m: seq<string>, i: nat, k: nat, x: string)
    requires i < k <= |m|
    ensures var out := Insert(m[i := Uncomment(m[i])], k, x);
            Moved(m, out, i, k, true) && out[k] == x && |out| == |m| + 1
  {
    hide Uncomment;
  }

  lemma UpdatesMove(m: seq<string>, i: nat, k: nat)
    requires i < k < |m|
    ensures Moved(m, m[i := Uncomment(m[i])][k := Uncomment(m[k])], i, k, false)
  {
    hide Uncomment;
  }

  lemma PrefixMoves(m: seq<string>, part: seq<string>, h: nat, k: nat)
    requires |m| <= h && |m| <= k
    ensures Moved(m, m + part, h, k, false)
  {
    hide Uncomment;
  }

  lemma AppendOutcome(t: Template, m: seq<string>)
    requires First(m, 0, Header(PLUGINS)) == |m|
    ensures EnsurePlugin(t, m).lines == m + PluginPart(t, m)
  {
    hide First, EntryLine, Separated, Separator;
    SeparatedIs(m, [PLUGINS, EntryLine(t, 2)]);
  }

  lemma SectionParts(t: Template, m: seq<string>)
    requires WellFormed(t) && First(m, 0, Header(PLUGINS)) == |m|
    ensures var part := PluginPart(t, m);
            && 2 <= |part| <= 3 && part[|part| - 2] == PLUGINS && part[|part| - 1] == EntryLine(t, 2)
            && (|part| == 3 ==> part[0] == "")
            && !IsCommented(PLUGINS) && !IsCommented(EntryLine(t, 2)) && Normalize(PLUGINS) == PLUGINS && Normalize("") != PLUGINS
  {
    hide First, EntryLine, Normalize, IsCommented, Lead, Has, WellFormed, Separator, Target, Found, NoNewline, EndsInCR;
    KeyIsTrimmed(PLUGINS);
    BlankIsNoHeader();
    InsertedLine(t, 2);
    SeparatorIs(m);
  }

  lemma SeparatorIs(m: seq<string>)
    ensures Separator(m) == [] || Separator(m) == [""]
  {
  }

  lemma AppendMoves(t: Template, m: seq<string>)
    requires WellFormed(t) && First(m, 0, Header(PLUGINS)) == |m|
    ensures var out := EnsurePlugin(t, m).lines;
            var h, k := |out| - 2, |out| - 1;
            && out == m + PluginPart(t, m) && Worked(t, m, out, h, k, false) && Moved(m, out, h, k, false)
  {
    hide First, EntryLine, Normalize, IsCommented, Lead, Has, WellFormed, PluginPart, EnsurePlugin, Moved;
    AppendOutcome(t, m);
    SectionParts(t, m);
    var part := PluginPart(t, m);
    var out := m + part;
    PrefixMoves(m, part, |out| - 2, |out| - 1);
    FirstIs(out, 0, Header(PLUGINS), |out| - 2);
  }

  lemma InsertPieces(t: Template, m: seq<string>, i: nat, k: nat)
    requires WellFormed(t) && First(m, 0, Header(PLUGINS)) == i < |m| && Target(t, m, i) == k && !Found(t, m, k)
    ensures var out := EnsurePlugin(t, m).lines;
            && |out| == |m| + 1 && PluginAt(t, out, i, k) && Moved(m, out, i, k, true)
            && k < |out| && PluginPart(t, m) == [out[k]]
  {
    hide First, Target, Found, EntryLine, EnsurePlugin, Uncomment, Insert, Moved, WellFormed, PluginAt, IsCommented;
    InsertOutcome(t, m, i, k);
    InsertedPlugin(t, m, i, k);
    InsertMoves(m, i, k, EntryLine(t, t.indent + 2));
  }

  lemma UncommentPieces(t: Template, m: seq<string>, i: nat, k: nat)
    requires First(m, 0, Header(PLUGINS)) == i < |m| && Target(t, m, i) == k && Found(t, m, k)
    ensures var out := EnsurePlugin(t, m).lines;
            |out| == |m| && PluginAt(t, out, i, k) && Moved(m, out, i, k, false) && PluginPart(t, m) == []
  {
    hide First, Target, Found, EntryLine, EnsurePlugin, Uncomment, Insert, Moved, PluginAt, IsCommented;
    TargetInside(t, m, k);
    UncommentedPlugin(t, m, i, k);
    UpdatesMove(m, i, k);
  }

  lemma StageTwoPieces(t: Template, m: seq<string>) returns (h: nat, k: nat, inserted: bool)
    requires WellFormed(t)
    ensures var out := EnsurePlugin(t, m).lines;
            && |out| == |m| + |PluginPart(t, m)| && Worked(t, m, out, h, k, inserted) && Moved(m, out, h, k, inserted)
            && (inserted ==> [out[k]] == PluginPart(t, m))
            && (First(m, 0, Header(PLUGINS)) == |m| ==> out == m + PluginPart(t, m))
  {
    hide First, Target, Found, EnsurePlugin, Moved, WellFormed, PluginAt, IsCommented, PluginPart;
    var i := First(m, 0, Header(PLUGINS));
    if i == |m| {
      AppendMoves(t, m);
      h, k, inserted := |EnsurePlugin(t, m).lines| - 2, |EnsurePlugin(t, m).lines| - 1, false;
    } else {
      h, k := i, Target(t, m, i);
      inserted := !Found(t, m, k);
      if inserted {
        InsertPieces(t, m, i, k);
      } else {
        UncommentPieces(t, m, i, k);
      }
      PluginAtMeans(t, EnsurePlugin(t, m).lines, i, k);
    }
  }

  lemma TargetInside(t: Template, m: seq<string>, k: nat)
    requires Found(t, m, k)
    ensures k < |m|
  {
  }

  lemma PluginAtMeans(t: Template, ls: seq<string>, i: nat, k: nat)
    requires PluginAt(t, ls, i, k)
    ensures First(ls, 0, Header(PLUGINS)) == i < k < |ls| && !IsCommented(ls[i])
  {
    hide First, IsCommented, Has;
  }

  // ----- The pass -----

  /** The frame of a pass.  Every line outside the file's unix block is kept, in order, at f; the
      template's block stands at s, in one piece but for an entry inserted into it, behind the
      lines that were in front of the file's; the plugin lines that were missing stand at x;
      and nothing else is there.  Exactly the first plugins header, at h, and the plugin line in
      its reach, at k, are uncommented by one mark; an inserted entry is the line at k, and an
      appended section ends the file with h and k.  */
  lemma PatchFrame(t: Template, ls: seq<string>) returns (f: seq<nat>, s: seq<nat>, x: seq<nat>, h: nat, k: nat)
    requires WellFormed(t)
    ensures var m, out := EnsureUnix(t, ls).lines, PatchLines(t, ls).lines;
            && Placed(Outside(t, ls), out, f, h, k)
            && Placed(UnixPart(t, ls), out, s, h, k)
            && Placed(PluginPart(t, m), out, x, h, k)
            && Partition(|out|, f, s, x) && InOnePiece(s, x)
            && (forall j, l | 0 <= j < |f| && 0 <= l < |s| :: f[j] < s[l] <==> j < Cut(t, ls))
            && h == First(out, 0, Header(PLUGINS)) < k < |out|
            && if HasPlugins(t, ls) then k == Target(t, out, h) && Found(t, out, k) && (x == [] || x == [k])
               else h == |out| - 2 && k == |out| - 1 && InOnePiece(x, []) && |x| >= 2 && x[|x| - 1] == k
  {
    hide First, Target, Found, Uncomment, EnsureUnix, EnsurePlugin, Outside, UnixPart, PluginPart, Cut, WellFormed,
         IsCommented, Joined, Moved, Placed, Partition, PatchLines, Worked, Shift, HasPlugins, InOnePiece,
         PlacesOfKept, PlacesOfPart, KeptPlaces, PartPlaces;
    var m, out, kept, part, c := EnsureUnix(t, ls).lines, EnsurePlugin(t, EnsureUnix(t, ls).lines).lines, Outside(t, ls), UnixPart(t, ls), Cut(t, ls);
    StageOnePieces(t, ls);
    var inserted;
    h, k, inserted := StageTwoPieces(t, m);
    f, s := PlacesOfKept(|kept|, |part|, c, k, inserted), PlacesOfPart(|part|, c, k, inserted);
    x := PluginPlaces(t, m, out, h, k, inserted);
    WorkedMeans(t, m, out, h, k, inserted, x);
    KeptArePlaced(kept, part, m, out, f, c, h, k, inserted);
    PartIsPlaced(kept, part, m, out, s, c, h, k, inserted);
    AllCovered(kept, part, m, |out|, f, s, x, c, k, inserted);
    PiecesInOrder(kept, part, f, s, x, c, k, inserted);
    PatchLinesAre(t, ls);
  }

  lemma PatchLinesAre(t: Template, ls: seq<string>)
    ensures PatchLines(t, ls).lines == EnsurePlugin(t, EnsureUnix(t, ls).lines).lines
    ensures HasPlugins(t, ls) <==> First(EnsureUnix(t, ls).lines, 0, Header(PLUGINS)) < |EnsureUnix(t, ls).lines|
  {
    hide First, EnsureUnix, EnsurePlugin;
  }

  lemma WorkedMeans(t: Template, m: seq<string>, out: seq<string>, h: nat, k: nat, inserted: bool, x: seq<nat>)
    requires Worked(t, m, out, h, k, inserted) && |out| == |m| + |x|
    requires First(m, 0, Header(PLUGINS)) < |m| ==> x == if inserted then [k] else []
    requires First(m, 0, Header(PLUGINS)) == |m| ==> |x| >= 2 && forall j | 0 <= j < |x| :: x[j] == |m| + j
    ensures h == First(out, 0, Header(PLUGINS)) < k < |out| && (inserted ==> First(m, 0, Header(PLUGINS)) < |m|)
    ensures First(m, 0, Header(PLUGINS)) < |m| ==> k == Target(t, out, h) && Found(t, out, k) && (x == [] || x == [k])
    ensures First(m, 0, Header(PLUGINS)) == |m| ==>
              h == |out| - 2 && k == |out| - 1 && InOnePiece(x, []) && |x| >= 2 && x[|x| - 1] == k
  {
    hide First, Found, IsCommented, PluginPart;
  }

  lemma PluginPlaces(t: Template, m: seq<string>, out: seq<string>, h: nat, k: nat, inserted: bool) returns (x: seq<nat>)
    requires |out| == |m| + |PluginPart(t, m)| && Worked(t, m, out, h, k, inserted)
    requires inserted ==> [out[k]] == PluginPart(t, m)
    requires First(m, 0, Header(PLUGINS)) == |m| ==> out == m + PluginPart(t, m)
    requires WellFormed(t)
    ensures Placed(PluginPart(t, m), out, x, h, k) && |x| == |PluginPart(t, m)|
    ensures First(m, 0, Header(PLUGINS)) < |m| ==> x == if inserted then [k] else []
    ensures First(m, 0, Header(PLUGINS)) == |m| ==> |x| >= 2 && forall j | 0 <= j < |x| :: x[j] == |m| + j
  {
    hide First, PluginAt, IsCommented, WellFormed, PluginPart, Placed;
    var part := PluginPart(t, m);
    if First(m, 0, Header(PLUGINS)) < |m| {
      x := if inserted then [k] else [];
      if inserted {
        InsertedIsActive(t, m);
        EntryIsPlaced(part, out, h, k);
      } else {
        NothingIsPlaced(out, h, k);
      }
    } else {
      x := seq(|part|, j requires 0 <= j => |m| + j);
      SectionIsPlaced(t, m, out, x, h, k);
    }
  }

  lemma EntryIsPlaced(part: seq<string>, out: seq<string>, h: nat, k: nat)
    requires k < |out| && part == [out[k]] && Uncomment(out[k]) == out[k]
    ensures Placed(part, out, [k], h, k)
  {
    hide Uncomment;
  }

  lemma NothingIsPlaced(out: seq<string>, h: nat, k: nat)
    ensures Placed([], out, [], h, k)
  {
  }

  lemma SectionIsPlaced(t: Template, m: seq<string>, out: seq<string>, x: seq<nat>, h: nat, k: nat)
    requires WellFormed(t) && First(m, 0, Header(PLUGINS)) == |m|
    requires out == m + PluginPart(t, m) && h == |out| - 2 && k == |out| - 1
    requires |x| == |PluginPart(t, m)| && forall j | 0 <= j < |x| :: x[j] == |m| + j
    ensures |x| >= 2 && Placed(PluginPart(t, m), out, x, h, k)
  {
    hide First, WellFormed, PluginPart, EntryLine, IsCommented, Lead, TrimLeft, Normalize;
    SectionParts(t, m);
  }

  lemma PluginPartIs(t: Template, m: seq<string>)
    requires First(m, 0, Header(PLUGINS)) < |m|
    ensures PluginPart(t, m) == [] || PluginPart(t, m) == [EntryLine(t, t.indent + 2)]
  {
    hide First, EntryLine, Target, Found, Hits;
  }

  lemma InsertedIsActive(t: Template, m: seq<string>)
    requires WellFormed(t) && First(m, 0, Header(PLUGINS)) < |m|
    ensures forall l | l in PluginPart(t, m) :: Uncomment(l) == l
  {
    hide First, EntryLine, WellFormed, IsCommented, Target, Found, Lead, Has, Normalize, TrimLeft, Hits, PluginPart;
    InsertedLine(t, t.indent + 2);
    PluginPartIs(t, m);
  }

  predicate KeptPlaces(f: seq<nat>, n: nat, p: nat, c: nat, k: nat, inserted: bool) {
    |f| == n && forall j | 0 <= j < n :: f[j] == Shift(if j < c then j else j + p, k, inserted)
  }

  predicate PartPlaces(s: seq<nat>, p: nat, c: nat, k: nat, inserted: bool) {
    |s| == p && forall l | 0 <= l < p :: s[l] == Shift(c + l, k, inserted)
  }

  function PlacesOfKept(n: nat, p: nat, c: nat, k: nat, inserted: bool): (f: seq<nat>)
    ensures KeptPlaces(f, n, p, c, k, inserted)
  {
    seq<nat>(n, j requires 0 <= j => Shift(if j < c then j else j + p, k, inserted))
  }

  function PlacesOfPart(p: nat, c: nat, k: nat, inserted: bool): (s: seq<nat>)
    ensures PartPlaces(s, p, c, k, inserted)
  {
    seq<nat>(p, l requires 0 <= l => Shift(c + l, k, inserted))
  }

  lemma KeptArePlaced(kept: seq<string>, part: seq<string>, m: seq<string>, out: seq<string>, f: seq<nat>, c: nat,
                      h: nat, k: nat, inserted: bool)
    requires Joined(m, kept, part, c) && Moved(m, out, h, k, inserted) && KeptPlaces(f, |kept|, |part|, c, k, inserted)
    ensures Placed(kept, out, f, h, k)
  {
    hide Uncomment;
  }

  lemma PartIsPlaced(kept: seq<string>, part: seq<string>, m: seq<string>, out: seq<string>, s: seq<nat>, c: nat,
                     h: nat, k: nat, inserted: bool)
    requires Joined(m, kept, part, c) && Moved(m, out, h, k, inserted) && PartPlaces(s, |part|, c, k, inserted)
    ensures Placed(part, out, s, h, k)
  {
    hide Uncomment;
    assert forall l | 0 <= l < |s| :: m[c + l] == part[l];
  }

  lemma PiecesInOrder(kept: seq<string>, part: seq<string>, f: seq<nat>, s: seq<nat>, x: seq<nat>, c: nat, k: nat, inserted: bool)
    requires KeptPlaces(f, |kept|, |part|, c, k, inserted) && PartPlaces(s, |part|, c, k, inserted)
    requires c <= |kept| && (inserted ==> x == [k])
    ensures InOnePiece(s, x)
    ensures forall j, l | 0 <= j < |f| && 0 <= l < |s| :: f[j] < s[l] <==> j < c
  {
    forall j | 0 < j < |s|
      ensures s[j] == s[j - 1] + 1 || (s[j] == s[j - 1] + 2 && x == [s[j - 1] + 1])
    {
      assert s[j] == Shift(c + j, k, inserted) && s[j - 1] == Shift(c + (j - 1), k, inserted);
    }
  }

  lemma PlacesCover(f: seq<nat>, s: seq<nat>, n: nat, p: nat, c: nat, k: nat, inserted: bool, z: nat)
    requires KeptPlaces(f, n, p, c, k, inserted) && PartPlaces(s, p, c, k, inserted) && c <= n && z < n + p
    ensures Shift(z, k, inserted) in f || Shift(z, k, inserted) in s
  {
    if z < c {
      assert f[z] == Shift(z, k, inserted);
    } else if z < c + p {
      assert s[z - c] == Shift(z, k, inserted);
    } else {
      assert f[z - p] == Shift(z, k, inserted);
    }
  }

  lemma AllCovered(kept: seq<string>, part: seq<string>, m: seq<string>, n: nat, f: seq<nat>, s: seq<nat>, x: seq<nat>,
                   c: nat, k: nat, inserted: bool)
    requires Joined(m, kept, part, c) && n == |m| + |x| && (inserted ==> x == [k] && k <= |m|)
    requires KeptPlaces(f, |kept|, |part|, c, k, inserted) && PartPlaces(s, |part|, c, k, inserted)
    requires !inserted ==> forall j | 0 <= j < |x| :: x[j] == |m| + j
    ensures Partition(n, f, s, x)
  {
    hide KeptPlaces, PartPlaces;
    forall y | 0 <= y < n
      ensures y in f || y in s || y in x
    {
      if inserted && y == k {
        assert x[0] == y;
      } else if inserted || y < |m| {
        var z := if inserted && y > k then y - 1 else y;
        assert Shift(z, k, inserted) == y;
        PlacesCover(f, s, |kept|, |part|, c, k, inserted, z);
      } else {
        assert x[y - |m|] == y;
      }
    }
    assert |f| == |kept| && |s| == |part| by { PlaceCounts(f, s, |kept|, |part|, c, k, inserted); }
  }

  lemma PlaceCounts(f: seq<nat>, s: seq<nat>, n: nat, p: nat, c: nat, k: nat, inserted: bool)
    requires KeptPlaces(f, n, p, c, k, inserted) && PartPlaces(s, p, c, k, inserted)
    ensures |f| == n && |s| == p
  {
  }

  // ----- Consequences -----

  /** A line of the output, at most one comment mark less, is one of these. */
  predicate FromFile(t: Template, ls: seq<string>, l: string) {
    l in Outside(t, ls) || l == "" || (t.unix.Some? && l in t.unix.value)
    || l == PLUGINS || l == EntryLine(t, 2) || l == EntryLine(t, t.indent + 2)
  }

  lemma PlacedLine(lines: seq<string>, out: seq<string>, f: seq<nat>, h: nat, k: nat, y: nat) returns (l: string)
    requires Placed(lines, out, f, h, k) && y in f
    ensures l in lines && y < |out| && (out[y] == l || out[y] == Uncomment(l))
  {
    hide Uncomment;
    var j :| 0 <= j < |f| && f[j] == y;
    l := lines[j];
  }

  lemma LineOrigin(t: Template, ls: seq<string>, y: nat) returns (l: string)
    requires WellFormed(t) && y < |PatchLines(t, ls).lines|
    ensures FromFile(t, ls, l) && (PatchLines(t, ls).lines[y] == l || PatchLines(t, ls).lines[y] == Uncomment(l))
  {
    hide First, Target, Found, Uncomment, EnsureUnix, PatchLines, Outside, UnixPart, PluginPart, WellFormed, EntryLine,
         HasPlugins, InOnePiece, Placed, FromFile;
    var f, s, x, h, k := PatchFrame(t, ls);
    var out := PatchLines(t, ls).lines;
    if y in f {
      l := PlacedLine(Outside(t, ls), out, f, h, k, y);
    } else if y in s {
      l := PlacedLine(UnixPart(t, ls), out, s, h, k, y);
    } else {
      l := PlacedLine(PluginPart(t, EnsureUnix(t, ls).lines), out, x, h, k, y);
    }
    PartsAreFromFile(t, ls, l);
  }

  lemma PartsAreFromFile(t: Template, ls: seq<string>, l: string)
    requires l in Outside(t, ls) || l in UnixPart(t, ls) || l in PluginPart(t, EnsureUnix(t, ls).lines)
    ensures FromFile(t, ls, l)
  {
    hide First, EnsureUnix, Outside, UnixPart, PluginPart, EntryLine;
    if l in UnixPart(t, ls) {
      var j :| 0 <= j < |UnixPart(t, ls)| && UnixPart(t, ls)[j] == l;
      UnixPartLines(t, ls, j);
    } else if l in PluginPart(t, EnsureUnix(t, ls).lines) {
      var m := EnsureUnix(t, ls).lines;
      PluginPartLines(t, m, l);
    }
  }

  lemma UnixPartLines(t: Template, ls: seq<string>, j: nat)
    requires j < |UnixPart(t, ls)|
    ensures UnixPart(t, ls)[j] == "" || (t.unix.Some? && UnixPart(t, ls)[j] in t.unix.value)
  {
    hide First;
  }

  lemma SeparatedPair(m: seq<string>, a: string, b: string)
    ensures forall l | l in Separator(m) + [a, b] :: l == "" || l == a || l == b
  {
  }

  lemma PluginPartLines(t: Template, m: seq<string>, l: string)
    requires l in PluginPart(t, m)
    ensures l == "" || l == PLUGINS || l == EntryLine(t, 2) || l == EntryLine(t, t.indent + 2)
  {
    hide First, Found, Target, EntryLine, Separator;
    SeparatedPair(m, PLUGINS, EntryLine(t, 2));
  }

  /** No line outside the unix block is lost. */
  lemma LineKept(t: Template, ls: seq<string>, j: nat) returns (y: nat)
    requires WellFormed(t) && j < |Outside(t, ls)|
    ensures var out := PatchLines(t, ls).lines;
            y < |out| && (out[y] == Outside(t, ls)[j] || out[y] == Uncomment(Outside(t, ls)[j]))
  {
    hide First, Target, Found, Uncomment, EnsureUnix, PatchLines, Outside, UnixPart, PluginPart, WellFormed, HasPlugins,
         InOnePiece, Partition;
    var f, s, x, h, k := PatchFrame(t, ls);
    y := f[j];
  }
}
