/** What repeated passes do whether or not stage two edits the unix block: stage one of the next
    pass puts the block back, and only what stage two did beside it stays.  */
module PatchRestored {
  import opened Text
  import opened Comments
  import opened Blocks
  import opened PatchSpec
  import opened PatchConvergence
  import opened PatchFrame
  import opened PatchTails
  import opened PatchReadings
  import opened PatchOverlap

  // ----- Putting the block back -----

  /** No line beside the block at u ends in more than c carriage returns. */
  predicate BesideWithin(t: Template, m: seq<string>, u: nat, c: nat) {
    forall j | 0 <= j < |m| && Beside(t, u, j) :: Tail(m[j]) <= c
  }

  /** `out` is m with the block at v replaced by w lines that stage one takes for the block. */
  predicate Overgrown(t: Template, m: seq<string>, v: nat, out: seq<string>, w: nat)
    requires t.unix.Some? && |t.unix.value| >= 1 && v + |t.unix.value| <= |m|
  {
    var n, base := |t.unix.value|, Lead(t.unix.value[0]);
    && w >= 1 && |out| == |m| - n + w
    && (forall y | 0 <= y < v :: out[y] == m[y])
    && (forall y | v + n <= y < |m| :: out[y - n + w] == m[y])
    && Normalize(out[v]) == UNIX && Lead(out[v]) == base
    && forall y | v < y < v + w :: InBlock(out[y], base)
  }

  /** What stage one makes of a file that was written from these lines. */
  function Reclosed(t: Template, m: seq<string>, v: nat): (r: seq<string>)
    requires |m| >= 1
  {
    if UnixTrails(t, m, v) then m else Close(m)
  }

  lemma FoldedClean(x: seq<string>, y: nat)
    requires y < |x|
    ensures Normalize(FoldLines(x)[y]) == Normalize(x[y]) && Lead(FoldLines(x)[y]) == Lead(x[y])
    ensures !EndsInCR(x[y]) ==> FoldLines(x)[y] == x[y]
    ensures forall base | InBlock(x[y], base) :: InBlock(FoldLines(x)[y], base)
  {
    hide Lead, FoldLines, Normalize, EndsInCR;
    DropCRKeepsKey(x[y]);
    ReadLine(x, y);
    FoldedKeeps(x, y);
    NothingDropped();
  }

  lemma FoldedKeeps(x: seq<string>, y: nat)
    requires y < |x|
    ensures !EndsInCR(x[y]) ==> FoldLines(x)[y] == x[y]
  {
    hide FoldLines;
  }

  lemma RestoredHead(t: Template, m: seq<string>, v: nat, out: seq<string>, w: nat)
    requires WellFormed(t) && t.unix.Some? && UnixIn(t, m, v) && |t.unix.value| >= 1 && v + |t.unix.value| <= |m|
    requires Overgrown(t, m, v, out, w)
    ensures var r := FoldLines(Close(out));
            && v + w <= |out| <= |r| <= |out| + 1 && First(r, 0, Header(UNIX)) == v
            && Lead(r[v]) == Lead(t.unix.value[0])
            && (forall y | v < y < v + w :: InBlock(r[y], Lead(t.unix.value[0])))
  {
    hide Lead, Normalize, First, FoldLines, Close, EndsInCR, InBlock, WellFormed, UnixTrails;
    var x := Close(out);
    CloseIsPrefix(out);
    OwnUnixIn(t, m, v);
    assert Normalize(out[v]) == UNIX && forall y | 0 <= y < v :: Normalize(out[y]) != UNIX;
    FirstIs(x, 0, Header(UNIX), v);
    FoldedHeader(x, v);
    forall y | v <= y < v + w
      ensures Lead(FoldLines(x)[y]) == Lead(x[y])
      ensures forall base | InBlock(x[y], base) :: InBlock(FoldLines(x)[y], base)
    {
      FoldedClean(x, y);
    }
  }

  lemma SameTail(m: seq<string>, out: seq<string>, a: nat, b: nat)
    requires 1 <= a < |m| && 1 <= b < |out| && |m| - a == |out| - b
    requires forall y | a <= y < |m| :: out[y - a + b] == m[y]
    ensures |Close(m)| - a == |Close(out)| - b
    ensures forall y | a <= y < |Close(m)| :: Close(out)[y - a + b] == Close(m)[y]
  {
    assert out[|out| - 1] == m[|m| - 1];
  }

  lemma SuffixIs(r: seq<string>, b: nat, c: seq<string>, a: nat)
    requires a <= |c| && b <= |r| && |r| - b == |c| - a
    requires forall y | a <= y < |c| :: r[y - a + b] == c[y]
    ensures r[b..] == c[a..]
  {
    forall j | 0 <= j < |r| - b
      ensures r[b..][j] == c[a..][j]
    {
      assert r[(a + j) - a + b] == c[a + j];
    }
  }

  lemma LinesBefore(t: Template, m: seq<string>, v: nat, out: seq<string>, w: nat)
    requires t.unix.Some? && |t.unix.value| >= 1 && v + |t.unix.value| <= |m|
    requires BesideWithin(t, m, v, 0) && Overgrown(t, m, v, out, w)
    ensures var r := FoldLines(Close(out)); v <= |r| && r[..v] == m[..v]
  {
    hide Lead, Normalize, FoldLines, Close, EndsInCR, Tail, InBlock;
    CloseIsPrefix(out);
    forall y | 0 <= y < v
      ensures FoldLines(Close(out))[y] == m[y]
    {
      FoldedKeeps(Close(out), y);
    }
  }

  /** The lines behind the block as the next pass reads them. */
  lemma LinesBehind(t: Template, m: seq<string>, v: nat, out: seq<string>, w: nat)
    requires t.unix.Some? && |t.unix.value| >= 1 && v + |t.unix.value| < |m|
    requires BesideWithin(t, m, v, 0) && Overgrown(t, m, v, out, w)
    ensures var r, e := FoldLines(Close(out)), v + |t.unix.value|;
            |r| - (v + w) == |Close(m)| - e && forall y | e <= y < |Close(m)| :: r[y - e + (v + w)] == Close(m)[y]
  {
    hide Lead, Normalize, FoldLines, Close, EndsInCR, InBlock, BesideWithin;
    var e, x := v + |t.unix.value|, Close(out);
    SameTail(m, out, e, v + w);
    forall y | e <= y < |Close(m)|
      ensures FoldLines(x)[y - e + (v + w)] == Close(m)[y]
    {
      CloseIsClean(t, m, v, y);
      FoldedKeeps(x, y - e + (v + w));
    }
  }

  lemma LinesAround(t: Template, m: seq<string>, v: nat, out: seq<string>, w: nat)
    requires t.unix.Some? && |t.unix.value| >= 1 && v + |t.unix.value| < |m|
    requires BesideWithin(t, m, v, 0) && Overgrown(t, m, v, out, w)
    ensures |out| >= 1
    ensures var r, e := FoldLines(Close(out)), v + |t.unix.value|;
            && v + w < |r| && r[..v] == m[..v] && r[v + w..] == Close(m)[e..] && r[v + w] == m[e]
            && Close(m)[..e] == m[..e]
  {
    hide Lead, Normalize, FoldLines, Close, EndsInCR, InBlock, BesideWithin, Overgrown;
    OvergrownIsSome(t, m, v, out, w);
    LinesBefore(t, m, v, out, w);
    LinesBehind(t, m, v, out, w);
    var e, r := v + |t.unix.value|, FoldLines(Close(out));
    CloseIsPrefix(m);
    SuffixIs(r, v + w, Close(m), e);
    assert r[e - e + (v + w)] == Close(m)[e];
  }

  lemma CloseIsClean(t: Template, m: seq<string>, v: nat, y: nat)
    requires |m| >= 1 && t.unix.Some? && BesideWithin(t, m, v, 0) && v + |t.unix.value| <= y < |Close(m)|
    ensures !EndsInCR(Close(m)[y])
  {
    hide EndsInCR;
    NoCRInBlank();
  }

  lemma BlockEndIs(r: seq<string>, v: nat, base: nat, e: nat)
    requires v < e <= |r| && Lead(r[v]) == base && forall y | v < y < e :: InBlock(r[y], base)
    requires e < |r| ==> !InBlock(r[e], base)
    ensures BlockEnd(r, v) == e
  {
    hide Lead, InBlock, First;
    FirstIs(r, v + 1, Leaves(base), e);
  }

  /** Stage one on lines whose block is to be replaced. */
  lemma PutBack(t: Template, r: seq<string>, v: nat, b: nat, x: seq<string>, m: seq<string>, e: nat)
    requires t.unix.Some? && First(r, 0, Header(UNIX)) == v < |r| && BlockEnd(r, v) == b <= |r|
    requires v <= e <= |m| && e <= |x| && m[v..e] == t.unix.value
    requires r[..v] == m[..v] && x[..e] == m[..e] && r[b..] == x[e..]
    ensures EnsureUnix(t, r).lines == x
  {
    hide First, BlockEnd, EnsureUnix;
    ReplacedLines(t, r, v, b);
    FrontSplits(m, v, e);
    Glued(x, e, m[..v], t.unix.value, r[b..]);
  }

  lemma FrontSplits<T>(m: seq<T>, v: nat, e: nat)
    requires v <= e <= |m|
    ensures m[..e] == m[..v] + m[v..e]
  {
  }

  lemma Glued<T>(x: seq<T>, e: nat, front: seq<T>, block: seq<T>, back: seq<T>)
    requires e <= |x| && x[..e] == front + block && x[e..] == back
    ensures front + block + back == x
  {
    assert x == x[..e] + x[e..];
  }

  lemma BlockAround(t: Template, m: seq<string>, v: nat, out: seq<string>, w: nat)
    requires WellFormed(t) && t.unix.Some? && UnixIn(t, m, v) && |t.unix.value| >= 1 && v + |t.unix.value| < |m|
    requires !InBlock(m[v + |t.unix.value|], Lead(t.unix.value[0]))
    requires BesideWithin(t, m, v, 0) && Overgrown(t, m, v, out, w)
    ensures |out| >= 1
    ensures var r := FoldLines(Close(out)); First(r, 0, Header(UNIX)) == v < |r| && BlockEnd(r, v) == v + w
  {
    hide Lead, Normalize, First, FoldLines, Close, WellFormed, InBlock, BesideWithin, Overgrown, UnixIn, BlockEnd;
    OvergrownIsSome(t, m, v, out, w);
    RestoredHead(t, m, v, out, w);
    LinesAround(t, m, v, out, w);
    BlockEndIs(FoldLines(Close(out)), v, Lead(t.unix.value[0]), v + w);
  }

  /** With lines behind the block. */
  lemma RestoredInside(t: Template, m: seq<string>, v: nat, out: seq<string>, w: nat)
    requires WellFormed(t) && t.unix.Some? && UnixIn(t, m, v) && |t.unix.value| >= 1 && v + |t.unix.value| < |m|
    requires !InBlock(m[v + |t.unix.value|], Lead(t.unix.value[0]))
    requires BesideWithin(t, m, v, 0) && Overgrown(t, m, v, out, w)
    ensures EnsureUnix(t, FoldLines(Close(out))).lines == Close(m)
  {
    hide Lead, Normalize, First, FoldLines, Close, WellFormed, EnsureUnix, InBlock, BesideWithin, Overgrown, UnixIn, BlockEnd;
    BlockAround(t, m, v, out, w);
    LinesAround(t, m, v, out, w);
    BlockSlice(t, m, v);
    CloseIsPrefix(m);
    PutBack(t, FoldLines(Close(out)), v, v + w, Close(m), m, v + |t.unix.value|);
  }

  lemma OvergrownIsSome(t: Template, m: seq<string>, v: nat, out: seq<string>, w: nat)
    requires t.unix.Some? && |t.unix.value| >= 1 && v + |t.unix.value| <= |m| && Overgrown(t, m, v, out, w)
    ensures w >= 1 && |out| >= 1
  {
  }

  lemma BehindBlock(t: Template, m: seq<string>, v: nat)
    requires t.unix.Some? && UnixAt(t, m, v) && v + |t.unix.value| < |m|
    ensures !InBlock(m[v + |t.unix.value|], Lead(t.unix.value[0]))
  {
    hide First, Lead, InBlock;
  }

  lemma NoCRInBlank()
    ensures !EndsInCR("")
  {
  }

  lemma BlockSlice(t: Template, m: seq<string>, v: nat)
    requires t.unix.Some? && UnixIn(t, m, v)
    ensures v + |t.unix.value| <= |m| && m[v..v + |t.unix.value|] == t.unix.value
  {
    hide First;
  }

  /** With the block at the end. */
  lemma RestoredAtEnd(t: Template, m: seq<string>, v: nat, out: seq<string>, w: nat)
    requires WellFormed(t) && t.unix.Some? && UnixIn(t, m, v) && |t.unix.value| >= 1 && v + |t.unix.value| == |m|
    requires BesideWithin(t, m, v, 0) && Overgrown(t, m, v, out, w)
    ensures EnsureUnix(t, FoldLines(Close(out))).lines == m
  {
    hide Lead, Normalize, First, FoldLines, Close, EndsInCR, WellFormed, EnsureUnix;
    var x := Close(out);
    var r := FoldLines(x);
    RestoredHead(t, m, v, out, w);
    CloseIsPrefix(out);
    LastIsBlank(out);
    forall y | 0 <= y < v
      ensures r[y] == m[y]
    {
      FoldedKeeps(x, y);
    }
    NoCRInBlank();
    if |r| > |out| {
      FoldedKeeps(x, |out|);
    }
    BlockEndIs(r, v, Lead(t.unix.value[0]), |r|);
    ReplacedLines(t, r, v, |r|);
    BlockSlice(t, m, v);
    assert r[..v] == m[..v] && r[|r|..] == [];
    assert m == m[..v] + t.unix.value + [];
  }

  lemma LastIsBlank(out: seq<string>)
    requires |out| >= 1
    ensures |Close(out)| > |out| ==> Close(out)[|out|] == ""
  {
  }

  /** Stage one puts the block back, whatever stands in its place, and keeps the rest. */
  lemma Restored(t: Template, m: seq<string>, v: nat, out: seq<string>, w: nat)
    requires WellFormed(t) && t.unix.Some? && UnixAt(t, m, v) && |t.unix.value| >= 1 && v + |t.unix.value| <= |m|
    requires BesideWithin(t, m, v, 0) && Overgrown(t, m, v, out, w)
    ensures EnsureUnix(t, FoldLines(Close(out))).lines == Reclosed(t, m, v)
  {
    hide Lead, Normalize, First, FoldLines, WellFormed, EnsureUnix, BesideWithin, Overgrown, UnixAt, UnixIn, InBlock;
    AtIsIn(t, m, v);
    if v + |t.unix.value| < |m| {
      BehindBlock(t, m, v);
      RestoredInside(t, m, v, out, w);
    } else {
      RestoredAtEnd(t, m, v, out, w);
      BlankEnd(t, m, v);
    }
  }

  lemma BlankEnd(t: Template, m: seq<string>, v: nat)
    requires WellFormed(t) && t.unix.Some? && UnixAt(t, m, v) && v + |t.unix.value| == |m|
    ensures |m| >= 1 && (!UnixTrails(t, m, v) ==> Close(m) == m)
  {
    hide Lead, Normalize, First;
    AtIsIn(t, m, v);
    BlockSlice(t, m, v);
    BlankIsNoHeader();
    var block := t.unix.value;
    assert m[|m| - 1] == m[v..|m|][|block| - 1];
  }

  // ----- One pass -----

  /** The block at u, the plugins header at i, and its scan stopping at k. */
  predicate Standing(t: Template, m: seq<string>, u: nat, i: nat, k: nat) {
    && t.unix.Some? && |t.unix.value| >= 1 && UnixIn(t, m, u) && u + |t.unix.value| <= |m|
    && First(m, 0, Header(PLUGINS)) == i < |m| && Target(t, m, i) == k
  }

  /** And the block ends where the template's does, and nothing beside it is folded any more. */
  predicate Ready(t: Template, m: seq<string>, u: nat, i: nat, k: nat) {
    Standing(t, m, u, i, k) && UnixAt(t, m, u) && BesideWithin(t, m, u, 0)
  }

  /** What remains of an edit when the block has been put back. */
  function Remains(t: Template, m: seq<string>, u: nat, j: nat): string
    requires j < |m|
  {
    if Beside(t, u, j) then Uncomment(m[j]) else m[j]
  }

  function NextState(t: Template, m: seq<string>, u: nat, i: nat, k: nat): seq<string>
    requires t.unix.Some? && |t.unix.value| >= 1 && i < |m| && k <= |m|
  {
    var active := m[i := Remains(t, m, u, i)];
    if Found(t, m, k) then active[k := Remains(t, m, u, k)]
    else if KeepsOut(t, u, k) then Insert(active, k, EntryLine(t, t.indent + 2))
    else active
  }

  function NextPlace(t: Template, m: seq<string>, u: nat, k: nat): nat {
    if !Found(t, m, k) && k <= u then u + 1 else u
  }

  lemma RemainsKeeps(t: Template, m: seq<string>, u: nat, j: nat)
    requires j < |m| && (Normalize(m[j]) == PLUGINS || Has(m[j]))
    ensures var x := Remains(t, m, u, j);
            && (x == m[j] || (Beside(t, u, j) && x == Uncomment(m[j])))
            && Lead(x) == Lead(m[j]) && x != "" && m[j] != "" && Normalize(x) != UNIX
            && (Normalize(x) == PLUGINS <==> Normalize(m[j]) == PLUGINS) && Has(x) == Has(m[j])
            && Tail(x) == Tail(m[j])
  {
    hide Normalize, Has, Lead, Uncomment, IsCommented, Tail;
    KeysDiffer();
    UncommentKeepsTail(m[j]);
    HasIsContains(m[j]);
    if Has(m[j]) {
      MentionUncommented(m[j]);
      BlankIsNoHeader();
    } else {
      HeaderUncommented(m[j], PLUGINS);
    }
  }

  lemma TargetMeans(t: Template, m: seq<string>, i: nat, k: nat)
    requires i < |m| && Target(t, m, i) == k
    ensures i < k <= |m| && (Found(t, m, k) ==> k < |m| && Has(m[k]))
  {
    hide Has, Lead, InBlock;
  }

  lemma UpdateWithin(t: Template, m: seq<string>, u: nat, j: nat, x: string, c: nat)
    requires BesideWithin(t, m, u, c) && j < |m| && Tail(x) == Tail(m[j])
    ensures BesideWithin(t, m[j := x], u, c)
  {
    hide Tail;
  }

  lemma InsertWithin(t: Template, m: seq<string>, u: nat, k: nat, x: string, c: nat)
    requires BesideWithin(t, m, u, c) && k <= |m| && Tail(x) == 0 && t.unix.Some? && (k <= u || u + |t.unix.value| <= k)
    ensures BesideWithin(t, Insert(m, k, x), if k <= u then u + 1 else u, c)
  {
    hide Tail;
  }

  /** Lines that answer the scans alike are scanned alike. */
  lemma SameScan(t: Template, m: seq<string>, s: seq<string>, i: nat, k: nat)
    requires First(m, 0, Header(PLUGINS)) == i < |m| && Target(t, m, i) == k && k <= |s|
    requires forall j | 0 <= j < k && j != i :: j < |m| && s[j] == m[j]
    requires i < |s| && Normalize(s[i]) == PLUGINS
    requires if k < |m| then k < |s| && (s[k] == m[k] || (Lead(s[k]) == Lead(m[k]) && Has(s[k]) && Has(m[k])) || (Has(s[k]) && Lead(s[k]) > t.indent))
             else k == |s| || (Has(s[k]) && Lead(s[k]) > t.indent)
    ensures First(s, 0, Header(PLUGINS)) == i && Target(t, s, i) == k
  {
    hide Normalize, Has, Lead, First;
    FirstIs(s, 0, Header(PLUGINS), i);
    FirstIs(s, i + 1, Stops(t.indent), k);
  }

  lemma FoundState(t: Template, m: seq<string>, u: nat, i: nat, k: nat, c: nat)
    requires WellFormed(t) && Standing(t, m, u, i, k) && BesideWithin(t, m, u, c) && Found(t, m, k) && k < |m|
    ensures var s := NextState(t, m, u, i, k);
            |s| == |m| && Standing(t, s, u, i, k) && BesideWithin(t, s, u, c) && Found(t, s, k)
            && (UnixAt(t, m, u) ==> UnixAt(t, s, u))
  {
    hide Normalize, Has, Lead, Uncomment, IsCommented, Tail, First, UnixAt, UnixIn, BesideWithin, Remains, WellFormed, Target;
    TargetMeans(t, m, i, k);
    RemainsKeeps(t, m, u, i);
    RemainsKeeps(t, m, u, k);
    MentionIsNoHeader(m[k]);
    var x, y := Remains(t, m, u, i), Remains(t, m, u, k);
    UpdateWithin(t, m, u, i, x, c);
    UpdateWithin(t, m[i := x], u, k, y, c);
    UpdateKeepsBlock(t, m, u, i, x);
    UpdateKeepsBlock(t, m[i := x], u, k, y);
    if UnixAt(t, m, u) {
      UpdateKeepsUnix(t, m, u, i, x);
      UpdateKeepsUnix(t, m[i := x], u, k, y);
    }
    SameScan(t, m, m[i := x][k := y], i, k);
  }

  lemma InsertState(t: Template, m: seq<string>, u: nat, i: nat, k: nat, c: nat)
    requires WellFormed(t) && Standing(t, m, u, i, k) && BesideWithin(t, m, u, c)
    requires !Found(t, m, k) && KeepsOut(t, u, k) && k <= |m|
    ensures var s, v := NextState(t, m, u, i, k), if k <= u then u + 1 else u;
            && |s| == |m| + 1 && Standing(t, s, v, i, k) && BesideWithin(t, s, v, c)
            && Found(t, s, k) && Beside(t, v, k) && s[k] == EntryLine(t, t.indent + 2)
            && (UnixAt(t, m, u) ==> UnixAt(t, s, v))
  {
    hide Normalize, Has, Lead, Uncomment, IsCommented, Tail, First, UnixAt, UnixIn, BesideWithin, Remains, WellFormed,
         EntryLine, Insert, KeepsOut, Target;
    TargetMeans(t, m, i, k);
    RemainsKeeps(t, m, u, i);
    InsertedLine(t, t.indent + 2);
    KeepsOutMeans(t, u, k);
    var x, y := EntryLine(t, t.indent + 2), Remains(t, m, u, i);
    var active := m[i := y];
    UpdateWithin(t, m, u, i, y, c);
    UpdateKeepsBlock(t, m, u, i, y);
    InsertWithin(t, active, u, k, x, c);
    InsertKeepsBlock(t, active, u, k, x);
    if UnixAt(t, m, u) {
      UpdateKeepsUnix(t, m, u, i, y);
      if k <= u {
        InsertBeforeUnix(t, active, u, k, x);
      } else {
        InsertBehindUnix(t, active, u, k, x);
      }
    }
    SameScan(t, m, Insert(active, k, x), i, k);
    PlacedIsFound(t, Insert(active, k, x), k);
  }

  lemma PlacedIsFound(t: Template, s: seq<string>, k: nat)
    requires k < |s| && Has(s[k]) && Lead(s[k]) > t.indent
    ensures Found(t, s, k)
  {
    hide Has, Lead;
  }

  lemma PutBackState(t: Template, m: seq<string>, u: nat, i: nat, k: nat, c: nat)
    requires WellFormed(t) && Standing(t, m, u, i, k) && BesideWithin(t, m, u, c)
    requires !Found(t, m, k) && !KeepsOut(t, u, k) && k <= |m|
    ensures var s := NextState(t, m, u, i, k);
            && |s| == |m| && Standing(t, s, u, i, k) && BesideWithin(t, s, u, c)
            && !Found(t, s, k) && u < k <= u + |t.unix.value| && (UnixAt(t, m, u) ==> UnixAt(t, s, u))
  {
    hide Normalize, Has, Lead, Uncomment, IsCommented, Tail, First, UnixAt, UnixIn, BesideWithin, Remains, WellFormed, InBlock,
         Target;
    TargetMeans(t, m, i, k);
    RemainsKeeps(t, m, u, i);
    var y := Remains(t, m, u, i);
    UpdateWithin(t, m, u, i, y, c);
    UpdateKeepsBlock(t, m, u, i, y);
    if UnixAt(t, m, u) {
      UpdateKeepsUnix(t, m, u, i, y);
    }
    SameScan(t, m, m[i := y], i, k);
  }

  // ----- What it leaves of the block -----

  lemma StandingBlock(t: Template, m: seq<string>, u: nat, i: nat, k: nat)
    requires WellFormed(t) && Standing(t, m, u, i, k)
    ensures Normalize(m[u]) == UNIX && Lead(m[u]) == Lead(t.unix.value[0]) && i != u && (Found(t, m, k) ==> k != u) && i < k
    ensures forall y | u < y < u + |t.unix.value| :: InBlock(m[y], Lead(t.unix.value[0]))
  {
    hide Normalize, Lead, First, UnixIn, WellFormed;
    BlockLines(t, m, u);
    HeadIsOther(t, m, u, i, k);
  }

  lemma FoundOvergrown(t: Template, m: seq<string>, u: nat, i: nat, k: nat)
    requires WellFormed(t) && Standing(t, m, u, i, k) && Found(t, m, k) && k < |m|
    ensures var s := NextState(t, m, u, i, k);
            |s| == |m| && Overgrown(t, s, u, EnsurePlugin(t, m).lines, |t.unix.value|)
  {
    hide Normalize, Has, Lead, Uncomment, IsCommented, First, UnixIn, WellFormed, Target, EnsurePlugin, InBlock;
    FoundOutcome(t, m, i, k);
    StandingBlock(t, m, u, i, k);
    var out, base := EnsurePlugin(t, m).lines, Lead(t.unix.value[0]);
    forall y | u < y < u + |t.unix.value|
      ensures InBlock(out[y], base)
    {
      UncommentedInBlock(m[y], base);
    }
  }

  lemma ShiftedLines(m: seq<string>, k: nat, x: string)
    requires k <= |m|
    ensures var out := Insert(m, k, x);
            |out| == |m| + 1 && out[k] == x && forall z | 0 <= z < |m| :: out[if z < k then z else z + 1] == m[z]
  {
  }

  lemma InsertOvergrown(t: Template, m: seq<string>, u: nat, i: nat, k: nat)
    requires WellFormed(t) && Standing(t, m, u, i, k) && !Found(t, m, k) && KeepsOut(t, u, k) && k <= |m|
    ensures var s, v := NextState(t, m, u, i, k), if k <= u then u + 1 else u;
            |s| == |m| + 1 && v + |t.unix.value| <= |s| && Overgrown(t, s, v, EnsurePlugin(t, m).lines, |t.unix.value|)
  {
    hide Normalize, Has, Lead, Uncomment, IsCommented, First, UnixIn, WellFormed, Target,
         EnsurePlugin, InBlock, EntryLine, KeepsOut, Found, Insert;
    InsertOutcome(t, m, i, k);
    StandingBlock(t, m, u, i, k);
    KeepsOutMeans(t, u, k);
    var n, base, v, x := |t.unix.value|, Lead(t.unix.value[0]), if k <= u then u + 1 else u, EntryLine(t, t.indent + 2);
    var s, out := NextState(t, m, u, i, k), EnsurePlugin(t, m).lines;
    ShiftedLines(m[i := Uncomment(m[i])], k, x);
    ShiftedLines(m[i := Remains(t, m, u, i)], k, x);
    forall y | v <= y < v + n
      ensures y > v ==> InBlock(out[y], base)
      ensures y == v ==> out[y] == m[u]
    {
      var z := if k <= u then y - 1 else y;
      assert out[if z < k then z else z + 1] == if z == i then Uncomment(m[z]) else m[z];
      UncommentedInBlock(m[z], base);
    }
    forall y | 0 <= y < v || v + n <= y < |s|
      ensures out[y] == s[y]
    {
    }
  }

  /** Where the entry gets into the block, it is indented deeper than the unix header. */
  lemma EntryIsDeep(t: Template, m: seq<string>, u: nat, i: nat, k: nat)
    requires WellFormed(t) && Standing(t, m, u, i, k) && !Found(t, m, k) && !KeepsOut(t, u, k) && u < k <= u + |t.unix.value|
    ensures t.indent + 2 > Lead(t.unix.value[0])
  {
    hide Normalize, Has, Lead, First, UnixIn, WellFormed, Target, Found;
    if k < u + |t.unix.value| {
      StandingBlock(t, m, u, i, k);
      StopsAtLeaver(t, m, i, k);
    }
  }

  lemma PutBackOvergrown(t: Template, m: seq<string>, u: nat, i: nat, k: nat)
    requires WellFormed(t) && Standing(t, m, u, i, k) && !Found(t, m, k) && !KeepsOut(t, u, k) && k <= |m|
    requires u < k <= u + |t.unix.value|
    ensures var s := NextState(t, m, u, i, k);
            |s| == |m| && Overgrown(t, s, u, EnsurePlugin(t, m).lines, |t.unix.value| + 1)
  {
    hide Normalize, Has, Lead, Uncomment, IsCommented, First, UnixIn, WellFormed, Target,
         EnsurePlugin, InBlock, EntryLine, KeepsOut, Found, Insert;
    InsertOutcome(t, m, i, k);
    StandingBlock(t, m, u, i, k);
    InsertedLine(t, t.indent + 2);
    EntryIsDeep(t, m, u, i, k);
    var n, base, x := |t.unix.value|, Lead(t.unix.value[0]), EntryLine(t, t.indent + 2);
    var s, out := NextState(t, m, u, i, k), EnsurePlugin(t, m).lines;
    ShiftedLines(m[i := Uncomment(m[i])], k, x);
    DeepIsInBlock(x, base);
    forall y | u < y < u + n + 1
      ensures InBlock(out[y], base)
    {
      if y != k {
        var z := if y < k then y else y - 1;
        assert out[if z < k then z else z + 1] == if z == i then Uncomment(m[z]) else m[z];
        UncommentedInBlock(m[z], base);
      }
    }
    assert out[if u < k then u else u + 1] == m[u];
    forall z | 0 <= z < u || u + n <= z < |m|
      ensures out[if z < u then z else z - n + (n + 1)] == s[z]
    {
      assert out[if z < k then z else z + 1] == if z == i then Uncomment(m[z]) else m[z];
    }
  }

  lemma StateStands(t: Template, m: seq<string>, u: nat, i: nat, k: nat, c: nat)
    requires WellFormed(t) && Standing(t, m, u, i, k) && BesideWithin(t, m, u, c) && k <= |m|
    ensures var s, v := NextState(t, m, u, i, k), NextPlace(t, m, u, k);
            Standing(t, s, v, i, k) && BesideWithin(t, s, v, c) && (UnixAt(t, m, u) ==> UnixAt(t, s, v))
  {
    hide First, Target, UnixIn, BesideWithin, UnixAt, Found, KeepsOut, NextState, WellFormed;
    TargetMeans(t, m, i, k);
    if Found(t, m, k) {
      FoundState(t, m, u, i, k, c);
    } else if KeepsOut(t, u, k) {
      InsertState(t, m, u, i, k, c);
    } else {
      PutBackState(t, m, u, i, k, c);
    }
  }

  /** What a pass leaves, seen from the next: the lines beside the block, and the block or what
      stage one takes for it.  */
  lemma PassOvergrows(t: Template, m: seq<string>, u: nat, i: nat, k: nat, c: nat) returns (w: nat)
    requires WellFormed(t) && Standing(t, m, u, i, k) && BesideWithin(t, m, u, c) && k <= |m|
    ensures var s, v := NextState(t, m, u, i, k), NextPlace(t, m, u, k);
            && Standing(t, s, v, i, k) && BesideWithin(t, s, v, c) && (UnixAt(t, m, u) ==> UnixAt(t, s, v))
            && Overgrown(t, s, v, EnsurePlugin(t, m).lines, w)
            && w == |t.unix.value| + if !Found(t, m, k) && !KeepsOut(t, u, k) then 1 else 0
  {
    hide First, Target, UnixIn, BesideWithin, UnixAt, Overgrown, EnsurePlugin, Found, KeepsOut, NextState, WellFormed;
    w := |t.unix.value|;
    TargetMeans(t, m, i, k);
    StateStands(t, m, u, i, k, c);
    if Found(t, m, k) {
      FoundOvergrown(t, m, u, i, k);
    } else if KeepsOut(t, u, k) {
      InsertOvergrown(t, m, u, i, k);
    } else {
      PutBackState(t, m, u, i, k, c);
      PutBackOvergrown(t, m, u, i, k);
      w := w + 1;
    }
  }

  // ----- Carriage returns beside the block -----

  /** The lines that stage one keeps are the lines beside the block. */
  lemma KeptWithin(t: Template, ls: seq<string>, u: nat, c: nat)
    requires WellFormed(t) && t.unix.Some? && UnixIn(t, EnsureUnix(t, ls).lines, u) && Within(Outside(t, ls), c)
    ensures BesideWithin(t, EnsureUnix(t, ls).lines, u, c)
  {
    hide UnixIn, EnsureUnix, First, BlockEnd, Tail, Outside, Separated, Normalize, Lead, Contains, InBlock;
    var m, block, i := EnsureUnix(t, ls).lines, t.unix.value, First(ls, 0, Header(UNIX));
    OwnUnixIn(t, m, u);
    if i == |ls| {
      AppendedUnixLines(t, ls);
      AppendedIsFirst(ls, block);
      AllOutside(t, ls);
      SeparatedWithin(ls, c);
    } else {
      ReplacedPieces(t, ls, i, BlockEnd(ls, i));
      ReplacedIsFirst(ls, i, BlockEnd(ls, i), block);
      PiecesWithin(t, ls, i, BlockEnd(ls, i), c);
    }
  }

  lemma AllOutside(t: Template, ls: seq<string>)
    requires First(ls, 0, Header(UNIX)) == |ls|
    ensures Outside(t, ls) == ls
  {
    hide First;
  }

  lemma SeparatedWithin(ls: seq<string>, c: nat)
    requires Within(ls, c)
    ensures Within(Separated(ls), c)
  {
    hide Tail;
    NoTail();
  }

  lemma PiecesWithin(t: Template, ls: seq<string>, i: nat, e: nat, c: nat)
    requires t.unix.Some? && i <= e <= |ls| && Within(ls[..i] + ls[e..], c)
    ensures BesideWithin(t, ls[..i] + t.unix.value + ls[e..], i, c)
  {
    hide Tail;
    var m, p := ls[..i] + t.unix.value + ls[e..], ls[..i] + ls[e..];
    forall j | 0 <= j < |m| && Beside(t, i, j)
      ensures Tail(m[j]) <= c
    {
      assert m[j] == p[if j < i then j else j - |t.unix.value|];
    }
  }

  /** What stage two appends ends in no carriage return. */
  lemma SectionOvergrows(t: Template, m: seq<string>, u: nat, c: nat)
    requires WellFormed(t) && t.unix.Some? && UnixIn(t, m, u) && BesideWithin(t, m, u, c)
    requires First(m, 0, Header(PLUGINS)) == |m|
    ensures var out := EnsurePlugin(t, m).lines;
            |t.unix.value| >= 1 && u + |t.unix.value| <= |out|
            && UnixIn(t, out, u) && BesideWithin(t, out, u, c) && Overgrown(t, out, u, out, |t.unix.value|)
  {
    hide WellFormed, UnixIn, First, Tail, EnsurePlugin, PluginPart, Normalize, Lead, InBlock, EntryLine, IsCommented;
    var out, part := EnsurePlugin(t, m).lines, PluginPart(t, m);
    AppendOutcome(t, m);
    PrefixKeepsBlock(t, m, part, u);
    BlockLines(t, out, u);
    SectionParts(t, m);
    InsertedLine(t, 2);
    NoTail();
    assert Tail(PLUGINS) == 0 && Tail(EntryLine(t, 2)) == 0;
    assert forall j | 0 <= j < |part| :: Tail(part[j]) == 0;
  }

  /** The lines that stage one of the next pass keeps are lines beside the block, folded. */
  lemma FoldedOutside(t: Template, m: seq<string>, v: nat, out: seq<string>, w: nat, c: nat)
    requires WellFormed(t) && t.unix.Some? && UnixIn(t, m, v) && |t.unix.value| >= 1 && v + |t.unix.value| <= |m|
    requires BesideWithin(t, m, v, c) && Overgrown(t, m, v, out, w)
    ensures |out| >= 1 && Within(Outside(t, FoldLines(Close(out))), if c > 0 then c - 1 else 0)
  {
    hide WellFormed, UnixIn, First, Tail, Outside, FoldLines, Close, InBlock, Lead, Overgrown, BesideWithin, EnsureUnix,
         BlockEnd, Within, UnixPart, Cut, Normalize;
    OvergrownIsSome(t, m, v, out, w);
    var r, d: nat := FoldLines(Close(out)), if c > 0 then c - 1 else 0;
    RestoredHead(t, m, v, out, w);
    BlockCovers(r, v, w, Lead(t.unix.value[0]));
    var b := BlockEnd(r, v);
    ReplacedPieces(t, r, v, b);
    forall y | 0 <= y < |r| && (y < v || v + w <= y)
      ensures Tail(r[y]) <= d
    {
      BesideIsFolded(t, m, v, out, w, c, y);
    }
    OutsideWithin(r, v, b, d);
  }

  lemma OutsideWithin(r: seq<string>, v: nat, b: nat, d: nat)
    requires v <= b <= |r| && forall y | 0 <= y < |r| && (y < v || b <= y) :: Tail(r[y]) <= d
    ensures Within(r[..v] + r[b..], d)
  {
    hide Tail;
    assert forall j | 0 <= j < |r[..v] + r[b..]| :: (r[..v] + r[b..])[j] == r[if j < v then j else j - v + b];
  }

  lemma BlockCovers(r: seq<string>, v: nat, w: nat, base: nat)
    requires w >= 1 && v + w <= |r| && Lead(r[v]) == base && forall y | v < y < v + w :: InBlock(r[y], base)
    ensures v + w <= BlockEnd(r, v) <= |r|
  {
    hide InBlock, Lead;
  }

  lemma BesideIsFolded(t: Template, m: seq<string>, v: nat, out: seq<string>, w: nat, c: nat, y: nat)
    requires t.unix.Some? && |t.unix.value| >= 1 && v + |t.unix.value| <= |m|
    requires BesideWithin(t, m, v, c) && Overgrown(t, m, v, out, w)
    requires |out| >= 1 && y < |Close(out)| && (y < v || v + w <= y)
    ensures Tail(FoldLines(Close(out))[y]) <= if c > 0 then c - 1 else 0
  {
    hide FoldLines, Close, Tail, DropCR, InBlock, Lead, Normalize;
    var x := Close(out);
    CloseIsPrefix(out);
    NoTail();
    if y < |out| {
      assert out[y] == m[if y < v then y else y - w + |t.unix.value|] by { assert y >= v + w ==> y == (y - w + |t.unix.value|) - |t.unix.value| + w; }
    }
    LineFolds(x, y);
  }

  lemma LineFolds(x: seq<string>, y: nat)
    requires |x| >= 1 && y < |x| && x[|x| - 1] == ""
    ensures Tail(FoldLines(x)[y]) == if Tail(x[y]) > 0 then Tail(x[y]) - 1 else 0
  {
    hide FoldLines, Tail, DropCR;
    NoTail();
    DropTail(x[y]);
  }

  /** For every template and every file: a line that stage one keeps loses one carriage return
      from one pass to the next.  */
  lemma OutsideShortens(t: Template, ls: seq<string>)
    requires WellFormed(t) && t.unix.Some?
    ensures var c := MaxTail(Outside(t, ls)); MaxTail(Outside(t, Reading(t, ls))) <= if c > 0 then c - 1 else 0
  {
    hide WellFormed, UnixIn, First, Tail, Outside, FoldLines, Close, EnsureUnix, EnsurePlugin, BesideWithin, Overgrown,
         Target, MaxTail, Within, NextState, NextPlace, BlockEnd;
    var m, c := EnsureUnix(t, ls).lines, MaxTail(Outside(t, ls));
    var u := StageOneBlock(t, ls);
    BlockIsInside(t, m, u);
    KeptWithin(t, ls, u, c);
    PatchIsStageTwo(t, ls);
    var out, i := EnsurePlugin(t, m).lines, First(m, 0, Header(PLUGINS));
    if i == |m| {
      SectionOvergrows(t, m, u, c);
      FoldedOutside(t, out, u, out, |t.unix.value|, c);
    } else {
      var k := Target(t, m, i);
      TargetMeans(t, m, i, k);
      var w := PassOvergrows(t, m, u, i, k, c);
      FoldedOutside(t, NextState(t, m, u, i, k), NextPlace(t, m, u, k), out, w, c);
    }
    MaxTailIsLeast(Outside(t, Reading(t, ls)), if c > 0 then c - 1 else 0);
  }
}
