/** What no pass loses: over a tidy file every line outside the unix block stays there, in order,
    and loses nothing but comment marks.  */
module PatchKept {
  import opened Text
  import opened Comments
  import opened Blocks
  import opened PatchSpec
  import opened PatchConvergence
  import opened PatchFrame
  import opened PatchTails
  import opened PatchReadings
  import opened PatchOverlap
  import opened PatchRestored
  import opened PatchPasses

  // ----- Lines that only lose marks -----

  /** The line less c comment marks. */
  function Unmarked(l: string, c: nat): string {
    if c == 0 then l else Uncomment(Unmarked(l, c - 1))
  }

  ghost predicate Bared(l: string, x: string) {
    exists c: nat :: x == Unmarked(l, c)
  }

  lemma BaredOnce(l: string)
    ensures Bared(l, l) && Bared(l, Uncomment(l))
  {
    hide Uncomment;
    assert Unmarked(l, 0) == l;
    assert Unmarked(l, 1) == Uncomment(Unmarked(l, 0));
  }

  lemma {:induction false} UnmarkedTwice(l: string, c: nat, d: nat)
    ensures Unmarked(Unmarked(l, c), d) == Unmarked(l, c + d)
  {
    hide Uncomment;
    if d > 0 {
      UnmarkedTwice(l, c, d - 1);
    }
  }

  lemma BaredTwice(l: string, x: string, y: string)
    requires Bared(l, x) && Bared(x, y)
    ensures Bared(l, y)
  {
    hide Unmarked;
    var c :| x == Unmarked(l, c);
    var d :| y == Unmarked(x, d);
    UnmarkedTwice(l, c, d);
  }

  /** The lines a appear in b at the positions f, in order, less some marks. */
  ghost predicate Kept(a: seq<string>, b: seq<string>, f: seq<nat>) {
    && |f| == |a|
    && (forall j | 0 <= j < |f| :: f[j] < |b| && Bared(a[j], b[f[j]]))
    && forall i, j | 0 <= i < j < |f| :: f[i] < f[j]
  }

  lemma KeptTwice(a: seq<string>, b: seq<string>, c: seq<string>, f: seq<nat>, g: seq<nat>) returns (h: seq<nat>)
    requires Kept(a, b, f) && Kept(b, c, g)
    ensures Kept(a, c, h)
  {
    hide Bared;
    h := seq(|a|, j requires 0 <= j < |a| => g[f[j]]);
    forall j | 0 <= j < |a|
      ensures Bared(a[j], c[h[j]])
    {
      BaredTwice(a[j], b[f[j]], c[g[f[j]]]);
    }
  }

  /** Positions that leave out d places from p on. */
  function Spread(n: nat, p: nat, d: nat): (f: seq<nat>)
    ensures |f| == n && forall j | 0 <= j < n :: f[j] == if j < p then j else j + d
  {
    seq<nat>(n, j requires 0 <= j => if j < p then j else j + d)
  }

  lemma SpreadKeeps(a: seq<string>, b: seq<string>, p: nat, d: nat)
    requires |a| + d <= |b|
    requires forall j | 0 <= j < |a| :: Bared(a[j], b[if j < p then j else j + d])
    ensures Kept(a, b, Spread(|a|, p, d))
  {
    hide Bared;
  }

  lemma AllBared()
    ensures forall l :: Bared(l, l) && Bared(l, Uncomment(l))
  {
    hide Bared, Uncomment;
    forall l
      ensures Bared(l, l) && Bared(l, Uncomment(l))
    {
      BaredOnce(l);
    }
  }

  // ----- One pass -----

  /** The lines beside the block at u. */
  function BesideOf(t: Template, m: seq<string>, u: nat): seq<string>
    requires t.unix.Some? && u + |t.unix.value| <= |m|
  {
    m[..u] + m[u + |t.unix.value|..]
  }

  lemma BesideLine(t: Template, m: seq<string>, u: nat)
    requires t.unix.Some? && u + |t.unix.value| <= |m|
    ensures var b := BesideOf(t, m, u);
            |b| == |m| - |t.unix.value| && forall j | 0 <= j < |b| :: b[j] == m[if j < u then j else j + |t.unix.value|]
  {
  }

  /** Stage one: what it keeps of the file stands beside the block. */
  lemma StageOneKeeps(t: Template, ls: seq<string>, u: nat) returns (f: seq<nat>)
    requires t.unix.Some? && UnixIn(t, EnsureUnix(t, ls).lines, u) && WellFormed(t)
    ensures u + |t.unix.value| <= |EnsureUnix(t, ls).lines|
    ensures Kept(Outside(t, ls), BesideOf(t, EnsureUnix(t, ls).lines, u), f)
  {
    hide UnixIn, EnsureUnix, First, BlockEnd, Outside, Separated, Normalize, Lead, Contains, InBlock, Bared, BesideOf;
    var m, block, i := EnsureUnix(t, ls).lines, t.unix.value, First(ls, 0, Header(UNIX));
    OwnUnixIn(t, m, u);
    BlockIsInside(t, m, u);
    BesideLine(t, m, u);
    AllBared();
    var b := BesideOf(t, m, u);
    f := Spread(|Outside(t, ls)|, |Outside(t, ls)|, 0);
    if i == |ls| {
      AppendedUnixLines(t, ls);
      AppendedIsFirst(ls, block);
      AllOutside(t, ls);
      SeparatedFront(ls);
      SpreadKeeps(ls, b, |ls|, 0);
    } else {
      var e := BlockEnd(ls, i);
      ReplacedPieces(t, ls, i, e);
      ReplacedIsFirst(ls, i, e, block);
      SpreadKeeps(Outside(t, ls), b, |Outside(t, ls)|, 0);
    }
  }

  lemma SeparatedFront(ls: seq<string>)
    ensures ls <= Separated(ls)
  {
  }

  /** Stage two and the next stage one: what stands beside the block stays beside it. */
  lemma StateKeeps(t: Template, m: seq<string>, u: nat, i: nat, k: nat) returns (f: seq<nat>)
    requires WellFormed(t) && Standing(t, m, u, i, k) && k <= |m|
    ensures var s, v := NextState(t, m, u, i, k), NextPlace(t, m, u, k);
            v + |t.unix.value| <= |s| && Kept(BesideOf(t, m, u), BesideOf(t, s, v), f)
  {
    hide UnixIn, First, Target, Bared, BesideOf, Found, KeepsOut, Remains, Insert, EntryLine, Uncomment, WellFormed, Hits;
    var s, v, n := NextState(t, m, u, i, k), NextPlace(t, m, u, k), |t.unix.value|;
    TargetMeans(t, m, i, k);
    BesideLine(t, m, u);
    AllBared();
    RemainsBared(t, m, u);
    var a := BesideOf(t, m, u);
    if !Found(t, m, k) && KeepsOut(t, u, k) {
      KeepsOutMeans(t, u, k);
      ShiftedLines(m[i := Remains(t, m, u, i)], k, EntryLine(t, t.indent + 2));
      BesideLine(t, s, v);
      var p := if k <= u then k else k - n;
      f := Spread(|a|, p, 1);
      InsertBeside(t, m, u, i, k, p);
    } else {
      if !Found(t, m, k) {
        PutsBehind(t, u, k);
      }
      BesideLine(t, s, u);
      f := Spread(|a|, |a|, 0);
      SpreadKeeps(a, BesideOf(t, s, u), |a|, 0);
    }
  }

  lemma PutsBehind(t: Template, u: nat, k: nat)
    requires t.unix.Some? && |t.unix.value| >= 1 && !KeepsOut(t, u, k)
    ensures u < k
  {
    hide Lead;
  }

  lemma RemainsBared(t: Template, m: seq<string>, u: nat)
    ensures forall j | 0 <= j < |m| :: Bared(m[j], Remains(t, m, u, j))
  {
    hide Bared, Uncomment;
    AllBared();
  }

  lemma InsertBeside(t: Template, m: seq<string>, u: nat, i: nat, k: nat, p: nat)
    requires t.unix.Some? && |t.unix.value| >= 1 && u + |t.unix.value| <= |m| && i < k <= |m|
    requires k <= u || u + |t.unix.value| <= k
    requires p == if k <= u then k else k - |t.unix.value|
    ensures var s, v := Insert(m[i := Remains(t, m, u, i)], k, EntryLine(t, t.indent + 2)), if k <= u then u + 1 else u;
            Kept(BesideOf(t, m, u), BesideOf(t, s, v), Spread(|BesideOf(t, m, u)|, p, 1))
  {
    hide Bared, BesideOf, Remains, Insert, EntryLine, Uncomment;
    var active := m[i := Remains(t, m, u, i)];
    var s, v := Insert(active, k, EntryLine(t, t.indent + 2)), if k <= u then u + 1 else u;
    ShiftedLines(active, k, EntryLine(t, t.indent + 2));
    BesideLine(t, m, u);
    BesideLine(t, s, v);
    AllBared();
    RemainsBared(t, m, u);
    var a, b, n := BesideOf(t, m, u), BesideOf(t, s, v), |t.unix.value|;
    forall j | 0 <= j < |a|
      ensures Bared(a[j], b[if j < p then j else j + 1])
    {
      var y := if j < u then j else j + n;
      assert a[j] == m[y];
      assert s[if y < k then y else y + 1] == active[y];
    }
    SpreadKeeps(a, b, p, 1);
  }

  lemma PrefixKeeps(a: seq<string>, b: seq<string>)
    requires a <= b
    ensures Kept(a, b, Spread(|a|, |a|, 0))
  {
    hide Bared;
    AllBared();
    SpreadKeeps(a, b, |a|, 0);
  }

  lemma BesidePrefix(t: Template, s: seq<string>, r: seq<string>, v: nat)
    requires t.unix.Some? && v + |t.unix.value| <= |s| && s <= r
    ensures BesideOf(t, s, v) <= BesideOf(t, r, v)
  {
    assert r == s + r[|s|..];
  }

  /** What the next pass reads beside the block it keeps. */
  lemma ReadingOutside(t: Template, ls: seq<string>, v: nat)
    requires WellFormed(t) && t.unix.Some? && UnixIn(t, EnsureUnix(t, Reading(t, ls)).lines, v)
    ensures var m := EnsureUnix(t, Reading(t, ls)).lines;
            v + |t.unix.value| <= |m| && Outside(t, Reading(t, ls)) == BesideOf(t, m, v)
  {
    hide UnixIn, EnsureUnix, First, BlockEnd, Outside, Normalize, Lead, Contains, InBlock, Reading;
    ReadingIsHeaded(t, ls);
    var r := Reading(t, ls);
    var i := First(r, 0, Header(UNIX));
    var b := BlockEnd(r, i);
    ReplacedPieces(t, r, i, b);
    ReplacedIsFirst(r, i, b, t.unix.value);
    OwnUnixIn(t, EnsureUnix(t, r).lines, v);
    BesidePieces(t, r, i, b);
  }

  lemma BesidePieces(t: Template, r: seq<string>, i: nat, b: nat)
    requires t.unix.Some? && i <= b <= |r|
    ensures BesideOf(t, r[..i] + t.unix.value + r[b..], i) == r[..i] + r[b..]
  {
  }

  /** From one pass to the next. */
  lemma HeaderKeeps(t: Template, ls: seq<string>) returns (v: nat, f: seq<nat>)
    requires WellFormed(t) && t.unix.Some? && Tidy(t, ls) && |ls| >= 1 && HasPlugins(t, ls)
    ensures UnixIn(t, EnsureUnix(t, Reading(t, ls)).lines, v) && v + |t.unix.value| <= |EnsureUnix(t, Reading(t, ls)).lines|
    ensures Kept(Outside(t, ls), BesideOf(t, EnsureUnix(t, Reading(t, ls)).lines, v), f)
  {
    hide WellFormed, Tidy, HasPlugins, UnixIn, UnixAt, EnsureUnix, Outside, Reading, Kept, BesideOf, NextState, NextPlace,
         MarksLeft, First, Target, BesideWithin;
    var m := EnsureUnix(t, ls).lines;
    var u, i, k := TidyIsReady(t, ls);
    NextStageOne(t, ls, u, i, k);
    var g := StageOneKeeps(t, ls, u);
    var h := StateKeeps(t, m, u, i, k);
    f := KeptTwice(Outside(t, ls), BesideOf(t, m, u), BesideOf(t, NextState(t, m, u, i, k), NextPlace(t, m, u, k)), g, h);
    v := NextPlace(t, m, u, k);
    StateStands(t, m, u, i, k, 0);
    f := ReclosedKeeps(t, Outside(t, ls), NextState(t, m, u, i, k), v, f);
  }

  lemma ReclosedKeeps(t: Template, a: seq<string>, s: seq<string>, v: nat, f: seq<nat>) returns (h: seq<nat>)
    requires t.unix.Some? && |t.unix.value| >= 1 && v + |t.unix.value| <= |s| && UnixIn(t, s, v) && Kept(a, BesideOf(t, s, v), f)
    ensures var r := Reclosed(t, s, v);
            v + |t.unix.value| <= |r| && UnixIn(t, r, v) && Kept(a, BesideOf(t, r, v), h)
  {
    hide UnixIn, UnixTrails, Close, Kept, BesideOf;
    var r := Reclosed(t, s, v);
    CloseIsPrefix(s);
    PrefixKeepsBlock(t, s, [""], v);
    BesidePrefix(t, s, r, v);
    PrefixKeeps(BesideOf(t, s, v), BesideOf(t, r, v));
    h := KeptTwice(a, BesideOf(t, s, v), BesideOf(t, r, v), f, Spread(|BesideOf(t, s, v)|, |BesideOf(t, s, v)|, 0));
  }

  lemma SectionKeeps(t: Template, ls: seq<string>) returns (v: nat, f: seq<nat>)
    requires WellFormed(t) && t.unix.Some? && Tidy(t, ls) && |ls| >= 1 && !HasPlugins(t, ls)
    ensures UnixIn(t, EnsureUnix(t, Reading(t, ls)).lines, v) && v + |t.unix.value| <= |EnsureUnix(t, Reading(t, ls)).lines|
    ensures Kept(Outside(t, ls), BesideOf(t, EnsureUnix(t, Reading(t, ls)).lines, v), f)
  {
    hide WellFormed, Tidy, HasPlugins, UnixIn, UnixAt, EnsureUnix, Outside, Reading, Kept, BesideOf, First, BesideWithin,
         Section, UnixTrails, EndsWithUnix, Separated;
    var m, r := EnsureUnix(t, ls).lines, EnsureUnix(t, Reading(t, ls)).lines;
    v := TidyStands(t, ls);
    var g := StageOneKeeps(t, ls, v);
    var u := SectionIsRead(t, ls);
    AtIsIn(t, r, u);
    SeparatedFront(m);
    PrefixKeepsBlock(t, m, r[|m|..], v);
    assert m + r[|m|..] == r;
    BesidePrefix(t, m, r, v);
    PrefixKeeps(BesideOf(t, m, v), BesideOf(t, r, v));
    f := KeptTwice(Outside(t, ls), BesideOf(t, m, v), BesideOf(t, r, v), g, Spread(|BesideOf(t, m, v)|, |BesideOf(t, m, v)|, 0));
  }

  /** A template without a unix section: no line at all is lost. */
  lemma NoUnixKeeps(t: Template, ls: seq<string>) returns (f: seq<nat>)
    requires WellFormed(t) && t.unix.None? && Tidy(t, ls)
    ensures Kept(Outside(t, ls), Outside(t, Reading(t, ls)), f)
  {
    hide WellFormed, Shallow, First, BlockEnd, PatchLines, Kept, NoneEndsInCR, Close, FoldLines, Placed, Target, Found, HasPlugins;
    var s, x, h, k;
    f, s, x, h, k := PatchFrame.PatchFrame(t, ls);
    var out := PatchLines(t, ls).lines;
    TidyPass(t, ls);
    CloseIsPrefix(out);
    PlacedIsKept(Outside(t, ls), out, Close(out), f, h, k);
  }

  lemma PlacedIsKept(a: seq<string>, out: seq<string>, r: seq<string>, f: seq<nat>, h: nat, k: nat)
    requires Placed(a, out, f, h, k) && out <= r
    ensures Kept(a, r, f)
  {
    hide Bared, Uncomment;
    AllBared();
  }

  lemma NextKeeps(t: Template, ls: seq<string>) returns (f: seq<nat>)
    requires WellFormed(t) && Tidy(t, ls) && |ls| >= 1
    ensures Kept(Outside(t, ls), Outside(t, Reading(t, ls)), f)
  {
    hide WellFormed, Tidy, HasPlugins, EnsureUnix, Outside, Reading, Kept, BesideOf, UnixIn;
    if t.unix.None? {
      f := NoUnixKeeps(t, ls);
    } else {
      var v;
      if HasPlugins(t, ls) {
        v, f := HeaderKeeps(t, ls);
      } else {
        v, f := SectionKeeps(t, ls);
      }
      ReadingOutside(t, ls, v);
    }
  }

  lemma StaysTidy(t: Template, ls: seq<string>)
    requires WellFormed(t) && Tidy(t, ls)
    ensures Tidy(t, Reading(t, ls))
  {
    hide WellFormed, Shallow, Outside, Reading, MaxTail, NoneEndsInCR;
    ReadingIsShallow(t, ls);
    NoTailIsClean(Outside(t, ls));
    NoTailIsClean(Outside(t, Reading(t, ls)));
    if t.unix.Some? {
      OutsideShortens(t, ls);
    } else {
      TidyPass(t, ls);
    }
  }

  /** For every template: no number of passes over a tidy file loses a line outside the unix block,
      changes the order of those lines, or takes more than comment marks off them.  */
  lemma {:induction false} TidyKeepsLines(t: Template, ls: seq<string>, n: nat) returns (f: seq<nat>)
    requires WellFormed(t) && Tidy(t, ls) && |ls| >= 1
    ensures Tidy(t, Readings(t, ls, n)) && Kept(Outside(t, ls), Outside(t, Readings(t, ls, n)), f)
  {
    hide WellFormed, Tidy, Outside, Reading, Kept;
    if n == 0 {
      f := Spread(|Outside(t, ls)|, 0, 0);
      PrefixKeeps(Outside(t, ls), Outside(t, ls));
      assert f == Spread(|Outside(t, ls)|, |Outside(t, ls)|, 0);
    } else {
      var g := TidyKeepsLines(t, ls, n - 1);
      var before := Readings(t, ls, n - 1);
      var h := NextKeeps(t, before);
      f := KeptTwice(Outside(t, ls), Outside(t, before), Outside(t, Readings(t, ls, n)), g, h);
      StaysTidy(t, before);
    }
  }
}
