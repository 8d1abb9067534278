/** Go's string helpers as the source uses them: trimming, searching, and the
    passage between a file's bytes and its lines.  A byte is a `char`; white
    space is ASCII white space.  */
module Text {

  // ----- Blanks and white space -----

  /** The cut set " \t" of the source's calls to strings.TrimLeft. */
  predicate IsBlank(c: char) {
    c == ' ' || c == '\t'
  }

  /** What strings.TrimSpace cuts: blank, \t, \n, \v, \f and \r. */
  predicate IsSpace(c: char) {
    c == ' ' || '\t' <= c <= '\r'
  }

  predicate AllSpace(s: string) {
    forall c | c in s :: IsSpace(c)
  }

  function LeadFrom(s: string, i: nat): (n: nat)
    requires i <= |s|
    ensures i <= n <= |s|
    ensures forall k | i <= k < n :: IsBlank(s[k])
    ensures n < |s| ==> !IsBlank(s[n])
    decreases |s| - i
  {
    if i < |s| && IsBlank(s[i]) then LeadFrom(s, i + 1) else i
  }

  /** Number of leading blanks; strings.TrimLeft(s, " \t") is s[Lead(s)..]. */
  function Lead(s: string): (n: nat)
    ensures n <= |s|
    ensures forall k | 0 <= k < n :: IsBlank(s[k])
    ensures n < |s| ==> !IsBlank(s[n])
  {
    LeadFrom(s, 0)
  }

  function TrimLeft(s: string): string {
    s[Lead(s)..]
  }

  function SpaceLead(s: string, i: nat := 0): (n: nat)
    requires i <= |s|
    ensures i <= n <= |s|
    ensures forall k | i <= k < n :: IsSpace(s[k])
    ensures n < |s| ==> !IsSpace(s[n])
    decreases |s| - i
  {
    if i < |s| && IsSpace(s[i]) then SpaceLead(s, i + 1) else i
  }

  function SpaceEnd(s: string, i: nat): (e: nat)
    requires i <= |s|
    ensures e <= i
    ensures forall k | e <= k < i :: IsSpace(s[k])
    ensures e > 0 ==> !IsSpace(s[e - 1])
  {
    if i > 0 && IsSpace(s[i - 1]) then SpaceEnd(s, i - 1) else i
  }

  /** strings.TrimSpace */
  function TrimSpace(s: string): string {
    if SpaceLead(s) == |s| then "" else s[SpaceLead(s)..SpaceEnd(s, |s|)]
  }

  /** TrimSpace is the only way to cut white space off both ends until none is left. */
  lemma TrimSpaceIs(s: string, a: nat, b: nat)
    requires a <= b <= |s|
    requires forall k | 0 <= k < a :: IsSpace(s[k])
    requires forall k | b <= k < |s| :: IsSpace(s[k])
    requires a < b ==> !IsSpace(s[a]) && !IsSpace(s[b - 1])
    ensures TrimSpace(s) == s[a..b]
  {
    if a < b {
      assert SpaceLead(s) == a;
      assert SpaceEnd(s, |s|) == b;
    } else {
      assert forall k | 0 <= k < |s| :: IsSpace(s[k]);
    }
  }

  /** A window onto s that misses only white space, and starts and ends on something else. */
  lemma TrimSpaceWindow(s: string) returns (a: nat, b: nat)
    ensures a <= b <= |s| && TrimSpace(s) == s[a..b]
    ensures forall k | 0 <= k < a :: IsSpace(s[k])
    ensures forall k | b <= k < |s| :: IsSpace(s[k])
    ensures a < b ==> !IsSpace(s[a]) && !IsSpace(s[b - 1])
  {
    a, b := SpaceLead(s), if SpaceLead(s) == |s| then |s| else SpaceEnd(s, |s|);
  }

  lemma TrimSpaceSkips(w: string, s: string)
    requires AllSpace(w)
    ensures TrimSpace(w + s) == TrimSpace(s)
  {
    var a, b := TrimSpaceWindow(s);
    var t := w + s;
    assert forall k | 0 <= k < |w| + a :: t[k] == if k < |w| then w[k] else s[k - |w|];
    assert forall k | |w| + b <= k < |t| :: t[k] == s[k - |w|];
    TrimSpaceIs(t, |w| + a, |w| + b);
    assert t[|w| + a..|w| + b] == s[a..b];
  }

  lemma TrimSpaceIdempotent(s: string)
    ensures TrimSpace(TrimSpace(s)) == TrimSpace(s)
  {
    var a, b := TrimSpaceWindow(s);
    TrimSpaceIs(s[a..b], 0, b - a);
  }

  // ----- Searching -----

  predicate At(s: string, i: int, sub: string) {
    0 <= i && i + |sub| <= |s| && s[i..i + |sub|] == sub
  }

  /** strings.Contains */
  predicate Contains(s: string, sub: string) {
    exists i | 0 <= i <= |s| :: At(s, i, sub)
  }

  lemma SliceOfSlice<T>(s: seq<T>, a: nat, b: nat, i: nat, j: nat)
    requires a <= b <= |s| && i <= j <= b - a
    ensures s[a..b][i..j] == s[a + i..a + j]
  {
    var x, y := s[a..b][i..j], s[a + i..a + j];
    assert |x| == |y|;
    assert forall k | 0 <= k < |x| :: x[k] == s[a + i + k] == y[k];
  }

  lemma Occurrence(s: string, sub: string) returns (i: nat)
    requires Contains(s, sub)
    ensures At(s, i, sub) && i <= |s|
  {
    i :| 0 <= i <= |s| && At(s, i, sub);
  }

  lemma OccursAt(s: string, i: nat, sub: string)
    requires At(s, i, sub)
    ensures Contains(s, sub)
  {
  }

  /** An occurrence starts and ends with characters of `sub`. */
  lemma OccurrenceEnds(s: string, i: nat, sub: string)
    requires At(s, i, sub) && sub != ""
    ensures s[i] in sub && s[i + |sub| - 1] in sub
  {
    assert s[i] == s[i..i + |sub|][0];
    assert s[i + |sub| - 1] == s[i..i + |sub|][|sub| - 1];
  }

  /** Cutting characters that do not occur in `sub` off both ends changes no search for `sub`. */
  lemma ContainsWindow(s: string, a: nat, b: nat, sub: string)
    requires a <= b <= |s| && sub != ""
    requires forall k | 0 <= k < a :: s[k] !in sub
    requires forall k | b <= k < |s| :: s[k] !in sub
    ensures Contains(s, sub) == Contains(s[a..b], sub)
  {
    hide Contains;
    if Contains(s, sub) {
      var i := Occurrence(s, sub);
      OccurrenceEnds(s, i, sub);
      SliceOfSlice(s, a, b, i - a, i - a + |sub|);
      OccursAt(s[a..b], i - a, sub);
    } else if Contains(s[a..b], sub) {
      ContainsWiden(s, a, b, sub);
    }
  }

  lemma ContainsSkip(w: string, s: string, sub: string)
    requires sub != "" && forall c | c in w :: c !in sub
    ensures Contains(w + s, sub) == Contains(s, sub)
  {
    var t := w + s;
    ContainsWindow(t, |w|, |t|, sub);
    assert t[|w|..|t|] == s;
  }

  lemma ContainsWiden(s: string, a: nat, b: nat, sub: string)
    requires a <= b <= |s| && Contains(s[a..b], sub)
    ensures Contains(s, sub)
  {
    hide Contains;
    var i := Occurrence(s[a..b], sub);
    SliceOfSlice(s, a, b, i, i + |sub|);
    OccursAt(s, a + i, sub);
  }

  lemma ContainsTransitive(s: string, mid: string, sub: string)
    requires Contains(s, mid) && Contains(mid, sub)
    ensures Contains(s, sub)
  {
    hide Contains;
    var i := Occurrence(s, mid);
    ContainsWiden(s, i, i + |mid|, sub);
  }

  // ----- Lines -----

  predicate NoNewline(s: string) {
    '\n' !in s
  }

  predicate AllNoNewline(ls: seq<string>) {
    forall k | 0 <= k < |ls| :: NoNewline(ls[k])
  }

  predicate EndsInCR(s: string) {
    s != "" && s[|s| - 1] == '\r'
  }

  predicate NoneEndsInCR(ls: seq<string>) {
    forall k | 0 <= k < |ls| :: !EndsInCR(ls[k])
  }

  /** strings.Split(s, "\n") */
  function Split(s: string): (ls: seq<string>)
    ensures |ls| >= 1 && AllNoNewline(ls)
  {
    if s == "" then [""]
    else
      var rest := Split(s[1..]);
      if s[0] == '\n' then [""] + rest else [[s[0]] + rest[0]] + rest[1..]
  }

  /** strings.Join(ls, "\n") */
  function Join(ls: seq<string>): string {
    if ls == [] then "" else if |ls| == 1 then ls[0] else ls[0] + "\n" + Join(ls[1..])
  }

  lemma {:induction false} SplitLine(l: string, rest: string)
    requires NoNewline(l)
    ensures Split(l) == [l]
    ensures Split(l + "\n" + rest) == [l] + Split(rest)
  {
    var whole := l + "\n" + rest;
    if l == "" {
      assert whole[1..] == rest;
    } else {
      SplitLine(l[1..], rest);
      assert whole[1..] == l[1..] + "\n" + rest;
      assert [l[0]] + l[1..] == l;
    }
  }

  /** Splitting inverts joining on every non-empty list of lines. */
  lemma {:induction false} SplitOfJoin(ls: seq<string>)
    requires |ls| >= 1 && AllNoNewline(ls)
    ensures Split(Join(ls)) == ls
  {
    if |ls| == 1 {
      SplitLine(ls[0], "");
    } else {
      SplitOfJoin(ls[1..]);
      SplitLine(ls[0], Join(ls[1..]));
    }
  }

  /** Joining inverts splitting on every string. */
  lemma {:induction false} JoinOfSplit(s: string)
    ensures Join(Split(s)) == s
  {
    if s != "" {
      JoinOfSplit(s[1..]);
      var rest := Split(s[1..]);
      if s[0] == '\n' {
        assert Split(s)[1..] == rest;
      } else {
        assert Split(s)[1..] == rest[1..];
      }
    }
  }

  // ----- Carriage returns and the final newline -----

  /** bytes.ReplaceAll(s, "\r\n", "\n") */
  function Fold(s: string): string {
    if s == "" then ""
    else if |s| >= 2 && s[0] == '\r' && s[1] == '\n' then "\n" + Fold(s[2..])
    else [s[0]] + Fold(s[1..])
  }

  function DropCR(l: string): string {
    if EndsInCR(l) then l[..|l| - 1] else l
  }

  /** Folding seen line by line: every line but the last loses one trailing CR. */
  function FoldLines(ls: seq<string>): (r: seq<string>)
    ensures |r| == |ls|
    ensures forall k | 0 <= k < |ls| :: r[k] == if k < |ls| - 1 then DropCR(ls[k]) else ls[k]
  {
    if |ls| <= 1 then ls else [DropCR(ls[0])] + FoldLines(ls[1..])
  }

  lemma FoldCons(c: char, rest: string)
    requires !(c == '\r' && rest != "" && rest[0] == '\n')
    ensures Fold([c] + rest) == [c] + Fold(rest)
  {
    assert ([c] + rest)[1..] == rest;
  }

  lemma FoldNil()
    ensures Fold("") == ""
  {
  }

  lemma DropCROfCons(c: char, tail: string)
    requires tail == "" ==> c != '\r'
    ensures DropCR([c] + tail) == [c] + DropCR(tail)
  {
  }

  lemma FoldStep(c: char, tail: string, rest: string)
    requires NoNewline(tail) && (tail == "" ==> c != '\r')
    requires Fold(tail + "\n" + rest) == DropCR(tail) + "\n" + Fold(rest)
    ensures Fold([c] + tail + "\n" + rest) == DropCR([c] + tail) + "\n" + Fold(rest)
  {
    hide Fold, DropCR;
    var whole := tail + "\n" + rest;
    assert whole[0] == if tail == "" then '\n' else tail[0];
    FoldCons(c, whole);
    assert [c] + tail + "\n" + rest == [c] + whole;
    DropCROfCons(c, tail);
    var d, f := DropCR(tail), Fold(rest);
    assert [c] + d + "\n" + f == [c] + (d + "\n" + f);
  }

  lemma FoldReturn(rest: string)
    ensures Fold("\r" + "\n" + rest) == DropCR("\r") + "\n" + Fold(rest)
    ensures Fold("" + "\n" + rest) == DropCR("") + "\n" + Fold(rest)
  {
    var end := "\n" + rest;
    assert "\r" + "\n" + rest == "\r" + end && "" + "\n" + rest == end;
    assert ("\r" + end)[2..] == rest && end[1..] == rest;
  }

  lemma {:induction false} FoldLine(l: string, rest: string)
    requires NoNewline(l)
    ensures Fold(l) == l
    ensures Fold(l + "\n" + rest) == DropCR(l) + "\n" + Fold(rest)
  {
    hide Fold, DropCR;
    FoldNil();
    FoldReturn(rest);
    if l != "" {
      var tail := l[1..];
      FoldLine(tail, rest);
      FoldCons(l[0], tail);
      assert l == [l[0]] + tail;
      if l != "\r" {
        FoldStep(l[0], tail, rest);
      }
    }
  }

  lemma {:induction false} FoldOfJoin(ls: seq<string>)
    requires |ls| >= 1 && AllNoNewline(ls)
    ensures Fold(Join(ls)) == Join(FoldLines(ls))
  {
    if |ls| == 1 {
      FoldLine(ls[0], "");
    } else {
      FoldOfJoin(ls[1..]);
      FoldLine(ls[0], Join(ls[1..]));
      assert FoldLines(ls)[1..] == FoldLines(ls[1..]);
    }
  }

  /** splitLines (integration/patch_suricata_config.go) */
  function SplitLines(s: string): (ls: seq<string>)
    ensures |ls| >= 1 && AllNoNewline(ls)
  {
    Split(Fold(s))
  }

  /** Appends the final newline that both writers of the file make sure of. */
  function Terminate(s: string): string {
    if s != "" && s[|s| - 1] == '\n' then s else s + "\n"
  }

  /** The same at the level of lines: the last line becomes the empty one. */
  function Close(ls: seq<string>): (r: seq<string>)
    requires |ls| >= 1
    ensures |r| >= 2 && r[|r| - 1] == ""
  {
    if |ls| >= 2 && ls[|ls| - 1] == "" then ls else ls + [""]
  }

  lemma {:induction false} JoinAppend(ls: seq<string>, l: string)
    requires |ls| >= 1
    ensures Join(ls + [l]) == Join(ls) + "\n" + l
  {
    assert (ls + [l])[1..] == ls[1..] + [l];
    if |ls| > 1 {
      JoinAppend(ls[1..], l);
    }
  }

  lemma {:induction false} JoinEnd(ls: seq<string>)
    requires |ls| >= 1 && AllNoNewline(ls)
    ensures (Join(ls) != "" && Join(ls)[|Join(ls)| - 1] == '\n') <==> (|ls| >= 2 && ls[|ls| - 1] == "")
  {
    if |ls| >= 2 {
      var n := |ls| - 1;
      JoinAppend(ls[..n], ls[n]);
      assert ls[..n] + [ls[n]] == ls;
    }
  }

  lemma TerminateOfJoin(ls: seq<string>)
    requires |ls| >= 1 && AllNoNewline(ls)
    ensures Terminate(Join(ls)) == Join(Close(ls))
  {
    JoinEnd(ls);
    JoinAppend(ls, "");
  }

  lemma NothingToFold(ls: seq<string>)
    requires NoneEndsInCR(ls)
    ensures FoldLines(ls) == ls
  {
  }

  lemma CloseIsPlain(ls: seq<string>)
    requires |ls| >= 1 && AllNoNewline(ls)
    ensures AllNoNewline(Close(ls)) && AllNoNewline(FoldLines(Close(ls)))
    ensures NoneEndsInCR(ls) ==> NoneEndsInCR(Close(ls))
  {
  }

  /** Reading a written file back gives the written lines plus the final empty one, less one CR each. */
  lemma SplitLinesOfWritten(ls: seq<string>)
    requires |ls| >= 1 && AllNoNewline(ls)
    ensures SplitLines(Terminate(Join(ls))) == FoldLines(Close(ls))
    ensures NoneEndsInCR(ls) ==> SplitLines(Terminate(Join(ls))) == Close(ls)
  {
    hide Join, Split, Fold, FoldLines, Terminate, Close, AllNoNewline, NoneEndsInCR;
    CloseIsPlain(ls);
    TerminateOfJoin(ls);
    FoldOfJoin(Close(ls));
    SplitOfJoin(FoldLines(Close(ls)));
    if NoneEndsInCR(ls) {
      NothingToFold(Close(ls));
    }
  }

  /** A text without carriage returns at its line ends is read as it was joined. */
  lemma SplitLinesOfJoin(ls: seq<string>)
    requires |ls| >= 1 && AllNoNewline(ls) && NoneEndsInCR(ls)
    ensures SplitLines(Join(ls)) == ls
  {
    hide AllNoNewline, NoneEndsInCR, Join, Split, Fold, FoldLines;
    FoldOfJoin(ls);
    NothingToFold(ls);
    SplitOfJoin(ls);
  }

  lemma JoinInjective(xs: seq<string>, ys: seq<string>)
    requires |xs| >= 1 && AllNoNewline(xs) && |ys| >= 1 && AllNoNewline(ys)
    requires Join(xs) == Join(ys)
    ensures xs == ys
  {
    SplitOfJoin(xs);
    SplitOfJoin(ys);
  }
}
