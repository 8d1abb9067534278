/** Comment marks on a line: the source's isCommented, commentLine, uncommentLine
    and normalizeKey, and what they keep.  */
module Comments {
  import opened Text

  predicate IsCommented(l: string) {
    Lead(l) < |l| && l[Lead(l)] == '#'
  }

  /** commentLine */
  function Comment(l: string): string {
    if IsCommented(l) then l else l[..Lead(l)] + "# " + TrimLeft(l)
  }

  /** uncommentLine: one mark and the blanks behind it are removed. */
  function Uncomment(l: string): (r: string)
    ensures IsCommented(l) ==> |r| < |l|
    ensures !IsCommented(l) ==> r == l
  {
    if IsCommented(l) then l[..Lead(l)] + TrimLeft(l[Lead(l) + 1..]) else l
  }

  /** How many times the line has to be uncommented before it is active. */
  function Marks(l: string): (n: nat)
    ensures n == 0 <==> !IsCommented(l)
    decreases |l|
  {
    if IsCommented(l) then 1 + Marks(Uncomment(l)) else 0
  }

  function StripMark(s: string): string {
    if s != "" && s[0] == '#' then TrimSpace(s[1..]) else s
  }

  /** normalizeKey; the toggler inlines the same three steps. */
  function Normalize(l: string): string {
    StripMark(TrimSpace(l))
  }

  /** A word is searchable when no trimming and no comment mark can touch it. */
  predicate Solid(sub: string) {
    sub != "" && forall c | c in sub :: !IsSpace(c) && c != '#'
  }

  const NDPI := "ndpi.so"

  /** The line mentions the plugin; every scanner of the source asks this of the normalized line. */
  predicate Has(l: string) {
    Contains(Normalize(l), NDPI)
  }

  // ----- Uncomment -----

  lemma LeadIs(s: string, n: nat)
    requires n <= |s|
    requires forall k | 0 <= k < n :: IsBlank(s[k])
    requires n < |s| ==> !IsBlank(s[n])
    ensures Lead(s) == n
  {
  }

  lemma UncommentKeepsIndent(l: string)
    ensures Lead(Uncomment(l)) == Lead(l)
    ensures Lead(l) > 0 ==> Uncomment(l) != ""
  {
    if IsCommented(l) {
      var n, rest := Lead(l), TrimLeft(l[Lead(l) + 1..]);
      assert rest != "" ==> !IsBlank(rest[0]);
      LeadIs(Uncomment(l), n);
    }
  }

  /** A commented line taken apart: blanks, the mark, blanks, and what is left. */
  lemma Anatomy(l: string) returns (indent: string, gap: string, body: string)
    requires IsCommented(l)
    ensures l == indent + ("#" + (gap + body)) && Uncomment(l) == indent + body
    ensures |indent| == Lead(l) && l[Lead(l) + 1..] == gap + body && body == TrimLeft(gap + body)
    ensures forall c | c in indent :: IsBlank(c)
    ensures forall c | c in gap :: IsBlank(c)
    ensures body == "" || !IsBlank(body[0])
  {
    hide Lead;
    var n := Lead(l);
    var x := l[n + 1..];
    indent, gap, body := l[..n], x[..Lead(x)], x[Lead(x)..];
    assert gap + body == x;
    assert l == indent + ("#" + x);
  }

  lemma StripMarkAfterTrim(x: string)
    ensures StripMark(TrimSpace("#" + x)) == TrimSpace(x)
  {
    hide SpaceLead, SpaceEnd, TrimSpace;
    var a, b := TrimSpaceWindow(x);
    var t := "#" + x;
    var e := if a < b then b else 0;
    assert forall k | 0 <= k < |x| :: t[k + 1] == x[k];
    TrimSpaceIs(t, 0, e + 1);
    assert t[0..e + 1] == "#" + x[..e] && ("#" + x[..e])[1..] == x[..e];
    if a < b {
      TrimSpaceIs(x[..e], a, b);
      SliceOfSlice(x, 0, e, a, b);
    } else {
      TrimSpaceIs("", 0, 0);
    }
  }

  /** Trimming an uncommented line gives what normalizeKey gave before. */
  lemma UncommentReveals(l: string)
    requires IsCommented(l)
    ensures TrimSpace(Uncomment(l)) == Normalize(l) == TrimSpace(l[Lead(l) + 1..])
  {
    var indent, gap, body := Anatomy(l);
    TrimSpaceSkips(indent, "#" + (gap + body));
    StripMarkAfterTrim(gap + body);
    TrimSpaceSkips(gap, body);
    TrimSpaceSkips(indent, body);
  }

  predicate StartsWithMark(s: string) {
    s != "" && s[0] == '#'
  }

  lemma CommentedIsMarked(l: string)
    requires IsCommented(l)
    ensures StartsWithMark(TrimSpace(l))
  {
    var n := Lead(l);
    assert SpaceLead(l) == n;
    assert SpaceEnd(l, |l|) > n;
  }

  /** At most one mark in the eyes of normalizeKey: uncommenting makes the line active
      and normalizes to the same text.  */
  lemma NormalizeUncommented(l: string)
    requires !StartsWithMark(Normalize(l))
    ensures Normalize(Uncomment(l)) == Normalize(l)
    ensures !IsCommented(Uncomment(l))
  {
    if IsCommented(l) {
      UncommentReveals(l);
      if IsCommented(Uncomment(l)) {
        CommentedIsMarked(Uncomment(l));
      }
    }
  }

  // ----- Searching through comment marks -----

  predicate Margin(c: char) {
    IsSpace(c) || c == '#'
  }

  lemma StripMarkWindow(t: string) returns (a: nat, b: nat)
    ensures a <= b <= |t| && StripMark(t) == t[a..b]
    ensures forall k | 0 <= k < a || b <= k < |t| :: Margin(t[k])
  {
    a, b := 0, |t|;
    if StartsWithMark(t) {
      var x := t[1..];
      a, b := TrimSpaceWindow(x);
      assert forall k | 0 <= k < |x| :: t[k + 1] == x[k];
      assert x[a..b] == t[a + 1..b + 1];
      assert forall k | 0 <= k < a + 1 || b + 1 <= k < |t| :: k == 0 || t[k] == x[k - 1];
      a, b := a + 1, b + 1;
    }
  }

  lemma NormalizeContains(l: string, sub: string)
    requires Solid(sub)
    ensures Contains(Normalize(l), sub) == Contains(l, sub)
  {
    var a, b := TrimSpaceWindow(l);
    var t := l[a..b];
    ContainsWindow(l, a, b, sub);
    var c, d := StripMarkWindow(t);
    ContainsWindow(t, c, d, sub);
  }

  lemma SkipMargin(w: string, s: string, sub: string)
    requires Solid(sub) && forall c | c in w :: Margin(c)
    ensures Contains(w + s, sub) == Contains(s, sub)
  {
    ContainsSkip(w, s, sub);
  }

  lemma UncommentContains(l: string, sub: string)
    requires Solid(sub)
    ensures Contains(Uncomment(l), sub) == Contains(l, sub)
  {
    if IsCommented(l) {
      var indent, gap, body := Anatomy(l);
      SkipMargin(indent, body, sub);
      SkipMargin(gap, body, sub);
      SkipMargin("#", gap + body, sub);
      SkipMargin(indent, "#" + (gap + body), sub);
    }
  }

  lemma HasIsContains(l: string)
    ensures Has(l) == Contains(l, NDPI)
    ensures Has(Uncomment(l)) == Has(l)
    ensures Has(l) ==> l != ""
  {
    NormalizeContains(l, NDPI);
    NormalizeContains(Uncomment(l), NDPI);
    UncommentContains(l, NDPI);
    if Contains(l, NDPI) {
      var i :| 0 <= i <= |l| && At(l, i, NDPI);
    }
  }

  // ----- Comment -----

  /** What commentLine makes of an active line, taken apart. */
  lemma CommentParts(l: string)
    requires !IsCommented(l)
    ensures var n, c := Lead(l), Comment(l);
            && |c| > n && Lead(c) == n && c[n] == '#'
            && c[..n] + TrimLeft(c[n + 1..]) == l
  {
    hide Lead;
    var n, rest := Lead(l), TrimLeft(l);
    var c := l[..n] + "# " + rest;
    assert c[..n] == l[..n] && c[n + 1..] == " " + rest && l[..n] + rest == l;
    LeadIs(c, n);
    LeadIs(" " + rest, 1);
  }

  /** commentLine and uncommentLine: disabling then enabling an active line is the identity. */
  lemma UncommentOfComment(l: string)
    requires !IsCommented(l)
    ensures IsCommented(Comment(l)) && Marks(Comment(l)) == 1
    ensures Uncomment(Comment(l)) == l
    ensures Normalize(Comment(l)) == TrimSpace(l)
  {
    hide Lead, Normalize, TrimSpace;
    var c := Comment(l);
    CommentParts(l);
    assert Uncomment(c) == l;
    hide Comment, Uncomment, IsCommented;
    UncommentReveals(c);
  }

  // ----- Newlines and carriage returns -----

  lemma CommentsKeepLine(l: string)
    requires NoNewline(l)
    ensures NoNewline(Uncomment(l)) && NoNewline(Comment(l))
  {
    if IsCommented(l) {
      var indent, gap, body := Anatomy(l);
      assert forall c | c in body :: c in l;
      assert forall c | c in indent :: c in l;
    }
  }

  /** A line whose last character is blank or the last one of l ends in CR only if l does. */
  lemma CRFromTail(x: string, l: string)
    requires x != "" ==> IsBlank(x[|x| - 1]) || (l != "" && x[|x| - 1] == l[|l| - 1])
    ensures EndsInCR(x) ==> EndsInCR(l)
  {
  }

  lemma UncommentKeepsCR(l: string)
    ensures EndsInCR(Uncomment(l)) ==> EndsInCR(l)
  {
    hide Uncomment, Lead, TrimLeft, IsCommented;
    if IsCommented(l) {
      var indent, gap, body := Anatomy(l);
      CRFromTail(indent + body, l);
    } else {
      assert Uncomment(l) == l;
    }
  }

  lemma CommentKeepsCR(l: string)
    ensures EndsInCR(Comment(l)) ==> EndsInCR(l)
  {
    var n := Lead(l);
    hide Lead;
    CRFromTail(l[..n] + "# " + l[n..], l);
  }

  lemma CommentsKeepCR(l: string)
    ensures EndsInCR(Uncomment(l)) ==> EndsInCR(l)
    ensures EndsInCR(Comment(l)) ==> EndsInCR(l)
  {
    UncommentKeepsCR(l);
    CommentKeepsCR(l);
  }

  lemma DropCRKeepsTrim(l: string)
    requires EndsInCR(l)
    ensures TrimSpace(DropCR(l)) == TrimSpace(l)
  {
    hide SpaceLead, SpaceEnd, TrimSpace;
    var a, b := TrimSpaceWindow(l);
    if b == |l| {
      TrimSpaceIs(l, a, a);
      TrimSpaceIs(DropCR(l), |l| - 1, |l| - 1);
    } else {
      TrimSpaceIs(DropCR(l), a, b);
    }
  }

  lemma DropCRKeepsIndent(l: string)
    ensures Lead(DropCR(l)) == Lead(l)
    ensures IsCommented(DropCR(l)) == IsCommented(l)
  {
    if EndsInCR(l) {
      LeadIs(DropCR(l), Lead(l));
    }
  }

  /** To every scanner a line without its carriage return is the same line. */
  lemma DropCRKeepsKey(l: string)
    ensures Normalize(DropCR(l)) == Normalize(l)
    ensures Lead(DropCR(l)) == Lead(l) && IsCommented(DropCR(l)) == IsCommented(l)
  {
    hide TrimSpace, Lead, IsCommented;
    DropCRKeepsIndent(l);
    if EndsInCR(l) {
      DropCRKeepsTrim(l);
    }
  }

  lemma DropOfConcat(front: string, body: string)
    requires body != ""
    ensures DropCR(front + body) == front + DropCR(body)
  {
  }

  /** Marks and carriage returns do not meet. */
  lemma UncommentOfDropCR(l: string)
    ensures Uncomment(DropCR(l)) == DropCR(Uncomment(l))
  {
    hide Lead, TrimLeft, Uncomment, IsCommented, DropCR;
    DropCRKeepsIndent(l);
    if IsCommented(l) {
      var indent, gap, body := Anatomy(l);
      if body == "" {
        NothingToDrop(indent, gap, l);
      } else {
        DropOfConcat(indent, body);
        DropOfConcat(indent + "#" + gap, body);
        assert l == indent + "#" + gap + body;
        DropCRKeepsBlanks(body);
        MarkedLine(indent, gap, DropCR(body));
        assert DropCR(l) == indent + "#" + gap + DropCR(body);
      }
    } else {
      assert Uncomment(l) == l && Uncomment(DropCR(l)) == DropCR(l);
    }
  }

  lemma NothingToDrop(indent: string, gap: string, l: string)
    requires l == indent + ("#" + (gap + "")) && Uncomment(l) == indent + ""
    requires forall c | c in indent :: IsBlank(c)
    requires forall c | c in gap :: IsBlank(c)
    ensures DropCR(l) == l && DropCR(Uncomment(l)) == Uncomment(l)
  {
    hide Uncomment;
    assert indent + "" == indent && gap + "" == gap;
    assert gap != "" ==> l[|l| - 1] == gap[|gap| - 1] && gap[|gap| - 1] in gap;
    assert indent != "" ==> indent[|indent| - 1] in indent;
  }

  lemma DropCRKeepsBlanks(body: string)
    requires body != "" && !IsBlank(body[0])
    ensures DropCR(body) == "" || !IsBlank(DropCR(body)[0])
  {
  }

  /** A commented line put together. */
  lemma MarkedLine(indent: string, gap: string, body: string)
    requires forall c | c in indent :: IsBlank(c)
    requires forall c | c in gap :: IsBlank(c)
    requires body == "" || !IsBlank(body[0])
    ensures Uncomment(indent + "#" + gap + body) == indent + body
  {
    hide Lead;
    var l := indent + "#" + gap + body;
    LeadOfBlanks(indent, "#" + gap + body);
    LeadOfBlanks(gap, body);
    assert l == indent + ("#" + gap + body);
    assert l[|indent| + 1..] == gap + body && l[..|indent|] == indent && l[|indent|] == '#';
  }

  lemma LeadOfBlanks(w: string, s: string)
    requires forall c | c in w :: IsBlank(c)
    requires s == "" || !IsBlank(s[0])
    ensures Lead(w + s) == |w| && (w + s)[|w|..] == s
  {
    hide Lead;
    LeadIs(w + s, |w|);
  }

  lemma CommentOfDropCR(l: string)
    requires !IsCommented(l)
    ensures Comment(DropCR(l)) == DropCR(Comment(l))
  {
    hide Lead, IsCommented, DropCR;
    DropCRKeepsIndent(l);
    var n := Lead(l);
    if n == |l| {
      BlankHasNoCR(l);
      assert l[n..] == "" && l[..n] == l;
    } else {
      assert l[..n] + l[n..] == l;
      DropOfConcat(l[..n], l[n..]);
      DropOfConcat(l[..n] + "# ", l[n..]);
      var d := DropCR(l[n..]);
      assert (l[..n] + d)[..n] == l[..n] && (l[..n] + d)[n..] == d;
    }
  }

  lemma BlankHasNoCR(l: string)
    requires Lead(l) == |l|
    ensures DropCR(l) == l && DropCR(l[..|l|] + "# " + l[|l|..]) == l[..|l|] + "# " + l[|l|..]
  {
    assert l != "" ==> IsBlank(l[|l| - 1]);
  }
}
