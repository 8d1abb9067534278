/** Carriage returns at line ends.  Folding takes one off every line that a pass has written, so
    a file can carry them through several passes; no pass adds any, if the template has none.  */
module PatchTails {
  import opened Text
  import opened Comments
  import opened Blocks
  import opened PatchSpec
  import opened PatchConvergence
  import opened PatchFrame

  /** How many carriage returns the line ends in. */
  function Tail(l: string): (n: nat)
    ensures n == 0 <==> !EndsInCR(l)
  {
    if EndsInCR(l) then 1 + Tail(l[..|l| - 1]) else 0
  }

  predicate CleanLine(l: string) {
    NoNewline(l) && !EndsInCR(l)
  }

  predicate Within(ls: seq<string>, c: nat) {
    forall k | 0 <= k < |ls| :: Tail(ls[k]) <= c
  }

  function MaxTail(ls: seq<string>): (c: nat)
    ensures Within(ls, c)
    ensures c > 0 ==> exists k :: 0 <= k < |ls| && Tail(ls[k]) == c
  {
    if ls == [] then 0
    else
      var rest := MaxTail(ls[1..]);
      assert forall k | 0 < k < |ls| :: ls[k] == ls[1..][k - 1];
      if Tail(ls[0]) > rest then Tail(ls[0])
      else
        assert forall k | 0 <= k < |ls| - 1 :: ls[k + 1] == ls[1..][k];
        rest
  }

  lemma WithinZero(ls: seq<string>)
    ensures Within(ls, 0) <==> NoneEndsInCR(ls)
  {
    hide Tail, EndsInCR;
  }

  lemma MaxTailIsLeast(ls: seq<string>, c: nat)
    requires Within(ls, c)
    ensures MaxTail(ls) <= c
  {
    hide Tail;
  }

  lemma NoTailIsClean(ls: seq<string>)
    ensures MaxTail(ls) == 0 <==> NoneEndsInCR(ls)
  {
    hide Tail, Within, NoneEndsInCR;
    WithinZero(ls);
    if NoneEndsInCR(ls) {
      MaxTailIsLeast(ls, 0);
    }
  }

  lemma {:induction false} TailSkips(w: string, s: string)
    requires forall c | c in w :: c != '\r'
    ensures Tail(w + s) == Tail(s)
  {
    if EndsInCR(s) {
      TailSkips(w, s[..|s| - 1]);
      assert (w + s)[..|w + s| - 1] == w + s[..|s| - 1];
    } else if s == "" {
      assert w + s == w;
      assert w != "" ==> w[|w| - 1] in w;
    }
  }

  lemma UncommentKeepsTail(l: string)
    ensures Tail(Uncomment(l)) == Tail(l)
  {
    hide Tail, Uncomment, IsCommented, Lead, TrimLeft;
    if IsCommented(l) {
      var indent, gap, body := Anatomy(l);
      TailSkips(indent, body);
      var front := indent + "#" + gap;
      assert front + body == l;
      TailSkips(front, body);
    }
  }

  lemma DropTail(l: string)
    ensures Tail(DropCR(l)) == if Tail(l) > 0 then Tail(l) - 1 else 0
  {
  }

  /** No line of the template's unix block ends in a carriage return. */
  predicate CleanTemplate(t: Template) {
    t.unix.Some? ==> NoneEndsInCR(t.unix.value)
  }

  lemma OutsideIsPart(t: Template, ls: seq<string>)
    ensures forall l | l in Outside(t, ls) :: l in ls
  {
    hide First, BlockEnd;
  }

  lemma OwnLineHasNoTail(t: Template, l: string)
    requires WellFormed(t) && CleanTemplate(t)
    requires l == "" || (t.unix.Some? && l in t.unix.value) || l == PLUGINS || l == EntryLine(t, 2) || l == EntryLine(t, t.indent + 2)
    ensures Tail(l) == 0
  {
    hide EntryLine, WellFormed, Normalize, Lead, Has;
    InsertedLine(t, 2);
    InsertedLine(t, t.indent + 2);
  }

  /** No pass lengthens a tail. */
  lemma PassWithin(t: Template, ls: seq<string>, c: nat)
    requires WellFormed(t) && CleanTemplate(t) && Within(Outside(t, ls), c)
    ensures Within(PatchLines(t, ls).lines, c)
  {
    hide Tail, PatchLines, Outside, WellFormed, CleanTemplate, EntryLine, Uncomment, EndsInCR;
    forall y | 0 <= y < |PatchLines(t, ls).lines|
      ensures Tail(PatchLines(t, ls).lines[y]) <= c
    {
      var l := LineOrigin(t, ls, y);
      UncommentKeepsTail(l);
      if l in Outside(t, ls) {
        var k :| 0 <= k < |Outside(t, ls)| && Outside(t, ls)[k] == l;
      } else {
        OwnLineHasNoTail(t, l);
      }
    }
  }

  /** And none outside the unix block is lost. */
  lemma PassKeepsTail(t: Template, ls: seq<string>, j: nat) returns (y: nat)
    requires WellFormed(t) && j < |Outside(t, ls)|
    ensures y < |PatchLines(t, ls).lines| && Tail(PatchLines(t, ls).lines[y]) == Tail(Outside(t, ls)[j])
  {
    hide Tail, PatchLines, Outside, WellFormed;
    y := LineKept(t, ls, j);
    UncommentKeepsTail(Outside(t, ls)[j]);
  }

  lemma OwnLineIsOneLine(t: Template, l: string)
    requires WellFormed(t)
    requires l == "" || (t.unix.Some? && l in t.unix.value) || l == PLUGINS || l == EntryLine(t, 2) || l == EntryLine(t, t.indent + 2)
    ensures NoNewline(l)
  {
    hide EntryLine, Normalize, Lead, Has, Contains, IsCommented, EndsInCR, InBlock;
    InsertedLine(t, 2);
    InsertedLine(t, t.indent + 2);
  }

  lemma PassIsLines(t: Template, ls: seq<string>)
    requires WellFormed(t) && AllNoNewline(ls)
    ensures AllNoNewline(PatchLines(t, ls).lines)
  {
    hide NoNewline, PatchLines, Outside, WellFormed, EntryLine;
    OutsideIsPart(t, ls);
    forall y | 0 <= y < |PatchLines(t, ls).lines|
      ensures NoNewline(PatchLines(t, ls).lines[y])
    {
      var l := LineOrigin(t, ls, y);
      if l in Outside(t, ls) {
        assert l in ls;
      } else {
        OwnLineIsOneLine(t, l);
      }
      CommentsKeepLine(l);
    }
  }

  // ----- Writing and reading -----

  lemma NoTail()
    ensures Tail("") == 0
  {
  }

  lemma FoldShortens(x: seq<string>, c: nat)
    requires |x| >= 1 && x[|x| - 1] == "" && Within(x, c + 1)
    ensures Within(FoldLines(x), c)
  {
    hide Tail, DropCR, FoldLines, EndsInCR;
    NoTail();
    forall k | 0 <= k < |x|
      ensures Tail(FoldLines(x)[k]) <= c
    {
      DropTail(x[k]);
    }
  }

  lemma CloseWithin(m: seq<string>, c: nat)
    requires |m| >= 1 && Within(m, c)
    ensures Within(Close(m), c)
  {
    hide Tail;
    NoTail();
  }

  lemma PartWithin(part: seq<string>, ls: seq<string>, c: nat)
    requires Within(ls, c) && forall l | l in part :: l in ls
    ensures Within(part, c)
  {
    hide Tail;
    forall k | 0 <= k < |part|
      ensures Tail(part[k]) <= c
    {
      assert part[k] in ls;
    }
  }
}
