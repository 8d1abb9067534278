/** How many passes it takes until a file is tidy: until no line that stage one keeps ends in a
    carriage return and nothing behind the unix block is taken for a part of it.  */
module PatchDelay {
  import opened Text
  import opened PatchSpec
  import opened PatchConvergence
  import opened PatchFrame
  import opened PatchTails
  import opened PatchReadings
  import opened PatchRestored

  // ----- Getting tidy -----

  function Untidiness(t: Template, ls: seq<string>): nat {
    2 * MaxTail(Outside(t, ls)) + if Shallow(t, ls) then 0 else 1
  }

  /** One carriage return less on every line that stage one keeps. */
  lemma ReadingShortens(t: Template, ls: seq<string>)
    requires WellFormed(t)
    ensures var c := MaxTail(Outside(t, ls)); MaxTail(Outside(t, Reading(t, ls))) <= if c > 0 then c - 1 else 0
  {
    hide WellFormed, Outside, PatchLines, Within, MaxTail, Tail, FoldLines, Close;
    if t.unix.Some? {
      OutsideShortens(t, ls);
    } else {
      var c := MaxTail(Outside(t, ls));
      PassIsWithin(t, ls);
      var r, d := Reading(t, ls), if c > 0 then c - 1 else 0;
      WithinMore(Round(t, ls), c);
      FoldShortens(Round(t, ls), d);
      OutsideIsPart(t, r);
      PartWithin(Outside(t, r), r, d);
      MaxTailIsLeast(Outside(t, r), d);
    }
  }

  lemma PassIsWithin(t: Template, ls: seq<string>)
    requires WellFormed(t) && CleanTemplate(t)
    ensures Within(Round(t, ls), MaxTail(Outside(t, ls)))
  {
    hide WellFormed, CleanTemplate, Outside, PatchLines, Within, MaxTail, Tail, Close;
    var c := MaxTail(Outside(t, ls));
    PassWithin(t, ls, c);
    CloseWithin(PatchLines(t, ls).lines, c);
  }

  lemma WithinMore(ls: seq<string>, c: nat)
    requires Within(ls, c)
    ensures Within(ls, c + 1)
  {
    hide Tail;
  }

  lemma UntidinessDrops(t: Template, ls: seq<string>)
    requires WellFormed(t) && !Tidy(t, ls)
    ensures Untidiness(t, Reading(t, ls)) < Untidiness(t, ls)
  {
    hide WellFormed, Outside, MaxTail, Shallow, Reading, Round, NoneEndsInCR, Within;
    ReadingShortens(t, ls);
    ReadingIsShallow(t, ls);
    NoTailIsClean(Outside(t, ls));
  }

  /** How many passes it takes until the file is tidy. */
  function Delay(t: Template, ls: seq<string>): nat
    requires WellFormed(t)
    decreases Untidiness(t, ls)
  {
    if Tidy(t, ls) then 0
    else
      UntidinessDrops(t, ls);
      1 + Delay(t, Reading(t, ls))
  }

  /** The lines the first pass over a tidy file reads. */
  function Tidied(t: Template, ls: seq<string>): (r: seq<string>)
    requires WellFormed(t)
    ensures Tidy(t, r) && (|ls| >= 1 ==> |r| >= 1)
    decreases Untidiness(t, ls)
  {
    if Tidy(t, ls) then ls
    else
      UntidinessDrops(t, ls);
      Tidied(t, Reading(t, ls))
  }

  /** At most one pass more than there are carriage returns on a line that stage one keeps. */
  lemma {:induction false} DelayBound(t: Template, ls: seq<string>)
    requires WellFormed(t)
    ensures Delay(t, ls) <= MaxTail(Outside(t, ls)) + (if Shallow(t, ls) then 0 else 1)
    decreases Untidiness(t, ls)
  {
    hide WellFormed, Outside, MaxTail, Shallow, Reading, Round, NoneEndsInCR, Within;
    if !Tidy(t, ls) {
      UntidinessDrops(t, ls);
      DelayBound(t, Reading(t, ls));
      ReadingShortens(t, ls);
      ReadingIsShallow(t, ls);
      NoTailIsClean(Outside(t, ls));
    }
  }

  lemma TidyNow(t: Template, ls: seq<string>)
    requires WellFormed(t) && Tidy(t, ls)
    ensures Delay(t, ls) == 0 && Tidied(t, ls) == ls
  {
    hide WellFormed, Tidy, Untidiness;
  }

  lemma TidyLater(t: Template, ls: seq<string>)
    requires WellFormed(t) && !Tidy(t, ls)
    ensures Delay(t, ls) == 1 + Delay(t, Reading(t, ls)) && Tidied(t, ls) == Tidied(t, Reading(t, ls))
  {
    hide WellFormed, Tidy, Untidiness, Reading;
  }

  /** From then on the readings are those of the tidied file. */
  lemma {:induction false} AfterDelay(t: Template, ls: seq<string>, n: nat)
    requires WellFormed(t) && n >= Delay(t, ls)
    ensures Readings(t, ls, n) == Readings(t, Tidied(t, ls), n - Delay(t, ls))
    decreases Untidiness(t, ls)
  {
    hide WellFormed, Tidy, Reading, Untidiness, Delay, Tidied, Readings;
    if Tidy(t, ls) {
      TidyNow(t, ls);
    } else {
      TidyLater(t, ls);
      UntidinessDrops(t, ls);
      AfterDelay(t, Reading(t, ls), n - 1);
      ReadingsShift(t, ls, n - 1);
    }
  }

  // ----- An untidy file changes again -----

  lemma TailsDiffer(t: Template, ls: seq<string>)
    requires WellFormed(t) && CleanTemplate(t) && !NoneEndsInCR(Outside(t, ls))
    ensures Round(t, Reading(t, ls)) != Round(t, ls)
  {
    hide WellFormed, CleanTemplate, Outside, MaxTail, NoneEndsInCR, PatchLines, FoldLines, Tail, Close;
    var c := MaxTail(Outside(t, ls));
    NoTailIsClean(Outside(t, ls));
    var j :| 0 <= j < |Outside(t, ls)| && Tail(Outside(t, ls)[j]) == c;
    var y := PassKeepsTail(t, ls, j);
    CloseIsPrefix(PatchLines(t, ls).lines);
    assert Tail(Round(t, ls)[y]) == c;
    ReadingShortens(t, ls);
    PassIsWithin(t, Reading(t, ls));
    assert MaxTail(Outside(t, Reading(t, ls))) < c;
  }
}
