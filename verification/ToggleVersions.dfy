/** The versions of a file that toggling can produce from an original, whatever stale reading
    each toggle starts from.  */
module ToggleVersions {
  import opened Wrappers
  import opened Text
  import opened Comments
  import opened Toggle
  import opened ToggleTheorems

  // ----- Lines less carriage returns -----

  /** x is l without some of the carriage returns at its end. */
  predicate Stripped(x: string, l: string) {
    x <= l && forall k | |x| <= k < |l| :: l[k] == '\r'
  }

  lemma StrippedOnce(x: string, l: string)
    requires Stripped(x, l) && x != l
    ensures EndsInCR(l) && Stripped(x, DropCR(l)) && |DropCR(l)| < |l|
  {
  }

  /** To the toggler it is the same line. */
  lemma {:induction false} StrippedIsSame(x: string, l: string, path: string)
    requires Stripped(x, l)
    ensures Normalize(x) == Normalize(l) && IsCommented(x) == IsCommented(l) && Match(x, path) == Match(l, path)
    ensures NoNewline(l) ==> NoNewline(x)
    decreases |l|
  {
    hide Normalize, IsCommented, Match;
    if x != l {
      StrippedOnce(x, l);
      StrippedIsSame(x, DropCR(l), path);
      DropCRKeepsKey(l);
      DropCRKeepsMatch(l, path);
    }
  }

  lemma {:induction false} StrippedUncomment(x: string, l: string)
    requires Stripped(x, l)
    ensures |Uncomment(x)| <= |Uncomment(l)|
    decreases |l|
  {
    hide Uncomment;
    if x != l {
      StrippedOnce(x, l);
      StrippedUncomment(x, DropCR(l));
      UncommentOfDropCR(l);
    }
  }

  lemma DropIsStripped(x: string, l: string)
    requires Stripped(x, l)
    ensures Stripped(DropCR(x), l)
  {
  }

  // ----- Versions -----

  /** The three forms the plugin line takes: as it was, uncommented, and commented again. */
  predicate FormOf(x: string, y: string) {
    x == y || x == Uncomment(y) || x == Comment(Uncomment(y))
  }

  ghost predicate Form(x: string, l: string) {
    exists y :: Stripped(y, l) && FormOf(x, y)
  }

  /** The original lines less carriage returns at their ends, line m in one of its forms, and
      trailing blank lines dropped.  */
  ghost predicate Version(ls: seq<string>, original: seq<string>, m: nat) {
    && m < |ls| <= |original|
    && (forall j | 0 <= j < |ls| && j != m :: Stripped(ls[j], original[j]))
    && (forall j | |ls| <= j < |original| :: Stripped("", original[j]))
    && Form(ls[m], original[m])
  }

  /** The original's plugin line can be read and carries at most one mark. */
  predicate Toggleable(original: string, path: string) {
    ReadLines(original).Ok? &&
    var ls := ReadLines(original).value;
    var m := FirstMatch(ls, path);
    m < |ls| && OneMark(ls[m])
  }

  ghost predicate InFamily(content: string, original: string, path: string)
    requires Toggleable(original, path)
  {
    var ls := ReadLines(original).value;
    content == original || exists v :: Version(v, ls, FirstMatch(ls, path)) && content == Written(v)
  }

  lemma FormSource(x: string, l: string, path: string) returns (y: string)
    requires Form(x, l)
    ensures Stripped(y, l) && FormOf(x, y)
    ensures Normalize(y) == Normalize(l) && IsCommented(y) == IsCommented(l) && Match(y, path) == Match(l, path)
    ensures NoNewline(l) ==> NoNewline(y)
  {
    hide Stripped, FormOf, Normalize, IsCommented, Match, NoNewline;
    y :| Stripped(y, l) && FormOf(x, y);
    StrippedIsSame(y, l, path);
  }

  lemma FormHas(x: string, l: string, y: string)
    requires Stripped(y, l) && FormOf(x, y)
    ensures Form(x, l)
  {
    hide Stripped, FormOf;
  }

  lemma FormIsLine(x: string, l: string, path: string)
    requires Form(x, l) && NoNewline(l)
    ensures NoNewline(x)
  {
    hide Form, Stripped, Normalize, IsCommented, Match, NoNewline, Comment, Uncomment;
    var y := FormSource(x, l, path);
    CommentsKeepLine(y);
    CommentsKeepLine(Uncomment(y));
  }

  lemma FormMatches(x: string, l: string, path: string)
    requires Form(x, l) && Match(l, path) && OneMark(l)
    ensures Match(x, path) && x != ""
  {
    hide Form, Stripped, Match, Comment, Uncomment, Normalize, IsCommented;
    var y := FormSource(x, l, path);
    if IsCommented(y) {
      ToggledMatches(y, path, true);
    } else {
      assert Uncomment(y) == y;
    }
    NormalizeUncommented(y);
    ToggledMatches(Uncomment(y), path, false);
    BlankDoesNotMatch(path);
  }

  /** Toggling a form that needs it gives a form in the requested state. */
  lemma ToggledForm(x: string, l: string, enable: bool)
    requires Form(x, l) && OneMark(l) && enable == IsCommented(x)
    ensures Form(Toggled(x, enable), l) && IsCommented(Toggled(x, enable)) == !enable
  {
    hide Form, Stripped, Normalize, Lead, Comment, Uncomment, IsCommented, Match;
    var y := FormSource(x, l, "");
    NormalizeUncommented(y);
    UncommentOfComment(Uncomment(y));
    if !IsCommented(y) {
      assert Uncomment(y) == y;
    }
    FormHas(Toggled(x, enable), l, y);
  }

  lemma FormDrop(x: string, l: string)
    requires Form(x, l) && OneMark(l)
    ensures Form(DropCR(x), l)
  {
    hide Form, Stripped, Normalize, Lead, Comment, Uncomment, IsCommented, Match, DropCR;
    var y := FormSource(x, l, "");
    NormalizeUncommented(y);
    UncommentOfDropCR(y);
    CommentOfDropCR(Uncomment(y));
    DropIsStripped(y, l);
    FormHas(DropCR(x), l, DropCR(y));
  }

  lemma OriginalForm(l: string)
    ensures Form(l, l)
  {
    assert Stripped(l, l) && FormOf(l, l);
  }

  lemma VersionIsLines(v: seq<string>, original: seq<string>, m: nat)
    requires Version(v, original, m) && AllNoNewline(original)
    ensures AllNoNewline(v)
  {
    hide Form, NoNewline, Stripped;
    FormIsLine(v[m], original[m], "");
    forall j | 0 <= j < |v| && j != m
      ensures NoNewline(v[j])
    {
      StrippedIsSame(v[j], original[j], "");
    }
  }

  lemma VersionIsPicked(v: seq<string>, original: seq<string>, m: nat, path: string)
    requires Version(v, original, m) && FirstMatch(original, path) == m && m < |original| && OneMark(original[m])
    ensures FirstMatch(v, path) == m && v[m] != ""
  {
    hide Form, Match, OneMark, Stripped, FirstMatch, Normalize, IsCommented;
    FirstMatchIsFirst(original, path);
    FormMatches(v[m], original[m], path);
    forall j | 0 <= j < m
      ensures !Match(v[j], path)
    {
      StrippedIsSame(v[j], original[j], path);
    }
    FirstMatchIs(v, path, m);
  }

  lemma ChopIsVersion(v: seq<string>, original: seq<string>, m: nat)
    requires Version(v, original, m) && v[m] != ""
    ensures Version(Chop(v), original, m)
  {
    hide Form, Stripped;
  }

  lemma DropsAreVersion(v: seq<string>, original: seq<string>, m: nat)
    requires Version(v, original, m) && OneMark(original[m])
    ensures Version(DropCRs(v), original, m)
  {
    hide Form, Stripped, DropCR, OneMark;
    FormDrop(v[m], original[m]);
    forall j | 0 <= j < |v| && j != m
      ensures Stripped(DropCRs(v)[j], original[j])
    {
      DropIsStripped(v[j], original[j]);
    }
  }

  /** What is read back from a version is a version. */
  lemma RereadIsVersion(v: seq<string>, original: seq<string>, m: nat)
    requires Version(v, original, m) && v[m] != "" && OneMark(original[m])
    ensures Version(Reread(v), original, m) && Version(DropCRs(Chop(v)), original, m)
    ensures IsCommented(Reread(v)[m]) == IsCommented(v[m])
  {
    hide Version, OneMark, Chop, DropCRs, IsCommented, DropCR;
    ChopIsVersion(v, original, m);
    DropsAreVersion(Chop(v), original, m);
    DropsAreVersion(DropCRs(Chop(v)), original, m);
    ReadAt(v, original, m);
    DropCRKeepsIndent(v[m]);
    DropCRKeepsIndent(DropCR(v[m]));
  }

  lemma ReadAt(v: seq<string>, original: seq<string>, m: nat)
    requires Version(v, original, m) && Version(Reread(v), original, m) && v[m] != ""
    ensures m < |v| && m < |Reread(v)| && Reread(v)[m] == DropCR(DropCR(v[m]))
  {
    hide Form, Stripped, DropCR;
    ChopUpdate(v, m, v[m]);
    assert v[m := v[m]] == v;
    RereadLine(v, m);
  }

  lemma OriginalIsVersion(original: string, path: string)
    requires Toggleable(original, path)
    ensures var ls := ReadLines(original).value;
            Version(ls, ls, FirstMatch(ls, path)) && AllNoNewline(ls)
  {
    hide ReadLines, OneMark, Match, Form, FirstMatch;
    ReadIsPlain(original);
    OriginalForm(ReadLines(original).value[FirstMatch(ReadLines(original).value, path)]);
  }

  /** What a toggle reads from a member of the family is a version of the original. */
  lemma MemberReads(content: string, original: string, path: string)
    requires Toggleable(original, path) && InFamily(content, original, path) && ReadLines(content).Ok?
    ensures var ls := ReadLines(original).value;
            Version(ReadLines(content).value, ls, FirstMatch(ls, path))
  {
    hide ReadLines, OneMark, Version, Written, FirstMatch, Reread;
    OriginalIsVersion(original, path);
    var ls := ReadLines(original).value;
    var m := FirstMatch(ls, path);
    if content != original {
      var v :| Version(v, ls, m) && content == Written(v);
      VersionIsLines(v, ls, m);
      PickedVersion(v, ls, m, path);
      ReadWritten(v);
      RereadIsVersion(v, ls, m);
    }
  }

  lemma PickedVersion(v: seq<string>, original: seq<string>, m: nat, path: string)
    requires Version(v, original, m) && FirstMatch(original, path) == m && m < |original| && OneMark(original[m])
    ensures m < |v| && FirstMatch(v, path) == m && v[m] != "" && |v| >= 1
  {
    hide Form, Match, OneMark, Stripped, FirstMatch;
    VersionIsPicked(v, original, m, path);
  }

  /** A toggle on a member of the family writes a member of the family, at the same line. */
  lemma FamilyIsClosed(content: string, original: string, path: string, enable: bool)
    requires Toggleable(original, path) && InFamily(content, original, path)
    requires Decide(content, path, enable).Ok? && Decide(content, path, enable).value.Replace?
    ensures InFamily(Decide(content, path, enable).value.bytes, original, path)
    ensures exists v :: WrittenVersion(v, original, path, enable) && Decide(content, path, enable).value.bytes == Written(v)
  {
    hide ReadLines, OneMark, Form, Written, IsCommented, FirstMatch, Stripped;
    MemberReads(content, original, path);
    var ls := ReadLines(original).value;
    var m := FirstMatch(ls, path);
    var r := ReadLines(content).value;
    VersionIsPicked(r, ls, m, path);
    ToggledForm(r[m], ls[m], enable);
    var v := r[m := Toggled(r[m], enable)];
    assert Version(v, ls, m);
    assert WrittenVersion(v, original, path, enable);
  }

  /** A version in which the plugin line is in the requested state. */
  ghost predicate WrittenVersion(v: seq<string>, original: string, path: string, enable: bool)
    requires Toggleable(original, path)
  {
    var ls := ReadLines(original).value;
    var m := FirstMatch(ls, path);
    Version(v, ls, m) && IsCommented(v[m]) == !enable
  }

  /** The commented plugin line still fits the scanner. */
  predicate RoomForMark(original: string, path: string)
    requires Toggleable(original, path)
  {
    var ls := ReadLines(original).value;
    |Comment(Uncomment(ls[FirstMatch(ls, path)]))| < MAX_TOKEN
  }

  lemma CommentLength(l: string)
    requires !IsCommented(l)
    ensures |Comment(l)| == |l| + 2
  {
    hide Lead;
  }

  lemma FormFits(x: string, l: string)
    requires Form(x, l) && OneMark(l) && |l| < MAX_TOKEN && |Comment(Uncomment(l))| < MAX_TOKEN
    ensures |x| < MAX_TOKEN
  {
    hide Form, Normalize, Comment, Uncomment, IsCommented, Match;
    var y := FormSource(x, l, "");
    NormalizeUncommented(y);
    NormalizeUncommented(l);
    CommentLength(Uncomment(y));
    CommentLength(Uncomment(l));
    StrippedUncomment(y, l);
  }

  lemma VersionFits(v: seq<string>, original: seq<string>, m: nat)
    requires Version(v, original, m) && Fits(original) && OneMark(original[m]) && |Comment(Uncomment(original[m]))| < MAX_TOKEN
    ensures Fits(v)
  {
    hide Comment, Uncomment, OneMark, Form;
    FormFits(v[m], original[m]);
  }

  /** Status on a written version reports the state of its plugin line. */
  lemma VersionStatus(v: seq<string>, original: string, path: string, enable: bool)
    requires Toggleable(original, path) && RoomForMark(original, path) && WrittenVersion(v, original, path, enable)
    ensures Status(Written(v), path) == Ok((FirstMatch(ReadLines(original).value, path), enable))
  {
    hide OneMark, Version, Written, IsCommented, Uncomment, Comment, Reread, FirstMatch, DropCRs, Fits;
    OriginalIsVersion(original, path);
    ReadLinesFit(original);
    hide ReadLines;
    var ls := ReadLines(original).value;
    var m := FirstMatch(ls, path);
    VersionIsLines(v, ls, m);
    PickedVersion(v, ls, m, path);
    RereadIsVersion(v, ls, m);
    VersionFits(DropCRs(Chop(v)), ls, m);
    ReadWritten(v);
    PickedVersion(Reread(v), ls, m, path);
  }
}
