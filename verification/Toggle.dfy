/** What the toggler of integration/ndpi_toggle.go computes: its own reading of the file's lines,
    the line it picks, and the bytes it writes.  */
module Toggle {
  import opened Wrappers
  import opened Text
  import opened Comments

  /** bufio.MaxScanTokenSize; a line that does not fit makes the scanner fail. */
  const MAX_TOKEN := 65536

  datatype ToggleError = LineTooLong | LineNotFound

  // ----- Reading -----

  /** The scanner's lines: what is split at newlines, without an empty last piece. */
  function Tokens(s: string): seq<string> {
    var ls := Split(s);
    if ls[|ls| - 1] == "" then ls[..|ls| - 1] else ls
  }

  /** bufio.ScanLines drops a carriage return that the folding left at the end of a line. */
  function DropCRs(ls: seq<string>): (r: seq<string>)
    ensures |r| == |ls| && forall k | 0 <= k < |ls| :: r[k] == DropCR(ls[k])
  {
    seq(|ls|, k requires 0 <= k < |ls| => DropCR(ls[k]))
  }

  predicate Fits(ls: seq<string>) {
    forall k | 0 <= k < |ls| :: |ls[k]| < MAX_TOKEN
  }

  /** readLines */
  function ReadLines(content: string): Result<seq<string>, ToggleError> {
    var raw := Tokens(Fold(content));
    if Fits(raw) then Ok(DropCRs(raw)) else Err(LineTooLong)
  }

  // ----- The plugin line -----

  function StripSlashes(path: string): (r: string)
    ensures |r| <= |path| && r == path[..|r|]
  {
    if path != "" && path[|path| - 1] == '/' then StripSlashes(path[..|path| - 1]) else path
  }

  function AfterSlash(path: string): (r: string)
    ensures |r| <= |path| && r == path[|path| - |r|..]
  {
    if '/' !in path then path else AfterSlash(path[1..])
  }

  /** filepath.Base */
  function Base(path: string): string {
    if path == "" then "."
    else if StripSlashes(path) == "" then "/"
    else AfterSlash(StripSlashes(path))
  }

  /** matchNDPIPluginLine */
  predicate Match(l: string, path: string) {
    var s := Normalize(l);
    Contains(s, "-") && (Contains(s, path) || (Base(path) != "" && Contains(s, Base(path))))
  }

  /** The index of the first matching line, or |ls|. */
  function FirstMatch(ls: seq<string>, path: string): (m: nat)
    ensures m <= |ls|
  {
    if ls == [] || Match(ls[0], path) then 0 else 1 + FirstMatch(ls[1..], path)
  }

  lemma {:induction false} FirstMatchIsFirst(ls: seq<string>, path: string)
    ensures var m := FirstMatch(ls, path);
            (forall k | 0 <= k < m :: !Match(ls[k], path)) && (m < |ls| ==> Match(ls[m], path))
  {
    hide Match;
    if ls != [] && !Match(ls[0], path) {
      FirstMatchIsFirst(ls[1..], path);
      assert forall k | 0 < k < |ls| :: ls[k] == ls[1..][k - 1];
    }
  }

  lemma {:induction false} FirstMatchIs(ls: seq<string>, path: string, m: nat)
    requires m <= |ls|
    requires forall k | 0 <= k < m :: !Match(ls[k], path)
    requires m < |ls| ==> Match(ls[m], path)
    ensures FirstMatch(ls, path) == m
  {
    hide Match;
    if m > 0 {
      assert ls[1..][..m - 1] == ls[1..m];
      FirstMatchIs(ls[1..], path, m - 1);
    }
  }

  // ----- Status and toggle -----

  /** NDPIStatus: the index of the line it reports on, and whether that line is active. */
  function Status(content: string, path: string): Result<(nat, bool), ToggleError> {
    match ReadLines(content)
    case Err(e) => Err(e)
    case Ok(ls) =>
      var m := FirstMatch(ls, path);
      if m == |ls| then Err(LineNotFound) else Ok((m, !IsCommented(ls[m])))
  }

  /** A toggle keeps the file or replaces its bytes. */
  datatype Decision = Keep | Replace(bytes: string)

  function Toggled(l: string, enable: bool): string {
    if enable then Uncomment(l) else Comment(l)
  }

  function Written(ls: seq<string>): string {
    Terminate(Join(ls))
  }

  /** SetNDPIEnabled up to the write */
  function Decide(content: string, path: string, enable: bool): Result<Decision, ToggleError> {
    match ReadLines(content)
    case Err(e) => Err(e)
    case Ok(ls) =>
      var m := FirstMatch(ls, path);
      if m == |ls| then Err(LineNotFound)
      else if enable == !IsCommented(ls[m]) then Ok(Keep)
      else Ok(Replace(Written(ls[m := Toggled(ls[m], enable)])))
  }

  // ----- What is read back -----

  /** Lines as the next read sees them: a trailing blank line is lost, and with it up to two
      carriage returns at the end of each line.  */
  function Chop(ls: seq<string>): (r: seq<string>)
    ensures r <= ls
  {
    if |ls| >= 2 && ls[|ls| - 1] == "" then ls[..|ls| - 1] else ls
  }

  function Reread(ls: seq<string>): seq<string> {
    DropCRs(DropCRs(Chop(ls)))
  }

  /** The lines that are read: the pieces between newlines, without an empty last one, less a
      carriage return each; if one of them has 64 KB or more, none.  */
  lemma ReadLinesIs(content: string)
    ensures var pieces, r := Split(Fold(content)), ReadLines(content);
            var n := if pieces[|pieces| - 1] == "" then |pieces| - 1 else |pieces|;
            && (r == Err(LineTooLong) <==> exists k :: 0 <= k < n && |pieces[k]| >= 65536)
            && (r.Err? ==> r.error == LineTooLong)
            && (r.Ok? ==> |r.value| == n && forall k | 0 <= k < n ::
                  r.value[k] == if pieces[k] != "" && pieces[k][|pieces[k]| - 1] == '\r' then pieces[k][..|pieces[k]| - 1] else pieces[k])
  {
    hide Split, Fold;
  }

  /** The first line that matches, if any does. */
  predicate Picks(ls: seq<string>, path: string, m: nat) {
    m < |ls| && Match(ls[m], path) && forall k | 0 <= k < m :: !Match(ls[k], path)
  }

  lemma PickedIsFirst(ls: seq<string>, path: string)
    ensures FirstMatch(ls, path) == |ls| <==> forall k | 0 <= k < |ls| :: !Match(ls[k], path)
    ensures forall m: nat :: Picks(ls, path, m) <==> m == FirstMatch(ls, path) < |ls|
  {
    hide Match, FirstMatch;
    FirstMatchIsFirst(ls, path);
  }

  /** Which line decides, and how: the first that matches.  Without one there is nothing to decide;
      if it is as asked for, the file stays; otherwise that line is rewritten and all are joined,
      with a newline at the end.  */
  lemma DecideIs(content: string, path: string, enable: bool)
    ensures ReadLines(content).Err? ==> Decide(content, path, enable) == Err(LineTooLong)
    ensures ReadLines(content).Ok? ==>
              var ls, r := ReadLines(content).value, Decide(content, path, enable);
              && (r == Err(LineNotFound) <==> forall k | 0 <= k < |ls| :: !Match(ls[k], path))
              && forall m: nat | Picks(ls, path, m) ::
                   if enable == !IsCommented(ls[m]) then r == Ok(Keep)
                   else r == Ok(Replace(Terminate(Join(ls[m := if enable then Uncomment(ls[m]) else Comment(ls[m])]))))
  {
    hide Match, ReadLines, IsCommented, Uncomment, Comment, Join, Terminate, FirstMatch, Picks;
    if ReadLines(content).Ok? {
      PickedIsFirst(ReadLines(content).value, path);
    } else {
      ReadLinesIs(content);
    }
  }

  /** And what status reports: the place and the state of that line. */
  lemma StatusIs(content: string, path: string)
    ensures ReadLines(content).Err? ==> Status(content, path) == Err(LineTooLong)
    ensures ReadLines(content).Ok? ==>
              var ls, r := ReadLines(content).value, Status(content, path);
              && (r == Err(LineNotFound) <==> forall k | 0 <= k < |ls| :: !Match(ls[k], path))
              && forall m: nat | Picks(ls, path, m) :: r == Ok((m, !IsCommented(ls[m])))
  {
    hide Match, ReadLines, IsCommented, FirstMatch, Picks;
    if ReadLines(content).Ok? {
      PickedIsFirst(ReadLines(content).value, path);
    } else {
      ReadLinesIs(content);
    }
  }

  lemma TokensAreLines(content: string)
    ensures AllNoNewline(Tokens(content))
    ensures AllNoNewline(DropCRs(Tokens(content)))
  {
  }

  lemma ReadIsPlain(content: string)
    requires ReadLines(content).Ok?
    ensures AllNoNewline(ReadLines(content).value)
  {
    TokensAreLines(Fold(content));
  }

  lemma FoldedAppend(ls: seq<string>)
    ensures FoldLines(ls + [""]) == DropCRs(ls) + [""]
  {
    hide DropCR;
  }

  lemma FoldedClose(ls: seq<string>)
    requires |ls| >= 1
    ensures FoldLines(Close(ls)) == DropCRs(Chop(ls)) + [""]
  {
    hide DropCR, FoldLines, DropCRs;
    assert Close(ls) == Chop(ls) + [""];
    FoldedAppend(Chop(ls));
  }

  lemma TokensWritten(ls: seq<string>)
    requires |ls| >= 1 && AllNoNewline(ls)
    ensures Tokens(Fold(Written(ls))) == DropCRs(Chop(ls))
  {
    hide Join, Terminate, Split, Fold, DropCR, Close, Chop, DropCRs, NoNewline, EndsInCR;
    SplitLinesOfWritten(ls);
    FoldedClose(ls);
    var kept := DropCRs(Chop(ls));
    assert (kept + [""])[..|kept|] == kept;
  }

  lemma ReadWritten(ls: seq<string>)
    requires |ls| >= 1 && AllNoNewline(ls)
    ensures ReadLines(Written(ls)) == if Fits(DropCRs(Chop(ls))) then Ok(Reread(ls)) else Err(LineTooLong)
  {
    hide Join, Terminate, Tokens, Fold, DropCRs, Chop, Fits, Written, NoNewline;
    TokensWritten(ls);
  }

  lemma RereadPlain(ls: seq<string>)
    requires NoneEndsInCR(ls)
    ensures Reread(ls) == Chop(ls) == DropCRs(Chop(ls))
  {
  }

  lemma DropCRKeepsMatch(l: string, path: string)
    ensures Match(DropCR(l), path) == Match(l, path)
    ensures IsCommented(DropCR(l)) == IsCommented(l)
  {
    hide Normalize, Contains, Base, Lead;
    DropCRKeepsKey(l);
  }

  // ----- Base names -----

  lemma AfterSlashIsPart(path: string)
    ensures Contains(path, AfterSlash(path))
  {
    var base := AfterSlash(path);
    hide AfterSlash;
    assert path[|path| - |base|..|path|] == base;
    assert At(path, |path| - |base|, base);
  }

  lemma {:induction false} SlashesStripped(path: string, tail: string)
    requires path == "" || path[|path| - 1] != '/'
    requires forall c | c in tail :: c == '/'
    ensures StripSlashes(path + tail) == path
  {
    if tail == "" {
      assert path + tail == path;
    } else {
      var n := |tail| - 1;
      assert tail[n] in tail;
      assert forall c | c in tail[..n] :: c in tail;
      SlashesStripped(path, tail[..n]);
      assert (path + tail)[..|path| + n] == path + tail[..n];
    }
  }

  lemma {:induction false} AfterLastSlash(dir: string, name: string)
    requires '/' !in name && (dir == "" || dir[|dir| - 1] == '/')
    ensures AfterSlash(dir + name) == name
  {
    if dir == "" {
      assert dir + name == name;
    } else {
      assert (dir + name)[|dir| - 1] == '/';
      AfterLastSlash(dir[1..], name);
      assert (dir + name)[1..] == dir[1..] + name;
    }
  }

  lemma LastOf(dir: string, name: string)
    requires name != "" && '/' !in name
    ensures (dir + name)[|dir + name| - 1] != '/'
  {
    assert (dir + name)[|dir + name| - 1] in name;
  }

  /** The base name is what stands behind the last slash, slashes at the end not counted; of
      slashes alone it is a slash, and of nothing a dot.  */
  lemma BaseIs(dir: string, name: string, tail: string)
    requires name != "" && '/' !in name && (dir == "" || dir[|dir| - 1] == '/')
    requires forall c | c in tail :: c == '/'
    ensures Base(dir + name + tail) == name
    ensures tail != "" ==> Base(tail) == "/"
    ensures Base("") == "."
  {
    hide AfterSlash, StripSlashes;
    var path := dir + name;
    LastOf(dir, name);
    SlashesStripped(path, tail);
    SlashesStripped("", tail);
    assert "" + tail == tail;
    AfterLastSlash(dir, name);
  }

  /** A line with the whole path also has the path's base name. */
  lemma BaseIsPart(path: string)
    requires path != ""
    ensures Contains(path, Base(path))
  {
    hide AfterSlash;
    var stripped := StripSlashes(path);
    if stripped == "" {
      assert path[|path| - 1] == '/' && path[|path| - 1..|path|] == "/";
      OccursAt(path, |path| - 1, "/");
    } else {
      AfterSlashIsPart(stripped);
      assert stripped == path[0..|stripped|];
      ContainsWiden(path, 0, |stripped|, AfterSlash(stripped));
    }
  }

  lemma NothingIsPart(s: string)
    ensures Contains(s, "")
  {
    assert At(s, 0, "");
  }

  /** For a base name without blanks and marks a match can be seen on the raw line. */
  lemma MatchOnRawLine(l: string, path: string)
    requires Solid(Base(path))
    ensures Match(l, path) <==> Contains(l, "-") && (path == "" || Contains(l, Base(path)))
  {
    hide Normalize, Contains, Base;
    NormalizeContains(l, "-");
    NormalizeContains(l, Base(path));
    NothingIsPart(Normalize(l));
    if path != "" && Contains(Normalize(l), path) {
      BaseIsPart(path);
      ContainsTransitive(Normalize(l), path, Base(path));
    }
  }

  lemma UncommentKeepsMatch(l: string, path: string)
    requires Solid(Base(path))
    ensures Match(Uncomment(l), path) == Match(l, path)
  {
    hide Match, Contains, Base, Uncomment;
    MatchOnRawLine(l, path);
    MatchOnRawLine(Uncomment(l), path);
    UncommentContains(l, "-");
    UncommentContains(l, Base(path));
  }
}
