/** integration/ndpi_toggle.go as it runs: read the lines, look for the plugin line, rewrite it
    in the slice, and replace the file.  */
module NdpiToggle {
  import opened Wrappers
  import opened Text
  import opened Comments
  import opened Toggle
  import opened Disk

  datatype Failure = ReadFailed | Unusable(error: ToggleError) | WriteFailed

  /** The scanner loop of readLines. */
  method ScanLines(content: string) returns (r: Result<seq<string>, ToggleError>)
    ensures r == ReadLines(content)
  {
    hide Split, Fold, DropCR;
    var raw := Tokens(Fold(content));
    hide Tokens;
    var lines := [];
    var i := 0;
    while i < |raw|
      invariant i <= |raw| && |lines| == i
      invariant forall k | 0 <= k < i :: |raw[k]| < MAX_TOKEN && lines[k] == DropCR(raw[k])
    {
      if |raw[i]| >= MAX_TOKEN {
        return Err(LineTooLong);
      }
      lines := lines + [DropCR(raw[i])];
      i := i + 1;
    }
    assert lines == DropCRs(raw);
    return Ok(lines);
  }

  method ReadFileLines(fs: FileSystem, cfg: Name) returns (r: Result<seq<string>, Failure>)
    ensures r == if !fs.Readable(cfg) then Err(ReadFailed)
                 else match ReadLines(fs.files[cfg].data)
                      case Err(e) => Err(Unusable(e))
                      case Ok(ls) => Ok(ls)
  {
    hide ReadLines;
    var content := fs.ReadFile(cfg);
    if content.None? {
      return Err(ReadFailed);
    }
    var ls := ScanLines(content.value);
    match ls
    case Err(e) => return Err(Unusable(e));
    case Ok(lines) => return Ok(lines);
  }

  /** The search loop both operations start with. */
  method FindPluginLine(lines: seq<string>, path: string) returns (m: nat)
    ensures m == FirstMatch(lines, path)
  {
    hide Match;
    m := 0;
    while m < |lines| && !Match(lines[m], path)
      invariant m <= |lines|
      invariant forall k | 0 <= k < m :: !Match(lines[k], path)
    {
      m := m + 1;
    }
    FirstMatchIs(lines, path, m);
  }

  /** strings.TrimRight(l, "\r\n") */
  function TrimRight(l: string): (r: string)
    ensures r <= l && forall k | |r| <= k < |l| :: l[k] == '\r' || l[k] == '\n'
    ensures r != "" ==> r[|r| - 1] != '\r' && r[|r| - 1] != '\n'
  {
    if l != "" && (l[|l| - 1] == '\r' || l[|l| - 1] == '\n') then TrimRight(l[..|l| - 1]) else l
  }

  /** NDPIStatusWithFS: the file says whether the plugin is enabled, at which line, and how it reads. */
  method NDPIStatus(fs: FileSystem, cfg: Name, path: string) returns (r: Result<(nat, bool), Failure>, line: string)
    ensures r == if !fs.Readable(cfg) then Err(ReadFailed)
                 else match Status(fs.files[cfg].data, path)
                      case Err(e) => Err(Unusable(e))
                      case Ok(s) => Ok(s)
    ensures r.Ok? ==> r.value.0 < |ReadLines(fs.files[cfg].data).value| && line == TrimRight(ReadLines(fs.files[cfg].data).value[r.value.0])
    ensures r.Err? ==> line == ""
  {
    hide Match, IsCommented;
    var ls := ReadFileLines(fs, cfg);
    if ls.Err? {
      return Err(ls.error), "";
    }
    var lines := ls.value;
    var m := FindPluginLine(lines, path);
    if m == |lines| {
      return Err(Unusable(LineNotFound)), "";
    }
    return Ok((m, !IsCommented(lines[m]))), TrimRight(lines[m]);
  }

  /** What a toggle answers: whether it changed the file, and the state it claims to leave. */
  datatype Answer = Answer(changed: bool, enabledAfter: bool)

  /** SetNDPIEnabledWithFS.  The file is replaced exactly when the decision on its contents says
      so and the write succeeds; then it holds the decided bytes under its old mode, or under 0644
      if that cannot be found out.  Whatever happens, at every moment it holds its old bytes or those, and in the end no temporary
      file is left that could be removed.  */
  method SetNDPIEnabled(fs: FileSystem, cfg: string, path: string, enable: bool)
    returns (r: Result<Answer, Failure>, ghost temp: Name)
    requires fs.Valid()
    modifies fs
    ensures fs.Valid() && temp.Temp?
    ensures !old(fs.Readable(Path(cfg))) ==> r == Err(ReadFailed) && fs.files == old(fs.files) && fs.history == old(fs.history)
    ensures old(fs.Readable(Path(cfg))) ==>
              match Decide(old(fs.files[Path(cfg)].data), path, enable)
              case Err(e) => r == Err(Unusable(e)) && fs.files == old(fs.files) && fs.history == old(fs.history)
              case Ok(Keep) => r == Ok(Answer(false, enable)) && fs.files == old(fs.files) && fs.history == old(fs.history)
              case Ok(Replace(bytes)) =>
                var was := old(fs.files);
                var file := File(bytes, if Path(cfg) in fs.unstatable then 420 else was[Path(cfg)].mode);
                && (r.Ok? ==> r.value == Answer(true, enable) && fs.files == was[Path(cfg) := file])
                && (fs.reliable ==> r.Ok?)
                && (r.Err? ==> r == Err(WriteFailed) && SameBut(was, fs.files, {temp}) && (temp !in fs.stuck ==> fs.files == was))
                && fs.Extended(f => Intact(was, f, Path(cfg), file, temp))
  {
    hide Match, IsCommented, Uncomment, Comment, Intact, ReadLines, Join, Terminate;
    temp := Temp(0);
    var ls := ReadFileLines(fs, Path(cfg));
    if ls.Err? {
      return Err(ls.error), temp;
    }
    var lines := ls.value;
    var m := FindPluginLine(lines, path);
    if m == |lines| {
      return Err(Unusable(LineNotFound)), temp;
    }
    var curEnabled := !IsCommented(lines[m]);
    if enable == curEnabled {
      return Ok(Answer(false, enable)), temp;
    }
    lines := lines[m := if enable then Uncomment(lines[m]) else Comment(lines[m])];
    var perm := DEFAULT_MODE;
    var stat := fs.Stat(Path(cfg));
    if stat.Some? {
      perm := stat.value;
    }
    var out := Terminate(Join(lines));
    var ok;
    ok, temp := fs.WriteFileAtomic(cfg, out, perm);
    r := if ok then Ok(Answer(true, enable)) else Err(WriteFailed);
  }
}
