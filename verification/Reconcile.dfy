/** Planning and reconciling the Suricata configuration: render the template, patch the current
    file, and, when that changes it, validate the result in a scratch file, install it, and
    restart (integration/plan_config.go, integration/reconcile_config.go).  */
module Reconcile {
  import opened Wrappers
  import opened Text
  import opened PatchSpec
  import opened PatchReadings
  import opened PatchTheorems
  import opened Templates
  import opened Disk
  import opened Patcher
  import opened Renderer

  /** The configuration and the environment of one call; `hash` stands for SHA-256. */
  datatype Options = Options(
    template: string,
    candidates: seq<string>,
    environ: map<string, string>,
    detected: Option<string>,
    hash: string -> string)

  datatype Report = Report(
    template: string,
    target: string,
    currentHash: string,
    patchedHash: string,
    currentBytes: nat,
    patchedBytes: nat,
    wouldChange: bool,
    applied: bool,
    validated: bool,
    restartRequired: bool,
    restartPerformed: bool)

  datatype Failure =
    | ReadTemplateFailed
    | RenderFailed(render: RenderError)
    | NoTarget
    | ReadCurrentFailed(target: string)
    | PatchFailed(target: string, patch: PatchError)
    | WriteScratchFailed
    | ValidationFailed
    | WriteTargetFailed
    | RestartFailed

  // ----- The dry run -----

  /** What both operations find out before anything is written. */
  datatype Preview = Preview(target: string, current: string, patched: string, changed: bool)

  function FirstExisting(files: Files, candidates: seq<string>): Option<string> {
    if candidates == [] then None
    else if Path(candidates[0]) in files then Some(candidates[0])
    else FirstExisting(files, candidates[1..])
  }

  function Contents(files: Files, unreadable: set<Name>, path: string): Option<string> {
    if Path(path) in files && Path(path) !in unreadable then Some(files[Path(path)].data) else None
  }

  function Outlook(files: Files, unreadable: set<Name>, o: Options): Result<Preview, Failure> {
    match Contents(files, unreadable, o.template)
    case None => Err(ReadTemplateFailed)
    case Some(tpl) =>
      match Rendered(tpl, o.environ, o.detected)
      case Err(e) => Err(RenderFailed(e))
      case Ok(rendered) =>
        match FirstExisting(files, o.candidates)
        case None => Err(NoTarget)
        case Some(target) =>
          match Contents(files, unreadable, target)
          case None => Err(ReadCurrentFailed(target))
          case Some(current) =>
            match Patch(rendered, current)
            case Err(e) => Err(PatchFailed(target, e))
            case Ok(p) => Ok(Preview(target, current, p.bytes, p.changed))
  }

  /** The report of a dry run. */
  function Announced(o: Options, p: Preview): Report {
    Report(o.template, p.target, o.hash(p.current), o.hash(p.patched), |p.current|, |p.patched|,
           p.changed, false, false, p.changed, false)
  }

  function Blank(o: Options, e: Failure): Report {
    var target := match e
                  case ReadCurrentFailed(target) => target
                  case PatchFailed(target, _) => target
                  case _ => "";
    Report(o.template, target, "", "", 0, 0, false, false, false, false, false)
  }

  method FirstExistingPath(fs: FileSystem, candidates: seq<string>) returns (r: Option<string>)
    ensures r == FirstExisting(fs.files, candidates)
  {
    var i := 0;
    while i < |candidates|
      invariant i <= |candidates|
      invariant FirstExisting(fs.files, candidates) == FirstExisting(fs.files, candidates[i..])
    {
      if Path(candidates[i]) in fs.files {
        return Some(candidates[i]);
      }
      i := i + 1;
    }
    return None;
  }

  /** The steps PlanConfig and ReconcileConfig share. */
  method Look(fs: FileSystem, o: Options) returns (r: Result<Preview, Failure>)
    ensures r == Outlook(fs.files, fs.unreadable, o)
  {
    hide Rendered, Patch, FirstExisting;
    var tpl := fs.ReadFile(Path(o.template));
    if tpl.None? {
      return Err(ReadTemplateFailed);
    }
    var rendered, _ := RenderTemplateStrict(tpl.value, o.environ, o.detected);
    if rendered.Err? {
      return Err(RenderFailed(rendered.error));
    }
    var target := FirstExistingPath(fs, o.candidates);
    if target.None? {
      return Err(NoTarget);
    }
    var current := fs.ReadFile(Path(target.value));
    if current.None? {
      return Err(ReadCurrentFailed(target.value));
    }
    var patched := PatchSuricataConfigFromTemplate(rendered.value, current.value);
    if patched.Err? {
      return Err(PatchFailed(target.value, patched.error));
    }
    return Ok(Preview(target.value, current.value, patched.value.bytes, patched.value.changed));
  }

  /** The report is right about these files: its target is the first candidate that exists, and
      its sizes, hashes and flags are those of that file and of the patch that the rendered
      template makes of it.  */
  ghost predicate Describes(o: Options, rep: Report, files: Files) {
    && rep.template == o.template && Path(o.template) in files && Path(rep.target) in files
    && (exists i | 0 <= i < |o.candidates| ::
          o.candidates[i] == rep.target && forall j | 0 <= j < i :: Path(o.candidates[j]) !in files)
    && var rendered := Rendered(files[Path(o.template)].data, o.environ, o.detected);
       var current := files[Path(rep.target)].data;
       rendered.Ok? && Patch(rendered.value, current).Ok? &&
       var p := Patch(rendered.value, current).value;
       && rep.currentBytes == |current| && rep.currentHash == o.hash(current)
       && rep.patchedBytes == |p.bytes| && rep.patchedHash == o.hash(p.bytes)
       && rep.wouldChange == p.changed && rep.restartRequired == p.changed
  }

  /** What is left in the report when the dry run fails: the paths as far as they are known. */
  predicate SaysNothing(o: Options, rep: Report, e: Failure) {
    && rep.template == o.template
    && rep.target == (if e.ReadCurrentFailed? || e.PatchFailed? then e.target else "")
    && rep.currentHash == "" && rep.patchedHash == "" && rep.currentBytes == 0 && rep.patchedBytes == 0
    && !rep.wouldChange && !rep.restartRequired && !rep.validated && !rep.applied && !rep.restartPerformed
  }

  /** The target is the first candidate that exists; there is none only if no candidate does. */
  lemma {:induction false} FirstExistingIs(files: Files, candidates: seq<string>) returns (i: nat)
    ensures i <= |candidates| && forall j | 0 <= j < i :: Path(candidates[j]) !in files
    ensures i == |candidates| ==> FirstExisting(files, candidates) == None
    ensures i < |candidates| ==> Path(candidates[i]) in files && FirstExisting(files, candidates) == Some(candidates[i])
  {
    i := 0;
    if candidates != [] && Path(candidates[0]) !in files {
      var k := FirstExistingIs(files, candidates[1..]);
      assert forall j | 1 <= j <= k :: candidates[j] == candidates[1..][j - 1];
      i := k + 1;
    }
  }

  /** The checks in their order: what fails first is what is reported. */
  lemma OutlookIs(files: Files, unreadable: set<Name>, o: Options) returns (i: nat)
    ensures var r := Outlook(files, unreadable, o);
            if Path(o.template) !in files || Path(o.template) in unreadable then r == Err(ReadTemplateFailed)
            else match Rendered(files[Path(o.template)].data, o.environ, o.detected)
                 case Err(e) => r == Err(RenderFailed(e))
                 case Ok(rendered) =>
                   && i <= |o.candidates| && (forall j | 0 <= j < i :: Path(o.candidates[j]) !in files)
                   && if i == |o.candidates| then r == Err(NoTarget)
                      else
                        var target := o.candidates[i];
                        && Path(target) in files
                        && if Path(target) in unreadable then r == Err(ReadCurrentFailed(target))
                           else match Patch(rendered, files[Path(target)].data)
                                case Err(e) => r == Err(PatchFailed(target, e))
                                case Ok(p) => r == Ok(Preview(target, files[Path(target)].data, p.bytes, p.changed))
  {
    hide Rendered, Patch, FirstExisting;
    i := FirstExistingIs(files, o.candidates);
  }

  lemma AnnouncedDescribes(files: Files, unreadable: set<Name>, o: Options)
    requires Outlook(files, unreadable, o).Ok?
    ensures Describes(o, Announced(o, Outlook(files, unreadable, o).value), files)
  {
    hide Rendered, Patch, Outlook;
    var i := OutlookIs(files, unreadable, o);
    assert o.candidates[i] == Outlook(files, unreadable, o).value.target;
  }

  /** PlanConfig changes nothing and reports the outlook: what is there, what patching it would
      give, and whether that is reported as a change.  */
  method PlanConfig(fs: FileSystem, o: Options) returns (rep: Report, err: Option<Failure>)
    ensures err.None? ==> Describes(o, rep, fs.files) && !rep.applied && !rep.validated && !rep.restartPerformed
    ensures err.Some? ==> SaysNothing(o, rep, err.value)
    ensures match Outlook(fs.files, fs.unreadable, o)
            case Err(e) => err == Some(e)
            case Ok(p) => rep == Announced(o, p) && err == None
  {
    hide Outlook;
    var p := Look(fs, o);
    if p.Err? {
      return Blank(o, p.error), Some(p.error);
    }
    AnnouncedDescribes(fs.files, fs.unreadable, o);
    return Announced(o, p.value), None;
  }

  // ----- Commands -----

  /** A command that was run, with what it found in the file it reads, and its success. */
  datatype Command =
    | Validate(path: string, seen: Option<string>, ok: bool)
    | Restart(seen: Option<string>, ok: bool)

  class Commands {
    ghost var log: seq<Command>

    /** suricata -T -c path */
    method RunValidate(fs: FileSystem, path: string) returns (ok: bool)
      modifies this
      ensures log == old(log) + [Validate(path, Contents(fs.files, {}, path), ok)]
    {
      ok := *;
      log := log + [Validate(path, Contents(fs.files, {}, path), ok)];
    }

    /** systemctl restart; the service reads its configuration from `target` */
    method RunRestart(fs: FileSystem, target: string) returns (ok: bool)
      modifies this
      ensures log == old(log) + [Restart(Contents(fs.files, {}, target), ok)]
    {
      ok := *;
      log := log + [Restart(Contents(fs.files, {}, target), ok)];
    }
  }

  // ----- The transaction -----

  /** How far a reconciliation got. */
  datatype Progress = Progress(validated: bool, applied: bool, restarted: bool, err: Option<Failure>)

  predicate Orderly(p: Progress) {
    && (p.restarted ==> p.applied) && (p.applied ==> p.validated)
    && (p.err.None? <==> p.restarted)
    && (p.err == Some(RestartFailed) <==> p.applied && !p.restarted)
  }

  /** The commands run on the way, each on exactly the patched bytes. */
  function CommandsRun(target: string, patched: string, p: Progress): seq<Command> {
    if p.err == Some(WriteScratchFailed) then []
    else if !p.validated then [Validate(Scratch(target), Some(patched), false)]
    else if !p.applied then [Validate(Scratch(target), Some(patched), true)]
    else [Validate(Scratch(target), Some(patched), true), Restart(Some(patched), p.restarted)]
  }

  ghost predicate SameAt(before: Files, after: Files, name: Name) {
    (name in before <==> name in after) && (name in before ==> before[name] == after[name])
  }

  lemma SameStart(was: Files, mid: Files, f: Files, name: Name, file: File)
    requires SameAt(was, mid, name)
    ensures OldOrNew(mid, f, name, file) <==> OldOrNew(was, f, name, file)
  {
  }

  /** A change that stays away from `name` is one after which it is old. */
  lemma AwayIsOld(was: Files, f: Files, except: set<Name>, name: Name, file: File)
    requires SameBut(was, f, except) && name !in except
    ensures OldOrNew(was, f, name, file) && SameAt(was, f, name)
  {
  }

  /** The files after a failed or accepted test, if everything can be removed. */
  function AfterTest(was: Files, scratch: Name, file: File, err: Option<Failure>): Files {
    if err.None? then was[scratch := file]
    else if err.value.WriteScratchFailed? then was
    else Removed(was, scratch)
  }

  /** The files after an installation that went as far as p, if everything can be removed. */
  function AfterInstall(was: Files, target: string, file: File, p: Progress): Files {
    if p.err == Some(WriteScratchFailed) then was
    else if p.applied then Removed(was, Path(Scratch(target)))[Path(target) := file]
    else Removed(was, Path(Scratch(target)))
  }

  /** Nothing but the target differs, and no scratch file is left, unless it cannot be removed. */
  ghost predicate Cleaned(was: Files, files: Files, stuck: set<Name>, target: string, p: Progress) {
    && SameBut(was, files, stuck + {Path(target), Path(Scratch(target))})
    && (p.err != Some(WriteScratchFailed) && Path(Scratch(target)) !in stuck ==> Path(Scratch(target)) !in files)
    && (p.err == Some(WriteScratchFailed) ==> SameBut(was, files, stuck))
  }

  /** The commands of an installation: nothing runs before the scratch file is written; then
      suricata -T reads the patched bytes there; and the service is restarted, on the patched
      bytes, exactly when they were accepted and installed.  */
  lemma CommandsInOrder(target: string, patched: string, p: Progress)
    requires Orderly(p)
    ensures var run := CommandsRun(target, patched, p);
            && (run == [] <==> p.err == Some(WriteScratchFailed))
            && (run != [] ==> run[0] == Validate(target + ".integration.tmp", Some(patched), p.validated))
            && (|run| >= 2 <==> p.applied)
            && (|run| >= 2 ==> |run| == 2 && run[1] == Restart(Some(patched), p.restarted))
  {
  }

  lemma InstalledIsCleaned(was: Files, files: Files, stuck: set<Name>, target: string, file: File, p: Progress)
    requires SameBut(AfterInstall(was, target, file, p), files, stuck)
    ensures Cleaned(was, files, stuck, target, p)
  {
    ScratchIsElsewhere(target);
  }

  lemma LeftoverIsStuck(was: Files, files: Files, temp: Name, stuck: set<Name>)
    requires SameBut(was, files, {temp}) && (temp !in stuck ==> files == was)
    ensures SameBut(was, files, stuck)
  {
  }

  lemma RemovedUnlessStuck(was: Files, before: Files, after: Files, name: Name, stuck: set<Name>)
    requires SameBut(was, before, stuck) && after == if name in stuck then before else Removed(before, name)
    ensures SameBut(Removed(was, name), after, stuck)
  {
  }

  /** Writes the patched bytes to the scratch file and has Suricata test them there. */
  method TestScratch(fs: FileSystem, cmds: Commands, target: string, patched: string, perm: nat)
    returns (p: Progress, ghost temp: Name)
    requires fs.Valid()
    modifies fs, cmds
    ensures fs.Valid() && temp.Temp?
    ensures p == Progress(p.err.None?, false, false, p.err)
    ensures p.err.None? || p.err == Some(WriteScratchFailed) || p.err == Some(ValidationFailed)
    ensures fs.reliable ==> p.err != Some(WriteScratchFailed)
    ensures SameBut(old(fs.files), fs.files, {temp, Path(Scratch(target))})
    ensures SameBut(AfterTest(old(fs.files), Path(Scratch(target)), File(patched, perm), p.err), fs.files, fs.stuck)
    ensures p.err.None? ==> fs.files == old(fs.files)[Path(Scratch(target)) := File(patched, perm)]
    ensures var was := old(fs.files); fs.Extended(f => SameBut(was, f, {temp, Path(Scratch(target))}))
    ensures cmds.log == old(cmds.log) + (if p.err == Some(WriteScratchFailed) then []
                                         else [Validate(Scratch(target), Some(patched), p.validated)])
  {
    hide OldOrNew;
    ghost var was := fs.files;
    var scratch := Scratch(target);
    var ok;
    ok, temp := fs.WriteFileAtomic(scratch, patched, perm);
    if !ok {
      LeftoverIsStuck(was, fs.files, temp, fs.stuck);
      return Progress(false, false, false, Some(WriteScratchFailed)), temp;
    }
    var valid := cmds.RunValidate(fs, scratch);
    if !valid {
      var _ := fs.Remove(Path(scratch));
      return Progress(false, false, false, Some(ValidationFailed)), temp;
    }
    return Progress(true, false, false, None), temp;
  }

  /** Replaces the target and drops the scratch file. */
  method Swap(fs: FileSystem, target: string, patched: string, perm: nat) returns (ok: bool, ghost temp: Name)
    requires fs.Valid()
    modifies fs
    ensures fs.Valid() && temp.Temp?
    ensures SameBut(old(fs.files), fs.files, {temp, Path(target), Path(Scratch(target))})
    ensures ok ==> Path(target) in fs.files && fs.files[Path(target)] == File(patched, perm)
    ensures fs.reliable ==> ok
    ensures !ok ==> SameBut(old(fs.files), fs.files, {temp, Path(Scratch(target))})
    ensures var gone := Removed(old(fs.files), Path(Scratch(target)));
            SameBut(if ok then gone[Path(target) := File(patched, perm)] else gone, fs.files, fs.stuck)
    ensures var was := old(fs.files); fs.Extended(f => OldOrNew(was, f, Path(target), File(patched, perm)))
  {
    ScratchIsElsewhere(target);
    ghost var was := fs.files;
    ok, temp := fs.WriteFileAtomic(target, patched, perm);
    ghost var written := fs.files;
    if !ok {
      LeftoverIsStuck(was, written, temp, fs.stuck);
    }
    var _ := fs.Remove(Path(Scratch(target)));
    RemovedUnlessStuck(if ok then written else was, written, fs.files, Path(Scratch(target)), fs.stuck);
    assert ok ==> Removed(written, Path(Scratch(target))) == Removed(was, Path(Scratch(target)))[Path(target) := File(patched, perm)];
  }

  /** The part of ReconcileConfig that writes.  The target keeps its mode, which is taken to be
      0644 if it cannot be found out.  */
  method Install(fs: FileSystem, cmds: Commands, target: string, patched: string)
    returns (p: Progress, ghost temps: set<Name>)
    requires fs.Valid()
    modifies fs, cmds
    ensures fs.Valid() && Orderly(p) && forall n | n in temps :: n.Temp?
    ensures SameBut(old(fs.files), fs.files, temps + {Path(target), Path(Scratch(target))})
    ensures var was, T := old(fs.files), Path(target);
            var file := File(patched, if T in was && T !in fs.unstatable then was[T].mode else 420);
            && (p.applied ==> T in fs.files && fs.files[T] == file)
            && (!p.applied ==> SameBut(was, fs.files, temps + {Path(Scratch(target))}))
            && fs.Extended(f => OldOrNew(was, f, T, file))
            && SameBut(AfterInstall(was, target, file, p), fs.files, fs.stuck)
    ensures Cleaned(old(fs.files), fs.files, fs.stuck, target, p)
    ensures fs.reliable ==> p.err != Some(WriteScratchFailed) && (p.validated ==> p.applied)
    ensures cmds.log == old(cmds.log) + CommandsRun(target, patched, p)
  {
    hide OldOrNew, SameBut, Scratch, Removed;
    ScratchIsElsewhere(target);
    ghost var was, T, S := fs.files, Path(target), Path(Scratch(target));
    var perm := DEFAULT_MODE;
    var stat := fs.Stat(Path(target));
    if stat.Some? {
      perm := stat.value;
    }
    ghost var file := File(patched, perm);
    ghost var temp, temp2;
    p, temp := TestScratch(fs, cmds, target, patched, perm);
    temps := {temp};
    forall h | |old(fs.history)| <= h < |fs.history|
      ensures OldOrNew(was, fs.history[h], T, file)
    {
      AwayIsOld(was, fs.history[h], {temp, S}, T, file);
    }
    AwayIsOld(was, fs.files, {temp, S}, T, file);
    Widen(was, fs.files, {temp, S}, temps + {S});
    Widen(was, fs.files, {temp, S}, temps + {T, S});
    if p.err.Some? {
      InstalledIsCleaned(was, fs.files, fs.stuck, target, file, p);
      return;
    }
    AddedThenRemoved(was, S, file);
    label tested:
    ghost var mid := fs.files;
    var ok;
    ok, temp2 := Swap(fs, target, patched, perm);
    temps := temps + {temp2};
    forall h | |old@tested(fs.history)| <= h < |fs.history|
      ensures OldOrNew(was, fs.history[h], T, file)
    {
      SameStart(was, mid, fs.history[h], T, file);
    }
    Chain(was, mid, fs.files, {temp, S}, {temp2, T, S}, temps + {T, S});
    if !ok {
      Chain(was, mid, fs.files, {temp, S}, {temp2, S}, temps + {S});
      p := p.(err := Some(WriteTargetFailed));
      InstalledIsCleaned(was, fs.files, fs.stuck, target, file, p);
      return;
    }
    p := p.(applied := true);
    var restarted := cmds.RunRestart(fs, target);
    p := if restarted then p.(restarted := true) else p.(err := Some(RestartFailed));
    InstalledIsCleaned(was, fs.files, fs.stuck, target, file, p);
  }

  lemma AddedThenRemoved(was: Files, name: Name, file: File)
    ensures Removed(was[name := file], name) == Removed(was, name)
  {
  }

  lemma Widen(a: Files, b: Files, inner: set<Name>, outer: set<Name>)
    requires SameBut(a, b, inner) && inner <= outer
    ensures SameBut(a, b, outer)
  {
  }

  lemma Chain(a: Files, b: Files, c: Files, ab: set<Name>, bc: set<Name>, ac: set<Name>)
    requires SameBut(a, b, ab) && SameBut(b, c, bc) && ab <= ac && bc <= ac
    ensures SameBut(a, c, ac)
  {
  }

  /** ReconcileConfig.  It announces what a dry run on the same files would.  Without a change,
      and on any failure before that is known, nothing is written and no command runs.  With
      one, the report's flags follow each other, the tested bytes are the patched ones and the
      installed bytes are the tested ones, and the target holds its old file or the complete
      new one at every moment, the new one exactly when the report says applied; and neither the
      scratch file nor a temporary one is left, unless it cannot be removed.  */
  method ReconcileConfig(fs: FileSystem, cmds: Commands, o: Options)
    returns (rep: Report, err: Option<Failure>, ghost p: Progress, ghost temps: set<Name>)
    requires fs.Valid()
    modifies fs, cmds
    ensures fs.Valid()
    ensures (rep.restartPerformed ==> rep.applied) && (rep.applied ==> rep.validated) && (rep.validated ==> rep.wouldChange)
    ensures Outlook(old(fs.files), fs.unreadable, o).Ok? ==> Describes(o, rep, old(fs.files))
    ensures rep.applied ==>
              && Path(rep.target) in fs.files && rep.patchedBytes == |fs.files[Path(rep.target)].data|
              && rep.patchedHash == o.hash(fs.files[Path(rep.target)].data)
    ensures match Outlook(old(fs.files), fs.unreadable, o)
            case Err(e) =>
              SaysNothing(o, rep, e) && err == Some(e)
              && fs.files == old(fs.files) && fs.history == old(fs.history) && cmds.log == old(cmds.log)
            case Ok(look) =>
              var was, T, S := old(fs.files), Path(look.target), Path(Scratch(look.target));
              if !look.changed then
                rep == Announced(o, look) && err == None
                && fs.files == was && fs.history == old(fs.history) && cmds.log == old(cmds.log)
              else
                var file := File(look.patched, if T in was && T !in fs.unstatable then was[T].mode else 420);
                && Orderly(p) && err == p.err && (forall n | n in temps :: n.Temp?)
                && rep == Announced(o, look).(validated := p.validated, applied := p.applied, restartPerformed := p.restarted)
                && SameBut(was, fs.files, temps + {T, S})
                && (p.applied ==> T in fs.files && fs.files[T] == file)
                && (!p.applied ==> SameBut(was, fs.files, temps + {S}))
                && fs.Extended(f => OldOrNew(was, f, T, file))
                && SameBut(AfterInstall(was, look.target, file, p), fs.files, fs.stuck)
                && Cleaned(was, fs.files, fs.stuck, look.target, p)
                && (fs.reliable ==> p.err != Some(WriteScratchFailed) && (p.validated ==> p.applied))
                && cmds.log == old(cmds.log) + CommandsRun(look.target, look.patched, p)
  {
    hide Outlook, OldOrNew, SameBut, CommandsRun, Scratch, AfterInstall;
    p, temps := Progress(false, false, false, None), {};
    var r := Look(fs, o);
    if r.Err? {
      return Blank(o, r.error), Some(r.error), p, temps;
    }
    var look := r.value;
    rep := Announced(o, look);
    AnnouncedDescribes(fs.files, fs.unreadable, o);
    if !look.changed {
      return rep, None, p, temps;
    }
    var q;
    q, temps := Install(fs, cmds, look.target, look.patched);
    p := q;
    rep := rep.(validated := q.validated, applied := q.applied, restartPerformed := q.restarted);
    err := q.err;
  }

  // ----- After a reconciliation -----

  lemma {:induction false} SameTarget(before: Files, after: Files, except: set<Name>, candidates: seq<string>)
    requires SameBut(before, after, except)
    requires FirstExisting(before, candidates).Some? && Path(FirstExisting(before, candidates).value) in after
    requires forall c | c in candidates && Path(c) in except :: c == FirstExisting(before, candidates).value
    ensures FirstExisting(after, candidates) == FirstExisting(before, candidates)
  {
    if candidates != [] && Path(candidates[0]) !in before {
      SameTarget(before, after, except, candidates[1..]);
    }
  }

  /** The outlook after an installation: the installed bytes are read back and patched again. */
  lemma OutlookAfterInstall(before: Files, after: Files, unreadable: set<Name>, o: Options, rendered: string, except: set<Name>)
    requires Outlook(before, unreadable, o).Ok?
    requires Contents(before, unreadable, o.template).Some?
    requires Rendered(Contents(before, unreadable, o.template).value, o.environ, o.detected) == Ok(rendered)
    requires var look := Outlook(before, unreadable, o).value;
             && SameBut(before, after, except) && Path(o.template) !in except
             && (forall c | c in o.candidates && Path(c) in except :: c == look.target)
             && Path(look.target) in after && after[Path(look.target)].data == look.patched
    ensures var look := Outlook(before, unreadable, o).value;
            Patch(rendered, look.patched).Ok?
            && Outlook(after, unreadable, o) == Ok(Preview(look.target, look.patched,
                 Patch(rendered, look.patched).value.bytes, Patch(rendered, look.patched).value.changed))
  {
    hide Patch, Rendered, FirstExisting;
    var look := Outlook(before, unreadable, o).value;
    SameTarget(before, after, except, o.candidates);
    PatchAgainWorks(rendered, look.current, look.patched);
  }

  lemma PatchAgainWorks(template: string, current: string, other: string)
    requires Patch(template, current).Ok?
    ensures Patch(template, other).Ok?
  {
    hide ParseTemplate, PatchBytes, SplitLines;
  }

  /** After a successful reconciliation, with everything else unchanged, the next dry run sees
      no change exactly when the file was tidy, one pass was enough, and the file is not one that
      never goes quiet.  */
  lemma NextPlan(before: Files, after: Files, unreadable: set<Name>, o: Options, rendered: string, t: Template, except: set<Name>)
    requires Outlook(before, unreadable, o).Ok?
    requires Contents(before, unreadable, o.template).Some?
    requires Rendered(Contents(before, unreadable, o.template).value, o.environ, o.detected) == Ok(rendered)
    requires Parses(rendered, t)
    requires var look := Outlook(before, unreadable, o).value;
             && SameBut(before, after, except) && Path(o.template) !in except
             && (forall c | c in o.candidates && Path(c) in except :: c == look.target)
             && Path(look.target) in after && after[Path(look.target)].data == look.patched
    ensures var look := Outlook(before, unreadable, o).value; var ls := SplitLines(look.current);
            Outlook(after, unreadable, o) == Ok(Preview(look.target, look.patched, look.patched, false))
            <==> Tidy(t, ls) && Settling(t, ls) == 1 && !NeverQuiet(t, ls)
    ensures var ls := SplitLines(Outlook(before, unreadable, o).value.current);
            Tidy(t, ls) ==> forall rep | Describes(o, rep, after) ::
              rep.wouldChange <==> !(Settling(t, ls) == 1 && !NeverQuiet(t, ls))
    ensures var ls := SplitLines(Outlook(before, unreadable, o).value.current);
            Tidy(t, ls) && Settling(t, ls) == 1 && !NeverQuiet(t, ls) ==> forall rep | Describes(o, rep, after) ::
              rep.patchedHash == rep.currentHash && rep.patchedBytes == rep.currentBytes
  {
    var look := Outlook(before, unreadable, o).value;
    PatchIsParsed(rendered, t, look.current);
    PatchIsParsed(rendered, t, look.patched);
    OutlookPatches(before, unreadable, o, rendered);
    OutlookAfterInstall(before, after, unreadable, o, rendered, except);
    hide Outlook, Patch, Rendered, Settling, NeverQuiet, Parses, Tidy, SplitLines, PatchBytes;
    PatchIsIdempotent(rendered, t, look.current);
    if Tidy(t, SplitLines(look.current)) {
      SecondReport(t, look.current);
    }
    forall rep | Describes(o, rep, after)
      ensures Path(rep.target) in after && after[Path(rep.target)].data == look.patched
      ensures rep.wouldChange == PatchBytes(t, look.patched).changed
      ensures rep.patchedBytes == |PatchBytes(t, look.patched).bytes| && rep.currentBytes == |look.patched|
      ensures rep.patchedHash == o.hash(PatchBytes(t, look.patched).bytes) && rep.currentHash == o.hash(look.patched)
    {
      DescribedAfter(before, after, unreadable, o, rendered, t, except, rep);
    }
  }

  /** A report on the files after an installation is about the patched bytes. */
  lemma DescribedAfter(before: Files, after: Files, unreadable: set<Name>, o: Options, rendered: string, t: Template,
                       except: set<Name>, rep: Report)
    requires Outlook(before, unreadable, o).Ok?
    requires Contents(before, unreadable, o.template).Some?
    requires Rendered(Contents(before, unreadable, o.template).value, o.environ, o.detected) == Ok(rendered)
    requires Parses(rendered, t)
    requires var look := Outlook(before, unreadable, o).value;
             && SameBut(before, after, except) && Path(o.template) !in except
             && (forall c | c in o.candidates && Path(c) in except :: c == look.target)
             && Path(look.target) in after && after[Path(look.target)].data == look.patched
    requires Describes(o, rep, after)
    ensures var look := Outlook(before, unreadable, o).value; var q := PatchBytes(t, look.patched);
            && rep.target == look.target && rep.wouldChange == q.changed
            && rep.patchedBytes == |q.bytes| && rep.currentBytes == |look.patched|
            && rep.patchedHash == o.hash(q.bytes) && rep.currentHash == o.hash(look.patched)
  {
    hide Rendered, Patch, PatchBytes, Parses;
    var look := Outlook(before, unreadable, o).value;
    SameTarget(before, after, except, o.candidates);
    PatchIsParsed(rendered, t, look.patched);
    FirstIsFirst(after, o.candidates, rep.target);
  }

  lemma {:induction false} FirstIsFirst(files: Files, candidates: seq<string>, target: string)
    requires Path(target) in files
    requires exists i | 0 <= i < |candidates| :: candidates[i] == target && forall j | 0 <= j < i :: Path(candidates[j]) !in files
    ensures FirstExisting(files, candidates) == Some(target)
  {
    var i :| 0 <= i < |candidates| && candidates[i] == target && forall j | 0 <= j < i :: Path(candidates[j]) !in files;
    if i > 0 {
      assert candidates[1..][i - 1] == target;
      assert forall j | 0 <= j < i - 1 :: candidates[1..][j] == candidates[j + 1];
      FirstIsFirst(files, candidates[1..], target);
    }
  }

  lemma OutlookPatches(files: Files, unreadable: set<Name>, o: Options, rendered: string)
    requires Outlook(files, unreadable, o).Ok?
    requires Contents(files, unreadable, o.template).Some?
    requires Rendered(Contents(files, unreadable, o.template).value, o.environ, o.detected) == Ok(rendered)
    ensures var look := Outlook(files, unreadable, o).value;
            Patch(rendered, look.current) == Ok(Patched(look.patched, look.changed))
  {
    hide Patch, Rendered, FirstExisting;
  }
}
