/** Single requests from start to end, writes that fail, two requests that undo each other, and
    what retrying does after a failed restart.  */
module HostRuns {
  import opened Wrappers
  import opened PatchSpec
  import opened Comments
  import opened Text
  import opened Toggle
  import opened ToggleTheorems
  import opened Disk
  import opened Host

  lemma RunMore(c: Setup, s: State, es: seq<Event>, e: Event)
    ensures Run(c, s, es + [e]) == Next(c, Run(c, s, es), e)
  {
    hide Next;
    assert (es + [e])[..|es|] == es;
  }

  lemma {:induction false} RunOn(c: Setup, s: State, es: seq<Event>, more: seq<Event>)
    ensures Run(c, s, es + more) == Run(c, Run(c, s, es), more)
    decreases |more|
  {
    hide Next;
    if more == [] {
      assert es + more == es;
    } else {
      var n := |more| - 1;
      RunOn(c, s, es, more[..n]);
      assert es + more == (es + more[..n]) + [more[n]];
      RunMore(c, s, es + more[..n], more[n]);
      assert more == more[..n] + [more[n]];
      RunMore(c, Run(c, s, es), more[..n], more[n]);
    }
  }

  // ----- One atomic write -----

  /** The request p goes on, and the files change. */
  function Moved(s: State, p: nat, pc: Pc, files: Files): State {
    s.(procs := s.procs[p := pc], files := files)
  }

  function WriteEvents(p: nat, id: nat, n: nat): seq<Event> {
    [CreateTemp(p, id, true), Write(p, n), Chmod(p, true), Close(p, true), Rename(p, true)]
  }

  /** Where the rename leads. */
  function Renaming(c: Setup, op: Op, dest: string, bytes: string, perm: nat): Pc {
    if dest != c.cfg then Testing(bytes, perm) else Pending
  }

  lemma FileMoves(files: Files, id: nat, dest: string, bytes: string, perm: nat)
    requires Temp(id) !in files
    ensures var f1 := Created(files, Temp(id));
            var f2 := WithData(f1, Temp(id), bytes);
            var f3 := WithMode(f2, Temp(id), perm);
            Renamed(f3, Temp(id), Path(dest)) == files[Path(dest) := File(bytes, perm)]
  {
  }

  lemma TempSteps(c: Setup, s: State, p: nat, id: nat)
    requires p in s.procs && s.procs[p].Statted? && id !in s.used
    ensures var pc := s.procs[p];
            var job := Job(pc.op, pc.dest, pc.bytes, pc.perm, id);
            var f := WithData(Created(s.files, Temp(id)), Temp(id), job.bytes);
            Next(c, Next(c, s, CreateTemp(p, id, true)), Write(p, |job.bytes|))
            == Moved(s, p, Filling(job, Full), f).(used := s.used + {id})
  {
    var pc := s.procs[p];
    var job := Job(pc.op, pc.dest, pc.bytes, pc.perm, id);
    var s1 := Next(c, s, CreateTemp(p, id, true));
    assert s1.procs[p] == Filling(job, Empty) && Temp(id) in s1.files;
    var s2 := Next(c, s1, Write(p, |job.bytes|));
    assert s2.procs == s.procs[p := Filling(job, Full)];
  }

  lemma CloseSteps(c: Setup, s: State, p: nat, job: Job)
    requires p in s.procs && s.procs[p] == Filling(job, Full) && Temp(job.temp) in s.files
    ensures Next(c, Next(c, s, Chmod(p, true)), Close(p, true))
            == Moved(s, p, Filling(job, Shut), WithMode(s.files, Temp(job.temp), job.perm))
  {
    var s1 := Next(c, s, Chmod(p, true));
    assert s1.procs[p] == Filling(job, Moded);
    var s2 := Next(c, s1, Close(p, true));
    assert s2.procs == s.procs[p := Filling(job, Shut)];
  }

  lemma RenameStep(c: Setup, s: State, p: nat, job: Job)
    requires p in s.procs && s.procs[p] == Filling(job, Shut) && Temp(job.temp) in s.files
    ensures var after := Next(c, s, Rename(p, true));
            && after.files == Renamed(s.files, Temp(job.temp), Path(job.dest))
            && after.procs == s.procs[p := Renaming(c, job.op, job.dest, job.bytes, job.perm)]
            && after.used == s.used && after.running == s.running && after.dirty == s.dirty && after.accepted == s.accepted
  {
    hide Renamed;
  }

  /** A write that nothing disturbs replaces the file in five steps and leaves no temporary one. */
  lemma UndisturbedWrite(c: Setup, s: State, p: nat, id: nat)
    requires p in s.procs && s.procs[p].Statted? && id !in s.used && Temp(id) !in s.files
    ensures var pc := s.procs[p];
            var after := Run(c, s, WriteEvents(p, id, |pc.bytes|));
            && after.files == s.files[Path(pc.dest) := File(pc.bytes, pc.perm)]
            && after.procs == s.procs[p := Renaming(c, pc.op, pc.dest, pc.bytes, pc.perm)]
            && after.used == s.used + {id} && after.running == s.running && after.dirty == s.dirty
            && after.accepted == s.accepted
  {
    hide Next, Run, Created, WithData, WithMode, Renamed, WriteEvents;
    var pc := s.procs[p];
    var job := Job(pc.op, pc.dest, pc.bytes, pc.perm, id);
    StillThere(s.files, id, job.bytes, job.perm);
    WriteSteps(c, s, p, id, |pc.bytes|);
    TempSteps(c, s, p, id);
    var f2 := WithData(Created(s.files, Temp(id)), Temp(id), job.bytes);
    var s2 := Moved(s, p, Filling(job, Full), f2).(used := s.used + {id});
    CloseSteps(c, s2, p, job);
    var s4 := Moved(s2, p, Filling(job, Shut), WithMode(f2, Temp(id), job.perm));
    RenameStep(c, s4, p, job);
    FileMoves(s.files, id, pc.dest, pc.bytes, pc.perm);
    Overwrite(s.procs, p, Filling(job, Full), Filling(job, Shut));
    Overwrite(s.procs, p, Filling(job, Shut), Renaming(c, pc.op, pc.dest, pc.bytes, pc.perm));
  }

  lemma WriteSteps(c: Setup, s: State, p: nat, id: nat, n: nat)
    ensures Run(c, s, WriteEvents(p, id, n))
            == Next(c, Next(c, Next(c, Next(c, Next(c, s, CreateTemp(p, id, true)), Write(p, n)), Chmod(p, true)),
                                 Close(p, true)), Rename(p, true))
  {
    hide Run, Next;
    FiveSteps(c, s, WriteEvents(p, id, n));
  }

  lemma StillThere(files: Files, id: nat, bytes: string, perm: nat)
    ensures Temp(id) in Created(files, Temp(id))
    ensures Temp(id) in WithData(Created(files, Temp(id)), Temp(id), bytes)
    ensures Temp(id) in WithMode(WithData(Created(files, Temp(id)), Temp(id), bytes), Temp(id), perm)
  {
  }

  lemma FiveSteps(c: Setup, s: State, es: seq<Event>)
    requires |es| == 5
    ensures Run(c, s, es) == Next(c, Next(c, Next(c, Next(c, Next(c, s, es[0]), es[1]), es[2]), es[3]), es[4])
  {
    hide Next;
    assert Run(c, s, []) == s;
    RunMore(c, s, [], es[0]);
    RunMore(c, s, es[..1], es[1]);
    RunMore(c, s, es[..2], es[2]);
    RunMore(c, s, es[..3], es[3]);
    RunMore(c, s, es[..4], es[4]);
    assert [] + [es[0]] == es[..1] && es[..1] + [es[1]] == es[..2] && es[..2] + [es[2]] == es[..3];
    assert es[..3] + [es[3]] == es[..4] && es[..4] + [es[4]] == es;
  }

  // ----- One atomic write that may fail anywhere -----

  predicate Writing(pc: Pc) {
    pc.Statted? || pc.Filling? || pc.Aborting?
  }

  /** Nothing but one temporary file was added. */
  ghost predicate LeftBehind(was: State, s: State, temp: nat) {
    Temp(temp) !in was.files && SameBut(was.files, s.files, {Temp(temp)})
  }

  /** Where the write that p was about to begin in the state `was` stands. */
  ghost predicate WriteStands(c: Setup, was: State, s: State, p: nat, start: Pc)
    requires start.Statted?
  {
    p in s.procs && was.used <= s.used &&
    match s.procs[p]
    case Statted(_, _, _, _) => s.procs[p] == start && s.files == was.files
    case Filling(job, stage) =>
      && job == Job(start.op, start.dest, start.bytes, start.perm, job.temp)
      && LeftBehind(was, s, job.temp) && Temp(job.temp) in s.files
      && (stage != Empty ==> s.files[Temp(job.temp)].data == start.bytes)
      && (stage == Moded || stage == Shut ==> s.files[Temp(job.temp)].mode == start.perm)
    case Aborting(temp) => LeftBehind(was, s, temp)
    case Done(ok) => !ok && (s.files == was.files || exists temp :: LeftBehind(was, s, temp))
    case pc =>
      && pc == Renaming(c, start.op, start.dest, start.bytes, start.perm)
      && s.files == was.files[Path(start.dest) := File(start.bytes, start.perm)]
  }

  lemma WriteStep(c: Setup, was: State, s: State, p: nat, start: Pc, e: Event)
    requires start.Statted? && WriteStands(c, was, s, p, start) && Writing(s.procs[p]) && e.p == p
    requires forall id | Temp(id) in was.files :: id in was.used
    ensures WriteStands(c, was, Next(c, s, e), p, start)
  {
    hide AfterRead, AfterStat, Scratch, SameBut;
    var pc := s.procs[p];
    if pc.Statted? {
      if e.CreateTemp? && e.ok && e.id !in s.used {
        TempAdded(was.files, Temp(e.id), File("", TEMP_MODE));
      }
    } else if pc.Filling? {
      FillStep(c, was, s, p, start, e);
    } else if e.CleanUp? && e.ok {
      RemovedIsBefore(was.files, s.files, Temp(pc.temp));
    } else {
      assert LeftBehind(was, Next(c, s, e), pc.temp);
    }
  }

  lemma TempAdded(was: Files, temp: Name, file: File)
    ensures SameBut(was, was[temp := file], {temp})
  {
  }

  lemma TempChanged(was: Files, files: Files, temp: Name, file: File)
    requires SameBut(was, files, {temp})
    ensures SameBut(was, files[temp := file], {temp})
  {
  }

  lemma FillStep(c: Setup, was: State, s: State, p: nat, start: Pc, e: Event)
    requires start.Statted? && WriteStands(c, was, s, p, start) && s.procs[p].Filling? && e.p == p
    ensures WriteStands(c, was, Next(c, s, e), p, start)
  {
    hide AfterRead, AfterStat, Scratch, SameBut, Renamed;
    var job := s.procs[p].job;
    var temp := Temp(job.temp);
    if e.Write? {
      TempChanged(was.files, s.files, temp, s.files[temp].(data := if e.n < |job.bytes| then job.bytes[..e.n] else job.bytes));
    } else if e.Chmod? {
      TempChanged(was.files, s.files, temp, s.files[temp].(mode := job.perm));
    } else if e.Rename? && s.procs[p].stage == Shut {
      RenamedIsIntact(was.files, s.files, Path(job.dest), File(job.bytes, job.perm), temp);
    } else {
      assert LeftBehind(was, Next(c, s, e), job.temp);
    }
  }

  /** A write, whichever of its steps fail and wherever its request is killed, ends like the
      method: the destination replaced under the mode, or nothing changed but for one temporary
      file, which is gone if it was removed.  */
  lemma {:induction false} AnyWrite(c: Setup, s: State, p: nat, es: seq<Event>)
    requires p in s.procs && s.procs[p].Statted? && forall id | Temp(id) in s.files :: id in s.used
    requires forall k | 0 <= k < |es| ::
               es[k].p == p && p in Run(c, s, es[..k]).procs && Writing(Run(c, s, es[..k]).procs[p])
    ensures WriteStands(c, s, Run(c, s, es), p, s.procs[p])
    decreases |es|
  {
    hide Next, WriteStands, Writing;
    if es == [] {
      assert WriteStands(c, s, s, p, s.procs[p]) by { NotBegun(c, s, p); }
    } else {
      var n := |es| - 1;
      assert forall k | 0 <= k < n :: es[..n][..k] == es[..k];
      AnyWrite(c, s, p, es[..n]);
      WriteStep(c, s, Run(c, s, es[..n]), p, s.procs[p], es[n]);
    }
  }

  lemma NotBegun(c: Setup, s: State, p: nat)
    requires p in s.procs && s.procs[p].Statted?
    ensures WriteStands(c, s, s, p, s.procs[p])
  {
  }

  // ----- One toggle -----

  function StartEvents(p: nat, op: Op): seq<Event> {
    [Arrive(p, op), Read(p, true), Stat(p, true)]
  }

  lemma ThreeSteps(c: Setup, s: State, es: seq<Event>)
    requires |es| == 3
    ensures Run(c, s, es) == Next(c, Next(c, Next(c, s, es[0]), es[1]), es[2])
  {
    hide Next;
    assert Run(c, s, []) == s;
    RunMore(c, s, [], es[0]);
    RunMore(c, s, es[..1], es[1]);
    RunMore(c, s, es[..2], es[2]);
    assert [] + [es[0]] == es[..1] && es[..1] + [es[1]] == es[..2] && es[..2] + [es[2]] == es;
  }

  lemma ArriveStep(c: Setup, s: State, p: nat, op: Op)
    requires p !in s.procs && (op.Reconcile? ==> !Reconciling(s))
    ensures Next(c, s, Arrive(p, op)) == s.(procs := s.procs[p := Start(op)])
  {
  }

  lemma ReadStep(c: Setup, s: State, p: nat, op: Op)
    requires p in s.procs && s.procs[p] == Start(op) && !op.Ensure?
    ensures Next(c, s, Read(p, true)) == s.(procs := s.procs[p := AfterRead(c, s, op, true)])
  {
    hide AfterRead;
  }

  lemma StatStep(c: Setup, s: State, p: nat)
    requires p in s.procs && s.procs[p].Decided? && Path(c.cfg) in s.files
    ensures var pc := s.procs[p];
            Next(c, s, Stat(p, true))
            == s.(procs := s.procs[p := Statted(pc.op, pc.dest, pc.bytes, s.files[Path(c.cfg)].mode)])
  {
  }

  /** A request that reads the file and decides to write. */
  lemma Starts(c: Setup, s: State, p: nat, op: Op)
    requires p !in s.procs && (op.Reconcile? ==> !Reconciling(s)) && !op.Ensure? && Path(c.cfg) in s.files
    requires AfterRead(c, s, op, true).Decided?
    ensures var pc := AfterRead(c, s, op, true);
            Run(c, s, StartEvents(p, op))
            == s.(procs := s.procs[p := Statted(pc.op, pc.dest, pc.bytes, s.files[Path(c.cfg)].mode)])
  {
    hide Run, Next, AfterRead, Reconciling, StartEvents;
    StartSteps(c, s, p, op);
    var pc := AfterRead(c, s, op, true);
    ArriveStep(c, s, p, op);
    var s1 := s.(procs := s.procs[p := Start(op)]);
    SameReading(c, s, s1, op);
    ReadStep(c, s1, p, op);
    var s2 := s1.(procs := s1.procs[p := pc]);
    StatStep(c, s2, p);
    Overwrite(s.procs, p, Start(op), pc);
    Overwrite(s.procs, p, pc, Statted(pc.op, pc.dest, pc.bytes, s.files[Path(c.cfg)].mode));
  }

  lemma StartSteps(c: Setup, s: State, p: nat, op: Op)
    ensures Run(c, s, StartEvents(p, op)) == Next(c, Next(c, Next(c, s, Arrive(p, op)), Read(p, true)), Stat(p, true))
  {
    hide Run, Next;
    ThreeSteps(c, s, StartEvents(p, op));
  }

  lemma Overwrite<K, V>(m: map<K, V>, k: K, a: V, b: V)
    ensures m[k := a][k := b] == m[k := b]
  {
  }

  lemma SameReading(c: Setup, s: State, t: State, op: Op)
    requires s.files == t.files
    ensures AfterRead(c, s, op, true) == AfterRead(c, t, op, true)
  {
    hide Decide, PatchBytes, Scratch;
  }

  lemma SwitchStarts(c: Setup, s: State, p: nat, enable: bool, bytes: string)
    requires p !in s.procs && Path(c.cfg) in s.files
    requires Decide(s.files[Path(c.cfg)].data, c.plugin, enable) == Ok(Replace(bytes))
    ensures Run(c, s, StartEvents(p, Switch(enable)))
            == s.(procs := s.procs[p := Statted(Switch(enable), c.cfg, bytes, s.files[Path(c.cfg)].mode)])
  {
    hide Run, Decide, PatchBytes;
    Starts(c, s, p, Switch(enable));
  }

  function SwitchEvents(p: nat, id: nat, enable: bool, n: nat): seq<Event> {
    StartEvents(p, Switch(enable)) + WriteEvents(p, id, n)
  }

  /** A toggle that nothing disturbs replaces the file, under its mode, and owes a restart. */
  lemma UndisturbedSwitch(c: Setup, s: State, p: nat, id: nat, enable: bool, bytes: string)
    requires p !in s.procs && Path(c.cfg) in s.files && id !in s.used && Temp(id) !in s.files
    requires Decide(s.files[Path(c.cfg)].data, c.plugin, enable) == Ok(Replace(bytes))
    ensures var after := Run(c, s, SwitchEvents(p, id, enable, |bytes|));
            && after.files == s.files[Path(c.cfg) := File(bytes, s.files[Path(c.cfg)].mode)]
            && after.procs == s.procs[p := Pending] && after.running == s.running && after.dirty == s.dirty
            && after.used == s.used + {id}
  {
    hide Run, Decide;
    SwitchStarts(c, s, p, enable, bytes);
    RunOn(c, s, StartEvents(p, Switch(enable)), WriteEvents(p, id, |bytes|));
    var pc := Statted(Switch(enable), c.cfg, bytes, s.files[Path(c.cfg)].mode);
    var s1 := s.(procs := s.procs[p := pc]);
    UndisturbedWrite(c, s1, p, id);
    Overwrite(s.procs, p, pc, Pending);
  }

  /** And when the restart succeeds, Suricata runs on the new file. */
  lemma UndisturbedRestart(c: Setup, s: State, p: nat, left: Option<string>)
    requires p in s.procs && s.procs[p].Pending? && Path(c.cfg) in s.files
    ensures var after := Next(c, s, Restart(p, true, left));
            && after.running == Some(s.files[Path(c.cfg)].data) && !after.dirty && after.files == s.files
            && after.procs == s.procs[p := Done(true)]
  {
  }

  // ----- One reconciliation -----

  lemma ReconcileStarts(c: Setup, s: State, p: nat)
    requires p !in s.procs && !Reconciling(s) && Path(c.cfg) in s.files
    requires PatchBytes(c.t, s.files[Path(c.cfg)].data).changed
    ensures var bytes := PatchBytes(c.t, s.files[Path(c.cfg)].data).bytes;
            Run(c, s, StartEvents(p, Reconcile))
            == s.(procs := s.procs[p := Statted(Reconcile, Scratch(c.cfg), bytes, s.files[Path(c.cfg)].mode)])
  {
    hide Run, Decide, PatchBytes, Scratch;
    Starts(c, s, p, Reconcile);
  }

  function ReconcileEvents(p: nat, id: nat, other: nat, n: nat): seq<Event> {
    StartEvents(p, Reconcile) + WriteEvents(p, id, n) + [Test(p, true)] + WriteEvents(p, other, n)
  }

  lemma TestStep(c: Setup, s: State, p: nat, bytes: string, perm: nat)
    requires p in s.procs && s.procs[p] == Testing(bytes, perm)
    requires Path(Scratch(c.cfg)) in s.files && s.files[Path(Scratch(c.cfg))].data == bytes
    ensures var after := Next(c, s, Test(p, true));
            && after.files == s.files && after.procs == s.procs[p := Statted(Reconcile, c.cfg, bytes, perm)]
            && after.used == s.used && after.running == s.running && after.dirty == s.dirty && bytes in after.accepted
  {
    hide Scratch;
  }

  /** A reconciliation that nothing disturbs writes the patched bytes to the scratch file, has
      them accepted there, replaces the file by them, under its mode, and owes a restart.  */
  lemma UndisturbedReconcile(c: Setup, s: State, p: nat, id: nat, other: nat)
    requires p !in s.procs && !Reconciling(s) && Path(c.cfg) in s.files
    requires id !in s.used && other !in s.used && id != other && Temp(id) !in s.files && Temp(other) !in s.files
    requires PatchBytes(c.t, s.files[Path(c.cfg)].data).changed
    ensures var bytes := PatchBytes(c.t, s.files[Path(c.cfg)].data).bytes;
            var file := File(bytes, s.files[Path(c.cfg)].mode);
            var after := Run(c, s, ReconcileEvents(p, id, other, |bytes|));
            && after.files == s.files[Path(Scratch(c.cfg)) := file][Path(c.cfg) := file]
            && after.procs == s.procs[p := Pending] && after.running == s.running && after.dirty == s.dirty
            && bytes in after.accepted
  {
    hide Run, PatchBytes, Scratch, Next;
    ScratchIsElsewhere(c.cfg);
    var bytes, mode := PatchBytes(c.t, s.files[Path(c.cfg)].data).bytes, s.files[Path(c.cfg)].mode;
    var first, second := StartEvents(p, Reconcile), WriteEvents(p, id, |bytes|);
    ReconcileStarts(c, s, p);
    RunOn(c, s, first, second);
    var pc := Statted(Reconcile, Scratch(c.cfg), bytes, mode);
    var s1 := s.(procs := s.procs[p := pc]);
    UndisturbedWrite(c, s1, p, id);
    var s2 := Run(c, s, first + second);
    assert s2.procs == s.procs[p := Testing(bytes, mode)];
    TestStep(c, s2, p, bytes, mode);
    RunMore(c, s, first + second, Test(p, true));
    var s3 := Run(c, s, first + second + [Test(p, true)]);
    UndisturbedWrite(c, s3, p, other);
    RunOn(c, s, first + second + [Test(p, true)], WriteEvents(p, other, |bytes|));
    assert s3.procs[p := Pending] == s.procs[p := Pending];
  }

  // ----- Two writers -----

  /** A disabling toggle and then a reconciliation, where each finds something to do: the file is
      what it was, two restarts are owed, and the toggle would do the same again.  */
  lemma WritersUndoEachOther(c: Setup, s: State, p: nat, q: nat, ids: seq<nat>, off: string)
    requires Path(c.cfg) in s.files && p !in s.procs && q !in s.procs && p != q && !Reconciling(s)
    requires |ids| == 3 && ids[0] != ids[1] && ids[0] != ids[2] && ids[1] != ids[2]
    requires forall id | id in ids :: id !in s.used && Temp(id) !in s.files
    requires var file := s.files[Path(c.cfg)].data;
             Decide(file, c.plugin, false) == Ok(Replace(off)) && PatchBytes(c.t, off) == Patched(file, true)
    ensures var file := s.files[Path(c.cfg)];
            var after := Run(c, s, SwitchEvents(p, ids[0], false, |off|) + ReconcileEvents(q, ids[1], ids[2], |file.data|));
            && Path(c.cfg) in after.files && after.files[Path(c.cfg)] == file
            && after.files == s.files[Path(Scratch(c.cfg)) := file]
            && after.procs == s.procs[p := Pending][q := Pending]
            && Decide(after.files[Path(c.cfg)].data, c.plugin, false) == Ok(Replace(off))
  {
    hide Run, Next, Decide, PatchBytes, Scratch, SwitchEvents, ReconcileEvents, Reconciling;
    ScratchIsElsewhere(c.cfg);
    var file := s.files[Path(c.cfg)];
    assert ids[0] in ids && ids[1] in ids && ids[2] in ids;
    var first, second := SwitchEvents(p, ids[0], false, |off|), ReconcileEvents(q, ids[1], ids[2], |file.data|);
    UndisturbedSwitch(c, s, p, ids[0], false, off);
    var s1 := Run(c, s, first);
    StillNoReconcile(s, s1, p);
    UndisturbedReconcile(c, s1, q, ids[1], ids[2]);
    RunOn(c, s, first, second);
    assert s.files[Path(c.cfg) := File(off, file.mode)][Path(Scratch(c.cfg)) := file][Path(c.cfg) := file]
           == s.files[Path(Scratch(c.cfg)) := file];
  }

  lemma StillNoReconcile(s: State, after: State, p: nat)
    requires !Reconciling(s) && after.procs == s.procs[p := Pending]
    ensures !Reconciling(after)
  {
  }

  // ----- A restart that failed -----

  predicate OnlyRepeats(es: seq<Event>, enable: bool) {
    forall k | 0 <= k < |es| :: es[k].Arrive? ==> es[k].op == Switch(enable)
  }

  predicate Idle(s: State, enable: bool) {
    forall p | p in s.procs :: s.procs[p].Done? || s.procs[p] == Start(Switch(enable))
  }

  /** A toggle would replace the file as it is. */
  predicate Effective(c: Setup, s: State, enable: bool)
    requires Path(c.cfg) in s.files
  {
    var d := Decide(s.files[Path(c.cfg)].data, c.plugin, enable);
    d.Ok? && d.value.Replace?
  }

  lemma RepeatStep(c: Setup, s: State, e: Event, enable: bool)
    requires Path(c.cfg) in s.files && !Effective(c, s, enable)
    requires Idle(s, enable) && (e.Arrive? ==> e.op == Switch(enable))
    ensures var after := Next(c, s, e);
            Idle(after, enable) && after.files == s.files && after.running == s.running && after.dirty == s.dirty
  {
    hide Decide, PatchBytes;
  }

  lemma {:induction false} RepeatsDoNothing(c: Setup, s: State, es: seq<Event>, enable: bool)
    requires Path(c.cfg) in s.files && !Effective(c, s, enable)
    requires Idle(s, enable) && OnlyRepeats(es, enable)
    ensures var after := Run(c, s, es);
            Idle(after, enable) && after.files == s.files && after.running == s.running && after.dirty == s.dirty
    decreases |es|
  {
    hide Next, Decide;
    if es != [] {
      RepeatsDoNothing(c, s, es[..|es| - 1], enable);
      RepeatStep(c, Run(c, s, es[..|es| - 1]), es[|es| - 1], enable);
    }
  }

  lemma FailedRestart(c: Setup, s: State, p: nat, left: Option<string>, enable: bool)
    requires p in s.procs && s.procs[p].Pending? && forall q | q in s.procs && q != p :: s.procs[q].Done?
    ensures var failed := Next(c, s, Restart(p, false, left));
            && Idle(failed, enable) && failed.files == s.files && failed.running == left && failed.dirty
            && failed.used == s.used && failed.procs == s.procs[p := Done(false)]
  {
  }

  lemma {:induction false} Fresh(used: set<nat>) returns (n: nat)
    ensures forall k | k in used :: k < n
    decreases |used|
  {
    if used == {} {
      n := 0;
    } else {
      var x :| x in used;
      var m := Fresh(used - {x});
      n := if x < m then m else x + 1;
      assert forall k | k in used :: k == x || k in used - {x};
    }
  }

  lemma FreshRequest(c: Setup, s: State) returns (q: nat, id: nat)
    ensures q !in s.procs && id !in s.used && Temp(id) !in s.files
  {
    q := Fresh(s.procs.Keys);
    var temps := set n | n in s.files.Keys && n.Temp? :: n.id;
    var m := Fresh(s.used + temps);
    id := m;
    assert Temp(id) in s.files ==> id in temps;
  }

  /** Retries of the same request after a failed restart, alone: some run of them repairs it
      exactly when the file as it is does not yet say what is asked for.  Otherwise, whether
      they are answered "ok" or fail, they restart nothing, and Suricata stays on whatever the
      failed restart left.  */
  lemma RetryRepairs(c: Setup, s: State, p: nat, left: Option<string>, enable: bool)
    requires p in s.procs && s.procs[p].Pending? && forall q | q in s.procs && q != p :: s.procs[q].Done?
    requires Path(c.cfg) in s.files
    ensures var failed := Next(c, s, Restart(p, false, left));
            (exists es :: OnlyRepeats(es, enable) && !Run(c, failed, es).dirty) <==> Effective(c, s, enable)
    ensures !Effective(c, s, enable) ==>
              forall es | OnlyRepeats(es, enable) ::
                var after := Run(c, Next(c, s, Restart(p, false, left)), es);
                after.running == left && after.files == s.files && after.dirty
  {
    hide Next, Run, Decide, Idle, OnlyRepeats;
    var failed := Next(c, s, Restart(p, false, left));
    FailedRestart(c, s, p, left, enable);
    if Effective(c, s, enable) {
      var es := RepairingRun(c, failed, enable);
    } else {
      forall es | OnlyRepeats(es, enable)
        ensures Run(c, failed, es).running == left && Run(c, failed, es).files == s.files && Run(c, failed, es).dirty
      {
        RepeatsDoNothing(c, failed, es, enable);
      }
    }
  }

  /** One more toggle that does replace the file, with a restart that succeeds. */
  lemma RepairingRun(c: Setup, s: State, enable: bool) returns (es: seq<Event>)
    requires Path(c.cfg) in s.files && Effective(c, s, enable)
    ensures var after := Run(c, s, es);
            && OnlyRepeats(es, enable) && !after.dirty && Path(c.cfg) in after.files
            && after.files[Path(c.cfg)].data == Decide(s.files[Path(c.cfg)].data, c.plugin, enable).value.bytes
            && after.running == Some(after.files[Path(c.cfg)].data)
  {
    hide Next, Run, Decide;
    var q, id := FreshRequest(c, s);
    var bytes := Decide(s.files[Path(c.cfg)].data, c.plugin, enable).value.bytes;
    var events := SwitchEvents(q, id, enable, |bytes|);
    UndisturbedSwitch(c, s, q, id, enable, bytes);
    UndisturbedRestart(c, Run(c, s, events), q, None);
    RunMore(c, s, events, Restart(q, true, None));
    es := events + [Restart(q, true, None)];
  }

  lemma StatusMeansKeep(content: string, plugin: string, enable: bool)
    requires var status := Status(content, plugin); status.Ok? && status.value.1 == enable
    ensures Decide(content, plugin, enable) == Ok(Keep)
  {
  }

  /** A start from which one toggle leads to a restart that no retry can repair once it failed:
      any file the toggle replaces by one that status reads as asked for.  */
  lemma RestartCanFailForGood(c: Setup, s: State, enable: bool) returns (es: seq<Event>)
    requires Init(c, s) && Effective(c, s, enable) && Solid(Base(c.plugin))
    requires var l := ReadLines(s.files[Path(c.cfg)].data).value[Picked(s.files[Path(c.cfg)].data, c.plugin)];
             (enable ==> Marks(l) <= 1) && |DropCR(Toggled(l, enable))| < MAX_TOKEN
    ensures var now := Run(c, s, es);
            && 0 in now.procs && now.procs[0].Pending? && (forall q | q in now.procs && q != 0 :: now.procs[q].Done?)
            && Path(c.cfg) in now.files && !Effective(c, now, enable)
            && Status(now.files[Path(c.cfg)].data, c.plugin).Ok? && Status(now.files[Path(c.cfg)].data, c.plugin).value.1 == enable
            && now.files[Path(c.cfg)].data != s.files[Path(c.cfg)].data
  {
    hide Next, Run, Decide, Solid, ReadLines, Marks, DropCR, Toggled, Base, Status;
    var content := s.files[Path(c.cfg)].data;
    var bytes := Decide(content, c.plugin, enable).value.bytes;
    es := SwitchEvents(0, 0, enable, |bytes|);
    UndisturbedSwitch(c, s, 0, 0, enable, bytes);
    StatusAfterToggle(content, c.plugin, enable);
    StatusMeansKeep(bytes, c.plugin, enable);
  }
}
