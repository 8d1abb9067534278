/** What holds in every state of every run of Host.dfy. */
module HostTheorems {
  import opened Wrappers
  import opened PatchSpec
  import opened Toggle
  import opened ToggleVersions
  import opened Disk
  import opened Host

  // ----- Running configuration and file -----

  lemma {:induction false} RunKeepsInvariants(c: Setup, s: State, es: seq<Event>)
    requires Init(c, s)
    ensures Owned(c, Run(c, s, es)) && Consistent(c, s.files[Path(c.cfg)].data, Run(c, s, es))
    decreases |es|
  {
    hide Next, JobOk;
    if es == [] {
      assert Run(c, s, []) == s;
    } else {
      var before := Run(c, s, es[..|es| - 1]);
      RunKeepsInvariants(c, s, es[..|es| - 1]);
      OwnedStep(c, before, es[|es| - 1]);
      ConsistentStep(c, s.files[Path(c.cfg)].data, before, es[|es| - 1]);
    }
  }

  /** However requests interleave, fail and die: when no restart is outstanding and none failed
      since the last successful one, Suricata runs on the file, or nothing has changed the file
      and Suricata, which did not run at the start, still does not.  */
  lemma QuietMeansCurrent(c: Setup, s: State, es: seq<Event>)
    requires Init(c, s)
    ensures var now := Run(c, s, es);
            && Path(c.cfg) in now.files
            && (!now.dirty && (forall p | p in now.procs :: !now.procs[p].Pending?) ==>
                  var data := now.files[Path(c.cfg)].data;
                  now.running == Some(data) || (now.running == None && data == s.files[Path(c.cfg)].data))
  {
    hide Run, Owned;
    RunKeepsInvariants(c, s, es);
  }

  // ----- Toggles alone -----

  predicate NoReconcile(es: seq<Event>) {
    forall k | 0 <= k < |es| :: es[k].Arrive? ==> !es[k].op.Reconcile?
  }

  /** The bytes a request is about to write are a version in the state it was asked for. */
  ghost predicate WritesVersion(c: Setup, original: string, op: Op, bytes: string)
    requires Toggleable(original, c.plugin)
  {
    op.Switch? && exists v :: WrittenVersion(v, original, c.plugin, op.enable) && bytes == Written(v)
  }

  ghost predicate OnVersion(c: Setup, original: string, pc: Pc)
    requires Toggleable(original, c.plugin)
  {
    match pc
    case Start(op) => !op.Reconcile?
    case Decided(op, dest, bytes) => dest == c.cfg && WritesVersion(c, original, op, bytes)
    case Statted(op, dest, bytes, _) => dest == c.cfg && WritesVersion(c, original, op, bytes)
    case Filling(job, _) => job.dest == c.cfg && WritesVersion(c, original, job.op, job.bytes)
    case Testing(_, _) => false
    case _ => true
  }

  /** The file is a member of the original's family, in the state the last writer asked for. */
  ghost predicate Faithful(c: Setup, original: string, s: State)
    requires Toggleable(original, c.plugin)
  {
    && Path(c.cfg) in s.files
    && (s.last.None? ==> s.files[Path(c.cfg)].data == original)
    && (s.last.Some? ==> WritesVersion(c, original, Switch(s.last.value), s.files[Path(c.cfg)].data))
    && forall p | p in s.procs :: OnVersion(c, original, s.procs[p])
  }

  lemma FaithfulIsFamily(c: Setup, original: string, s: State)
    requires Toggleable(original, c.plugin) && Faithful(c, original, s)
    ensures InFamily(s.files[Path(c.cfg)].data, original, c.plugin)
  {
    hide Toggleable, Written, Version, OnVersion;
  }

  lemma ReadIsOnVersion(c: Setup, original: string, s: State, op: Op, ok: bool)
    requires Toggleable(original, c.plugin) && Faithful(c, original, s) && !op.Reconcile?
    ensures OnVersion(c, original, AfterRead(c, s, op, ok))
  {
    hide Toggleable, Written, InFamily, WrittenVersion, Decide, PatchBytes, Faithful;
    FaithfulIsFamily(c, original, s);
    if ok && op.Switch? && Path(c.cfg) in s.files {
      var content := s.files[Path(c.cfg)].data;
      var d := Decide(content, c.plugin, op.enable);
      if d.Ok? && d.value.Replace? {
        FamilyIsClosed(content, original, c.plugin, op.enable);
      }
    }
  }

  lemma OwnStepOnVersion(c: Setup, original: string, s: State, e: Event)
    requires Toggleable(original, c.plugin) && Faithful(c, original, s) && Owned(c, s)
    requires e.Arrive? ==> !e.op.Reconcile?
    requires e.p in Next(c, s, e).procs
    ensures OnVersion(c, original, Next(c, s, e).procs[e.p])
  {
    hide Toggleable, WritesVersion, AfterRead, JobOk, Created, WithData, WithMode, Renamed, Removed;
    if e.p in s.procs {
      var pc := s.procs[e.p];
      assert OnVersion(c, original, pc);
      if e.Read? && pc.Start? && !pc.op.Ensure? {
        ReadIsOnVersion(c, original, s, pc.op, e.ok);
      }
    }
  }

  lemma FaithfulStep(c: Setup, original: string, s: State, e: Event)
    requires Toggleable(original, c.plugin) && Faithful(c, original, s) && Owned(c, s)
    requires e.Arrive? ==> !e.op.Reconcile?
    ensures Faithful(c, original, Next(c, s, e))
  {
    var after := Next(c, s, e);
    FileStep(c, s, e);
    NextKeepsOthers(c, s, e);
    if e.p in after.procs {
      OwnStepOnVersion(c, original, s, e);
    }
    hide Toggleable, Next, Owned, WritesVersion;
    forall q | q in after.procs
      ensures OnVersion(c, original, after.procs[q])
    {
      if q != e.p {
        assert after.procs[q] == s.procs[q];
      }
    }
    if e.p in s.procs {
      assert OnVersion(c, original, s.procs[e.p]);
    }
  }

  lemma {:induction false} RunIsFaithful(c: Setup, s: State, es: seq<Event>)
    requires Init(c, s) && Toggleable(s.files[Path(c.cfg)].data, c.plugin) && NoReconcile(es)
    ensures Faithful(c, s.files[Path(c.cfg)].data, Run(c, s, es)) && Owned(c, Run(c, s, es))
    decreases |es|
  {
    hide Next, Toggleable, OnVersion, WritesVersion;
    RunKeepsInvariants(c, s, es);
    if es == [] {
      assert Run(c, s, []) == s;
    } else {
      RunIsFaithful(c, s, es[..|es| - 1]);
      FaithfulStep(c, s.files[Path(c.cfg)].data, Run(c, s, es[..|es| - 1]), es[|es| - 1]);
    }
  }

  /** Toggles need no lock to keep the file whole: every version ever visible has the original's
      lines, the plugin line in one of its three forms, and possibly fewer trailing blank lines.  */
  lemma TogglesKeepTheFile(c: Setup, s: State, es: seq<Event>)
    requires Init(c, s) && Toggleable(s.files[Path(c.cfg)].data, c.plugin) && NoReconcile(es)
    ensures var now := Run(c, s, es);
            Path(c.cfg) in now.files && InFamily(now.files[Path(c.cfg)].data, s.files[Path(c.cfg)].data, c.plugin)
  {
    hide Run, Toggleable, OnVersion, WritesVersion, Owned, InFamily;
    RunIsFaithful(c, s, es);
    FaithfulIsFamily(c, s.files[Path(c.cfg)].data, Run(c, s, es));
  }

  /** The last toggle to replace the file wins, whatever it had read: status reports what it
      asked for, at the original's plugin line.  */
  lemma LastWriterWins(c: Setup, s: State, es: seq<Event>)
    requires Init(c, s) && Toggleable(s.files[Path(c.cfg)].data, c.plugin) && NoReconcile(es)
    requires RoomForMark(s.files[Path(c.cfg)].data, c.plugin)
    ensures var now, original := Run(c, s, es), s.files[Path(c.cfg)].data;
            && Path(c.cfg) in now.files
            && (now.last.None? ==> now.files[Path(c.cfg)].data == original)
            && (now.last.Some? ==>
                  Status(now.files[Path(c.cfg)].data, c.plugin)
                  == Ok((FirstMatch(ReadLines(original).value, c.plugin), now.last.value)))
  {
    hide Run, Toggleable, OnVersion, Owned, Status, Written, WrittenVersion, RoomForMark, ReadLines;
    RunIsFaithful(c, s, es);
    var now, original := Run(c, s, es), s.files[Path(c.cfg)].data;
    if now.last.Some? {
      var v :| WrittenVersion(v, original, c.plugin, now.last.value) && now.files[Path(c.cfg)].data == Written(v);
      VersionStatus(v, original, c.plugin, now.last.value);
    }
  }

  // ----- Reconciliations among toggles -----

  /** What a reconciliation carries has been tested where it has to be. */
  ghost predicate TestedOk(c: Setup, s: State, pc: Pc) {
    match pc
    case Decided(op, dest, _) => op.Reconcile? ==> dest == Scratch(c.cfg)
    case Statted(op, dest, bytes, _) => op.Reconcile? && dest == c.cfg ==> bytes in s.accepted
    case Filling(job, _) => job.op.Reconcile? && job.dest == c.cfg ==> job.bytes in s.accepted
    case Testing(bytes, perm) =>
      Path(Scratch(c.cfg)) in s.files && s.files[Path(Scratch(c.cfg))] == File(bytes, perm)
    case _ => true
  }

  ghost predicate Tested(c: Setup, original: string, s: State) {
    && (forall p | p in s.procs :: TestedOk(c, s, s.procs[p]))
    && (forall p, q | p in s.procs && q in s.procs && IsReconcile(s.procs[p]) && IsReconcile(s.procs[q]) :: p == q)
    && Path(c.cfg) in s.files
    && (s.last.None? ==> s.files[Path(c.cfg)].data == original || s.files[Path(c.cfg)].data in s.accepted)
  }

  lemma OneReconcileStep(c: Setup, s: State, e: Event)
    requires Owned(c, s) && e.p in Next(c, s, e).procs && IsReconcile(Next(c, s, e).procs[e.p])
    ensures (e.p in s.procs && IsReconcile(s.procs[e.p])) || !Reconciling(s)
  {
    hide AfterRead, Created, WithData, WithMode, Renamed, Removed, Scratch;
    AfterReadKeepsKind(c, s);
    if e.p in s.procs {
      assert JobOk(c, s, s.procs[e.p]);
    }
  }

  lemma AfterReadKeepsKind(c: Setup, s: State)
    ensures forall op, ok :: IsReconcile(AfterRead(c, s, op, ok)) ==> op.Reconcile?
  {
    hide Decide, PatchBytes;
  }

  lemma AfterReadTested(c: Setup, s: State, after: State)
    ensures forall op, ok :: TestedOk(c, after, AfterRead(c, s, op, ok))
  {
    hide Decide, PatchBytes, Scratch;
  }

  lemma OwnStepTested(c: Setup, original: string, s: State, e: Event)
    requires Owned(c, s) && Tested(c, original, s) && e.p in Next(c, s, e).procs
    ensures TestedOk(c, Next(c, s, e), Next(c, s, e).procs[e.p])
  {
    hide Scratch, AfterRead, IsReconcile, SameBut;
    ScratchIsElsewhere(c.cfg);
    AfterReadTested(c, s, Next(c, s, e));
    if e.p in s.procs {
      assert TestedOk(c, s, s.procs[e.p]);
      assert JobOk(c, s, s.procs[e.p]);
    }
  }

  /** Nobody but a reconciliation touches the scratch file, and accepted contents stay accepted. */
  lemma ScratchStep(c: Setup, s: State, e: Event)
    requires Owned(c, s)
    ensures var after, scratch := Next(c, s, e), Path(Scratch(c.cfg));
            && s.accepted <= after.accepted
            && (scratch in s.files && !(e.p in s.procs && IsReconcile(s.procs[e.p])) ==>
                  scratch in after.files && after.files[scratch] == s.files[scratch])
  {
    ScratchIsElsewhere(c.cfg);
    hide Scratch, AfterRead, AfterStat;
    if e.p in s.procs {
      assert JobOk(c, s, s.procs[e.p]);
    }
  }

  lemma TestedFileStep(c: Setup, original: string, s: State, e: Event)
    requires Owned(c, s) && Tested(c, original, s)
    ensures var after := Next(c, s, e);
            && Path(c.cfg) in after.files
            && (after.last.None? ==> after.files[Path(c.cfg)].data == original || after.files[Path(c.cfg)].data in after.accepted)
  {
    hide Next, Owned;
    FileStep(c, s, e);
    ScratchStep(c, s, e);
    if e.p in s.procs {
      assert TestedOk(c, s, s.procs[e.p]);
    }
  }

  lemma TestedStep(c: Setup, original: string, s: State, e: Event)
    requires Owned(c, s) && Tested(c, original, s)
    ensures Tested(c, original, Next(c, s, e))
  {
    hide Next, Owned, TestedOk, IsReconcile, Scratch;
    var after := Next(c, s, e);
    NextKeepsOthers(c, s, e);
    ScratchStep(c, s, e);
    TestedFileStep(c, original, s, e);
    if e.p in after.procs {
      OwnStepTested(c, original, s, e);
      if IsReconcile(after.procs[e.p]) {
        OneReconcileStep(c, s, e);
      }
    }
    forall q | q in after.procs
      ensures TestedOk(c, after, after.procs[q])
    {
      if q != e.p {
        assert TestedOk(c, s, s.procs[q]);
        OtherStaysTested(c, s, after, e.p, q);
      }
    }
  }

  lemma OtherStaysTested(c: Setup, s: State, after: State, p: nat, q: nat)
    requires q in s.procs && p != q && TestedOk(c, s, s.procs[q]) && s.accepted <= after.accepted
    requires p in s.procs && IsReconcile(s.procs[p]) && IsReconcile(s.procs[q]) ==> p == q
    requires var scratch := Path(Scratch(c.cfg));
             scratch in s.files && !(p in s.procs && IsReconcile(s.procs[p])) ==>
               scratch in after.files && after.files[scratch] == s.files[scratch]
    ensures TestedOk(c, after, s.procs[q])
  {
    hide Scratch;
  }

  lemma {:induction false} RunIsTested(c: Setup, s: State, es: seq<Event>)
    requires Init(c, s)
    ensures Tested(c, s.files[Path(c.cfg)].data, Run(c, s, es)) && Owned(c, Run(c, s, es))
    decreases |es|
  {
    hide Next, TestedOk, IsReconcile;
    RunKeepsInvariants(c, s, es);
    if es == [] {
      assert Run(c, s, []) == s;
    } else {
      RunIsTested(c, s, es[..|es| - 1]);
      TestedStep(c, s.files[Path(c.cfg)].data, Run(c, s, es[..|es| - 1]), es[|es| - 1]);
    }
  }

  /** A reconciliation installs nothing but bytes that suricata -T has accepted: in every state
      of every run, a file not last written by a toggle is the original or was accepted.  */
  lemma OnlyTestedBytesInstalled(c: Setup, s: State, es: seq<Event>)
    requires Init(c, s)
    ensures var now := Run(c, s, es);
            Path(c.cfg) in now.files &&
            (now.last.None? ==> now.files[Path(c.cfg)].data == s.files[Path(c.cfg)].data
                                || now.files[Path(c.cfg)].data in now.accepted)
  {
    hide Run, Owned;
    RunIsTested(c, s, es);
  }
}
