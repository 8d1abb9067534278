/** Which way the steps of Host.dfy go: how a request reads, when it owes or causes a restart, and
    when it answers "ok".  */
module HostSteps {
  import opened Wrappers
  import opened PatchSpec
  import opened Toggle
  import opened Disk
  import opened Host

  /** What a request does next is decided by one reading of the file: a toggle ends in failure, in
      success with nothing to do, or with bytes to write over the file; a reconciliation writes
      the patched bytes to the scratch file if the patch reports a change, and else has succeeded.  */
  lemma ReadIs(c: Setup, s: State, p: nat, ok: bool)
    requires p in s.procs && s.procs[p].Start? && !s.procs[p].op.Ensure? && Path(c.cfg) in s.files
    ensures var op, data, after := s.procs[p].op, s.files[Path(c.cfg)].data, Next(c, s, Read(p, ok));
            && after == s.(procs := after.procs) && after.procs.Keys == s.procs.Keys
            && (!ok ==> after.procs[p] == Done(false))
            && (ok && op.Switch? ==>
                  match Decide(data, c.plugin, op.enable)
                  case Err(_) => after.procs[p] == Done(false)
                  case Ok(Keep) => after.procs[p] == Done(true)
                  case Ok(Replace(bytes)) => after.procs[p] == Decided(op, c.cfg, bytes))
            && (ok && op.Reconcile? ==>
                  var q := PatchBytes(c.t, data);
                  after.procs[p] == if q.changed then Decided(op, c.cfg + ".integration.tmp", q.bytes) else Done(true))
  {
    hide Decide, PatchBytes;
  }

  /** The mode that is written is the file's, or 0644 if it cannot be found out. */
  lemma StatIs(c: Setup, s: State, p: nat, ok: bool)
    requires p in s.procs && s.procs[p].Decided? && Path(c.cfg) in s.files
    ensures var pc, after := s.procs[p], Next(c, s, Stat(p, ok));
            after == s.(procs := s.procs[p := Statted(pc.op, pc.dest, pc.bytes, if ok then s.files[Path(c.cfg)].mode else 420)])
  {
  }

  /** An ensure request dials first.  A reachable service is left alone; only when nobody answers
      does the request come to restart it.  */
  lemma EnsureDials(c: Setup, s: State, p: nat, e: Event)
    requires p in s.procs && s.procs[p] == Start(Ensure) && e.p == p
    ensures var after := Next(c, s, e);
            && after.files == s.files && after.running == s.running && p in after.procs
            && (e.Probe? ==> after.procs[p] == if e.reachable then Done(true) else Down)
            && (!e.Probe? && !e.Kill? ==> after == s)
  {
  }

  /** What Suricata runs on changes only when a request that owes a restart, or found the socket
      dead, restarts it.  A restart that succeeds loads the file as it then is, one that fails is
      on record, and the request fails with it.  */
  lemma RestartIs(c: Setup, s: State, e: Event)
    requires Path(c.cfg) in s.files
    ensures var after := Next(c, s, e);
            var restarts := e.Restart? && e.p in s.procs && (s.procs[e.p].Pending? || s.procs[e.p].Down?);
            && (!restarts ==> after.running == s.running)
            && (restarts ==> after.files == s.files && after.procs.Keys == s.procs.Keys)
            && (restarts && e.ok ==>
                  && after.running == Some(s.files[Path(c.cfg)].data) && !after.dirty
                  && after.procs[e.p] == if s.procs[e.p].Pending? then Done(true) else Polling)
            && (restarts && !e.ok ==> after.running == e.left && after.dirty && after.procs[e.p] == Done(false))
  {
    hide AfterRead, AfterStat, Created, WithData, WithMode, Renamed, Removed, Scratch;
  }

  /** A request owes a restart only after its rename to the configuration file, and is about to
      restart a dead service only after its probe found it so.  */
  lemma OwesRestart(c: Setup, s: State, e: Event)
    requires e.p in Next(c, s, e).procs && (e.p in s.procs ==> s.procs[e.p] != Next(c, s, e).procs[e.p])
    ensures var now := Next(c, s, e).procs[e.p];
            && (now.Pending? ==> Replaces(c, s, e))
            && (now.Down? ==> e == Probe(e.p, false) && e.p in s.procs && s.procs[e.p] == Start(Ensure))
  {
    hide Created, WithData, WithMode, Renamed, Removed, Scratch, Decide, PatchBytes;
  }

  /** A request answers "ok" on exactly these grounds: it read that there is nothing to do, a probe
      was answered, or the restart that it owed succeeded.  */
  lemma AnswersOk(c: Setup, s: State, e: Event)
    requires e.p in s.procs && s.procs[e.p] != Done(true) && Path(c.cfg) in s.files
    ensures var pc, data := s.procs[e.p], s.files[Path(c.cfg)].data;
            Next(c, s, e).procs[e.p] == Done(true) <==>
              || (e == Read(e.p, true) && pc.Start? && pc.op.Switch? && Decide(data, c.plugin, pc.op.enable) == Ok(Keep))
              || (e == Read(e.p, true) && pc == Start(Reconcile) && !PatchBytes(c.t, data).changed)
              || (e == Probe(e.p, true) && (pc == Start(Ensure) || pc.Polling?))
              || (e.Restart? && e.ok && pc.Pending?)
  {
    hide Created, WithData, WithMode, Renamed, Removed, Scratch, Decide, PatchBytes;
  }
}
