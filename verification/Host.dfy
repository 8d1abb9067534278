/** Any number of enable, disable, ensure and reconcile requests at work on one configuration
    file, interleaved at the level of single file-system operations and commands, each of which
    may fail, and any request of which may be killed at any point (pkg/hostagent/handlers.go,
    integration/reconcile_config.go, integration/atomic_write.go).  */
module Host {
  import opened Wrappers
  import opened PatchSpec
  import opened Toggle
  import opened Disk

  /** What does not change during a run: the file, the plugin path, the parsed template. */
  datatype Setup = Setup(cfg: string, plugin: string, t: Template)

  datatype Op = Switch(enable: bool) | Ensure | Reconcile

  /** One writeFileAtomic call. */
  datatype Job = Job(op: Op, dest: string, bytes: string, perm: nat, temp: nat)

  /** How far the temporary file of a job has come. */
  datatype Stage = Empty | Full | Moded | Shut

  /** Where a request stands. */
  datatype Pc =
    | Start(op: Op)
    | Decided(op: Op, dest: string, bytes: string)
    | Statted(op: Op, dest: string, bytes: string, perm: nat)
    | Filling(job: Job, stage: Stage)
    | Aborting(temp: nat)
    | Testing(bytes: string, perm: nat)
    | Pending                    // the file is replaced, the restart is still to come
    | Down                       // ensure found the socket dead
    | Polling
    | Done(ok: bool)

  datatype State = State(
    files: Files,
    used: set<nat>,              // the random names os.CreateTemp has given out
    procs: map<nat, Pc>,
    running: Option<string>,     // the configuration Suricata has loaded, if it runs
    dirty: bool,                 // a restart failed, or its request was killed, since the last success
    accepted: set<string>,       // contents that suricata -T has accepted
    last: Option<bool>)          // what the last toggle to replace the file asked for

  datatype Event =
    | Arrive(p: nat, op: Op)
    | Read(p: nat, ok: bool)
    | Stat(p: nat, ok: bool)
    | CreateTemp(p: nat, id: nat, ok: bool)
    | Write(p: nat, n: nat)
    | Chmod(p: nat, ok: bool)
    | Close(p: nat, ok: bool)
    | Rename(p: nat, ok: bool)
    | CleanUp(p: nat, ok: bool)
    | Test(p: nat, ok: bool)
    | Probe(p: nat, reachable: bool)
    | Timeout(p: nat)
    | Restart(p: nat, ok: bool, left: Option<string>)
    | Kill(p: nat)

  function At(s: State, pc: Pc, p: nat): State {
    s.(procs := s.procs[p := pc])
  }

  /** Runner operations hold a mutex, so there is one reconciliation at a time. */
  predicate IsReconcile(pc: Pc) {
    match pc
    case Start(op) => op.Reconcile?
    case Decided(op, _, _) => op.Reconcile?
    case Statted(op, _, _, _) => op.Reconcile?
    case Filling(job, _) => job.op.Reconcile?
    case Testing(_, _) => true
    case _ => false
  }

  ghost predicate Reconciling(s: State) {
    exists p :: p in s.procs && IsReconcile(s.procs[p])
  }

  // ----- The steps of one request -----

  function AfterRead(c: Setup, s: State, op: Op, ok: bool): Pc {
    if !ok || Path(c.cfg) !in s.files then Done(false)
    else
      var content := s.files[Path(c.cfg)].data;
      match op
      case Ensure => Done(false)
      case Switch(enable) =>
        (match Decide(content, c.plugin, enable)
         case Err(_) => Done(false)
         case Ok(Keep) => Done(true)
         case Ok(Replace(bytes)) => Decided(op, c.cfg, bytes))
      case Reconcile =>
        var patched := PatchBytes(c.t, content);
        if patched.changed then Decided(op, Scratch(c.cfg), patched.bytes) else Done(true)
  }

  function AfterStat(c: Setup, s: State, pc: Pc, ok: bool): Pc
    requires pc.Decided?
  {
    var perm := if ok && Path(c.cfg) in s.files then s.files[Path(c.cfg)].mode else DEFAULT_MODE;
    Statted(pc.op, pc.dest, pc.bytes, perm)
  }

  function AfterWrite(s: State, p: nat, job: Job, n: nat): State
    requires Temp(job.temp) in s.files
  {
    var part := if n < |job.bytes| then job.bytes[..n] else job.bytes;
    At(s.(files := WithData(s.files, Temp(job.temp), part)),
       if n < |job.bytes| then Aborting(job.temp) else Filling(job, Full), p)
  }

  function AfterRename(c: Setup, s: State, p: nat, job: Job): State
    requires Temp(job.temp) in s.files
  {
    var t := s.(files := Renamed(s.files, Temp(job.temp), Path(job.dest)));
    if job.dest != c.cfg then At(t, Testing(job.bytes, job.perm), p)
    else At(t.(last := if job.op.Switch? then Some(job.op.enable) else None), Pending, p)
  }

  function AfterRestart(c: Setup, s: State, p: nat, ok: bool, left: Option<string>): State
    requires p in s.procs
  {
    if !ok then At(s.(running := left, dirty := true), Done(false), p)
    else
      var loaded := if Path(c.cfg) in s.files then Some(s.files[Path(c.cfg)].data) else None;
      At(s.(running := loaded, dirty := false), if s.procs[p].Pending? then Done(true) else Polling, p)
  }

  /** The state after an event; an event that does not fit the state changes nothing. */
  ghost function Next(c: Setup, s: State, e: Event): State {
    if e.Arrive? then
      if e.p in s.procs || (e.op.Reconcile? && Reconciling(s)) then s else At(s, Start(e.op), e.p)
    else if e.p !in s.procs then s
    else Advance(c, s, e, s.procs[e.p])
  }

  function Advance(c: Setup, s: State, e: Event, pc: Pc): State
    requires e.p in s.procs && pc == s.procs[e.p]
  {
    match e
    case Arrive(_, _) => s
    case Read(p, ok) => if pc.Start? && !pc.op.Ensure? then At(s, AfterRead(c, s, pc.op, ok), p) else s
    case Stat(p, ok) => if pc.Decided? then At(s, AfterStat(c, s, pc, ok), p) else s
    case CreateTemp(p, id, ok) =>
      if !pc.Statted? then s
      else if !ok then At(s, Done(false), p)
      else if id in s.used then s
      else At(s.(files := Created(s.files, Temp(id)), used := s.used + {id}),
              Filling(Job(pc.op, pc.dest, pc.bytes, pc.perm, id), Empty), p)
    case Write(p, n) =>
      if pc.Filling? && pc.stage == Empty && Temp(pc.job.temp) in s.files then AfterWrite(s, p, pc.job, n) else s
    case Chmod(p, ok) =>
      if !(pc.Filling? && pc.stage == Full && Temp(pc.job.temp) in s.files) then s
      else if !ok then At(s, Aborting(pc.job.temp), p)
      else At(s.(files := WithMode(s.files, Temp(pc.job.temp), pc.job.perm)), Filling(pc.job, Moded), p)
    case Close(p, ok) =>
      if pc.Filling? && pc.stage == Moded then At(s, if ok then Filling(pc.job, Shut) else Aborting(pc.job.temp), p) else s
    case Rename(p, ok) =>
      if !(pc.Filling? && pc.stage == Shut && Temp(pc.job.temp) in s.files) then s
      else if ok then AfterRename(c, s, p, pc.job) else At(s, Aborting(pc.job.temp), p)
    case CleanUp(p, ok) =>
      if !pc.Aborting? then s
      else At(s.(files := if ok then Removed(s.files, Temp(pc.temp)) else s.files), Done(false), p)
    case Test(p, ok) =>
      if !(pc.Testing? && Path(Scratch(c.cfg)) in s.files) then s
      else if !ok then At(s, Done(false), p)
      else At(s.(accepted := s.accepted + {s.files[Path(Scratch(c.cfg))].data}), Statted(Reconcile, c.cfg, pc.bytes, pc.perm), p)
    case Probe(p, reachable) =>
      if pc == Start(Ensure) then At(s, if reachable then Done(true) else Down, p)
      else if pc.Polling? && reachable then At(s, Done(true), p)
      else s
    case Timeout(p) => if pc.Polling? then At(s, Done(false), p) else s
    case Restart(p, ok, left) => if pc.Pending? || pc.Down? then AfterRestart(c, s, p, ok, left) else s
    case Kill(p) => if pc.Done? then s else At(s.(dirty := s.dirty || pc.Pending?), Done(false), p)
  }

  // ----- Runs -----

  ghost function Run(c: Setup, s: State, es: seq<Event>): State
    decreases |es|
  {
    if es == [] then s else Next(c, Run(c, s, es[..|es| - 1]), es[|es| - 1])
  }

  /** A run starts with the file in place, no request and no temporary file, and Suricata either
      down or running on the file.  */
  predicate Init(c: Setup, s: State) {
    && Path(c.cfg) in s.files && s.procs == map[] && s.used == {} && !s.dirty && s.accepted == {} && s.last == None
    && (forall n | n in s.files :: n.Path?)
    && (s.running.Some? ==> s.running.value == s.files[Path(c.cfg)].data)
  }

  // ----- Invariants -----

  /** The temporary file of a job is there, is the job's own, and holds what the stage says. */
  ghost predicate Owned(c: Setup, s: State) {
    && Path(c.cfg) in s.files
    && (forall id :: Temp(id) in s.files ==> id in s.used)
    && (forall p | p in s.procs :: JobOk(c, s, s.procs[p]))
    && (forall p, q | p in s.procs && q in s.procs && p != q && Holds(s.procs[p]) && Holds(s.procs[q]) ::
          TempOf(s.procs[p]) != TempOf(s.procs[q]))
  }

  predicate Holds(pc: Pc) {
    pc.Filling? || pc.Aborting?
  }

  function TempOf(pc: Pc): nat
    requires Holds(pc)
  {
    if pc.Filling? then pc.job.temp else pc.temp
  }

  /** Toggles write the configuration file; a reconciliation writes the scratch file too. */
  predicate DestOk(c: Setup, op: Op, dest: string) {
    !op.Ensure? && (dest == c.cfg || (op.Reconcile? && dest == Scratch(c.cfg)))
  }

  ghost predicate JobOk(c: Setup, s: State, pc: Pc) {
    match pc
    case Filling(job, stage) =>
      && Temp(job.temp) in s.files && job.temp in s.used
      && (stage == Empty ==> s.files[Temp(job.temp)].data == "")
      && (stage != Empty ==> s.files[Temp(job.temp)].data == job.bytes)
      && (stage == Moded || stage == Shut ==> s.files[Temp(job.temp)].mode == job.perm)
      && DestOk(c, job.op, job.dest)
    case Aborting(temp) => temp in s.used
    case Decided(op, dest, _) => DestOk(c, op, dest)
    case Statted(op, dest, _, _) => DestOk(c, op, dest)
    case _ => true
  }

  /** Suricata runs on the file, unless a restart is outstanding or one failed; or it has never
      been started, and the file is the original.  */
  ghost predicate Consistent(c: Setup, original: string, s: State) {
    Path(c.cfg) in s.files &&
    var data := s.files[Path(c.cfg)].data;
    || s.dirty || (exists p :: p in s.procs && s.procs[p].Pending?)
    || s.running == Some(data) || (s.running == None && data == original)
  }

  /** The job renames its temporary file to the configuration file. */
  predicate Replaces(c: Setup, s: State, e: Event) {
    e.Rename? && e.ok && e.p in s.procs && s.procs[e.p].Filling? && s.procs[e.p].job.dest == c.cfg
  }

  /** Only a rename puts something else into the file, the bytes of its job; its request then
      owes a restart.  */
  lemma FileStep(c: Setup, s: State, e: Event)
    requires Owned(c, s)
    ensures var after := Next(c, s, e);
            && Path(c.cfg) in after.files
            && ((after.files[Path(c.cfg)] == s.files[Path(c.cfg)] && after.last == s.last)
                || (Replaces(c, s, e) && after.files[Path(c.cfg)].data == s.procs[e.p].job.bytes
                    && !s.procs[e.p].job.op.Ensure?
                    && after.last == (if s.procs[e.p].job.op.Switch? then Some(s.procs[e.p].job.op.enable) else None)
                    && after.accepted == s.accepted && e.p in after.procs && after.procs[e.p].Pending?))
  {
    ScratchIsElsewhere(c.cfg);
    hide Scratch, AfterRead, AfterStat;
    if e.p in s.procs {
      assert JobOk(c, s, s.procs[e.p]);
    }
  }

  /** A restart loads the file or is recorded as failed, and a request that owes one does not
      just go away.  */
  lemma RestartSettles(c: Setup, s: State, e: Event)
    requires Path(c.cfg) in s.files
    ensures var after := Next(c, s, e);
            || after.dirty
            || (Path(c.cfg) in after.files && after.running == Some(after.files[Path(c.cfg)].data))
            || (after.running == s.running && !s.dirty
                && (e.p in s.procs && s.procs[e.p].Pending? ==> e.p in after.procs && after.procs[e.p].Pending?))
  {
    hide AfterRead, AfterStat, Created, WithData, WithMode, Renamed, Removed, Scratch;
  }

  lemma OthersStay(c: Setup, s: State, e: Event)
    ensures forall q | q in s.procs && q != e.p :: q in Next(c, s, e).procs && Next(c, s, e).procs[q] == s.procs[q]
  {
    hide AfterRead, AfterStat, Created, WithData, WithMode, Renamed, Removed, Scratch;
  }

  lemma ConsistentStep(c: Setup, original: string, s: State, e: Event)
    requires Owned(c, s) && Consistent(c, original, s)
    ensures Consistent(c, original, Next(c, s, e))
  {
    FileStep(c, s, e);
    RestartSettles(c, s, e);
    OthersStay(c, s, e);
    hide Next, Owned;
    var after := Next(c, s, e);
    if exists q :: q in s.procs && s.procs[q].Pending? {
      var q :| q in s.procs && s.procs[q].Pending?;
      if q != e.p {
        assert q in after.procs && after.procs[q].Pending?;
      }
    }
  }

  /** Requests other than p are where they were. */
  predicate OthersKept(s: State, after: State, p: nat) {
    forall q | q in after.procs && q != p :: q in s.procs && after.procs[q] == s.procs[q]
  }

  lemma NextKeepsOthers(c: Setup, s: State, e: Event)
    ensures OthersKept(s, Next(c, s, e), e.p)
  {
    hide AfterRead, AfterStat, Created, WithData, WithMode, Renamed, Removed;
  }

  /** The files p may touch: its own temporary file, and configured paths by renaming. */
  ghost predicate TempsKept(s: State, after: State, p: nat) {
    && s.used <= after.used
    && (forall id | id in s.used && !(p in s.procs && Holds(s.procs[p]) && TempOf(s.procs[p]) == id) ::
          (Temp(id) in after.files <==> Temp(id) in s.files)
          && (Temp(id) in s.files ==> after.files[Temp(id)] == s.files[Temp(id)]))
    && (forall id | Temp(id) in after.files :: Temp(id) in s.files || id in after.used)
  }

  lemma NextKeepsTemps(c: Setup, s: State, e: Event)
    requires Owned(c, s)
    ensures TempsKept(s, Next(c, s, e), e.p)
  {
    hide AfterRead, AfterStat, Scratch, JobOk;
  }

  lemma JobOkKept(c: Setup, s: State, after: State, p: nat, q: nat)
    requires Owned(c, s) && q in s.procs && q != p && TempsKept(s, after, p)
    ensures JobOk(c, after, s.procs[q])
  {
    assert JobOk(c, s, s.procs[q]);
  }

  /** What a request decides on reading the file is meant for the right place. */
  lemma AfterReadOk(c: Setup, s: State, after: State)
    ensures forall op, ok :: JobOk(c, after, AfterRead(c, s, op, ok))
  {
    hide Decide, PatchBytes, Scratch;
  }

  lemma JobOkStep(c: Setup, s: State, e: Event)
    requires Owned(c, s) && e.p in Next(c, s, e).procs
    ensures JobOk(c, Next(c, s, e), Next(c, s, e).procs[e.p])
  {
    hide Scratch, AfterRead;
    AfterReadOk(c, s, Next(c, s, e));
    if e.p in s.procs {
      assert JobOk(c, s, s.procs[e.p]);
    }
  }

  /** A step takes a new temporary name, or keeps the one its request has. */
  lemma HeldTemp(c: Setup, s: State, e: Event)
    requires e.p in Next(c, s, e).procs && Holds(Next(c, s, e).procs[e.p])
    ensures var t := TempOf(Next(c, s, e).procs[e.p]);
            t !in s.used || (e.p in s.procs && Holds(s.procs[e.p]) && TempOf(s.procs[e.p]) == t)
  {
    hide AfterRead, Created, WithData, WithMode, Renamed, Removed, Scratch;
    AfterReadHolds(c, s);
  }

  lemma AfterReadHolds(c: Setup, s: State)
    ensures forall op, ok :: !Holds(AfterRead(c, s, op, ok))
  {
    hide Decide, PatchBytes;
  }

  lemma OwnedStep(c: Setup, s: State, e: Event)
    requires Owned(c, s)
    ensures Owned(c, Next(c, s, e))
  {
    var after := Next(c, s, e);
    NextKeepsOthers(c, s, e);
    NextKeepsTemps(c, s, e);
    ConfigStays(c, s, e);
    if e.p in after.procs {
      JobOkStep(c, s, e);
      if Holds(after.procs[e.p]) {
        HeldTemp(c, s, e);
      }
    }
    hide Next, JobOk;
    forall q | q in after.procs
      ensures JobOk(c, after, after.procs[q])
    {
      if q != e.p {
        JobOkKept(c, s, after, e.p, q);
      }
    }
    forall q | q in after.procs && Holds(after.procs[q])
      ensures TempOf(after.procs[q]) in after.used
    {
      HeldIsUsed(c, after, q);
    }
    forall q | q in s.procs && Holds(s.procs[q])
      ensures TempOf(s.procs[q]) in s.used
    {
      HeldIsUsed(c, s, q);
    }
  }

  lemma HeldIsUsed(c: Setup, s: State, q: nat)
    requires q in s.procs && JobOk(c, s, s.procs[q]) && Holds(s.procs[q])
    ensures TempOf(s.procs[q]) in s.used
  {
  }

  lemma ConfigStays(c: Setup, s: State, e: Event)
    requires Path(c.cfg) in s.files
    ensures Path(c.cfg) in Next(c, s, e).files
  {
    hide AfterRead, AfterStat, Scratch;
  }
}
