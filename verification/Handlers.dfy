/** The host agent's handlers taken one at a time (pkg/hostagent/handlers.go): edit the file,
    then restart when it changed; restart when the socket is dead, then wait for it.  */
module Handlers {
  import opened Wrappers
  import opened Toggle
  import opened Disk
  import opened NdpiToggle

  /** What the handlers do to the service: dial its socket, have it restarted, or let it be for
      some milliseconds.  */
  datatype Action = Dialed(at: nat, reachable: bool) | Restarted(ok: bool) | Paused(ms: nat)

  /** The service, the configuration it runs on, the time in milliseconds, and what was done. */
  class Service {
    var running: Option<string>
    var now: nat
    ghost var restartedAt: nat
    ghost var log: seq<Action>

    /** A restart that succeeds has loaded the file; one that fails may leave anything running. */
    method Restart(fs: FileSystem, cfg: Name) returns (ok: bool)
      modifies this
      ensures log == old(log) + [Restarted(ok)] && now >= old(now) && restartedAt == now
      ensures ok ==> cfg in fs.files && running == Some(fs.files[cfg].data)
    {
      ok := *;
      if cfg !in fs.files {
        ok := false;
      }
      log := log + [Restarted(ok)];
      running := *;
      if ok {
        running := Some(fs.files[cfg].data);
      }
      var time: nat :| time >= 0;
      now := now + time;
      restartedAt := now;
    }

    /** Dialing the control socket takes some time. */
    method Connect() returns (reachable: bool)
      modifies this`now, this`log
      ensures log == old(log) + [Dialed(old(now), reachable)] && now >= old(now)
    {
      reachable := *;
      log := log + [Dialed(now, reachable)];
      var time: nat :| time >= 0;
      now := now + time;
    }

    method Pause(ms: nat)
      modifies this`now, this`log
      ensures log == old(log) + [Paused(ms)] && now >= old(now) + ms
    {
      log := log + [Paused(ms)];
      var late: nat :| late >= 0;
      now := now + ms + late;
    }
  }

  datatype Problem = EditFailed(failure: Failure) | RestartFailed

  /** NDPIEnable and NDPIDisable.  The service is restarted exactly when the file was replaced;
      an answer "changed" means it runs on the new file, an answer "unchanged" promises nothing
      about what it runs on.  */
  method SwitchNDPI(fs: FileSystem, service: Service, cfg: string, plugin: string, enable: bool)
    returns (r: Result<Answer, Problem>)
    requires fs.Valid()
    modifies fs, service
    ensures fs.Valid()
    ensures match r
            case Ok(answer) =>
              && answer.enabledAfter == enable && old(fs.Readable(Path(cfg)))
              && var d := Decide(old(fs.files[Path(cfg)].data), plugin, enable);
                 d.Ok? && answer.changed == d.value.Replace?
                 && (match d.value
                     case Keep =>
                       fs.files == old(fs.files) && service.log == old(service.log) && service.running == old(service.running)
                     case Replace(bytes) =>
                       service.log == old(service.log) + [Restarted(true)] && service.running == Some(bytes)
                       && var mode := if Path(cfg) in fs.unstatable then 420 else old(fs.files)[Path(cfg)].mode;
                          fs.files == old(fs.files)[Path(cfg) := File(bytes, mode)])
            case Err(EditFailed(_)) =>
              service.log == old(service.log) && service.running == old(service.running)
              && (Path(cfg) in fs.files <==> Path(cfg) in old(fs.files))
              && (Path(cfg) in fs.files ==> fs.files[Path(cfg)] == old(fs.files)[Path(cfg)])
              && (fs.stuck == {} ==> fs.files == old(fs.files))
              && (fs.reliable && old(fs.Readable(Path(cfg))) ==> Decide(old(fs.files[Path(cfg)].data), plugin, enable).Err?)
            case Err(RestartFailed) =>
              service.log == old(service.log) + [Restarted(false)] && old(fs.Readable(Path(cfg)))
              && var d := Decide(old(fs.files[Path(cfg)].data), plugin, enable);
                 d.Ok? && d.value.Replace? && Path(cfg) in fs.files && fs.files[Path(cfg)].data == d.value.bytes
  {
    hide Decide, Intact;
    ghost var temp;
    var answer;
    answer, temp := SetNDPIEnabled(fs, cfg, plugin, enable);
    if answer.Err? {
      return Err(EditFailed(answer.error));
    }
    if answer.value.changed {
      var ok := service.Restart(fs, Path(cfg));
      if !ok {
        return Err(RestartFailed);
      }
    }
    return Ok(answer.value);
  }

  const POLL_INTERVAL: nat := 250   // milliseconds

  datatype Ensured = AlreadyRunning | Started | CouldNotRestart | NotReady

  /** Polls and pauses in turn, from `done[2]` on; all polls are in time, and in vain but for the
      last one of `polls`, if `found`.  */
  predicate Polled(done: seq<Action>, deadline: nat, found: bool) {
    forall k | 2 <= k < |done| ::
      if k % 2 == 0 then
        done[k].Dialed? && done[k].at < deadline && (done[k].reachable <==> found && k == |done| - 1)
      else done[k] == Paused(250)
  }

  lemma NextPoll(done: seq<Action>, at: nat, deadline: nat)
    requires |done| >= 2 && |done| % 2 == 0 && Polled(done, deadline, false) && at < deadline
    ensures Polled(done + [Dialed(at, true)], deadline, true)
    ensures Polled(done + [Dialed(at, false)] + [Paused(250)], deadline, false)
  {
  }

  lemma Behind(log: seq<Action>, start: nat, action: Action)
    requires start <= |log|
    ensures (log + [action])[start..] == log[start..] + [action]
  {
  }

  /** SuricataEnsure.  The first thing it does is to dial.  A reachable service is left alone;
      otherwise there is exactly one restart, and after it a poll every 250 ms until one is answered
      or the deadline has passed, which counts from the restart.  */
  method SuricataEnsure(fs: FileSystem, service: Service, cfg: Name, timeout: nat) returns (r: Ensured, polls: nat)
    modifies service
    ensures old(service.log) < service.log
    ensures var done := service.log[|old(service.log)|..];
            && done[0].Dialed? && (done[0].reachable <==> r == AlreadyRunning)
            && (r == AlreadyRunning ==> |done| == 1)
            && (r != AlreadyRunning ==> |done| >= 2 && done[1] == Restarted(r != CouldNotRestart))
            && (r == CouldNotRestart ==> |done| == 2)
            && Polled(done, service.restartedAt + timeout, r == Started)
            && (r == Started ==> |done| == 2 + 2 * polls + 1 && polls * 250 < timeout)
            && (r == NotReady ==> |done| == 2 + 2 * polls && service.now >= service.restartedAt + timeout)
            && (r == NotReady && timeout > 0 ==> polls >= 1 && (polls - 1) * 250 < timeout)
    ensures r == AlreadyRunning ==> service.running == old(service.running)
    ensures r == Started || r == NotReady ==> cfg in fs.files && service.running == Some(fs.files[cfg].data)
  {
    polls := 0;
    var reachable := service.Connect();
    if reachable {
      return AlreadyRunning, polls;
    }
    var ok := service.Restart(fs, cfg);
    if !ok {
      return CouldNotRestart, polls;
    }
    var deadline := service.now + timeout;
    ghost var start := |old(service.log)|;
    while service.now < deadline
      invariant old(service.log) <= service.log && |service.log| == start + 2 + 2 * polls
      invariant service.now >= service.restartedAt + polls * 250
      invariant polls >= 1 ==> (polls - 1) * 250 < timeout
      invariant polls == 0 ==> service.now == service.restartedAt
      invariant service.log[start].Dialed? && !service.log[start].reachable && service.log[start + 1] == Restarted(true)
      invariant Polled(service.log[start..], deadline, false) && service.restartedAt + timeout == deadline
      invariant cfg in fs.files && service.running == Some(fs.files[cfg].data)
      decreases deadline - service.now
    {
      ghost var log, at := service.log, service.now;
      NextPoll(log[start..], at, deadline);
      var up := service.Connect();
      Behind(log, start, Dialed(at, up));
      if up {
        return Started, polls;
      }
      polls := polls + 1;
      service.Pause(POLL_INTERVAL);
      Behind(log + [Dialed(at, false)], start, Paused(250));
    }
    return NotReady, polls;
  }
}
