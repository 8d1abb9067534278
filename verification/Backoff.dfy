/** The readiness probe's backoff (pkg/hostagent/suricata_ready.go), in nanoseconds. */
module Backoff {
  import opened Wrappers

  const INITIAL := 150000000.0       // 150 ms
  const CAP: int := 2000000000       // 2 s
  const INT64_LIMIT := 9223372036854775808.0

  /** float64(initial) * 1.5^k, with exact arithmetic; up to k = 6 it is an integer. */
  function Growth(k: nat): (g: real)
    ensures g >= INITIAL
  {
    if k == 0 then INITIAL else 1.5 * Growth(k - 1)
  }

  /** The sleep after attempt n.  Where the product no longer fits a Duration, Go does not say
      what the conversion gives: `any` stands for it.  */
  function Sleep(n: nat, any: int): int
    requires n >= 1
  {
    var g := Growth(n - 1);
    var d := if g < INT64_LIMIT then g.Floor else any;
    if d > CAP then CAP else d
  }

  /** The last attempt whose sleep is determined. */
  const LAST: nat := 62

  lemma Ten(k: nat)
    ensures Growth(k + 10) == 57.6650390625 * Growth(k)
  {
    assert Growth(k + 2) == 2.25 * Growth(k);
    assert Growth(k + 4) == 2.25 * Growth(k + 2);
    assert Growth(k + 6) == 2.25 * Growth(k + 4);
    assert Growth(k + 8) == 2.25 * Growth(k + 6);
    assert Growth(k + 10) == 2.25 * Growth(k + 8);
  }

  lemma {:induction false} GrowthIncreases(j: nat, k: nat)
    requires j <= k
    ensures Growth(j) <= Growth(k)
  {
    if j < k {
      GrowthIncreases(j, k - 1);
    }
  }

  lemma Sixty()
    ensures 5.5e18 < Growth(60) < 5.6e18
  {
    hide Growth;
    Ten(0);
    Ten(10);
    Ten(20);
    Ten(30);
    Ten(40);
    Ten(50);
    assert Growth(0) == INITIAL by { Zero(); }
    assert 8.6e9 < Growth(10) < 8.7e9;
    assert 4.98e11 < Growth(20) < 4.99e11;
    assert 2.876e13 < Growth(30) < 2.877e13;
    assert 1.658e15 < Growth(40) < 1.659e15;
    assert 9.563e16 < Growth(50) < 9.565e16;
  }

  lemma Zero()
    ensures Growth(0) == INITIAL
  {
  }

  /** The overflow comes exactly with attempt 63. */
  lemma OverflowPoint(n: nat)
    requires n >= 1
    ensures Growth(n - 1) < 9223372036854775808.0 <==> n <= LAST == 62
  {
    Sixty();
    assert Growth(61) == 1.5 * Growth(60) && Growth(62) == 1.5 * Growth(61);
    hide Growth;
    if n <= LAST {
      GrowthIncreases(n - 1, 61);
    } else {
      GrowthIncreases(62, n - 1);
    }
  }

  /** Determined sleeps are 150 ms times 1.5^(n-1), but at most 2 s; positive, nondecreasing,
      and 2 s from the eighth on.  */
  lemma SleepBounds(n: nat, any: int, other: int)
    requires 1 <= n <= LAST
    ensures Sleep(n, any) == Sleep(n, other) == (if Growth(n - 1).Floor > 2000000000 then 2000000000 else Growth(n - 1).Floor)
    ensures 150000000 <= Sleep(n, any) <= 2000000000
    ensures n < LAST ==> Sleep(n, any) <= Sleep(n + 1, any)
    ensures n >= 8 ==> Sleep(n, any) == 2000000000
  {
    OverflowPoint(n);
    OverflowPoint(n + 1);
    GrowthIncreases(n - 1, n);
    if n >= 8 {
      FirstSleeps();
      GrowthIncreases(7, n - 1);
    }
  }

  lemma FirstSleeps()
    ensures Growth(1) == 225000000.0 && Growth(2) == 337500000.0 && Growth(3) == 506250000.0
    ensures Growth(4) == 759375000.0 && Growth(5) == 1139062500.0 && Growth(6) == 1708593750.0
    ensures Growth(7) == 2562890625.0
  {
    assert Growth(1) == 1.5 * Growth(0);
    assert Growth(2) == 1.5 * Growth(1);
    assert Growth(3) == 1.5 * Growth(2);
    assert Growth(4) == 1.5 * Growth(3);
    assert Growth(5) == 1.5 * Growth(4);
    assert Growth(6) == 1.5 * Growth(5);
    assert Growth(7) == 1.5 * Growth(6);
  }

  /** Time slept before probe m + 1 starts, at least. */
  function Slept(m: nat): int {
    if m == 0 then 0 else Slept(m - 1) + Sleep(m, 0)
  }

  lemma {:induction false} SleptIncreases(j: nat, k: nat)
    requires j <= k <= LAST
    ensures Slept(j) + 150000000 * (k - j) <= Slept(k)
  {
    hide Sleep;
    if j < k {
      SleepBounds(k, 0, 0);
      SleptIncreases(j, k - 1);
    }
  }

  lemma SleptSix()
    ensures Slept(6) == 3117187500
  {
    FirstSleeps();
    forall n | 1 <= n <= 6
      ensures Sleep(n, 0) == Growth(n - 1).Floor
    {
      SleepBounds(n, 0, 0);
      GrowthIncreases(n - 1, 5);
    }
    assert Growth(0).Floor == 150000000 && Growth(1).Floor == 225000000 && Growth(2).Floor == 337500000;
    assert Growth(3).Floor == 506250000 && Growth(4).Floor == 759375000 && Growth(5).Floor == 1139062500;
    assert Slept(3) == Slept(2) + Sleep(3, 0) && Slept(2) == Slept(1) + Sleep(2, 0) && Slept(1) == Slept(0) + Sleep(1, 0);
    assert Slept(6) == Slept(5) + Sleep(6, 0) && Slept(5) == Slept(4) + Sleep(5, 0) && Slept(4) == Slept(3) + Sleep(4, 0);
  }

  function Min(a: int, b: int): int {
    if a < b then a else b
  }

  /** What a probe answers, and how long it takes; running a command takes some time. */
  datatype Probe = Ready | NotYet | Failed(error: string)

  /** The time since the call in nanoseconds, the probes with the times they started at and their
      answers, and the lengths the timers were set to.  */
  class Clock {
    var now: int
    ghost var starts: seq<int>
    ghost var answers: seq<Probe>
    ghost var timers: seq<int>

    ghost predicate Begins()
      reads this
    {
      now == 0 && starts == [] && answers == [] && timers == []
    }

    method RunProbe() returns (p: Probe)
      modifies this
      ensures now > old(now) && starts == old(starts) + [old(now)] && answers == old(answers) + [p] && timers == old(timers)
    {
      starts := starts + [now];
      var ready: bool := *;
      var failed: bool := *;
      var error: string := *;
      p := if ready then Ready else if failed then Failed(error) else NotYet;
      answers := answers + [p];
      var time :| time >= 1;
      now := now + time;
    }

    /** The timer or the deadline, whichever comes first; the goroutine may wake up late. */
    method Wait(length: int, deadline: int)
      modifies this
      ensures now >= if length <= 0 then old(now) else Min(old(now) + length, if old(now) < deadline then deadline else old(now))
      ensures timers == old(timers) + [length] && starts == old(starts) && answers == old(answers)
    {
      timers := timers + [length];
      var late :| late >= 0;
      now := (if length <= 0 then now else Min(now + length, if now < deadline then deadline else now)) + late;
    }
  }

  /** The error of the last probe that failed, if one did. */
  predicate IsLastError(answers: seq<Probe>, e: Option<string>) {
    match e
    case None => forall k | 0 <= k < |answers| :: !answers[k].Failed?
    case Some(error) =>
      exists k | 0 <= k < |answers| ::
        answers[k] == Failed(error) && forall j | k < j < |answers| :: !answers[j].Failed?
  }

  lemma LaterError(answers: seq<Probe>, e: Option<string>, p: Probe)
    requires IsLastError(answers, e)
    ensures IsLastError(answers + [p], if p.Failed? then Some(p.error) else e)
  {
    var more := answers + [p];
    if p.Failed? {
      assert more[|answers|] == Failed(p.error);
    } else if e.Some? {
      var k :| 0 <= k < |answers| && answers[k] == Failed(e.value) && forall j | k < j < |answers| :: !answers[j].Failed?;
      assert more[k] == answers[k];
    }
  }

  predicate NoneReady(answers: seq<Probe>) {
    forall k | 0 <= k < |answers| :: !answers[k].Ready?
  }

  /** Each probe starts before the deadline and after the sleeps of the probes before it. */
  predicate Paced(starts: seq<int>, maxWait: nat) {
    forall k | 0 <= k < |starts| :: Slept(Min(k, LAST)) <= starts[k] < maxWait
  }

  /** The timer behind probe k is set to the k-th sleep, as long as that is determined. */
  predicate Timed(timers: seq<int>) {
    forall k | 0 <= k < |timers| :: timers[k] <= 2000000000 && (k < LAST ==> timers[k] == Sleep(k + 1, 0))
  }

  /** waitSuricataReady, from time 0 to the deadline, which is the caller's, `parent`, if that
      comes first.  It ends for every wait: with success exactly when a probe answers "ready",
      the last one made; otherwise with the deadline passed and the error of the last probe
      that failed, if one did.  Between two probes it sets a timer to the next sleep.  */
  method WaitSuricataReady(clock: Clock, maxWait: nat, parent: nat) returns (r: Result<(), Option<string>>, probes: nat)
    requires clock.Begins()
    modifies clock
    ensures maxWait == 0 || parent == 0 ==> r == Err(None) && probes == 0
    ensures maxWait > 0 && parent > 0 ==> probes >= 1 && Slept(Min(probes - 1, LAST)) < Min(maxWait, parent)
    ensures probes == |clock.starts| == |clock.answers| && Paced(clock.starts, Min(maxWait, parent))
    ensures Timed(clock.timers) && |clock.timers| == if r.Ok? then probes - 1 else probes
    ensures r.Ok? ==> clock.answers != [] && clock.answers[|clock.answers| - 1].Ready? && NoneReady(clock.answers[..|clock.answers| - 1])
    ensures r.Err? ==> clock.now >= Min(maxWait, parent) && NoneReady(clock.answers) && IsLastError(clock.answers, r.error)
  {
    hide Sleep, Slept;
    var deadline: nat := Min(maxWait, parent);
    var attempt := 1;
    var lastErr: Option<string> := None;
    SleptNothing();
    while true
      invariant attempt == |clock.answers| + 1 && |clock.starts| == |clock.answers| == |clock.timers| && clock.now >= 0
      invariant Slept(Min(attempt - 1, LAST)) <= clock.now || deadline <= clock.now
      invariant Paced(clock.starts, deadline) && NoneReady(clock.answers) && IsLastError(clock.answers, lastErr)
      invariant Timed(clock.timers)
      invariant if clock.answers == [] then clock.now == 0 else deadline > 0
      decreases deadline - clock.now
    {
      if clock.now >= deadline {
        if clock.starts != [] {
          ProbeStart(clock.starts, deadline, |clock.starts| - 1);
        }
        return Err(lastErr), attempt - 1;
      }
      ghost var before := clock.answers;
      var p := clock.RunProbe();
      assert clock.answers[..|before|] == before;
      if p.Ready? {
        ProbeStart(clock.starts, deadline, |clock.starts| - 1);
        return Ok(()), attempt;
      }
      LaterError(before, lastErr, p);
      if p.Failed? {
        lastErr := Some(p.error);
      }
      var any: int := *;
      var sleep := Sleep(attempt, any);
      NextSleep(attempt, any);
      clock.Wait(sleep, deadline);
      attempt := attempt + 1;
    }
  }

  lemma SleptNothing()
    ensures Slept(0) == 0
  {
  }

  lemma NextSleep(n: nat, any: int)
    requires n >= 1
    ensures n <= LAST ==> Slept(n) == Slept(n - 1) + Sleep(n, any) && Sleep(n, any) > 0 && Sleep(n, any) == Sleep(n, 0)
    ensures Sleep(n, any) <= 2000000000
  {
    hide Growth;
    if n <= LAST {
      SleepBounds(n, any, 0);
    }
  }

  lemma ProbeStart(starts: seq<int>, maxWait: nat, k: nat)
    requires Paced(starts, maxWait) && k < |starts|
    ensures Slept(Min(k, LAST)) < maxWait
  {
    hide Slept;
    assert Slept(Min(k, LAST)) <= starts[k];
  }

  /** As long as the sleeps are determined there is at most one probe per 150 ms. */
  lemma ProbesAreRare(starts: seq<int>, maxWait: nat)
    requires Paced(starts, maxWait) && 1 <= |starts| <= LAST
    ensures 150000000 * (|starts| - 1) < maxWait
  {
    hide Slept;
    ProbeStart(starts, maxWait, |starts| - 1);
    SleptNothing();
    SleptIncreases(0, |starts| - 1);
  }

  /** The only caller waits at most three seconds: at most six probes. */
  lemma SixProbes(starts: seq<int>, deadline: nat)
    requires Paced(starts, deadline) && deadline <= 3000000000
    ensures |starts| <= 6
  {
    hide Slept, Paced;
    SleptSix();
    if |starts| > 6 {
      ProbeStart(starts, deadline, 6);
    }
  }
}
