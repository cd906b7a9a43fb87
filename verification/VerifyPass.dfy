// Exit 0 is exactly a held pass, and checks that go on passing reach one.
module VerifyPass {
  import opened VerifyHold
  import opened VerifyProofs
  import opened VerifyEnd

  // ----- a lapse shows in the log -----

  ghost predicate NeverArmed(log: seq<Event>) { forall e :: e in log ==> e.Checked? }

  ghost predicate FailedSince(log: seq<Event>) { exists e :: e in AfterArm(log) && e.Checked? && !e.ok }

  // Not armed any more means that a check has failed since the arming.
  ghost predicate Shows(s: State) { s.holdUntil == 0.0 ==> NeverArmed(s.log) || FailedSince(s.log) }

  lemma {:induction false} FullSweepPasses(n: nat)
    ensures |FullSweep(n)| == n && forall e :: e in FullSweep(n) ==> e.Checked? && e.ok
    decreases n
  {
    if n > 0 { FullSweepPasses(n - 1); }
  }

  lemma {:induction false} NothingBefore(log: seq<Event>)
    requires NeverArmed(log)
    ensures BeforeArm(log) == []
    decreases |log|
  {
    if log != [] {
      assert log[|log| - 1] in log;
      NothingBefore(log[..|log| - 1]);
    }
  }

  // So a state that is not armed is none that has held.
  lemma {:induction false} LapsedIsNoPass(hold: real, checks: nat, s: State)
    requires Shows(s) && s.holdUntil == 0.0
    ensures !HeldPass(hold, checks, s)
  {
    FullSweepPasses(checks);
    if NeverArmed(s.log) {
      NothingBefore(s.log);
      if |s.log| > 0 { assert s.log[0] in s.log; }
    }
  }

  // And one that is armed has held only if every check stands as passed.
  lemma {:induction false} ArmedPass(hold: real, checks: nat, s: State)
    requires Inv(hold, checks, s) && s.holdUntil != 0.0 && HeldPass(hold, checks, s)
    ensures AllTrue(s.results)
  {
    FullSweepPasses(checks);
  }

  lemma {:induction false} SweepShows(s: State, ok: nat -> bool)
    requires Shows(s)
    ensures Shows(Sweep(s, ok))
    ensures Sweep(s, ok).holdUntil == s.holdUntil
  {
    var more := SweepLog(s.results, ok, |s.results|);
    SweepEvents(s.results, ok, |s.results|);
    AfterPasses(s.log, more);
    if s.holdUntil == 0.0 && FailedSince(s.log) {
      var e :| e in AfterArm(s.log) && e.Checked? && !e.ok;
      assert e in AfterArm(s.log + more);
    }
  }

  // A sweep that breaks a hold has met a failing check.
  lemma {:induction false} LapseShows(hold: real, checks: nat, s: State, ok: nat -> bool)
    requires Inv(hold, checks, s) && s.holdUntil != 0.0 && !AllTrue(Sweep(s, ok).results)
    ensures FailedSince(Sweep(s, ok).log)
  {
    var more := SweepLog(s.results, ok, checks);
    SweepEvents(s.results, ok, checks);
    AfterPasses(s.log, more);
    var i :| 0 <= i < checks && !Sweep(s, ok).results[i];
    assert Checked(i, false) in more;
    assert Checked(i, false) in AfterArm(s.log + more);
  }

  lemma {:induction false} TripShows(hold: real, checks: nat, s: State, inp: Inputs)
    requires Inv(hold, checks, s) && Shows(s)
    ensures var r := Trip(hold, s, inp);
            if r.Live? then Shows(r.state) else HeldPass(hold, checks, r.state) ==> AllTrue(r.state.results)
  {
    var head := s.(clock := s.clock + inp.lag);
    LaterInv(hold, checks, s, s.clock + inp.lag);
    if head.clock >= head.deadline {
      if head.holdUntil == 0.0 { LapsedIsNoPass(hold, checks, head); }
      else if HeldPass(hold, checks, head) { ArmedPass(hold, checks, head); }
    } else {
      hide Inv, HeldPass, AllTrue, FailedSince, NeverArmed, SweepLog, AfterArm, BeforeArm, LastArm;
      SweepShows(head, inp.ok);
      var swept := Sweep(head, inp.ok);
      if !AllTrue(swept.results) {
        if head.holdUntil != 0.0 { LapseShows(hold, checks, head, inp.ok); }
      } else if head.holdUntil == 0.0 {
        assert swept.clock + inp.sweep + hold != 0.0 by { ArmingTime(hold, checks, head, inp); }
      }
    }
  }

  lemma {:induction false} ArmingTime(hold: real, checks: nat, s: State, inp: Inputs)
    requires Inv(hold, checks, s)
    ensures s.clock + inp.sweep + hold > 0.0
  {
  }

  lemma {:induction false} RunShows(hold: real, checks: nat, start: State, env: nat -> Inputs, n: nat)
    requires Inv(hold, checks, start) && Shows(start)
    ensures var r := Run(hold, start, env, n);
            if r.Live? then Shows(r.state) else HeldPass(hold, checks, r.state) ==> AllTrue(r.state.results)
    decreases n
  {
    hide Inv, HeldPass, AllTrue, Trip, Shows;
    if n > 0 {
      RunShows(hold, checks, start, env, n - 1);
      RunKeeps(hold, checks, start, env, n - 1);
      if Run(hold, start, env, n - 1).Live? {
        TripShows(hold, checks, Run(hold, start, env, n - 1).state, env(n - 1));
      }
    }
  }

  // Exit 0 is exactly a held pass, whatever the checks and the clock did.
  lemma {:induction false} ZeroIffHeld(hold: real, checks: nat, window: real, clock: real, env: nat -> Inputs, n: nat)
    requires checks > 0 && clock > 0.0 && clock + hold > 0.0
    requires Run(hold, Start(checks, window, clock), env, n).Ended?
    ensures var s := Run(hold, Start(checks, window, clock), env, n).state;
            ExitCode(s) == 0 <==> HeldPass(hold, checks, s)
  {
    hide Run, HeldPass, Inv;
    StartInv(hold, checks, window, clock);
    ZeroMeansHeld(hold, checks, window, clock, env, n);
    RunShows(hold, checks, Start(checks, window, clock), env, n);
  }

  // ----- a held pass is reached -----

  // Every check passes whenever it is asked.
  ghost predicate AlwaysPass(env: nat -> Inputs, checks: nat) {
    forall m: nat, i: nat :: i < checks ==> env(m).ok(i)
  }

  // A sleep and the way to the next trip's clock take no more than ten seconds.
  ghost predicate Prompt(env: nat -> Inputs) { forall m: nat :: env(m).oversleep + env(m + 1).lag <= 8.0 }

  lemma {:induction false} AllPass(s: State, ok: nat -> bool)
    requires forall i: nat :: i < |s.results| ==> ok(i)
    ensures AllTrue(Sweep(s, ok).results)
  {
  }

  // Armed, with the deadline ten seconds beyond the hold, and at this trip's
  // head still before it.
  ghost predicate Waiting(hold: real, checks: nat, s: State, lag: Duration) {
    && |s.results| == checks && s.holdUntil != 0.0
    && s.deadline >= s.holdUntil + 10.0 && s.clock + lag < s.deadline
  }

  // How many sleeps the hold may still take.
  function Sleeps(s: State): (n: nat) { if s.holdUntil <= s.clock then 0 else (s.holdUntil - s.clock).Floor + 1 }

  lemma {:induction false} WaitOn(hold: real, checks: nat, s: State, inp: Inputs, next: Inputs)
    requires Waiting(hold, checks, s, inp.lag) && inp.oversleep + next.lag <= 8.0
    requires forall i: nat :: i < checks ==> inp.ok(i)
    ensures var r := Trip(hold, s, inp);
            if r.Ended? then ExitCode(r.state) == 0
            else Waiting(hold, checks, r.state, next.lag) && Sleeps(r.state) < Sleeps(s)
  {
    var head := s.(clock := s.clock + inp.lag);
    AllPass(head, inp.ok);
    hide Sweep, AllTrue;
    SweepKeepsTimes(head, inp.ok);
  }

  lemma {:induction false} SweepKeepsTimes(s: State, ok: nat -> bool)
    ensures var t := Sweep(s, ok);
            && t.holdUntil == s.holdUntil && t.deadline == s.deadline && t.clock == s.clock
            && |t.results| == |s.results|
  {
  }

  // If every check always passes and nothing dawdles, the loop ends with exit 0.
  lemma {:induction false} PassIsReached(hold: real, checks: nat, window: real, clock: real, env: nat -> Inputs)
    returns (n: nat)
    requires checks > 0 && hold >= 0.0 && clock > 0.0 && env(0).lag < window
    requires AlwaysPass(env, checks) && Prompt(env)
    ensures var r := Run(hold, Start(checks, window, clock), env, n); r.Ended? && ExitCode(r.state) == 0
  {
    hide Trip, ExitCode, Waiting;
    var start := Start(checks, window, clock);
    assert Run(hold, start, env, 0) == Live(start);
    FirstArms(hold, checks, window, clock, env(0), env(1)) by {
      assert env(0).oversleep + env(0 + 1).lag <= 8.0;
      assert forall i: nat :: i < checks ==> env(0).ok(i);
    }
    assert Run(hold, start, env, 1) == Trip(hold, start, env(0));
    n := HoldOn(hold, checks, start, env, 1);
  }

  lemma {:induction false} FirstArms(hold: real, checks: nat, window: real, clock: real, inp: Inputs, next: Inputs)
    requires checks > 0 && hold >= 0.0 && clock > 0.0 && inp.lag < window && inp.oversleep + next.lag <= 8.0
    requires forall i: nat :: i < checks ==> inp.ok(i)
    ensures var r := Trip(hold, Start(checks, window, clock), inp);
            r.Live? && Waiting(hold, checks, r.state, next.lag)
  {
    AllPass(Start(checks, window, clock).(clock := clock + inp.lag), inp.ok);
    hide Sweep, AllTrue;
    SweepKeepsTimes(Start(checks, window, clock).(clock := clock + inp.lag), inp.ok);
  }

  lemma {:induction false} HoldOn(hold: real, checks: nat, start: State, env: nat -> Inputs, m: nat) returns (n: nat)
    requires AlwaysPass(env, checks) && Prompt(env)
    requires Run(hold, start, env, m).Live? && Waiting(hold, checks, Run(hold, start, env, m).state, env(m).lag)
    ensures var r := Run(hold, start, env, n); r.Ended? && ExitCode(r.state) == 0
    decreases Sleeps(Run(hold, start, env, m).state)
  {
    hide Trip, ExitCode, Waiting, Sleeps;
    var s := Run(hold, start, env, m).state;
    assert env(m).oversleep + env(m + 1).lag <= 8.0;
    assert forall i: nat :: i < checks ==> env(m).ok(i);
    WaitOn(hold, checks, s, env(m), env(m + 1));
    assert Run(hold, start, env, m + 1) == Trip(hold, s, env(m));
    if Run(hold, start, env, m + 1).Ended? { n := m + 1; } else { n := HoldOn(hold, checks, start, env, m + 1); }
  }
}
