// What exit 0 of the verify loop rests on: two passes, a sweep in between, and
// the time that went by.
module VerifyProofs {
  import opened VerifyHold

  // ----- what the log of a held pass looks like -----

  function FullSweep(n: nat): (r: seq<Event>) {
    if n == 0 then [] else FullSweep(n - 1) + [Checked(n - 1, true)]
  }

  // The log up to its last arming, that arming, and what came after.
  function BeforeArm(log: seq<Event>): (r: seq<Event>)
    ensures r <= log
  {
    if log == [] then [] else if log[|log| - 1].Armed? then log[..|log| - 1] else BeforeArm(log[..|log| - 1])
  }

  function AfterArm(log: seq<Event>): (r: seq<Event>) {
    if log == [] || log[|log| - 1].Armed? then [] else AfterArm(log[..|log| - 1]) + [log[|log| - 1]]
  }

  function LastArm(log: seq<Event>): (at: real) {
    if log == [] then 0.0 else if log[|log| - 1].Armed? then log[|log| - 1].at else LastArm(log[..|log| - 1])
  }

  predicate PassedIn(log: seq<Event>, checks: nat) {
    forall i :: 0 <= i < checks ==> Checked(i, true) in log
  }

  lemma {:induction false} AfterPasses(log: seq<Event>, more: seq<Event>)
    requires forall e :: e in more ==> e.Checked?
    ensures BeforeArm(log + more) == BeforeArm(log)
    ensures AfterArm(log + more) == AfterArm(log) + more
    ensures LastArm(log + more) == LastArm(log)
  {
    if more == [] {
      assert log + more == log;
    } else {
      var init := more[..|more| - 1];
      AfterPasses(log, init);
      assert more[|more| - 1] in more;
      assert (log + more)[..|log + more| - 1] == log + init;
      assert more == init + [more[|more| - 1]];
      assert AfterArm(log) + init + [more[|more| - 1]] == AfterArm(log) + more;
    }
  }

  // ----- one sweep -----

  lemma {:induction false} SweepEvents(results: seq<bool>, ok: nat -> bool, n: nat)
    requires n <= |results|
    ensures forall e :: e in SweepLog(results, ok, n) <==>
              e.Checked? && e.check < n && !results[e.check] && e.ok == ok(e.check)
  {
    if n > 0 { SweepEvents(results, ok, n - 1); }
  }

  // From a clean slate a sweep that leaves everything passed is a full sweep.
  lemma {:induction false} CleanSweep(results: seq<bool>, ok: nat -> bool, n: nat)
    requires n <= |results|
    requires forall i :: 0 <= i < n ==> !results[i] && ok(i)
    ensures SweepLog(results, ok, n) == FullSweep(n)
  {
    if n > 0 { CleanSweep(results, ok, n - 1); }
  }

  // With everything passed a sweep asks nothing.
  lemma {:induction false} IdleSweep(results: seq<bool>, ok: nat -> bool, n: nat)
    requires n <= |results| && AllTrue(results)
    ensures SweepLog(results, ok, n) == []
  {
    if n > 0 { IdleSweep(results, ok, n - 1); }
  }

  // ----- the invariant at the loop head -----

  // Not armed: what has passed is on record, and something has not.
  ghost predicate Searching(s: State) {
    && s.holdUntil == 0.0
    && !AllTrue(s.results)
    && forall i :: 0 <= i < |s.results| && s.results[i] ==> Checked(i, true) in s.log
  }

  // Armed: everything passed before, and since then either nothing was asked
  // or exactly one full sweep passed.
  ghost predicate Holding(hold: real, s: State) {
    && s.holdUntil == LastArm(s.log) + hold
    && s.deadline >= s.holdUntil + 10.0
    && LastArm(s.log) <= s.clock
    && PassedIn(BeforeArm(s.log), |s.results|)
    && (|BeforeArm(s.log)| < |s.log| && s.log[|BeforeArm(s.log)|] == Armed(LastArm(s.log)))
    && ( (AfterArm(s.log) == [] && forall i :: 0 <= i < |s.results| ==> !s.results[i])
       || (AfterArm(s.log) == FullSweep(|s.results|) && AllTrue(s.results)))
  }

  ghost predicate Inv(hold: real, checks: nat, s: State) {
    && |s.results| == checks > 0
    && s.clock > 0.0 && s.clock + hold > 0.0
    && (Searching(s) || (s.holdUntil != 0.0 && Holding(hold, s)))
  }

  lemma {:induction false} ArmPosition(log: seq<Event>, more: seq<Event>)
    requires |BeforeArm(log)| < |log| && log[|BeforeArm(log)|] == Armed(LastArm(log))
    requires forall e :: e in more ==> e.Checked?
    ensures |BeforeArm(log + more)| < |log + more|
    ensures (log + more)[|BeforeArm(log + more)|] == Armed(LastArm(log + more))
  {
    AfterPasses(log, more);
  }

  lemma {:induction false} ArmKeeps(hold: real, checks: nat, s: State, extend: Duration)
    requires |s.results| == checks > 0 && s.clock > 0.0 && s.clock + hold > 0.0
    requires PassedIn(s.log, checks)
    ensures Inv(hold, checks, Arm(s, hold, extend))
  {
    assert (s.log + [Armed(s.clock)])[|s.log|] == Armed(s.clock);
  }

  // A sweep that fails while searching or holding leaves the loop searching.
  lemma {:induction false} LapseKeeps(hold: real, checks: nat, s: State, inp: Inputs)
    requires Inv(hold, checks, s) && !AllTrue(Sweep(s, inp.ok).results)
    ensures Searching(Sweep(s, inp.ok).(holdUntil := 0.0))
  {
    SweepEvents(s.results, inp.ok, checks);
    var s1 := Sweep(s, inp.ok);
    forall i | 0 <= i < checks && s1.results[i] ensures Checked(i, true) in s1.log {
      if s.results[i] {
        assert Searching(s);
      } else {
        assert Checked(i, true) in SweepLog(s.results, inp.ok, checks);
      }
    }
  }

  // A sweep that leaves everything passed: while searching, all passes are on
  // record; while holding, the record since the arming is one full sweep.
  lemma {:induction false} PassingSweep(hold: real, checks: nat, s: State, inp: Inputs)
    requires Inv(hold, checks, s) && AllTrue(Sweep(s, inp.ok).results)
    ensures var s1 := Sweep(s, inp.ok);
            if s.holdUntil == 0.0 then PassedIn(s1.log, checks) else Holding(hold, s1)
  {
    var s1 := Sweep(s, inp.ok);
    SweepEvents(s.results, inp.ok, checks);
    if s.holdUntil == 0.0 {
      forall i | 0 <= i < checks ensures Checked(i, true) in s1.log {
        assert s1.results[i];
        if !s.results[i] { assert Checked(i, true) in SweepLog(s.results, inp.ok, checks); }
      }
    } else {
      var more := SweepLog(s.results, inp.ok, checks);
      AfterPasses(s.log, more);
      ArmPosition(s.log, more);
      if AllTrue(s.results) {
        IdleSweep(s.results, inp.ok, checks);
        assert s1.results == s.results;
      } else {
        forall i | 0 <= i < checks ensures !s.results[i] && inp.ok(i) { assert s1.results[i]; }
        CleanSweep(s.results, inp.ok, checks);
      }
    }
  }

  lemma {:induction false} LateKeeps(hold: real, checks: nat, s: State)
    requires Inv(hold, checks, s) && s.clock >= s.deadline && AllTrue(s.results)
    ensures HeldPass(hold, checks, s)
  {
    assert s.results[0];
  }

  // After a sweep that left everything passed.
  lemma {:induction false} PassingKeeps(hold: real, checks: nat, s: State, inp: Inputs, later: real)
    requires Inv(hold, checks, s) && AllTrue(Sweep(s, inp.ok).results) && later >= s.clock
    ensures var swept := Sweep(s, inp.ok).(clock := later);
            && (s.holdUntil == 0.0 ==> Inv(hold, checks, Arm(swept, hold, inp.extend)))
            && (s.holdUntil != 0.0 && later >= s.holdUntil ==> HeldPass(hold, checks, swept))
            && (s.holdUntil != 0.0 ==> Inv(hold, checks, swept))
            && swept.holdUntil == s.holdUntil
  {
    PassingSweep(hold, checks, s, inp);
    var swept := Sweep(s, inp.ok).(clock := later);
    assert swept.results[0];
    if s.holdUntil == 0.0 { ArmKeeps(hold, checks, swept, inp.extend); }
  }

  lemma {:induction false} GuardedKeeps(hold: real, checks: nat, s: State, inp: Inputs)
    requires Inv(hold, checks, s)
    ensures var r := Guarded(hold, s, inp);
            if r.Live? then Inv(hold, checks, r.state)
            else AllTrue(r.state.results) ==> HeldPass(hold, checks, r.state)
  {
    hide Inv, HeldPass, Arm, AllTrue;
    if s.clock >= s.deadline {
      if AllTrue(s.results) { LateKeeps(hold, checks, s); }
    } else if AllTrue(Sweep(s, inp.ok).results) {
      PassingKeeps(hold, checks, s, inp, s.clock + inp.sweep);
      PassingKeeps(hold, checks, s, inp, s.clock + inp.sweep + POLL + inp.oversleep);
    } else {
      LapseInv(hold, checks, s, inp);
    }
  }

  lemma {:induction false} LaterInv(hold: real, checks: nat, s: State, later: real)
    requires Inv(hold, checks, s) && later >= s.clock
    ensures Inv(hold, checks, s.(clock := later))
  {
  }

  lemma {:induction false} TripKeeps(hold: real, checks: nat, s: State, inp: Inputs)
    requires Inv(hold, checks, s)
    ensures var r := Trip(hold, s, inp);
            if r.Live? then Inv(hold, checks, r.state)
            else AllTrue(r.state.results) ==> HeldPass(hold, checks, r.state)
  {
    hide Guarded, Inv, HeldPass, AllTrue, PassedIn;
    LaterInv(hold, checks, s, s.clock + inp.lag);
    GuardedKeeps(hold, checks, s.(clock := s.clock + inp.lag), inp);
  }

  lemma {:induction false} LapseInv(hold: real, checks: nat, s: State, inp: Inputs)
    requires Inv(hold, checks, s) && !AllTrue(Sweep(s, inp.ok).results)
    ensures Inv(hold, checks,
                Sweep(s, inp.ok).(holdUntil := 0.0, clock := s.clock + inp.sweep + POLL + inp.oversleep))
  {
    LapseKeeps(hold, checks, s, inp);
  }

  // A pass that held: every check passed before the last arming; after it came
  // exactly one full sweep, all passing; and the hold time then went by.
  ghost predicate HeldPass(hold: real, checks: nat, s: State) {
    && PassedIn(BeforeArm(s.log), checks)
    && |BeforeArm(s.log)| < |s.log| && s.log[|BeforeArm(s.log)|] == Armed(LastArm(s.log))
    && AfterArm(s.log) == FullSweep(checks)
    && s.clock - LastArm(s.log) >= hold
  }

  lemma {:induction false} StartInv(hold: real, checks: nat, window: real, clock: real)
    requires checks > 0 && clock > 0.0 && clock + hold > 0.0
    ensures Inv(hold, checks, Start(checks, window, clock))
  {
    assert !Start(checks, window, clock).results[0];
  }

  lemma {:induction false} RunKeeps(hold: real, checks: nat, start: State, env: nat -> Inputs, n: nat)
    requires Inv(hold, checks, start)
    ensures Run(hold, start, env, n).Live? ==> Inv(hold, checks, Run(hold, start, env, n).state)
    ensures Run(hold, start, env, n).Ended? && ExitCode(Run(hold, start, env, n).state) == 0 ==>
              HeldPass(hold, checks, Run(hold, start, env, n).state)
    decreases n
  {
    if n > 0 {
      RunKeeps(hold, checks, start, env, n - 1);
      if Run(hold, start, env, n - 1).Live? {
        TripKeeps(hold, checks, Run(hold, start, env, n - 1).state, env(n - 1));
      }
    }
  }

  // Exit 0 means a held pass, whatever the checks and the clock did.
  lemma {:induction false} ZeroMeansHeld(hold: real, checks: nat, window: real, clock: real, env: nat -> Inputs, n: nat)
    requires checks > 0 && clock > 0.0 && clock + hold > 0.0
    ensures var r := Run(hold, Start(checks, window, clock), env, n);
            r.Ended? && ExitCode(r.state) == 0 ==> HeldPass(hold, checks, r.state)
  {
    StartInv(hold, checks, window, clock);
    RunKeeps(hold, checks, Start(checks, window, clock), env, n);
  }
}
