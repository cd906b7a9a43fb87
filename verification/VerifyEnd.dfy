// How long the verify loop can go on: its deadline slides with every arming, so
// it ends in time unless it arms for ever, and a flapping check makes it do so.
module VerifyEnd {
  import opened VerifyHold
  import opened VerifyProofs

  // ----- how long the loop can go on -----

  function Armings(log: seq<Event>): (n: nat) {
    if log == [] then 0 else Armings(log[..|log| - 1]) + if log[|log| - 1].Armed? then 1 else 0
  }

  lemma {:induction false} ArmingsAfter(log: seq<Event>, more: seq<Event>)
    requires forall e :: e in more ==> e.Checked?
    ensures Armings(log + more) == Armings(log)
  {
    if more == [] {
      assert log + more == log;
    } else {
      ArmingsAfter(log, more[..|more| - 1]);
      assert more[|more| - 1] in more;
      assert (log + more)[..|log + more| - 1] == log + more[..|more| - 1];
    }
  }

  lemma {:induction false} SweepQuiet(s: State, ok: nat -> bool)
    ensures Armings(Sweep(s, ok).log) == Armings(s.log) && LastArm(Sweep(s, ok).log) == LastArm(s.log)
    ensures Sweep(s, ok).deadline == s.deadline
  {
    SweepEvents(s.results, ok, |s.results|);
    ArmingsAfter(s.log, SweepLog(s.results, ok, |s.results|));
    AfterPasses(s.log, SweepLog(s.results, ok, |s.results|));
  }

  lemma {:induction false} ArmCounts(s: State, hold: real, extend: Duration)
    ensures Armings(Arm(s, hold, extend).log) == Armings(s.log) + 1 && LastArm(Arm(s, hold, extend).log) == s.clock
    ensures Arm(s, hold, extend).deadline == Max(s.deadline, s.clock + extend + hold + 10.0)
    ensures Arm(s, hold, extend).clock == s.clock + extend
  {
    assert (s.log + [Armed(s.clock)])[..|s.log|] == s.log;
  }

  // A trip that lives on either arms or sleeps, and only arming moves the
  // deadline: to hold + 10 seconds past the arming, if that is later.
  lemma {:induction false} TripAdvances(hold: real, s: State, inp: Inputs)
    ensures var r := Trip(hold, s, inp);
            r.Live? ==>
              && s.clock < s.deadline
              && r.state.clock >= s.clock
              && if Armings(r.state.log) == Armings(s.log)
                 then r.state.clock >= s.clock + POLL && r.state.deadline == s.deadline
                      && LastArm(r.state.log) == LastArm(s.log)
                 else Armings(r.state.log) == Armings(s.log) + 1
                      && r.state.deadline == Max(s.deadline, LastArm(r.state.log) + inp.extend + hold + 10.0)
                      && s.clock <= LastArm(r.state.log) <= r.state.clock
  {
    hide Sweep, Arm, Armings, LastArm, AllTrue, Max;
    var head := s.(clock := s.clock + inp.lag);
    if head.clock < head.deadline {
      SweepQuiet(head, inp.ok);
      ArmCounts(Sweep(head, inp.ok).(clock := head.clock + inp.sweep), hold, inp.extend);
    }
  }

  // The deadline is never later than the first one or the last arming plus the
  // hold, ten seconds and the time between the two clock readings of an arming.
  ghost predicate Slid(hold: real, first: real, slack: real, s: State) {
    && (Armings(s.log) == 0 ==> s.deadline == first)
    && (Armings(s.log) > 0 ==>
          LastArm(s.log) <= s.clock && s.deadline <= Max(first, LastArm(s.log) + slack + hold + 10.0))
  }

  lemma {:induction false} SlidKeeps(hold: real, first: real, slack: real, s: State, inp: Inputs)
    requires Slid(hold, first, slack, s) && inp.extend <= slack
    ensures Trip(hold, s, inp).Live? ==> Slid(hold, first, slack, Trip(hold, s, inp).state)
  {
    TripAdvances(hold, s, inp);
  }

  lemma {:induction false} DeadlineSlides(hold: real, checks: nat, window: real, clock: real, slack: real,
                                          env: nat -> Inputs, n: nat)
    requires forall m: nat :: env(m).extend <= slack
    ensures var r := Run(hold, Start(checks, window, clock), env, n);
            r.Live? ==> Slid(hold, clock + window, slack, r.state)
    decreases n
  {
    if n > 0 {
      DeadlineSlides(hold, checks, window, clock, slack, env, n - 1);
      var before := Run(hold, Start(checks, window, clock), env, n - 1);
      if before.Live? {
        assert env(n - 1).extend <= slack;
        SlidKeeps(hold, clock + window, slack, before.state, env(n - 1));
      }
    }
  }

  // From one guard to the next no more than `trip` goes by.
  ghost predicate Paced(env: nat -> Inputs, trip: real) {
    && env(0).lag <= trip
    && forall m: nat :: env(m).sweep + env(m).extend + POLL + env(m).oversleep + env(m + 1).lag <= trip
  }

  lemma {:induction false} TripTakes(hold: real, s: State, inp: Inputs)
    ensures var r := Trip(hold, s, inp);
            if r.Live? then
              && s.clock + inp.lag < s.deadline <= r.state.deadline
              && r.state.clock <= s.clock + inp.lag + inp.sweep + inp.extend + POLL + inp.oversleep
            else
              && Armings(r.state.log) == Armings(s.log) && LastArm(r.state.log) == LastArm(s.log)
              && (r.state.clock == s.clock + inp.lag || r.state.clock < s.deadline + inp.sweep)
  {
    hide Sweep, Armings, LastArm, AllTrue;
    var head := s.(clock := s.clock + inp.lag);
    SweepQuiet(head, inp.ok);
    assert POLL == 2.0;
  }

  lemma {:induction false} LiveInTime(hold: real, start: State, trip: real, env: nat -> Inputs, n: nat)
    requires Paced(env, trip)
    ensures var r := Run(hold, start, env, n);
            r.Live? ==> r.state.clock + env(n).lag <= trip + if n == 0 then start.clock else r.state.deadline
    decreases n
  {
    hide Trip;
    if n > 0 && Run(hold, start, env, n - 1).Live? {
      LiveInTime(hold, start, trip, env, n - 1);
      TripTakes(hold, Run(hold, start, env, n - 1).state, env(n - 1));
      assert env(n - 1).sweep + env(n - 1).extend + POLL + env(n - 1).oversleep + env(n - 1 + 1).lag <= trip;
    }
  }

  lemma {:induction false} NothingArmed(checks: nat, window: real, clock: real)
    ensures Armings(Start(checks, window, clock).log) == 0
  {
  }

  // The deadline, as slid by the last arming, is overrun by one trip at most.  A
  // loop entered after its deadline overruns its own start by one trip at most.
  lemma {:induction false} EndsInTime(hold: real, checks: nat, window: real, clock: real, slack: real, trip: real,
                                      env: nat -> Inputs, n: nat)
    requires Paced(env, trip) && forall m: nat :: env(m).extend <= slack
    ensures var r := Run(hold, Start(checks, window, clock), env, n);
            var first := clock + window;
            r.Ended? ==>
              r.state.clock <= trip + if Armings(r.state.log) == 0 then Max(clock, first)
                                      else Max(first, LastArm(r.state.log) + slack + hold + 10.0)
    decreases n
  {
    hide Trip, Armings, LastArm;
    var start := Start(checks, window, clock);
    if n > 0 {
      var before := Run(hold, start, env, n - 1);
      if before.Live? {
        DeadlineSlides(hold, checks, window, clock, slack, env, n - 1);
        LiveInTime(hold, start, trip, env, n - 1);
        TripTakes(hold, before.state, env(n - 1));
        assert env(n - 1).sweep + env(n - 1).extend + POLL + env(n - 1).oversleep + env(n - 1 + 1).lag <= trip;
        NothingArmed(checks, window, clock);
      } else {
        EndsInTime(hold, checks, window, clock, slack, trip, env, n - 1);
      }
    }
  }

  // The loop makes at most one trip per arming plus one per two seconds, and
  // its clock stays below the deadline unless the very last trip overran it.
  lemma {:induction false} TripsAreBounded(hold: real, start: State, env: nat -> Inputs, n: nat)
    ensures var r := Run(hold, start, env, n);
            r.Live? ==>
              && r.state.clock - start.clock >= POLL * (n + Armings(start.log) - Armings(r.state.log)) as real
              && Armings(start.log) <= Armings(r.state.log)
              && (n > 0 ==>
                    Run(hold, start, env, n - 1).Live?
                    && Run(hold, start, env, n - 1).state.clock < Run(hold, start, env, n - 1).state.deadline)
    decreases n
  {
    if n > 0 {
      TripsAreBounded(hold, start, env, n - 1);
      var before := Run(hold, start, env, n - 1);
      if before.Live? { TripAdvances(hold, before.state, env(n - 1)); }
    }
  }

  // ----- when the loop never ends -----

  lemma {:induction false} LiveBefore(hold: real, start: State, env: nat -> Inputs, k: nat, n: nat)
    requires k <= n && Run(hold, start, env, n).Live?
    ensures Run(hold, start, env, k).Live?
    ensures Armings(Run(hold, start, env, k).state.log) <= Armings(Run(hold, start, env, n).state.log)
    decreases n
  {
    hide Trip, Armings;
    if k < n {
      TripAdvances(hold, Run(hold, start, env, n - 1).state, env(n - 1));
      LiveBefore(hold, start, env, k, n - 1);
    }
  }

  // Over a stretch of trips without an arming the deadline stands still, every
  // trip takes two seconds, and the last one still began before that deadline.
  lemma {:induction false} DeadlineStandsStill(hold: real, start: State, env: nat -> Inputs, k: nat, n: nat)
    requires k <= n && Run(hold, start, env, n).Live? && Run(hold, start, env, k).Live?
    requires Armings(Run(hold, start, env, k).state.log) == Armings(Run(hold, start, env, n).state.log)
    ensures var from, to := Run(hold, start, env, k).state, Run(hold, start, env, n).state;
            && to.deadline == from.deadline
            && to.clock >= from.clock + POLL * (n - k) as real
            && (k < n ==> Run(hold, start, env, n - 1).Live? &&
                          Run(hold, start, env, n - 1).state.clock < from.deadline)
    decreases n
  {
    hide Trip, Armings;
    if k < n {
      TripAdvances(hold, Run(hold, start, env, n - 1).state, env(n - 1));
      LiveBefore(hold, start, env, k, n - 1);
      DeadlineStandsStill(hold, start, env, k, n - 1);
    }
  }

  // So from any live trip the loop ends or arms again, after a number of trips
  // that can be read off its deadline.
  function Patience(s: State): (n: nat) {
    if s.deadline <= s.clock then 1 else (s.deadline - s.clock).Floor + 2
  }

  lemma {:induction false} ArmsOrEnds(hold: real, start: State, env: nat -> Inputs, k: nat)
    requires Run(hold, start, env, k).Live?
    ensures var later := Run(hold, start, env, k + Patience(Run(hold, start, env, k).state));
            later.Live? ==> Armings(later.state.log) > Armings(Run(hold, start, env, k).state.log)
  {
    hide Run, Armings;
    var s := Run(hold, start, env, k).state;
    var n := k + Patience(s);
    if Run(hold, start, env, n).Live? {
      LiveBefore(hold, start, env, k, n);
      LiveBefore(hold, start, env, n - 1, n);
      LiveBefore(hold, start, env, k, n - 1);
      if Armings(Run(hold, start, env, n).state.log) == Armings(s.log) {
        DeadlineStandsStill(hold, start, env, k, n);
        DeadlineStandsStill(hold, start, env, k, n - 1);
        assert false;
      }
    }
  }

  ghost predicate LiveForEver(hold: real, start: State, env: nat -> Inputs) {
    forall n: nat :: Run(hold, start, env, n).Live?
  }

  // Some live trip has at least `a` armings behind it.
  ghost predicate Reaches(hold: real, start: State, env: nat -> Inputs, a: nat) {
    exists n: nat :: Run(hold, start, env, n).Live? && Armings(Run(hold, start, env, n).state.log) >= a
  }

  ghost predicate ArmsForEver(hold: real, start: State, env: nat -> Inputs) {
    forall a: nat :: Reaches(hold, start, env, a)
  }

  lemma {:induction false} EnoughArmings(hold: real, start: State, env: nat -> Inputs, a: nat) returns (n: nat)
    requires LiveForEver(hold, start, env)
    ensures Run(hold, start, env, n).Live? && Armings(Run(hold, start, env, n).state.log) >= a
    decreases a
  {
    hide Run, Armings, Patience;
    assert Run(hold, start, env, 0).Live?;
    if a == 0 {
      n := 0;
    } else {
      var k := EnoughArmings(hold, start, env, a - 1);
      ArmsOrEnds(hold, start, env, k);
      n := k + Patience(Run(hold, start, env, k).state);
    }
  }

  lemma {:induction false} OneArmingATrip(hold: real, start: State, env: nat -> Inputs, n: nat)
    requires Run(hold, start, env, n).Live?
    ensures Armings(Run(hold, start, env, n).state.log) <= Armings(start.log) + n
    decreases n
  {
    hide Trip, Armings;
    if n > 0 {
      TripAdvances(hold, Run(hold, start, env, n - 1).state, env(n - 1));
      OneArmingATrip(hold, start, env, n - 1);
    }
  }

  // The loop never ends exactly when it arms again and again without end.
  lemma {:induction false} EndlessIffRearming(hold: real, start: State, env: nat -> Inputs)
    ensures LiveForEver(hold, start, env) <==> ArmsForEver(hold, start, env)
  {
    hide Run, Armings;
    if LiveForEver(hold, start, env) {
      forall a: nat ensures Reaches(hold, start, env, a) {
        var n := EnoughArmings(hold, start, env, a);
      }
    }
    if ArmsForEver(hold, start, env) {
      forall n: nat ensures Run(hold, start, env, n).Live? {
        var a: nat := Armings(start.log) + n;
        assert Reaches(hold, start, env, a);
        var m: nat :| Run(hold, start, env, m).Live? && Armings(Run(hold, start, env, m).state.log) >= a;
        OneArmingATrip(hold, start, env, m);
        LiveBefore(hold, start, env, n, m);
      }
    }
  }

  // ----- a check that flaps for ever -----

  // The check passes (0) or fails (1), and nothing takes any time.
  function Flapping(phase: nat): (inp: Inputs) {
    Inputs(0.0, 0.0, 0.0, 0.0, i => phase == 0)
  }

  function Flaps(n: nat): (inp: Inputs) { Flapping(n % 2) }

  // One check, found passing while not armed: the trip arms.
  lemma {:induction false} FlapUp(hold: real, s: State)
    requires hold >= 0.0 && s.clock > 0.0 && s.clock < s.deadline && s.results == [false] && s.holdUntil == 0.0
    ensures var r := Trip(hold, s, Flapping(0));
            && r.Live? && r.state.results == [false] && r.state.clock == s.clock
            && r.state.holdUntil > 0.0 && r.state.deadline >= r.state.clock + hold + 10.0
  {
    var swept := Sweep(s, Flapping(0).ok);
    assert swept.results == [true];
    assert seq(1, _ => false) == [false];
  }

  // Found failing while armed: the trip disarms.
  lemma {:induction false} FlapDown(hold: real, s: State)
    requires hold >= 0.0 && s.clock > 0.0 && s.deadline >= s.clock + hold + 10.0 && s.results == [false]
    requires s.holdUntil > 0.0
    ensures var r := Trip(hold, s, Flapping(1));
            && r.Live? && r.state.results == [false] && r.state.clock == s.clock + POLL
            && r.state.holdUntil == 0.0 && r.state.deadline == s.deadline
  {
    var swept := Sweep(s, Flapping(1).ok);
    assert swept.results == [false];
    assert !swept.results[0];
  }

  ghost predicate Flapped(hold: real, s: State, phase: nat) {
    && s.results == [false] && s.clock > 0.0
    && (if phase == 0 then s.clock < s.deadline && s.holdUntil == 0.0
        else s.holdUntil > 0.0 && s.deadline >= s.clock + hold + 10.0)
  }

  lemma {:induction false} FlapStep(hold: real, s: State, phase: nat)
    requires hold >= 0.0 && phase < 2 && Flapped(hold, s, phase)
    ensures Trip(hold, s, Flapping(phase)).Live? && Flapped(hold, Trip(hold, s, Flapping(phase)).state, 1 - phase)
  {
    if phase == 0 { FlapUp(hold, s); } else { FlapDown(hold, s); }
  }

  // Then the loop never ends: each pass arms and each failure disarms.
  lemma {:induction false} FlappingNeverEnds(hold: real, start: State, n: nat)
    requires hold >= 0.0 && Flapped(hold, start, 0)
    ensures Run(hold, start, Flaps, n).Live? && Flapped(hold, Run(hold, start, Flaps, n).state, n % 2)
    decreases n
  {
    hide Trip, Flapped;
    if n > 0 {
      FlappingNeverEnds(hold, start, n - 1);
      var s, phase := Run(hold, start, Flaps, n - 1).state, (n - 1) % 2;
      FlapStep(hold, s, phase);
      assert Flaps(n - 1) == Flapping(phase);
      assert Run(hold, start, Flaps, n) == Trip(hold, s, Flapping(phase));
      assert 1 - phase == n % 2;
    }
  }
}
