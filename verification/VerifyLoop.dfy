// The verify loop as it runs: one array of results, updated in place.
module VerifyLoop {
  import opened VerifyHold

  class HoldLoop {
    const hold: real
    const results: array<bool>
    var holdUntil: real
    var deadline: real
    var clock: real
    ghost var log: seq<Event>

    ghost function St(): State
      reads this, results
    {
      State(results[..], holdUntil, deadline, clock, log)
    }

    constructor (checks: nat, hold: real, window: real, clock: real)
      ensures this.hold == hold && fresh(results)
      ensures St() == Start(checks, window, clock)
    {
      this.hold, this.clock := hold, clock;
      results := new bool[checks](_ => false);
      holdUntil, deadline, log := 0.0, clock + window, [];
      new;
      assert results[..] == seq(checks, _ => false);
    }

    // Asks every check that has not passed yet.
    method SweepAll(ok: nat -> bool)
      modifies this`log, results
      ensures St() == Sweep(old(St()), ok)
    {
      ghost var was := results[..];
      for i := 0 to results.Length
        invariant forall j :: 0 <= j < i ==> results[j] == (was[j] || ok(j))
        invariant forall j :: i <= j < results.Length ==> results[j] == was[j]
        invariant log == old(log) + SweepLog(was, ok, i)
      {
        if !results[i] {
          log := log + [Checked(i, ok(i))];
          if ok(i) {
            results[i] := true;
          }
        }
      }
      assert results[..] == Sweep(old(St()), ok).results;
    }

    method AllPassed() returns (all: bool)
      ensures all == AllTrue(results[..])
    {
      for i := 0 to results.Length
        invariant forall j :: 0 <= j < i ==> results[j]
      {
        if !results[i] {
          assert !results[..][i];
          return false;
        }
      }
      return true;
    }

    method Rearm(extend: Duration)
      modifies this, results
      ensures St() == Arm(old(St()), hold, extend)
    {
      holdUntil := clock + hold;
      deadline := Max(deadline, clock + extend + hold + 10.0);
      log := log + [Armed(clock)];
      clock := clock + extend;
      for i := 0 to results.Length
        invariant forall j :: 0 <= j < i ==> !results[j]
        modifies results
      {
        results[i] := false;
      }
      assert results[..] == Arm(old(St()), hold, extend).results;
    }

    // One trip round the loop; `more` says whether there is another.
    method OneTrip(inp: Inputs) returns (more: bool)
      modifies this, results
      ensures Trip(hold, old(St()), inp) == if more then Live(St()) else Ended(St())
    {
      clock := clock + inp.lag;
      if clock >= deadline {
        return false;
      }
      SweepAll(inp.ok);
      clock := clock + inp.sweep;
      var all := AllPassed();
      if all {
        if holdUntil == 0.0 {
          Rearm(inp.extend);
          return true;
        }
        if clock >= holdUntil {
          return false;
        }
      } else {
        holdUntil := 0.0;
      }
      clock := clock + POLL + inp.oversleep;
      more := true;
    }

    // The loop, followed for at most `trips` trips; it may go on for ever.
    method Poll(env: nat -> Inputs, trips: nat) returns (ended: bool)
      modifies this, results
      ensures Run(hold, old(St()), env, trips) == if ended then Ended(St()) else Live(St())
    {
      ended := false;
      for n := 0 to trips
        invariant Run(hold, old(St()), env, n) == if ended then Ended(St()) else Live(St())
      {
        if !ended {
          var more := OneTrip(env(n));
          ended := !more;
        }
      }
    }

    method Verdict() returns (code: nat)
      ensures code == ExitCode(St())
    {
      var all := AllPassed();
      code := if all then 0 else 1;
    }
  }
}
