// The verify runner's poll-and-hold loop (scripts/vmf_verify.py): checks run
// until all have passed once, then all must pass again in one sweep and the
// hold time must go by.  The checks' answers and the clock are arbitrary.
module VerifyHold {
  const POLL: real := 2.0

  type Duration = d: real | d >= 0.0

  datatype Event = Checked(check: nat, ok: bool) | Armed(at: real)

  datatype State = State(
    results: seq<bool>,
    holdUntil: real,      // 0.0 stands for "not armed"
    deadline: real,
    clock: real,
    log: seq<Event>)

  datatype Inputs = Inputs(
    lag: Duration,        // to the loop-head reading
    sweep: Duration,      // to the reading that arms, or that ends the hold
    extend: Duration,     // to the reading that extends the deadline
    oversleep: Duration,
    ok: nat -> bool)

  datatype Status = Live(state: State) | Ended(state: State)

  function Start(checks: nat, window: real, clock: real): (s: State) {
    State(seq(checks, _ => false), 0.0, clock + window, clock, [])
  }

  predicate AllTrue(results: seq<bool>) {
    forall i :: 0 <= i < |results| ==> results[i]
  }

  // A sweep asks only the checks that have not passed yet.
  function SweepLog(results: seq<bool>, ok: nat -> bool, n: nat): (r: seq<Event>)
    requires n <= |results|
  {
    if n == 0 then []
    else SweepLog(results, ok, n - 1) + if results[n - 1] then [] else [Checked(n - 1, ok(n - 1))]
  }

  function Sweep(s: State, ok: nat -> bool): (s': State)
    ensures |s'.results| == |s.results|
  {
    s.(results := seq(|s.results|, i requires 0 <= i < |s.results| => s.results[i] || ok(i)),
       log := s.log + SweepLog(s.results, ok, |s.results|))
  }

  function Max(a: real, b: real): real { if a < b then b else a }

  function Arm(s: State, hold: real, extend: Duration): (s': State) {
    s.(holdUntil := s.clock + hold,
       deadline := Max(s.deadline, s.clock + extend + hold + 10.0),
       results := seq(|s.results|, _ => false),
       clock := s.clock + extend,
       log := s.log + [Armed(s.clock)])
  }

  // One trip, from the clock reading that guards it.
  function Guarded(hold: real, head: State, inp: Inputs): (r: Status) {
    if head.clock >= head.deadline then Ended(head)
    else
      var swept := Sweep(head, inp.ok).(clock := head.clock + inp.sweep);
      if AllTrue(swept.results) then
        if swept.holdUntil == 0.0 then Live(Arm(swept, hold, inp.extend))
        else if swept.clock >= swept.holdUntil then Ended(swept)
        else Live(swept.(clock := swept.clock + POLL + inp.oversleep))
      else
        Live(swept.(holdUntil := 0.0, clock := swept.clock + POLL + inp.oversleep))
  }

  function Trip(hold: real, s: State, inp: Inputs): (r: Status) {
    Guarded(hold, s.(clock := s.clock + inp.lag), inp)
  }

  function Run(hold: real, start: State, env: nat -> Inputs, n: nat): (r: Status) {
    if n == 0 then Live(start)
    else
      match Run(hold, start, env, n - 1)
      case Ended(s) => Ended(s)
      case Live(s) => Trip(hold, s, env(n - 1))
  }

  function ExitCode(s: State): (code: nat) {
    if AllTrue(s.results) then 0 else 1
  }
}
