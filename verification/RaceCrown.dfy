// The other way about: who has passed is crowned, who has failed is recorded,
// and who may boot is booted.
module RaceCrown {
  import opened Text
  import opened Race
  import opened RaceProofs
  import opened RaceTheorems
  import opened RaceEnd

  // ----- which band a route is in -----

  const COSTS: seq<string> := ["fast", "medium", "slow", "slowest"]

  // Its cost word says, in either case and with blanks around it; without one of
  // those its kind does; and an unknown kind is in the last band.
  lemma {:induction false} BandTells(r: Route)
    ensures forall b :: 0 <= b < 4 && Lower(Trim(r.cost)) == COSTS[b] ==> BandOf(r) == b
    ensures Lower(Trim(r.cost)) !in COSTS ==>
              BandOf(r) == if r.kind == "prebuilt_image" then 0
                           else if r.kind == "compose" || r.kind == "dockerfile" then 1
                           else if r.kind == "install_script" then 2 else 3
  {
    hide Lower, Trim;
    var c, d := Lower(Trim(r.cost)), COSTS;
    assert c in d <==> c == d[0] || c == d[1] || c == d[2] || c == d[3];
    assert "slow" != "slowest" by { assert |"slow"| == 4 && |"slowest"| == 7; }
    assert "fast"[0] == 'f' && "medium"[0] == 'm' && "slow"[0] == 's' && "slowest"[0] == 's';
  }

  // ----- one polling pass -----

  ghost predicate SomePassed(ids: seq<nat>, poll: nat -> Poll) {
    exists j :: 0 <= j < |ids| && Passed(poll(ids[j]))
  }

  // The first of them that has exited with a passing marker.
  ghost predicate FirstPassed(ids: seq<nat>, poll: nat -> Poll, w: nat) {
    exists j :: 0 <= j < |ids| && ids[j] == w && Passed(poll(w)) &&
                forall k :: 0 <= k < j ==> !Passed(poll(ids[k]))
  }

  lemma {:induction false} PassDecides(r: Runner, p: Poll, now: real)
    ensures Passed(p) <==> Judge(r, p, now) == Decide(PASS)
    ensures Judge(r, p, now).Wait? ==> Judge(r, p, now).runner.entry == r.entry
  {
  }

  lemma {:induction false} NextPassed(ids: seq<nat>, poll: nat -> Poll)
    requires ids != [] && !Passed(poll(ids[0]))
    ensures SomePassed(ids, poll) <==> SomePassed(ids[1..], poll)
    ensures forall w: nat :: FirstPassed(ids[1..], poll, w) ==> FirstPassed(ids, poll, w)
  {
    hide Passed;
    var rest := ids[1..];
    if SomePassed(rest, poll) {
      var j :| 0 <= j < |rest| && Passed(poll(rest[j]));
      assert ids[j + 1] == rest[j];
    }
    if SomePassed(ids, poll) {
      var j :| 0 <= j < |ids| && Passed(poll(ids[j]));
      assert rest[j - 1] == ids[j];
    }
    forall w: nat | FirstPassed(rest, poll, w) ensures FirstPassed(ids, poll, w) {
      var j :| 0 <= j < |rest| && rest[j] == w && Passed(poll(w)) &&
               forall k :: 0 <= k < j ==> !Passed(poll(rest[k]));
      assert ids[j + 1] == w;
      forall k | 0 <= k < j + 1 ensures !Passed(poll(ids[k])) {
        if k > 0 { assert ids[k] == rest[k - 1]; }
      }
    }
  }

  lemma {:induction false} PassedHere(ids: seq<nat>, poll: nat -> Poll)
    requires ids != [] && Passed(poll(ids[0]))
    ensures SomePassed(ids, poll) && FirstPassed(ids, poll, ids[0])
  {
  }

  lemma {:induction false} PollCrownsFrom(s: State, i: nat, poll: nat -> Poll)
    requires i <= |s.running| && s.winner.None?
    ensures var ids, w := RunnerIds(s.running)[i..], PollFrom(s, i, poll).winner;
            && (w.Some? <==> SomePassed(ids, poll))
            && (w.Some? ==> FirstPassed(ids, poll, w.value))
    decreases |s.running| - i
  {
    hide Judge, Passed, SomePassed, FirstPassed;
    var ids := RunnerIds(s.running)[i..];
    if i == |s.running| {
      assert ids == [];
      NobodyLeft(poll);
    } else {
      var r := s.running[i];
      var p := poll(r.entry.id);
      PassDecides(r, p, s.clock);
      assert ids[0] == r.entry.id && ids[1..] == RunnerIds(s.running)[i + 1..];
      if Passed(p) {
        PassedHere(ids, poll);
      } else {
        NextPassed(ids, poll);
        match Judge(r, p, s.clock) {
          case Provisional => PollCrownsFrom(s, i + 1, poll);
          case Wait(r', late) =>
            if r.entry.id in s.verdicts {
              Leaves(s, i, s.verdicts[r.entry.id]);
              PollCrownsFrom(Retire(s, i, s.verdicts[r.entry.id], false), i, poll);
            } else {
              assert RunnerIds(s.running[i := r']) == RunnerIds(s.running);
              PollCrownsFrom(StayOn(s, i, r', late), i + 1, poll);
            }
          case Decide(v) =>
            Leaves(s, i, v);
            PollCrownsFrom(Retire(s, i, v, false), i, poll);
        }
      }
    }
  }

  lemma {:induction false} NobodyLeft(poll: nat -> Poll)
    ensures !SomePassed([], poll)
  {
  }

  lemma {:induction false} Leaves(s: State, i: nat, v: Verdict)
    requires i < |s.running|
    ensures RunnerIds(Retire(s, i, v, false).running)[i..] == RunnerIds(s.running)[i + 1..]
    ensures RunnerIds(Retire(s, i, v, false).running)[..i] == RunnerIds(s.running)[..i]
  {
  }

  // A polling pass crowns somebody exactly when a runner has passed, and then
  // the first that has.
  lemma {:induction false} PollCrowns(s: State, poll: nat -> Poll)
    requires s.winner.None?
    ensures var w := PollFrom(s, 0, poll).winner;
            && (w.Some? <==> exists r :: r in s.running && Passed(poll(r.entry.id)))
            && (w.Some? ==> FirstPassed(RunnerIds(s.running), poll, w.value))
  {
    hide PollFrom, Passed, FirstPassed;
    PollCrownsFrom(s, 0, poll);
    var ids := RunnerIds(s.running);
    assert ids[0..] == ids;
    if SomePassed(ids, poll) {
      var j :| 0 <= j < |ids| && Passed(poll(ids[j]));
      assert s.running[j] in s.running;
    }
    if r :| r in s.running && Passed(poll(r.entry.id)) {
      var j :| 0 <= j < |s.running| && s.running[j] == r;
      assert ids[j] == r.entry.id;
    }
  }

  // ----- what a polling pass records -----

  // Nobody after i is this one: nothing more is said of it.
  lemma {:induction false} SaidOfOthers(s: State, i: nat, poll: nat -> Poll, id: nat)
    requires i <= |s.running| && id !in RunnerIds(s.running)[i..]
    ensures var s1 := PollFrom(s, i, poll);
            && (id in s1.verdicts <==> id in s.verdicts)
            && (id in s.verdicts ==> s1.verdicts[id] == s.verdicts[id])
            && (id in RunnerIds(s.running)[..i] ==> id in RunnerIds(s1.running))
            && (id in RunnerIds(s1.running) ==> id in RunnerIds(s.running)[..i])
    decreases |s.running| - i
  {
    hide Judge;
    var ids := RunnerIds(s.running);
    if i == |s.running| {
      assert ids[..i] == ids;
    } else {
      var r := s.running[i];
      PassDecides(r, poll(r.entry.id), s.clock);
      assert ids[i..][0] == r.entry.id && ids[i..][1..] == ids[i + 1..];
      assert ids[..i + 1] == ids[..i] + [r.entry.id];
      match Judge(r, poll(r.entry.id), s.clock) {
        case Provisional => SaidOfOthers(s, i + 1, poll, id);
        case Wait(r', late) =>
          if r.entry.id in s.verdicts {
            Leaves(s, i, s.verdicts[r.entry.id]);
            SaidOfOthers(Retire(s, i, s.verdicts[r.entry.id], false), i, poll, id);
          } else {
            assert RunnerIds(s.running[i := r']) == ids;
            SaidOfOthers(StayOn(s, i, r', late), i + 1, poll, id);
          }
        case Decide(v) =>
          Leaves(s, i, v);
          var s1 := Retire(s, i, v, v == PASS);
          assert RunnerIds(s1.running) == ids[..i] + ids[i + 1..];
          if v != PASS { SaidOfOthers(s1, i, poll, id); }
      }
    }
  }

  ghost predicate Recorded(s: State, id: nat, v: Verdict) {
    id in s.verdicts && s.verdicts[id] == v && id !in RunnerIds(s.running)
  }

  ghost predicate StillRuns(s: State, id: nat) { id !in s.verdicts && id in RunnerIds(s.running) }

  // What the pass that ends in s says of a runner that did not pass: its marker
  // if there is one, a failing exit, or half a minute without a marker; a marker
  // "pass" is left until the runner exits.
  ghost predicate Told(s: State, r: Runner, p: Poll, now: real) {
    var id := r.entry.id;
    if p.marker.Some? && StatusOf(p.marker.value) != "pass" then Recorded(s, id, Marker(StatusOf(p.marker.value)))
    else if p.marker.None? && p.exit.Some? && p.exit.value != 0 then Recorded(s, id, RunnerExit(p.exit.value))
    else if p.marker.None? && p.exit.Some? && r.doneAt.Some? && now > r.doneAt.value + 30.0 then
      Recorded(s, id, NoVerdictAfterBoot)
    else StillRuns(s, id)
  }

  // Runners undecided, each of them once.
  ghost predicate Pollable(s: State, i: nat) {
    && i <= |s.running|
    && (forall k :: i <= k < |s.running| ==> s.running[k].entry.id !in s.verdicts && Trails(s.running[k]))
    && (forall a, b :: 0 <= a < b < |s.running| ==> s.running[a].entry.id != s.running[b].entry.id)
  }

  lemma {:induction false} NotLate(r: Runner, p: Poll, now: real)
    requires Trails(r) && Judge(r, p, now).Wait?
    ensures !Judge(r, p, now).late
  {
  }

  // One turn of the pass, for a runner that is undecided and has not passed.
  lemma {:induction false} OneTurn(s: State, i: nat, poll: nat -> Poll)
    requires Pollable(s, i) && i < |s.running| && !Passed(poll(s.running[i].entry.id))
    ensures var r := s.running[i];
            match Judge(r, poll(r.entry.id), s.clock)
            case Provisional => PollFrom(s, i, poll) == PollFrom(s, i + 1, poll)
            case Wait(r', late) =>
              !late && r'.entry == r.entry && PollFrom(s, i, poll) == PollFrom(StayOn(s, i, r', false), i + 1, poll)
            case Decide(v) => v != PASS && PollFrom(s, i, poll) == PollFrom(Retire(s, i, v, false), i, poll)
  {
    var r := s.running[i];
    PassDecides(r, poll(r.entry.id), s.clock);
    if Judge(r, poll(r.entry.id), s.clock).Wait? { NotLate(r, poll(r.entry.id), s.clock); }
    hide Judge, Passed;
  }

  // The runner at i is told of at once, and those after it do not touch it.
  lemma {:induction false} ToldNow(s: State, i: nat, poll: nat -> Poll)
    requires Pollable(s, i) && i < |s.running| && !Passed(poll(s.running[i].entry.id))
    ensures Told(PollFrom(s, i, poll), s.running[i], poll(s.running[i].entry.id), s.clock)
  {
    hide PollFrom;
    var r := s.running[i];
    var id := r.entry.id;
    var p := poll(id);
    var ids := RunnerIds(s.running);
    assert ids[i] == id && id !in ids[..i] && id !in ids[i + 1..];
    assert ids[..i + 1] == ids[..i] + [id];
    OneTurn(s, i, poll);
    match Judge(r, p, s.clock) {
      case Provisional => SaidOfOthers(s, i + 1, poll, id);
      case Wait(r', late) =>
        assert RunnerIds(s.running[i := r']) == ids;
        SaidOfOthers(StayOn(s, i, r', false), i + 1, poll, id);
      case Decide(v) =>
        Leaves(s, i, v);
        SaidOfOthers(Retire(s, i, v, false), i, poll, id);
    }
  }

  lemma {:induction false} StillPollable(s: State, i: nat, v: Verdict, r': Runner)
    requires Pollable(s, i) && i < |s.running|
    ensures Pollable(s, i + 1) && Pollable(Retire(s, i, v, false), i)
    ensures r'.entry == s.running[i].entry ==> Pollable(StayOn(s, i, r', false), i + 1)
  {
    var s1 := Retire(s, i, v, false);
    forall k | 0 <= k < |s1.running| ensures s1.running[k] == s.running[if k < i then k else k + 1] {
    }
  }

  lemma {:induction false} TellsFrom(s: State, i: nat, poll: nat -> Poll, j: nat)
    requires Pollable(s, i) && i <= j < |s.running|
    requires forall k :: i <= k < |s.running| ==> !Passed(poll(s.running[k].entry.id))
    ensures Told(PollFrom(s, i, poll), s.running[j], poll(s.running[j].entry.id), s.clock)
    decreases |s.running| - i
  {
    hide Judge, Passed, Told, Pollable, PollFrom;
    if i == j {
      ToldNow(s, i, poll);
    } else {
      var r := s.running[i];
      OneTurn(s, i, poll);
      match Judge(r, poll(r.entry.id), s.clock) {
        case Provisional =>
          StillPollable(s, i, PASS, r);
          TellsFrom(s, i + 1, poll, j);
        case Wait(r', late) =>
          StillPollable(s, i, PASS, r');
          TellsFrom(StayOn(s, i, r', false), i + 1, poll, j);
        case Decide(v) =>
          StillPollable(s, i, v, r);
          TellsFrom(Retire(s, i, v, false), i, poll, j - 1);
      }
    }
  }

  lemma {:induction false} CountTwice(ids: seq<nat>, a: nat, b: nat)
    requires a < b < |ids| && ids[a] == ids[b]
    ensures Count(ids, ids[a]) >= 2
    decreases |ids|
  {
    if a == 0 {
      assert ids[b] == ids[1..][b - 1];
      assert ids[a] in ids[1..];
    } else {
      CountTwice(ids[1..], a - 1, b - 1);
    }
  }

  lemma {:induction false} FullPollable(cfg: Config, s: State)
    requires Full(cfg, s)
    ensures Pollable(s, 0)
  {
    var ids := RunnerIds(s.running);
    forall k | 0 <= k < |s.running| ensures s.running[k].entry.id !in s.verdicts && Trails(s.running[k]) {
      assert s.running[k] in s.running && ids[k] == s.running[k].entry.id;
      assert Kept(s, ids[k]) == Tally(s, ids[k]) <= 1;
    }
    forall a, b | 0 <= a < b < |s.running| ensures s.running[a].entry.id != s.running[b].entry.id {
      assert Kept(s, ids[a]) == Tally(s, ids[a]) <= 1;
      if ids[a] == ids[b] { CountTwice(ids, a, b); }
    }
  }

  // In every state the race can be in: a polling pass that crowns nobody says of
  // every runner what its exit and its marker say.
  lemma {:induction false} PollTells(cfg: Config, s: State, poll: nat -> Poll, r: Runner)
    requires Full(cfg, s) && s.winner.None? && r in s.running && PollFrom(s, 0, poll).winner.None?
    ensures Told(PollFrom(s, 0, poll), r, poll(r.entry.id), s.clock)
  {
    hide Full, PollFrom, Passed, Told, Pollable;
    FullPollable(cfg, s);
    PollCrowns(s, poll);
    var j :| 0 <= j < |s.running| && s.running[j] == r;
    TellsFrom(s, 0, poll, j);
  }

  // A blank marker is no pass.
  lemma {:induction false} BlankIsNoPass(content: string, code: int)
    requires Trim(content) == ""
    ensures !Passed(Poll(Some(code), Some(content))) && StatusOf(content) == "fail"
  {
    assert "fail"[0] == 'f' && "pass"[0] == 'p';
  }

  // ----- one tick -----

  // The runners a tick polls.
  function Aboard(cfg: Config, s: State, inp: Inputs): (rs: seq<Runner>) {
    BootNext(cfg, Drain(cfg, s.(clock := s.clock + inp.lag), inp.file)).running
  }

  lemma {:induction false} AboardKeeps(cfg: Config, s: State, inp: Inputs)
    ensures s.running <= Aboard(cfg, s, inp)
  {
    hide Drain;
    DrainFrame(cfg, s.(clock := s.clock + inp.lag), inp.file);
  }

  // A tick crowns somebody exactly when one of the runners it polls has passed.
  lemma {:induction false} TickCrowns(cfg: Config, s: State, inp: Inputs)
    requires Wants(cfg, s, inp.aliveAtHead) && s.winner.None?
    ensures (exists r :: r in Aboard(cfg, s, inp) && Passed(inp.poll(r.entry.id))) <==>
            Step(cfg, s, inp).Ended? && Step(cfg, s, inp).state.winner.Some?
  {
    hide PollFrom, Drain, Passed;
    var s0 := s.(clock := s.clock + inp.lag);
    DrainFrame(cfg, s0, inp.file);
    var s2 := BootNext(cfg, Drain(cfg, s0, inp.file));
    PollCrowns(s2, inp.poll);
  }

  // A tick boots the head of the queue exactly when there is one, a runner's
  // place is free and the stagger has passed, and nobody else.
  lemma {:induction false} TickBoots(cfg: Config, s: State, inp: Inputs)
    requires Wants(cfg, s, inp.aliveAtHead)
    ensures var now, q := s.clock + inp.lag, Drain(cfg, s.(clock := s.clock + inp.lag), inp.file).queue;
            Step(cfg, s, inp).state.boots == s.boots +
              if q != [] && |s.running| < cfg.parallel && now - s.lastEvent >= cfg.stagger
              then [Boot(q[0], now, s.verdicts)] else []
  {
    hide PollFrom, Drain;
    var s0 := s.(clock := s.clock + inp.lag);
    DrainFrame(cfg, s0, inp.file);
    var s2 := BootNext(cfg, Drain(cfg, s0, inp.file));
    PollFrame(s2, 0, inp.poll);
    assert Step(cfg, s, inp).state.boots == Polled(cfg, s, inp).boots;
    assert s.boots + [] == s.boots;
  }

  // How long a band may take before the next is popped; the last one may take
  // the rest of the race.
  predicate TimeUp(cfg: Config, bandNo: nat, spent: real) {
    cfg.tranches && ((bandNo == 0 && spent > 480.0) || (bandNo == 1 && spent > 720.0) || (bandNo == 2 && spent > 900.0))
  }

  lemma {:induction false} LapsedIff(cfg: Config, s: State)
    ensures BandLapsed(cfg, s) <==> TimeUp(cfg, s.bandNo, s.clock - s.bandStart)
  {
  }

  // What a tick without a crown says of those that its polling left undecided:
  // past the race's deadline its runners are late, past the band's its runners
  // are and its queue never started, and otherwise nobody is told of.
  lemma {:induction false} TickTells(cfg: Config, s: State, inp: Inputs, id: nat)
    requires Full(cfg, s) && s.winner.None? && Wants(cfg, s, inp.aliveAtHead) && Polled(cfg, s, inp).winner.None?
    requires id !in Polled(cfg, s, inp).verdicts
    ensures var s1, vs := Polled(cfg, s, inp), Step(cfg, s, inp).state.verdicts;
            if PastDeadline(cfg, s, inp) then
              if id in RunnerIds(s1.running) then id in vs && vs[id] == RaceDeadline else id !in vs
            else if TimeUp(cfg, s1.bandNo, s1.clock - s1.bandStart) then
              if id in RunnerIds(s1.running) then id in vs && vs[id] == BandDeadline(s1.bandNo)
              else if id in Ids(s1.queue) then id in vs && vs[id] == BandNotStarted(s1.bandNo)
              else id !in vs
            else id !in vs
  {
    hide Polled, Full, SetDefaults, BandLapsed, TimeUp;
    PolledBands(cfg, s, inp);
    LapsedIff(cfg, Polled(cfg, s, inp));
  }

  // ----- runs -----

  // Trip m reached the polling and had w aboard.
  ghost predicate PolledAt(cfg: Config, start: State, env: nat -> Inputs, m: nat, w: nat) {
    var r := Run(cfg, start, env, m);
    && r.Live? && Wants(cfg, r.state, env(m).aliveAtHead)
    && exists x :: x in Aboard(cfg, r.state, env(m)) && x.entry.id == w
  }

  // A tick that finds a runner passed ends the race with a winner.
  lemma {:induction false} PassedIsCrowned(cfg: Config, keep: seq<Entry>, consumed: nat, drained: seq<Route>,
                                           env: nat -> Inputs, m: nat, w: nat)
    requires Start(cfg, keep)
    requires PolledAt(cfg, Init(cfg, keep, consumed, drained), env, m, w) && Passed(env(m).poll(w))
    ensures var r := Run(cfg, Init(cfg, keep, consumed, drained), env, m + 1);
            r.Ended? && r.state.winner.Some?
  {
    hide Full, Step, Init, Aboard, Passed;
    var start := Init(cfg, keep, consumed, drained);
    InitFull(cfg, keep, consumed, drained);
    RunFull(cfg, start, env, m);
    TickCrowns(cfg, Run(cfg, start, env, m).state, env(m));
  }

  // So a booted candidate without a verdict is crowned, or another in its place,
  // by the first trip that finds it passed.
  lemma {:induction false} BootedIsPolled(cfg: Config, keep: seq<Entry>, consumed: nat, drained: seq<Route>,
                                          env: nat -> Inputs, m: nat, b: Boot)
    requires Start(cfg, keep)
    requires var r := Run(cfg, Init(cfg, keep, consumed, drained), env, m);
             r.Live? && b in r.state.boots && b.entry.id !in r.state.verdicts
    ensures PolledAt(cfg, Init(cfg, keep, consumed, drained), env, m, b.entry.id)
  {
    hide Step, Init, Aboard, BootNext;
    var start := Init(cfg, keep, consumed, drained);
    InitFull(cfg, keep, consumed, drained);
    RunFull(cfg, start, env, m);
    var s := Run(cfg, start, env, m).state;
    BootedRuns(cfg, s, b);
    var r :| r in s.running && r.entry.id == b.entry.id;
    AboardKeeps(cfg, s, env(m));
    assert r in Aboard(cfg, s, env(m));
  }

  lemma {:induction false} BootedRuns(cfg: Config, s: State, b: Boot)
    requires Full(cfg, s) && b in s.boots && b.entry.id !in s.verdicts
    ensures exists r :: r in s.running && r.entry.id == b.entry.id
  {
    var id := b.entry.id;
    var j :| 0 <= j < |s.boots| && s.boots[j] == b;
    assert BootIds(s.boots)[j] == id;
    assert Booted(s, id) > 0;
    var k :| 0 <= k < |s.running| && RunnerIds(s.running)[k] == id;
    assert s.running[k] in s.running;
  }

  // A race that ends without a winner never polled a passed runner.
  lemma {:induction false} NoWinnerNoPass(cfg: Config, keep: seq<Entry>, consumed: nat, drained: seq<Route>,
                                          env: nat -> Inputs, n: nat, m: nat, w: nat)
    requires Start(cfg, keep) && m < n
    requires var r := Run(cfg, Init(cfg, keep, consumed, drained), env, n); r.Ended? && r.state.winner.None?
    requires PolledAt(cfg, Init(cfg, keep, consumed, drained), env, m, w)
    ensures !Passed(env(m).poll(w))
  {
    hide Step, Init, Passed, PolledAt;
    if Passed(env(m).poll(w)) {
      PassedIsCrowned(cfg, keep, consumed, drained, env, m, w);
      EndStands(cfg, Init(cfg, keep, consumed, drained), env, m + 1, n);
    }
  }

  lemma {:induction false} EndStands(cfg: Config, start: State, env: nat -> Inputs, m: nat, n: nat)
    requires m <= n && Run(cfg, start, env, m).Ended?
    ensures Run(cfg, start, env, n) == Run(cfg, start, env, m)
    decreases n
  {
    hide Step;
    if m < n { EndStands(cfg, start, env, m, n - 1); }
  }

  // ----- without tranches, the field boots in order -----

  function Entries(bs: seq<Boot>): (es: seq<Entry>)
    ensures |es| == |bs| && forall i :: 0 <= i < |es| ==> es[i] == bs[i].entry
  {
    seq(|bs|, i requires 0 <= i < |bs| => bs[i].entry)
  }

  ghost predicate InLine(s: State) { s.groups == [] && s.keep == Entries(s.boots) + s.queue }

  lemma {:induction false} AdmitInLine(cfg: Config, s: State, routes: seq<Route>)
    requires InLine(s)
    ensures InLine(Admit(cfg, s, routes))
    decreases |routes|
  {
    if routes != [] {
      var e := Entry(|s.keep| + 1, routes[0]);
      if cfg.allowed(routes[0], e.id) {
        assert Entries(s.boots) + (s.queue + [e]) == (Entries(s.boots) + s.queue) + [e];
        AdmitInLine(cfg, s.(keep := s.keep + [e], queue := s.queue + [e]), routes[1..]);
      } else {
        AdmitInLine(cfg, s, routes[1..]);
      }
    }
  }

  lemma {:induction false} StepInLine(cfg: Config, s: State, inp: Inputs)
    requires !cfg.tranches && InLine(s)
    ensures InLine(Step(cfg, s, inp).state)
  {
    hide PollFrom, Admit;
    var s0 := s.(clock := s.clock + inp.lag);
    var routes := RoutesOf(Unread(s0, inp.file));
    AdmitInLine(cfg, s0.(consumed := s0.consumed + |Unread(s0, inp.file)|, drained := s0.drained + routes), routes);
    DrainFrame(cfg, s0, inp.file);
    var s1 := Drain(cfg, s0, inp.file);
    var s2 := BootNext(cfg, s1);
    if MayBoot(cfg, s1) {
      assert Entries(s2.boots) == Entries(s1.boots) + [s1.queue[0]];
      assert Entries(s1.boots) + s1.queue == Entries(s1.boots) + [s1.queue[0]] + s1.queue[1..];
    }
    PollFrame(s2, 0, inp.poll);
  }

  // Without tranches, in every state of every run: who has booted, in order, and
  // who is queued, in order, are together the field.
  lemma {:induction false} FieldBootsInOrder(cfg: Config, keep: seq<Entry>, consumed: nat, drained: seq<Route>,
                                             env: nat -> Inputs, n: nat)
    requires !cfg.tranches
    ensures var s := Run(cfg, Init(cfg, keep, consumed, drained), env, n).state; s.keep == Entries(s.boots) + s.queue
    ensures InLine(Run(cfg, Init(cfg, keep, consumed, drained), env, n).state)
    decreases n
  {
    hide Step;
    var start := Init(cfg, keep, consumed, drained);
    if n == 0 {
      assert Entries([]) + keep == keep;
    } else {
      FieldBootsInOrder(cfg, keep, consumed, drained, env, n - 1);
      var before := Run(cfg, start, env, n - 1);
      if before.Live? { StepInLine(cfg, before.state, env(n - 1)); }
    }
  }
}
