// The staggered install-approach race (scripts/vmf_race.py): one scheduler
// loop moves every candidate from a band group or the feed to the queue, to a
// runner, to a verdict.  A tick is a function of the state and of what the
// environment answered during that tick.
module Race {
  import opened Text

  // ----- candidates and bands -----

  // `via` is the method word that filters may name.
  datatype Route = Route(kind: string, via: string, cost: string)

  // The candidate name is base + "-c" + number, so the number identifies it.
  datatype Entry = Entry(id: nat, route: Route)

  const COST_BAND: map<string, nat> := map["fast" := 0, "medium" := 1, "slow" := 2, "slowest" := 3]
  const KIND_BAND: map<string, nat> :=
    map["prebuilt_image" := 0, "compose" := 1, "dockerfile" := 1, "install_script" := 2, "source_build" := 3]
  // Seconds a band owns before escalation; 0 means the rest of the race.
  const BAND_SECS: seq<real> := [480.0, 720.0, 900.0, 0.0]

  function BandOf(r: Route): (b: nat)
    ensures b < 4
  {
    var c := Lower(Trim(r.cost));
    if c in COST_BAND then COST_BAND[c]
    else if r.kind in KIND_BAND then KIND_BAND[r.kind]
    else 3
  }

  // ----- what the scheduler holds -----

  datatype Verdict =
    | Marker(status: string)
    | RunnerExit(code: int)
    | NoVerdictAfterBoot
    | RaceDeadline
    | BandDeadline(band: nat)
    | BandNotStarted(band: nat)

  const PASS: Verdict := Marker("pass")

  datatype Runner = Runner(entry: Entry, doneAt: Option<real>, grace: Option<real>)
  datatype Group = Group(band: nat, members: seq<Entry>)
  // A line of the race log: who booted, when, and which verdicts stood then.
  datatype Boot = Boot(entry: Entry, at: real, decided: map<nat, Verdict>)

  datatype State = State(
    keep: seq<Entry>,
    groups: seq<Group>,
    queue: seq<Entry>,
    running: seq<Runner>,
    verdicts: map<nat, Verdict>,
    winner: Option<nat>,
    lastEvent: real,
    bandNo: nat,
    bandStart: real,
    clock: real,           // the last instant the loop read
    consumed: nat,         // feed lines read so far
    drained: seq<Route>,   // every route the feed has handed over
    boots: seq<Boot>)

  datatype Config = Config(
    tranches: bool,
    feed: bool,
    stagger: real,
    parallel: int,
    deadline: real,
    started: real,
    allowed: (Route, nat) -> bool)

  // ----- what the environment answers -----

  type Duration = d: real | d >= 0.0

  datatype Line = Junk | Summary | NoKind | RouteLine(route: Route)
  // One atomic poll: the runner's exit code, if it exited, and the verdict
  // marker's content, if the file is there.
  datatype Poll = Poll(exit: Option<int>, marker: Option<string>)

  // The clock never runs backwards and a sleep lasts at least two seconds.
  datatype Inputs = Inputs(
    lag: Duration,        // loop head to the tick's own clock reading
    working: Duration,    // that reading to the race-deadline reading
    popping: Duration,    // and on to the reading that stamps a new band
    oversleep: Duration,
    file: seq<Line>,
    aliveAtHead: bool,
    aliveAtEnd: bool,
    poll: nat -> Poll)

  // ----- start -----

  function InBand(es: seq<Entry>, b: nat): (r: seq<Entry>) {
    if es == [] then []
    else if BandOf(es[0].route) == b then [es[0]] + InBand(es[1..], b)
    else InBand(es[1..], b)
  }

  // The non-empty bands from b upwards.
  function GroupsFrom(es: seq<Entry>, b: nat): (r: seq<Group>)
    requires b <= 4
    decreases 4 - b
  {
    if b == 4 then []
    else
      var here := InBand(es, b);
      (if here == [] then [] else [Group(b, here)]) + GroupsFrom(es, b + 1)
  }

  function Init(cfg: Config, keep: seq<Entry>, consumed: nat, drained: seq<Route>): (s: State) {
    State(keep,
          if cfg.tranches then GroupsFrom(keep, 0) else [],
          if cfg.tranches then [] else keep,
          [], map[], None, cfg.started, 0, 0.0, cfg.started, consumed, drained, [])
  }

  // ----- the feed -----

  function RoutesOf(lines: seq<Line>): (r: seq<Route>) {
    if lines == [] then []
    else (if lines[0].RouteLine? then [lines[0].route] else []) + RoutesOf(lines[1..])
  }

  function Unread(s: State, file: seq<Line>): (r: seq<Line>) {
    if s.consumed <= |file| then file[s.consumed..] else []
  }

  // Routes join the queue in emission order; a filtered route uses up no number.
  function Admit(cfg: Config, s: State, routes: seq<Route>): (s': State)
    decreases |routes|
  {
    if routes == [] then s
    else
      var i := |s.keep| + 1;
      if !cfg.allowed(routes[0], i) then Admit(cfg, s, routes[1..])
      else
        var e := Entry(i, routes[0]);
        Admit(cfg, s.(keep := s.keep + [e], queue := s.queue + [e]), routes[1..])
  }

  function Drain(cfg: Config, s: State, file: seq<Line>): (s': State) {
    if !cfg.feed then s
    else
      var routes := RoutesOf(Unread(s, file));
      Admit(cfg, s.(consumed := s.consumed + |Unread(s, file)|, drained := s.drained + routes), routes)
  }

  // ----- boot -----

  predicate MayBoot(cfg: Config, s: State) {
    s.queue != [] && |s.running| < cfg.parallel && s.clock - s.lastEvent >= cfg.stagger
  }

  function BootNext(cfg: Config, s: State): (s': State) {
    if !MayBoot(cfg, s) then s
    else
      var e := s.queue[0];
      s.(queue := s.queue[1..],
         running := s.running + [Runner(e, None, None)],
         lastEvent := s.clock,
         boots := s.boots + [Boot(e, s.clock, s.verdicts)])
  }

  // ----- poll -----

  function StatusOf(content: string): string {
    var t := Trim(content);
    if t == "" then "fail" else t
  }

  // Provisional: a "pass" whose runner still lives is left for a later tick.
  // Wait(runner, late): the runner stays; `late` marks the grace branch, which
  // records a verdict without retiring the runner.
  datatype Judgement = Provisional | Decide(verdict: Verdict) | Wait(runner: Runner, late: bool)

  function Judge(r: Runner, p: Poll, now: real): (j: Judgement) {
    if p.marker.Some? then
      var status := StatusOf(p.marker.value);
      if status == "pass" && p.exit.None? then Provisional else Decide(Marker(status))
    else if p.exit.None? then Wait(r, false)
    else if p.exit.value != 0 then Decide(RunnerExit(p.exit.value))
    else if r.doneAt.Some? && now - r.doneAt.value > 30.0 then Decide(NoVerdictAfterBoot)
    else
      var r1 := if r.doneAt.None? then r.(doneAt := Some(now)) else r;
      var r2 := if r1.grace.None? then r1.(grace := Some(now + 120.0)) else r1;
      Wait(r2, now > r2.grace.value)
  }

  function Retire(s: State, i: nat, v: Verdict, crown: bool): (s': State)
    requires i < |s.running|
  {
    var id := s.running[i].entry.id;
    s.(running := s.running[..i] + s.running[i + 1..],
       verdicts := s.verdicts[id := v],
       winner := if crown then Some(id) else s.winner,
       lastEvent := s.clock)
  }

  function StayOn(s: State, i: nat, r: Runner, late: bool): (s': State)
    requires i < |s.running|
  {
    s.(running := s.running[i := r],
       verdicts := if late then s.verdicts[r.entry.id := NoVerdictAfterBoot] else s.verdicts)
  }

  function PollFrom(s: State, i: nat, poll: nat -> Poll): (s': State)
    requires i <= |s.running|
    decreases |s.running| - i
  {
    if i == |s.running| then s
    else
      var r := s.running[i];
      match Judge(r, poll(r.entry.id), s.clock)
      case Provisional => PollFrom(s, i + 1, poll)
      case Wait(r', late) =>
        if r.entry.id in s.verdicts then PollFrom(Retire(s, i, s.verdicts[r.entry.id], false), i, poll)
        else PollFrom(StayOn(s, i, r', late), i + 1, poll)
      case Decide(v) =>
        if v == PASS then Retire(s, i, v, true) else PollFrom(Retire(s, i, v, false), i, poll)
  }

  // ----- deadlines and escalation -----

  function RunnerIds(rs: seq<Runner>): (r: seq<nat>)
    ensures |r| == |rs|
    ensures forall i :: 0 <= i < |rs| ==> r[i] == rs[i].entry.id
  {
    seq(|rs|, i requires 0 <= i < |rs| => rs[i].entry.id)
  }

  function Ids(es: seq<Entry>): (r: seq<nat>)
    ensures |r| == |es|
    ensures forall i :: 0 <= i < |es| ==> r[i] == es[i].id
  {
    seq(|es|, i requires 0 <= i < |es| => es[i].id)
  }

  function SetDefaults(m: map<nat, Verdict>, ids: seq<nat>, v: Verdict): (r: map<nat, Verdict>)
    ensures r.Keys == m.Keys + set id | id in ids
    ensures forall id :: id in r ==> r[id] == if id in m then m[id] else v
    decreases |ids|
  {
    if ids == [] then m
    else
      assert ids == [ids[0]] + ids[1..];
      SetDefaults(if ids[0] in m then m else m[ids[0] := v], ids[1..], v)
  }

  function LapseRace(s: State): (s': State) {
    s.(verdicts := SetDefaults(s.verdicts, RunnerIds(s.running), RaceDeadline))
  }

  // The loop never indexes past the last band: see BandsInRange below.
  function BandSecs(b: nat): (r: real) {
    if b < |BAND_SECS| then BAND_SECS[b] else 0.0
  }

  predicate BandLapsed(cfg: Config, s: State) {
    cfg.tranches && BandSecs(s.bandNo) != 0.0 && s.clock - s.bandStart > BandSecs(s.bandNo)
  }

  function LapseBand(cfg: Config, s: State): (s': State) {
    if !BandLapsed(cfg, s) then s
    else
      var v1 := SetDefaults(s.verdicts, RunnerIds(s.running), BandDeadline(s.bandNo));
      s.(verdicts := SetDefaults(v1, Ids(s.queue), BandNotStarted(s.bandNo)), running := [], queue := [])
  }

  function PopGroup(s: State, at: real): (s': State)
    requires s.groups != []
  {
    s.(groups := s.groups[1..], bandNo := s.groups[0].band, queue := s.groups[0].members, bandStart := at)
  }

  // ----- the tick and the run -----

  datatype Status = Live(state: State) | Ended(state: State)

  predicate Wants(cfg: Config, s: State, feedAlive: bool) {
    s.queue != [] || s.running != [] || s.groups != [] || (cfg.feed && feedAlive)
  }

  // Everything from the loop head to the crown check.
  function Polled(cfg: Config, s: State, inp: Inputs): (s': State) {
    var now := s.(clock := s.clock + inp.lag);
    PollFrom(BootNext(cfg, Drain(cfg, now, inp.file)), 0, inp.poll)
  }

  // Everything after the race deadline has been found not to have passed.
  function Settle(cfg: Config, s: State, inp: Inputs): (r: Status) {
    var s1 := LapseBand(cfg, s);
    var popAt := s1.clock + inp.working + inp.popping;
    if s1.queue == [] && s1.running == [] && s1.groups != [] then
      Live(PopGroup(s1, popAt).(clock := popAt))
    else
      var s2 := s1.(clock := popAt + 2.0 + inp.oversleep);
      if s1.queue == [] && s1.running == [] && !(cfg.feed && inp.aliveAtEnd) then Ended(s1) else Live(s2)
  }

  function Tick(cfg: Config, s: State, inp: Inputs): (r: Status) {
    var s1 := Polled(cfg, s, inp);
    if s1.winner.Some? then Ended(s1)
    else if s1.clock + inp.working - cfg.started > cfg.deadline then Ended(LapseRace(s1))
    else Settle(cfg, s1, inp)
  }

  function Step(cfg: Config, s: State, inp: Inputs): (r: Status) {
    if Wants(cfg, s, inp.aliveAtHead) then Tick(cfg, s, inp) else Ended(s)
  }

  // The loop after n trips to its head.
  function Run(cfg: Config, start: State, env: nat -> Inputs, n: nat): (r: Status)
    decreases n
  {
    if n == 0 then Live(start)
    else
      match Run(cfg, start, env, n - 1)
      case Ended(s) => Ended(s)
      case Live(s) => Step(cfg, s, env(n - 1))
  }

  // The band table is never indexed out of range.
  predicate BandsInRange(s: State) {
    s.bandNo < 4 && forall g :: g in s.groups ==> g.band < 4
  }

  // ----- frames: what the early phases leave alone -----

  lemma {:induction false} AdmitFrame(cfg: Config, s: State, routes: seq<Route>)
    ensures var s' := Admit(cfg, s, routes);
            s' == s.(keep := s'.keep, queue := s'.queue)
    ensures s.keep <= Admit(cfg, s, routes).keep
    decreases |routes|
  {
    if routes != [] {
      var e := Entry(|s.keep| + 1, routes[0]);
      if cfg.allowed(routes[0], e.id) {
        AdmitFrame(cfg, s.(keep := s.keep + [e], queue := s.queue + [e]), routes[1..]);
      } else {
        AdmitFrame(cfg, s, routes[1..]);
      }
    }
  }

  lemma {:induction false} DrainFrame(cfg: Config, s: State, file: seq<Line>)
    ensures var s' := Drain(cfg, s, file);
            s' == s.(keep := s'.keep, queue := s'.queue, consumed := s'.consumed, drained := s'.drained)
    ensures s.keep <= Drain(cfg, s, file).keep
  {
    if cfg.feed {
      var routes := RoutesOf(Unread(s, file));
      AdmitFrame(cfg, s.(consumed := s.consumed + |Unread(s, file)|, drained := s.drained + routes), routes);
    }
  }

  lemma {:induction false} PollFrame(s: State, i: nat, poll: nat -> Poll)
    requires i <= |s.running|
    ensures var s' := PollFrom(s, i, poll);
            s' == s.(running := s'.running, verdicts := s'.verdicts, winner := s'.winner, lastEvent := s'.lastEvent)
    decreases |s.running| - i
  {
    if i < |s.running| {
      var r := s.running[i];
      match Judge(r, poll(r.entry.id), s.clock) {
        case Provisional => PollFrame(s, i + 1, poll);
        case Wait(r', late) =>
          if r.entry.id in s.verdicts { PollFrame(Retire(s, i, s.verdicts[r.entry.id], false), i, poll); }
          else { PollFrame(StayOn(s, i, r', late), i + 1, poll); }
        case Decide(v) =>
          if v != PASS { PollFrame(Retire(s, i, v, false), i, poll); }
      }
    }
  }

  lemma {:induction false} PolledBands(cfg: Config, s: State, inp: Inputs)
    ensures Polled(cfg, s, inp).bandNo == s.bandNo
    ensures Polled(cfg, s, inp).groups == s.groups
    ensures Polled(cfg, s, inp).bandStart == s.bandStart
    ensures s.keep <= Polled(cfg, s, inp).keep
    ensures Polled(cfg, s, inp).clock == s.clock + inp.lag
  {
    var s0 := s.(clock := s.clock + inp.lag);
    var s1 := Drain(cfg, s0, inp.file);
    DrainFrame(cfg, s0, inp.file);
    var s2 := BootNext(cfg, s1);
    assert s2.keep == s1.keep;
    PollFrame(s2, 0, inp.poll);
    hide PollFrom, Drain, BootNext;
  }
}
