// The race over whole runs: order of the bands, the crown, the end.
module RaceTheorems {
  import opened Text
  import opened Race
  import opened RaceProofs

  // ----- the start -----

  ghost predicate DistinctIds(keep: seq<Entry>) {
    forall i, j :: 0 <= i < j < |keep| ==> keep[i].id != keep[j].id
  }

  // What race() is handed: distinct candidates, numbered from one if a feed will add to them.
  ghost predicate Start(cfg: Config, keep: seq<Entry>) {
    && DistinctIds(keep)
    && (cfg.feed ==> forall j :: 0 <= j < |keep| ==> keep[j].id == j + 1)
  }

  lemma {:induction false} DistinctCount(keep: seq<Entry>, id: nat)
    requires DistinctIds(keep)
    ensures Count(Ids(keep), id) <= 1
  {
    if keep != [] {
      assert Ids(keep)[1..] == Ids(keep[1..]);
      DistinctCount(keep[1..], id);
    }
  }

  function AtLeast(es: seq<Entry>, b: nat): (r: seq<Entry>) {
    if es == [] then []
    else (if BandOf(es[0].route) >= b then [es[0]] else []) + AtLeast(es[1..], b)
  }

  lemma {:induction false} BandSplit(es: seq<Entry>, b: nat, id: nat)
    ensures Count(Ids(AtLeast(es, b)), id) == Count(Ids(InBand(es, b)), id) + Count(Ids(AtLeast(es, b + 1)), id)
  {
    if es != [] {
      BandSplit(es[1..], b, id);
      IdsAppend([es[0]], AtLeast(es[1..], b), id);
      IdsAppend([es[0]], AtLeast(es[1..], b + 1), id);
      IdsAppend([es[0]], InBand(es[1..], b), id);
      assert [] + AtLeast(es[1..], b) == AtLeast(es[1..], b);
      assert [] + AtLeast(es[1..], b + 1) == AtLeast(es[1..], b + 1);
    }
  }

  lemma {:induction false} AllBands(es: seq<Entry>)
    ensures AtLeast(es, 0) == es && AtLeast(es, 4) == []
  {
    if es != [] { AllBands(es[1..]); }
  }

  lemma {:induction false} MembersCons(g: Group, rest: seq<Group>, id: nat)
    ensures Count(Ids(Members([g] + rest)), id) == Count(Ids(g.members), id) + Count(Ids(Members(rest)), id)
  {
    assert ([g] + rest)[1..] == rest;
    IdsAppend(g.members, Members(rest), id);
  }

  lemma {:induction false} GroupsStep(es: seq<Entry>, b: nat, id: nat)
    requires b < 4
    ensures Count(Ids(Members(GroupsFrom(es, b))), id) ==
            Count(Ids(InBand(es, b)), id) + Count(Ids(Members(GroupsFrom(es, b + 1))), id)
  {
    var here, rest := InBand(es, b), GroupsFrom(es, b + 1);
    if here == [] {
      assert GroupsFrom(es, b) == rest;
    } else {
      assert GroupsFrom(es, b) == [Group(b, here)] + rest;
      MembersCons(Group(b, here), rest, id);
    }
  }

  // Grouping by band loses and repeats nothing.
  lemma {:induction false} GroupsCount(es: seq<Entry>, b: nat, id: nat)
    requires b <= 4
    ensures Count(Ids(Members(GroupsFrom(es, b))), id) == Count(Ids(AtLeast(es, b)), id)
    decreases 4 - b
  {
    if b == 4 {
      AllBands(es);
    } else {
      GroupsCount(es, b + 1, id);
      GroupsStep(es, b, id);
      BandSplit(es, b, id);
    }
  }

  lemma {:induction false} InBandMembers(es: seq<Entry>, b: nat)
    ensures forall e :: e in InBand(es, b) ==> e in es && BandOf(e.route) == b
  {
    if es != [] { InBandMembers(es[1..], b); }
  }

  lemma {:induction false} GroupsShape(es: seq<Entry>, b: nat)
    requires b <= 4
    ensures var gs := GroupsFrom(es, b);
            && (forall g :: g in gs ==> b <= g.band < 4 && g.members == InBand(es, g.band) && g.members != [])
            && (forall i, j :: 0 <= i < j < |gs| ==> gs[i].band < gs[j].band)
            && |gs| <= 4 - b
    decreases 4 - b
  {
    if b < 4 { GroupsShape(es, b + 1); }
  }

  lemma {:induction false} InitCore(cfg: Config, keep: seq<Entry>, consumed: nat, drained: seq<Route>)
    requires Start(cfg, keep)
    ensures Core(cfg, Init(cfg, keep, consumed, drained))
  {
    var s := Init(cfg, keep, consumed, drained);
    forall id
      ensures Kept(s, id) == Tally(s, id) <= 1
      ensures InFlight(s, id) <= Booted(s, id) <= InFlight(s, id) + Decided(s, id)
    {
      DistinctCount(keep, id);
      if cfg.tranches { GroupsCount(keep, 0, id); AllBands(keep); }
    }
    if cfg.tranches { GroupsShape(keep, 0); }
  }

  // ----- who is who -----

  // Every place holds kept entries, and a boot's view of the verdicts still stands.
  ghost predicate Known(s: State) {
    && (forall e :: e in Members(s.groups) || e in s.queue ==> e in s.keep)
    && (forall r :: r in s.running ==> r.entry in s.keep)
    && (forall b :: b in s.boots ==> b.entry in s.keep)
  }

  ghost predicate Stands(s: State) {
    forall b :: b in s.boots ==>
      forall id :: id in b.decided ==> id in s.verdicts && s.verdicts[id] == b.decided[id] != PASS
  }

  // Everything cheaper than `band` has a verdict.
  ghost predicate CheaperDecided(keep: seq<Entry>, band: nat, verdicts: map<nat, Verdict>) {
    forall k :: k in keep && BandOf(k.route) < band ==> k.id in verdicts
  }

  ghost predicate Ordered(s: State) {
    && (forall i, j :: 0 <= i < j < |s.groups| ==> s.groups[i].band < s.groups[j].band)
    && (forall g, e :: g in s.groups && e in g.members ==> BandOf(e.route) == g.band)
    && (forall e :: e in s.queue ==> BandOf(e.route) == s.bandNo)
    && (forall r :: r in s.running ==> BandOf(r.entry.route) == s.bandNo)
    && CheaperDecided(s.keep, s.bandNo, s.verdicts)
    && (forall b :: b in s.boots ==> CheaperDecided(s.keep, BandOf(b.entry.route), b.decided))
  }

  ghost predicate Full(cfg: Config, s: State) {
    && Core(cfg, s) && Known(s) && Stands(s) && BandsInRange(s)
    && (cfg.tranches && !cfg.feed ==> Ordered(s))
  }

  lemma {:induction false} MembersIn(gs: seq<Group>, e: Entry)
    ensures e in Members(gs) <==> exists g :: g in gs && e in g.members
  {
    if gs != [] { MembersIn(gs[1..], e); }
  }

  lemma {:induction false} GroupKnown(keep: seq<Entry>, g: Group, e: Entry)
    requires g in GroupsFrom(keep, 0) && e in g.members
    ensures e in keep && BandOf(e.route) == g.band
  {
    GroupsShape(keep, 0);
    InBandMembers(keep, g.band);
  }

  lemma {:induction false} MemberKnown(keep: seq<Entry>, e: Entry)
    requires e in Members(GroupsFrom(keep, 0))
    ensures e in keep
  {
    MembersIn(GroupsFrom(keep, 0), e);
    var g :| g in GroupsFrom(keep, 0) && e in g.members;
    GroupKnown(keep, g, e);
  }

  lemma {:induction false} InitOrdered(cfg: Config, keep: seq<Entry>, consumed: nat, drained: seq<Route>)
    requires cfg.tranches
    ensures Ordered(Init(cfg, keep, consumed, drained))
  {
    var s := Init(cfg, keep, consumed, drained);
    forall g, e | g in s.groups && e in g.members ensures BandOf(e.route) == g.band { GroupKnown(keep, g, e); }
    GroupsShape(keep, 0);
    assert s.bandNo == 0 && s.queue == [] && s.running == [] && s.boots == [];
  }

  lemma {:induction false} InitKnown(cfg: Config, keep: seq<Entry>, consumed: nat, drained: seq<Route>)
    ensures Known(Init(cfg, keep, consumed, drained)) && BandsInRange(Init(cfg, keep, consumed, drained))
  {
    if cfg.tranches {
      GroupsShape(keep, 0);
      forall e | e in Members(GroupsFrom(keep, 0)) ensures e in keep { MemberKnown(keep, e); }
    }
  }

  lemma {:induction false} InitFull(cfg: Config, keep: seq<Entry>, consumed: nat, drained: seq<Route>)
    requires Start(cfg, keep)
    ensures Full(cfg, Init(cfg, keep, consumed, drained)) && Init(cfg, keep, consumed, drained).winner.None?
  {
    hide Core, Known, BandsInRange, Ordered, GroupsFrom;
    InitCore(cfg, keep, consumed, drained);
    InitKnown(cfg, keep, consumed, drained);
    if cfg.tranches { InitOrdered(cfg, keep, consumed, drained); }
  }

  // An undecided, unbooted kept candidate with nothing queued or running still waits in a group.
  lemma {:induction false} StillWaiting(s: State, k: Entry)
    requires OnePlace(s) && Known(s) && k in s.keep && k.id !in s.verdicts && s.queue == [] && s.running == []
    ensures k in Members(s.groups)
  {
    var i :| 0 <= i < |s.keep| && s.keep[i] == k;
    assert Ids(s.keep)[i] == k.id;
    assert Kept(s, k.id) == Tally(s, k.id) <= 1;
    var j :| 0 <= j < |Members(s.groups)| && Ids(Members(s.groups))[j] == k.id;
    SameId(s, Members(s.groups)[j], k);
  }

  lemma {:induction false} CountTwice(ids: seq<nat>, i: nat, j: nat)
    requires i < j < |ids| && ids[i] == ids[j]
    ensures Count(ids, ids[i]) >= 2
  {
    if i > 0 {
      CountTwice(ids[1..], i - 1, j - 1);
    } else {
      assert ids[j] == ids[1..][j - 1];
      assert Count(ids[1..], ids[j]) > 0;
    }
  }

  lemma {:induction false} SameId(s: State, a: Entry, b: Entry)
    requires OnePlace(s) && a in s.keep && b in s.keep && a.id == b.id
    ensures a == b
  {
    var i :| 0 <= i < |s.keep| && s.keep[i] == a;
    var j :| 0 <= j < |s.keep| && s.keep[j] == b;
    assert Kept(s, a.id) <= 1 by { assert Kept(s, a.id) == Tally(s, a.id) <= 1; }
    if i < j { CountTwice(Ids(s.keep), i, j); }
    if j < i { CountTwice(Ids(s.keep), j, i); }
  }

  // ----- each phase keeps it all -----

  lemma {:induction false} AdmitFull(cfg: Config, s: State, routes: seq<Route>)
    requires Known(s)
    ensures Known(Admit(cfg, s, routes))
    decreases |routes|
  {
    if routes != [] {
      var e := Entry(|s.keep| + 1, routes[0]);
      if cfg.allowed(routes[0], e.id) {
        AdmitFull(cfg, s.(keep := s.keep + [e], queue := s.queue + [e]), routes[1..]);
      } else {
        AdmitFull(cfg, s, routes[1..]);
      }
    }
  }

  lemma {:induction false} DrainFull(cfg: Config, s: State, file: seq<Line>)
    requires Full(cfg, s)
    ensures Full(cfg, Drain(cfg, s, file))
  {
    DrainKeeps(cfg, s, file);
    DrainFrame(cfg, s, file);
    if cfg.feed {
      var routes := RoutesOf(Unread(s, file));
      AdmitFull(cfg, s.(consumed := s.consumed + |Unread(s, file)|, drained := s.drained + routes), routes);
    }
  }

  lemma {:induction false} BootOrdered(cfg: Config, s: State)
    requires Ordered(s)
    ensures Ordered(BootNext(cfg, s))
  {
  }

  lemma {:induction false} BootFull(cfg: Config, s: State)
    requires Full(cfg, s) && s.winner.None?
    ensures Full(cfg, BootNext(cfg, s)) && BootNext(cfg, s).winner.None?
  {
    assert CrownMatches(s);
    hide Known, Stands, BandsInRange, Ordered, BootNext, Places, CrownMatches;
    BootKeeps(cfg, s);
    if cfg.tranches && !cfg.feed { BootOrdered(cfg, s); }
  }

  lemma {:induction false} StayPace(cfg: Config, s: State, i: nat, r: Runner)
    requires i < |s.running| && Pace(cfg, s) && Trails(r)
    ensures Pace(cfg, StayOn(s, i, r, false))
  {
  }

  lemma {:induction false} StayFull(cfg: Config, s: State, i: nat, r: Runner)
    requires i < |s.running| && r.entry == s.running[i].entry && Full(cfg, s) && Core(cfg, StayOn(s, i, r, false))
    ensures Full(cfg, StayOn(s, i, r, false))
  {
  }

  lemma {:induction false} RetireOrdered(s: State, i: nat, v: Verdict, crown: bool)
    requires i < |s.running| && Ordered(s)
    ensures Ordered(Retire(s, i, v, crown))
  {
  }

  lemma {:induction false} RetireFull(cfg: Config, s: State, i: nat, v: Verdict)
    requires i < |s.running| && Full(cfg, s) && s.winner.None?
    ensures Full(cfg, Retire(s, i, v, v == PASS))
  {
    RunnerUndecided(s, i);
    hide Known, Stands, BandsInRange, Ordered, Places, Pace, Retire;
    RetirePlaces(cfg, s, i, v, v == PASS);
    if cfg.tranches && !cfg.feed { RetireOrdered(s, i, v, v == PASS); }
  }

  lemma {:induction false} WaitFull(cfg: Config, s: State, i: nat, r: Runner)
    requires i < |s.running| && r.entry == s.running[i].entry && Full(cfg, s) && s.winner.None? && Trails(r)
    ensures Full(cfg, StayOn(s, i, r, false))
  {
    hide Known, Stands, BandsInRange, Ordered, Pace;
    StayPlaces(cfg, s, i, r);
    StayPace(cfg, s, i, r);
    StayFull(cfg, s, i, r);
  }

  lemma {:induction false} RunnerSteady(cfg: Config, s: State, i: nat, p: Poll)
    requires i < |s.running| && Full(cfg, s)
    ensures s.running[i].entry.id !in s.verdicts
    ensures var j := Judge(s.running[i], p, s.clock);
            j.Wait? ==> !j.late && j.runner.entry == s.running[i].entry && Trails(j.runner)
  {
    GraceNeverFires(s.running[i], p, s.clock);
    RunnerUndecided(s, i);
  }

  lemma {:induction false} PollFull(cfg: Config, s: State, i: nat, poll: nat -> Poll)
    requires i <= |s.running| && Full(cfg, s) && s.winner.None?
    ensures Full(cfg, PollFrom(s, i, poll))
    decreases |s.running| - i
  {
    hide Full, Judge, Trails;
    if i < |s.running| {
      var r := s.running[i];
      RunnerSteady(cfg, s, i, poll(r.entry.id));
      match Judge(r, poll(r.entry.id), s.clock) {
        case Provisional => PollFull(cfg, s, i + 1, poll);
        case Wait(r', late) =>
          WaitFull(cfg, s, i, r');
          PollFull(cfg, StayOn(s, i, r', late), i + 1, poll);
        case Decide(v) =>
          RetireFull(cfg, s, i, v);
          if v != PASS { PollFull(cfg, Retire(s, i, v, false), i, poll); }
      }
    }
  }

  lemma {:induction false} PolledFull(cfg: Config, s: State, inp: Inputs)
    requires Full(cfg, s) && s.winner.None?
    ensures Full(cfg, Polled(cfg, s, inp))
  {
    var s0 := s.(clock := s.clock + inp.lag);
    LaterFull(cfg, s, s.clock + inp.lag);
    var s1 := Drain(cfg, s0, inp.file);
    hide Full;
    DrainFull(cfg, s0, inp.file);
    assert s1.winner.None? by { DrainFrame(cfg, s0, inp.file); }
    hide Drain, BootNext;
    BootFull(cfg, s1);
    PollFull(cfg, BootNext(cfg, s1), 0, inp.poll);
  }

  lemma {:induction false} LapseStands(cfg: Config, s: State)
    requires Known(s) && Stands(s) && BandsInRange(s)
    ensures Known(LapseBand(cfg, s)) && Stands(LapseBand(cfg, s)) && BandsInRange(LapseBand(cfg, s))
  {
  }

  lemma {:induction false} LapseOrdered(cfg: Config, s: State)
    requires Ordered(s)
    ensures Ordered(LapseBand(cfg, s))
  {
  }

  lemma {:induction false} LapseFull(cfg: Config, s: State)
    requires Full(cfg, s) && s.winner.None?
    ensures Full(cfg, LapseBand(cfg, s)) && LapseBand(cfg, s).winner.None?
    ensures LapseBand(cfg, s).clock == s.clock
  {
    hide Core, Known, Stands, BandsInRange, Ordered, LapseBand;
    LapseBandKeeps(cfg, s);
    LapseStands(cfg, s);
    if cfg.tranches && !cfg.feed { LapseOrdered(cfg, s); }
  }

  lemma {:induction false} PopFull(cfg: Config, s: State, at: real)
    requires Full(cfg, s) && s.groups != [] && s.queue == [] && s.running == [] && at >= s.clock
    ensures Full(cfg, PopGroup(s, at).(clock := at))
  {
    PopKeeps(cfg, s, at);
    var s1 := PopGroup(s, at).(clock := at);
    assert Known(s1);
    if cfg.tranches && !cfg.feed {
      forall k | k in s.keep && BandOf(k.route) < s1.bandNo ensures k.id in s1.verdicts {
        if k.id !in s.verdicts {
          StillWaiting(s, k);
          MembersIn(s.groups, k);
        }
      }
      assert Ordered(s1);
    }
  }

  lemma {:induction false} LaterFull(cfg: Config, s: State, t: real)
    requires Full(cfg, s) && t >= s.clock
    ensures Full(cfg, s.(clock := t))
  {
    Later(cfg, s, t);
  }

  lemma {:induction false} SettleFull(cfg: Config, s: State, inp: Inputs)
    requires Full(cfg, s) && s.winner.None?
    ensures Full(cfg, Settle(cfg, s, inp).state) && Settle(cfg, s, inp).state.winner.None?
  {
    hide Full, LapseBand, PopGroup;
    LapseFull(cfg, s);
    var s1 := LapseBand(cfg, s);
    AfterLapseFull(cfg, s1, s1.clock + inp.working + inp.popping, inp.oversleep);
  }

  lemma {:induction false} AfterLapseFull(cfg: Config, s: State, popAt: real, oversleep: Duration)
    requires Full(cfg, s) && popAt >= s.clock && s.winner.None?
    ensures s.queue == [] && s.running == [] && s.groups != [] ==>
              Full(cfg, PopGroup(s, popAt).(clock := popAt)) && PopGroup(s, popAt).winner.None?
    ensures Full(cfg, s.(clock := popAt + 2.0 + oversleep))
  {
    hide Full;
    if s.queue == [] && s.running == [] && s.groups != [] { PopFull(cfg, s, popAt); }
    LaterFull(cfg, s, popAt + 2.0 + oversleep);
  }

  // ----- runs -----

  lemma {:induction false} StepFull(cfg: Config, s: State, inp: Inputs)
    requires Full(cfg, s) && s.winner.None?
    ensures var r := Step(cfg, s, inp);
            && (r.Live? ==> Full(cfg, r.state) && r.state.winner.None?)
            && (r.Ended? && r.state.winner.Some? && Wants(cfg, s, inp.aliveAtHead) ==>
                  Full(cfg, r.state) && r.state == Polled(cfg, s, inp))
  {
    hide Full, Polled, Settle;
    if Wants(cfg, s, inp.aliveAtHead) {
      PolledFull(cfg, s, inp);
      var s1 := Polled(cfg, s, inp);
      if s1.winner.None? { SettleFull(cfg, s1, inp); }
    }
  }

  // Every loop head of every race keeps every invariant, and no crown is taken yet.
  lemma {:induction false} RunFull(cfg: Config, start: State, env: nat -> Inputs, n: nat)
    requires Full(cfg, start) && start.winner.None?
    ensures var r := Run(cfg, start, env, n);
            r.Live? ==> Full(cfg, r.state) && r.state.winner.None?
    decreases n
  {
    hide Full, Step;
    if n > 0 {
      RunFull(cfg, start, env, n - 1);
      if Run(cfg, start, env, n - 1).Live? {
        StepFull(cfg, Run(cfg, start, env, n - 1).state, env(n - 1));
      }
    }
  }

  // Over every run, a runner found exited cleanly without a marker is never
  // judged by its grace window: the thirty-second rule always comes first.
  lemma {:induction false} GraceIsNeverReached(cfg: Config, start: State, env: nat -> Inputs, n: nat, i: nat,
                                               p: Poll, now: real)
    requires Full(cfg, start) && start.winner.None? && Run(cfg, start, env, n).Live?
    requires i < |Run(cfg, start, env, n).state.running|
    ensures var j := Judge(Run(cfg, start, env, n).state.running[i], p, now);
            j.Wait? ==> !j.late
  {
    RunFull(cfg, start, env, n);
    GraceNeverFires(Run(cfg, start, env, n).state.running[i], p, now);
  }

  // The numbers booted so far never repeat.
  lemma {:induction false} BootsDistinct(s: State)
    requires OnePlace(s) && BootedOnce(s)
    ensures forall i, j :: 0 <= i < j < |s.boots| ==> s.boots[i].entry.id != s.boots[j].entry.id
  {
    forall i, j | 0 <= i < j < |s.boots| ensures s.boots[i].entry.id != s.boots[j].entry.id {
      var id := s.boots[i].entry.id;
      assert Booted(s, id) <= 1 by {
        assert Kept(s, id) == Tally(s, id) <= 1;
        assert Booted(s, id) <= InFlight(s, id) + Decided(s, id);
      }
      if s.boots[j].entry.id == id { CountTwice(BootIds(s.boots), i, j); }
    }
  }

  // Ending the race boots nobody and admits nobody: some state with every
  // invariant has the same boots and the same field.
  lemma {:induction false} StepBoots(cfg: Config, s: State, inp: Inputs) returns (t: State)
    requires Full(cfg, s) && s.winner.None?
    ensures Full(cfg, t) && t.boots == Step(cfg, s, inp).state.boots && t.keep == Step(cfg, s, inp).state.keep
  {
    hide Full, Polled, Settle;
    t := s;
    if Wants(cfg, s, inp.aliveAtHead) {
      PolledFull(cfg, s, inp);
      t := Polled(cfg, s, inp);
      if t.winner.None? && t.clock + inp.working - cfg.started <= cfg.deadline {
        SettleFull(cfg, t, inp);
        t := Settle(cfg, t, inp).state;
      }
    }
  }

  lemma {:induction false} RunBoots(cfg: Config, start: State, env: nat -> Inputs, n: nat) returns (t: State)
    requires Full(cfg, start) && start.winner.None?
    ensures Full(cfg, t)
    ensures t.boots == Run(cfg, start, env, n).state.boots && t.keep == Run(cfg, start, env, n).state.keep
    decreases n
  {
    hide Full, Step;
    if n == 0 {
      t := start;
    } else if Run(cfg, start, env, n - 1).Live? {
      RunFull(cfg, start, env, n - 1);
      t := StepBoots(cfg, Run(cfg, start, env, n - 1).state, env(n - 1));
    } else {
      t := RunBoots(cfg, start, env, n - 1);
    }
  }

  // Safety: one place each and the cap at every loop head; one boot each and
  // the stagger to the very end.
  lemma {:induction false} RaceIsSafe(cfg: Config, keep: seq<Entry>, consumed: nat, drained: seq<Route>,
                                      env: nat -> Inputs, n: nat)
    requires Start(cfg, keep)
    ensures var r := Run(cfg, Init(cfg, keep, consumed, drained), env, n);
            && (r.Live? ==>
                  && OnePlace(r.state)
                  && |r.state.running| <= (if cfg.parallel < 0 then 0 else cfg.parallel)
                  && (forall id :: id in r.state.verdicts ==> r.state.verdicts[id] != PASS))
            && (forall i, j :: 0 <= i < j < |r.state.boots| ==>
                  r.state.boots[i].entry.id != r.state.boots[j].entry.id)
            && (forall j :: 0 < j < |r.state.boots| ==> r.state.boots[j].at - r.state.boots[j - 1].at >= cfg.stagger)
  {
    var start := Init(cfg, keep, consumed, drained);
    InitFull(cfg, keep, consumed, drained);
    RunFull(cfg, start, env, n);
    var t := RunBoots(cfg, start, env, n);
    BootsDistinct(t);
  }

  // With tranches on and no feed, a candidate boots only after every cheaper
  // candidate has been found wanting.
  lemma {:induction false} TranchesBootInOrder(cfg: Config, keep: seq<Entry>, env: nat -> Inputs, n: nat)
    requires Start(cfg, keep) && cfg.tranches && !cfg.feed
    ensures var s := Run(cfg, Init(cfg, keep, 0, []), env, n).state;
            forall b, k :: b in s.boots && k in s.keep && BandOf(k.route) < BandOf(b.entry.route) ==>
              k.id in b.decided && b.decided[k.id] != PASS
  {
    InitFull(cfg, keep, 0, []);
    var t := RunBoots(cfg, Init(cfg, keep, 0, []), env, n);
  }

  // ----- the crown -----

  // A poll pass crowns only a runner that has exited and left "pass" behind.
  lemma {:induction false} CrownNeedsPass(s: State, i: nat, poll: nat -> Poll)
    requires i <= |s.running| && s.winner.None?
    ensures var w := PollFrom(s, i, poll).winner;
            w.Some? ==>
              && (exists r :: r in s.running && r.entry.id == w.value)
              && poll(w.value).exit.Some? && poll(w.value).marker.Some?
              && StatusOf(poll(w.value).marker.value) == "pass"
    decreases |s.running| - i
  {
    if i < |s.running| {
      var r := s.running[i];
      match Judge(r, poll(r.entry.id), s.clock) {
        case Provisional => CrownNeedsPass(s, i + 1, poll);
        case Wait(r', late) =>
          if r.entry.id in s.verdicts {
            CrownNeedsPass(Retire(s, i, s.verdicts[r.entry.id], false), i, poll);
          } else {
            CrownNeedsPass(StayOn(s, i, r', late), i + 1, poll);
          }
        case Decide(v) =>
          if v == PASS {
            assert r in s.running;
          } else {
            CrownNeedsPass(Retire(s, i, v, false), i, poll);
          }
      }
    }
  }
}
