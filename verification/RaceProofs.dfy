// What every run of the race keeps, and what its end guarantees.
module RaceProofs {
  import opened Text
  import opened Race

  // ----- places: each kept candidate is in exactly one -----

  function Members(gs: seq<Group>): (r: seq<Entry>) {
    if gs == [] then [] else gs[0].members + Members(gs[1..])
  }

  function BootIds(bs: seq<Boot>): (r: seq<nat>) {
    seq(|bs|, i requires 0 <= i < |bs| => bs[i].entry.id)
  }

  // How often a number occurs.
  function Count(ids: seq<nat>, id: nat): (n: nat)
    ensures n > 0 <==> id in ids
  {
    if ids == [] then 0 else (if ids[0] == id then 1 else 0) + Count(ids[1..], id)
  }

  ghost function Kept(s: State, id: nat): nat { Count(Ids(s.keep), id) }
  ghost function Waiting(s: State, id: nat): nat { Count(Ids(Members(s.groups)), id) }
  ghost function Queued(s: State, id: nat): nat { Count(Ids(s.queue), id) }
  ghost function InFlight(s: State, id: nat): nat { Count(RunnerIds(s.running), id) }
  ghost function Decided(s: State, id: nat): nat { if id in s.verdicts then 1 else 0 }
  ghost function Booted(s: State, id: nat): nat { Count(BootIds(s.boots), id) }
  ghost function Tally(s: State, id: nat): nat {
    Waiting(s, id) + Queued(s, id) + InFlight(s, id) + Decided(s, id)
  }

  // Every kept number is in one place only, and no place holds another number.
  ghost predicate OnePlace(s: State) {
    forall id {:trigger Kept(s, id)} {:trigger Tally(s, id)} :: Kept(s, id) == Tally(s, id) <= 1
  }

  // Streamed candidates take the next free number.
  ghost predicate Numbered(cfg: Config, s: State) {
    cfg.feed ==> forall j :: 0 <= j < |s.keep| ==> s.keep[j].id == j + 1
  }

  // What runs was booted, and what was booted runs or is decided.
  ghost predicate BootedOnce(s: State) {
    forall id {:trigger Booted(s, id)} :: InFlight(s, id) <= Booted(s, id) <= InFlight(s, id) + Decided(s, id)
  }

  ghost predicate Capped(cfg: Config, s: State) {
    |s.running| <= if cfg.parallel < 0 then 0 else cfg.parallel
  }

  ghost predicate Spaced(cfg: Config, s: State) {
    && s.lastEvent <= s.clock
    && cfg.started <= s.lastEvent
    && (s.boots != [] ==> s.boots[0].at - cfg.started >= cfg.stagger && s.boots[|s.boots| - 1].at <= s.lastEvent)
    && (forall j :: 0 < j < |s.boots| ==> s.boots[j].at - s.boots[j - 1].at >= cfg.stagger)
  }

  ghost predicate Trails(r: Runner) {
    && r.doneAt.Some? == r.grace.Some?
    && (r.doneAt.Some? ==> r.grace.value == r.doneAt.value + 120.0)
  }

  // A grace window always trails the exit it belongs to by 120 seconds.
  ghost predicate GraceTrails(s: State) {
    forall r :: r in s.running ==> Trails(r)
  }

  // Exactly the winner's verdict is "pass".
  ghost predicate CrownMatches(s: State) {
    && (forall id :: id in s.verdicts && s.verdicts[id] == PASS ==> s.winner == Some(id))
    && (s.winner.Some? ==> s.winner.value in s.verdicts && s.verdicts[s.winner.value] == PASS)
  }

  ghost predicate Places(cfg: Config, s: State) { OnePlace(s) && Numbered(cfg, s) && BootedOnce(s) }

  ghost predicate Pace(cfg: Config, s: State) {
    Capped(cfg, s) && Spaced(cfg, s) && GraceTrails(s) && CrownMatches(s)
  }

  ghost predicate Core(cfg: Config, s: State) { Places(cfg, s) && Pace(cfg, s) }

  lemma {:induction false} CountAppend(a: seq<nat>, b: seq<nat>, id: nat)
    ensures Count(a + b, id) == Count(a, id) + Count(b, id)
  {
    if a == [] {
      assert a + b == b;
    } else {
      CountAppend(a[1..], b, id);
      assert a + b == [a[0]] + (a[1..] + b);
    }
  }

  lemma {:induction false} IdsAppend(a: seq<Entry>, b: seq<Entry>, id: nat)
    ensures Count(Ids(a + b), id) == Count(Ids(a), id) + Count(Ids(b), id)
  {
    assert Ids(a + b) == Ids(a) + Ids(b);
    CountAppend(Ids(a), Ids(b), id);
  }

  lemma {:induction false} RunnerIdsAppend(a: seq<Runner>, b: seq<Runner>, id: nat)
    ensures Count(RunnerIds(a + b), id) == Count(RunnerIds(a), id) + Count(RunnerIds(b), id)
  {
    assert RunnerIds(a + b) == RunnerIds(a) + RunnerIds(b);
    CountAppend(RunnerIds(a), RunnerIds(b), id);
  }

  function One(a: nat, b: nat): nat { if a == b then 1 else 0 }

  // Taking one runner out takes one occurrence of its number out.
  lemma {:induction false} RunnerOut(rs: seq<Runner>, i: nat, id: nat)
    requires i < |rs|
    ensures Count(RunnerIds(rs), id) ==
            Count(RunnerIds(rs[..i] + rs[i + 1..]), id) + One(rs[i].entry.id, id)
  {
    assert rs == (rs[..i] + [rs[i]]) + rs[i + 1..];
    RunnerIdsAppend(rs[..i] + [rs[i]], rs[i + 1..], id);
    RunnerIdsAppend(rs[..i], [rs[i]], id);
    RunnerIdsAppend(rs[..i], rs[i + 1..], id);
    assert RunnerIds([rs[i]]) == [rs[i].entry.id];
  }

  // ----- each phase keeps the core -----

  lemma {:induction false} AdmitOne(cfg: Config, s: State, r: Route)
    requires Places(cfg, s) && cfg.feed
    ensures var e := Entry(|s.keep| + 1, r);
            Places(cfg, s.(keep := s.keep + [e], queue := s.queue + [e]))
  {
    var e := Entry(|s.keep| + 1, r);
    var s1 := s.(keep := s.keep + [e], queue := s.queue + [e]);
    assert e.id !in Ids(s.keep);
    assert Ids([e]) == [e.id];
    forall id ensures Kept(s1, id) == Tally(s1, id) <= 1 {
      IdsAppend(s.keep, [e], id);
      IdsAppend(s.queue, [e], id);
      assert Kept(s, id) == Tally(s, id) <= 1;
    }
    forall id ensures InFlight(s1, id) <= Booted(s1, id) <= InFlight(s1, id) + Decided(s1, id) {
      assert Booted(s, id) == Booted(s1, id);
    }
  }

  lemma {:induction false} AdmitKeeps(cfg: Config, s: State, routes: seq<Route>)
    requires Places(cfg, s) && cfg.feed
    ensures Places(cfg, Admit(cfg, s, routes))
    decreases |routes|
  {
    if routes != [] {
      var i := |s.keep| + 1;
      if !cfg.allowed(routes[0], i) {
        AdmitKeeps(cfg, s, routes[1..]);
      } else {
        AdmitOne(cfg, s, routes[0]);
        var e := Entry(i, routes[0]);
        AdmitKeeps(cfg, s.(keep := s.keep + [e], queue := s.queue + [e]), routes[1..]);
      }
    }
  }

  // Places looks at nothing but these fields.
  lemma {:induction false} SamePlaces(cfg: Config, s: State, s1: State)
    requires Places(cfg, s)
    requires s1.keep == s.keep && s1.groups == s.groups && s1.queue == s.queue
    requires s1.running == s.running && s1.verdicts == s.verdicts && s1.boots == s.boots
    ensures Places(cfg, s1)
  {
    forall id ensures Kept(s1, id) == Tally(s1, id) <= 1 { assert Kept(s, id) == Tally(s, id) <= 1; }
    forall id ensures InFlight(s1, id) <= Booted(s1, id) <= InFlight(s1, id) + Decided(s1, id) {
      assert Booted(s, id) == Booted(s1, id);
    }
  }

  lemma {:induction false} DrainKeeps(cfg: Config, s: State, file: seq<Line>)
    requires Core(cfg, s)
    ensures Core(cfg, Drain(cfg, s, file))
  {
    DrainFrame(cfg, s, file);
    if cfg.feed {
      var routes := RoutesOf(Unread(s, file));
      var s1 := s.(consumed := s.consumed + |Unread(s, file)|, drained := s.drained + routes);
      SamePlaces(cfg, s, s1);
      AdmitKeeps(cfg, s1, routes);
    }
  }

  lemma {:induction false} BootPlaces(cfg: Config, s: State)
    requires Places(cfg, s)
    ensures Places(cfg, BootNext(cfg, s))
  {
    if MayBoot(cfg, s) {
      var e, s1 := s.queue[0], BootNext(cfg, s);
      assert s.queue == [e] + s.queue[1..];
      assert RunnerIds([Runner(e, None, None)]) == [e.id] == Ids([e]);
      assert BootIds(s1.boots) == BootIds(s.boots) + [e.id];
      forall id
        ensures Kept(s1, id) == Tally(s1, id) <= 1
        ensures InFlight(s1, id) <= Booted(s1, id) <= InFlight(s1, id) + Decided(s1, id)
      {
        IdsAppend([e], s.queue[1..], id);
        RunnerIdsAppend(s.running, [Runner(e, None, None)], id);
        CountAppend(BootIds(s.boots), [e.id], id);
        assert Kept(s, id) == Tally(s, id) <= 1;
        assert Booted(s, id) <= InFlight(s, id) + Decided(s, id);
      }
    }
  }

  lemma {:induction false} BootKeeps(cfg: Config, s: State)
    requires Core(cfg, s)
    ensures Core(cfg, BootNext(cfg, s)) && BootNext(cfg, s).winner == s.winner
  {
    BootPlaces(cfg, s);
    assert Pace(cfg, BootNext(cfg, s));
  }

  lemma {:induction false} RunnerUndecided(s: State, i: nat)
    requires OnePlace(s) && i < |s.running|
    ensures s.running[i].entry.id !in s.verdicts
  {
    var id := s.running[i].entry.id;
    assert RunnerIds(s.running)[i] == id;
    assert Kept(s, id) == Tally(s, id) <= 1;
  }

  lemma {:induction false} RetirePlaces(cfg: Config, s: State, i: nat, v: Verdict, crown: bool)
    requires i < |s.running| && Places(cfg, s)
    ensures Places(cfg, Retire(s, i, v, crown))
  {
    var s1 := Retire(s, i, v, crown);
    RunnerUndecided(s, i);
    forall id
      ensures Kept(s1, id) == Tally(s1, id) <= 1
      ensures InFlight(s1, id) <= Booted(s1, id) <= InFlight(s1, id) + Decided(s1, id)
    {
      RunnerOut(s.running, i, id);
      assert Kept(s, id) == Tally(s, id) <= 1;
      assert InFlight(s, id) <= Booted(s, id) <= InFlight(s, id) + Decided(s, id);
    }
  }

  lemma {:induction false} StayPlaces(cfg: Config, s: State, i: nat, r: Runner)
    requires i < |s.running| && Places(cfg, s) && r.entry == s.running[i].entry
    ensures Places(cfg, StayOn(s, i, r, false))
  {
    var s1 := StayOn(s, i, r, false);
    assert RunnerIds(s1.running) == RunnerIds(s.running);
    forall id
      ensures Kept(s1, id) == Tally(s1, id) <= 1
      ensures InFlight(s1, id) <= Booted(s1, id) <= InFlight(s1, id) + Decided(s1, id)
    {
      assert Kept(s, id) == Tally(s, id) <= 1;
      assert InFlight(s, id) <= Booted(s, id) <= InFlight(s, id) + Decided(s, id);
    }
  }

  // The grace verdict never fires: thirty seconds after a clean exit the
  // runner is retired, ninety before its grace window closes.
  lemma {:induction false} GraceNeverFires(r: Runner, p: Poll, now: real)
    requires Trails(r)
    ensures Judge(r, p, now).Wait? ==>
              !Judge(r, p, now).late && Judge(r, p, now).runner.entry == r.entry && Trails(Judge(r, p, now).runner)
  {
  }

  lemma {:induction false} Later(cfg: Config, s: State, t: real)
    requires Core(cfg, s) && t >= s.clock
    ensures Core(cfg, s.(clock := t))
  {
    SamePlaces(cfg, s, s.(clock := t));
  }

  lemma {:induction false} LapseBandPlaces(cfg: Config, s: State)
    requires Places(cfg, s)
    ensures Places(cfg, LapseBand(cfg, s))
  {
    if BandLapsed(cfg, s) {
      var s1 := LapseBand(cfg, s);
      forall id
        ensures Kept(s1, id) == Tally(s1, id) <= 1
        ensures InFlight(s1, id) <= Booted(s1, id) <= InFlight(s1, id) + Decided(s1, id)
      {
        assert Kept(s, id) == Tally(s, id) <= 1;
        assert InFlight(s, id) <= Booted(s, id) <= InFlight(s, id) + Decided(s, id);
        assert id in s1.verdicts <==> id in s.verdicts || id in RunnerIds(s.running) || id in Ids(s.queue);
      }
    }
  }

  lemma {:induction false} LapseBandKeeps(cfg: Config, s: State)
    requires Core(cfg, s)
    ensures Core(cfg, LapseBand(cfg, s)) && LapseBand(cfg, s).winner == s.winner
    ensures LapseBand(cfg, s).clock == s.clock
  {
    LapseBandPlaces(cfg, s);
    assert Pace(cfg, LapseBand(cfg, s));
  }

  lemma {:induction false} PopKeeps(cfg: Config, s: State, at: real)
    requires Core(cfg, s) && s.groups != [] && s.queue == [] && at >= s.clock
    ensures Core(cfg, PopGroup(s, at).(clock := at))
  {
    var s1 := PopGroup(s, at).(clock := at);
    forall id
      ensures Kept(s1, id) == Tally(s1, id) <= 1
      ensures InFlight(s1, id) <= Booted(s1, id) <= InFlight(s1, id) + Decided(s1, id)
    {
      IdsAppend(s.groups[0].members, Members(s.groups[1..]), id);
      assert Kept(s, id) == Tally(s, id) <= 1;
      assert InFlight(s, id) <= Booted(s, id) <= InFlight(s, id) + Decided(s, id);
    }
    assert Pace(cfg, s1);
  }
}
