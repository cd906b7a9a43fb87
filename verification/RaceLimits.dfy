// What the race does not promise about its feed: what the first tick of a
// tranche race does to streamed routes, and a route written too late.
module RaceLimits {
  import opened Text
  import opened Race
  import opened RaceProofs
  import opened RaceTheorems
  import opened RaceEnd

  ghost predicate Unbooted(s: State, id: nat) { forall b :: b in s.boots ==> b.entry.id != id }

  // The band clock starts at zero, not at the race's start, so the first tick
  // of a tranche race finds band 0 lapsed: every route the feed hands over in
  // that tick fails at once, and unless it was booted in that very tick it fails
  // as not started.  Without tranches no band ever lapses, and a route that was
  // not booted has no verdict.
  lemma {:induction false} FirstTickFailsStreamed(cfg: Config, keep: seq<Entry>, consumed: nat, drained: seq<Route>,
                                                  inp: Inputs)
    requires Start(cfg, keep) && cfg.feed && keep != [] && cfg.started > 480.0
    requires var s := Init(cfg, keep, consumed, drained);
             Polled(cfg, s, inp).winner.None? && !PastDeadline(cfg, s, inp)
    ensures var s1 := Polled(cfg, Init(cfg, keep, consumed, drained), inp);
            var r := Step(cfg, Init(cfg, keep, consumed, drained), inp);
            forall i {:trigger s1.keep[i]} :: |keep| <= i < |s1.keep| ==>
              var id, vs := s1.keep[i].id, r.state.verdicts;
              if cfg.tranches then
                && r.Live? && id in vs && vs[id] != PASS
                && (Unbooted(s1, id) ==> vs[id] == BandNotStarted(0))
              else Unbooted(s1, id) ==> id !in vs
  {
    hide Polled, Settle, GroupsFrom, Full, PastDeadline, Unbooted;
    var s := Init(cfg, keep, consumed, drained);
    InitFull(cfg, keep, consumed, drained);
    PolledFull(cfg, s, inp);
    PolledBands(cfg, s, inp);
    var s1 := Polled(cfg, s, inp);
    FirstTickSettles(cfg, keep, s, s1, inp);
    forall i | |keep| <= i < |s1.keep| && Unbooted(s1, s1.keep[i].id)
      ensures s1.keep[i] in s1.queue && s1.keep[i].id !in s1.verdicts && s1.keep[i].id !in RunnerIds(s1.running)
    {
      UnbootedQueued(cfg, keep, consumed, drained, inp, i);
      QueuedOnly(cfg, s1, s1.keep[i]);
    }
    if cfg.tranches {
      LapsedTick(cfg, keep, s1, inp);
      forall i | |keep| <= i < |s1.keep| && Unbooted(s1, s1.keep[i].id)
        ensures Settle(cfg, s1, inp).state.verdicts[s1.keep[i].id] == BandNotStarted(0)
      {
        NotStarted(cfg, s1, inp, s1.keep[i]);
      }
    } else {
      SettlesQuietly(cfg, s1, inp);
    }
  }

  lemma {:induction false} FirstTickSettles(cfg: Config, keep: seq<Entry>, s: State, s1: State, inp: Inputs)
    requires s == Init(cfg, keep, s.consumed, s.drained) && keep != [] && cfg.started > 480.0
    requires s1 == Polled(cfg, s, inp) && s1.winner.None? && !PastDeadline(cfg, s, inp)
    ensures Step(cfg, s, inp) == Settle(cfg, s1, inp)
    ensures cfg.tranches ==> BandLapsed(cfg, s1)
  {
    PolledBands(cfg, s, inp);
    if cfg.tranches { WantsGroups(keep); }
  }

  lemma {:induction false} SettlesQuietly(cfg: Config, s: State, inp: Inputs)
    requires !cfg.tranches
    ensures Settle(cfg, s, inp).state.verdicts == s.verdicts
  {
  }

  // A streamed route that the first tick did not boot is still queued after it.
  lemma {:induction false} UnbootedQueued(cfg: Config, keep: seq<Entry>, consumed: nat, drained: seq<Route>,
                                          inp: Inputs, i: nat)
    requires var s1 := Polled(cfg, Init(cfg, keep, consumed, drained), inp);
             |keep| <= i < |s1.keep| && Unbooted(s1, s1.keep[i].id)
    ensures var s1 := Polled(cfg, Init(cfg, keep, consumed, drained), inp); s1.keep[i] in s1.queue
  {
    hide Admit, Admitted, PollFrom, RoutesOf, Unread, GroupsFrom, Judge;
    var s := Init(cfg, keep, consumed, drained);
    var s0 := s.(clock := s.clock + inp.lag);
    var s2 := Drain(cfg, s0, inp.file);
    var s3 := BootNext(cfg, s2);
    PollFrame(s3, 0, inp.poll);
    var e := s2.keep[i];
    if cfg.feed {
      var routes := RoutesOf(Unread(s0, inp.file));
      AdmitAppends(cfg, s0.(consumed := s0.consumed + |Unread(s0, inp.file)|, drained := s0.drained + routes), routes);
      assert e == Admitted(cfg, |keep|, routes)[i - |keep|];
      assert e == s2.queue[|s0.queue| + (i - |keep|)];
    }
    if MayBoot(cfg, s2) {
      assert s3.boots[|s2.boots|] in s3.boots;
      assert s2.queue == [s2.queue[0]] + s2.queue[1..];
    }
  }

  // Queued means in no other place.
  lemma {:induction false} QueuedOnly(cfg: Config, s: State, e: Entry)
    requires Full(cfg, s) && e in s.queue
    ensures e.id !in s.verdicts && e.id !in RunnerIds(s.running)
  {
    var j :| 0 <= j < |s.queue| && s.queue[j] == e;
    assert Ids(s.queue)[j] == e.id;
    assert Kept(s, e.id) == Tally(s, e.id) <= 1;
  }

  lemma {:induction false} NotStarted(cfg: Config, s: State, inp: Inputs, e: Entry)
    requires BandLapsed(cfg, s) && e in s.queue && e.id !in s.verdicts && e.id !in RunnerIds(s.running)
    ensures e.id in Settle(cfg, s, inp).state.verdicts
    ensures Settle(cfg, s, inp).state.verdicts[e.id] == BandNotStarted(s.bandNo)
  {
    var j :| 0 <= j < |s.queue| && s.queue[j] == e;
    assert Ids(s.queue)[j] == e.id;
    assert LapseBand(cfg, s).verdicts[e.id] == BandNotStarted(s.bandNo);
    hide LapseBand;
  }

  lemma {:induction false} LapsedTick(cfg: Config, keep: seq<Entry>, s: State, inp: Inputs)
    requires Full(cfg, s) && s.winner.None? && cfg.feed
    requires BandLapsed(cfg, s) && keep != [] && keep <= s.keep && s.groups == GroupsFrom(keep, 0)
    ensures Settle(cfg, s, inp).Live?
    ensures forall i :: |keep| <= i < |s.keep| ==>
              s.keep[i].id in Settle(cfg, s, inp).state.verdicts
              && Settle(cfg, s, inp).state.verdicts[s.keep[i].id] != PASS
  {
    WantsGroups(keep);
    LapseFull(cfg, s);
    LapsedAll(cfg, keep, LapseBand(cfg, s));
  }

  lemma {:induction false} LapsedAll(cfg: Config, keep: seq<Entry>, s: State)
    requires Full(cfg, s) && s.winner.None? && cfg.feed
    requires s.queue == [] && s.running == [] && s.groups == GroupsFrom(keep, 0) && keep <= s.keep
    ensures forall i :: |keep| <= i < |s.keep| ==> s.keep[i].id in s.verdicts && s.verdicts[s.keep[i].id] != PASS
  {
    forall i | |keep| <= i < |s.keep| ensures s.keep[i].id in s.verdicts && s.verdicts[s.keep[i].id] != PASS {
      StreamedIsDecided(keep, s, i);
    }
  }

  lemma {:induction false} StreamedIsDecided(keep: seq<Entry>, s: State, i: nat)
    requires OnePlace(s) && Known(s) && s.queue == [] && s.running == [] && s.groups == GroupsFrom(keep, 0)
    requires forall j :: 0 <= j < |s.keep| ==> s.keep[j].id == j + 1
    requires keep <= s.keep && |keep| <= i < |s.keep|
    ensures s.keep[i].id in s.verdicts
  {
    var e := s.keep[i];
    if e.id !in s.verdicts {
      StillWaiting(s, e);
      MemberKnown(keep, e);
      assert false;
    }
  }

  lemma {:induction false} WantsGroups(keep: seq<Entry>)
    requires keep != []
    ensures GroupsFrom(keep, 0) != []
  {
    var id := keep[0].id;
    GroupsCount(keep, 0, id);
    AllBands(keep);
    assert Ids(keep)[0] == id;
  }

  // ----- a route written late -----

  const Slow: Route := Route("source_build", "direct", "slowest")
  const Quick: Route := Route("prebuilt_image", "container", "fast")
  const Dear: Entry := Entry(1, Slow)

  function Crash(id: nat): (p: Poll) { Poll(Some(1), None) }

  function Instant(file: seq<Line>, alive: bool, poll: nat -> Poll): (inp: Inputs) {
    Inputs(0.0, 0.0, 0.0, 0.0, file, true, alive, poll)
  }

  // The scout writes its one route after the first tick has read the file, and
  // is gone when that tick ends.
  function LateWrite(n: nat): (inp: Inputs) {
    Instant(if n == 0 then [] else [RouteLine(Quick)], false, Crash)
  }

  // A race of one candidate that starts at `epoch`, with no stagger.
  function Streaming(epoch: real): (cfg: Config) {
    Config(false, true, 0.0, 2, 2700.0, epoch, (r, i) => true)
  }

  // The loss does happen: whenever the race starts, this one ends without
  // having read a route that LostIffAppendedLater says was written too late.
  lemma {:induction false} LateRouteIsLost(epoch: real)
    ensures Start(Streaming(epoch), [Dear])
    ensures LateWrite(0).file < LateWrite(1).file && RoutesOf(LateWrite(1).file) == [Quick]
    ensures var r := Run(Streaming(epoch), Init(Streaming(epoch), [Dear], 0, []), LateWrite, 1);
            r.Ended? && r.state.drained == []
  {
    assert [RouteLine(Quick)][1..] == [];
    var cfg := Streaming(epoch);
    var start := Init(cfg, [Dear], 0, []);
    var s1, r := BootNext(cfg, start), Runner(Dear, None, None);
    assert s1.running == [r];
    assert Judge(r, Crash(1), epoch) == Decide(RunnerExit(1));
    var s2 := Retire(s1, 0, RunnerExit(1), false);
    assert s2.running == [];
    assert PollFrom(s1, 0, Crash) == PollFrom(s2, 0, Crash) == s2;
    assert Polled(cfg, start, LateWrite(0)) == s2;
    assert Run(cfg, start, LateWrite, 0) == Live(start);
  }
}
