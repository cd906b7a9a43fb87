// Without a feed the tranches boot in order; with one they need not: a cheap
// route that comes late is overtaken, and a dear one that comes early overtakes.
module RaceOrder {
  import opened Text
  import opened Race
  import opened RaceProofs
  import opened RaceTheorems
  import opened RaceEnd

  // ----- playing a script -----

  // What the environment answers, trip by trip; the last answer stands.
  function Played(script: seq<Inputs>): (env: nat -> Inputs)
    requires script != []
  {
    (n: nat) => if n < |script| then script[n] else script[|script| - 1]
  }

  lemma {:induction false} RunAgrees(cfg: Config, start: State, e1: nat -> Inputs, e2: nat -> Inputs, n: nat)
    requires forall k: nat :: k < n ==> e1(k) == e2(k)
    ensures Run(cfg, start, e1, n) == Run(cfg, start, e2, n)
    decreases n
  {
    hide Step;
    if n > 0 { RunAgrees(cfg, start, e1, e2, n - 1); }
  }

  lemma {:induction false} PlayOn(cfg: Config, start: State, script: seq<Inputs>, inp: Inputs)
    requires script != [] && Run(cfg, start, Played(script), |script|).Live?
    ensures Run(cfg, start, Played(script + [inp]), |script| + 1) ==
            Step(cfg, Run(cfg, start, Played(script), |script|).state, inp)
  {
    hide Step;
    RunAgrees(cfg, start, Played(script), Played(script + [inp]), |script|);
  }

  // ----- the groups that wait -----

  // The next group is the cheapest band that has candidates left.
  lemma {:induction false} NextGroup(keep: seq<Entry>, b: nat, e: Entry)
    requires b <= 4 && e in keep && BandOf(e.route) >= b
    ensures var gs := GroupsFrom(keep, b);
            && gs != [] && b <= gs[0].band <= BandOf(e.route)
            && gs[0].members == InBand(keep, gs[0].band) != []
            && gs[1..] == GroupsFrom(keep, gs[0].band + 1)
    decreases 4 - b
  {
    hide BandOf;
    BandBound(e);
    var here := InBand(keep, b);
    if here == [] {
      if BandOf(e.route) == b { InBandHas(keep, b, e); }
      NextGroup(keep, b + 1, e);
      assert GroupsFrom(keep, b) == GroupsFrom(keep, b + 1);
    } else {
      assert GroupsFrom(keep, b) == [Group(b, here)] + GroupsFrom(keep, b + 1);
    }
  }

  lemma {:induction false} BandBound(e: Entry)
    ensures BandOf(e.route) < 4
  {
  }

  lemma {:induction false} InBandHas(keep: seq<Entry>, b: nat, e: Entry)
    requires e in keep && BandOf(e.route) == b
    ensures InBand(keep, b) != []
    decreases |keep|
  {
    hide BandOf;
    if BandOf(keep[0].route) != b {
      assert e in keep[1..];
      InBandHas(keep[1..], b, e);
    }
  }

  // ----- letting the cheaper bands lapse -----

  function NoAnswer(id: nat): (p: Poll) { Poll(None, None) }

  function Silence(lag: Duration, file: seq<Line>): (inp: Inputs) {
    Inputs(lag, 0.0, 0.0, 0.0, file, true, true, NoAnswer)
  }

  // Seconds it takes to let every band below b lapse, with a second to spare.
  function Spent(b: nat): (t: real)
    ensures t >= 0.0
  {
    if b == 0 then 0.0 else Spent(b - 1) + BandSecs(b - 1) + 1.0
  }

  lemma {:induction false} SpentGrows(a: nat, b: nat)
    requires a <= b
    ensures Spent(a) <= Spent(b)
    decreases b
  {
    if a < b { SpentGrows(a, b - 1); }
  }

  // A band has just been popped: its whole membership is queued, nothing runs,
  // and nothing has come from the feed.
  ghost predicate Popped(cfg: Config, keep: seq<Entry>, base: seq<Line>, s: State) {
    && Full(cfg, s) && s.winner.None? && s.keep == keep && s.consumed == |base|
    && s.running == [] && s.bandNo < 4 && s.queue == InBand(keep, s.bandNo) != []
    && s.groups == GroupsFrom(keep, s.bandNo + 1)
    && s.bandStart == s.clock && s.clock - cfg.started <= Spent(s.bandNo)
  }

  lemma {:induction false} NothingNew(cfg: Config, s: State, base: seq<Line>)
    requires s.consumed == |base|
    ensures Drain(cfg, s, base) == s
  {
    assert Unread(s, base) == [];
    assert s.drained + [] == s.drained;
  }

  // The first tick pops the cheapest band.
  lemma {:induction false} FirstPop(cfg: Config, keep: seq<Entry>, base: seq<Line>, drained: seq<Route>, e: Entry)
    requires Start(cfg, keep) && cfg.tranches && e in keep && cfg.deadline >= 0.0
    ensures var r := Step(cfg, Init(cfg, keep, |base|, drained), Silence(0.0, base));
            r.Live? && Popped(cfg, keep, base, r.state) && r.state.bandNo <= BandOf(e.route)
  {
    hide GroupsFrom, Full, Drain, BandOf, InBand;
    var s, inp := Init(cfg, keep, |base|, drained), Silence(0.0, base);
    InitFull(cfg, keep, |base|, drained);
    StepFull(cfg, s, inp);
    NextGroup(keep, 0, e);
    BandBound(e);
    SpentGrows(0, s.groups[0].band);
    assert s.(clock := s.clock + inp.lag) == s;
    NothingNew(cfg, s, base);
    assert Polled(cfg, s, inp) == s;
    assert LapseBand(cfg, s) == s;
  }

  // A boot whose runner does not answer yet.
  lemma {:induction false} QuietBoot(cfg: Config, s: State)
    requires MayBoot(cfg, s) && s.running == [] && s.queue[0].id !in s.verdicts
    ensures PollFrom(BootNext(cfg, s), 0, NoAnswer) == BootNext(cfg, s)
  {
    var s1, r := BootNext(cfg, s), Runner(s.queue[0], None, None);
    assert s1.running == [r] && [r][0 := r] == [r];
    assert Judge(r, NoAnswer(r.entry.id), s1.clock) == Wait(r, false);
    assert StayOn(s1, 0, r, false) == s1;
    assert PollFrom(s1, 1, NoAnswer) == s1;
  }

  lemma {:induction false} HeadUndecided(cfg: Config, s: State)
    requires Full(cfg, s) && s.queue != []
    ensures s.queue[0].id !in s.verdicts
  {
    assert Ids(s.queue)[0] == s.queue[0].id;
    assert Kept(s, s.queue[0].id) == Tally(s, s.queue[0].id) <= 1;
  }

  // Polling in silence is booting.
  lemma {:induction false} SilentPoll(cfg: Config, s: State, base: seq<Line>, lag: Duration)
    requires Full(cfg, s) && s.queue != [] && s.running == [] && s.consumed == |base|
    ensures Polled(cfg, s, Silence(lag, base)) == BootNext(cfg, s.(clock := s.clock + lag))
  {
    hide Drain;
    var s0 := s.(clock := s.clock + lag);
    NothingNew(cfg, s0, base);
    HeadUndecided(cfg, s);
    if MayBoot(cfg, s0) { QuietBoot(cfg, s0); }
  }

  // Left in silence for longer than its time, a band is out of the way.
  lemma {:induction false} SilenceLapses(cfg: Config, keep: seq<Entry>, base: seq<Line>, s: State)
    requires Popped(cfg, keep, base, s) && cfg.tranches && s.bandNo < 3
    ensures var inp := Silence(BandSecs(s.bandNo) + 1.0, base);
            var s1 := Polled(cfg, s, inp);
            && s1.winner.None? && s1.keep == keep && s1.consumed == |base|
            && s1.clock == s.clock + inp.lag
            && LapseBand(cfg, s1) == s1.(verdicts := LapseBand(cfg, s1).verdicts, running := [], queue := [])
            && s1.groups == s.groups
  {
    hide GroupsFrom, Full, InBand, Polled, Drain, SetDefaults;
    SilentPoll(cfg, s, base, BandSecs(s.bandNo) + 1.0);
  }

  // A band left in silence lapses, and the next is popped.
  lemma {:induction false} NextPop(cfg: Config, keep: seq<Entry>, base: seq<Line>, s: State, e: Entry)
    requires Popped(cfg, keep, base, s) && cfg.tranches
    requires e in keep && s.bandNo < BandOf(e.route) && cfg.deadline >= Spent(BandOf(e.route))
    ensures var r := Step(cfg, s, Silence(BandSecs(s.bandNo) + 1.0, base));
            r.Live? && Popped(cfg, keep, base, r.state) && s.bandNo < r.state.bandNo <= BandOf(e.route)
  {
    hide GroupsFrom, Full, BandOf, InBand, Polled, LapseBand;
    BandBound(e);
    var inp := Silence(BandSecs(s.bandNo) + 1.0, base);
    StepFull(cfg, s, inp);
    SilenceLapses(cfg, keep, base, s);
    NextGroup(keep, s.bandNo + 1, e);
    SpentGrows(s.bandNo + 1, s.groups[0].band);
    SpentGrows(s.bandNo + 1, BandOf(e.route));
  }

  // ----- reaching a band -----

  ghost predicate Waits(script: seq<Inputs>, base: seq<Line>) {
    forall i :: 0 <= i < |script| ==> script[i].file == base && script[i].aliveAtHead && script[i].aliveAtEnd
  }

  lemma {:induction false} Reach(cfg: Config, keep: seq<Entry>, base: seq<Line>, drained: seq<Route>, e: Entry,
                                 script: seq<Inputs>) returns (more: seq<Inputs>)
    requires Start(cfg, keep) && cfg.tranches && e in keep && cfg.deadline >= Spent(BandOf(e.route))
    requires script != [] && Waits(script, base)
    requires var r := Run(cfg, Init(cfg, keep, |base|, drained), Played(script), |script|);
             r.Live? && Popped(cfg, keep, base, r.state) && r.state.bandNo <= BandOf(e.route)
    ensures more != [] && Waits(more, base)
    ensures var r := Run(cfg, Init(cfg, keep, |base|, drained), Played(more), |more|);
            r.Live? && Popped(cfg, keep, base, r.state) && r.state.bandNo == BandOf(e.route)
    decreases BandOf(e.route) - Run(cfg, Init(cfg, keep, |base|, drained), Played(script), |script|).state.bandNo
  {
    hide Step, Popped, BandOf, Init, Start;
    var start := Init(cfg, keep, |base|, drained);
    var s := Run(cfg, start, Played(script), |script|).state;
    if s.bandNo == BandOf(e.route) {
      more := script;
    } else {
      var inp := Silence(BandSecs(s.bandNo) + 1.0, base);
      NextPop(cfg, keep, base, s, e);
      PlayOn(cfg, start, script, inp);
      more := Reach(cfg, keep, base, drained, e, script + [inp]);
    }
  }

  lemma {:induction false} UntilPopped(cfg: Config, keep: seq<Entry>, base: seq<Line>, drained: seq<Route>, e: Entry)
    returns (wait: seq<Inputs>)
    requires Start(cfg, keep) && cfg.tranches && e in keep && cfg.deadline >= Spent(BandOf(e.route))
    ensures wait != [] && Waits(wait, base)
    ensures var r := Run(cfg, Init(cfg, keep, |base|, drained), Played(wait), |wait|);
            r.Live? && Popped(cfg, keep, base, r.state) && r.state.bandNo == BandOf(e.route)
  {
    hide Step, Popped, BandOf, Init, Start;
    var start := Init(cfg, keep, |base|, drained);
    var first := [Silence(0.0, base)];
    SpentGrows(0, BandOf(e.route));
    FirstPop(cfg, keep, base, drained, e);
    assert Run(cfg, start, Played(first), 0) == Live(start);
    assert Run(cfg, start, Played(first), 1) == Step(cfg, start, first[0]);
    wait := Reach(cfg, keep, base, drained, e, first);
  }

  // ----- breaking the order -----

  // A candidate was booted while a kept, cheaper one had no verdict.
  ghost predicate OrderBroken(s: State, cheap: Entry) {
    cheap in s.keep && exists b :: b in s.boots && BandOf(cheap.route) < BandOf(b.entry.route) && cheap.id !in b.decided
  }

  lemma {:induction false} DrainsOne(cfg: Config, s: State, base: seq<Line>, q: Route)
    requires cfg.feed && s.consumed == |base| && cfg.allowed(q, |s.keep| + 1)
    ensures var e := Entry(|s.keep| + 1, q);
            Drain(cfg, s, base + [RouteLine(q)]) ==
            s.(keep := s.keep + [e], queue := s.queue + [e], consumed := |base| + 1, drained := s.drained + [q])
  {
    var file := base + [RouteLine(q)];
    assert Unread(s, file) == [RouteLine(q)];
    assert [RouteLine(q)][1..] == [] && [q][1..] == [];
    assert RoutesOf([RouteLine(q)]) == [q] + RoutesOf([]) == [q];
    var e := Entry(|s.keep| + 1, q);
    var s0 := s.(consumed := |base| + 1, drained := s.drained + [q]);
    var s1 := s0.(keep := s.keep + [e], queue := s.queue + [e]);
    assert Admit(cfg, s0, [q]) == Admit(cfg, s1, []) == s1;
  }

  // Whatever ends or goes on after the poll, boots and field stay.
  lemma {:induction false} TickKeepsBoots(cfg: Config, s: State, inp: Inputs)
    requires Wants(cfg, s, inp.aliveAtHead)
    ensures var t := Step(cfg, s, inp).state;
            t.boots == Polled(cfg, s, inp).boots && t.keep == Polled(cfg, s, inp).keep
  {
    hide Polled;
  }

  lemma {:induction false} NextIsFree(cfg: Config, s: State)
    requires Full(cfg, s) && cfg.feed
    ensures |s.keep| + 1 !in s.verdicts
  {
    var id := |s.keep| + 1;
    assert id !in Ids(s.keep);
    assert Kept(s, id) == Tally(s, id) <= 1;
  }

  // The tick that admits a cheap route boots the head of a dearer band.
  lemma {:induction false} BootsDear(cfg: Config, keep: seq<Entry>, base: seq<Line>, s: State, q: Route, lag: Duration)
    requires Popped(cfg, keep, base, s) && cfg.feed && cfg.parallel > 0 && lag >= cfg.stagger
    requires BandOf(q) < s.bandNo && cfg.allowed(q, |keep| + 1)
    ensures var t := Step(cfg, s, Silence(lag, base + [RouteLine(q)])).state;
            OrderBroken(t, Entry(|keep| + 1, q))
  {
    hide Full, PollFrom, Drain, BandOf, InBand, Settle, GroupsFrom;
    var inp := Silence(lag, base + [RouteLine(q)]);
    var s0 := s.(clock := s.clock + lag);
    DrainsOne(cfg, s0, base, q);
    NextIsFree(cfg, s);
    HeadBand(cfg, keep, s);
    var s1 := Drain(cfg, s0, inp.file);
    assert s1.queue[0] == s.queue[0];
    LastEventPast(cfg, s);
    assert MayBoot(cfg, s1);
    var s2 := BootNext(cfg, s1);
    PollFrame(s2, 0, inp.poll);
    TickKeepsBoots(cfg, s, inp);
    var b := Boot(s.queue[0], s0.clock, s.verdicts);
    assert s2.boots[|s1.boots|] == b && b in s2.boots;
    assert s2.keep[|keep|] == Entry(|keep| + 1, q);
  }

  lemma {:induction false} LastEventPast(cfg: Config, s: State)
    requires Full(cfg, s)
    ensures s.lastEvent <= s.clock
  {
  }

  lemma {:induction false} HeadBand(cfg: Config, keep: seq<Entry>, s: State)
    requires s.queue == InBand(keep, s.bandNo) != []
    ensures BandOf(s.queue[0].route) == s.bandNo
  {
    InBandMembers(keep, s.bandNo);
    assert s.queue[0] in InBand(keep, s.bandNo);
  }

  // Whatever the hour the race starts, the stagger, the parallel cap and the
  // rest of the field: if the deadline leaves time for the cheaper bands to
  // lapse, a live feed that hands over one admissible route cheaper than some
  // kept candidate can make a dearer one boot before it.
  lemma {:induction false} StreamedRoutesBreakOrder(cfg: Config, keep: seq<Entry>, base: seq<Line>,
                                                    drained: seq<Route>, e: Entry, q: Route)
    returns (script: seq<Inputs>)
    requires Start(cfg, keep) && cfg.tranches && cfg.feed && cfg.parallel > 0
    requires e in keep && cfg.deadline >= Spent(BandOf(e.route))
    requires BandOf(q) < BandOf(e.route) && cfg.allowed(q, |keep| + 1)
    ensures script != [] && Grows(Played(script))
    ensures forall i :: 0 <= i < |script| ==> script[i].aliveAtHead && base <= script[i].file
    ensures OrderBroken(Run(cfg, Init(cfg, keep, |base|, drained), Played(script), |script|).state,
                        Entry(|keep| + 1, q))
  {
    hide Step, Popped, BandOf, Init, Start, OrderBroken;
    var start := Init(cfg, keep, |base|, drained);
    var wait := UntilPopped(cfg, keep, base, drained, e);
    var s := Run(cfg, start, Played(wait), |wait|).state;
    var inp := Silence(if cfg.stagger > 0.0 then cfg.stagger else 0.0, base + [RouteLine(q)]);
    BootsDear(cfg, keep, base, s, q, inp.lag);
    PlayOn(cfg, start, wait, inp);
    script := wait + [inp];
    forall m: nat ensures Played(script)(m).file <= Played(script)(m + 1).file {
    }
  }

  // ----- a dear route that comes early -----

  // What one tick may take: the stagger, if there is one, and the sleep.
  function Gap(cfg: Config): (d: Duration) { if cfg.stagger > 0.0 then cfg.stagger else 0.0 }

  function Ticks(cfg: Config, n: nat): (t: real)
    ensures t >= 0.0
  {
    n as real * (Gap(cfg) + 2.0)
  }

  // A band is being booted: nothing runs, some of it is queued, and the time
  // left, to the band's deadline and the race's, is enough to boot it all.
  ghost predicate Booting(cfg: Config, keep: seq<Entry>, base: seq<Line>, b: nat, s: State) {
    && Full(cfg, s) && s.winner.None? && s.keep == keep && s.consumed == |base| && s.running == []
    && s.bandNo == b && s.queue != [] && (forall x :: x in s.queue ==> x in keep && BandOf(x.route) == b)
    && s.clock - s.bandStart + Ticks(cfg, |s.queue|) <= BandSecs(b)
    && s.clock - cfg.started + Ticks(cfg, |s.queue|) <= cfg.deadline
  }

  lemma {:induction false} PoppedBoots(cfg: Config, keep: seq<Entry>, base: seq<Line>, s: State)
    requires Popped(cfg, keep, base, s) && Ticks(cfg, |InBand(keep, s.bandNo)|) <= BandSecs(s.bandNo)
    requires Spent(s.bandNo) + Ticks(cfg, |InBand(keep, s.bandNo)|) <= cfg.deadline
    ensures Booting(cfg, keep, base, s.bandNo, s)
  {
    hide Full, BandOf, GroupsFrom;
    InBandMembers(keep, s.bandNo);
  }

  function Crashes(id: nat): (p: Poll) { Poll(Some(1), None) }

  function Failing(lag: Duration, file: seq<Line>): (inp: Inputs) {
    Inputs(lag, 0.0, 0.0, 0.0, file, true, true, Crashes)
  }

  // A boot whose runner fails in the same tick.
  lemma {:induction false} CrashedBoot(cfg: Config, s: State)
    requires MayBoot(cfg, s) && s.running == []
    ensures PollFrom(BootNext(cfg, s), 0, Crashes) ==
            BootNext(cfg, s).(running := [], verdicts := s.verdicts[s.queue[0].id := RunnerExit(1)])
  {
    var s1, r := BootNext(cfg, s), Runner(s.queue[0], None, None);
    assert s1.running == [r];
    assert Judge(r, Crashes(r.entry.id), s1.clock) == Decide(RunnerExit(1));
    var s2 := Retire(s1, 0, RunnerExit(1), false);
    assert s2.running == [];
    assert PollFrom(s2, 0, Crashes) == s2;
  }

  lemma {:induction false} FewerTicks(cfg: Config, n: nat)
    requires n > 0
    ensures Ticks(cfg, n) == Ticks(cfg, n - 1) + Gap(cfg) + 2.0 && Ticks(cfg, n - 1) >= 0.0
  {
  }

  // With time left nothing lapses, and the tick ends in its sleep.
  lemma {:induction false} SleepsOn(cfg: Config, s: State, inp: Inputs)
    requires Wants(cfg, s, inp.aliveAtHead) && inp.working == inp.popping == inp.oversleep == 0.0
    requires var s1 := Polled(cfg, s, inp);
             && s1.winner.None? && s1.clock - cfg.started <= cfg.deadline
             && s1.clock - s1.bandStart <= BandSecs(s1.bandNo) && (s1.queue != [] || s1.running != [])
    ensures var s1 := Polled(cfg, s, inp); Step(cfg, s, inp) == Live(s1.(clock := s1.clock + 2.0))
  {
    hide Polled;
  }

  // All but the last of the band are booted and fail.
  lemma {:induction false} OneFails(cfg: Config, keep: seq<Entry>, base: seq<Line>, b: nat, s: State)
    requires Booting(cfg, keep, base, b, s) && |s.queue| > 1 && cfg.parallel > 0
    ensures var r := Step(cfg, s, Failing(Gap(cfg), base));
            r.Live? && Booting(cfg, keep, base, b, r.state) && |r.state.queue| == |s.queue| - 1
  {
    hide Full, Drain, BandOf, BootNext, PollFrom, BandSecs, Ticks;
    var inp := Failing(Gap(cfg), base);
    var s0 := s.(clock := s.clock + inp.lag);
    NothingNew(cfg, s0, base);
    LastEventPast(cfg, s);
    assert MayBoot(cfg, s0);
    CrashedBoot(cfg, s0);
    HeadBooted(cfg, s0);
    FewerTicks(cfg, |s.queue|);
    StepFull(cfg, s, inp);
    SleepsOn(cfg, s, inp);
  }

  lemma {:induction false} HeadBooted(cfg: Config, s: State)
    requires MayBoot(cfg, s)
    ensures BootNext(cfg, s) == s.(queue := s.queue[1..], running := s.running + [Runner(s.queue[0], None, None)],
                                   lastEvent := s.clock, boots := s.boots + [Boot(s.queue[0], s.clock, s.verdicts)])
  {
  }

  // The last of the band is booted and does not answer.
  lemma {:induction false} LastStays(cfg: Config, keep: seq<Entry>, base: seq<Line>, b: nat, s: State)
    requires Booting(cfg, keep, base, b, s) && |s.queue| == 1 && cfg.parallel > 0
    ensures var r := Step(cfg, s, Silence(Gap(cfg), base));
            r.Live? && Holding(cfg, keep, base, s.queue[0], r.state)
  {
    hide Full, BandOf, BootNext, Polled, BandSecs, Ticks;
    var inp := Silence(Gap(cfg), base);
    var s0 := s.(clock := s.clock + inp.lag);
    SilentPoll(cfg, s, base, inp.lag);
    LastEventPast(cfg, s);
    assert MayBoot(cfg, s0);
    HeadBooted(cfg, s0);
    FewerTicks(cfg, |s.queue|);
    StepFull(cfg, s, inp);
    SleepsOn(cfg, s, inp);
    assert s.queue[0] in s.queue;
  }

  // One candidate runs, and nothing else does or waits to.
  ghost predicate Holding(cfg: Config, keep: seq<Entry>, base: seq<Line>, x: Entry, s: State) {
    && Full(cfg, s) && s.keep == keep && s.consumed == |base|
    && s.running == [Runner(x, None, None)] && s.queue == [] && x in keep
  }

  // A candidate was booted while a kept one had no verdict.
  ghost predicate Overtakes(s: State, dear: Entry, cheap: Entry) {
    cheap in s.keep && exists b :: b in s.boots && b.entry == dear && cheap.id !in b.decided
  }

  lemma {:induction false} RunsUndecided(cfg: Config, s: State)
    requires Full(cfg, s) && s.running != []
    ensures s.running[0].entry.id !in s.verdicts
  {
    var id := s.running[0].entry.id;
    assert RunnerIds(s.running)[0] == id;
    assert Kept(s, id) == Tally(s, id) <= 1;
  }

  lemma {:induction false} DearOvertakes(cfg: Config, keep: seq<Entry>, base: seq<Line>, x: Entry, s: State, q: Route)
    requires Holding(cfg, keep, base, x, s) && cfg.feed && cfg.parallel > 1 && cfg.allowed(q, |keep| + 1)
    ensures var t := Step(cfg, s, Silence(Gap(cfg), base + [RouteLine(q)])).state;
            Overtakes(t, Entry(|keep| + 1, q), x)
  {
    hide Full, PollFrom, Drain, BandOf, Settle;
    var inp := Silence(Gap(cfg), base + [RouteLine(q)]);
    var s0 := s.(clock := s.clock + inp.lag);
    DrainsOne(cfg, s0, base, q);
    RunsUndecided(cfg, s);
    LastEventPast(cfg, s);
    var s1 := Drain(cfg, s0, inp.file);
    assert MayBoot(cfg, s1);
    var s2 := BootNext(cfg, s1);
    PollFrame(s2, 0, inp.poll);
    TickKeepsBoots(cfg, s, inp);
    var b := Boot(Entry(|keep| + 1, q), s0.clock, s.verdicts);
    assert s2.boots[|s1.boots|] == b && b in s2.boots;
  }

  lemma {:induction false} BootingSome(cfg: Config, keep: seq<Entry>, base: seq<Line>, b: nat, s: State)
    requires Booting(cfg, keep, base, b, s)
    ensures s.queue != [] && s.queue[0] in keep && BandOf(s.queue[0].route) == b
  {
    hide Full, BandOf, Ticks;
    assert s.queue[0] in s.queue;
  }

  lemma {:induction false} WaitsOn(script: seq<Inputs>, base: seq<Line>, inp: Inputs)
    requires Waits(script, base) && inp.file == base && inp.aliveAtHead && inp.aliveAtEnd
    ensures Waits(script + [inp], base)
  {
  }

  // The files of a script so far are the one the race began with.
  lemma {:induction false} Exhaust(cfg: Config, start: State, keep: seq<Entry>, base: seq<Line>, b: nat,
                                   script: seq<Inputs>) returns (more: seq<Inputs>, x: Entry)
    requires cfg.parallel > 0 && script != [] && Waits(script, base)
    requires var r := Run(cfg, start, Played(script), |script|); r.Live? && Booting(cfg, keep, base, b, r.state)
    ensures more != [] && Waits(more, base) && x in keep && BandOf(x.route) == b
    ensures var r := Run(cfg, start, Played(more), |more|); r.Live? && Holding(cfg, keep, base, x, r.state)
    decreases |Run(cfg, start, Played(script), |script|).state.queue|
  {
    hide Step, BandOf, Booting, Holding, Run, Played, Waits;
    var s := Run(cfg, start, Played(script), |script|).state;
    BootingSome(cfg, keep, base, b, s);
    if |s.queue| > 1 {
      var inp := Failing(Gap(cfg), base);
      OneFails(cfg, keep, base, b, s);
      PlayOn(cfg, start, script, inp);
      WaitsOn(script, base, inp);
      more, x := Exhaust(cfg, start, keep, base, b, script + [inp]);
    } else {
      var inp := Silence(Gap(cfg), base);
      LastStays(cfg, keep, base, b, s);
      PlayOn(cfg, start, script, inp);
      WaitsOn(script, base, inp);
      x := s.queue[0];
      more := script + [inp];
    }
  }

  // And the other way about: with room for two runners, a feed that hands over
  // one admissible route dearer than some kept candidate can make it boot while
  // a candidate of that cheaper band is undecided, whenever the cheaper band
  // has the time to boot its members.
  lemma {:induction false} StreamedDearRoutesOvertake(cfg: Config, keep: seq<Entry>, base: seq<Line>,
                                                      drained: seq<Route>, e: Entry, q: Route)
    returns (script: seq<Inputs>, cheap: Entry)
    requires Start(cfg, keep) && cfg.tranches && cfg.feed && cfg.parallel > 1 && e in keep
    requires BandOf(e.route) < BandOf(q) && cfg.allowed(q, |keep| + 1)
    requires var b := BandOf(e.route);
             && Ticks(cfg, |InBand(keep, b)|) <= BandSecs(b)
             && Spent(b) + Ticks(cfg, |InBand(keep, b)|) <= cfg.deadline
    ensures script != [] && Grows(Played(script))
    ensures forall i :: 0 <= i < |script| ==> script[i].aliveAtHead && base <= script[i].file
    ensures BandOf(cheap.route) == BandOf(e.route)
    ensures Overtakes(Run(cfg, Init(cfg, keep, |base|, drained), Played(script), |script|).state,
                      Entry(|keep| + 1, q), cheap)
  {
    hide Step, BandOf, Init, Start, Overtakes, Holding, Booting, Ticks;
    var start, b := Init(cfg, keep, |base|, drained), BandOf(e.route);
    var wait := UntilPopped(cfg, keep, base, drained, e);
    PoppedBoots(cfg, keep, base, Run(cfg, start, Played(wait), |wait|).state);
    var more, x := Exhaust(cfg, start, keep, base, b, wait);
    cheap := x;
    var s := Run(cfg, start, Played(more), |more|).state;
    var inp := Silence(Gap(cfg), base + [RouteLine(q)]);
    DearOvertakes(cfg, keep, base, x, s, q);
    PlayOn(cfg, start, more, inp);
    script := more + [inp];
    forall m: nat ensures Played(script)(m).file <= Played(script)(m + 1).file {
    }
  }
}
