// How a race ends: who may be crowned, when it gives up, and that it must end.
module RaceEnd {
  import opened Text
  import opened Race
  import opened RaceProofs
  import opened RaceTheorems

  predicate Passed(p: Poll) {
    p.exit.Some? && p.marker.Some? && StatusOf(p.marker.value) == "pass"
  }

  // ----- the crown -----

  lemma {:induction false} PolledWinner(cfg: Config, s: State, inp: Inputs)
    requires Full(cfg, s) && s.winner.None?
    ensures var s1 := Polled(cfg, s, inp);
            s1.winner.Some? ==>
              && Passed(inp.poll(s1.winner.value))
              && exists b :: b in s1.boots && b.entry.id == s1.winner.value
  {
    var s0 := s.(clock := s.clock + inp.lag);
    LaterFull(cfg, s, s.clock + inp.lag);
    DrainFull(cfg, s0, inp.file);
    DrainFrame(cfg, s0, inp.file);
    var s1 := Drain(cfg, s0, inp.file);
    BootFull(cfg, s1);
    var s2 := BootNext(cfg, s1);
    CrownNeedsPass(s2, 0, inp.poll);
    PollFrame(s2, 0, inp.poll);
    var s3 := PollFrom(s2, 0, inp.poll);
    if s3.winner.Some? {
      var r :| r in s2.running && r.entry.id == s3.winner.value;
      RunnerBooted(s2, r);
    }
  }

  lemma {:induction false} RunnerBooted(s: State, r: Runner)
    requires BootedOnce(s) && r in s.running
    ensures exists b :: b in s.boots && b.entry.id == r.entry.id
  {
    var i :| 0 <= i < |s.running| && s.running[i] == r;
    var id := r.entry.id;
    assert RunnerIds(s.running)[i] == id;
    assert Booted(s, id) > 0;
    var j :| 0 <= j < |s.boots| && BootIds(s.boots)[j] == id;
    assert s.boots[j] in s.boots;
  }

  // What the crown rests on, in the state the loop leaves behind.
  ghost predicate FairCrown(cfg: Config, s: State, w: nat) {
    && w in s.verdicts && s.verdicts[w] == PASS
    && (forall id :: id in s.verdicts && s.verdicts[id] == PASS ==> id == w)
    && exists b :: b in s.boots && b.entry.id == w && b.entry in s.keep
         && (cfg.tranches && !cfg.feed ==>
               forall b' :: b' in s.boots ==> BandOf(b'.entry.route) <= BandOf(b.entry.route))
  }

  lemma {:induction false} FullCrown(cfg: Config, s: State, b: Boot)
    requires Full(cfg, s) && b in s.boots && s.winner == Some(b.entry.id)
    ensures FairCrown(cfg, s, b.entry.id)
  {
    if cfg.tranches && !cfg.feed {
      forall b' | b' in s.boots ensures BandOf(b'.entry.route) <= BandOf(b.entry.route) {
        if BandOf(b.entry.route) < BandOf(b'.entry.route) {
          assert false;
        }
      }
    }
  }

  lemma {:induction false} StepCrown(cfg: Config, s: State, inp: Inputs)
    requires Full(cfg, s) && s.winner.None?
    ensures var r := Step(cfg, s, inp);
            r.Ended? && r.state.winner.Some? ==>
              FairCrown(cfg, r.state, r.state.winner.value) && Passed(inp.poll(r.state.winner.value))
  {
    hide Full, Polled, Settle, FairCrown;
    if Wants(cfg, s, inp.aliveAtHead) {
      StepFull(cfg, s, inp);
      PolledWinner(cfg, s, inp);
      var r := Step(cfg, s, inp);
      if r.Ended? && r.state.winner.Some? {
        var b :| b in r.state.boots && b.entry.id == r.state.winner.value;
        FullCrown(cfg, r.state, b);
      }
    }
  }

  // The loop was still running at trip m, which ended it, and found w passed.
  ghost predicate CrownedAt(cfg: Config, start: State, env: nat -> Inputs, m: nat, w: nat) {
    Run(cfg, start, env, m).Live? && Run(cfg, start, env, m + 1).Ended? && Passed(env(m).poll(w))
  }

  // A crowned candidate was booted in this race; its runner had exited and its
  // marker read "pass" in the very tick that crowned it and ended the loop;
  // nobody else passed; and with tranches and no feed nothing dearer than it was
  // ever booted.
  lemma {:induction false} CrownIsEarned(cfg: Config, keep: seq<Entry>, consumed: nat, drained: seq<Route>,
                                         env: nat -> Inputs, n: nat)
    requires Start(cfg, keep)
    ensures var r := Run(cfg, Init(cfg, keep, consumed, drained), env, n);
            r.Ended? && r.state.winner.Some? ==>
              && FairCrown(cfg, r.state, r.state.winner.value)
              && exists m :: 0 <= m < n &&
                             CrownedAt(cfg, Init(cfg, keep, consumed, drained), env, m, r.state.winner.value)
    decreases n
  {
    hide Full, Step, Polled, Init, FairCrown;
    var start := Init(cfg, keep, consumed, drained);
    InitFull(cfg, keep, consumed, drained);
    if n > 0 {
      CrownIsEarned(cfg, keep, consumed, drained, env, n - 1);
      RunFull(cfg, start, env, n - 1);
      var before := Run(cfg, start, env, n - 1);
      if before.Live? {
        StepCrown(cfg, before.state, env(n - 1));
        var r := Run(cfg, start, env, n);
        if r.Ended? && r.state.winner.Some? { assert CrownedAt(cfg, start, env, n - 1, r.state.winner.value); }
      }
    }
  }

  // ----- giving up -----

  ghost predicate AllDecided(s: State) {
    forall k :: k in s.keep ==> k.id in s.verdicts
  }

  lemma {:induction false} EmptyMeansDecided(s: State)
    requires OnePlace(s) && Known(s) && s.queue == [] && s.running == [] && s.groups == []
    ensures AllDecided(s)
  {
    forall k | k in s.keep ensures k.id in s.verdicts {
      if k.id !in s.verdicts { StillWaiting(s, k); }
    }
  }

  predicate PastDeadline(cfg: Config, s: State, inp: Inputs) {
    s.clock + inp.lag + inp.working - cfg.started > cfg.deadline
  }

  predicate ScoutGone(cfg: Config, inp: Inputs) { !cfg.feed || !inp.aliveAtHead || !inp.aliveAtEnd }

  lemma {:induction false} SettleGivesUp(cfg: Config, s: State, inp: Inputs)
    requires Full(cfg, s) && s.winner.None?
    ensures var r := Settle(cfg, s, inp);
            r.Ended? ==> AllDecided(r.state) && CrownMatches(r.state) && ScoutGone(cfg, inp)
  {
    LapseFull(cfg, s);
    var s1 := LapseBand(cfg, s);
    if s1.queue == [] && s1.running == [] && s1.groups == [] { EmptyMeansDecided(s1); }
  }

  lemma {:induction false} StepGivesUp(cfg: Config, s: State, inp: Inputs)
    requires Full(cfg, s) && s.winner.None?
    ensures var r := Step(cfg, s, inp);
            r.Ended? && r.state.winner.None? ==>
              && (forall id :: id in r.state.verdicts ==> r.state.verdicts[id] != PASS)
              && (PastDeadline(cfg, s, inp) || (AllDecided(r.state) && ScoutGone(cfg, inp)))
  {
    assert !Wants(cfg, s, inp.aliveAtHead) ==> CrownMatches(s) && OnePlace(s) && Known(s);
    hide Polled, Settle, AllDecided;
    if Wants(cfg, s, inp.aliveAtHead) {
      PolledFull(cfg, s, inp);
      PolledBands(cfg, s, inp);
      var s1 := Polled(cfg, s, inp);
      assert CrownMatches(s1);
      if s1.winner.None? { SettleGivesUp(cfg, s1, inp); }
    } else {
      EmptyMeansDecided(s);
    }
  }

  // Trip m gave up: the race deadline had passed, or every kept candidate had a
  // verdict and the scout was gone.
  ghost predicate GaveUp(cfg: Config, start: State, env: nat -> Inputs, m: nat) {
    && Run(cfg, start, env, m).Live? && Run(cfg, start, env, m + 1).Ended?
    && (PastDeadline(cfg, Run(cfg, start, env, m).state, env(m))
        || (AllDecided(Run(cfg, start, env, m + 1).state) && ScoutGone(cfg, env(m))))
  }

  // A race ends without a winner only when no verdict is a pass and the trip
  // that ended it had reason to give up.
  lemma {:induction false} GivesUpHonestly(cfg: Config, keep: seq<Entry>, consumed: nat, drained: seq<Route>,
                                           env: nat -> Inputs, n: nat)
    requires Start(cfg, keep)
    ensures var start := Init(cfg, keep, consumed, drained);
            var r := Run(cfg, start, env, n);
            r.Ended? && r.state.winner.None? ==>
              && (forall id :: id in r.state.verdicts ==> r.state.verdicts[id] != PASS)
              && exists m :: 0 <= m < n && GaveUp(cfg, start, env, m)
    decreases n
  {
    hide Full, Step, Init, AllDecided, PastDeadline, ScoutGone;
    var start := Init(cfg, keep, consumed, drained);
    InitFull(cfg, keep, consumed, drained);
    if n > 0 {
      GivesUpHonestly(cfg, keep, consumed, drained, env, n - 1);
      RunFull(cfg, start, env, n - 1);
      var before := Run(cfg, start, env, n - 1);
      if before.Live? {
        StepGivesUp(cfg, before.state, env(n - 1));
        var r := Run(cfg, start, env, n);
        assert r.Ended? && r.state.winner.None? ==> GaveUp(cfg, start, env, n - 1);
      }
    }
  }

  // ----- termination -----

  // A tick that lives on either pops a group or sleeps two seconds or more,
  // and it began inside the deadline.
  lemma {:induction false} StepAdvances(cfg: Config, s: State, inp: Inputs)
    ensures var r := Step(cfg, s, inp);
            r.Live? ==>
              && s.clock - cfg.started <= cfg.deadline
              && ((|r.state.groups| == |s.groups| - 1 && r.state.clock >= s.clock)
                  || (r.state.groups == s.groups && r.state.clock >= s.clock + 2.0))
  {
    PolledBands(cfg, s, inp);
  }

  lemma {:induction false} ClockRuns(cfg: Config, start: State, env: nat -> Inputs, n: nat)
    ensures var r := Run(cfg, start, env, n);
            r.Live? ==>
              && |r.state.groups| <= |start.groups|
              && r.state.clock - start.clock >= 2.0 * (n - (|start.groups| - |r.state.groups|)) as real
              && (n > 0 ==> Run(cfg, start, env, n - 1).Live?
                            && Run(cfg, start, env, n - 1).state.clock - cfg.started <= cfg.deadline)
    decreases n
  {
    hide Step;
    if n > 0 {
      ClockRuns(cfg, start, env, n - 1);
      var before := Run(cfg, start, env, n - 1);
      if before.Live? { StepAdvances(cfg, before.state, env(n - 1)); }
    }
  }

  // Whatever runners, markers and scout do, the loop makes at most one trip per
  // waiting band and one per two seconds of the deadline, plus one.
  lemma {:induction false} RaceEnds(cfg: Config, keep: seq<Entry>, consumed: nat, drained: seq<Route>,
                                    env: nat -> Inputs, n: nat)
    requires Start(cfg, keep)
    ensures Run(cfg, Init(cfg, keep, consumed, drained), env, n).Live? && n > 0 ==>
              n as real <= 5.0 + cfg.deadline / 2.0
  {
    hide Run, GroupsFrom;
    var start := Init(cfg, keep, consumed, drained);
    GroupsShape(keep, 0);
    ClockRuns(cfg, start, env, n);
    if n > 0 { ClockRuns(cfg, start, env, n - 1); }
  }

  // ----- the feed over a run -----

  lemma {:induction false} RoutesAppend(a: seq<Line>, b: seq<Line>)
    ensures RoutesOf(a + b) == RoutesOf(a) + RoutesOf(b)
    decreases |a|
  {
    if a == [] {
      assert a + b == b;
    } else {
      assert (a + b)[0] == a[0] && (a + b)[1..] == a[1..] + b;
      RoutesAppend(a[1..], b);
    }
  }

  // What has been read of the file, and nothing else, has been handed over.
  ghost predicate ReadUpTo(s: State, file: seq<Line>) {
    s.consumed <= |file| && s.drained == RoutesOf(file[..s.consumed])
  }

  lemma {:induction false} UnreadRest(s: State, file: seq<Line>)
    requires ReadUpTo(s, file)
    ensures s.drained + RoutesOf(Unread(s, file)) == RoutesOf(file) && s.consumed + |Unread(s, file)| == |file|
  {
    RoutesAppend(file[..s.consumed], file[s.consumed..]);
    assert file == file[..s.consumed] + file[s.consumed..];
  }

  lemma {:induction false} DrainReads(cfg: Config, s: State, file: seq<Line>)
    requires cfg.feed && ReadUpTo(s, file)
    ensures var s' := Drain(cfg, s, file); s'.consumed == |file| && s'.drained == RoutesOf(file)
  {
    UnreadRest(s, file);
    hide ReadUpTo, Admit, RoutesOf, Unread;
    var routes := RoutesOf(Unread(s, file));
    AdmitFrame(cfg, s.(consumed := s.consumed + |Unread(s, file)|, drained := s.drained + routes), routes);
  }

  lemma {:induction false} PolledReads(cfg: Config, s: State, inp: Inputs)
    requires cfg.feed && ReadUpTo(s, inp.file)
    ensures Polled(cfg, s, inp).consumed == |inp.file| && Polled(cfg, s, inp).drained == RoutesOf(inp.file)
  {
    hide Drain, RoutesOf, PollFrom, Judge;
    var s0 := s.(clock := s.clock + inp.lag);
    assert ReadUpTo(s0, inp.file);
    DrainReads(cfg, s0, inp.file);
    PollFrame(BootNext(cfg, Drain(cfg, s0, inp.file)), 0, inp.poll);
  }

  lemma {:induction false} StepReads(cfg: Config, s: State, inp: Inputs)
    requires cfg.feed && ReadUpTo(s, inp.file)
    ensures var t := Step(cfg, s, inp).state;
            if Wants(cfg, s, inp.aliveAtHead) then t.consumed == |inp.file| && t.drained == RoutesOf(inp.file)
            else t == s
    ensures Step(cfg, s, inp).Live? ==> Wants(cfg, s, inp.aliveAtHead)
  {
    hide Polled, RoutesOf, ReadUpTo;
    PolledReads(cfg, s, inp);
  }

  // The file only ever gains whole lines.
  ghost predicate Grows(env: nat -> Inputs) { forall m: nat :: env(m).file <= env(m + 1).file }

  // At every loop head the routes drained so far are those of the file as last
  // read: a prefix, none skipped, none repeated.
  lemma {:induction false} FeedIsReadOnce(cfg: Config, start: State, env: nat -> Inputs, n: nat)
    requires cfg.feed && ReadUpTo(start, env(0).file) && Grows(env)
    ensures var r := Run(cfg, start, env, n);
            r.Live? ==>
              && ReadUpTo(r.state, env(n).file)
              && (n > 0 ==> r.state.drained == RoutesOf(env(n - 1).file))
    decreases n
  {
    hide Step, Wants;
    if n > 0 {
      FeedIsReadOnce(cfg, start, env, n - 1);
      var before := Run(cfg, start, env, n - 1);
      if before.Live? {
        StepReads(cfg, before.state, env(n - 1));
        assert env(n - 1).file <= env(n - 1 + 1).file;
        assert env(n).file[..|env(n - 1).file|] == env(n - 1).file;
      }
    }
  }

  // Trip m was reached and read the feed.
  ghost predicate ReadAt(cfg: Config, start: State, env: nat -> Inputs, m: nat) {
    Run(cfg, start, env, m).Live? && Wants(cfg, Run(cfg, start, env, m).state, env(m).aliveAtHead)
  }

  // How many lines the last of the first n trips to read the feed had found, or
  // the mark the race began with if none of them read it.
  ghost predicate LastRead(cfg: Config, start: State, env: nat -> Inputs, n: nat, read: nat) {
    || (read == start.consumed && forall k :: 0 <= k < n ==> !ReadAt(cfg, start, env, k))
    || exists m :: 0 <= m < n && ReadAt(cfg, start, env, m) && read == |env(m).file|
                   && forall k :: m < k < n ==> !ReadAt(cfg, start, env, k)
  }

  // And to the very end of the race: what has been drained is the file as the
  // last trip that read it found it.
  lemma {:induction false} FeedReadToTheEnd(cfg: Config, start: State, env: nat -> Inputs, n: nat, final: seq<Line>)
    returns (read: nat)
    requires cfg.feed && ReadUpTo(start, env(0).file) && Grows(env)
    requires env(0).file <= final && forall k: nat :: k < n ==> env(k).file <= final
    ensures LastRead(cfg, start, env, n, read)
    ensures var s := Run(cfg, start, env, n).state;
            read <= |final| && s.consumed == read && s.drained == RoutesOf(final[..read])
    decreases n
  {
    hide Step, Wants, RoutesOf;
    if n == 0 {
      read := start.consumed;
      assert final[..read] == env(0).file[..read];
    } else {
      var before := Run(cfg, start, env, n - 1);
      FeedIsReadOnce(cfg, start, env, n - 1);
      if before.Live? { StepReads(cfg, before.state, env(n - 1)); }
      if ReadAt(cfg, start, env, n - 1) {
        read := |env(n - 1).file|;
        assert final[..read] == env(n - 1).file;
      } else {
        read := FeedReadToTheEnd(cfg, start, env, n - 1, final);
        LastReadStands(cfg, start, env, n, read);
      }
    }
  }

  lemma {:induction false} LastReadStands(cfg: Config, start: State, env: nat -> Inputs, n: nat, read: nat)
    requires n > 0 && LastRead(cfg, start, env, n - 1, read) && !ReadAt(cfg, start, env, n - 1)
    ensures LastRead(cfg, start, env, n, read)
  {
    hide ReadAt, Run;
  }

  lemma {:induction false} NoRoutes(lines: seq<Line>)
    ensures RoutesOf(lines) == [] <==> forall i :: 0 <= i < |lines| ==> !lines[i].RouteLine?
    decreases |lines|
  {
    if lines != [] {
      NoRoutes(lines[1..]);
      if forall i :: 0 <= i < |lines[1..]| ==> !lines[1..][i].RouteLine? {
        forall i | 0 < i < |lines| ensures !lines[i].RouteLine? { assert lines[i] == lines[1..][i - 1]; }
      } else {
        var i :| 0 <= i < |lines[1..]| && lines[1..][i].RouteLine?;
        assert lines[i + 1].RouteLine?;
      }
    }
  }

  // A route of the final file is missing exactly when it was appended after the
  // last read: the race has the routes of the lines read by then, in order, and
  // none of the later ones.
  lemma {:induction false} LostIffAppendedLater(cfg: Config, start: State, env: nat -> Inputs, n: nat,
                                                final: seq<Line>) returns (read: nat)
    requires cfg.feed && ReadUpTo(start, env(0).file) && Grows(env)
    requires env(0).file <= final && forall k: nat :: k < n ==> env(k).file <= final
    ensures LastRead(cfg, start, env, n, read) && read <= |final|
    ensures var s := Run(cfg, start, env, n).state;
            && s.drained == RoutesOf(final[..read]) && RoutesOf(final) == s.drained + RoutesOf(final[read..])
            && (s.drained == RoutesOf(final) <==> forall i :: read <= i < |final| ==> !final[i].RouteLine?)
  {
    hide Run, ReadUpTo, RoutesOf, LastRead;
    read := FeedReadToTheEnd(cfg, start, env, n, final);
    var s := Run(cfg, start, env, n).state;
    assert final == final[..read] + final[read..];
    RoutesAppend(final[..read], final[read..]);
    NoRoutes(final[read..]);
    if s.drained == RoutesOf(final) { assert |RoutesOf(final[read..])| == 0; }
    if forall i :: read <= i < |final| ==> !final[i].RouteLine? {
      assert s.drained + [] == s.drained;
    } else {
      var i :| read <= i < |final| && final[i].RouteLine?;
      assert final[read..][i - read].RouteLine?;
    }
  }

  // The candidates a list of routes adds to a field of n: filtered routes add
  // none and use up no number.
  function Admitted(cfg: Config, n: nat, routes: seq<Route>): (r: seq<Entry>)
    decreases |routes|
  {
    if routes == [] then []
    else if cfg.allowed(routes[0], n + 1) then
      [Entry(n + 1, routes[0])] + Admitted(cfg, n + 1, routes[1..])
    else Admitted(cfg, n, routes[1..])
  }

  lemma {:induction false} AdmittedAppend(cfg: Config, n: nat, a: seq<Route>, b: seq<Route>)
    ensures Admitted(cfg, n, a + b) == Admitted(cfg, n, a) + Admitted(cfg, n + |Admitted(cfg, n, a)|, b)
    decreases |a|
  {
    if a == [] {
      assert a + b == b;
    } else {
      assert (a + b)[1..] == a[1..] + b;
      AdmittedAppend(cfg, if cfg.allowed(a[0], n + 1) then n + 1 else n, a[1..], b);
    }
  }

  lemma {:induction false} AdmitAppends(cfg: Config, s: State, routes: seq<Route>)
    ensures Admit(cfg, s, routes).keep == s.keep + Admitted(cfg, |s.keep|, routes)
    ensures Admit(cfg, s, routes).queue == s.queue + Admitted(cfg, |s.keep|, routes)
    decreases |routes|
  {
    if routes != [] {
      var i := |s.keep| + 1;
      if cfg.allowed(routes[0], i) {
        var e := Entry(i, routes[0]);
        var s1 := s.(keep := s.keep + [e], queue := s.queue + [e]);
        AdmitAppends(cfg, s1, routes[1..]);
        assert (s.keep + [e]) + Admitted(cfg, i, routes[1..]) == s.keep + ([e] + Admitted(cfg, i, routes[1..]));
        assert (s.queue + [e]) + Admitted(cfg, i, routes[1..]) == s.queue + ([e] + Admitted(cfg, i, routes[1..]));
      } else {
        AdmitAppends(cfg, s, routes[1..]);
      }
    }
  }

  // The field is the first one plus what the feed handed over, in its order.
  ghost predicate Follows(cfg: Config, first: State, s: State) {
    && first.drained <= s.drained
    && s.keep == first.keep + Admitted(cfg, |first.keep|, s.drained[|first.drained|..])
  }

  lemma {:induction false} DrainFollows(cfg: Config, first: State, s: State, file: seq<Line>)
    requires Follows(cfg, first, s)
    ensures Follows(cfg, first, Drain(cfg, s, file))
  {
    hide Admit, Admitted, RoutesOf, Unread;
    if cfg.feed {
      var routes := RoutesOf(Unread(s, file));
      var s0 := s.(consumed := s.consumed + |Unread(s, file)|, drained := s.drained + routes);
      AdmitFrame(cfg, s0, routes);
      AdmitAppends(cfg, s0, routes);
      var before := s.drained[|first.drained|..];
      assert s0.drained[|first.drained|..] == before + routes;
      AdmittedAppend(cfg, |first.keep|, before, routes);
    }
  }

  lemma {:induction false} PolledFollows(cfg: Config, first: State, s: State, inp: Inputs)
    requires Follows(cfg, first, s)
    ensures Follows(cfg, first, Polled(cfg, s, inp))
  {
    hide Drain, PollFrom, Admitted;
    var s0 := s.(clock := s.clock + inp.lag);
    DrainFollows(cfg, first, s0, inp.file);
    PollFrame(BootNext(cfg, Drain(cfg, s0, inp.file)), 0, inp.poll);
  }

  lemma {:induction false} StepFollows(cfg: Config, first: State, s: State, inp: Inputs)
    requires Follows(cfg, first, s)
    ensures Follows(cfg, first, Step(cfg, s, inp).state)
  {
    hide Polled, Admitted;
    PolledFollows(cfg, first, s, inp);
  }

  // Streamed candidates enter the race in emission order, each under the next
  // free number, and stay in that order to the very end.
  lemma {:induction false} FieldFollowsFeed(cfg: Config, start: State, env: nat -> Inputs, n: nat)
    ensures Follows(cfg, start, Run(cfg, start, env, n).state)
    decreases n
  {
    hide Step, Follows;
    if n == 0 {
      FollowsItself(cfg, start);
    } else {
      FieldFollowsFeed(cfg, start, env, n - 1);
      var before := Run(cfg, start, env, n - 1);
      if before.Live? { StepFollows(cfg, start, before.state, env(n - 1)); }
    }
  }

  lemma {:induction false} FollowsItself(cfg: Config, start: State)
    ensures Follows(cfg, start, start)
  {
    assert start.drained[|start.drained|..] == [];
  }
}
