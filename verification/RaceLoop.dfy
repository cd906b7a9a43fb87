// The race as it runs: a scheduler object whose loop updates its fields in
// place, and the reaping that follows the loop.
module RaceLoop {
  import opened Text
  import opened Race
  import opened RaceProofs
  import opened RaceEnd

  class ScoutFeed {
    var consumed: nat
    var routes: nat   // handed over so far

    constructor ()
      ensures consumed == 0 && routes == 0
    {
      consumed, routes := 0, 0;
    }

    // Reads every line not read before; junk and summaries are passed over.
    method Drain(lines: seq<Line>) returns (out: seq<Route>)
      modifies this
      ensures out == RoutesOf(if old(consumed) <= |lines| then lines[old(consumed)..] else [])
      ensures consumed == if old(consumed) <= |lines| then |lines| else old(consumed)
      ensures routes == old(routes) + |out|
    {
      out := [];
      while consumed < |lines|
        invariant old(consumed) <= consumed
        invariant if old(consumed) <= |lines| then consumed <= |lines| else consumed == old(consumed)
        invariant old(consumed) <= |lines| ==> out == RoutesOf(lines[old(consumed)..consumed])
        invariant old(consumed) > |lines| ==> out == []
        invariant routes == old(routes)
      {
        var ln := lines[consumed];
        assert lines[old(consumed)..consumed + 1] == lines[old(consumed)..consumed] + [ln];
        RoutesAppend(lines[old(consumed)..consumed], [ln]);
        assert [ln][1..] == [];
        consumed := consumed + 1;
        if ln.RouteLine? {
          out := out + [ln.route];
        }
      }
      assert old(consumed) <= |lines| ==> lines[old(consumed)..consumed] == lines[old(consumed)..];
      routes := routes + |out|;
    }
  }

  datatype Action = StopVm(id: nat) | Terminate(id: nat) | Promote(id: nat)

  class Scheduler {
    const cfg: Config
    const feed: ScoutFeed
    var keep: seq<Entry>
    var groups: seq<Group>
    var queue: seq<Entry>
    var running: seq<Runner>
    var verdicts: map<nat, Verdict>
    var winner: Option<nat>
    var lastEvent: real
    var bandNo: nat
    var bandStart: real
    var clock: real
    ghost var drained: seq<Route>
    ghost var boots: seq<Boot>

    ghost function St(): State
      reads this, feed
    {
      State(keep, groups, queue, running, verdicts, winner, lastEvent, bandNo, bandStart, clock,
            feed.consumed, drained, boots)
    }

    constructor (cfg: Config, feed: ScoutFeed, keep: seq<Entry>, ghost drained: seq<Route>)
      ensures this.cfg == cfg && this.feed == feed
      ensures St() == Init(cfg, keep, feed.consumed, drained)
    {
      this.cfg, this.feed, this.keep := cfg, feed, keep;
      groups := if cfg.tranches then GroupsFrom(keep, 0) else [];
      queue := if cfg.tranches then [] else keep;
      running, verdicts, winner := [], map[], None;
      lastEvent, bandNo, bandStart, clock := cfg.started, 0, 0.0, cfg.started;
      this.drained, boots := drained, [];
    }

    method DrainFeed(file: seq<Line>)
      modifies this, feed
      ensures St() == Drain(cfg, old(St()), file)
    {
      if cfg.feed {
        ghost var start := St();
        var out := feed.Drain(file);
        drained := drained + out;
        ghost var joined := St();
        assert Unread(start, file) == if start.consumed <= |file| then file[start.consumed..] else [];
        var j := 0;
        while j < |out|
          invariant 0 <= j <= |out|
          invariant Admit(cfg, St(), out[j..]) == Admit(cfg, joined, out)
        {
          var i := |keep| + 1;
          assert out[j..][1..] == out[j + 1..];
          if cfg.allowed(out[j], i) {
            var e := Entry(i, out[j]);
            keep := keep + [e];
            queue := queue + [e];
          }
          j := j + 1;
        }
      }
    }

    method StartNext()
      modifies this
      ensures St() == BootNext(cfg, old(St()))
    {
      if queue != [] && |running| < cfg.parallel && clock - lastEvent >= cfg.stagger {
        var e := queue[0];
        queue := queue[1..];
        running := running + [Runner(e, None, None)];
        lastEvent := clock;
        boots := boots + [Boot(e, clock, verdicts)];
      }
    }

    // One runner's turn; the next index to look at comes back.
    method PollOne(i: nat, poll: nat -> Poll) returns (next: nat)
      requires i < |running| && winner.None?
      modifies this
      ensures next <= |running| && |running| - next < old(|running|) - i
      ensures winner.None? ==> PollFrom(old(St()), i, poll) == PollFrom(St(), next, poll)
      ensures winner.Some? ==> PollFrom(old(St()), i, poll) == St()
    {
      hide Judge, PASS;
      var r := running[i];
      var id := r.entry.id;
      next := i;
      match Judge(r, poll(id), clock) {
        case Provisional =>
          next := i + 1;
        case Wait(r', late) =>
          if id in verdicts {
            running := running[..i] + running[i + 1..];
            lastEvent := clock;
            assert verdicts[id := verdicts[id]] == verdicts;
            assert St() == Retire(old(St()), i, verdicts[id], false);
          } else {
            running := running[i := r'];
            if late {
              verdicts := verdicts[r'.entry.id := NoVerdictAfterBoot];
            }
            next := i + 1;
            assert St() == StayOn(old(St()), i, r', late);
          }
        case Decide(v) =>
          verdicts := verdicts[id := v];
          running := running[..i] + running[i + 1..];
          lastEvent := clock;
          if v == PASS {
            winner := Some(id);
          }
          assert St() == Retire(old(St()), i, v, v == PASS);
      }
    }

    method PollRunners(poll: nat -> Poll)
      requires winner.None?
      modifies this
      ensures St() == PollFrom(old(St()), 0, poll)
    {
      var i: nat := 0;
      while i < |running| && winner.None?
        invariant i <= |running|
        invariant PollFrom(old(St()), 0, poll) == if winner.None? then PollFrom(St(), i, poll) else St()
        decreases |running| - i
      {
        i := PollOne(i, poll);
      }
    }

    method CheckBand()
      modifies this
      ensures St() == LapseBand(cfg, old(St()))
    {
      if cfg.tranches && BandSecs(bandNo) != 0.0 && clock - bandStart > BandSecs(bandNo) {
        verdicts := SetDefaults(verdicts, RunnerIds(running), BandDeadline(bandNo));
        verdicts := SetDefaults(verdicts, Ids(queue), BandNotStarted(bandNo));
        running, queue := [], [];
      }
    }

    // From the loop head to the crown check.
    method Advance(inp: Inputs)
      requires winner.None?
      modifies this, feed
      ensures St() == Polled(cfg, old(St()), inp)
    {
      clock := clock + inp.lag;
      ghost var now := St();
      DrainFeed(inp.file);
      DrainFrame(cfg, now, inp.file);
      StartNext();
      PollRunners(inp.poll);
    }

    // One trip round the loop; `more` says whether there is another.
    method Trip(inp: Inputs) returns (more: bool)
      requires winner.None?
      modifies this, feed
      ensures Step(cfg, old(St()), inp) == if more then Live(St()) else Ended(St())
      ensures more ==> winner.None?
    {
      PolledBands(cfg, St(), inp);
      if queue == [] && running == [] && groups == [] && !(cfg.feed && inp.aliveAtHead) {
        return false;
      }
      Advance(inp);
      if winner.Some? {
        return false;
      }
      if clock + inp.working - cfg.started > cfg.deadline {
        verdicts := SetDefaults(verdicts, RunnerIds(running), RaceDeadline);
        return false;
      }
      more := Escalate(inp);
    }

    method Escalate(inp: Inputs) returns (more: bool)
      requires winner.None?
      modifies this
      ensures Settle(cfg, old(St()), inp) == if more then Live(St()) else Ended(St())
      ensures winner.None?
    {
      CheckBand();
      var popAt := clock + inp.working + inp.popping;
      more := true;
      if queue == [] && running == [] && groups != [] {
        bandNo, queue, groups := groups[0].band, groups[0].members, groups[1..];
        bandStart, clock := popAt, popAt;
      } else if queue == [] && running == [] && !(cfg.feed && inp.aliveAtEnd) {
        more := false;
      } else {
        clock := popAt + 2.0 + inp.oversleep;
      }
    }

    // The whole loop.  `env` answers every question the loop asks, in order.
    method Loop(env: nat -> Inputs) returns (n: nat)
      requires winner.None?
      modifies this, feed
      ensures Run(cfg, old(St()), env, n) == Ended(St())
    {
      n := 0;
      var more := true;
      while more
        invariant Run(cfg, old(St()), env, n) == if more then Live(St()) else Ended(St())
        invariant more ==> winner.None?
        decreases more, |groups|, cfg.deadline - (clock - cfg.started)
      {
        StepAdvances(cfg, St(), env(n));
        more := Trip(env(n));
        n := n + 1;
      }
    }

    // After the loop: stop the field, then the losers' runners, then the field
    // again twice, and only then promote.  `registered` is the module-wide
    // table of runners that were never popped from it.
    method Reap(registered: set<nat>) returns (log: seq<Action>)
      ensures log == ReapPlan(Ids(keep), winner, registered)
    {
      var ids := Ids(keep);
      log := StopOthers([], ids);
      if winner.Some? {
        log := TerminateOthers(log, ids, registered);
        log := StopOthers(log, ids);
        log := StopOthers(log, ids);
        log := log + [Promote(winner.value)];
      }
    }

    method TerminateOthers(log: seq<Action>, ids: seq<nat>, registered: set<nat>) returns (out: seq<Action>)
      ensures out == log + Terminations(ids, winner, registered)
    {
      out := log;
      var j := 0;
      assert ids[0..] == ids;
      while j < |ids|
        invariant 0 <= j <= |ids|
        invariant out + Terminations(ids[j..], winner, registered) == log + Terminations(ids, winner, registered)
      {
        assert ids[j..][1..] == ids[j + 1..];
        if Some(ids[j]) != winner && ids[j] in registered {
          out := out + [Terminate(ids[j])];
        }
        j := j + 1;
      }
      assert ids[j..] == [];
    }

    method StopOthers(log: seq<Action>, ids: seq<nat>) returns (out: seq<Action>)
      ensures out == log + Stops(ids, winner)
    {
      out := log;
      var j := 0;
      assert ids[0..] == ids;
      while j < |ids|
        invariant 0 <= j <= |ids|
        invariant out + Stops(ids[j..], winner) == log + Stops(ids, winner)
      {
        assert ids[j..][1..] == ids[j + 1..];
        if Some(ids[j]) != winner {
          out := out + [StopVm(ids[j])];
        }
        j := j + 1;
      }
      assert ids[j..] == [];
    }
  }

  // ----- what the reaping does -----

  function Stops(ids: seq<nat>, winner: Option<nat>): (r: seq<Action>) {
    if ids == [] then []
    else (if Some(ids[0]) != winner then [StopVm(ids[0])] else []) + Stops(ids[1..], winner)
  }

  function Terminations(ids: seq<nat>, winner: Option<nat>, registered: set<nat>): (r: seq<Action>) {
    if ids == [] then []
    else
      (if Some(ids[0]) != winner && ids[0] in registered then [Terminate(ids[0])] else [])
      + Terminations(ids[1..], winner, registered)
  }

  function ReapPlan(ids: seq<nat>, winner: Option<nat>, registered: set<nat>): (r: seq<Action>) {
    Stops(ids, winner) +
    if winner.None? then []
    else Terminations(ids, winner, registered) + (Stops(ids, winner) + Stops(ids, winner) + [Promote(winner.value)])
  }

  lemma {:induction false} StopsWho(ids: seq<nat>, winner: Option<nat>, a: Action)
    ensures a in Stops(ids, winner) <==> a.StopVm? && a.id in ids && winner != Some(a.id)
  {
    if ids != [] {
      assert ids == [ids[0]] + ids[1..];
      StopsWho(ids[1..], winner, a);
    }
  }

  lemma {:induction false} TerminatesWho(ids: seq<nat>, winner: Option<nat>, registered: set<nat>, a: Action)
    ensures a in Terminations(ids, winner, registered) <==>
            a.Terminate? && a.id in ids && winner != Some(a.id) && a.id in registered
  {
    if ids != [] {
      assert ids == [ids[0]] + ids[1..];
      TerminatesWho(ids[1..], winner, registered, a);
    }
  }

  // Promotion is the last act and the only one that touches the winner.
  lemma {:induction false} PromotionIsLast(ids: seq<nat>, winner: nat, registered: set<nat>)
    ensures var plan := ReapPlan(ids, Some(winner), registered);
            && plan != [] && plan[|plan| - 1] == Promote(winner)
            && (forall j :: 0 <= j < |plan| - 1 ==> !plan[j].Promote? && plan[j].id != winner)
  {
    var plan := ReapPlan(ids, Some(winner), registered);
    var st, te := Stops(ids, Some(winner)), Terminations(ids, Some(winner), registered);
    assert plan == st + te + st + st + [Promote(winner)];
    forall m | 0 <= m < |plan| - 1 ensures !plan[m].Promote? && plan[m].id != winner {
      assert plan[m] in st || plan[m] in te;
      StopsWho(ids, Some(winner), plan[m]);
      TerminatesWho(ids, Some(winner), registered, plan[m]);
    }
  }

  // Every other candidate is stopped before the promotion, and after the
  // termination of its runner if that runner was still registered.
  lemma {:induction false} LosersStopFirst(ids: seq<nat>, winner: nat, registered: set<nat>, id: nat)
    requires id in ids && id != winner
    ensures var plan := ReapPlan(ids, Some(winner), registered);
            exists j :: 0 <= j < |plan| - 1 && plan[j] == StopVm(id)
                  && (forall m :: j < m < |plan| ==> plan[m] != Terminate(id))
                  && (id in registered ==> exists m :: 0 <= m < j && plan[m] == Terminate(id))
  {
    var plan := ReapPlan(ids, Some(winner), registered);
    var st, te := Stops(ids, Some(winner)), Terminations(ids, Some(winner), registered);
    assert plan == st + te + st + st + [Promote(winner)];
    StopsWho(ids, Some(winner), StopVm(id));
    var p :| 0 <= p < |st| && st[p] == StopVm(id);
    var j := |st| + |te| + |st| + p;
    assert plan[j] == StopVm(id);
    if id in registered {
      TerminatesWho(ids, Some(winner), registered, Terminate(id));
      var q :| 0 <= q < |te| && te[q] == Terminate(id);
      assert plan[|st| + q] == Terminate(id);
    }
    forall m | j < m < |plan| ensures plan[m] != Terminate(id) {
      if m < |plan| - 1 {
        assert plan[m] in st;
        StopsWho(ids, Some(winner), plan[m]);
      }
    }
  }

  // Without a winner everybody is stopped, and nothing else is done.
  lemma {:induction false} NoWinnerStopsAll(ids: seq<nat>, registered: set<nat>, a: Action)
    ensures a in ReapPlan(ids, None, registered) <==> a.StopVm? && a.id in ids
  {
    assert ReapPlan(ids, None, registered) == Stops(ids, None);
    StopsWho(ids, None, a);
  }
}
