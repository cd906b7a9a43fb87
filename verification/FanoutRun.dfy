// The fan-out as it runs, updating its result maps and files in place, and the
// run record the store makes of the result (internal/store).
module FanoutRun {
  import opened Text
  import opened Fanout
  import opened Utf8

  class Lanes {
    var plans: map<Method, Approach>
    var blocked: map<Method, string>
    var skipped: map<Method, string>
    var transients: map<Method, string>
    var cached: set<Method>
    var calls: nat
    var planFiles: map<Method, PlanFile>
    var blockedFiles: map<Method, BlockedFile>
    // How far each lane has got: counted its call, landed.
    var asked: set<Method>
    var landed: set<Method>

    ghost function Res(): Result
      reads this
    {
      Result(plans, blocked, skipped, transients, cached, calls)
    }

    ghost function Files(): Cache
      reads this
    {
      Cache(planFiles, blockedFiles)
    }

    ghost function St(): Pool
      reads this
    {
      Pool(Res(), Files(), asked, landed)
    }

    // Starts on the files a directory holds.
    constructor (c: Cache)
      ensures Res() == NOTHING && Files() == c && asked == {} && landed == {}
    {
      plans, blocked, skipped, transients, cached, calls := map[], map[], map[], map[], {}, 0;
      planFiles, blockedFiles, asked, landed := c.plans, c.blocked, {}, {};
    }

    // The prefilter and the cache lookup of one lane.
    method LookUp(q: Request, m: Method) returns (ask: bool)
      modifies this
      ensures Res() == LoadOne(Files(), q, old(Res()), m)
      ensures Files() == old(Files()) && asked == old(asked) && landed == old(landed)
      ensures m in METHODS ==> ask == (m in Todo(Files(), q))
    {
      var sh, skip := q.hash(q.spec), SkipReason(m, q.facts);
      ask := false;
      if skip.Some? {
        skipped := skipped[m := skip.value];
      } else if m in planFiles && planFiles[m].specH == sh {
        plans, cached := plans[m := planFiles[m].approach], cached + {m};
      } else if m in blockedFiles && blockedFiles[m].specH == sh {
        blocked, cached := blocked[m := blockedFiles[m].why], cached + {m};
      } else {
        ask := true;
      }
    }

    // The prefilters and the cache load.
    method LoadAll(q: Request) returns (todo: seq<Method>)
      requires Res() == NOTHING && asked == {} && landed == {}
      modifies this
      ensures St() == Pool(Loaded(old(Files()), q), old(Files()), {}, {})
      ensures forall m :: m in todo <==> m in Todo(old(Files()), q)
    {
      todo := [];
      var i := 0;
      while i < |METHODS|
        invariant 0 <= i <= |METHODS|
        invariant Load(Files(), q, METHODS[i..], Res()) == Load(Files(), q, METHODS, NOTHING)
        invariant Files() == old(Files()) && asked == {} && landed == {}
        invariant forall m :: m in todo <==> m in METHODS[..i] && m in Todo(Files(), q)
      {
        var m := METHODS[i];
        assert METHODS[i..][1..] == METHODS[i + 1..];
        assert METHODS[..i + 1] == METHODS[..i] + [m];
        var ask := LookUp(q, m);
        if ask {
          todo := todo + [m];
        }
        i := i + 1;
      }
      LoadReads(Files(), q, METHODS, NOTHING, Prebuilt);
      forall m ensures m in METHODS { EveryMethod(m); }
      assert METHODS[..i] == METHODS && METHODS[i..] == [];
      if todo != [] {
        assert todo[0] in Todo(Files(), q);
        calls := calls + 1;
      }
      assert todo == [] ==> Todo(Files(), q) == {};
    }

    // One critical section of one lane: counting its call, or landing.
    method TakeTurn(q: Request, m: Method)
      modifies this
      ensures St() == Turn(old(St()), q, m)
    {
      hide Judge, Filed, Coerce;
      if m !in asked {
        calls := calls + 1;
        asked := asked + {m};
      } else {
        var sh := q.hash(q.spec);
        match Judge(m, q.reply(m), q.spec) {
          case Plan(a) =>
            planFiles := planFiles[m := PlanFile(Filed(a), sh)];
            plans := plans[m := a];
          case Blocked(why) =>
            blockedFiles := blockedFiles[m := BlockedFile(Coerce(why), sh)];
            blocked := blocked[m := why];
          case Transient(why) =>
            transients := transients[m := why];
        }
        landed := landed + {m};
      }
    }

    // The whole fan-out under one interleaving of the lanes' critical sections.
    method Run(q: Request, schedule: seq<Method>)
      requires Res() == NOTHING && asked == {} && landed == {}
      requires Complete(schedule, Todo(Files(), q))
      modifies this
      ensures (Res(), Files()) == Fan(old(Files()), q)
    {
      ghost var c := Files();
      var todo := LoadAll(q);
      ghost var start := St();
      var i := 0;
      assert schedule[0..] == schedule;
      while i < |schedule|
        invariant 0 <= i <= |schedule|
        invariant Turns(St(), q, schedule[i..]) == Turns(start, q, schedule)
      {
        assert schedule[i..][1..] == schedule[i + 1..];
        TakeTurn(q, schedule[i]);
        i := i + 1;
      }
      AnyOrder(c, q, schedule);
    }
  }

  // ----- the run record -----

  datatype Row = Row(lane: Method, verdict: string, why: string, approach: Option<Approach>, cacheHit: bool)

  function RowOf(r: Result, m: Method): (row: Option<Row>) {
    if m in r.plans then Some(Row(m, "plan", "", Some(r.plans[m]), m in r.cached))
    else if m in r.blocked then Some(Row(m, "blocked", r.blocked[m], None, m in r.cached))
    else if m in r.skipped then Some(Row(m, "skipped", r.skipped[m], None, false))
    else if m in r.transients then Some(Row(m, "transient", r.transients[m], None, false))
    else None
  }

  function Rows(r: Result, ms: seq<Method>): (rows: seq<Row>) {
    if ms == [] then []
    else Rows(r, ms[..|ms| - 1]) +
         match RowOf(r, ms[|ms| - 1]) case Some(row) => [row] case None => []
  }

  function Hits(rows: seq<Row>): (n: nat) {
    if rows == [] then 0 else Hits(rows[..|rows| - 1]) + if rows[|rows| - 1].cacheHit then 1 else 0
  }

  function Fresh(rows: seq<Row>): (n: nat) {
    if rows == [] then 0
    else Fresh(rows[..|rows| - 1]) +
         if !rows[|rows| - 1].cacheHit && rows[|rows| - 1].verdict != "skipped" then 1 else 0
  }

  function Provenance(rows: seq<Row>): (p: string) {
    if Fresh(rows) == 0 && Hits(rows) > 0 then "cached_replay"
    else if Hits(rows) > 0 then "mixed"
    else "fresh"
  }

  method FromOutcome(r: Result) returns (rows: seq<Row>, provenance: string)
    ensures rows == Rows(r, METHODS) && provenance == Provenance(rows)
  {
    rows := [];
    var i := 0;
    while i < |METHODS|
      invariant 0 <= i <= |METHODS|
      invariant rows == Rows(r, METHODS[..i])
    {
      var m := METHODS[i];
      assert METHODS[..i + 1][..i] == METHODS[..i];
      if m in r.plans {
        rows := rows + [Row(m, "plan", "", Some(r.plans[m]), m in r.cached)];
      } else if m in r.blocked {
        rows := rows + [Row(m, "blocked", r.blocked[m], None, m in r.cached)];
      } else if m in r.skipped {
        rows := rows + [Row(m, "skipped", r.skipped[m], None, false)];
      } else if m in r.transients {
        rows := rows + [Row(m, "transient", r.transients[m], None, false)];
      }
      i := i + 1;
    }
    assert METHODS[..i] == METHODS;
    var hits, asked := 0, 0;
    var k := 0;
    while k < |rows|
      invariant 0 <= k <= |rows|
      invariant hits == Hits(rows[..k]) && asked == Fresh(rows[..k])
    {
      assert rows[..k + 1][..k] == rows[..k];
      if rows[k].cacheHit {
        hits := hits + 1;
      } else if rows[k].verdict != "skipped" {
        asked := asked + 1;
      }
      k := k + 1;
    }
    assert rows[..k] == rows;
    provenance := if asked == 0 && hits > 0 then "cached_replay" else if hits > 0 then "mixed" else "fresh";
  }

  lemma {:induction false} HitsSome(rows: seq<Row>)
    ensures Hits(rows) > 0 <==> exists i :: 0 <= i < |rows| && rows[i].cacheHit
  {
    if rows != [] {
      var init := rows[..|rows| - 1];
      HitsSome(init);
      assert forall i :: 0 <= i < |init| ==> init[i] == rows[i];
    }
  }

  lemma {:induction false} FreshSome(rows: seq<Row>)
    ensures Fresh(rows) > 0 <==> exists i :: 0 <= i < |rows| && !rows[i].cacheHit && rows[i].verdict != "skipped"
  {
    if rows != [] {
      var init := rows[..|rows| - 1];
      FreshSome(init);
      assert forall i :: 0 <= i < |init| ==> init[i] == rows[i];
    }
  }

  // What the row of a lane says about its cache entry.
  lemma {:induction false} RowMeans(c: Cache, q: Request, m: Method)
    ensures var row := RowOf(Fan(c, q).0, m);
            && row.Some? && row.value.lane == m
            && (row.value.cacheHit <==> m in Fan(c, q).0.cached)
            && (!row.value.cacheHit && row.value.verdict != "skipped" <==> m in Todo(c, q))
  {
    OneDisposition(c, q, m);
    EveryMethod(m);
    FanLane(c, q, m);
    hide Fan, VerdictOf;
    assert "skipped"[0] == 's' && "plan"[0] == 'p' && "blocked"[0] == 'b' && "transient"[0] == 't';
  }

  // The row of a lane says what became of it: its plan, its reason, and whether it
  // was replayed; only a lane in none of the maps has no row.
  lemma {:induction false} RowTells(r: Result, m: Method)
    requires m in r.plans ==> m !in r.blocked && m !in r.skipped && m !in r.transients
    requires m in r.blocked ==> m !in r.skipped && m !in r.transients
    requires m in r.skipped ==> m !in r.transients
    ensures m in r.plans ==> RowOf(r, m) == Some(Row(m, "plan", "", Some(r.plans[m]), m in r.cached))
    ensures m in r.blocked ==> RowOf(r, m) == Some(Row(m, "blocked", r.blocked[m], None, m in r.cached))
    ensures m in r.skipped ==> RowOf(r, m) == Some(Row(m, "skipped", r.skipped[m], None, false))
    ensures m in r.transients ==> RowOf(r, m) == Some(Row(m, "transient", r.transients[m], None, false))
    ensures RowOf(r, m) == None <==> m !in r.plans && m !in r.blocked && m !in r.skipped && m !in r.transients
  {
  }

  // For every run, the record has the lane's row in its place, and that row tells
  // the lane's plan or reason.
  lemma {:induction false} RecordTells(c: Cache, q: Request, i: nat)
    requires i < 5
    ensures var r, rows, m := Fan(c, q).0, Rows(Fan(c, q).0, METHODS), METHODS[i];
            && |rows| == 5
            && (m in r.plans <==> rows[i].verdict == "plan")
            && (m in r.blocked <==> rows[i].verdict == "blocked")
            && (m in r.skipped <==> rows[i].verdict == "skipped")
            && (m in r.transients <==> rows[i].verdict == "transient")
            && (m in r.plans ==> rows[i].approach == Some(r.plans[m]) && rows[i].why == "")
            && (m in r.blocked ==> rows[i].approach == None && rows[i].why == r.blocked[m])
            && (m in r.skipped ==> rows[i].approach == None && rows[i].why == r.skipped[m])
            && (m in r.transients ==> rows[i].approach == None && rows[i].why == r.transients[m])
  {
    var r, m := Fan(c, q).0, METHODS[i];
    OneDisposition(c, q, m);
    RowTells(r, m);
    hide Fan, Rows, RowOf;
    forall m' ensures RowOf(r, m').Some? && RowOf(r, m').value.lane == m' { RowMeans(c, q, m'); }
    RowPerMethod(r, METHODS);
    assert "skipped"[0] == 's' && "plan"[0] == 'p' && "blocked"[0] == 'b' && "transient"[0] == 't';
  }

  // One row per method, in lane order.
  lemma {:induction false} RowPerMethod(r: Result, ms: seq<Method>)
    requires forall m :: m in ms ==> RowOf(r, m).Some? && RowOf(r, m).value.lane == m
    ensures |Rows(r, ms)| == |ms|
    ensures forall i :: 0 <= i < |ms| ==> RowOf(r, ms[i]) == Some(Rows(r, ms)[i]) && Rows(r, ms)[i].lane == ms[i]
  {
    hide RowOf;
    if ms != [] {
      var init := ms[..|ms| - 1];
      assert ms[|ms| - 1] in ms;
      RowPerMethod(r, init);
    }
  }

  lemma {:induction false} LaneRows(c: Cache, q: Request)
    ensures var rows := Rows(Fan(c, q).0, METHODS);
            && |rows| == 5 && (forall i :: 0 <= i < 5 ==> rows[i].lane == METHODS[i])
            && METHODS == [Prebuilt, Compose, Build, Pkg, Source]
            && (forall i :: 0 <= i < 5 ==> (rows[i].cacheHit <==> METHODS[i] in Fan(c, q).0.cached))
            && (forall i :: 0 <= i < 5 ==>
                  (!rows[i].cacheHit && rows[i].verdict != "skipped" <==> METHODS[i] in Todo(c, q)))
  {
    var r := Fan(c, q).0;
    forall m ensures RowOf(r, m).Some? && RowOf(r, m).value.lane == m
      ensures RowOf(r, m).value.cacheHit <==> m in r.cached
      ensures !RowOf(r, m).value.cacheHit && RowOf(r, m).value.verdict != "skipped" <==> m in Todo(c, q)
    {
      RowMeans(c, q, m);
    }
    hide Fan, Rows, RowOf, Todo;
    RowPerMethod(r, METHODS);
  }

  lemma {:induction false} RowsCount(c: Cache, q: Request)
    ensures var rows := Rows(Fan(c, q).0, METHODS);
            (Hits(rows) > 0 <==> Fan(c, q).0.cached != {}) && (Fresh(rows) > 0 <==> Todo(c, q) != {})
  {
    hide Fan, Rows, Todo, Hits, Fresh;
    LaneRows(c, q);
    HitsSome(Rows(Fan(c, q).0, METHODS));
    FreshSome(Rows(Fan(c, q).0, METHODS));
    SomeLane(c, q);
  }

  // A run is a cached replay exactly when it asked the model nothing, fresh
  // exactly when nothing was replayed, and mixed otherwise; its record has one
  // row per method, in lane order.
  lemma {:induction false} ProvenanceTellsCalls(c: Cache, q: Request)
    ensures var r := Fan(c, q).0;
            var rows := Rows(r, METHODS);
            && |rows| == 5 && (forall i :: 0 <= i < 5 ==> rows[i].lane == METHODS[i])
            && (Provenance(rows) == "cached_replay" <==> r.calls == 0)
            && (Provenance(rows) == "fresh" <==> r.cached == {})
            && (Provenance(rows) == "mixed" <==> r.calls > 0 && r.cached != {})
  {
    LaneRows(c, q);
    RowsCount(c, q);
    SomeLane(c, q);
    FanLane(c, q, Prebuilt);
    ProvenanceFlags(Rows(Fan(c, q).0, METHODS));
    hide Fan, Rows, RowOf, Hits, Fresh, Provenance, Todo, FanAt;
  }

  lemma {:induction false} ProvenanceFlags(rows: seq<Row>)
    ensures Provenance(rows) == "cached_replay" <==> Fresh(rows) == 0 && Hits(rows) > 0
    ensures Provenance(rows) == "fresh" <==> Hits(rows) == 0
    ensures Provenance(rows) == "mixed" <==> Fresh(rows) > 0 && Hits(rows) > 0
  {
    assert "cached_replay"[0] == 'c' && "fresh"[0] == 'f' && "mixed"[0] == 'm';
    hide Hits, Fresh;
  }

  // The prebuilt lane is never skipped, and lanes are replayed or asked by name.
  lemma {:induction false} SomeLane(c: Cache, q: Request)
    ensures Prebuilt in Fan(c, q).0.cached || Prebuilt in Todo(c, q)
    ensures Fan(c, q).0.cached != {} <==> exists i :: 0 <= i < 5 && METHODS[i] in Fan(c, q).0.cached
    ensures Todo(c, q) != {} <==> exists i :: 0 <= i < 5 && METHODS[i] in Todo(c, q)
  {
    FanLane(c, q, Prebuilt);
    EveryMethod(Prebuilt);
    hide Fan;
    forall m ensures m in METHODS { EveryMethod(m); }
    if Fan(c, q).0.cached != {} {
      var m :| m in Fan(c, q).0.cached;
      assert m in METHODS;
    }
    if Todo(c, q) != {} {
      var m :| m in Todo(c, q);
      assert m in METHODS;
    }
  }
}
