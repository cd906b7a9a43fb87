// The five-lane fan-out and its per-method cache (internal/generate): each lane
// answers with a plan or a blocked reason, and both are stored under the
// fingerprint of the target spec.
module Fanout {
  import opened Text
  import opened Utf8

  datatype Method = Prebuilt | Compose | Build | Pkg | Source

  const METHODS: seq<Method> := [Prebuilt, Compose, Build, Pkg, Source]

  // The deliverable, and everything else the fingerprint covers.
  datatype Spec = Spec(deliverable: string, rest: string)

  // What the clamps let through of a model reply.  `images`, `composeFile` and
  // `dockerfile` are past their own clamps: empty, "" and false when rejected;
  // so are the other texts of a plan, its `payload`.
  datatype Json = Json(
    status: string,
    why: string,
    images: seq<string>,
    composeFile: string,
    dockerfile: bool,
    command: seq<string>,
    notes: string,
    payload: seq<string>)

  datatype Reply = CallFailed(error: string) | Unparseable | Parsed(json: Json)

  datatype Approach = Approach(lane: Method, command: seq<string>, notes: string, payload: seq<string>)

  datatype Verdict = Plan(approach: Approach) | Blocked(reason: string) | Transient(why: string)

  // ----- the clamp -----

  const KEEPALIVE: set<string> :=
    {"sleep", "true", "false", "tail", "top", "yes", "watch", "cat", "sh", "bash", "ash", "dash", "read"}
  const SHELLS: set<string> := {"sh", "bash", "ash", "dash"}

  predicate IsKeepalive(cmd: seq<string>) {
    cmd != [] &&
    var a0 := Trim(cmd[0]);
    a0 in KEEPALIVE &&
    (a0 in SHELLS && |cmd| >= 3 && Trim(cmd[1]) == "-c" ==>
       FirstWord(cmd[2]) == "" || FirstWord(cmd[2]) in KEEPALIVE)
  }

  predicate IsWeb(spec: Option<Spec>) { spec.Some? && Lower(spec.value.deliverable) == "web" }

  // A plan, or the reason there is none.  The decoder has coerced every text of
  // the reply; the cuts go by bytes.
  function ClampMethod(m: Method, j: Json, spec: Option<Spec>): (r: (Option<Approach>, string)) {
    var notes := Truncate(Coerce(j.notes), 120);
    if Lower(j.status) == "blocked" then (None, Truncate(Coerce(j.why), 40))
    else
      match m
      case Prebuilt =>
        if j.images == [] then (None, "no exact image ref") else (Some(Approach(m, [], notes, j.payload)), "")
      case Compose =>
        if j.composeFile == "" then (None, "no standalone compose file")
        else (Some(Approach(m, [], notes, j.payload)), "")
      case Build =>
        if !j.dockerfile then (None, "no root Dockerfile") else (Some(Approach(m, [], notes, j.payload)), "")
      case _ =>
        var cmd := CoerceAll(if |j.command| <= 16 then j.command else j.command[..16]);
        if cmd == [] then (None, "no command")
        else if IsWeb(spec) && IsKeepalive(cmd) then (None, "plan ignores the web target")
        else (Some(Approach(m, cmd, notes, j.payload)), "")
  }

  // A plan as its file gives it back: written as JSON, every text is coerced.
  function Filed(a: Approach): (r: Approach) {
    Approach(a.lane, CoerceAll(a.command), Coerce(a.notes), CoerceAll(a.payload))
  }

  // A parsed reply without a plan is blocked; with an empty reason it ends up
  // among the transients, under an empty reason.
  function Judge(m: Method, r: Reply, spec: Option<Spec>): (v: Verdict) {
    match r
    case CallFailed(e) => Transient(e)
    case Unparseable => Transient("unparseable output")
    case Parsed(j) =>
      var (plan, why) := ClampMethod(m, j, spec);
      if plan.Some? then Plan(plan.value)
      else if Truncate(why, 40) != "" then Blocked(Truncate(why, 40))
      else Transient("")
  }

  // ----- files and results -----

  datatype PlanFile = PlanFile(approach: Approach, specH: string)
  datatype BlockedFile = BlockedFile(why: string, specH: string)

  // The plan directory of one content key.
  datatype Cache = Cache(plans: map<Method, PlanFile>, blocked: map<Method, BlockedFile>)

  datatype Result = Result(
    plans: map<Method, Approach>,
    blocked: map<Method, string>,
    skipped: map<Method, string>,
    transients: map<Method, string>,
    cached: set<Method>,
    calls: nat)

  datatype Facts = Facts(compose: bool, dockerfile: bool, make: bool)

  // What one run is given.  `hash` is the spec fingerprint, an opaque function.
  datatype Request = Request(facts: Facts, spec: Option<Spec>, hash: Option<Spec> -> string, reply: Method -> Reply)

  function SkipReason(m: Method, f: Facts): (r: Option<string>) {
    if m == Compose && !f.compose then Some("no compose file")
    else if m == Build && !f.dockerfile then Some("no root Dockerfile")
    else if m == Source && !f.make then Some("no build manifest")
    else None
  }

  predicate PlanHit(c: Cache, m: Method, sh: string) { m in c.plans && c.plans[m].specH == sh }
  predicate BlockedHit(c: Cache, m: Method, sh: string) { m in c.blocked && c.blocked[m].specH == sh }

  // The lanes that must ask the model.
  function Todo(c: Cache, q: Request): (r: set<Method>) {
    set m: Method | m in METHODS && SkipReason(m, q.facts).None? &&
                    !PlanHit(c, m, q.hash(q.spec)) && !BlockedHit(c, m, q.hash(q.spec))
  }

  // Looking one lane up: a plan file is looked at before a blocked file.
  function LoadOne(c: Cache, q: Request, r: Result, m: Method): (r': Result) {
    var sh, skip := q.hash(q.spec), SkipReason(m, q.facts);
    if skip.Some? then r.(skipped := r.skipped[m := skip.value])
    else if PlanHit(c, m, sh) then r.(plans := r.plans[m := c.plans[m].approach], cached := r.cached + {m})
    else if BlockedHit(c, m, sh) then r.(blocked := r.blocked[m := c.blocked[m].why], cached := r.cached + {m})
    else r
  }

  function Load(c: Cache, q: Request, ms: seq<Method>, r: Result): (r': Result)
    decreases |ms|
  {
    if ms == [] then r else Load(c, q, ms[1..], LoadOne(c, q, r, ms[0]))
  }

  const NOTHING: Result := Result(map[], map[], map[], map[], {}, 0)

  // The result when every lane has been looked up and none has asked yet; the
  // draft call is made if any lane is left.
  function Loaded(c: Cache, q: Request): (r: Result) {
    var r := Load(c, q, METHODS, NOTHING);
    if Todo(c, q) == {} then r else r.(calls := 1)
  }

  // ----- lanes landing, in any order -----

  datatype Pool = Pool(result: Result, cache: Cache, asked: set<Method>, landed: set<Method>)

  function VerdictOf(q: Request, m: Method): (v: Verdict) { Judge(m, q.reply(m), q.spec) }

  function Land(p: Pool, q: Request, m: Method): (p': Pool) {
    var sh := q.hash(q.spec);
    match VerdictOf(q, m)
    case Plan(a) =>
      p.(result := p.result.(plans := p.result.plans[m := a]),
         cache := p.cache.(plans := p.cache.plans[m := PlanFile(Filed(a), sh)]),
         landed := p.landed + {m})
    case Blocked(why) =>
      p.(result := p.result.(blocked := p.result.blocked[m := why]),
         cache := p.cache.(blocked := p.cache.blocked[m := BlockedFile(Coerce(why), sh)]),
         landed := p.landed + {m})
    case Transient(why) =>
      p.(result := p.result.(transients := p.result.transients[m := why]), landed := p.landed + {m})
  }

  // A lane takes the lock twice: to count its call, then to land.
  function Turn(p: Pool, q: Request, m: Method): (p': Pool) {
    if m !in p.asked then p.(result := p.result.(calls := p.result.calls + 1), asked := p.asked + {m})
    else Land(p, q, m)
  }

  function Turns(p: Pool, q: Request, schedule: seq<Method>): (p': Pool)
    decreases |schedule|
  {
    if schedule == [] then p else Turns(Turn(p, q, schedule[0]), q, schedule[1..])
  }

  function CountOf(schedule: seq<Method>, m: Method): (n: nat) {
    if schedule == [] then 0 else (if schedule[0] == m then 1 else 0) + CountOf(schedule[1..], m)
  }

  // Every lane to do has both its turns, and no other lane has any.
  ghost predicate Complete(schedule: seq<Method>, todo: set<Method>) {
    forall m :: CountOf(schedule, m) == if m in todo then 2 else 0
  }

  // Both turns of each lane to do, one lane after the other.
  function InOrder(todo: set<Method>, ms: seq<Method>): (r: seq<Method>) {
    if ms == [] then []
    else (if ms[0] in todo then [ms[0], ms[0]] else []) + InOrder(todo, ms[1..])
  }

  // One run of the fan-out: its result and the files it leaves.
  function Fan(c: Cache, q: Request): (r: (Result, Cache)) {
    var p := Turns(Pool(Loaded(c, q), c, {}, {}), q, InOrder(Todo(c, q), METHODS));
    (p.result, p.cache)
  }

  // ----- what every order comes to -----

  function Get<T>(m: map<Method, T>, k: Method): (r: Option<T>) {
    if k in m then Some(m[k]) else None
  }

  lemma {:induction false} GetSet<T>(m: map<Method, T>, k: Method, v: T, k': Method)
    ensures Get(m[k := v], k') == if k' == k then Some(v) else Get(m, k')
  {
  }

  lemma {:induction false} SameMap<T>(a: map<Method, T>, b: map<Method, T>)
    requires forall m :: Get(a, m) == Get(b, m)
    ensures a == b
  {
    forall m ensures m in a <==> m in b {
      assert Get(a, m) == Get(b, m);
    }
    forall m | m in a ensures a[m] == b[m] {
      assert Get(a, m) == Get(b, m);
    }
  }

  // How one lane stands: as loaded, or as its verdict says once it has landed.
  ghost predicate LaneStands(p: Pool, c: Cache, q: Request, m: Method, landed: bool) {
    var start, sh, v := Loaded(c, q), q.hash(q.spec), VerdictOf(q, m);
    && Get(p.result.plans, m) == (if landed && v.Plan? then Some(v.approach) else Get(start.plans, m))
    && Get(p.result.blocked, m) == (if landed && v.Blocked? then Some(v.reason) else Get(start.blocked, m))
    && Get(p.result.transients, m) == (if landed && v.Transient? then Some(v.why) else Get(start.transients, m))
    && Get(p.cache.plans, m) == (if landed && v.Plan? then Some(PlanFile(Filed(v.approach), sh)) else Get(c.plans, m))
    && Get(p.cache.blocked, m) ==
       (if landed && v.Blocked? then Some(BlockedFile(Coerce(v.reason), sh)) else Get(c.blocked, m))
  }

  ghost predicate Stands(p: Pool, c: Cache, q: Request, asked: set<Method>, landed: set<Method>) {
    && p.asked == asked && p.landed == landed
    && p.result.calls == Loaded(c, q).calls + |asked|
    && p.result.skipped == Loaded(c, q).skipped && p.result.cached == Loaded(c, q).cached
    && forall m :: LaneStands(p, c, q, m, m in landed)
  }

  lemma {:induction false} StandsOnce(p: Pool, p': Pool, c: Cache, q: Request, asked: set<Method>, landed: set<Method>)
    requires Stands(p, c, q, asked, landed) && Stands(p', c, q, asked, landed)
    ensures p == p'
  {
    forall m
      ensures Get(p.result.plans, m) == Get(p'.result.plans, m) && Get(p.result.blocked, m) == Get(p'.result.blocked, m)
      ensures Get(p.result.transients, m) == Get(p'.result.transients, m)
      ensures Get(p.cache.plans, m) == Get(p'.cache.plans, m) && Get(p.cache.blocked, m) == Get(p'.cache.blocked, m)
    {
      assert LaneStands(p, c, q, m, m in landed) && LaneStands(p', c, q, m, m in landed);
    }
    SameMap(p.result.plans, p'.result.plans);
    SameMap(p.result.blocked, p'.result.blocked);
    SameMap(p.result.transients, p'.result.transients);
    SameMap(p.cache.plans, p'.cache.plans);
    SameMap(p.cache.blocked, p'.cache.blocked);
  }

  lemma {:induction false} StandsAsk(p: Pool, c: Cache, q: Request, asked: set<Method>, landed: set<Method>, m: Method)
    requires Stands(p, c, q, asked, landed) && m !in asked
    ensures Stands(Turn(p, q, m), c, q, asked + {m}, landed)
  {
    forall m' ensures LaneStands(Turn(p, q, m), c, q, m', m' in landed) {
      assert LaneStands(p, c, q, m', m' in landed);
    }
  }

  lemma {:induction false} LandLane(p: Pool, c: Cache, q: Request, landed: set<Method>, m: Method, m': Method)
    requires LaneStands(p, c, q, m', m' in landed)
    ensures LaneStands(Land(p, q, m), c, q, m', m' in landed + {m})
  {
    var sh := q.hash(q.spec);
    match VerdictOf(q, m) {
      case Plan(a) =>
        GetSet(p.result.plans, m, a, m');
        GetSet(p.cache.plans, m, PlanFile(Filed(a), sh), m');
      case Blocked(why) =>
        GetSet(p.result.blocked, m, why, m');
        GetSet(p.cache.blocked, m, BlockedFile(Coerce(why), sh), m');
      case Transient(why) =>
        GetSet(p.result.transients, m, why, m');
    }
    hide VerdictOf, Loaded, Get, Filed, Coerce;
  }

  lemma {:induction false} StandsLand(p: Pool, c: Cache, q: Request, asked: set<Method>, landed: set<Method>, m: Method)
    requires Stands(p, c, q, asked, landed) && m in asked
    ensures Stands(Turn(p, q, m), c, q, asked, landed + {m})
  {
    hide VerdictOf, Loaded, LaneStands;
    forall m' ensures LaneStands(Land(p, q, m), c, q, m', m' in landed + {m}) {
      LandLane(p, c, q, landed, m, m');
    }
  }

  // Which lanes have asked and which have landed, after the turns of a schedule.
  function Track(asked: set<Method>, landed: set<Method>, schedule: seq<Method>): (r: (set<Method>, set<Method>))
    decreases |schedule|
  {
    if schedule == [] then (asked, landed)
    else if schedule[0] !in asked then Track(asked + {schedule[0]}, landed, schedule[1..])
    else Track(asked, landed + {schedule[0]}, schedule[1..])
  }

  lemma {:induction false} TurnsStand(p: Pool, c: Cache, q: Request, asked: set<Method>, landed: set<Method>,
                                      schedule: seq<Method>)
    requires Stands(p, c, q, asked, landed)
    ensures var t := Track(asked, landed, schedule);
            Stands(Turns(p, q, schedule), c, q, t.0, t.1)
    decreases |schedule|
  {
    hide Stands, Turn;
    if schedule != [] {
      var m := schedule[0];
      if m !in asked {
        StandsAsk(p, c, q, asked, landed, m);
        TurnsStand(Turn(p, q, m), c, q, asked + {m}, landed, schedule[1..]);
      } else {
        StandsLand(p, c, q, asked, landed, m);
        TurnsStand(Turn(p, q, m), c, q, asked, landed + {m}, schedule[1..]);
      }
    }
  }

  lemma {:induction false} TrackCounts(asked: set<Method>, landed: set<Method>, schedule: seq<Method>, m: Method)
    ensures var t := Track(asked, landed, schedule);
            && (m in t.0 <==> m in asked || CountOf(schedule, m) >= 1)
            && (m in t.1 <==> m in landed || CountOf(schedule, m) + (if m in asked then 1 else 0) >= 2)
    decreases |schedule|
  {
    if schedule != [] {
      if schedule[0] !in asked {
        TrackCounts(asked + {schedule[0]}, landed, schedule[1..], m);
      } else {
        TrackCounts(asked, landed + {schedule[0]}, schedule[1..], m);
      }
    }
  }

  lemma {:induction false} CountAppend(a: seq<Method>, b: seq<Method>, m: Method)
    ensures CountOf(a + b, m) == CountOf(a, m) + CountOf(b, m)
    decreases |a|
  {
    if a == [] {
      assert a + b == b;
    } else {
      assert (a + b)[1..] == a[1..] + b;
      CountAppend(a[1..], b, m);
    }
  }

  lemma {:induction false} InOrderCounts(todo: set<Method>, ms: seq<Method>, m: Method)
    ensures CountOf(InOrder(todo, ms), m) == if m in todo then 2 * CountOf(ms, m) else 0
    decreases |ms|
  {
    if ms != [] {
      InOrderCounts(todo, ms[1..], m);
      var two := if ms[0] in todo then [ms[0], ms[0]] else [];
      CountAppend(two, InOrder(todo, ms[1..]), m);
      assert ms[0] in todo ==> two[1..] == [ms[0]] && two[1..][1..] == [];
    }
  }

  lemma {:induction false} InOrderComplete(todo: set<Method>)
    ensures Complete(InOrder(todo, METHODS), todo)
  {
    forall m ensures CountOf(InOrder(todo, METHODS), m) == if m in todo then 2 else 0 {
      InOrderCounts(todo, METHODS, m);
    }
  }

  lemma {:induction false} CompleteStands(c: Cache, q: Request, schedule: seq<Method>)
    requires Complete(schedule, Todo(c, q))
    ensures Stands(Turns(Pool(Loaded(c, q), c, {}, {}), q, schedule), c, q, Todo(c, q), Todo(c, q))
  {
    TurnsStand(Pool(Loaded(c, q), c, {}, {}), c, q, {}, {}, schedule);
    var t := Track({}, {}, schedule);
    forall m ensures (m in t.0 <==> m in Todo(c, q)) && (m in t.1 <==> m in Todo(c, q)) {
      TrackCounts({}, {}, schedule, m);
    }
    assert t.0 == Todo(c, q) && t.1 == Todo(c, q);
  }

  // Every interleaving of the lanes gives the same result and the same files.
  lemma {:induction false} AnyOrder(c: Cache, q: Request, schedule: seq<Method>)
    requires Complete(schedule, Todo(c, q))
    ensures var p := Turns(Pool(Loaded(c, q), c, {}, {}), q, schedule);
            (p.result, p.cache) == Fan(c, q)
  {
    InOrderComplete(Todo(c, q));
    CompleteStands(c, q, schedule);
    CompleteStands(c, q, InOrder(Todo(c, q), METHODS));
    StandsOnce(Turns(Pool(Loaded(c, q), c, {}, {}), q, schedule),
               Turns(Pool(Loaded(c, q), c, {}, {}), q, InOrder(Todo(c, q), METHODS)),
               c, q, Todo(c, q), Todo(c, q));
  }

  // ----- where each lane ends up -----

  lemma {:induction false} EveryMethod(m: Method)
    ensures m in METHODS
  {
    match m
    case Prebuilt => assert METHODS[0] == m;
    case Compose => assert METHODS[1] == m;
    case Build => assert METHODS[2] == m;
    case Pkg => assert METHODS[3] == m;
    case Source => assert METHODS[4] == m;
  }

  predicate Slot(q: Request, m: Method) { SkipReason(m, q.facts).None? }

  // What the cache alone decides about a lane.
  ghost predicate LoadedAt(r: Result, r0: Result, c: Cache, q: Request, m: Method) {
    var sh := q.hash(q.spec);
    && Get(r.skipped, m) == (if !Slot(q, m) then SkipReason(m, q.facts) else Get(r0.skipped, m))
    && Get(r.plans, m) == (if Slot(q, m) && PlanHit(c, m, sh) then Some(c.plans[m].approach) else Get(r0.plans, m))
    && Get(r.blocked, m) == (if Slot(q, m) && !PlanHit(c, m, sh) && BlockedHit(c, m, sh)
                             then Some(c.blocked[m].why) else Get(r0.blocked, m))
    && (m in r.cached <==> m in r0.cached || (Slot(q, m) && (PlanHit(c, m, sh) || BlockedHit(c, m, sh))))
  }

  // What looking up leaves alone.
  ghost predicate Untouched(r: Result, r0: Result, m: Method) {
    && Get(r.plans, m) == Get(r0.plans, m) && Get(r.blocked, m) == Get(r0.blocked, m)
    && Get(r.skipped, m) == Get(r0.skipped, m) && (m in r.cached <==> m in r0.cached)
  }

  lemma {:induction false} OtherSkipped(r: Result, k: Method, why: string, m: Method)
    requires k != m
    ensures Untouched(r.(skipped := r.skipped[k := why]), r, m)
  {
  }

  lemma {:induction false} OtherPlan(r: Result, k: Method, a: Approach, m: Method)
    requires k != m
    ensures Untouched(r.(plans := r.plans[k := a], cached := r.cached + {k}), r, m)
  {
  }

  lemma {:induction false} OtherBlocked(r: Result, k: Method, why: string, m: Method)
    requires k != m
    ensures Untouched(r.(blocked := r.blocked[k := why], cached := r.cached + {k}), r, m)
  {
  }

  lemma {:induction false} OtherLookup(c: Cache, q: Request, r: Result, k: Method, m: Method)
    requires k != m
    ensures Untouched(LoadOne(c, q, r, k), r, m)
  {
    var sh, skip := q.hash(q.spec), SkipReason(k, q.facts);
    assert Untouched(r, r, m);
    hide SkipReason, Untouched;
    if skip.Some? {
      OtherSkipped(r, k, skip.value, m);
    } else if PlanHit(c, k, sh) {
      OtherPlan(r, k, c.plans[k].approach, m);
    } else if BlockedHit(c, k, sh) {
      OtherBlocked(r, k, c.blocked[k].why, m);
    }
  }

  lemma {:induction false} OwnLookup(c: Cache, q: Request, r: Result, m: Method)
    ensures LoadedAt(LoadOne(c, q, r, m), r, c, q, m)
  {
    hide SkipReason, Get;
    var sh, skip := q.hash(q.spec), SkipReason(m, q.facts);
    var r1 := LoadOne(c, q, r, m);
    if skip.Some? {
      GetSet(r.skipped, m, skip.value, m);
      assert LoadedAt(r1, r, c, q, m);
    } else if PlanHit(c, m, sh) {
      GetSet(r.plans, m, c.plans[m].approach, m);
      assert LoadedAt(r1, r, c, q, m);
    } else if BlockedHit(c, m, sh) {
      GetSet(r.blocked, m, c.blocked[m].why, m);
      assert LoadedAt(r1, r, c, q, m);
    }
  }

  lemma {:induction false} LookupsCompose(c: Cache, q: Request, r: Result, r1: Result, r2: Result, m: Method)
    requires LoadedAt(r1, r, c, q, m) || Untouched(r1, r, m)
    requires LoadedAt(r2, r1, c, q, m) || Untouched(r2, r1, m)
    ensures LoadedAt(r2, r1, c, q, m) || LoadedAt(r1, r, c, q, m) ==> LoadedAt(r2, r, c, q, m)
    ensures Untouched(r2, r1, m) && Untouched(r1, r, m) ==> Untouched(r2, r, m)
  {
    hide SkipReason, PlanHit, BlockedHit;
  }

  lemma {:induction false} LoadReads(c: Cache, q: Request, ms: seq<Method>, r: Result, m: Method)
    ensures Load(c, q, ms, r).transients == r.transients && Load(c, q, ms, r).calls == r.calls
    ensures if m in ms then LoadedAt(Load(c, q, ms, r), r, c, q, m) else Untouched(Load(c, q, ms, r), r, m)
    decreases |ms|
  {
    if ms != [] {
      var one := LoadOne(c, q, r, ms[0]);
      assert one.transients == r.transients && one.calls == r.calls;
      if ms[0] == m { OwnLookup(c, q, r, m); } else { OtherLookup(c, q, r, ms[0], m); }
      LoadReads(c, q, ms[1..], one, m);
      LookupsCompose(c, q, r, one, Load(c, q, ms, r), m);
      assert m in ms <==> m == ms[0] || m in ms[1..];
    } else {
      assert Untouched(r, r, m);
    }
  }

  // Where a run leaves one lane, and what it writes for it.
  ghost predicate FanAt(r: Result, c1: Cache, c: Cache, q: Request, m: Method) {
    var sh, v, todo := q.hash(q.spec), VerdictOf(q, m), m in Todo(c, q);
    && Get(r.skipped, m) == SkipReason(m, q.facts)
    && Get(r.plans, m) == (if todo && v.Plan? then Some(v.approach)
                           else if Slot(q, m) && PlanHit(c, m, sh) then Some(c.plans[m].approach) else None)
    && Get(r.blocked, m) == (if todo && v.Blocked? then Some(v.reason)
                             else if Slot(q, m) && !PlanHit(c, m, sh) && BlockedHit(c, m, sh)
                             then Some(c.blocked[m].why) else None)
    && Get(r.transients, m) == (if todo && v.Transient? then Some(v.why) else None)
    && (m in r.cached <==> Slot(q, m) && (PlanHit(c, m, sh) || BlockedHit(c, m, sh)))
    && Get(c1.plans, m) == (if todo && v.Plan? then Some(PlanFile(Filed(v.approach), sh)) else Get(c.plans, m))
    && Get(c1.blocked, m) ==
       (if todo && v.Blocked? then Some(BlockedFile(Coerce(v.reason), sh)) else Get(c.blocked, m))
  }

  lemma {:induction false} FanLane(c: Cache, q: Request, m: Method)
    ensures FanAt(Fan(c, q).0, Fan(c, q).1, c, q, m)
    ensures Fan(c, q).0.calls == if Todo(c, q) == {} then 0 else |Todo(c, q)| + 1
  {
    var todo := Todo(c, q);
    InOrderComplete(todo);
    CompleteStands(c, q, InOrder(todo, METHODS));
    EveryMethod(m);
    LoadReads(c, q, METHODS, NOTHING, m);
    var p := Turns(Pool(Loaded(c, q), c, {}, {}), q, InOrder(todo, METHODS));
    assert LaneStands(p, c, q, m, m in todo);
  }

  function Bit(b: bool): (n: nat) { if b then 1 else 0 }

  // Each of the five methods is in exactly one of the four maps, and the model
  // is asked once for the draft and once per lane to do, or not at all.
  lemma {:induction false} OneDisposition(c: Cache, q: Request, m: Method)
    ensures var r := Fan(c, q).0;
            && Bit(m in r.plans) + Bit(m in r.blocked) + Bit(m in r.skipped) + Bit(m in r.transients) == 1
            && r.calls == (if Todo(c, q) == {} then 0 else |Todo(c, q)| + 1)
            && (m in r.cached <==> (m in r.plans || m in r.blocked) && m !in Todo(c, q))
  {
    EveryMethod(m);
    hide Fan;
    FanLane(c, q, m);
  }

  // ----- histories -----

  // The plan directory after a series of runs; it starts empty.
  function After(history: seq<Request>): (c: Cache) {
    if history == [] then Cache(map[], map[]) else Fan(After(history[..|history| - 1]), history[|history| - 1]).1
  }

  // No lane holds a plan and a blocked verdict under one fingerprint.
  ghost predicate Unambiguous(c: Cache) {
    forall m :: m in c.plans && m in c.blocked ==> c.plans[m].specH != c.blocked[m].specH
  }

  lemma {:induction false} FanUnambiguous(c: Cache, q: Request)
    requires Unambiguous(c)
    ensures Unambiguous(Fan(c, q).1)
  {
    hide Fan;
    var c1 := Fan(c, q).1;
    forall m | m in c1.plans && m in c1.blocked ensures c1.plans[m].specH != c1.blocked[m].specH {
      FanLane(c, q, m);
    }
  }

  lemma {:induction false} NeverAmbiguous(history: seq<Request>)
    ensures Unambiguous(After(history))
  {
    hide Fan, Unambiguous;
    if history == [] {
      assert Unambiguous(After(history)) by { NoFiles(); }
    } else {
      NeverAmbiguous(history[..|history| - 1]);
      FanUnambiguous(After(history[..|history| - 1]), history[|history| - 1]);
    }
  }

  lemma {:induction false} NoFiles()
    ensures Unambiguous(Cache(map[], map[]))
  {
  }

  // The rerun's lanes to do are the transients of the first run.
  lemma {:induction false} RerunTodo(c: Cache, q: Request, again: Request)
    requires again.facts == q.facts && again.spec == q.spec && again.hash(q.spec) == q.hash(q.spec)
    ensures Todo(Fan(c, q).1, again) == Fan(c, q).0.transients.Keys
  {
    hide Fan;
    forall m ensures m in Todo(Fan(c, q).1, again) <==> m in Fan(c, q).0.transients {
      EveryMethod(m);
      FanLane(c, q, m);
    }
  }

  // A lane that is not asked again comes out as it went in.
  lemma {:induction false} QuietLane(c: Cache, q: Request, m: Method)
    requires m !in Todo(c, q)
    ensures var r := Fan(c, q);
            && Get(r.1.plans, m) == Get(c.plans, m) && Get(r.1.blocked, m) == Get(c.blocked, m)
            && Get(r.0.skipped, m) == SkipReason(m, q.facts)
            && Get(r.0.plans, m) == (if Slot(q, m) && PlanHit(c, m, q.hash(q.spec))
                                     then Some(c.plans[m].approach) else None)
            && Get(r.0.blocked, m) ==
               (if Slot(q, m) && !PlanHit(c, m, q.hash(q.spec)) && BlockedHit(c, m, q.hash(q.spec))
                then Some(c.blocked[m].why) else None)
  {
    FanLane(c, q, m);
    hide Fan, VerdictOf, SkipReason, PlanHit, BlockedHit, Get;
  }

  lemma {:induction false} RerunLane(c: Cache, q: Request, again: Request, m: Method)
    requires Unambiguous(c) && Fan(c, q).0.transients == map[]
    requires again.facts == q.facts && again.spec == q.spec && again.hash(q.spec) == q.hash(q.spec)
    ensures var first := Fan(c, q);
            var second := Fan(first.1, again);
            && Get(second.0.plans, m) == (if m in Todo(c, q) && m in first.0.plans then Some(Filed(first.0.plans[m]))
                                          else Get(first.0.plans, m))
            && Get(second.0.blocked, m) == (if m in Todo(c, q) && m in first.0.blocked
                                            then Some(Coerce(first.0.blocked[m])) else Get(first.0.blocked, m))
            && Get(second.0.skipped, m) == Get(first.0.skipped, m)
            && Get(second.1.plans, m) == Get(first.1.plans, m)
            && Get(second.1.blocked, m) == Get(first.1.blocked, m)
  {
    hide Fan, VerdictOf, SkipReason, Unambiguous, Filed, Coerce;
    FanUnambiguous(c, q);
    RerunTodo(c, q, again);
    EveryMethod(m);
    FanLane(c, q, m);
    assert m !in Todo(Fan(c, q).1, again);
    QuietLane(Fan(c, q).1, again, m);
  }

  // ----- what a cut by bytes costs -----

  // Cut at n bytes, the text ends with a whole character.
  predicate Whole(s: string, n: nat) { |s| <= n || !Cont(s[n]) }

  // What the reply says is not cut inside a character; the texts of the payload
  // have their cuts behind them.
  predicate ReasonWhole(q: Request, m: Method) {
    q.reply(m).Parsed? && Lower(q.reply(m).json.status) == "blocked" ==> Whole(Coerce(q.reply(m).json.why), 40)
  }

  predicate PlanWhole(q: Request, m: Method) {
    q.reply(m).Parsed? ==>
      && Whole(Coerce(q.reply(m).json.notes), 120)
      && forall t :: t in q.reply(m).json.payload ==> Valid(t)
  }

  lemma {:induction false} CutStands(s: string, n: nat)
    ensures Coerce(Truncate(Coerce(s), n)) == Truncate(Coerce(s), n) <==> Whole(Coerce(s), n)
  {
    hide Coerce, Valid;
    var t := Coerce(s);
    CoerceValid(s);
    CoerceIff(Truncate(t, n));
    CoerceIff(t);
    if |t| > n { CutIff(t, n); }
  }

  lemma {:induction false} TruncateTwice(s: string, n: nat)
    ensures Truncate(Truncate(s, n), n) == Truncate(s, n)
  {
  }

  const REASONS: seq<string> :=
    ["no exact image ref", "no standalone compose file", "no root Dockerfile", "no command",
     "plan ignores the web target"]

  lemma {:induction false} OwnReasons(k: nat)
    requires k < 5
    ensures Truncate(REASONS[k], 40) == REASONS[k] && Coerce(REASONS[k]) == REASONS[k]
  {
    PlainValid(REASONS[k]);
  }

  lemma {:induction false} ClampReasons(m: Method, j: Json, spec: Option<Spec>)
    requires Lower(j.status) != "blocked" && ClampMethod(m, j, spec).0.None?
    ensures exists k :: 0 <= k < 5 && ClampMethod(m, j, spec).1 == REASONS[k]
  {
    hide Truncate, Coerce, IsKeepalive;
    var why := ClampMethod(m, j, spec).1;
    assert why == REASONS[0] || why == REASONS[1] || why == REASONS[2] || why == REASONS[3] || why == REASONS[4];
  }

  lemma {:induction false} BlockedBy(q: Request, m: Method)
    requires VerdictOf(q, m).Blocked?
    ensures var j := q.reply(m).json;
            && q.reply(m).Parsed? && ClampMethod(m, j, q.spec).0.None?
            && VerdictOf(q, m).reason == Truncate(ClampMethod(m, j, q.spec).1, 40)
            && (Lower(j.status) == "blocked" ==> ClampMethod(m, j, q.spec).1 == Truncate(Coerce(j.why), 40))
  {
    hide Coerce, Truncate, Lower, IsKeepalive;
  }

  // A reason is filed as it stands exactly when it was not cut inside a
  // character; the clamp's own reasons always are.
  lemma {:induction false} ReasonStands(q: Request, m: Method)
    requires VerdictOf(q, m).Blocked?
    ensures Coerce(VerdictOf(q, m).reason) == VerdictOf(q, m).reason <==> ReasonWhole(q, m)
  {
    hide Coerce, Truncate, Whole, Lower, ClampMethod;
    var j := q.reply(m).json;
    BlockedBy(q, m);
    if Lower(j.status) == "blocked" {
      CutStands(j.why, 40);
      TruncateTwice(Coerce(j.why), 40);
    } else {
      ClampReasons(m, j, q.spec);
      var k :| 0 <= k < 5 && ClampMethod(m, j, q.spec).1 == REASONS[k];
      OwnReasons(k);
    }
  }

  lemma {:induction false} AllStand(ts: seq<string>)
    ensures CoerceAll(ts) == ts <==> forall t :: t in ts ==> Valid(t)
    ensures CoerceAll(CoerceAll(ts)) == CoerceAll(ts)
  {
    hide Coerce, Valid;
    forall i | 0 <= i < |ts|
      ensures Coerce(ts[i]) == ts[i] <==> Valid(ts[i])
      ensures CoerceAll(CoerceAll(ts))[i] == CoerceAll(ts)[i]
    {
      CoerceIff(ts[i]);
      CoerceValid(ts[i]);
    }
    if forall t :: t in ts ==> Valid(t) {
      forall i | 0 <= i < |ts| ensures CoerceAll(ts)[i] == ts[i] { assert ts[i] in ts; }
    }
    if CoerceAll(ts) == ts {
      forall t | t in ts ensures Valid(t) {
        var i :| 0 <= i < |ts| && ts[i] == t;
        assert CoerceAll(ts)[i] == Coerce(ts[i]);
      }
    }
  }

  lemma {:induction false} PlanTexts(q: Request, m: Method)
    requires VerdictOf(q, m).Plan?
    ensures var a, j := VerdictOf(q, m).approach, q.reply(m).json;
            && a.notes == Truncate(Coerce(j.notes), 120) && a.payload == j.payload
            && CoerceAll(a.command) == a.command
  {
    hide Coerce, Truncate, Lower, IsKeepalive;
    var j := q.reply(m).json;
    AllStand(if |j.command| <= 16 then j.command else j.command[..16]);
    AllStand([]);
    assert CoerceAll([]) == [];
  }

  lemma {:induction false} PlanStands(q: Request, m: Method)
    requires VerdictOf(q, m).Plan?
    ensures Filed(VerdictOf(q, m).approach) == VerdictOf(q, m).approach <==> PlanWhole(q, m)
  {
    hide Coerce, Truncate, Whole, CoerceAll, Valid, VerdictOf;
    assert q.reply(m).Parsed? by { PlanParsed(q, m); }
    PlanTexts(q, m);
    CutStands(q.reply(m).json.notes, 120);
    AllStand(q.reply(m).json.payload);
  }

  lemma {:induction false} PlanParsed(q: Request, m: Method)
    requires VerdictOf(q, m).Plan?
    ensures q.reply(m).Parsed?
  {
  }

  // A rerun on the same tree and spec asks nothing exactly when no lane of the
  // first run was transient; then it leaves the files as they were, and returns
  // the same blocked verdicts and the same plans exactly when no text that the
  // first run took from a reply was cut inside a character.
  lemma {:induction false} RerunReplays(history: seq<Request>, q: Request, again: Request)
    requires again.facts == q.facts && again.spec == q.spec && again.hash(q.spec) == q.hash(q.spec)
    ensures var c := After(history);
            var first := Fan(c, q);
            var second := Fan(first.1, again);
            && (second.0.calls == 0 <==> first.0.transients == map[])
            && (first.0.transients == map[] ==>
                  && second.0.skipped == first.0.skipped && second.1 == first.1
                  && second.0.plans.Keys == first.0.plans.Keys && second.0.blocked.Keys == first.0.blocked.Keys
                  && (second.0.blocked == first.0.blocked <==>
                        forall m :: m in Todo(c, q) && m in first.0.blocked ==> ReasonWhole(q, m))
                  && (second.0.plans == first.0.plans <==>
                        forall m :: m in Todo(c, q) && m in first.0.plans ==> PlanWhole(q, m)))
  {
    var c := After(history);
    NeverAmbiguous(history);
    RerunTodo(c, q, again);
    hide Fan, Unambiguous, Todo, ReasonWhole, PlanWhole, Filed, Coerce, FanAt, After;
    assert Fan(Fan(c, q).1, again).0.calls == 0 <==> Fan(c, q).0.transients == map[] by {
      FanLane(Fan(c, q).1, again, Prebuilt);
    }
    if Fan(c, q).0.transients == map[] {
      RerunSame(c, q, again);
      RerunBlocked(c, q, again);
      RerunPlans(c, q, again);
    }
  }

  lemma {:induction false} RerunSame(c: Cache, q: Request, again: Request)
    requires Unambiguous(c) && Fan(c, q).0.transients == map[]
    requires again.facts == q.facts && again.spec == q.spec && again.hash(q.spec) == q.hash(q.spec)
    ensures var first := Fan(c, q);
            var second := Fan(first.1, again);
            && second.0.skipped == first.0.skipped && second.1 == first.1
            && second.0.plans.Keys == first.0.plans.Keys && second.0.blocked.Keys == first.0.blocked.Keys
  {
    hide Fan, Unambiguous, Todo, Filed, Coerce;
    var first := Fan(c, q);
    var second := Fan(first.1, again);
    forall m
      ensures Get(second.0.skipped, m) == Get(first.0.skipped, m)
      ensures Get(second.1.plans, m) == Get(first.1.plans, m) && Get(second.1.blocked, m) == Get(first.1.blocked, m)
      ensures (m in second.0.plans <==> m in first.0.plans) && (m in second.0.blocked <==> m in first.0.blocked)
    {
      RerunLane(c, q, again, m);
    }
    SameMap(second.0.skipped, first.0.skipped);
    SameMap(second.1.plans, first.1.plans);
    SameMap(second.1.blocked, first.1.blocked);
  }

  // A lane asked in the first run has what its verdict says.
  lemma {:induction false} AskedLane(c: Cache, q: Request, m: Method)
    requires m in Todo(c, q)
    ensures m in Fan(c, q).0.blocked ==> VerdictOf(q, m) == Blocked(Fan(c, q).0.blocked[m])
    ensures m in Fan(c, q).0.plans ==> VerdictOf(q, m) == Plan(Fan(c, q).0.plans[m])
  {
    hide Fan, VerdictOf, SkipReason;
    EveryMethod(m);
    FanLane(c, q, m);
  }

  lemma {:induction false} RerunBlocked(c: Cache, q: Request, again: Request)
    requires Unambiguous(c) && Fan(c, q).0.transients == map[]
    requires again.facts == q.facts && again.spec == q.spec && again.hash(q.spec) == q.hash(q.spec)
    ensures var first := Fan(c, q);
            var second := Fan(first.1, again);
            second.0.blocked == first.0.blocked <==>
            forall m :: m in Todo(c, q) && m in first.0.blocked ==> ReasonWhole(q, m)
  {
    hide Fan, Unambiguous, Todo, ReasonWhole, Filed, Coerce, VerdictOf;
    var first := Fan(c, q);
    var second := Fan(first.1, again);
    forall m
      ensures Get(second.0.blocked, m) == Get(first.0.blocked, m) <==>
              (m in Todo(c, q) && m in first.0.blocked ==> ReasonWhole(q, m))
    {
      RerunLane(c, q, again, m);
      if m in Todo(c, q) && m in first.0.blocked {
        AskedLane(c, q, m);
        ReasonStands(q, m);
      }
    }
    if forall m :: m in Todo(c, q) && m in first.0.blocked ==> ReasonWhole(q, m) {
      SameMap(second.0.blocked, first.0.blocked);
    }
  }

  lemma {:induction false} RerunPlans(c: Cache, q: Request, again: Request)
    requires Unambiguous(c) && Fan(c, q).0.transients == map[]
    requires again.facts == q.facts && again.spec == q.spec && again.hash(q.spec) == q.hash(q.spec)
    ensures var first := Fan(c, q);
            var second := Fan(first.1, again);
            second.0.plans == first.0.plans <==>
            forall m :: m in Todo(c, q) && m in first.0.plans ==> PlanWhole(q, m)
  {
    hide Fan, Unambiguous, Todo, PlanWhole, Filed, Coerce, VerdictOf;
    var first := Fan(c, q);
    var second := Fan(first.1, again);
    forall m
      ensures Get(second.0.plans, m) == Get(first.0.plans, m) <==>
              (m in Todo(c, q) && m in first.0.plans ==> PlanWhole(q, m))
    {
      RerunLane(c, q, again, m);
      if m in Todo(c, q) && m in first.0.plans {
        AskedLane(c, q, m);
        PlanStands(q, m);
      }
    }
    if forall m :: m in Todo(c, q) && m in first.0.plans ==> PlanWhole(q, m) {
      SameMap(second.0.plans, first.0.plans);
    }
  }

  // Thirty-nine letters and an accented one: the first run's reason ends in half
  // a character, and the rerun's in the replacement character.
  lemma {:induction false} CutReasonChanges(letters: string)
    requires |letters| == 39 && forall i :: 0 <= i < 39 ==> letters[i] == 'a'
    ensures var why := letters + "\U{C3}\U{A9}";
            Valid(why) && Truncate(why, 40) == letters + "\U{C3}" && !Whole(why, 40)
            && Coerce(Truncate(why, 40)) == letters + REPLACEMENT
  {
    var why := letters + "\U{C3}\U{A9}";
    assert forall c :: c in letters ==> c < '\U{80}';
    PlainValid(letters);
    OneRune("\U{C3}\U{A9}");
    CoerceBefore(letters, "\U{C3}\U{A9}");
    CoerceBefore(letters, "\U{C3}");
    assert why[..40] == letters + "\U{C3}";
    assert "\U{C3}"[1..] == "";
    assert Coerce("\U{C3}") == REPLACEMENT;
  }

  // ----- web targets are served -----

  ghost predicate Injective(hash: Option<Spec> -> string) {
    forall a, b :: hash(a) == hash(b) ==> a == b
  }

  // A stored keep-alive plan was made for a target that is not a web target.
  ghost predicate KeepaliveHonest(c: Cache, hash: Option<Spec> -> string) {
    forall m :: m in c.plans && IsKeepalive(c.plans[m].approach.command) ==>
      exists spec :: hash(spec) == c.plans[m].specH && !IsWeb(spec)
  }

  lemma {:induction false} FreshPlan(q: Request, m: Method)
    requires VerdictOf(q, m).Plan? && IsWeb(q.spec)
    ensures !IsKeepalive(VerdictOf(q, m).approach.command)
  {
  }

  // Commands are not cut, so they are filed as they stand.
  lemma {:induction false} FiledCommand(q: Request, m: Method)
    requires VerdictOf(q, m).Plan?
    ensures Filed(VerdictOf(q, m).approach).command == VerdictOf(q, m).approach.command
  {
    hide VerdictOf;
    PlanTexts(q, m);
  }

  lemma {:induction false} FanHonest(c: Cache, q: Request)
    requires KeepaliveHonest(c, q.hash)
    ensures KeepaliveHonest(Fan(c, q).1, q.hash)
  {
    hide Fan, IsKeepalive, IsWeb, VerdictOf, Filed, Todo, SkipReason;
    var c1 := Fan(c, q).1;
    forall m | m in c1.plans && IsKeepalive(c1.plans[m].approach.command)
      ensures exists spec :: q.hash(spec) == c1.plans[m].specH && !IsWeb(spec)
    {
      FanLane(c, q, m);
      if m in Todo(c, q) && VerdictOf(q, m).Plan? {
        FiledCommand(q, m);
        if IsWeb(q.spec) { FreshPlan(q, m); }
        assert q.hash(q.spec) == c1.plans[m].specH && !IsWeb(q.spec);
      } else {
        assert m in c.plans && c1.plans[m] == c.plans[m];
      }
    }
  }

  lemma {:induction false} StoredKeepalives(history: seq<Request>, hash: Option<Spec> -> string)
    requires forall q :: q in history ==> q.hash == hash
    ensures KeepaliveHonest(After(history), hash)
    decreases |history|
  {
    hide Fan, IsKeepalive;
    if history != [] {
      var past, q := history[..|history| - 1], history[|history| - 1];
      assert q in history;
      StoredKeepalives(past, hash);
      FanHonest(After(past), q);
    }
  }

  // No plan returned under a web spec, fresh or replayed, is a keep-alive.
  lemma {:induction false} WebPlansServe(history: seq<Request>, q: Request, m: Method)
    requires Injective(q.hash) && forall q' :: q' in history ==> q'.hash == q.hash
    requires IsWeb(q.spec) && m in Fan(After(history), q).0.plans
    ensures !IsKeepalive(Fan(After(history), q).0.plans[m].command)
  {
    var c := After(history);
    StoredKeepalives(history, q.hash);
    hide Fan, IsKeepalive, IsWeb;
    FanLane(c, q, m);
    if m in Todo(c, q) && VerdictOf(q, m).Plan? { FreshPlan(q, m); }
  }

  // A blocked reply that gives no reason is not stored: the lane comes out
  // transient, and the next run asks again.
  lemma {:induction false} ReasonlessBlockIsTransient(c: Cache, q: Request, m: Method)
    requires m in Todo(c, q) && q.reply(m).Parsed? && Lower(q.reply(m).json.status) == "blocked"
    ensures var r := Fan(c, q);
            && (m in r.0.blocked <==> q.reply(m).json.why != "")
            && (m in r.0.transients <==> q.reply(m).json.why == "")
            && (q.reply(m).json.why == "" ==> m in Todo(r.1, q))
  {
    hide Fan, SkipReason, PlanHit, BlockedHit, VerdictOf;
    RerunTodo(c, q, q);
    ReasonDecides(q, m);
    FanLane(c, q, m);
  }

  lemma {:induction false} ReasonDecides(q: Request, m: Method)
    requires q.reply(m).Parsed? && Lower(q.reply(m).json.status) == "blocked"
    ensures q.reply(m).json.why != "" ==> VerdictOf(q, m).Blocked?
    ensures q.reply(m).json.why == "" ==> VerdictOf(q, m).Transient?
  {
  }
}
