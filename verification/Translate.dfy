// Compose translation (scripts/vmf_plan.py): profile-gated services are dropped,
// nothing may depend on them any more, and the primary is the first service
// that no other service depends on.
module Translate {
  import opened Text

  // Of a compose service only what the dependency graph turns on.
  datatype Raw = Raw(name: string, gated: bool, runnable: bool, deps: seq<string>)

  datatype Node = Node(name: string, deps: seq<string>)

  // Runnable: built or pulled.
  datatype Refusal = NoServices | NeitherBuildNorImage(name: string) | TooManyServices | NoPrimary

  datatype Outcome = Refused(why: Refusal) | Planned(services: seq<Node>, primary: string)

  function Gated(raws: seq<Raw>): (names: set<string>) {
    set r | r in raws && r.gated :: r.name
  }

  function Without(deps: seq<string>, gone: set<string>): (r: seq<string>) {
    if deps == [] then []
    else Without(deps[..|deps| - 1], gone) + (if deps[|deps| - 1] in gone then [] else [deps[|deps| - 1]])
  }

  function Kept(raws: seq<Raw>, gone: set<string>): (r: seq<Node>) {
    if raws == [] then []
    else
      var last := raws[|raws| - 1];
      Kept(raws[..|raws| - 1], gone) + (if last.gated then [] else [Node(last.name, Without(last.deps, gone))])
  }

  // The first service that can be neither built nor pulled.
  function Unrunnable(raws: seq<Raw>): (name: Option<string>) {
    if raws == [] then None
    else if !raws[0].gated && !raws[0].runnable then Some(raws[0].name)
    else Unrunnable(raws[1..])
  }

  predicate DependedOn(nodes: seq<Node>, name: string) { exists n :: n in nodes && name in n.deps }

  function FirstFree(all: seq<Node>, from: nat): (name: Option<string>)
    requires from <= |all|
    decreases |all| - from
  {
    if from == |all| then None
    else if !DependedOn(all, all[from].name) then Some(all[from].name)
    else FirstFree(all, from + 1)
  }

  function TranslateAll(raws: seq<Raw>): (r: Outcome) {
    if raws == [] then Refused(NoServices)
    else if Unrunnable(raws).Some? then Refused(NeitherBuildNorImage(Unrunnable(raws).value))
    else
      var nodes := Kept(raws, Gated(raws));
      if |nodes| > 12 then Refused(TooManyServices)
      else
        match FirstFree(nodes, 0)
        case None => Refused(NoPrimary)
        case Some(p) => Planned(nodes, p)
  }

  // ----- what is kept -----

  lemma {:induction false} WithoutIs(deps: seq<string>, gone: set<string>, d: string)
    ensures d in Without(deps, gone) <==> d in deps && d !in gone
    decreases |deps|
  {
    if deps != [] {
      WithoutIs(deps[..|deps| - 1], gone, d);
      assert deps == deps[..|deps| - 1] + [deps[|deps| - 1]];
    }
  }

  lemma {:induction false} KeptIs(raws: seq<Raw>, gone: set<string>, n: Node)
    ensures n in Kept(raws, gone) <==> exists r :: r in raws && !r.gated && n == Node(r.name, Without(r.deps, gone))
    decreases |raws|
  {
    if raws != [] {
      var init, last := raws[..|raws| - 1], raws[|raws| - 1];
      KeptIs(init, gone, n);
      assert raws == init + [last];
      assert forall r :: r in raws <==> r in init || r == last;
    }
  }

  lemma {:induction false} KeptCount(raws: seq<Raw>, gone: set<string>)
    ensures Kept(raws, gone) == [] <==> forall r :: r in raws ==> r.gated
    decreases |raws|
  {
    if raws != [] {
      var init, last := raws[..|raws| - 1], raws[|raws| - 1];
      KeptCount(init, gone);
      assert raws == init + [last];
      assert forall r :: r in raws <==> r in init || r == last;
    }
  }

  // ----- dependency cycles -----

  // Each service of c, by position, depends on the next, and the last on the
  // first.
  ghost predicate Cycle(nodes: seq<Node>, c: seq<nat>) {
    && c != []
    && (forall k :: 0 <= k < |c| ==> c[k] < |nodes|)
    && (forall k :: 0 <= k < |c| ==> nodes[c[if k + 1 < |c| then k + 1 else 0]].name in nodes[c[k]].deps)
  }

  ghost predicate AllDependedOn(nodes: seq<Node>) { forall n :: n in nodes ==> DependedOn(nodes, n.name) }

  // A walk against the dependencies: each service depends on the one before.
  ghost predicate Walk(nodes: seq<Node>, w: seq<nat>) {
    && (forall k :: 0 <= k < |w| ==> w[k] < |nodes|)
    && (forall k :: 0 < k < |w| ==> nodes[w[k - 1]].name in nodes[w[k]].deps)
  }

  lemma {:induction false} WalkOn(nodes: seq<Node>, n: nat) returns (w: seq<nat>)
    requires nodes != [] && AllDependedOn(nodes)
    ensures |w| == n + 1 && Walk(nodes, w)
    decreases n
  {
    if n == 0 {
      w := [0];
    } else {
      var v := WalkOn(nodes, n - 1);
      assert DependedOn(nodes, nodes[v[n - 1]].name);
      var d :| d in nodes && nodes[v[n - 1]].name in d.deps;
      var k :| 0 <= k < |nodes| && nodes[k] == d;
      w := v + [k];
    }
  }

  lemma {:induction false} Repeats(w: seq<nat>, n: nat) returns (i: nat, j: nat)
    requires |w| > n && forall k :: 0 <= k < |w| ==> w[k] < n
    ensures i < j < |w| && w[i] == w[j]
  {
    if forall a, b :: 0 <= a < b < |w| ==> w[a] != w[b] {
      Spread(w);
      Subset(Elements(w), Below(n));
      assert false;
    }
    i, j :| 0 <= i < j < |w| && w[i] == w[j];
  }

  function Below(n: nat): (r: set<nat>)
    ensures forall k: nat :: k in r <==> k < n
    ensures |r| == n
  {
    if n == 0 then {} else Below(n - 1) + {n - 1}
  }

  function Elements(w: seq<nat>): (r: set<nat>)
    ensures forall x: nat :: x in r <==> x in w
  {
    if w == [] then {}
    else
      assert w == w[..|w| - 1] + [w[|w| - 1]];
      Elements(w[..|w| - 1]) + {w[|w| - 1]}
  }

  lemma {:induction false} Spread(w: seq<nat>)
    requires forall a, b :: 0 <= a < b < |w| ==> w[a] != w[b]
    ensures |Elements(w)| == |w|
    decreases |w|
  {
    if w != [] {
      Spread(w[..|w| - 1]);
      assert w[|w| - 1] !in w[..|w| - 1];
    }
  }

  lemma {:induction false} Subset(a: set<nat>, b: set<nat>)
    requires a <= b
    ensures |a| <= |b|
    decreases |a|
  {
    if a != {} {
      var x :| x in a;
      Subset(a - {x}, b - {x});
    }
  }

  lemma {:induction false} CycleExists(nodes: seq<Node>) returns (c: seq<nat>)
    requires nodes != [] && AllDependedOn(nodes)
    ensures Cycle(nodes, c)
  {
    var w := WalkOn(nodes, |nodes|);
    var i, j := Repeats(w, |nodes|);
    c := seq(j - i, k requires 0 <= k < j - i => w[j - k]);
    forall k | 0 <= k < |c| ensures nodes[c[if k + 1 < |c| then k + 1 else 0]].name in nodes[c[k]].deps {
      assert c[k] == w[j - k];
      if k + 1 < |c| { assert c[k + 1] == w[j - k - 1]; } else { assert c[0] == w[i]; }
    }
  }

  // ----- what translation promises -----

  lemma {:induction false} FirstFreeIs(all: seq<Node>, from: nat)
    requires from <= |all|
    ensures match FirstFree(all, from)
            case None => forall k :: from <= k < |all| ==> DependedOn(all, all[k].name)
            case Some(p) =>
              exists k :: from <= k < |all| && all[k].name == p && !DependedOn(all, p) &&
                          (forall m :: from <= m < k ==> DependedOn(all, all[m].name))
    decreases |all| - from
  {
    if from < |all| && DependedOn(all, all[from].name) {
      FirstFreeIs(all, from + 1);
      if FirstFree(all, from + 1).Some? {
        var k :| from + 1 <= k < |all| && all[k].name == FirstFree(all, from + 1).value &&
                 forall m :: from + 1 <= m < k ==> DependedOn(all, all[m].name);
        assert forall m :: from <= m < k ==> DependedOn(all, all[m].name);
      }
    }
  }

  // Refused for want of a primary with a service left means a dependency cycle
  // among the services left.
  lemma {:induction false} NoPrimaryMeansCycle(raws: seq<Raw>)
    requires TranslateAll(raws) == Refused(NoPrimary)
    ensures (forall r :: r in raws ==> r.gated) || exists c :: Cycle(Kept(raws, Gated(raws)), c)
  {
    var nodes := Kept(raws, Gated(raws));
    KeptCount(raws, Gated(raws));
    FirstFreeIs(nodes, 0);
    if nodes != [] {
      assert AllDependedOn(nodes);
      var c := CycleExists(nodes);
    }
  }

  // With every service gated the refusal is the same, cycle or no cycle.
  lemma {:induction false} AllGatedIsRefused(raws: seq<Raw>)
    requires raws != [] && forall r :: r in raws ==> r.gated
    ensures TranslateAll(raws) == Refused(NoPrimary)
  {
    KeptCount(raws, Gated(raws));
    NoneUnrunnable(raws);
  }

  lemma {:induction false} NoneUnrunnable(raws: seq<Raw>)
    ensures Unrunnable(raws) == None <==> forall r :: r in raws ==> r.gated || r.runnable
    decreases |raws|
  {
    if raws != [] {
      NoneUnrunnable(raws[1..]);
      assert raws == [raws[0]] + raws[1..];
      assert forall r :: r in raws <==> r == raws[0] || r in raws[1..];
    }
  }

  // The primary is kept, nothing kept depends on it, and everything before it is
  // depended on.
  lemma {:induction false} PrimaryIsFree(raws: seq<Raw>)
    requires TranslateAll(raws).Planned?
    ensures var plan := TranslateAll(raws);
            && (exists n :: n in plan.services && n.name == plan.primary)
            && (forall n :: n in plan.services ==> plan.primary !in n.deps)
            && |plan.services| <= 12
  {
    var plan := TranslateAll(raws);
    FirstFreeIs(plan.services, 0);
    var k :| 0 <= k < |plan.services| && plan.services[k].name == plan.primary;
    assert plan.services[k] in plan.services;
  }

  // No kept dependency names a dropped service, and no other dependency is lost.
  lemma {:induction false} DependenciesSurvive(raws: seq<Raw>, n: Node, d: string)
    requires TranslateAll(raws).Planned? && n in TranslateAll(raws).services
    ensures d in n.deps ==> forall r :: r in raws && r.gated ==> r.name != d
    ensures exists r :: r in raws && !r.gated && r.name == n.name &&
                        (d in n.deps <==> d in r.deps && d !in Gated(raws))
  {
    KeptIs(raws, Gated(raws), n);
    var r :| r in raws && !r.gated && n == Node(r.name, Without(r.deps, Gated(raws)));
    WithoutIs(r.deps, Gated(raws), d);
  }

  // How many of the first i services are not gated.
  function Ungated(raws: seq<Raw>, i: nat): (n: nat)
    requires i <= |raws|
  {
    if i == 0 then 0 else Ungated(raws, i - 1) + if raws[i - 1].gated then 0 else 1
  }

  lemma {:induction false} UngatedFront(raws: seq<Raw>, n: nat, i: nat)
    requires i <= n <= |raws|
    ensures Ungated(raws[..n], i) == Ungated(raws, i)
    decreases i
  {
    if i > 0 { UngatedFront(raws, n, i - 1); }
  }

  lemma {:induction false} KeptSize(raws: seq<Raw>, gone: set<string>)
    ensures |Kept(raws, gone)| == Ungated(raws, |raws|)
    decreases |raws|
  {
    hide Without;
    if raws != [] {
      KeptSize(raws[..|raws| - 1], gone);
      UngatedFront(raws, |raws| - 1, |raws| - 1);
    }
  }

  lemma {:induction false} KeptAt(raws: seq<Raw>, gone: set<string>, i: nat)
    requires i < |raws| && !raws[i].gated
    ensures Ungated(raws, i) < |Kept(raws, gone)|
    ensures Kept(raws, gone)[Ungated(raws, i)] == Node(raws[i].name, Without(raws[i].deps, gone))
    decreases |raws|
  {
    hide Without;
    var n := |raws| - 1;
    KeptSize(raws[..n], gone);
    UngatedFront(raws, n, n);
    if i < n {
      UngatedFront(raws, n, i);
      KeptAt(raws[..n], gone, i);
    }
  }

  lemma {:induction false} WithoutNone(deps: seq<string>, gone: set<string>)
    requires forall d :: d in deps ==> d !in gone
    ensures Without(deps, gone) == deps
    decreases |deps|
  {
    if deps != [] {
      var init := deps[..|deps| - 1];
      assert deps == init + [deps[|deps| - 1]];
      WithoutNone(init, gone);
    }
  }

  // Every service that is not gated is in the plan, in the place that counting
  // gives it, and nothing else is; its dependencies are as declared if none of
  // them is dropped.
  lemma {:induction false} EveryUngatedKept(raws: seq<Raw>, i: nat)
    requires TranslateAll(raws).Planned? && i < |raws| && !raws[i].gated
    ensures var services := TranslateAll(raws).services;
            && |services| == Ungated(raws, |raws|) && Ungated(raws, i) < |services|
            && services[Ungated(raws, i)].name == raws[i].name
            && ((forall d :: d in raws[i].deps ==> d !in Gated(raws)) ==>
                  services[Ungated(raws, i)].deps == raws[i].deps)
  {
    hide Without, Gated, Kept, Ungated;
    KeptSize(raws, Gated(raws));
    KeptAt(raws, Gated(raws), i);
    if forall d :: d in raws[i].deps ==> d !in Gated(raws) { WithoutNone(raws[i].deps, Gated(raws)); }
  }

  // The i-th service is the first that has to run and cannot.
  ghost predicate FirstUnrunnable(raws: seq<Raw>, i: nat) {
    && i < |raws| && !raws[i].gated && !raws[i].runnable
    && forall j :: 0 <= j < i ==> raws[j].gated || raws[j].runnable
  }

  // Each refusal has its own reason.
  lemma {:induction false} RefusalTells(raws: seq<Raw>, i: nat)
    ensures TranslateAll(raws) == Refused(NoServices) <==> raws == []
    ensures FirstUnrunnable(raws, i) ==> TranslateAll(raws) == Refused(NeitherBuildNorImage(raws[i].name))
    ensures TranslateAll(raws) == Refused(TooManyServices) <==>
            (forall r :: r in raws ==> r.gated || r.runnable) && Ungated(raws, |raws|) > 12
  {
    hide Kept, FirstFree, Unrunnable, Gated, Ungated;
    KeptSize(raws, Gated(raws));
    NoneUnrunnable(raws);
    if FirstUnrunnable(raws, i) { UnrunnableFirst(raws, i); }
    if raws == [] { NoneNotGated(raws); }
  }

  lemma {:induction false} NoneNotGated(raws: seq<Raw>)
    requires raws == []
    ensures Ungated(raws, |raws|) == 0
  {
  }

  // Exactly when translation succeeds.
  lemma {:induction false} PlannedIff(raws: seq<Raw>)
    ensures TranslateAll(raws).Planned? <==>
            && (forall r :: r in raws ==> r.gated || r.runnable)
            && |Kept(raws, Gated(raws))| <= 12
            && exists n :: n in Kept(raws, Gated(raws)) && !DependedOn(Kept(raws, Gated(raws)), n.name)
  {
    var nodes := Kept(raws, Gated(raws));
    NoneUnrunnable(raws);
    FirstFreeIs(nodes, 0);
    if FirstFree(nodes, 0).Some? {
      var k :| 0 <= k < |nodes| && nodes[k].name == FirstFree(nodes, 0).value;
      assert nodes[k] in nodes;
    }
  }

  // ----- the loops -----

  method FilterDeps(deps: seq<string>, gone: set<string>) returns (left: seq<string>)
    ensures left == Without(deps, gone)
  {
    left := [];
    for i := 0 to |deps|
      invariant left == Without(deps[..i], gone)
    {
      assert deps[..i + 1][..i] == deps[..i];
      if deps[i] !in gone { left := left + [deps[i]]; }
    }
    assert deps[..|deps|] == deps;
  }

  lemma {:induction false} WithoutNothing(deps: seq<string>)
    ensures Without(deps, {}) == deps
    decreases |deps|
  {
    if deps != [] {
      WithoutNothing(deps[..|deps| - 1]);
      assert deps == deps[..|deps| - 1] + [deps[|deps| - 1]];
    }
  }

  lemma {:induction false} FilterLater(raws: seq<Raw>, gone: set<string>)
    ensures |Kept(raws, gone)| == |Kept(raws, {})|
    ensures forall k :: 0 <= k < |Kept(raws, gone)| ==>
              Kept(raws, gone)[k] == Node(Kept(raws, {})[k].name, Without(Kept(raws, {})[k].deps, gone))
    decreases |raws|
  {
    if raws != [] {
      FilterLater(raws[..|raws| - 1], gone);
      WithoutNothing(raws[|raws| - 1].deps);
    }
  }

  lemma {:induction false} UnrunnableFirst(raws: seq<Raw>, i: nat)
    requires i < |raws| && !raws[i].gated && !raws[i].runnable
    requires forall j :: 0 <= j < i ==> raws[j].gated || raws[j].runnable
    ensures Unrunnable(raws) == Some(raws[i].name)
    decreases i
  {
    if i > 0 { UnrunnableFirst(raws[1..], i - 1); }
  }

  method TranslateCompose(raws: seq<Raw>) returns (r: Outcome)
    ensures r == TranslateAll(raws)
  {
    hide Kept, FirstFree, Unrunnable, Without, DependedOn;
    if raws == [] { return Refused(NoServices); }
    var services: seq<Node>, dropped: set<string> := [], {};
    CollectNothing(raws);
    for i := 0 to |raws|
      invariant services == Kept(raws[..i], {})
      invariant dropped == Gated(raws[..i])
      invariant forall j :: 0 <= j < i ==> raws[j].gated || raws[j].runnable
    {
      CollectNext(raws, i);
      if raws[i].gated {
        dropped := dropped + {raws[i].name};
        continue;
      }
      if !raws[i].runnable {
        UnrunnableFirst(raws, i);
        return Refused(NeitherBuildNorImage(raws[i].name));
      }
      services := services + [Node(raws[i].name, raws[i].deps)];
    }
    assert raws[..|raws|] == raws;
    NoneUnrunnable(raws);
    FilterLater(raws, dropped);
    for k := 0 to |services|
      invariant |services| == |Kept(raws, dropped)|
      invariant services[..k] == Kept(raws, dropped)[..k]
      invariant services[k..] == Kept(raws, {})[k..]
    {
      var deps := FilterDeps(services[k].deps, dropped);
      assert services[k] == Kept(raws, {})[k];
      services := services[k := Node(services[k].name, deps)];
    }
    assert services == Kept(raws, dropped);
    if |services| > 12 { return Refused(TooManyServices); }
    var primary := PickPrimary(services);
    r := if primary == None then Refused(NoPrimary) else Planned(services, primary.value);
  }

  lemma {:induction false} CollectNothing(raws: seq<Raw>)
    ensures Kept(raws[..0], {}) == [] && Gated(raws[..0]) == {}
  {
  }

  lemma {:induction false} CollectNext(raws: seq<Raw>, i: nat)
    requires i < |raws|
    ensures Kept(raws[..i + 1], {}) ==
            Kept(raws[..i], {}) + (if raws[i].gated then [] else [Node(raws[i].name, raws[i].deps)])
    ensures Gated(raws[..i + 1]) == Gated(raws[..i]) + (if raws[i].gated then {raws[i].name} else {})
  {
    assert raws[..i + 1][..i] == raws[..i];
    WithoutNothing(raws[i].deps);
    assert raws[..i + 1] == raws[..i] + [raws[i]];
    assert forall x :: x in raws[..i + 1] <==> x in raws[..i] || x == raws[i];
  }

  method PickPrimary(services: seq<Node>) returns (p: Option<string>)
    ensures p == FirstFree(services, 0)
  {
    var deps: set<string> := {};
    for i := 0 to |services|
      invariant forall d :: d in deps <==> DependedOn(services[..i], d)
    {
      assert services[..i + 1] == services[..i] + [services[i]];
      assert forall n :: n in services[..i + 1] <==> n in services[..i] || n == services[i];
      deps := deps + set d | d in services[i].deps;
    }
    assert services[..|services|] == services;
    var k := 0;
    while k < |services| && services[k].name in deps
      invariant k <= |services|
      invariant FirstFree(services, k) == FirstFree(services, 0)
    {
      k := k + 1;
    }
    p := if k < |services| then Some(services[k].name) else None;
  }
}
