// The flattened compose file (scripts/vmf_plan.py): replica expansion, static
// addresses, and the host table that stands in for the missing container DNS.
module Flatten {
  import opened Text
  import opened Decimal
  import opened Dict
  import opened Loopback

  // ----- the replica overlay -----

  // A value of the overlay's JSON: a whole number or anything else.
  datatype Json = Whole(n: int) | Other

  function Replicas(payload: Dict<string, Json>, names: set<string>): (r: Dict<string, int>) {
    if payload == [] then []
    else
      var init, last := Replicas(payload[..|payload| - 1], names), payload[|payload| - 1];
      if last.0 in names && last.1.Whole? && 2 <= last.1.n <= 12 then Put(init, last.0, last.1.n) else init
  }

  predicate Validated(reps: Dict<string, int>) { forall r :: r in reps ==> 2 <= r.1 <= 12 }

  lemma {:induction false} PutIn<V>(d: Dict<string, V>, k: string, v: V, x: (string, V))
    requires x in Put(d, k, v)
    ensures x == (k, v) || x in d
    decreases |d|
  {
    if d != [] && d[0].0 != k && x != d[0] { PutIn(d[1..], k, v, x); }
  }

  // Whatever the model answers, only known services get replicas, 2 to 12 each.
  lemma {:induction false} OverlayIsValidated(payload: Dict<string, Json>, names: set<string>)
    ensures Validated(Replicas(payload, names))
    ensures forall r :: r in Replicas(payload, names) ==> r.0 in names
    decreases |payload|
  {
    if payload != [] {
      OverlayIsValidated(payload[..|payload| - 1], names);
      var init, last := Replicas(payload[..|payload| - 1], names), payload[|payload| - 1];
      forall r | r in Replicas(payload, names) ensures 2 <= r.1 <= 12 && r.0 in names {
        if r !in init && last.1.Whole? { PutIn(init, last.0, last.1.n, r); }
      }
    }
  }

  lemma {:induction false} OverlayNext(payload: Dict<string, Json>, names: set<string>, k: string)
    requires payload != [] && Keyed(payload)
    ensures var n := |payload| - 1;
            Get(Replicas(payload, names), k) ==
            if payload[n].0 == k && k in names && payload[n].1.Whole? && 2 <= payload[n].1.n <= 12
            then Some(payload[n].1.n) else Get(Replicas(payload[..n], names), k)
  {
    var n := |payload| - 1;
    if payload[n].1.Whole? { PutGet(Replicas(payload[..n], names), payload[n].0, payload[n].1.n, k); }
  }

  // Exactly the whole numbers 2 to 12 for known services are taken over.
  lemma {:induction false} OverlayIff(payload: Dict<string, Json>, names: set<string>, k: string, n: int)
    requires Keyed(payload)
    ensures Get(Replicas(payload, names), k) == Some(n) <==> (k, Whole(n)) in payload && k in names && 2 <= n <= 12
    decreases |payload|
  {
    hide Get, Replicas;
    if payload == [] {
      NoOverlay(names, k);
    } else {
      var m := |payload| - 1;
      var init, last := payload[..m], payload[m];
      OverlayIff(init, names, k, n);
      OverlayNext(payload, names, k);
      assert payload == init + [last];
      if last.0 == k {
        forall i | 0 <= i < |init| ensures init[i].0 != k { assert init[i] == payload[i]; }
        if Get(Replicas(init, names), k).Some? { OverlayIff(init, names, k, Get(Replicas(init, names), k).value); }
      }
    }
  }

  lemma {:induction false} NoOverlay(names: set<string>, k: string)
    ensures Get(Replicas([], names), k) == None
  {
  }

  // ----- expansion -----

  datatype Instance = Instance(name: string, service: Service, index: nat)

  function Copies(reps: Dict<string, int>, name: string): (n: nat) {
    match Get(reps, name)
    case Some(n) => if n == 0 then 1 else if n < 0 then 0 else n
    case None => 1
  }

  function InstName(name: string, i: nat): (r: string) {
    if i == 0 then name else name + "-" + Dec(i + 1)
  }

  function InstancesOf(s: Service, n: nat): (r: seq<Instance>)
    ensures |r| == n
    ensures forall i :: 0 <= i < n ==> r[i] == Instance(InstName(s.name, i), s, i)
  {
    seq(n, i requires 0 <= i < n => Instance(InstName(s.name, i), s, i))
  }

  function Expand(services: seq<Service>, reps: Dict<string, int>): (r: seq<Instance>) {
    if services == [] then []
    else
      var last := services[|services| - 1];
      Expand(services[..|services| - 1], reps) + InstancesOf(last, Copies(reps, last.name))
  }

  function Names(all: seq<Instance>): (r: seq<string>)
    ensures |r| == |all|
    ensures forall i :: 0 <= i < |all| ==> r[i] == all[i].name
  {
    seq(|all|, i requires 0 <= i < |all| => all[i].name)
  }

  ghost predicate Distinct(names: seq<string>) { forall i, j :: 0 <= i < j < |names| ==> names[i] != names[j] }

  ghost predicate ServicesDistinct(services: seq<Service>) {
    forall i, j :: 0 <= i < j < |services| ==> services[i].name != services[j].name
  }

  // One instance, unless the overlay asks for more.
  lemma {:induction false} CopiesAre(reps: Dict<string, int>, name: string, n: int)
    ensures Get(reps, name) == None ==> Copies(reps, name) == 1
    ensures Get(reps, name) == Some(n) && n > 0 ==> Copies(reps, name) == n
  {
  }

  lemma {:induction false} CopiesInRange(reps: Dict<string, int>, name: string)
    requires Validated(reps)
    ensures 1 <= Copies(reps, name) <= 12
  {
    GetIn(reps, name);
  }

  // At most twelve instances a service.
  lemma {:induction false} ExpandBounded(services: seq<Service>, reps: Dict<string, int>)
    requires Validated(reps)
    ensures |services| <= |Expand(services, reps)| <= 12 * |services|
    decreases |services|
  {
    if services != [] {
      ExpandBounded(services[..|services| - 1], reps);
      CopiesInRange(reps, services[|services| - 1].name);
    }
  }

  // The instances are exactly the copies of the services.
  lemma {:induction false} ExpandIs(services: seq<Service>, reps: Dict<string, int>, x: Instance)
    ensures x in Expand(services, reps) <==>
            && x.service in services
            && x.index < Copies(reps, x.service.name)
            && x.name == InstName(x.service.name, x.index)
    decreases |services|
  {
    if services != [] {
      var init, last := services[..|services| - 1], services[|services| - 1];
      ExpandIs(init, reps, x);
      var more := InstancesOf(last, Copies(reps, last.name));
      assert x in Expand(services, reps) <==> x in Expand(init, reps) || x in more;
      assert services == init + [last];
      if x.service == last && x.index < |more| {
        assert more[x.index] == Instance(InstName(last.name, x.index), last, x.index);
      }
    }
  }

  // ----- when instance names collide -----

  lemma {:induction false} NumeralEnds(a: string, b: string, m: string, n: string)
    requires a + "-" + m == b + "-" + n && Numeral(m) && Numeral(n)
    ensures a == b && m == n
  {
    var s := a + "-" + m;
    assert s[|a|] == '-' && s[|b|] == '-';
    assert forall i :: |a| < i < |s| ==> s[i] == m[i - |a| - 1];
    assert forall i :: |b| < i < |s| ==> s[i] == n[i - |b| - 1];
    assert a == s[..|a|] && b == s[..|b|] && m == s[|a| + 1..] && n == s[|b| + 1..];
  }

  // Two instances share a name only if they are the same copy of one service,
  // or one is a base instance named like the other's replica.
  lemma {:induction false} NamesMeet(a: string, i: nat, b: string, j: nat)
    requires InstName(a, i) == InstName(b, j) && (a != b || i != j)
    ensures a != b && (i == 0 || j == 0)
    ensures i == 0 ==> j > 0 && a == InstName(b, j)
    ensures j == 0 ==> i > 0 && b == InstName(a, i)
  {
    if i > 0 && j > 0 {
      NumeralEnds(a, b, Dec(i + 1), Dec(j + 1));
      DecInjective(i + 1, j + 1);
      assert false;
    }
    assert i > 0 ==> |InstName(a, i)| > |a|;
    assert j > 0 ==> |InstName(b, j)| > |b|;
  }

  // No service is called like another one's replica.
  ghost predicate NoClash(services: seq<Service>, reps: Dict<string, int>) {
    forall s, t, k: nat :: s in services && t in services && 0 < k < Copies(reps, t.name) ==>
                             s.name != InstName(t.name, k)
  }

  lemma {:induction false} NoClashHolds(services: seq<Service>, reps: Dict<string, int>)
    requires Validated(reps) && Distinct(Names(Expand(services, reps)))
    ensures NoClash(services, reps)
  {
    forall s, t, k: nat | s in services && t in services && 0 < k < Copies(reps, t.name)
      ensures s.name != InstName(t.name, k)
    {
      var base, copy := Instance(s.name, s, 0), Instance(InstName(t.name, k), t, k);
      CopiesInRange(reps, s.name);
      ExpandIs(services, reps, base);
      ExpandIs(services, reps, copy);
      var all := Expand(services, reps);
      var i :| 0 <= i < |all| && all[i] == base;
      var j :| 0 <= j < |all| && all[j] == copy;
      assert Names(all)[i] == s.name && Names(all)[j] == InstName(t.name, k);
    }
  }

  lemma {:induction false} DistinctHolds(services: seq<Service>, reps: Dict<string, int>)
    requires ServicesDistinct(services) && NoClash(services, reps)
    ensures Distinct(Names(Expand(services, reps)))
    decreases |services|
  {
    if services != [] {
      var init, last := services[..|services| - 1], services[|services| - 1];
      assert forall s :: s in init ==> s in services;
      DistinctHolds(init, reps);
      var before, more := Expand(init, reps), InstancesOf(last, Copies(reps, last.name));
      var names := Names(before + more);
      forall i, j | 0 <= i < j < |names| ensures names[i] != names[j] {
        if j < |before| {
          assert Names(before)[i] == names[i] && Names(before)[j] == names[j];
        } else {
          Apart(services, reps, before, more, i, j);
        }
      }
    }
  }

  lemma {:induction false} Apart(services: seq<Service>, reps: Dict<string, int>, before: seq<Instance>,
                                 more: seq<Instance>, i: nat, j: nat)
    requires services != [] && ServicesDistinct(services) && NoClash(services, reps)
    requires before == Expand(services[..|services| - 1], reps)
    requires var last := services[|services| - 1]; more == InstancesOf(last, Copies(reps, last.name))
    requires i < j < |before| + |more| && j >= |before|
    ensures (before + more)[i].name != (before + more)[j].name
  {
    var init, last := services[..|services| - 1], services[|services| - 1];
    var x, y := (before + more)[i], (before + more)[j];
    assert y == more[j - |before|];
    if x.name == y.name {
      if i < |before| {
        assert x in before;
        ExpandIs(init, reps, x);
        var k :| 0 <= k < |init| && init[k] == x.service;
        assert services[k] == x.service;
      } else {
        assert x == more[i - |before|];
      }
      NamesMeet(x.service.name, x.index, y.service.name, y.index);
      assert false;
    }
  }

  // Instance names are distinct exactly when no service bears the name of some
  // service's replica.
  lemma {:induction false} DistinctIffNoClash(services: seq<Service>, reps: Dict<string, int>)
    requires ServicesDistinct(services) && Validated(reps)
    ensures Distinct(Names(Expand(services, reps))) <==> NoClash(services, reps)
  {
    if Distinct(Names(Expand(services, reps))) { NoClashHolds(services, reps); }
    if NoClash(services, reps) { DistinctHolds(services, reps); }
  }

  // ----- addresses -----

  function Addr(i: nat): (r: string) { "172.31.100." + Dec(10 + i) }

  function Ips(names: seq<string>): (r: Dict<string, string>) {
    if names == [] then [] else Put(Ips(names[..|names| - 1]), names[|names| - 1], Addr(|names| - 1))
  }

  lemma {:induction false} AddrInjective(i: nat, j: nat)
    requires Addr(i) == Addr(j)
    ensures i == j
  {
    hide Dec;
    assert Addr(i)[11..] == Dec(10 + i) && Addr(j)[11..] == Dec(10 + j);
    DecInjective(10 + i, 10 + j);
  }

  lemma {:induction false} IpsGet(names: seq<string>, i: nat)
    requires Distinct(names) && i < |names|
    ensures Get(Ips(names), names[i]) == Some(Addr(i))
    decreases |names|
  {
    hide Addr, Put;
    var init, last := names[..|names| - 1], names[|names| - 1];
    PutGet(Ips(init), last, Addr(|names| - 1), names[i]);
    if i < |init| {
      assert init[i] == names[i];
      IpsGet(init, i);
    }
  }

  // For a plan of at most twelve services and a validated overlay, distinct
  // instances get distinct addresses, with last octet 10 to 153.
  lemma {:induction false} AddressesAreDistinct(services: seq<Service>, reps: Dict<string, int>, i: nat, j: nat)
    requires |services| <= 12 && Validated(reps)
    requires Distinct(Names(Expand(services, reps))) && i < j < |Expand(services, reps)|
    ensures var names := Names(Expand(services, reps));
            && Get(Ips(names), names[i]).Some? && Get(Ips(names), names[j]).Some?
            && Get(Ips(names), names[i]) != Get(Ips(names), names[j])
            && Get(Ips(names), names[i]).value == "172.31.100." + Dec(10 + i)
            && 10 <= 10 + i <= 153 && 10 <= 10 + j <= 153
  {
    var names := Names(Expand(services, reps));
    ExpandBounded(services, reps);
    IpsGet(names, i);
    IpsGet(names, j);
    if Addr(i) == Addr(j) { AddrInjective(i, j); }
  }

  // ----- aliases and host tables -----

  function AliasOf(aliases: seq<string>, ip: string, d: Dict<string, string>): (r: Dict<string, string>) {
    if aliases == [] then d else Put(AliasOf(aliases[..|aliases| - 1], ip, d), aliases[|aliases| - 1], ip)
  }

  // Later declarations win; an alias stands for the service's first instance.
  function AliasIps(services: seq<Service>, ips: Dict<string, string>): (r: Dict<string, string>) {
    if services == [] then []
    else
      var d, s := AliasIps(services[..|services| - 1], ips), services[|services| - 1];
      match Get(ips, s.name)
      case Some(ip) => AliasOf(s.aliases, ip, d)
      case None => d
  }

  // What `me` resolves x to.
  function HostOf(names: seq<string>, ips: Dict<string, string>, aliasIps: Dict<string, string>, me: string, x: string)
    : (r: Option<string>)
  {
    if Get(aliasIps, x).Some? && Get(aliasIps, x) != Get(ips, me) then Get(aliasIps, x)
    else if x in names && x != me then Get(ips, x)
    else None
  }

  lemma {:induction false} AliasOfGet(aliases: seq<string>, ip: string, d: Dict<string, string>, x: string)
    ensures Get(AliasOf(aliases, ip, d), x) == if x in aliases then Some(ip) else Get(d, x)
    decreases |aliases|
  {
    if aliases != [] {
      var init, last := aliases[..|aliases| - 1], aliases[|aliases| - 1];
      PutGet(AliasOf(init, ip, d), last, ip, x);
      AliasOfGet(init, ip, d, x);
      assert aliases == init + [last];
    }
  }

  // An alias always stands for some service's own address.
  lemma {:induction false} AliasOwner(services: seq<Service>, ips: Dict<string, string>, x: string) returns (s: Service)
    requires Get(AliasIps(services, ips), x).Some?
    ensures s in services && x in s.aliases && Get(ips, s.name) == Get(AliasIps(services, ips), x)
    decreases |services|
  {
    var init, last := services[..|services| - 1], services[|services| - 1];
    if Get(ips, last.name).Some? { AliasOfGet(last.aliases, Get(ips, last.name).value, AliasIps(init, ips), x); }
    if Get(ips, last.name).Some? && x in last.aliases {
      s := last;
    } else {
      s := AliasOwner(init, ips, x);
    }
  }

  // Every instance's table maps every other instance's name to its address.
  ghost predicate Mesh(names: seq<string>, ips: Dict<string, string>, aliasIps: Dict<string, string>) {
    forall me, o :: me in names && o in names && me != o ==> HostOf(names, ips, aliasIps, me, o) == Get(ips, o)
  }

  // The last service to declare an alias has it.
  function LastDeclarer(services: seq<Service>, a: string): (r: Option<string>)
    ensures r.Some? <==> exists s :: s in services && a in s.aliases
  {
    if services == [] then None
    else
      assert services == services[..|services| - 1] + [services[|services| - 1]];
      if a in services[|services| - 1].aliases then Some(services[|services| - 1].name)
      else LastDeclarer(services[..|services| - 1], a)
  }

  // An instance's name that is declared as an alias is declared last by the
  // service of that name.
  ghost predicate AliasesLoyal(services: seq<Service>, names: seq<string>) {
    forall a :: a in names && LastDeclarer(services, a).Some? ==> LastDeclarer(services, a) == Some(a)
  }

  lemma {:induction false} AliasIs(services: seq<Service>, ips: Dict<string, string>, a: string)
    requires forall s :: s in services ==> Get(ips, s.name).Some?
    ensures LastDeclarer(services, a).Some? ==> exists s :: s in services && s.name == LastDeclarer(services, a).value
    ensures Get(AliasIps(services, ips), a) ==
            if LastDeclarer(services, a).Some? then Get(ips, LastDeclarer(services, a).value) else None
    decreases |services|
  {
    if services != [] {
      var init, last := services[..|services| - 1], services[|services| - 1];
      assert services == init + [last];
      assert last in services;
      AliasIs(init, ips, a);
      AliasOfGet(last.aliases, Get(ips, last.name).value, AliasIps(init, ips), a);
    }
  }

  // What that comes to in the dictionary the step builds: no alias takes an
  // instance's name away from it.
  lemma {:induction false} LoyalMeans(services: seq<Service>, names: seq<string>)
    requires Flat(services, names)
    ensures var ips, al := Ips(names), AliasIps(services, Ips(names));
            AliasesLoyal(services, names) <==>
            forall a :: a in names && Get(al, a).Some? ==> Get(al, a) == Get(ips, a)
  {
    hide Ips, AliasIps, LastDeclarer;
    var ips, al := Ips(names), AliasIps(services, Ips(names));
    forall s | s in services ensures Get(ips, s.name).Some? { HasAddress(names, s.name); }
    forall a | a in names
      ensures (LastDeclarer(services, a).Some? ==> LastDeclarer(services, a) == Some(a)) <==>
              (Get(al, a).Some? ==> Get(al, a) == Get(ips, a))
    {
      AliasIs(services, ips, a);
      HasAddress(names, a);
      if LastDeclarer(services, a).Some? && LastDeclarer(services, a).value != a {
        IpsDiffer(names, a, LastDeclarer(services, a).value);
      }
    }
  }

  lemma {:induction false} HasAddress(names: seq<string>, x: string)
    requires Distinct(names) && x in names
    ensures Get(Ips(names), x).Some?
  {
    var i :| 0 <= i < |names| && names[i] == x;
    IpsGet(names, i);
  }

  ghost predicate Flat(services: seq<Service>, names: seq<string>) {
    Distinct(names) && forall s :: s in services ==> s.name in names
  }

  lemma {:induction false} IpsDiffer(names: seq<string>, x: string, y: string)
    requires Distinct(names) && x in names && y in names && x != y
    ensures Get(Ips(names), x).Some? && Get(Ips(names), y).Some? && Get(Ips(names), x) != Get(Ips(names), y)
  {
    var i :| 0 <= i < |names| && names[i] == x;
    var j :| 0 <= j < |names| && names[j] == y;
    IpsGet(names, i);
    IpsGet(names, j);
    if Addr(i) == Addr(j) { AddrInjective(i, j); }
  }

  lemma {:induction false} MeshNeedsLoyalty(services: seq<Service>, names: seq<string>, a: string)
    requires Flat(services, names) && |names| > 2 && a in names
    requires var al := AliasIps(services, Ips(names)); Get(al, a).Some? && Get(al, a) != Get(Ips(names), a)
    ensures !Mesh(names, Ips(names), AliasIps(services, Ips(names)))
  {
    var ips, al := Ips(names), AliasIps(services, Ips(names));
    var owner := AliasOwner(services, ips, a);
    var me := Third(names, a, owner.name);
    IpsDiffer(names, me, owner.name);
    assert HostOf(names, ips, al, me, a) != Get(ips, a);
  }

  lemma {:induction false} Third(names: seq<string>, x: string, y: string) returns (z: string)
    requires Distinct(names) && |names| > 2
    ensures z in names && z != x && z != y
  {
    assert names[0] != names[1] && names[0] != names[2] && names[1] != names[2];
    z := if names[0] != x && names[0] != y then names[0]
         else if names[1] != x && names[1] != y then names[1]
         else names[2];
  }

  lemma {:induction false} MeshOfTwo(services: seq<Service>, names: seq<string>)
    requires Flat(services, names) && |names| <= 2
    ensures Mesh(names, Ips(names), AliasIps(services, Ips(names)))
  {
    hide Ips, AliasIps, Get;
    var ips, al := Ips(names), AliasIps(services, Ips(names));
    forall me, o | me in names && o in names && me != o ensures HostOf(names, ips, al, me, o) == Get(ips, o) {
      if Get(al, o).Some? {
        var owner := AliasOwner(services, ips, o);
        OneOfTwo(names, me, o, owner.name);
      }
    }
  }

  lemma {:induction false} OneOfTwo(names: seq<string>, x: string, y: string, z: string)
    requires |names| <= 2 && x in names && y in names && z in names && x != y
    ensures z == x || z == y
  {
  }

  // The mesh is complete exactly when every instance's name that is declared as
  // an alias is declared last by its own service, or at most two instances exist.
  lemma {:induction false} MeshIffLoyal(services: seq<Service>, names: seq<string>)
    requires Flat(services, names)
    ensures Mesh(names, Ips(names), AliasIps(services, Ips(names))) <==>
            |names| <= 2 || AliasesLoyal(services, names)
  {
    LoyalMeans(services, names);
    hide AliasesLoyal;
    var ips, al := Ips(names), AliasIps(services, Ips(names));
    if |names| <= 2 {
      MeshOfTwo(services, names);
    } else if !AliasesLoyal(services, names) {
      var a :| a in names && Get(al, a).Some? && Get(al, a) != Get(ips, a);
      MeshNeedsLoyalty(services, names, a);
    }
  }

  // In particular when no alias is an instance's name.
  lemma {:induction false} DisjointAliasesMesh(services: seq<Service>, names: seq<string>)
    requires Flat(services, names)
    requires forall s, a :: s in services && a in s.aliases ==> a !in names
    ensures Mesh(names, Ips(names), AliasIps(services, Ips(names)))
  {
    MeshIffLoyal(services, names);
  }

  lemma {:induction false} ExpandIsFlat(services: seq<Service>, reps: Dict<string, int>)
    requires Validated(reps) && ServicesDistinct(services) && NoClash(services, reps)
    ensures Flat(services, Names(Expand(services, reps)))
  {
    DistinctHolds(services, reps);
    var all := Expand(services, reps);
    forall s | s in services ensures s.name in Names(all) {
      CopiesInRange(reps, s.name);
      ExpandIs(services, reps, Instance(s.name, s, 0));
      var i :| 0 <= i < |all| && all[i] == Instance(s.name, s, 0);
      assert Names(all)[i] == s.name;
    }
  }

  // A re-pointed loopback names a sibling that the instance's own host table
  // resolves to that sibling's address.
  lemma {:induction false} RepointedResolves(services: seq<Service>, reps: Dict<string, int>, me: Instance, v: string)
    requires Validated(reps) && ServicesDistinct(services) && NoClash(services, reps) && NamesAreHosts(services)
    requires me in Expand(services, reps) && Rewrite(services, me.service.name, v) != v
    requires var names := Names(Expand(services, reps));
             |names| <= 2 || AliasesLoyal(services, names)
    ensures var names := Names(Expand(services, reps));
            var to := Read(Rewrite(services, me.service.name, v));
            && to.Some? && to.value.host != me.service.name
            && (exists s :: s in services && s.name == to.value.host && Declares(s, to.value.port))
            && Get(Ips(names), to.value.host).Some?
            && HostOf(names, Ips(names), AliasIps(services, Ips(names)), me.name, to.value.host) ==
               Get(Ips(names), to.value.host)
  {
    hide Read, Rewrite, Declarer, Expand, AliasIps, Ips, InstName;
    var all := Expand(services, reps);
    var names := Names(all);
    RewriteRepoints(services, me.service.name, v);
    var port := Read(v).value.port;
    DeclarerFirst(services, port);
    var s :| s in services && s.name == Declarer(services, port).value && Declares(s, port);
    ExpandIsFlat(services, reps);
    ExpandIs(services, reps, me);
    OtherName(services, reps, s, me);
    var i :| 0 <= i < |all| && all[i] == me;
    assert names[i] == me.name;
    IpsDiffer(names, s.name, me.name);
    MeshIffLoyal(services, names);
  }

  lemma {:induction false} OtherName(services: seq<Service>, reps: Dict<string, int>, s: Service, me: Instance)
    requires NoClash(services, reps) && me in Expand(services, reps) && s in services && s.name != me.service.name
    ensures s.name != me.name
  {
    ExpandIs(services, reps, me);
  }
}
