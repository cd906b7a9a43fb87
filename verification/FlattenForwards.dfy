// What is forwarded: one line per instance and port, to the guest port that the
// instance's service declares; and when no two of them take the same host port.
module FlattenForwards {
  import opened Text
  import opened Decimal
  import opened Dict
  import opened Loopback
  import opened Flatten
  import opened FlattenRun

  // ----- lists laid end to end -----

  function Flatly<T>(lists: seq<seq<T>>): (r: seq<T>) {
    if lists == [] then [] else Flatly(lists[..|lists| - 1]) + lists[|lists| - 1]
  }

  // How much comes before the i-th list.
  function Before<T>(lists: seq<seq<T>>, i: nat): (n: nat)
    requires i <= |lists|
  {
    if i == 0 then 0 else Before(lists, i - 1) + |lists[i - 1]|
  }

  lemma {:induction false} BeforeFront<T>(lists: seq<seq<T>>, n: nat, i: nat)
    requires i <= n <= |lists|
    ensures Before(lists[..n], i) == Before(lists, i)
    decreases i
  {
    if i > 0 { BeforeFront(lists, n, i - 1); }
  }

  lemma {:induction false} BeforeGrows<T>(lists: seq<seq<T>>, i: nat, j: nat)
    requires i < j <= |lists|
    ensures Before(lists, i) + |lists[i]| <= Before(lists, j)
    decreases j
  {
    if i + 1 < j { BeforeGrows(lists, i, j - 1); }
  }

  lemma {:induction false} FlatSize<T>(lists: seq<seq<T>>)
    ensures |Flatly(lists)| == Before(lists, |lists|)
    decreases |lists|
  {
    if lists != [] {
      FlatSize(lists[..|lists| - 1]);
      BeforeFront(lists, |lists| - 1, |lists| - 1);
    }
  }

  lemma {:induction false} FlatAt<T>(lists: seq<seq<T>>, i: nat, k: nat)
    requires i < |lists| && k < |lists[i]|
    ensures Before(lists, i) + k < |Flatly(lists)|
    ensures Flatly(lists)[Before(lists, i) + k] == lists[i][k]
    decreases |lists|
  {
    var n := |lists| - 1;
    FlatSize(lists[..n]);
    BeforeFront(lists, n, n);
    if i < n {
      BeforeFront(lists, n, i);
      FlatAt(lists[..n], i, k);
    }
  }

  lemma {:induction false} FlatFrom<T>(lists: seq<seq<T>>, n: nat) returns (i: nat, k: nat)
    requires n < |Flatly(lists)|
    ensures i < |lists| && k < |lists[i]| && n == Before(lists, i) + k && Flatly(lists)[n] == lists[i][k]
    decreases |lists|
  {
    var last := |lists| - 1;
    var init := lists[..last];
    FlatSize(init);
    BeforeFront(lists, last, last);
    if n < |Flatly(init)| {
      i, k := FlatFrom(init, n);
      BeforeFront(lists, last, i);
    } else {
      i, k := last, n - |Flatly(init)|;
    }
  }

  lemma {:induction false} OnePosition<T>(lists: seq<seq<T>>, i: nat, k: nat, j: nat, m: nat)
    requires i < |lists| && k < |lists[i]| && j < |lists| && m < |lists[j]|
    requires Before(lists, i) + k == Before(lists, j) + m
    ensures i == j && k == m
  {
    if i < j { BeforeGrows(lists, i, j); }
    if j < i { BeforeGrows(lists, j, i); }
  }

  // ----- forwards by instance and port -----

  function ForwardLists(all: seq<Instance>): (r: seq<seq<Forward>>)
    ensures |r| == |all| && forall i :: 0 <= i < |r| ==> r[i] == ForwardsOf(all[i], all[i].service.ports)
  {
    seq(|all|, i requires 0 <= i < |all| => ForwardsOf(all[i], all[i].service.ports))
  }

  function InstanceLists(services: seq<Service>, reps: Dict<string, int>): (r: seq<seq<Instance>>)
    ensures |r| == |services|
    ensures forall i :: 0 <= i < |r| ==> r[i] == InstancesOf(services[i], Copies(reps, services[i].name))
  {
    seq(|services|, i requires 0 <= i < |services| => InstancesOf(services[i], Copies(reps, services[i].name)))
  }

  lemma {:induction false} ForwardsFlat(all: seq<Instance>)
    ensures Forwards(all) == Flatly(ForwardLists(all))
    decreases |all|
  {
    hide ForwardsOf;
    if all != [] {
      ForwardsFlat(all[..|all| - 1]);
      assert ForwardLists(all)[..|all| - 1] == ForwardLists(all[..|all| - 1]);
    }
  }

  lemma {:induction false} ExpandFlat(services: seq<Service>, reps: Dict<string, int>)
    ensures Expand(services, reps) == Flatly(InstanceLists(services, reps))
    decreases |services|
  {
    hide InstName, Copies;
    if services != [] {
      var init := services[..|services| - 1];
      ExpandFlat(init, reps);
      assert InstanceLists(services, reps)[..|services| - 1] == InstanceLists(init, reps);
    }
  }

  // The line of one instance and one of its ports.
  ghost predicate Leads(f: Forward, x: Instance, p: Port) {
    f.instance == x.name && f.cport == p.cport && f.host == p.host + x.index && f.udp == p.udp
  }

  lemma {:induction false} OfOne(x: Instance, ports: seq<Port>)
    ensures |ForwardsOf(x, ports)| == |ports|
    ensures forall k :: 0 <= k < |ports| ==> Leads(ForwardsOf(x, ports)[k], x, ports[k])
    decreases |ports|
  {
    if ports != [] { OfOne(x, ports[..|ports| - 1]); }
  }

  lemma {:induction false} SizesOf(all: seq<Instance>, i: nat)
    requires i <= |all|
    ensures Before(ForwardLists(all), i) == PortsBefore(all, i)
    decreases i
  {
    hide ForwardsOf;
    if i > 0 {
      SizesOf(all, i - 1);
      OfOne(all[i - 1], all[i - 1].service.ports);
    }
  }

  // How many ports the first i instances have.
  function PortsBefore(all: seq<Instance>, i: nat): (n: nat)
    requires i <= |all|
  {
    if i == 0 then 0 else PortsBefore(all, i - 1) + |all[i - 1].service.ports|
  }

  // One line per instance and port, in the order of the instances and, for each,
  // of its ports.
  lemma {:induction false} ForwardsInOrder(all: seq<Instance>, i: nat, k: nat)
    requires i < |all| && k < |all[i].service.ports|
    ensures |Forwards(all)| == PortsBefore(all, |all|) && PortsBefore(all, i) + k < |Forwards(all)|
    ensures Leads(Forwards(all)[PortsBefore(all, i) + k], all[i], all[i].service.ports[k])
  {
    hide Forwards, ForwardsOf, Flatly, Leads;
    var lists := ForwardLists(all);
    ForwardsFlat(all);
    FlatSize(lists);
    SizesOf(all, |all|);
    OfOne(all[i], all[i].service.ports);
    SizesOf(all, i);
    FlatAt(lists, i, k);
  }

  // What is forwarded is exactly every port of every instance: the guest port as
  // declared, the host port moved on by the instance's index.
  lemma {:induction false} ForwardedIff(services: seq<Service>, reps: Dict<string, int>, f: Forward)
    ensures f in Forwards(Expand(services, reps)) <==>
            exists x, p :: x in Expand(services, reps) && p in x.service.ports && Leads(f, x, p)
  {
    hide Forwards, ForwardsOf, Flatly, Expand;
    var all := Expand(services, reps);
    var lists := ForwardLists(all);
    ForwardsFlat(all);
    if f in Forwards(all) {
      var n :| 0 <= n < |Forwards(all)| && Forwards(all)[n] == f;
      var i, k := FlatFrom(lists, n);
      OfOne(all[i], all[i].service.ports);
      assert all[i] in all && all[i].service.ports[k] in all[i].service.ports;
    }
    if x, p :| x in all && p in x.service.ports && Leads(f, x, p) {
      var i :| 0 <= i < |all| && all[i] == x;
      var k :| 0 <= k < |x.service.ports| && x.service.ports[k] == p;
      OfOne(x, x.service.ports);
      FlatAt(lists, i, k);
      assert lists[i][k] == f;
    }
  }

  // So every line leads to an instance of a service that declares its guest
  // port, and a service's first instance keeps the host ports declared.
  lemma {:induction false} ForwardsLeadHome(services: seq<Service>, reps: Dict<string, int>, f: Forward)
    requires f in Forwards(Expand(services, reps))
    ensures exists x :: x in Expand(services, reps) && x.name == f.instance && x.service in services
                        && Declares(x.service, f.cport)
                        && (x.index == 0 ==> exists p :: p in x.service.ports && p.cport == f.cport && p.host == f.host)
  {
    hide Forwards, Expand;
    ForwardedIff(services, reps, f);
    var x, p :| x in Expand(services, reps) && p in x.service.ports && Leads(f, x, p);
    ExpandIs(services, reps, x);
  }

  // ----- when host ports are distinct -----

  ghost predicate HostPortsDistinct(fs: seq<Forward>) {
    forall a, b :: 0 <= a < b < |fs| ==> !(fs[a].udp == fs[b].udp && fs[a].host == fs[b].host)
  }

  // Two declared ports of one protocol whose replicas reach into each other.
  ghost predicate Overlap(services: seq<Service>, reps: Dict<string, int>, s: nat, k: nat, t: nat, l: nat) {
    && s < |services| && t < |services| && k < |services[s].ports| && l < |services[t].ports|
    && (s != t || k != l) && Copies(reps, services[s].name) > 0 && Copies(reps, services[t].name) > 0
    && var p, q := services[s].ports[k], services[t].ports[l];
       && p.udp == q.udp
       && p.host < q.host + Copies(reps, services[t].name) && q.host < p.host + Copies(reps, services[s].name)
  }

  // The line of the m-th copy of service s and its k-th port.
  function Position(services: seq<Service>, reps: Dict<string, int>, s: nat, m: nat, k: nat): (n: nat)
    requires s < |services| && Before(InstanceLists(services, reps), s) + m <= |Expand(services, reps)|
  {
    PortsBefore(Expand(services, reps), Before(InstanceLists(services, reps), s) + m) + k
  }

  lemma {:induction false} LineOf(services: seq<Service>, reps: Dict<string, int>, s: nat, m: nat, k: nat)
    requires s < |services| && m < Copies(reps, services[s].name) && k < |services[s].ports|
    ensures var fs, p := Forwards(Expand(services, reps)), services[s].ports[k];
            && Before(InstanceLists(services, reps), s) + m < |Expand(services, reps)|
            && var n := Position(services, reps, s, m, k);
               n < |fs| && fs[n].udp == p.udp && fs[n].host == p.host + m
  {
    hide Forwards, Expand, Flatly, InstName;
    var lists := InstanceLists(services, reps);
    ExpandFlat(services, reps);
    FlatAt(lists, s, m);
    ForwardsInOrder(Expand(services, reps), Before(lists, s) + m, k);
  }

  lemma {:induction false} LineFrom(services: seq<Service>, reps: Dict<string, int>, n: nat)
    returns (s: nat, m: nat, k: nat)
    requires n < |Forwards(Expand(services, reps))|
    ensures s < |services| && m < Copies(reps, services[s].name) && k < |services[s].ports|
    ensures Before(InstanceLists(services, reps), s) + m < |Expand(services, reps)|
    ensures n == Position(services, reps, s, m, k)
  {
    hide Forwards, Expand, Flatly, InstName, ForwardsOf;
    var all := Expand(services, reps);
    ForwardsFlat(all);
    ExpandFlat(services, reps);
    var i, l := FlatFrom(ForwardLists(all), n);
    OfOne(all[i], all[i].service.ports);
    SizesOf(all, i);
    s, m := FlatFrom(InstanceLists(services, reps), i);
    k := l;
  }

  lemma {:induction false} OneLine(services: seq<Service>, reps: Dict<string, int>, s: nat, m: nat, k: nat,
                                   t: nat, o: nat, l: nat)
    requires s < |services| && m < Copies(reps, services[s].name) && k < |services[s].ports|
    requires t < |services| && o < Copies(reps, services[t].name) && l < |services[t].ports|
    requires Before(InstanceLists(services, reps), s) + m < |Expand(services, reps)|
    requires Before(InstanceLists(services, reps), t) + o < |Expand(services, reps)|
    requires Position(services, reps, s, m, k) == Position(services, reps, t, o, l)
    ensures s == t && m == o && k == l
  {
    hide Forwards, Expand, Flatly, InstName, ForwardsOf;
    var all, lists := Expand(services, reps), InstanceLists(services, reps);
    var i, j := Before(lists, s) + m, Before(lists, t) + o;
    ExpandFlat(services, reps);
    FlatAt(lists, s, m);
    FlatAt(lists, t, o);
    SizesOf(all, i);
    SizesOf(all, j);
    OfOne(all[i], all[i].service.ports);
    OfOne(all[j], all[j].service.ports);
    OnePosition(ForwardLists(all), i, k, j, l);
    OnePosition(lists, s, m, t, o);
  }

  // Host ports are forwarded once each, protocol by protocol, exactly when no
  // two declared ports reach into each other with their replicas.
  lemma {:induction false} HostPortsIff(services: seq<Service>, reps: Dict<string, int>)
    ensures HostPortsDistinct(Forwards(Expand(services, reps))) <==>
            forall s: nat, k: nat, t: nat, l: nat :: !Overlap(services, reps, s, k, t, l)
  {
    hide Forwards, Expand, Position, Copies;
    var fs := Forwards(Expand(services, reps));
    if s: nat, k: nat, t: nat, l: nat :| Overlap(services, reps, s, k, t, l) {
      var p, q := services[s].ports[k], services[t].ports[l];
      var m, o := if p.host < q.host then q.host - p.host else 0, if q.host < p.host then p.host - q.host else 0;
      LineOf(services, reps, s, m, k);
      LineOf(services, reps, t, o, l);
      var a, b := Position(services, reps, s, m, k), Position(services, reps, t, o, l);
      if a == b { OneLine(services, reps, s, m, k, t, o, l); }
      assert if a < b then !HostPortsDistinct(fs) else !HostPortsDistinct(fs);
    }
    if !HostPortsDistinct(fs) {
      var a, b :| 0 <= a < b < |fs| && fs[a].udp == fs[b].udp && fs[a].host == fs[b].host;
      var s, m, k := LineFrom(services, reps, a);
      var t, o, l := LineFrom(services, reps, b);
      LineOf(services, reps, s, m, k);
      LineOf(services, reps, t, o, l);
      assert Overlap(services, reps, s, k, t, l);
    }
  }

  // ----- an example -----

  // A service with port 8080:80 and two replicas.
  lemma {:induction false} TwoReplicas(web: Service, reps: Dict<string, int>)
    requires web.name == "web" && web.ports == [Port(8080, 80, false)] && Get(reps, "web") == Some(2)
    ensures Forwards(Expand([web], reps)) == [Forward(false, 8080, 80, "web"), Forward(false, 8081, 80, "web-2")]
  {
    var all := InstancesOf(web, 2);
    assert [web][..0] == [] && Expand([], reps) == [];
    assert Expand([web], reps) == [] + all == all;
    SecondName();
    hide Expand, InstName, Forwards, ForwardsOf, Get;
    assert PortsBefore(all, 0) == 0 && PortsBefore(all, 1) == 1 && PortsBefore(all, 2) == 2;
    ForwardsInOrder(all, 0, 0);
    ForwardsInOrder(all, 1, 0);
  }

  lemma {:induction false} SecondName()
    ensures InstName("web", 0) == "web" && InstName("web", 1) == "web-2"
  {
    assert Dec(2) == "2";
  }
}
