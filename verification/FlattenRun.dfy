// The loops of the flatten step: they build dictionaries entry by entry, and
// each is proved to hold what the specification says it holds.
module FlattenRun {
  import opened Text
  import opened Decimal
  import opened Dict
  import opened Loopback
  import opened Flatten

  datatype Entry = Entry(
    env: Dict<string, string>,
    deps: seq<string>,
    address: Option<string>,
    hosts: Dict<string, string>)

  datatype Forward = Forward(udp: bool, host: nat, cport: nat, instance: string)

  // ----- which service declared a port -----

  lemma {:induction false} DeclarerNext(services: seq<Service>, i: nat, port: nat)
    requires i < |services|
    ensures Declarer(services[..i + 1], port) ==
            if Declarer(services[..i], port).Some? then Declarer(services[..i], port)
            else if Declares(services[i], port) then Some(services[i].name) else None
    decreases i
  {
    if i > 0 && !Declares(services[0], port) {
      assert services[..i + 1][1..] == services[1..][..i] && services[..i][1..] == services[1..][..i - 1];
      DeclarerNext(services[1..], i - 1, port);
    }
  }

  // Whether one of the first k ports is this one.
  predicate Among(s: Service, k: nat, port: nat)
    requires k <= |s.ports|
  {
    exists j :: 0 <= j < k && s.ports[j].cport == port
  }

  method SiblingPorts(services: seq<Service>) returns (out: Dict<nat, string>)
    ensures forall port: nat :: Get(out, port) == Declarer(services, port)
  {
    hide Put;
    out := [];
    for i := 0 to |services|
      invariant forall port: nat :: Get(out, port) == Declarer(services[..i], port)
    {
      var s := services[i];
      ghost var before := services[..i];
      for k := 0 to |s.ports|
        invariant forall port: nat :: Get(out, port) ==
                    if Declarer(before, port).Some? then Declarer(before, port)
                    else if Among(s, k, port) then Some(s.name) else None
      {
        var port := s.ports[k].cport;
        forall p: nat ensures Among(s, k + 1, p) <==> Among(s, k, p) || p == port {
        }
        if Get(out, port) == None {
          forall p: nat ensures Get(Put(out, port, s.name), p) == if p == port then Some(s.name) else Get(out, p) {
            PutGet(out, port, s.name, p);
          }
          out := Put(out, port, s.name);
        }
      }
      forall port: nat
        ensures Get(out, port) == Declarer(services[..i + 1], port)
      {
        DeclarerNext(services, i, port);
        assert Among(s, |s.ports|, port) <==> Declares(s, port);
      }
    }
    assert services[..|services|] == services;
  }

  method RewriteLoopback(services: seq<Service>, ports: Dict<nat, string>, self: string, v: string) returns (r: string)
    requires forall port: nat :: Get(ports, port) == Declarer(services, port)
    ensures r == Rewrite(services, self, v)
  {
    var m := Pointed(v);
    if m == None { return v; }
    var other := Get(ports, m.value.port);
    if other == None || other.value == "" || other.value == self { return v; }
    var head := if m.value.scheme == "" then "" else m.value.scheme + "://";
    r := head + other.value + ":" + Dec(m.value.port) + m.value.path;
  }

  // ----- environment -----

  function Merged(env: Dict<string, string>, over: Dict<string, string>): (r: Dict<string, string>) {
    if over == [] then env else Put(Merged(env, over[..|over| - 1]), over[|over| - 1].0, over[|over| - 1].1)
  }

  function RewriteAll(services: seq<Service>, self: string, env: Dict<string, string>): (r: Dict<string, string>) {
    if env == [] then []
    else RewriteAll(services, self, env[..|env| - 1]) +
         [(env[|env| - 1].0, Rewrite(services, self, env[|env| - 1].1))]
  }

  lemma {:induction false} RewriteAllAt(services: seq<Service>, self: string, env: Dict<string, string>)
    ensures var r := RewriteAll(services, self, env);
            |r| == |env| && forall i :: 0 <= i < |r| ==> r[i] == (env[i].0, Rewrite(services, self, env[i].1))
    decreases |env|
  {
    hide Rewrite;
    if env != [] { RewriteAllAt(services, self, env[..|env| - 1]); }
  }

  lemma {:induction false} RewriteGet(services: seq<Service>, self: string, env: Dict<string, string>,
                                      r: Dict<string, string>, k: string)
    requires |r| == |env| && forall i :: 0 <= i < |r| ==> r[i] == (env[i].0, Rewrite(services, self, env[i].1))
    ensures Get(r, k) ==
            match Get(env, k) case Some(v) => Some(Rewrite(services, self, v)) case None => None
    decreases |env|
  {
    hide Rewrite;
    if env != [] { RewriteGet(services, self, env[1..], r[1..], k); }
  }

  lemma {:induction false} MergedGet(env: Dict<string, string>, over: Dict<string, string>, k: string)
    requires Keyed(over)
    ensures Get(Merged(env, over), k) == if Get(over, k).Some? then Get(over, k) else Get(env, k)
    decreases |over|
  {
    if over != [] {
      var init, last := over[..|over| - 1], over[|over| - 1];
      MergedGet(env, init, k);
      PutGet(Merged(env, init), last.0, last.1, k);
      GetSnoc(init, last, k);
      assert over == init + [last];
      GetIn(init, k);
    }
  }

  lemma {:induction false} GetSnoc<V>(d: Dict<string, V>, e: (string, V), k: string)
    ensures Get(d + [e], k) == if Get(d, k).Some? then Get(d, k) else if e.0 == k then Some(e.1) else None
    decreases |d|
  {
    if d == [] {
      assert d + [e] == [e];
    } else {
      assert (d + [e])[1..] == d[1..] + [e];
      GetSnoc(d[1..], e, k);
    }
  }

  // An instance sees the overlay's value, or else the declared one, with its
  // loopbacks re-pointed.
  lemma {:induction false} EnvironmentIs(services: seq<Service>, self: string, env: Dict<string, string>,
                                         over: Dict<string, string>, k: string)
    requires Keyed(over)
    ensures Get(RewriteAll(services, self, Merged(env, over)), k) ==
            match (if Get(over, k).Some? then Get(over, k) else Get(env, k))
            case Some(v) => Some(Rewrite(services, self, v))
            case None => None
  {
    hide Rewrite, Get, Merged;
    MergedGet(env, over, k);
    RewriteAllAt(services, self, Merged(env, over));
    RewriteGet(services, self, Merged(env, over), RewriteAll(services, self, Merged(env, over)), k);
  }

  method MergeEnv(services: seq<Service>, ports: Dict<nat, string>, self: string, env: Dict<string, string>,
                  over: Dict<string, string>) returns (r: Dict<string, string>)
    requires forall port: nat :: Get(ports, port) == Declarer(services, port)
    ensures r == RewriteAll(services, self, Merged(env, over))
  {
    hide Rewrite, Put;
    var merged := env;
    for i := 0 to |over|
      invariant merged == Merged(env, over[..i])
    {
      assert over[..i + 1][..i] == over[..i];
      merged := Put(merged, over[i].0, over[i].1);
    }
    assert over[..|over|] == over;
    r := [];
    for i := 0 to |merged|
      invariant r == RewriteAll(services, self, merged[..i])
    {
      assert merged[..i + 1][..i] == merged[..i];
      var v := RewriteLoopback(services, ports, self, merged[i].1);
      r := r + [(merged[i].0, v)];
    }
    assert merged[..|merged|] == merged;
  }

  // ----- host tables -----

  function SiblingHosts(names: seq<string>, ips: Dict<string, string>, me: string): (r: Dict<string, string>) {
    if names == [] then []
    else
      var init, o := SiblingHosts(names[..|names| - 1], ips, me), names[|names| - 1];
      match Get(ips, o)
      case Some(ip) => if o == me then init else Put(init, o, ip)
      case None => init
  }

  function WithAliases(hosts: Dict<string, string>, aliasIps: Dict<string, string>, mine: Option<string>)
    : (r: Dict<string, string>)
  {
    if aliasIps == [] then hosts
    else
      var init, last := WithAliases(hosts, aliasIps[..|aliasIps| - 1], mine), aliasIps[|aliasIps| - 1];
      if Some(last.1) == mine then init else Put(init, last.0, last.1)
  }

  function Hosts(names: seq<string>, ips: Dict<string, string>, aliasIps: Dict<string, string>, me: string)
    : (r: Dict<string, string>)
  {
    WithAliases(SiblingHosts(names, ips, me), aliasIps, Get(ips, me))
  }

  lemma {:induction false} SiblingHostsGet(names: seq<string>, ips: Dict<string, string>, me: string, x: string)
    ensures Get(SiblingHosts(names, ips, me), x) == if x in names && x != me then Get(ips, x) else None
    decreases |names|
  {
    hide Put;
    if names != [] {
      var init, o := names[..|names| - 1], names[|names| - 1];
      SiblingHostsGet(init, ips, me, x);
      if Get(ips, o).Some? { PutGet(SiblingHosts(init, ips, me), o, Get(ips, o).value, x); }
      assert names == init + [o];
    }
  }

  lemma {:induction false} WithAliasesGet(hosts: Dict<string, string>, aliasIps: Dict<string, string>,
                                          mine: Option<string>, x: string)
    requires Keyed(aliasIps)
    ensures Get(WithAliases(hosts, aliasIps, mine), x) ==
            if Get(aliasIps, x).Some? && Get(aliasIps, x) != mine then Get(aliasIps, x) else Get(hosts, x)
    decreases |aliasIps|
  {
    hide Put;
    if aliasIps != [] {
      var init, last := aliasIps[..|aliasIps| - 1], aliasIps[|aliasIps| - 1];
      WithAliasesGet(hosts, init, mine, x);
      PutGet(WithAliases(hosts, init, mine), last.0, last.1, x);
      GetSnoc(init, last, x);
      assert aliasIps == init + [last];
      GetIn(init, x);
    }
  }

  lemma {:induction false} AliasOfKeyed(aliases: seq<string>, ip: string, d: Dict<string, string>)
    requires Keyed(d)
    ensures Keyed(AliasOf(aliases, ip, d))
    decreases |aliases|
  {
    if aliases != [] {
      AliasOfKeyed(aliases[..|aliases| - 1], ip, d);
      PutKeyed(AliasOf(aliases[..|aliases| - 1], ip, d), aliases[|aliases| - 1], ip);
    }
  }

  lemma {:induction false} AliasIpsKeyed(services: seq<Service>, ips: Dict<string, string>)
    ensures Keyed(AliasIps(services, ips))
    decreases |services|
  {
    if services != [] {
      var init, s := services[..|services| - 1], services[|services| - 1];
      AliasIpsKeyed(init, ips);
      if Get(ips, s.name).Some? { AliasOfKeyed(s.aliases, Get(ips, s.name).value, AliasIps(init, ips)); }
    }
  }

  // The table that is written answers as the specification does.
  lemma {:induction false} HostsAgree(services: seq<Service>, names: seq<string>, ips: Dict<string, string>,
                                      me: string, x: string)
    ensures var al := AliasIps(services, ips);
            Get(Hosts(names, ips, al, me), x) == HostOf(names, ips, al, me, x)
  {
    hide Get, SiblingHosts, WithAliases, AliasIps;
    var al := AliasIps(services, ips);
    AliasIpsKeyed(services, ips);
    SiblingHostsGet(names, ips, me, x);
    WithAliasesGet(SiblingHosts(names, ips, me), al, Get(ips, me), x);
  }

  method HostTable(names: seq<string>, ips: Dict<string, string>, aliasIps: Dict<string, string>, me: string)
    returns (hosts: Dict<string, string>)
    ensures hosts == Hosts(names, ips, aliasIps, me)
  {
    hide Put;
    hosts := [];
    for i := 0 to |names|
      invariant hosts == SiblingHosts(names[..i], ips, me)
    {
      assert names[..i + 1][..i] == names[..i];
      var ip := Get(ips, names[i]);
      if names[i] != me && ip.Some? { hosts := Put(hosts, names[i], ip.value); }
    }
    assert names[..|names|] == names;
    var mine := Get(ips, me);
    for i := 0 to |aliasIps|
      invariant hosts == WithAliases(SiblingHosts(names, ips, me), aliasIps[..i], mine)
    {
      assert aliasIps[..i + 1][..i] == aliasIps[..i];
      if Some(aliasIps[i].1) != mine { hosts := Put(hosts, aliasIps[i].0, aliasIps[i].1); }
    }
    assert aliasIps[..|aliasIps|] == aliasIps;
  }

  // ----- expansion and addresses -----

  method ExpandAll(services: seq<Service>, reps: Dict<string, int>) returns (expanded: seq<Instance>)
    ensures expanded == Expand(services, reps)
  {
    hide InstName;
    expanded := [];
    for s := 0 to |services|
      invariant expanded == Expand(services[..s], reps)
    {
      assert services[..s + 1][..s] == services[..s];
      var e, before := services[s], expanded;
      var n := Copies(reps, e.name);
      for i := 0 to n
        invariant expanded == before + InstancesOf(e, n)[..i]
      {
        expanded := expanded + [Instance(InstName(e.name, i), e, i)];
      }
      assert InstancesOf(e, n)[..n] == InstancesOf(e, n);
    }
    assert services[..|services|] == services;
  }

  method Addresses(names: seq<string>) returns (ips: Dict<string, string>)
    ensures ips == Ips(names)
  {
    hide Put;
    ips := [];
    for i := 0 to |names|
      invariant ips == Ips(names[..i])
    {
      assert names[..i + 1][..i] == names[..i];
      ips := Put(ips, names[i], "172.31.100." + Dec(10 + i));
    }
    assert names[..|names|] == names;
  }

  method AliasAddresses(services: seq<Service>, ips: Dict<string, string>) returns (d: Dict<string, string>)
    ensures d == AliasIps(services, ips)
  {
    hide Put;
    d := [];
    for s := 0 to |services|
      invariant d == AliasIps(services[..s], ips)
    {
      assert services[..s + 1][..s] == services[..s];
      var e, before := services[s], d;
      var ip := Get(ips, e.name);
      if ip.Some? {
        for i := 0 to |e.aliases|
          invariant d == AliasOf(e.aliases[..i], ip.value, before)
        {
          assert e.aliases[..i + 1][..i] == e.aliases[..i];
          d := Put(d, e.aliases[i], ip.value);
        }
        assert e.aliases[..|e.aliases|] == e.aliases;
      }
    }
    assert services[..|services|] == services;
  }

  // ----- the whole step -----

  // The overlay's environment for a service, if it has one.
  function Over(envOver: Dict<string, Dict<string, string>>, name: string): (r: Dict<string, string>) {
    match Get(envOver, name) case Some(d) => d case None => []
  }

  function EntryOf(services: seq<Service>, names: seq<string>, envOver: Dict<string, Dict<string, string>>, x: Instance)
    : (e: Entry)
  {
    var ips := Ips(names);
    Entry(RewriteAll(services, x.service.name, Merged(x.service.env, Over(envOver, x.service.name))),
          x.service.deps,
          Get(ips, x.name),
          Hosts(names, ips, AliasIps(services, ips), x.name))
  }

  function Entries(services: seq<Service>, names: seq<string>, envOver: Dict<string, Dict<string, string>>,
                   some: seq<Instance>): (r: Dict<string, Entry>)
  {
    if some == [] then []
    else
      var x := some[|some| - 1];
      Put(Entries(services, names, envOver, some[..|some| - 1]), x.name, EntryOf(services, names, envOver, x))
  }

  function ForwardsOf(x: Instance, ports: seq<Port>): (r: seq<Forward>) {
    if ports == [] then []
    else
      var p := ports[|ports| - 1];
      ForwardsOf(x, ports[..|ports| - 1]) + [Forward(p.udp, p.host + x.index, p.cport, x.name)]
  }

  function Forwards(some: seq<Instance>): (r: seq<Forward>) {
    if some == [] then []
    else Forwards(some[..|some| - 1]) + ForwardsOf(some[|some| - 1], some[|some| - 1].service.ports)
  }

  method ForwardPorts(fwd: seq<Forward>, x: Instance) returns (r: seq<Forward>)
    ensures r == fwd + ForwardsOf(x, x.service.ports)
  {
    r := fwd;
    for k := 0 to |x.service.ports|
      invariant r == fwd + ForwardsOf(x, x.service.ports[..k])
    {
      var ports := x.service.ports;
      assert ports[..k + 1][..k] == ports[..k];
      r := r + [Forward(ports[k].udp, ports[k].host + x.index, ports[k].cport, x.name)];
    }
    assert x.service.ports[..|x.service.ports|] == x.service.ports;
  }

  method FlattenAll(services: seq<Service>, reps: Dict<string, int>, envOver: Dict<string, Dict<string, string>>)
    returns (svcs: Dict<string, Entry>, fwd: seq<Forward>)
    ensures var all := Expand(services, reps);
            && svcs == Entries(services, Names(all), envOver, all)
            && fwd == Forwards(all)
  {
    hide Put, Expand, Ips, AliasIps, Hosts, RewriteAll, Merged, ForwardsOf, Get, Declarer, Rewrite;
    var expanded := ExpandAll(services, reps);
    var names := Names(expanded);
    var ips := Addresses(names);
    var aliasIps := AliasAddresses(services, ips);
    var ports := SiblingPorts(services);
    svcs, fwd := [], [];
    for i := 0 to |expanded|
      invariant svcs == Entries(services, names, envOver, expanded[..i])
      invariant fwd == Forwards(expanded[..i])
    {
      assert expanded[..i + 1][..i] == expanded[..i];
      var x := expanded[i];
      fwd := ForwardPorts(fwd, x);
      var env := MergeEnv(services, ports, x.service.name, x.service.env, Over(envOver, x.service.name));
      var hosts := HostTable(names, ips, aliasIps, x.name);
      svcs := Put(svcs, x.name, Entry(env, x.service.deps, Get(ips, x.name), hosts));
    }
    assert expanded[..|expanded|] == expanded;
  }

  lemma {:induction false} EntriesGet(services: seq<Service>, names: seq<string>,
                                      envOver: Dict<string, Dict<string, string>>, some: seq<Instance>, i: nat)
    requires i < |some| && Distinct(Names(some))
    ensures Get(Entries(services, names, envOver, some), some[i].name) ==
            Some(EntryOf(services, names, envOver, some[i]))
    decreases |some|
  {
    hide Put, EntryOf;
    var init, x := some[..|some| - 1], some[|some| - 1];
    PutGet(Entries(services, names, envOver, init), x.name, EntryOf(services, names, envOver, x), some[i].name);
    assert forall k :: 0 <= k < |init| ==> Names(init)[k] == Names(some)[k];
    assert Names(some)[i] == some[i].name && Names(some)[|some| - 1] == x.name;
    if i < |init| { EntriesGet(services, names, envOver, init, i); }
  }

  // What is written for each instance of a validated plan: its own address, and
  // a table that resolves every other instance to the address written for it.
  lemma {:induction false} FlattenedMesh(services: seq<Service>, reps: Dict<string, int>,
                                         envOver: Dict<string, Dict<string, string>>, i: nat, j: nat)
    requires Validated(reps) && ServicesDistinct(services) && NoClash(services, reps)
    requires i < |Expand(services, reps)| && j < |Expand(services, reps)| && i != j
    requires var names := Names(Expand(services, reps));
             |names| <= 2 || AliasesLoyal(services, names)
    ensures var all := Expand(services, reps);
            var svcs := Entries(services, Names(all), envOver, all);
            var mine, other := Get(svcs, all[i].name), Get(svcs, all[j].name);
            && mine.Some? && other.Some?
            && mine.value.address == Some("172.31.100." + Dec(10 + i))
            && mine.value.address != other.value.address
            && Get(mine.value.hosts, all[j].name) == other.value.address
  {
    hide Entries, Put, Get, Expand, Ips, AliasIps, Hosts, RewriteAll, Merged;
    var all := Expand(services, reps);
    var names := Names(all);
    ExpandIsFlat(services, reps);
    EntriesGet(services, names, envOver, all, i);
    EntriesGet(services, names, envOver, all, j);
    assert names[i] == all[i].name && names[j] == all[j].name;
    IpsGet(names, i);
    IpsGet(names, j);
    if Addr(i) == Addr(j) { AddrInjective(i, j); }
    MeshIffLoyal(services, names);
    assert names[i] != names[j];
    HostsAgree(services, names, Ips(names), names[i], names[j]);
  }

  // And its dependencies and environment: as its service declares them, the
  // overlay's values first and loopbacks re-pointed.
  lemma {:induction false} WrittenEntry(services: seq<Service>, reps: Dict<string, int>,
                                        envOver: Dict<string, Dict<string, string>>, i: nat, k: string)
    requires Validated(reps) && ServicesDistinct(services) && NoClash(services, reps)
    requires i < |Expand(services, reps)|
    requires Keyed(Over(envOver, Expand(services, reps)[i].service.name))
    ensures var all := Expand(services, reps);
            var mine, s := Get(Entries(services, Names(all), envOver, all), all[i].name), all[i].service;
            var over := Over(envOver, s.name);
            && mine.Some? && mine.value.deps == s.deps
            && Get(mine.value.env, k) ==
               match (if Get(over, k).Some? then Get(over, k) else Get(s.env, k))
               case Some(v) => Some(Rewrite(services, s.name, v))
               case None => None
  {
    hide Entries, Put, Get, Expand, Ips, AliasIps, Hosts, RewriteAll, Merged, Rewrite, Over;
    var all := Expand(services, reps);
    ExpandIsFlat(services, reps);
    EntriesGet(services, Names(all), envOver, all, i);
    EnvironmentIs(services, all[i].service.name, all[i].service.env, Over(envOver, all[i].service.name), k);
  }
}
