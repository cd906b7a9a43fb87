// The loopback rewrite of scripts/vmf_plan.py: an environment value that points
// at 127.0.0.1 or localhost on a sibling's declared port is re-pointed at that
// sibling.
module Loopback {
  import opened Text
  import opened Decimal

  datatype Port = Port(host: nat, cport: nat, udp: bool)

  datatype Service = Service(
    name: string,
    ports: seq<Port>,
    env: seq<(string, string)>,
    deps: seq<string>,
    aliases: seq<string>)

  predicate Declares(s: Service, port: nat) { exists p :: p in s.ports && p.cport == port }

  // The first service, in file order, that declares the guest port.
  function Declarer(services: seq<Service>, port: nat): (name: Option<string>) {
    if services == [] then None
    else if Declares(services[0], port) then Some(services[0].name)
    else Declarer(services[1..], port)
  }

  // ----- reading a value -----

  // (scheme://)?host:port(/path)?
  datatype Endpoint = Endpoint(scheme: string, host: string, port: nat, path: string)

  function Scheme(v: string): (scheme: string)
    ensures scheme == "" || (|scheme| + 3 <= |v| && scheme + "://" <= v)
  {
    if "https://" <= v then "https" else if "http://" <= v then "http" else ""
  }

  function AfterScheme(v: string): (rest: string) {
    if Scheme(v) == "" then v else v[|Scheme(v)| + 3..]
  }

  function DigitRun(s: string): (n: nat)
    ensures n <= |s|
    ensures forall i :: 0 <= i < n ==> IsDigit(s[i])
    ensures n < |s| ==> !IsDigit(s[n])
  {
    if s == "" || !IsDigit(s[0]) then 0 else 1 + DigitRun(s[1..])
  }

  predicate Path(s: string) { s == "" || (s[0] == '/' && '\n' !in s) }

  // One to five digits, then the end or a path without a newline.
  function PortAndPath(s: string): (r: Option<(nat, string)>) {
    var n := DigitRun(s);
    if 1 <= n <= 5 && Path(s[n..]) then Some((Val(s[..n]), s[n..])) else None
  }

  const LOOPBACKS: seq<string> := ["127.0.0.1", "localhost"]

  function Pointed(v: string): (r: Option<Endpoint>) {
    var rest := AfterScheme(v);
    var host := if "127.0.0.1:" <= rest then "127.0.0.1" else if "localhost:" <= rest then "localhost" else "";
    if host == "" then None
    else
      match PortAndPath(rest[|host| + 1..])
      case None => None
      case Some(pp) => Some(Endpoint(Scheme(v), host, pp.0, pp.1))
  }

  function Print(e: Endpoint): (v: string) {
    (if e.scheme == "" then "" else e.scheme + "://") + e.host + ":" + Dec(e.port) + e.path
  }

  function Rewrite(services: seq<Service>, self: string, v: string): (r: string) {
    match Pointed(v)
    case None => v
    case Some(e) =>
      var other := Declarer(services, e.port);
      if other == None || other.value == "" || other.value == self then v else Print(e.(host := other.value))
  }

  // ----- an independent reading, for any host -----

  predicate HostName(h: string) { h != "" && ':' !in h && '/' !in h }

  function Read(v: string): (r: Option<Endpoint>) {
    var rest := AfterScheme(v);
    var n := IndexOf(rest, ':');
    if n == |rest| || !HostName(rest[..n]) then None
    else
      match PortAndPath(rest[n + 1..])
      case None => None
      case Some(pp) => Some(Endpoint(Scheme(v), rest[..n], pp.0, pp.1))
  }

  lemma {:induction false} DigitRunFirst(d: string, tail: string)
    requires Numeral(d) && (tail == "" || !IsDigit(tail[0]))
    ensures DigitRun(d + tail) == |d|
  {
    var s := d + tail;
    assert tail != "" ==> s[|d|] == tail[0];
    assert forall i :: 0 <= i < |d| ==> s[i] == d[i];
  }

  lemma {:induction false} PointedHost(rest: string, host: string)
    requires host in LOOPBACKS
    ensures host + ":" <= rest <==> IndexOf(rest, ':') < |rest| && rest[..IndexOf(rest, ':')] == host
  {
    var n := IndexOf(rest, ':');
    if host + ":" <= rest {
      var tail := rest[|host| + 1..];
      assert rest == host + [':'] + tail;
      assert rest == host + ([':'] + tail);
      IndexFirst(host, [':'] + tail, ':');
    }
    if n < |rest| && rest[..n] == host {
      assert rest[..n + 1] == host + ":";
    }
  }

  lemma {:induction false} LoopbackNames(host: string)
    ensures host in LOOPBACKS <==> host == "127.0.0.1" || host == "localhost"
    ensures host in LOOPBACKS ==> HostName(host)
    ensures "127.0.0.1" != "localhost" && "127.0.0.1" + ":" == "127.0.0.1:" && "localhost" + ":" == "localhost:"
  {
    assert LOOPBACKS[0] == "127.0.0.1" && LOOPBACKS[1] == "localhost";
    assert "127.0.0.1"[0] != "localhost"[0];
  }

  // The pattern matches exactly the endpoints whose host is a loopback name.
  lemma {:induction false} PointedIsRead(v: string)
    ensures Pointed(v) == if Read(v).Some? && Read(v).value.host in LOOPBACKS then Read(v) else None
  {
    hide Path, PortAndPath, IndexOf, Scheme, AfterScheme, HostName;
    var rest := AfterScheme(v);
    var host := rest[..IndexOf(rest, ':')];
    LoopbackNames(host);
    PointedHost(rest, "127.0.0.1");
    PointedHost(rest, "localhost");
  }

  ghost predicate Endpointed(e: Endpoint) {
    e.scheme in ["", "http", "https"] && HostName(e.host) && e.port < 100000 && Path(e.path)
  }

  lemma {:induction false} PortReads(port: nat, path: string)
    requires port < 100000 && Path(path)
    ensures PortAndPath(Dec(port) + path) == Some((port, path))
  {
    assert Pow10(5) == 100000;
    DecShort(port, 5);
    DigitRunFirst(Dec(port), path);
    DecReads(port);
    var s := Dec(port) + path;
    assert s[..|Dec(port)|] == Dec(port) && s[|Dec(port)|..] == path;
  }

  lemma {:induction false} SchemeReads(e: Endpoint)
    requires Endpointed(e)
    ensures Scheme(Print(e)) == e.scheme
    ensures AfterScheme(Print(e)) == e.host + [':'] + (Dec(e.port) + e.path)
  {
    var v, rest := Print(e), e.host + [':'] + (Dec(e.port) + e.path);
    if e.scheme == "" {
      assert v == rest;
      assert rest[|e.host|] == ':' && IsDigit(rest[|e.host| + 1]);
      NoScheme(e.host, rest);
    } else {
      assert v == e.scheme + "://" + rest;
      if e.scheme == "http" { assert v[4] == ':'; assert "https://"[4] == 's'; }
      assert v[|e.scheme| + 3..] == rest;
    }
  }

  // A host without colon or slash, then a colon and a digit, is no scheme.
  lemma {:induction false} NoScheme(host: string, rest: string)
    requires HostName(host) && |rest| > |host| + 1 && rest[..|host|] == host
    requires rest[|host|] == ':' && IsDigit(rest[|host| + 1])
    ensures Scheme(rest) == ""
  {
    assert forall i :: 0 <= i < |host| ==> rest[i] == host[i];
    assert "http://"[4] == ':' && "http://"[5] == '/' && "https://"[5] == ':' && "https://"[6] == '/';
  }

  lemma {:induction false} PrintReads(e: Endpoint)
    requires Endpointed(e)
    ensures Read(Print(e)) == Some(e)
  {
    hide Path, PortAndPath, Scheme, AfterScheme, IndexOf, Print, Dec;
    SchemeReads(e);
    var tail := Dec(e.port) + e.path;
    var rest := e.host + [':'] + tail;
    assert rest == e.host + ([':'] + tail);
    IndexFirst(e.host, [':'] + tail, ':');
    PortReads(e.port, e.path);
    assert rest[..|e.host|] == e.host && rest[|e.host| + 1..] == tail;
  }

  lemma {:induction false} ReadIsEndpoint(v: string)
    requires Read(v).Some?
    ensures Endpointed(Read(v).value)
  {
    var rest := AfterScheme(v);
    var n := IndexOf(rest, ':');
    var s := rest[n + 1..];
    ValSmall(s[..DigitRun(s)]);
    PowGrows(DigitRun(s), 5);
    assert Pow10(5) == 100000;
  }

  lemma {:induction false} PowGrows(a: nat, b: nat)
    requires a <= b
    ensures Pow10(a) <= Pow10(b)
    decreases b
  {
    if a < b { PowGrows(a, b - 1); }
  }

  // ----- what the rewrite promises -----

  ghost predicate NamesAreHosts(services: seq<Service>) { forall s :: s in services ==> HostName(s.name) }

  lemma {:induction false} DeclarerFirst(services: seq<Service>, port: nat)
    ensures match Declarer(services, port)
            case None => forall s :: s in services ==> !Declares(s, port)
            case Some(name) =>
              exists i :: 0 <= i < |services| && services[i].name == name && Declares(services[i], port) &&
                          forall j :: 0 <= j < i ==> !Declares(services[j], port)
    decreases |services|
  {
    if services != [] && !Declares(services[0], port) {
      var rest := services[1..];
      DeclarerFirst(rest, port);
      if Declarer(rest, port).Some? {
        var i :| 0 <= i < |rest| && rest[i].name == Declarer(rest, port).value && Declares(rest[i], port) &&
                 forall j :: 0 <= j < i ==> !Declares(rest[j], port);
        assert services[i + 1] == rest[i];
        forall j | 0 <= j < i + 1 ensures !Declares(services[j], port) {
          if j > 0 { assert services[j] == rest[j - 1]; }
        }
      } else {
        forall s | s in services ensures !Declares(s, port) {
          assert s == services[0] || s in rest;
        }
      }
    }
  }

  // A value that reads as a loopback endpoint on a port some other service
  // declares first is re-pointed there, keeping scheme, port number and path;
  // every other value is left alone.
  lemma {:induction false} RewriteRepoints(services: seq<Service>, self: string, v: string)
    requires NamesAreHosts(services)
    ensures var other := if Read(v).Some? then Declarer(services, Read(v).value.port) else None;
            if Read(v).Some? && Read(v).value.host in LOOPBACKS && other.Some? && other.value != self
            then Read(Rewrite(services, self, v)) == Some(Read(v).value.(host := other.value))
            else Rewrite(services, self, v) == v
  {
    PointedIsRead(v);
    if Read(v).Some? {
      var e := Read(v).value;
      ReadIsEndpoint(v);
      DeclarerFirst(services, e.port);
      var other := Declarer(services, e.port);
      if other.Some? {
        assert HostName(other.value);
        PrintReads(e.(host := other.value));
      }
    }
    hide Read, Print, Pointed, Declarer;
  }

  // Rewriting again changes nothing, whatever the services are called.
  lemma {:induction false} RewriteSettles(services: seq<Service>, self: string, v: string)
    requires NamesAreHosts(services)
    ensures Rewrite(services, self, Rewrite(services, self, v)) == Rewrite(services, self, v)
  {
    var w := Rewrite(services, self, v);
    if w != v {
      PointedIsRead(v);
      PointedIsRead(w);
      RewriteRepoints(services, self, v);
      assert w == Print(Read(w).value);
    }
    hide Read, Print, Pointed, Declarer;
  }

  // A service's loopback to its own port is left alone exactly when no earlier
  // service declares that port too.
  lemma {:induction false} OwnPortStays(services: seq<Service>, i: nat, v: string)
    requires NamesAreHosts(services) && i < |services|
    requires forall j, k :: 0 <= j < k < |services| ==> services[j].name != services[k].name
    requires forall s :: s in services ==> s.name !in LOOPBACKS
    requires Pointed(v).Some? && Declares(services[i], Pointed(v).value.port)
    ensures Rewrite(services, services[i].name, v) == v <==>
            forall j :: 0 <= j < i ==> !Declares(services[j], Pointed(v).value.port)
  {
    hide Pointed, Read, Print, Rewrite, Declarer, Declares;
    var port := Pointed(v).value.port;
    PointedIsRead(v);
    DeclarerFirst(services, port);
    RewriteRepoints(services, services[i].name, v);
    var f :| 0 <= f < |services| && services[f].name == Declarer(services, port).value && Declares(services[f], port) &&
             forall j :: 0 <= j < f ==> !Declares(services[j], port);
    assert services[f] in services;
  }
}
