// What the comparison of script and Dockerfile comes to for Dockerfiles of some
// kind, and the plain ones for which the two part.
module ProvisionCases {
  import opened Text
  import opened Decimal
  import opened Quote
  import opened Paths
  import opened Provision
  import opened DockerRead
  import opened EnvLines
  import opened ProvisionMachine
  import opened ProvisionProofs

  // ----- where the commands of a build run -----

  // The WORKDIR lines stand for themselves, and the first is absolute unless
  // the base image starts at the root.
  ghost predicate PlainDirs(ds: seq<Directive>, start: Shell) {
    forall i :: 0 <= i < |ds| && ds[i].Workdir? ==>
      && ds[i].path != "" && Inert(ds[i].path)
      && (Absolute(ds[i].path) || start.cwd == [] || exists j :: 0 <= j < i && ds[j].Workdir?)
  }

  // What a parsed directory means.
  function Meant(start: Shell, dir: Option<string>): (d: Dir) { if dir.Some? then DirOf([], dir.value) else start.cwd }

  lemma {:induction false} CollapseNames(s: string, cur: string)
    ensures NamesFrom(Collapse(s), cur) == NamesFrom(s, cur)
    decreases |s|
  {
    if |s| >= 2 && s[0] == '/' && s[1] == '/' {
      var t := "/" + Collapse(s[2..]);
      assert t[0] == '/' && t[1..] == Collapse(s[2..]) && s[1..][1..] == s[2..] && s[1..][0] == '/';
      CollapseNames(s[2..], "");
    } else if |s| >= 2 {
      var t := [s[0]] + Collapse(s[1..]);
      assert t[0] == s[0] && t[1..] == Collapse(s[1..]);
      CollapseNames(s[1..], if s[0] == '/' then "" else cur + [s[0]]);
    }
  }

  // The parser's directory is the one meant.
  lemma {:induction false} ResolveMeans(start: Shell, dir: Option<string>, path: string)
    requires Rooted(dir) && path != "" && (Absolute(path) || start.cwd == [] || dir.Some?)
    ensures Meant(start, Some(Resolve(dir, path))) == DirOf(Meant(start, dir), path)
  {
    if !Absolute(path) {
      var base := if dir.Some? then dir.value else "/";
      var joined := base + "/" + path;
      hide NamesFrom, Clean;
      assert Resolve(dir, path) == Collapse(joined) && joined[0] == '/';
      CollapseNames(joined, "");
      NamesSplit(base, path, "");
      CleanAppend([], Names(base), Names(path));
      RootNames();
    }
  }

  lemma {:induction false} RootNames()
    ensures Names("/") == [] && forall d: Dir :: Clean(d, []) == d
  {
    assert "/"[1..] == "";
  }

  lemma {:induction false} WorkdirSet(ds: seq<Directive>, pinned: string -> bool)
    requires exists j :: 0 <= j < |ds| && ds[j].Workdir?
    ensures ParseAll(ds, pinned).workdir.Some?
    decreases |ds|
  {
    hide Resolve, EnvPairs, Partition;
    var init, d := ds[..|ds| - 1], ds[|ds| - 1];
    if !d.Workdir? {
      var j :| 0 <= j < |ds| && ds[j].Workdir?;
      assert init[j] == ds[j];
      WorkdirSet(init, pinned);
    }
  }

  lemma {:induction false} RansSnoc(ds: seq<Directive>, start: Shell, tree: string -> bool,
                                    after: (string, Shell) -> Shell)
    requires ds != [] && Build(start, ds, tree, after).ok
    ensures var before, d := Build(start, ds[..|ds| - 1], tree, after), ds[|ds| - 1];
            && before.ok
            && Rans(Build(start, ds, tree, after).trace) ==
               Rans(before.trace) + if d.Run? then [Ran(d.cmd, before.sh.cwd, before.sh.env)] else []
  {
    hide Rans, Does, Copies;
    var before, d := Build(start, ds[..|ds| - 1], tree, after), ds[|ds| - 1];
    DoesAdds(before, d, tree, after);
    var u := Build(start, ds, tree, after).trace;
    if d.Run? || d.Copy? { TraceSnoc(before.trace, u[|u| - 1]); }
  }

  lemma {:induction false} DirsFollow(m: Machine, d: Directive, tree: string -> bool, after: (string, Shell) -> Shell)
    requires Does(m, d, tree, after).ok && m.ok && (d.Workdir? ==> Inert(d.path))
    ensures Does(m, d, tree, after).sh.cwd == if d.Workdir? then DirOf(m.sh.cwd, d.path) else m.sh.cwd
  {
    hide Expand, EnvMeant, DirOf, PlacedAt, Names, Made, SetAll, Inert;
    if d.Workdir? { InertMeans(d.path, m.sh.env); }
  }

  lemma {:induction false} RanDirs(ds: seq<Directive>, pinned: string -> bool, start: Shell, tree: string -> bool,
                                   after: (string, Shell) -> Shell)
    requires ParseAll(ds, pinned).errors == [] && Build(start, ds, tree, after).ok && PlainDirs(ds, start)
    ensures var p, m := ParseAll(ds, pinned), Build(start, ds, tree, after);
            && m.sh.cwd == Meant(start, p.workdir)
            && |Rans(m.trace)| == |p.runs|
            && forall k :: 0 <= k < |p.runs| ==> Rans(m.trace)[k].cwd == Meant(start, p.runs[k].dir)
    decreases |ds|
  {
    hide Rans, Build, Meant, Resolve, EnvPairs, PlainDirs;
    if ds == [] {
      NothingTraced();
      NoSteps(start, tree, after);
      assert Meant(start, None) == start.cwd by { NoDir(start); }
    } else {
      var init, d := ds[..|ds| - 1], ds[|ds| - 1];
      assert PlainDirs(init, start) by { PlainDirsFront(ds, start); }
      ErrorsStay(ParseAll(init, pinned), d, pinned);
      RansSnoc(ds, start, tree, after);
      RanDirs(init, pinned, start, tree, after);
      BuildDirs(ds, start, tree, after);
      if d.Workdir? { LastDir(ds, pinned, start); }
    }
  }

  lemma {:induction false} BuildDirs(ds: seq<Directive>, start: Shell, tree: string -> bool,
                                     after: (string, Shell) -> Shell)
    requires ds != [] && Build(start, ds, tree, after).ok && PlainDirs(ds, start)
    ensures var before, d := Build(start, ds[..|ds| - 1], tree, after), ds[|ds| - 1];
            Build(start, ds, tree, after).sh.cwd == if d.Workdir? then DirOf(before.sh.cwd, d.path) else before.sh.cwd
  {
    hide Does, DirOf, Inert;
    DoesAdds(Build(start, ds[..|ds| - 1], tree, after), ds[|ds| - 1], tree, after);
    DirsFollow(Build(start, ds[..|ds| - 1], tree, after), ds[|ds| - 1], tree, after);
  }

  lemma {:induction false} LastDir(ds: seq<Directive>, pinned: string -> bool, start: Shell)
    requires ds != [] && ds[|ds| - 1].Workdir? && PlainDirs(ds, start)
    ensures var was, path := ParseAll(ds[..|ds| - 1], pinned).workdir, ds[|ds| - 1].path;
            Meant(start, Some(Resolve(was, path))) == DirOf(Meant(start, was), path)
  {
    hide Meant, Resolve, ParseAll, Inert;
    var init, d := ds[..|ds| - 1], ds[|ds| - 1];
    WorkdirAbsolute(init, pinned);
    if exists j :: 0 <= j < |ds| - 1 && ds[j].Workdir? {
      var j :| 0 <= j < |ds| - 1 && ds[j].Workdir?;
      assert init[j].Workdir?;
      WorkdirSet(init, pinned);
    }
    ResolveMeans(start, ParseAll(init, pinned).workdir, d.path);
  }

  lemma {:induction false} NoDir(start: Shell)
    ensures Meant(start, None) == start.cwd
  {
  }

  lemma {:induction false} PlainDirsFront(ds: seq<Directive>, start: Shell)
    requires ds != [] && PlainDirs(ds, start)
    ensures PlainDirs(ds[..|ds| - 1], start)
  {
    hide Inert;
    var init := ds[..|ds| - 1];
    forall i | 0 <= i < |init| && init[i].Workdir?
      ensures init[i].path != "" && Inert(init[i].path)
      ensures Absolute(init[i].path) || start.cwd == [] || exists j :: 0 <= j < i && init[j].Workdir?
    {
      assert init[i] == ds[i];
      if !Absolute(ds[i].path) && start.cwd != [] {
        var j :| 0 <= j < i && ds[j].Workdir?;
        assert init[j].Workdir?;
      }
    }
  }

  // ----- which environment the commands of a build see -----

  // Every RUN sees the environment `last`.
  ghost predicate EnvSettled(ds: seq<Directive>, start: Shell, tree: string -> bool, after: (string, Shell) -> Shell,
                             last: map<string, string>) {
    forall i :: 0 <= i < |ds| && ds[i].Run? ==> Build(start, ds[..i], tree, after).sh.env == last
  }

  ghost predicate AllSee(rs: seq<Event>, last: map<string, string>) {
    forall k :: 0 <= k < |rs| ==> rs[k].Ran? && rs[k].env == last
  }

  lemma {:induction false} RanEnvs(ds: seq<Directive>, start: Shell, tree: string -> bool,
                                   after: (string, Shell) -> Shell, last: map<string, string>)
    requires Build(start, ds, tree, after).ok
    ensures AllSee(Rans(Build(start, ds, tree, after).trace), last) <==> EnvSettled(ds, start, tree, after, last)
    decreases |ds|
  {
    hide Rans, Build;
    if ds == [] {
      NothingTraced();
      assert Build(start, [], tree, after).trace == [] by { NoSteps(start, tree, after); }
    } else {
      var init, d := ds[..|ds| - 1], ds[|ds| - 1];
      RansSnoc(ds, start, tree, after);
      RanEnvs(init, start, tree, after, last);
      var rs, more := Rans(Build(start, init, tree, after).trace), Rans(Build(start, ds, tree, after).trace);
      assert forall i :: 0 <= i < |init| ==> init[..i] == ds[..i] && init[i] == ds[i];
      var sees := d.Run? ==> Build(start, init, tree, after).sh.env == last;
      assert AllSee(more, last) <==> AllSee(rs, last) && sees by {
        if AllSee(more, last) {
          forall k | 0 <= k < |rs| ensures rs[k].Ran? && rs[k].env == last { assert rs[k] == more[k]; }
          if d.Run? { assert more[|rs|].env == last; }
        }
      }
      assert EnvSettled(ds, start, tree, after, last) <==>
             EnvSettled(init, start, tree, after, last) && sees by {
        if EnvSettled(ds, start, tree, after, last) {
          forall i | 0 <= i < |init| && init[i].Run? ensures Build(start, init[..i], tree, after).sh.env == last {
            assert ds[i].Run?;
          }
        }
      }
    }
  }

  lemma {:induction false} NoSteps(start: Shell, tree: string -> bool, after: (string, Shell) -> Shell)
    ensures Build(start, [], tree, after) == Starting(start)
  {
  }

  // ----- handing over -----

  // The directory is there.
  ghost predicate There(dirs: set<Dir>, dir: string) { Walk(dirs, [], Names(dir)).Some? }

  ghost predicate DirsThere(runs: seq<Step>, dirs: set<Dir>) {
    forall k :: 0 <= k < |runs| && runs[k].dir.Some? ==> There(dirs, runs[k].dir.value)
  }

  // A RUN before any WORKDIR starts where the script does.
  predicate HomeFits(runs: seq<Step>, home: Dir, start: Shell) {
    runs != [] && runs[0].dir.None? ==> home == start.cwd
  }

  // The build's commands run where the parse says, and once a directory is set
  // it stays set.
  ghost predicate Placed(meant: seq<Event>, runs: seq<Step>, start: Shell) {
    && Matches(meant, runs)
    && (forall k :: 0 <= k < |runs| ==> meant[k].cwd == Meant(start, runs[k].dir) && Rooted(runs[k].dir))
    && (forall i, j :: 0 <= i < j < |runs| && runs[i].dir.Some? ==> runs[j].dir.Some?)
  }

  lemma {:induction false} BuildPlaced(ds: seq<Directive>, pinned: string -> bool, start: Shell, tree: string -> bool,
                                       after: (string, Shell) -> Shell)
    requires Parse(ds, pinned).errors == [] && Build(start, ds, tree, after).ok && PlainDirs(ds, start)
    ensures Placed(Rans(Build(start, ds, tree, after).trace), Parse(ds, pinned).runs, start)
  {
    hide Build, ParseAll, Meant, Rans, PlainDirs;
    ErrorFree(ds, pinned);
    RanDirs(ds, pinned, start, tree, after);
    BuildMeans(ds, pinned, start, tree, after);
    WorkdirAbsolute(ds, pinned);
  }

  function Previous(runs: seq<Step>, k: nat): (d: Option<string>)
    requires k < |runs|
  {
    if k == 0 then None else runs[k - 1].dir
  }

  // Moving on is staying, or finding the directory there.
  lemma {:induction false} MovesIff(meant: seq<Event>, runs: seq<Step>, start: Shell, k: nat, found: Shell)
    requires Placed(meant, runs, start) && k < |runs|
    ensures Current(runs[..k]) == Previous(runs, k)
    ensures Moves(found, Current(runs[..k]), runs[k]) == Some(meant[k].cwd) <==>
            if runs[k].dir == Previous(runs, k) then found.cwd == meant[k].cwd
            else There(found.dirs, runs[k].dir.value)
    ensures runs[k].dir != Previous(runs, k) ==> runs[k].dir.Some? && CdTo(runs[k]) == runs[k].dir.value
  {
    hide Walk, Names, Clean;
    assert runs[..k] != [] ==> runs[..k][k - 1] == runs[k - 1];
    if runs[k].dir != Previous(runs, k) && runs[k].dir.Some? {
      var dir := runs[k].dir.value;
      if Walk(found.dirs, [], Names(dir)).Some? { WalkCleans(found.dirs, [], Names(dir)); }
    }
  }

  lemma {:induction false} QuietFound(meant: seq<Event>, k: nat, sh: Shell, after: (string, Shell) -> Shell)
    requires k <= |meant| && forall i :: 0 <= i < |meant| ==> meant[i].Ran?
    requires forall i, sh' :: 0 <= i < |meant| ==> after(meant[i].cmd, sh') == sh'
    ensures FoundAt(meant, k, sh, after) ==
            if k == 0 then sh else Shell(meant[k - 1].cwd, meant[k - 1].env, sh.dirs)
    decreases k
  {
    if k > 0 { QuietFound(meant, k - 1, sh, after); }
  }

  lemma {:induction false} QuietReady(meant: seq<Event>, runs: seq<Step>, k: nat, sh: Shell, start: Shell,
                                      after: (string, Shell) -> Shell)
    requires Placed(meant, runs, start) && k < |runs|
    requires forall i, sh' :: 0 <= i < |meant| ==> after(meant[i].cmd, sh') == sh'
    ensures Ready(meant, runs, k, sh, after) <==>
            && meant[k].env == (if k == 0 then sh.env else meant[k - 1].env)
            && if runs[k].dir != Previous(runs, k) then There(sh.dirs, runs[k].dir.value)
               else k == 0 ==> sh.cwd == start.cwd
  {
    hide There, Moves;
    QuietFound(meant, k, sh, after);
    MovesIff(meant, runs, start, k, FoundAt(meant, k, sh, after));
  }

  lemma {:induction false} QuietHandsOver(meant: seq<Event>, runs: seq<Step>, sh: Shell, start: Shell,
                                          after: (string, Shell) -> Shell)
    requires Placed(meant, runs, start)
    requires forall i, sh' :: 0 <= i < |meant| ==> after(meant[i].cmd, sh') == sh'
    ensures HandsOver(meant, runs, sh, after) <==>
            AllSee(meant, sh.env) && DirsThere(runs, sh.dirs) && HomeFits(runs, sh.cwd, start)
  {
    hide Ready, There, FoundAt, Moves;
    if HandsOver(meant, runs, sh, after) {
      forall k | 0 <= k < |meant|
        ensures meant[k].Ran? && meant[k].env == sh.env
        ensures runs[k].dir.Some? ==> There(sh.dirs, runs[k].dir.value)
      {
        ReadyDown(meant, runs, k, sh, start, after);
      }
      if runs != [] { QuietReady(meant, runs, 0, sh, start, after); }
    }
    if AllSee(meant, sh.env) && DirsThere(runs, sh.dirs) && HomeFits(runs, sh.cwd, start) {
      forall k | 0 <= k < |meant| ensures Ready(meant, runs, k, sh, after) {
        QuietReady(meant, runs, k, sh, start, after);
        MovesIff(meant, runs, start, k, sh);
      }
    }
  }

  lemma {:induction false} ReadyDown(meant: seq<Event>, runs: seq<Step>, k: nat, sh: Shell, start: Shell,
                                     after: (string, Shell) -> Shell)
    requires Placed(meant, runs, start) && HandsOver(meant, runs, sh, after) && k < |runs|
    requires forall i, sh' :: 0 <= i < |meant| ==> after(meant[i].cmd, sh') == sh'
    ensures meant[k].env == sh.env && (runs[k].dir.Some? ==> There(sh.dirs, runs[k].dir.value))
    decreases k
  {
    hide There, Ready;
    QuietReady(meant, runs, k, sh, start, after);
    assert Ready(meant, runs, k, sh, after);
    if k > 0 { ReadyDown(meant, runs, k - 1, sh, start, after); }
  }

  // ----- commands that leave their shells alone -----

  // No command leaves its shell elsewhere, with another environment, or with
  // other directories.
  ghost predicate Quiet(ds: seq<Directive>, after: (string, Shell) -> Shell) {
    forall i, sh :: 0 <= i < |ds| && ds[i].Run? ==> after(ds[i].cmd, sh) == sh
  }

  lemma {:induction false} RanFromRun(ds: seq<Directive>, start: Shell, tree: string -> bool,
                                      after: (string, Shell) -> Shell, k: nat)
    requires Build(start, ds, tree, after).ok && k < |Rans(Build(start, ds, tree, after).trace)|
    ensures exists i :: 0 <= i < |ds| && ds[i].Run? && ds[i].cmd == Rans(Build(start, ds, tree, after).trace)[k].cmd
    decreases |ds|
  {
    hide Rans, Build;
    if ds == [] {
      NothingTraced();
      NoSteps(start, tree, after);
      assert false;
    }
    var init, d := ds[..|ds| - 1], ds[|ds| - 1];
    RansSnoc(ds, start, tree, after);
    var rs := Rans(Build(start, init, tree, after).trace);
    if k < |rs| {
      RanFromRun(init, start, tree, after, k);
      var i :| 0 <= i < |init| && init[i].Run? && init[i].cmd == rs[k].cmd;
      assert ds[i] == init[i];
    } else {
      assert ds[|ds| - 1].Run?;
    }
  }

  // With commands that leave their shells alone and plain WORKDIR lines: the
  // script means the Dockerfile if and only if the Dockerfile can be built, the
  // exports bind, the copies land, no COPY follows a RUN, every RUN already sees
  // the environment that the exports make, and every directory that a RUN is to
  // start in is in the base image or made by a copy.
  lemma {:induction false} LateEnvShows(ds: seq<Directive>, pinned: string -> bool, start: Shell, home: Dir,
                                        tree: string -> bool, after: (string, Shell) -> Shell)
    requires Parse(ds, pinned).errors == [] && Quiet(ds, after) && PlainDirs(ds, start)
    ensures var p, meant := Parse(ds, pinned), Build(start, ds, tree, after);
            var sh := SetUp(start, home, p, tree).sh;
            Faithful(Script(start, home, p, tree, after), meant) <==>
            && meant.ok && Exportable(p.envs) && NoLateCopy(ds)
            && Lands(Copies(meant.trace), start.(cwd := home), p.copies, tree)
            && EnvSettled(ds, start, tree, after, sh.env)
            && DirsThere(p.runs, sh.dirs) && HomeFits(p.runs, home, start)
  {
    hide Script, Build, HandsOver, NoLateCopy, Rans, Copies, Parse, Exportable, Lands, ExportAll, DirsAfter, Faithful,
         PlainDirs, EnvSettled, DirsThere, AllSee;
    var p, meant := Parse(ds, pinned), Build(start, ds, tree, after);
    var sh := SetUp(start, home, p, tree).sh;
    ScriptMeansDockerfile(ds, pinned, start, home, tree, after);
    if meant.ok {
      RanEnvs(ds, start, tree, after, sh.env);
      BuildPlaced(ds, pinned, start, tree, after);
      var rs := Rans(meant.trace);
      forall k, sh' | 0 <= k < |rs| ensures after(rs[k].cmd, sh') == sh' { RanFromRun(ds, start, tree, after, k); }
      QuietHandsOver(rs, p.runs, sh, start, after);
    }
  }

  // ----- commands that do what they like -----

  // The k-th RUN finds the settled environment, and the directory of the one
  // before it or, if a WORKDIR moves it, its own there by then.
  ghost predicate Finds(meant: seq<Event>, runs: seq<Step>, k: nat, sh: Shell, start: Shell,
                        after: (string, Shell) -> Shell)
    requires k < |meant| == |runs| && forall i :: 0 <= i < |meant| ==> meant[i].Ran?
  {
    var found := FoundAt(meant, k, sh, after);
    && found.env == sh.env
    && if runs[k].dir != Previous(runs, k) then There(found.dirs, CdTo(runs[k]))
       else found.cwd == if k == 0 then start.cwd else meant[k - 1].cwd
  }

  lemma {:induction false} SettledReady(meant: seq<Event>, runs: seq<Step>, k: nat, sh: Shell, start: Shell,
                                        after: (string, Shell) -> Shell)
    requires Placed(meant, runs, start) && k < |runs| && AllSee(meant, sh.env)
    ensures Ready(meant, runs, k, sh, after) <==> Finds(meant, runs, k, sh, start, after)
  {
    hide There, Moves;
    MovesIff(meant, runs, start, k, FoundAt(meant, k, sh, after));
  }

  // With the environment settled before the RUNs and plain WORKDIR lines: the
  // script means the Dockerfile if and only if, besides, each command but the
  // last leaves the environment as it found it, and the directory too unless a
  // WORKDIR moves the next one, to a directory that is there by then.
  lemma {:induction false} RunsShareAShell(ds: seq<Directive>, pinned: string -> bool, start: Shell, home: Dir,
                                           tree: string -> bool, after: (string, Shell) -> Shell)
    requires Parse(ds, pinned).errors == [] && PlainDirs(ds, start) && Build(start, ds, tree, after).ok
    requires EnvSettled(ds, start, tree, after, SetUp(start, home, Parse(ds, pinned), tree).sh.env)
    ensures var p, meant := Parse(ds, pinned), Build(start, ds, tree, after);
            var sh, rs := SetUp(start, home, p, tree).sh, Rans(meant.trace);
            && |rs| == |p.runs|
            && (Faithful(Script(start, home, p, tree, after), meant) <==>
                && Exportable(p.envs) && NoLateCopy(ds)
                && Lands(Copies(meant.trace), start.(cwd := home), p.copies, tree)
                && forall k :: 0 <= k < |rs| ==> Finds(rs, p.runs, k, sh, start, after))
  {
    hide Script, Build, NoLateCopy, Rans, Copies, Parse, Exportable, Lands, ExportAll, DirsAfter, Faithful,
         PlainDirs, EnvSettled, AllSee, Finds, Ready;
    var p, meant := Parse(ds, pinned), Build(start, ds, tree, after);
    var sh, rs := SetUp(start, home, p, tree).sh, Rans(meant.trace);
    ScriptMeansDockerfile(ds, pinned, start, home, tree, after);
    RanEnvs(ds, start, tree, after, sh.env);
    BuildPlaced(ds, pinned, start, tree, after);
    forall k | 0 <= k < |rs| ensures Ready(rs, p.runs, k, sh, after) <==> Finds(rs, p.runs, k, sh, start, after) {
      SettledReady(rs, p.runs, k, sh, start, after);
    }
  }

  // ----- commands that stay where they are -----

  // What was run, and where.
  function Commands(t: seq<Event>): (r: seq<(string, Dir)>)
    ensures |r| == |Rans(t)| && forall i :: 0 <= i < |r| ==> r[i] == (Rans(t)[i].cmd, Rans(t)[i].cwd)
  {
    seq(|Rans(t)|, i requires 0 <= i < |Rans(t)| => (Rans(t)[i].cmd, Rans(t)[i].cwd))
  }

  ghost predicate Stays(ds: seq<Directive>, after: (string, Shell) -> Shell) {
    forall i, sh :: 0 <= i < |ds| && ds[i].Run? ==> after(ds[i].cmd, sh).cwd == sh.cwd
  }

  // The first of the commands meant, each in its directory.
  ghost predicate FirstOf(r: seq<Event>, meant: seq<Event>) {
    && |r| <= |meant|
    && forall i :: 0 <= i < |r| ==>
         r[i].Ran? && meant[i].Ran? && r[i].cmd == meant[i].cmd && r[i].cwd == meant[i].cwd
  }

  // Commands that do not move the directory run where they are meant to.
  lemma {:induction false} StaysPut(m: Machine, runs: seq<Step>, meant: seq<Event>, start: Shell,
                                    after: (string, Shell) -> Shell)
    requires m.ok && Placed(meant, runs, start) && HomeFits(runs, m.sh.cwd, start)
    requires forall k, sh :: 0 <= k < |runs| ==> after(runs[k].cmd, sh).cwd == sh.cwd
    ensures var r := Scripted(m, runs, after);
            && |m.trace| <= |r.trace| && r.trace[..|m.trace|] == m.trace
            && (r.ok ==> r.sh.cwd == (if runs == [] then m.sh.cwd else meant[|runs| - 1].cwd))
            && FirstOf(r.trace[|m.trace|..], meant)
            && (r.ok <==> |r.trace| == |m.trace| + |runs|)
    decreases |runs|
  {
    hide Moves, Meant, There, Placed, Current;
    PlacedSizes(meant, runs, start);
    if runs != [] {
      var n := |runs| - 1;
      PlacedFront(meant, runs, start);
      StaysPut(m, runs[..n], meant[..n], start, after);
      var b := Scripted(m, runs[..n], after);
      MovesIff(meant, runs, start, n, b.sh);
      if b.ok && Moves(b.sh, Current(runs[..n]), runs[n]).Some? {
        MovesWhere(meant, runs, start, n, b.sh);
        var e, t := Ran(runs[n].cmd, meant[n].cwd, b.sh.env), Scripted(m, runs, after).trace;
        assert t == b.trace + [e];
        assert t[..|m.trace|] == m.trace && t[|m.trace|..] == b.trace[|m.trace|..] + [e];
        FirstSnoc(b.trace[|m.trace|..], e, meant, n);
      } else {
        FirstLonger(b.trace[|m.trace|..], meant, n);
      }
    }
  }

  lemma {:induction false} PlacedSizes(meant: seq<Event>, runs: seq<Step>, start: Shell)
    requires Placed(meant, runs, start)
    ensures Matches(meant, runs)
  {
  }

  lemma {:induction false} PlacedFront(meant: seq<Event>, runs: seq<Step>, start: Shell)
    requires Placed(meant, runs, start) && runs != []
    ensures |meant| == |runs|
    ensures Placed(meant[..|runs| - 1], runs[..|runs| - 1], start)
  {
    hide Meant;
  }

  lemma {:induction false} FirstSnoc(r: seq<Event>, e: Event, meant: seq<Event>, n: nat)
    requires n < |meant| && FirstOf(r, meant[..n]) && |r| == n
    requires e.Ran? && meant[n].Ran? && e.cmd == meant[n].cmd && e.cwd == meant[n].cwd
    ensures FirstOf(r + [e], meant)
  {
    FirstLonger(r, meant, n);
  }

  lemma {:induction false} FirstLonger(r: seq<Event>, meant: seq<Event>, n: nat)
    requires n <= |meant| && FirstOf(r, meant[..n])
    ensures FirstOf(r, meant)
  {
    assert forall i :: 0 <= i < n ==> meant[..n][i] == meant[i];
  }

  lemma {:induction false} MovesWhere(meant: seq<Event>, runs: seq<Step>, start: Shell, k: nat, found: Shell)
    requires Placed(meant, runs, start) && k < |runs| && Moves(found, Current(runs[..k]), runs[k]).Some?
    requires found.cwd == (if k > 0 then meant[k - 1].cwd else if runs[0].dir.None? then start.cwd else found.cwd)
    ensures Moves(found, Current(runs[..k]), runs[k]) == Some(meant[k].cwd)
  {
    hide Walk, Names, Clean;
    MovesIff(meant, runs, start, k, found);
  }

  // Of commands it is only asked that they not move the directory, and of ENVs
  // and COPYs nothing: until it breaks off, the script runs the commands meant
  // in the order meant, each in the WORKDIR then in force; and it runs them all
  // exactly when it does not break off.
  lemma {:induction false} SameCommands(ds: seq<Directive>, pinned: string -> bool, start: Shell, home: Dir,
                                        tree: string -> bool, after: (string, Shell) -> Shell)
    requires Parse(ds, pinned).errors == [] && Stays(ds, after) && PlainDirs(ds, start)
    requires Build(start, ds, tree, after).ok && HomeFits(Parse(ds, pinned).runs, home, start)
    ensures var p, meant := Parse(ds, pinned), Build(start, ds, tree, after);
            var did := Script(start, home, p, tree, after);
            && Commands(did.trace) <= Commands(meant.trace)
            && (p.runs != [] ==> (did.ok <==> Commands(did.trace) == Commands(meant.trace)))
  {
    hide Script, Build, Rans, Copies, Parse, PlainDirs, SetsUp, Scripted, SetUp, Placed, Commands;
    var p, meant := Parse(ds, pinned), Build(start, ds, tree, after);
    var did, m := Script(start, home, p, tree, after), SetUp(start, home, p, tree);
    ScriptIs(start, home, p, tree, after);
    BuildPlaced(ds, pinned, start, tree, after);
    var rs := Rans(meant.trace);
    PlacedSizes(rs, p.runs, start);
    if SetsUp(start, home, p, tree) {
      forall k, sh | 0 <= k < |p.runs| ensures after(p.runs[k].cmd, sh).cwd == sh.cwd {
        RanFromRun(ds, start, tree, after, k);
      }
      SetUpTrace(start, home, p, tree);
      StaysPut(m, p.runs, rs, start, after);
      forall i | 0 <= i < |m.trace| ensures did.trace[i].Copied? {
        assert did.trace[i] == did.trace[..|m.trace|][i] == m.trace[i];
      }
      SomeCommands(did.trace, |m.trace|, meant.trace);
    } else {
      assert forall i :: 0 <= i < |did.trace| ==> did.trace[i] in did.trace;
      SomeCommands(did.trace, |did.trace|, meant.trace);
    }
  }

  // Copies, and then some of the commands meant.
  lemma {:induction false} SomeCommands(did: seq<Event>, n: nat, meant: seq<Event>)
    requires n <= |did| && (forall i :: 0 <= i < n ==> did[i].Copied?) && FirstOf(did[n..], Rans(meant))
    ensures Commands(did) <= Commands(meant)
    ensures Commands(did) == Commands(meant) <==> |did| - n == |Rans(meant)|
  {
    hide Rans, Copies;
    var c, r := did[..n], did[n..];
    assert did == c + r;
    Sorted(c, r);
    assert Rans(did) == r;
    forall i | 0 <= i < |r| ensures Commands(did)[i] == Commands(meant)[i] {
      assert Commands(did)[i] == (r[i].cmd, r[i].cwd);
    }
  }
}
