// Plain Dockerfiles, whose lines stand for themselves: what the comparison comes
// to when it can be read off the text.
module ProvisionPlain {
  import opened Text
  import opened Decimal
  import opened Quote
  import opened Paths
  import opened Provision
  import opened DockerRead
  import opened EnvLines
  import opened ProvisionMachine
  import opened ProvisionProofs
  import opened ProvisionCases

  // A line that means what the parser takes it for.
  predicate PlainLine(d: Directive) {
    match d
    case Run(cmd) => cmd != ""
    case Env(text) => Trim(text) == text && PlainEnv(text)
    case Copy(args, flags) => |args| == 2 ==> Inert(args[0]) && Inert(args[1])
    case Workdir(path) => path != "" && Inert(path)
    case _ => true
  }

  predicate PlainLines(ds: seq<Directive>) { forall i :: 0 <= i < |ds| ==> PlainLine(ds[i]) }

  ghost predicate SettableKeys(envs: seq<(string, string)>) {
    forall i :: 0 <= i < |envs| ==> Settable(envs[i].0)
  }

  // ----- exports that bind -----

  lemma {:induction false} ExportBinds(env: map<string, string>, pair: (string, string))
    requires Settable(pair.0)
    ensures Exports1(Assignment(pair)) && Exported(env, Assignment(pair)) == env[pair.0 := pair.1]
  {
    hide ShQuote, Assign;
    AssignIff(pair.0, pair.1);
    assert Assignment(pair)[0] == pair.0[0];
  }

  lemma {:induction false} ExportsBind(env: map<string, string>, envs: seq<(string, string)>)
    requires SettableKeys(envs)
    ensures Exportable(envs) && ExportAll(env, envs) == SetAll(env, envs)
    decreases |envs|
  {
    hide Assignment, Exports1, Exported, Settable;
    if envs != [] {
      var init, last := envs[..|envs| - 1], envs[|envs| - 1];
      assert forall i :: 0 <= i < |init| ==> init[i] == envs[i];
      ExportsBind(env, init);
      ExportBinds(ExportAll(env, init), last);
    }
  }

  lemma {:induction false} SetAllAppend(env: map<string, string>, a: seq<(string, string)>, b: seq<(string, string)>)
    ensures SetAll(env, a + b) == SetAll(SetAll(env, a), b)
    decreases |b|
  {
    if b == [] {
      assert a + b == a;
    } else {
      assert (a + b)[..|a + b| - 1] == a + b[..|b| - 1];
      SetAllAppend(env, a, b[..|b| - 1]);
    }
  }

  // ----- the profile -----

  // What a later shell has in its environment once it has read these lines.
  function Sourced(env: map<string, string>, lines: seq<string>): (r: map<string, string>) {
    if lines == [] then env else Exported(Sourced(env, lines[..|lines| - 1]), lines[|lines| - 1])
  }

  lemma {:induction false} SourcedIs(env: map<string, string>, envs: seq<(string, string)>)
    ensures Sourced(env, Assignments(envs)) == ExportAll(env, envs)
    decreases |envs|
  {
    hide Assignment, Exported;
    if envs != [] {
      var init := envs[..|envs| - 1];
      SourcedIs(env, init);
      assert Assignments(envs)[..|envs| - 1] == Assignments(init);
    }
  }

  lemma {:induction false} RunsKeepProfile(m: Machine, runs: seq<Step>, after: (string, Shell) -> Shell)
    ensures Scripted(m, runs, after).profile == m.profile
    decreases |runs|
  {
    hide Moves, Current;
    if runs != [] { RunsKeepProfile(m, runs[..|runs| - 1], after); }
  }

  // A script that comes to its end leaves a profile from which every later shell
  // has the ENVs of the Dockerfile, the last value of each, as their keys can be
  // set.
  lemma {:induction false} LaterShellsSee(start: Shell, home: Dir, p: Parsed, tree: string -> bool,
                                          after: (string, Shell) -> Shell, env: map<string, string>)
    requires Script(start, home, p, tree, after).ok && SettableKeys(p.envs)
    ensures Sourced(env, Script(start, home, p, tree, after).profile) == SetAll(env, p.envs)
  {
    hide Script, SetsUp, Exports1, SettableKeys, Exportable, Scripted;
    ScriptIs(start, home, p, tree, after);
    RunsKeepProfile(SetUp(start, home, p, tree), p.runs, after);
    SourcedIs(env, p.envs);
    ExportsBind(env, p.envs);
  }

  // ----- plain Dockerfiles can be built -----

  lemma {:induction false} PlainDoes(m: Machine, d: Directive, pinned: string -> bool, p: Parsed, tree: string -> bool,
                                     after: (string, Shell) -> Shell)
    requires m.ok && PlainLine(d) && ParseOne(p, d, pinned).errors == []
    ensures Does(m, d, tree, after).ok
    ensures Does(m, d, tree, after).sh.env == if d.Env? then SetAll(m.sh.env, EnvPairs(d.text)) else m.sh.env
    ensures d.Copy? ==> |d.args| == 2
    ensures d.Copy? ==>
              var at := PlacedAt(m.sh, d.args[0], d.args[1], tree(d.args[0]));
              Does(m, d, tree, after).trace == m.trace + [Copied(d.args[0], at)]
  {
    hide Expand, EnvMeant, PlainEnv, Inert, DirOf, PlacedAt, WithDir, SetAll, Names, EnvPairs;
    match d {
      case Env(text) => PlainMeant(text, m.sh.env);
      case Copy(args, flags) =>
        InertMeans(args[0], m.sh.env);
        InertMeans(args[1], m.sh.env);
      case Workdir(path) => InertMeans(path, m.sh.env);
      case _ =>
    }
    if d.Workdir? || d.Copy? { DirOnly(m, d, tree, after); }
  }

  lemma {:induction false} DirOnly(m: Machine, d: Directive, tree: string -> bool, after: (string, Shell) -> Shell)
    requires d.Workdir? || d.Copy?
    ensures Does(m, d, tree, after).sh.env == m.sh.env
  {
    hide Expand, DirOf, PlacedAt, Names, Made;
  }

  lemma {:induction false} PlainBuilds(ds: seq<Directive>, pinned: string -> bool, start: Shell, tree: string -> bool,
                                       after: (string, Shell) -> Shell)
    requires ParseAll(ds, pinned).errors == [] && PlainLines(ds)
    ensures Build(start, ds, tree, after).ok
    ensures Build(start, ds, tree, after).sh.env == SetAll(start.env, ParseAll(ds, pinned).envs)
    decreases |ds|
  {
    hide Does, ParseOne, SetAll, PlainLine;
    if ds == [] {
      assert SetAll(start.env, []) == start.env by { NoPairs(start.env); }
    } else {
      var init, d := ds[..|ds| - 1], ds[|ds| - 1];
      assert forall i :: 0 <= i < |init| ==> init[i] == ds[i];
      ErrorsStay(ParseAll(init, pinned), d, pinned);
      PlainBuilds(init, pinned, start, tree, after);
      PlainDoes(Build(start, init, tree, after), d, pinned, ParseAll(init, pinned), tree, after);
      EnvsGrow(ParseAll(init, pinned), d, pinned);
      if d.Env? { SetAllAppend(start.env, ParseAll(init, pinned).envs, EnvPairs(d.text)); }
    }
  }

  lemma {:induction false} NoPairs(env: map<string, string>)
    ensures SetAll(env, []) == env
  {
  }

  lemma {:induction false} EnvsGrow(p: Parsed, d: Directive, pinned: string -> bool)
    ensures ParseOne(p, d, pinned).envs == if d.Env? then p.envs + EnvPairs(d.text) else p.envs
  {
    hide EnvPairs, Resolve;
  }

  // ----- ENVs before RUNs -----

  lemma {:induction false} EnvStands(ds: seq<Directive>, start: Shell, tree: string -> bool,
                                     after: (string, Shell) -> Shell, i: nat, n: nat)
    requires i <= n <= |ds| && forall j :: i <= j < n ==> !ds[j].Env?
    ensures Build(start, ds[..i], tree, after).sh.env == Build(start, ds[..n], tree, after).sh.env
    decreases n
  {
    hide Does;
    if i < n {
      EnvStands(ds, start, tree, after, i, n - 1);
      assert ds[..n][..n - 1] == ds[..n - 1];
      EnvOnly(Build(start, ds[..n - 1], tree, after), ds[n - 1], tree, after);
    }
  }

  lemma {:induction false} EnvOnly(m: Machine, d: Directive, tree: string -> bool, after: (string, Shell) -> Shell)
    requires !d.Env?
    ensures Does(m, d, tree, after).sh.env == m.sh.env
  {
    hide Expand, DirOf, PlacedAt, Names, Made, EnvMeant;
  }

  // Plain lines, keys that can be set and no ENV after a RUN: the exports bind,
  // and every RUN already sees what they make.
  lemma {:induction false} EnvsFirst(ds: seq<Directive>, pinned: string -> bool, start: Shell, home: Dir,
                                     tree: string -> bool, after: (string, Shell) -> Shell)
    requires Parse(ds, pinned).errors == [] && PlainLines(ds) && SettableKeys(Parse(ds, pinned).envs)
    requires forall i, j :: 0 <= i < j < |ds| && ds[i].Run? ==> !ds[j].Env?
    ensures Build(start, ds, tree, after).ok && Exportable(Parse(ds, pinned).envs)
    ensures EnvSettled(ds, start, tree, after, SetUp(start, home, Parse(ds, pinned), tree).sh.env)
  {
    hide Build, PlainLines, SettableKeys, Exportable, ExportAll, SetAll, DirsAfter, Parse, ParseAll;
    ErrorFree(ds, pinned);
    var p := Parse(ds, pinned);
    PlainBuilds(ds, pinned, start, tree, after);
    ExportsBind(start.env, p.envs);
    forall i | 0 <= i < |ds| && ds[i].Run?
      ensures Build(start, ds[..i], tree, after).sh.env == SetUp(start, home, p, tree).sh.env
    {
      assert ds[..|ds|] == ds;
      EnvStands(ds, start, tree, after, i, |ds|);
    }
  }

  // ----- copies that land -----

  // Every COPY takes a directory to an absolute place.
  ghost predicate TreesOnly(copies: seq<(string, string)>, tree: string -> bool) {
    forall k :: 0 <= k < |copies| ==> tree(copies[k].0) && Absolute(copies[k].1)
  }

  ghost predicate CopiedTo(es: seq<Event>, copies: seq<(string, string)>) {
    && |es| == |copies|
    && forall k :: 0 <= k < |copies| ==> es[k] == Copied(copies[k].0, DirOf([], copies[k].1))
  }

  lemma {:induction false} TreesPlaced(ds: seq<Directive>, pinned: string -> bool, start: Shell, tree: string -> bool,
                                       after: (string, Shell) -> Shell)
    requires ParseAll(ds, pinned).errors == [] && PlainLines(ds) && TreesOnly(ParseAll(ds, pinned).copies, tree)
    ensures CopiedTo(Copies(Build(start, ds, tree, after).trace), ParseAll(ds, pinned).copies)
    decreases |ds|
  {
    hide Does, ParseOne, PlainLine, Copies, DirOf, Absolute;
    if ds == [] {
      NothingTraced();
    } else {
      var init, d := ds[..|ds| - 1], ds[|ds| - 1];
      assert forall i :: 0 <= i < |init| ==> init[i] == ds[i];
      var before, p := Build(start, init, tree, after), ParseAll(init, pinned);
      ErrorsStay(p, d, pinned);
      CopiesGrow(p, d, pinned);
      TreesFront(p.copies, ParseAll(ds, pinned).copies, tree);
      TreesPlaced(init, pinned, start, tree, after);
      PlainBuilds(init, pinned, start, tree, after);
      PlainDoes(before, d, pinned, p, tree, after);
      DoesAdds(before, d, tree, after);
      var u := Build(start, ds, tree, after).trace;
      if d.Run? || d.Copy? { TraceSnoc(before.trace, u[|u| - 1]); }
      if d.Copy? {
        assert ParseAll(ds, pinned).copies[|p.copies|] == (d.args[0], d.args[1]);
        assert PlacedAt(before.sh, d.args[0], d.args[1], true) == DirOf([], d.args[1]) by {
          AbsoluteDir(before.sh.cwd, d.args[1]);
        }
      }
    }
  }

  lemma {:induction false} AbsoluteDir(cwd: Dir, path: string)
    requires Absolute(path)
    ensures DirOf(cwd, path) == DirOf([], path)
  {
  }

  lemma {:induction false} CopiesGrow(p: Parsed, d: Directive, pinned: string -> bool)
    requires ParseOne(p, d, pinned).errors == []
    ensures d.Copy? ==> |d.args| == 2
    ensures ParseOne(p, d, pinned).copies == if d.Copy? then p.copies + [(d.args[0], d.args[1])] else p.copies
  {
    hide EnvPairs, Resolve;
  }

  lemma {:induction false} TreesFront(some: seq<(string, string)>, all: seq<(string, string)>, tree: string -> bool)
    requires some <= all && TreesOnly(all, tree)
    ensures TreesOnly(some, tree)
  {
    hide Absolute;
    assert forall k :: 0 <= k < |some| ==> some[k] == all[k];
  }

  // Directories copied to absolute places land where they are meant to.
  lemma {:induction false} TreesLand(ds: seq<Directive>, pinned: string -> bool, start: Shell, home: Dir,
                                     tree: string -> bool, after: (string, Shell) -> Shell)
    requires Parse(ds, pinned).errors == [] && PlainLines(ds) && TreesOnly(Parse(ds, pinned).copies, tree)
    ensures Lands(Copies(Build(start, ds, tree, after).trace), start.(cwd := home), Parse(ds, pinned).copies, tree)
  {
    hide Build, PlainLines, Parse, ParseAll, Copies, DirOf, DirsAfter;
    ErrorFree(ds, pinned);
    TreesPlaced(ds, pinned, start, tree, after);
    var p := Parse(ds, pinned);
    forall k | 0 <= k < |p.copies|
      ensures LandAt(start.(cwd := home), p.copies, k, tree) == Some(DirOf([], p.copies[k].1))
    {
      AbsoluteDir(home, p.copies[k].1);
    }
  }

  lemma {:induction false} DirsGrow(sh: Shell, copies: seq<(string, string)>, k: nat, n: nat, tree: string -> bool)
    requires k <= n <= |copies|
    ensures DirsAfter(sh, copies, k, tree) <= DirsAfter(sh, copies, n, tree)
    decreases n
  {
    hide Names;
    if k < n { DirsGrow(sh, copies, k, n - 1, tree); }
  }

  // A directory copied to an absolute place is there for the RUNs.
  lemma {:induction false} CopyMakesDir(sh: Shell, copies: seq<(string, string)>, k: nat, tree: string -> bool)
    requires k < |copies| && tree(copies[k].0) && Absolute(copies[k].1)
    ensures There(DirsAfter(sh, copies, |copies|, tree), copies[k].1)
  {
    hide Names, Walk, Made;
    var before, names := DirsAfter(sh, copies, k, tree), Names(copies[k].1);
    MadeWalks(before, [], names);
    assert DirsAfter(sh, copies, k + 1, tree) == Made(before, [], names);
    DirsGrow(sh, copies, k + 1, |copies|, tree);
    WalkMore(Made(before, [], names), DirsAfter(sh, copies, |copies|, tree), [], names);
  }

  // A plain Dockerfile with its ENVs before its RUNs, its COPYs taking
  // directories to absolute places, and commands that leave their shells alone:
  // the script means it if and only if no COPY follows a RUN and every directory
  // that a WORKDIR gives a RUN is in the base image or made by a copy.
  lemma {:induction false} PlainDockerfile(ds: seq<Directive>, pinned: string -> bool, start: Shell, home: Dir,
                                           tree: string -> bool, after: (string, Shell) -> Shell)
    requires Parse(ds, pinned).errors == [] && PlainLines(ds) && PlainDirs(ds, start) && Quiet(ds, after)
    requires SettableKeys(Parse(ds, pinned).envs) && TreesOnly(Parse(ds, pinned).copies, tree)
    requires forall i, j :: 0 <= i < j < |ds| && ds[i].Run? ==> !ds[j].Env?
    requires HomeFits(Parse(ds, pinned).runs, home, start)
    ensures var p := Parse(ds, pinned);
            Faithful(Script(start, home, p, tree, after), Build(start, ds, tree, after)) <==>
            NoLateCopy(ds) && DirsThere(p.runs, DirsAfter(start.(cwd := home), p.copies, |p.copies|, tree))
  {
    hide Build, PlainLines, Parse, Copies, DirsAfter, Faithful, Script, NoLateCopy, DirsThere, EnvSettled, Lands,
         Exportable, SettableKeys, TreesOnly, PlainDirs;
    var p := Parse(ds, pinned);
    EnvsFirst(ds, pinned, start, home, tree, after);
    TreesLand(ds, pinned, start, home, tree, after);
    LateEnvShows(ds, pinned, start, home, tree, after);
    LandAnyEnv(start.(cwd := home), ExportAll(start.env, p.envs), p.copies, |p.copies|, tree);
  }
}
