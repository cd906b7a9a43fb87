// The generated script does what the Dockerfile says, exactly when its exports
// bind, its copies land where they are meant to, no COPY follows a RUN, and each
// RUN finds the environment and the directory it is to start in.
module ProvisionProofs {
  import opened Text
  import opened Decimal
  import opened Quote
  import opened Paths
  import opened Provision
  import opened DockerRead
  import opened ProvisionMachine

  // ----- what a trace holds -----

  function Rans(t: seq<Event>): (r: seq<Event>)
    ensures forall i :: 0 <= i < |r| ==> r[i].Ran?
  {
    if t == [] then [] else Rans(t[..|t| - 1]) + if t[|t| - 1].Ran? then [t[|t| - 1]] else []
  }

  function Copies(t: seq<Event>): (r: seq<Event>)
    ensures forall i :: 0 <= i < |r| ==> r[i].Copied?
  {
    if t == [] then [] else Copies(t[..|t| - 1]) + if t[|t| - 1].Copied? then [t[|t| - 1]] else []
  }

  lemma {:induction false} TraceSnoc(t: seq<Event>, e: Event)
    ensures Rans(t + [e]) == Rans(t) + if e.Ran? then [e] else []
    ensures Copies(t + [e]) == Copies(t) + if e.Copied? then [e] else []
  {
    assert (t + [e])[..|t|] == t;
  }

  lemma {:induction false} TraceSize(t: seq<Event>)
    ensures |t| == |Copies(t)| + |Rans(t)|
    decreases |t|
  {
    if t != [] { TraceSize(t[..|t| - 1]); }
  }

  lemma {:induction false} Sorted(c: seq<Event>, r: seq<Event>)
    requires forall i :: 0 <= i < |c| ==> c[i].Copied?
    requires forall i :: 0 <= i < |r| ==> r[i].Ran?
    ensures Copies(c + r) == c && Rans(c + r) == r
    decreases |c| + |r|
  {
    hide Copies, Rans;
    if r != [] {
      assert c + r == (c + r[..|r| - 1]) + [r[|r| - 1]];
      Sorted(c, r[..|r| - 1]);
      TraceSnoc(c + r[..|r| - 1], r[|r| - 1]);
    } else if c != [] {
      var init := c[..|c| - 1];
      assert c + r == init + [c[|c| - 1]] && init + [] == init;
      Sorted(init, []);
      TraceSnoc(init, c[|c| - 1]);
    } else {
      NothingTraced();
      assert c + r == [];
    }
  }

  lemma {:induction false} NothingTraced()
    ensures Rans([]) == [] && Copies([]) == []
  {
  }

  // ----- the Dockerfile, in terms of what was parsed -----

  ghost predicate NoLateCopy(ds: seq<Directive>) {
    forall i, j :: 0 <= i < j < |ds| && ds[i].Run? ==> !ds[j].Copy?
  }

  // The build's commands are the parsed RUNs, and it has made as many copies.
  ghost predicate BuildsAs(m: Machine, p: Parsed) {
    && |Copies(m.trace)| == |p.copies|
    && |Rans(m.trace)| == |p.runs|
    && forall k :: 0 <= k < |p.runs| ==> Rans(m.trace)[k].cmd == p.runs[k].cmd
  }

  // What one directive adds to the trace of a build that goes on.
  lemma {:induction false} DoesAdds(m: Machine, d: Directive, tree: string -> bool, after: (string, Shell) -> Shell)
    requires Does(m, d, tree, after).ok
    ensures m.ok
    ensures var t, u := m.trace, Does(m, d, tree, after).trace;
            if d.Run? then u == t + [Ran(d.cmd, m.sh.cwd, m.sh.env)]
            else if d.Copy? then |u| == |t| + 1 && u == t + [u[|t|]] && u[|t|].Copied?
            else u == t
  {
    hide Expand, EnvMeant, DirOf, PlacedAt, WithDir, SetAll, Names;
  }

  lemma {:induction false} DoesMeans(m: Machine, p: Parsed, d: Directive, pinned: string -> bool,
                                     tree: string -> bool, after: (string, Shell) -> Shell)
    requires BuildsAs(m, p) && ParseOne(p, d, pinned).errors == [] && Does(m, d, tree, after).ok
    ensures BuildsAs(Does(m, d, tree, after), ParseOne(p, d, pinned))
  {
    hide Resolve, Rans, Copies, Does, EnvPairs;
    DoesAdds(m, d, tree, after);
    var u := Does(m, d, tree, after).trace;
    if d.Run? || d.Copy? { TraceSnoc(m.trace, u[|u| - 1]); }
  }

  lemma {:induction false} BuildMeans(ds: seq<Directive>, pinned: string -> bool, start: Shell, tree: string -> bool,
                                      after: (string, Shell) -> Shell)
    requires ParseAll(ds, pinned).errors == [] && Build(start, ds, tree, after).ok
    ensures BuildsAs(Build(start, ds, tree, after), ParseAll(ds, pinned))
    decreases |ds|
  {
    hide ParseOne, BuildsAs, Does;
    if ds != [] {
      var init, d := ds[..|ds| - 1], ds[|ds| - 1];
      ErrorsStay(ParseAll(init, pinned), d, pinned);
      DoesAdds(Build(start, init, tree, after), d, tree, after);
      BuildMeans(init, pinned, start, tree, after);
      DoesMeans(Build(start, init, tree, after), ParseAll(init, pinned), d, pinned, tree, after);
    } else {
      NothingBuilt(start);
    }
  }

  lemma {:induction false} NothingBuilt(start: Shell)
    ensures BuildsAs(Starting(start), START)
  {
  }

  // The copies come first in the build exactly when no COPY follows a RUN.
  lemma {:induction false} CopiesFirst(ds: seq<Directive>, start: Shell, tree: string -> bool,
                                       after: (string, Shell) -> Shell)
    requires Build(start, ds, tree, after).ok
    ensures var t := Build(start, ds, tree, after).trace; t == Copies(t) + Rans(t) <==> NoLateCopy(ds)
    ensures Rans(Build(start, ds, tree, after).trace) == [] <==> forall i :: 0 <= i < |ds| ==> !ds[i].Run?
    decreases |ds|
  {
    hide Rans, Copies, Does, NoLateCopy;
    if ds == [] {
      NoLateInEmpty();
      NothingTraced();
    } else {
      var init, d := ds[..|ds| - 1], ds[|ds| - 1];
      DoesAdds(Build(start, init, tree, after), d, tree, after);
      CopiesFirst(init, start, tree, after);
      LateSnoc(ds);
      var t, u := Build(start, init, tree, after).trace, Build(start, ds, tree, after).trace;
      if d.Run? {
        var e := u[|u| - 1];
        TraceSnoc(t, e);
        TraceSize(t);
        assert Copies(t) + (Rans(t) + [e]) == (Copies(t) + Rans(t)) + [e];
        if u == Copies(u) + Rans(u) { assert t == u[..|t|] == (Copies(t) + Rans(t)); }
      } else if d.Copy? {
        var e := u[|u| - 1];
        TraceSnoc(t, e);
        TraceSize(t);
        LateOne(t, e);
      }
    }
  }

  lemma {:induction false} NoLateInEmpty()
    ensures NoLateCopy([])
  {
  }

  lemma {:induction false} LateSnoc(ds: seq<Directive>)
    requires ds != []
    ensures var init, d := ds[..|ds| - 1], ds[|ds| - 1];
            NoLateCopy(ds) <==> NoLateCopy(init) && (d.Copy? ==> forall i :: 0 <= i < |init| ==> !init[i].Run?)
  {
    var init, d := ds[..|ds| - 1], ds[|ds| - 1];
    if NoLateCopy(ds) && d.Copy? {
      forall i | 0 <= i < |init| ensures !init[i].Run? { assert init[i] == ds[i]; }
    }
  }

  // A copy put at the end stands before all runs only if there are none.
  lemma {:induction false} LateOne(t: seq<Event>, e: Event)
    requires e.Copied? && |t| == |Copies(t)| + |Rans(t)|
    ensures t + [e] == (Copies(t) + [e]) + Rans(t) <==> t == Copies(t) + Rans(t) && Rans(t) == []
  {
    hide Rans, Copies;
    var all := (Copies(t) + [e]) + Rans(t);
    if Rans(t) != [] {
      assert all[|t|] == Rans(t)[|Rans(t)| - 1];
      assert (t + [e])[|t|] == e;
    }
    if Rans(t) == [] {
      assert Copies(t) + Rans(t) == Copies(t) && all == Copies(t) + [e];
      if t + [e] == all { assert t == (t + [e])[..|t|] == Copies(t); }
    }
  }

  // ----- the script, in terms of what was parsed -----

  lemma {:induction false} ScriptAppend(m: Machine, a: seq<Line>, b: seq<Line>, copies: seq<(string, string)>,
                                        after: (string, Shell) -> Shell)
    ensures RunScript(m, a + b, copies, after) == RunScript(RunScript(m, a, copies, after), b, copies, after)
    decreases |b|
  {
    hide RunLine;
    if b == [] {
      assert a + b == a;
    } else {
      assert (a + b)[..|a + b| - 1] == a + b[..|b| - 1];
      ScriptAppend(m, a, b[..|b| - 1], copies, after);
    }
  }

  lemma {:induction false} OneLine(m: Machine, l: Line, copies: seq<(string, string)>, after: (string, Shell) -> Shell)
    ensures RunScript(m, [l], copies, after) == RunLine(m, l, copies, after)
  {
    hide RunLine;
    assert [l][..0] == [];
    assert RunScript(m, [], copies, after) == m;
  }

  lemma {:induction false} BrokenOff(m: Machine, ls: seq<Line>, copies: seq<(string, string)>,
                                     after: (string, Shell) -> Shell)
    requires !m.ok
    ensures RunScript(m, ls, copies, after) == m
    decreases |ls|
  {
    if ls != [] { BrokenOff(m, ls[..|ls| - 1], copies, after); }
  }

  lemma {:induction false} QuotedWord(v: string)
    ensures ReadWord(ShQuote(v), Plain, "") == Some((v, ""))
  {
    QuoteReadsBack(v, "");
    assert ShQuote(v) + "" == ShQuote(v);
  }

  // Every export line of the script sets a variable, or sets none and fails not.
  ghost predicate Exportable(envs: seq<(string, string)>) {
    forall i :: 0 <= i < |envs| ==> Exports1(Assignment(envs[i]))
  }

  function ExportAll(env: map<string, string>, envs: seq<(string, string)>): (r: map<string, string>) {
    if envs == [] then env else Exported(ExportAll(env, envs[..|envs| - 1]), Assignment(envs[|envs| - 1]))
  }

  lemma {:induction false} ExportsRun(m: Machine, envs: seq<(string, string)>, copies: seq<(string, string)>,
                                      after: (string, Shell) -> Shell)
    requires m.ok
    ensures var r := RunScript(m, Exports(envs), copies, after);
            && (r.ok <==> Exportable(envs)) && r.trace == m.trace
            && (r.ok ==> r == m.(sh := m.sh.(env := ExportAll(m.sh.env, envs))))
    decreases |envs|
  {
    hide Assignment, Exports1, Exported;
    if envs != [] {
      var init, l := envs[..|envs| - 1], Export(Assignment(envs[|envs| - 1]));
      ExportsRun(m, init, copies, after);
      ScriptAppend(m, Exports(init), [l], copies, after);
      OneLine(RunScript(m, Exports(init), copies, after), l, copies, after);
      assert forall i :: 0 <= i < |init| ==> init[i] == envs[i];
    }
  }

  // The directories there are once the first k copies have made theirs.
  function DirsAfter(sh: Shell, copies: seq<(string, string)>, k: nat, tree: string -> bool): (r: set<Dir>)
    requires k <= |copies|
  {
    if k == 0 then sh.dirs
    else
      var c := copies[k - 1];
      var names := if tree(c.0) then Names(c.1) else Parent(Names(c.1));
      WithDir(sh.(dirs := DirsAfter(sh, copies, k - 1, tree)), c.1, names).dirs
  }

  // Where the script puts the k-th copy; nothing if it fails there.
  function LandAt(sh: Shell, copies: seq<(string, string)>, k: nat, tree: string -> bool): (at: Option<Dir>)
    requires k < |copies|
  {
    if tree(copies[k].0) then Some(DirOf(sh.cwd, copies[k].1))
    else FileAt(sh.(dirs := DirsAfter(sh, copies, k + 1, tree)), k, copies[k].1)
  }

  function Landed(sh: Shell, copies: seq<(string, string)>, n: nat, tree: string -> bool): (t: seq<Event>)
    requires n <= |copies|
    ensures |t| == n && forall k :: 0 <= k < n ==> t[k].Copied?
    ensures forall k :: 0 <= k < n && LandAt(sh, copies, k, tree).Some? ==>
              t[k] == Copied(copies[k].0, LandAt(sh, copies, k, tree).value)
  {
    seq(n, k requires 0 <= k < n =>
      Copied(copies[k].0, match LandAt(sh, copies, k, tree) case Some(at) => at case None => []))
  }

  ghost predicate AllLand(sh: Shell, copies: seq<(string, string)>, n: nat, tree: string -> bool)
    requires n <= |copies|
  {
    forall k :: 0 <= k < n ==> LandAt(sh, copies, k, tree).Some?
  }

  // The machine once n copies have landed.
  function WithCopies(m: Machine, copies: seq<(string, string)>, n: nat, tree: string -> bool): (r: Machine)
    requires n <= |copies|
  {
    m.(sh := m.sh.(dirs := DirsAfter(m.sh, copies, n, tree)), trace := m.trace + Landed(m.sh, copies, n, tree))
  }

  lemma {:induction false} OneInstall(m: Machine, copies: seq<(string, string)>, k: nat, tree: string -> bool,
                                      after: (string, Shell) -> Shell)
    requires m.ok && k < |copies|
    ensures var now := WithCopies(m, copies, k, tree);
            var r := RunScript(now, InstallLines(k, copies[k].1, tree(copies[k].0)), copies, after);
            && (r.ok <==> LandAt(m.sh, copies, k, tree).Some?)
            && (r.ok ==> r == WithCopies(m, copies, k + 1, tree))
            && (!r.ok ==> r.trace == now.trace)
  {
    hide ReadWord, ShQuote, Names, Made, Walk, DirOf;
    var now, dest, t := WithCopies(m, copies, k, tree), copies[k].1, tree(copies[k].0);
    var w := ShQuote(dest);
    QuotedWord(dest);
    var mk, cp := if t then MakeDir(w) else MakeParent(w), if t then CopyTree(k, w) else CopyFile(k, w);
    assert InstallLines(k, dest, t) == [mk] + [cp];
    ScriptAppend(now, [mk], [cp], copies, after);
    OneLine(now, mk, copies, after);
    var made := RunLine(now, mk, copies, after);
    assert made.sh == m.sh.(dirs := DirsAfter(m.sh, copies, k + 1, tree)) && made.ok && made.trace == now.trace;
    OneLine(made, cp, copies, after);
    if LandAt(m.sh, copies, k, tree).Some? {
      var e := Copied(copies[k].0, LandAt(m.sh, copies, k, tree).value);
      assert Landed(m.sh, copies, k + 1, tree) == Landed(m.sh, copies, k, tree) + [e];
      assert m.trace + (Landed(m.sh, copies, k, tree) + [e]) == now.trace + [e];
    }
  }

  lemma {:induction false} InstallsRun(m: Machine, copies: seq<(string, string)>, n: nat, tree: string -> bool,
                                       after: (string, Shell) -> Shell)
    requires m.ok && n <= |copies|
    ensures var r := RunScript(m, Installs(copies[..n], tree), copies, after);
            && (r.ok <==> AllLand(m.sh, copies, n, tree))
            && (r.ok ==> r == WithCopies(m, copies, n, tree))
            && (m.trace == [] ==> forall e :: e in r.trace ==> e.Copied?)
    decreases n
  {
    hide InstallLines, RunLine, LandAt, DirsAfter;
    if n == 0 {
      NoCopies(m, copies, tree);
      assert copies[..0] == [];
    } else {
      var k := n - 1;
      InstallsRun(m, copies, k, tree, after);
      assert copies[..n][..k] == copies[..k];
      var before := RunScript(m, Installs(copies[..k], tree), copies, after);
      var lines := InstallLines(k, copies[k].1, tree(copies[k].0));
      ScriptAppend(m, Installs(copies[..k], tree), lines, copies, after);
      if before.ok {
        OneInstall(m, copies, k, tree, after);
      } else {
        BrokenOff(before, lines, copies, after);
      }
    }
  }

  lemma {:induction false} NoCopies(m: Machine, copies: seq<(string, string)>, tree: string -> bool)
    ensures WithCopies(m, copies, 0, tree) == m
  {
    assert m.trace + [] == m.trace;
  }

  // ----- the runs of the script -----

  // Where a `cd` on change leads, if it is needed and succeeds.
  function Moves(sh: Shell, from: Option<string>, run: Step): (d: Option<Dir>) {
    if run.dir == from then Some(sh.cwd) else Walk(sh.dirs, Base(sh.cwd, CdTo(run)), Names(CdTo(run)))
  }

  function Scripted(m: Machine, runs: seq<Step>, after: (string, Shell) -> Shell): (r: Machine) {
    if runs == [] then m
    else
      var init, run := runs[..|runs| - 1], runs[|runs| - 1];
      var b := Scripted(m, init, after);
      if !b.ok then b
      else
        match Moves(b.sh, Current(init), run)
        case None => b.(ok := false)
        case Some(d) =>
          b.(sh := after(run.cmd, b.sh.(cwd := d)), trace := b.trace + [Ran(run.cmd, d, b.sh.env)])
  }

  lemma {:induction false} OneRun(b: Machine, init: seq<Step>, run: Step, copies: seq<(string, string)>,
                                  after: (string, Shell) -> Shell)
    requires b.ok
    ensures RunScript(b, RunLines(init, run), copies, after) ==
            match Moves(b.sh, Current(init), run)
            case None => b.(ok := false)
            case Some(d) =>
              b.(sh := after(run.cmd, b.sh.(cwd := d)), trace := b.trace + [Ran(run.cmd, d, b.sh.env)])
  {
    hide ReadWord, ShQuote, Names, Walk, Current, CdTo;
    var cmd := Command(run.cmd);
    if run.dir == Current(init) {
      assert RunLines(init, run) == [cmd];
      OneLine(b, cmd, copies, after);
    } else {
      var cd := Cd(ShQuote(CdTo(run)));
      QuotedWord(CdTo(run));
      assert RunLines(init, run) == [cd] + [cmd];
      ScriptAppend(b, [cd], [cmd], copies, after);
      OneLine(b, cd, copies, after);
      OneLine(RunLine(b, cd, copies, after), cmd, copies, after);
    }
  }

  // `cd` is emitted only on change, and that is enough: the lines run every
  // command where its step says, as far as the directories are there.
  lemma {:induction false} RunsRun(m: Machine, runs: seq<Step>, copies: seq<(string, string)>,
                                   after: (string, Shell) -> Shell)
    requires m.ok
    ensures RunScript(m, Runs(runs), copies, after) == Scripted(m, runs, after)
    decreases |runs|
  {
    hide RunLine, RunLines, Moves;
    if runs != [] {
      var init, run := runs[..|runs| - 1], runs[|runs| - 1];
      RunsRun(m, init, copies, after);
      ScriptAppend(m, Runs(init), RunLines(init, run), copies, after);
      var b := Scripted(m, init, after);
      if b.ok {
        OneRun(b, init, run, copies, after);
      } else {
        BrokenOff(b, RunLines(init, run), copies, after);
      }
    }
  }

  // ----- the whole script -----

  function Profile(p: Parsed): (r: seq<string>) { Assignments(p.envs) }

  // The machine when every export is bound and every copy has landed.
  function SetUp(start: Shell, home: Dir, p: Parsed, tree: string -> bool): (r: Machine) {
    var sh := Shell(home, ExportAll(start.env, p.envs), start.dirs);
    WithCopies(Machine(sh, [], true, Profile(p)), p.copies, |p.copies|, tree)
  }

  ghost predicate SetsUp(start: Shell, home: Dir, p: Parsed, tree: string -> bool) {
    Exportable(p.envs) && AllLand(start.(cwd := home), p.copies, |p.copies|, tree)
  }

  // Environment or not, the copies land alike.
  lemma {:induction false} LandAnyEnv(sh: Shell, env: map<string, string>, copies: seq<(string, string)>, k: nat,
                                      tree: string -> bool)
    requires k <= |copies|
    ensures DirsAfter(sh.(env := env), copies, k, tree) == DirsAfter(sh, copies, k, tree)
    decreases k
  {
    hide Names, Made;
    if k > 0 { LandAnyEnv(sh, env, copies, k - 1, tree); }
  }

  lemma {:induction false} Opening(start: Shell, home: Dir, p: Parsed, after: (string, Shell) -> Shell)
    ensures var head := [Prologue] + (if p.envs == [] then [] else [Persist(Assignments(p.envs))]);
            RunScript(Starting(start.(cwd := home)), head, p.copies, after) ==
            Machine(start.(cwd := home), [], true, Profile(p))
  {
    var m := Starting(start.(cwd := home));
    OneLine(m, Prologue, p.copies, after);
    if p.envs == [] {
      assert [Prologue] + [] == [Prologue] && Assignments(p.envs) == [];
    } else {
      ScriptAppend(m, [Prologue], [Persist(Assignments(p.envs))], p.copies, after);
      OneLine(m, Persist(Assignments(p.envs)), p.copies, after);
    }
  }

  lemma {:induction false} ScriptIs(start: Shell, home: Dir, p: Parsed, tree: string -> bool,
                                    after: (string, Shell) -> Shell)
    ensures var did := Script(start, home, p, tree, after);
            && (SetsUp(start, home, p, tree) ==> did == Scripted(SetUp(start, home, p, tree), p.runs, after))
            && (!SetsUp(start, home, p, tree) ==> !did.ok && forall e :: e in did.trace ==> e.Copied?)
  {
    hide RunScript, Exports, Installs, Runs, Exportable, AllLand, WithCopies, Scripted, Assignments;
    var m0 := Starting(start.(cwd := home));
    var head := [Prologue] + (if p.envs == [] then [] else [Persist(Assignments(p.envs))]);
    var c := p.copies;
    ScriptAppend(m0, head + Exports(p.envs) + Installs(c, tree), Runs(p.runs), c, after);
    ScriptAppend(m0, head + Exports(p.envs), Installs(c, tree), c, after);
    ScriptAppend(m0, head, Exports(p.envs), c, after);
    Opening(start, home, p, after);
    var m1 := RunScript(m0, head, c, after);
    ExportsRun(m1, p.envs, c, after);
    var m2 := RunScript(m1, Exports(p.envs), c, after);
    assert c[..|c|] == c;
    if m2.ok {
      InstallsRun(m2, c, |c|, tree, after);
      SameLanding(start.(cwd := home), m2.sh.env, c, tree);
      var m3 := RunScript(m2, Installs(c, tree), c, after);
      if m3.ok { RunsRun(m3, p.runs, c, after); } else { BrokenOff(m3, Runs(p.runs), c, after); }
    } else {
      BrokenOff(m2, Installs(c, tree), c, after);
      BrokenOff(m2, Runs(p.runs), c, after);
    }
  }

  lemma {:induction false} SameLanding(sh: Shell, env: map<string, string>, copies: seq<(string, string)>,
                                       tree: string -> bool)
    ensures AllLand(sh.(env := env), copies, |copies|, tree) <==> AllLand(sh, copies, |copies|, tree)
    ensures forall k :: 0 <= k < |copies| ==> LandAt(sh.(env := env), copies, k, tree) == LandAt(sh, copies, k, tree)
  {
    hide DirsAfter, Walk, Names, DirOf;
    forall k | 0 <= k < |copies| ensures LandAt(sh.(env := env), copies, k, tree) == LandAt(sh, copies, k, tree) {
      LandAnyEnv(sh, env, copies, k + 1, tree);
    }
  }

  // ----- when the two agree -----

  // The shell that the k-th command of a build would find in the script, were
  // all before it started as the build means them to.
  ghost function FoundAt(meant: seq<Event>, k: nat, sh: Shell, after: (string, Shell) -> Shell): (r: Shell)
    requires k <= |meant| && forall i :: 0 <= i < |meant| ==> meant[i].Ran?
  {
    if k == 0 then sh
    else
      var e := meant[k - 1];
      after(e.cmd, FoundAt(meant, k - 1, sh, after).(cwd := e.cwd, env := e.env))
  }

  // It is the one meant, once the script has moved.
  ghost predicate Ready(meant: seq<Event>, runs: seq<Step>, k: nat, sh: Shell, after: (string, Shell) -> Shell)
    requires k < |meant| == |runs| && forall i :: 0 <= i < |meant| ==> meant[i].Ran?
  {
    var found := FoundAt(meant, k, sh, after);
    found.env == meant[k].env && Moves(found, Current(runs[..k]), runs[k]) == Some(meant[k].cwd)
  }

  ghost predicate HandsOver(meant: seq<Event>, runs: seq<Step>, sh: Shell, after: (string, Shell) -> Shell) {
    && |meant| == |runs| && (forall i :: 0 <= i < |meant| ==> meant[i].Ran?)
    && forall k :: 0 <= k < |meant| ==> Ready(meant, runs, k, sh, after)
  }

  ghost predicate Matches(meant: seq<Event>, runs: seq<Step>) {
    && |meant| == |runs|
    && forall k :: 0 <= k < |runs| ==> meant[k].Ran? && meant[k].cmd == runs[k].cmd
  }

  lemma {:induction false} FoundInFront(meant: seq<Event>, k: nat, n: nat, sh: Shell, after: (string, Shell) -> Shell)
    requires k <= n <= |meant| && forall i :: 0 <= i < |meant| ==> meant[i].Ran?
    ensures FoundAt(meant[..n], k, sh, after) == FoundAt(meant, k, sh, after)
    decreases k
  {
    if k > 0 { FoundInFront(meant, k - 1, n, sh, after); }
  }

  lemma {:induction false} HandsOverSnoc(meant: seq<Event>, runs: seq<Step>, sh: Shell, after: (string, Shell) -> Shell)
    requires Matches(meant, runs) && meant != []
    ensures var k := |meant| - 1;
            HandsOver(meant, runs, sh, after) <==>
            HandsOver(meant[..k], runs[..k], sh, after) && Ready(meant, runs, k, sh, after)
  {
    hide Moves, Current, FoundAt;
    var n := |meant| - 1;
    forall k | 0 <= k < n
      ensures Ready(meant, runs, k, sh, after) <==> Ready(meant[..n], runs[..n], k, sh, after)
    {
      FoundInFront(meant, k, n, sh, after);
      assert runs[..n][..k] == runs[..k];
    }
  }

  lemma {:induction false} AsMeant(m: Machine, runs: seq<Step>, meant: seq<Event>, after: (string, Shell) -> Shell)
    requires m.ok && Matches(meant, runs)
    ensures var r := Scripted(m, runs, after);
            && (r.ok && r.trace == m.trace + meant <==> HandsOver(meant, runs, m.sh, after))
            && (r.ok ==> |r.trace| == |m.trace| + |runs| && r.trace[..|m.trace|] == m.trace)
            && (HandsOver(meant, runs, m.sh, after) ==> r.sh == FoundAt(meant, |meant|, m.sh, after))
    decreases |runs|
  {
    hide HandsOver, Moves, Current;
    if runs == [] {
      NothingHandedOver(m.sh, after);
      assert m.trace + meant == m.trace;
    } else {
      var n := |runs| - 1;
      AsMeant(m, runs[..n], meant[..n], after);
      HandsOverSnoc(meant, runs, m.sh, after);
      FoundInFront(meant, n, n, m.sh, after);
      var b := Scripted(m, runs[..n], after);
      assert meant == meant[..n] + [meant[n]];
      if b.ok && Moves(b.sh, Current(runs[..n]), runs[n]).Some? {
        var e := Ran(runs[n].cmd, Moves(b.sh, Current(runs[..n]), runs[n]).value, b.sh.env);
        SnocEqual(b.trace, e, m.trace, meant);
      }
    }
  }

  lemma {:induction false} NothingHandedOver(sh: Shell, after: (string, Shell) -> Shell)
    ensures HandsOver([], [], sh, after)
  {
  }

  lemma {:induction false} SnocEqual(t: seq<Event>, e: Event, front: seq<Event>, meant: seq<Event>)
    requires meant != []
    ensures t + [e] == front + meant <==> t == front + meant[..|meant| - 1] && e == meant[|meant| - 1]
  {
    assert front + meant == (front + meant[..|meant| - 1]) + [meant[|meant| - 1]];
    if t + [e] == front + meant {
      assert t == (t + [e])[..|t|];
      assert e == (t + [e])[|t|];
    }
  }

  lemma {:induction false} ErrorFree(ds: seq<Directive>, pinned: string -> bool)
    requires Parse(ds, pinned).errors == []
    ensures Parse(ds, pinned) == ParseAll(ds, pinned) && ParseAll(ds, pinned).errors == []
  {
  }

  // For every Dockerfile in the subset that can be built, and whatever its
  // commands do to their shell: the script runs the same commands in the same
  // order, directories and environments if and only if its exports bind, its
  // copies do not fail, and every RUN finds what it is to start in.
  lemma {:induction false} RunsMeanDockerfile(ds: seq<Directive>, pinned: string -> bool, start: Shell, home: Dir,
                                              tree: string -> bool, after: (string, Shell) -> Shell)
    requires Parse(ds, pinned).errors == [] && Build(start, ds, tree, after).ok
    ensures var p, meant := Parse(ds, pinned), Build(start, ds, tree, after).trace;
            var did := Script(start, home, p, tree, after);
            && (did.ok ==> did.trace == Copies(did.trace) + Rans(did.trace)
                           && Copies(did.trace) == Landed(start.(cwd := home), p.copies, |p.copies|, tree))
            && (did.ok && Rans(did.trace) == Rans(meant) <==>
                SetsUp(start, home, p, tree) && HandsOver(Rans(meant), p.runs, SetUp(start, home, p, tree).sh, after))
  {
    hide Script, Build, HandsOver, Rans, Copies, SetsUp, Parse, ParseAll, SetUp, Landed;
    ErrorFree(ds, pinned);
    var p, meant := Parse(ds, pinned), Build(start, ds, tree, after).trace;
    ScriptIs(start, home, p, tree, after);
    BuildMeans(ds, pinned, start, tree, after);
    if SetsUp(start, home, p, tree) { SetUpRuns(start, home, p, tree, after, Rans(meant)); }
  }

  // Once set up, the script's trace is its copies and then its runs.
  lemma {:induction false} SetUpRuns(start: Shell, home: Dir, p: Parsed, tree: string -> bool,
                                     after: (string, Shell) -> Shell, rs: seq<Event>)
    requires SetsUp(start, home, p, tree) && Matches(rs, p.runs)
    ensures var did := Script(start, home, p, tree, after);
            && (did.ok ==> did.trace == Copies(did.trace) + Rans(did.trace)
                           && Copies(did.trace) == Landed(start.(cwd := home), p.copies, |p.copies|, tree))
            && (did.ok && Rans(did.trace) == rs <==> HandsOver(rs, p.runs, SetUp(start, home, p, tree).sh, after))
  {
    hide Script, Scripted, HandsOver, Rans, Copies, SetsUp, SetUp, Landed;
    var m, did := SetUp(start, home, p, tree), Script(start, home, p, tree, after);
    ScriptIs(start, home, p, tree, after);
    SetUpTrace(start, home, p, tree);
    AsMeant(m, p.runs, rs, after);
    if did.ok {
      ScriptedRuns(m, p.runs, after);
      var c, r := did.trace[..|m.trace|], did.trace[|m.trace|..];
      assert did.trace == c + r;
      Sorted(c, r);
      if did.trace == m.trace + rs { assert r == rs; }
    }
  }

  lemma {:induction false} SetUpTrace(start: Shell, home: Dir, p: Parsed, tree: string -> bool)
    ensures SetUp(start, home, p, tree).ok && SetUp(start, home, p, tree).sh.cwd == home
    ensures SetUp(start, home, p, tree).trace == Landed(start.(cwd := home), p.copies, |p.copies|, tree)
  {
    hide LandAt, DirsAfter;
    SameLanding(start.(cwd := home), ExportAll(start.env, p.envs), p.copies, tree);
    var sh := start.(cwd := home, env := ExportAll(start.env, p.envs));
    var a, b := Landed(sh, p.copies, |p.copies|, tree), Landed(start.(cwd := home), p.copies, |p.copies|, tree);
    assert [] + a == a;
    forall k | 0 <= k < |p.copies| ensures a[k] == b[k] {
    }
  }

  lemma {:induction false} ScriptedRuns(m: Machine, runs: seq<Step>, after: (string, Shell) -> Shell)
    requires m.ok
    ensures var r := Scripted(m, runs, after);
            && |m.trace| <= |r.trace| <= |m.trace| + |runs| && r.trace[..|m.trace|] == m.trace
            && (r.ok ==> |r.trace| == |m.trace| + |runs|)
            && forall i :: |m.trace| <= i < |r.trace| ==>
                 r.trace[i].Ran? && r.trace[i].cmd == runs[i - |m.trace|].cmd
    decreases |runs|
  {
    hide Moves, Current;
    if runs != [] { ScriptedRuns(m, runs[..|runs| - 1], after); }
  }

  // The k-th copy lands, from the source and in the place the build means.
  ghost predicate Lands(meant: seq<Event>, sh: Shell, copies: seq<(string, string)>, tree: string -> bool) {
    && |meant| == |copies|
    && forall k :: 0 <= k < |copies| ==>
         LandAt(sh, copies, k, tree).Some? && meant[k] == Copied(copies[k].0, LandAt(sh, copies, k, tree).value)
  }

  // And the whole script means the Dockerfile if and only if, besides, the
  // Dockerfile can be built, every copy lands where it is meant to, and no COPY
  // follows a RUN.
  lemma {:induction false} ScriptMeansDockerfile(ds: seq<Directive>, pinned: string -> bool, start: Shell, home: Dir,
                                                 tree: string -> bool, after: (string, Shell) -> Shell)
    requires Parse(ds, pinned).errors == []
    ensures var p, meant := Parse(ds, pinned), Build(start, ds, tree, after);
            Faithful(Script(start, home, p, tree, after), meant) <==>
            && meant.ok && Exportable(p.envs) && NoLateCopy(ds)
            && Lands(Copies(meant.trace), start.(cwd := home), p.copies, tree)
            && HandsOver(Rans(meant.trace), p.runs, SetUp(start, home, p, tree).sh, after)
  {
    hide Script, Build, HandsOver, NoLateCopy, Rans, Copies, Parse, ParseAll, SetUp, Exportable, LandAt;
    var p, meant := Parse(ds, pinned), Build(start, ds, tree, after);
    var did, sh := Script(start, home, p, tree, after), start.(cwd := home);
    if meant.ok {
      ErrorFree(ds, pinned);
      RunsMeanDockerfile(ds, pinned, start, home, tree, after);
      ScriptIs(start, home, p, tree, after);
      CopiesFirst(ds, start, tree, after);
      BuildMeans(ds, pinned, start, tree, after);
      var l := Landed(sh, p.copies, |p.copies|, tree);
      if SetsUp(start, home, p, tree) {
        assert Lands(Copies(meant.trace), sh, p.copies, tree) <==> Copies(meant.trace) == l by {
          LandsIs(Copies(meant.trace), sh, p.copies, tree);
        }
      }
    }
  }

  lemma {:induction false} LandsIs(meant: seq<Event>, sh: Shell, copies: seq<(string, string)>, tree: string -> bool)
    requires AllLand(sh, copies, |copies|, tree) && |meant| == |copies|
    ensures Lands(meant, sh, copies, tree) <==> meant == Landed(sh, copies, |copies|, tree)
  {
    hide LandAt;
  }
}
