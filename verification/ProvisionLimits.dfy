// Ordinary Dockerfiles whose script does something else.
module ProvisionLimits {
  import opened Text
  import opened Decimal
  import opened Quote
  import opened Paths
  import opened Provision
  import opened DockerRead
  import opened ProvisionMachine
  import opened ProvisionProofs

  function Anything(ref: string): (b: bool) { true }

  // ----- a WORKDIR that is not there -----

  // The parse of a Dockerfile of three lines.
  lemma {:induction false} ThreeLines(d: Directive, cmd: string)
    requires cmd != "" && cmd[0] != '[' && (d.Workdir? || d.Env?)
    ensures var p := Parse([From("x"), d, Run(cmd)], Anything);
            p == Parsed([Step(if d.Workdir? then Some(Resolve(None, d.path)) else None, cmd)], [],
                        if d.Env? then EnvPairs(d.text) else [], [],
                        if d.Workdir? then Some(Resolve(None, d.path)) else None, true)
  {
    hide Resolve, EnvPairs;
    var ds := [From("x"), d, Run(cmd)];
    assert ds[..2] == [From("x"), d] && [From("x"), d][..1] == [From("x")] && [From("x")][..0] == [];
    assert ParseAll([], Anything) == START;
    assert "x"[0] == 'x' && !("--platform=" <= "x") && !("[" <= cmd);
    assert ParseAll([From("x")], Anything) == ParseOne(START, From("x"), Anything) == START.(fromSeen := true);
    var two := ParseAll(ds[..2], Anything);
    assert two == ParseOne(START.(fromSeen := true), d, Anything);
    assert [] + (if d.Env? then EnvPairs(d.text) else []) == (if d.Env? then EnvPairs(d.text) else []);
    assert ParseAll(ds, Anything) == ParseOne(two, Run(cmd), Anything);
    assert [] + [Step(two.workdir, cmd)] == [Step(two.workdir, cmd)];
  }

  lemma {:induction false} BuiltThree(start: Shell, d: Directive, cmd: string, tree: string -> bool,
                                      after: (string, Shell) -> Shell)
    ensures Build(start, [From("x"), d, Run(cmd)], tree, after) ==
            Does(Does(Starting(start), d, tree, after), Run(cmd), tree, after)
  {
    hide Expand, EnvMeant;
    var ds := [From("x"), d, Run(cmd)];
    assert ds[..2] == [From("x"), d] && [From("x"), d][..1] == [From("x")] && [From("x")][..0] == [];
    assert Build(start, [], tree, after) == Starting(start);
    assert Build(start, [From("x")], tree, after) == Starting(start);
  }

  // A WORKDIR makes its directory; the script only goes there.  If the base image
  // has it not, the script ends before the command runs.
  lemma {:induction false} MissingWorkdirEnds(dir: string, cmd: string, start: Shell, home: Dir, tree: string -> bool,
                                              after: (string, Shell) -> Shell)
    requires Absolute(dir) && Inert(dir) && Walk(start.dirs, [], Names(dir)).None?
    requires cmd != "" && cmd[0] != '['
    ensures var ds := [From("x"), Workdir(dir), Run(cmd)];
            var p := Parse(ds, Anything);
            var did, meant := Script(start, home, p, tree, after), Build(start, ds, tree, after);
            && p.errors == []
            && meant.ok && meant.trace == [Ran(cmd, DirOf([], dir), start.env)]
            && !did.ok && did.trace == []
  {
    hide Names, Walk, Clean, Made, Expand, RunScript;
    var ds := [From("x"), Workdir(dir), Run(cmd)];
    var p := Parse(ds, Anything);
    ThreeLines(Workdir(dir), cmd);
    BuiltThree(start, Workdir(dir), cmd, tree, after);
    InertMeans(dir, start.env);
    assert p.runs == [Step(Some(dir), cmd)] && p.envs == [] && p.copies == [];
    ScriptIs(start, home, p, tree, after);
    var m := SetUp(start, home, p, tree);
    assert SetsUp(start, home, p, tree);
    assert m.sh == start.(cwd := home) && m.trace == [] && m.ok;
    assert p.runs[..0] == [];
    assert Scripted(m, [], after) == m;
    assert Moves(m.sh, None, p.runs[0]) == None;
    assert Scripted(m, p.runs, after) == m.(ok := false);
  }

  // ----- a quoted ENV value -----

  predicate Plainly(s: string) { s != "" && forall i :: 0 <= i < |s| ==> NameChar(s[i]) }

  // A="x y"
  function Quoted(x: string, y: string): (text: string) { "A=\"" + x + " " + y + "\"" }

  lemma {:induction false} TwoWords(a: string, b: string)
    requires a != "" && b != "" && forall i :: 0 <= i < |a| ==> !IsSpace(a[i])
    requires forall i :: 0 <= i < |b| ==> !IsSpace(b[i])
    ensures Words(a + " " + b) == [a, b]
  {
    var s, rest := a + " " + b, " " + b;
    assert s == a + rest && s[0] == a[0] && TrimLeft(s) == s;
    WordThen(a, rest);
    assert s[|a|..] == rest && rest[1..] == b;
    assert TrimLeft(b) == b && TrimLeft(rest) == b;
    WordThen(b, "");
    assert b + "" == b && b[|b|..] == "" && Words("") == [];
    assert Words(rest) == [b];
    assert [a] + [b] == [a, b];
  }

  // The parser cuts the value at its space, and keeps the quotation marks.
  lemma {:induction false} QuotedParsed(x: string, y: string)
    requires Plainly(x) && Plainly(y)
    ensures EnvPairs(Quoted(x, y)) == [("A", "\"" + x), (y + "\"", "")]
  {
    hide Words;
    var a, b := "A=\"" + x, y + "\"";
    var s := Quoted(x, y);
    assert s == a + " " + b && s == a + (" " + b);
    assert forall c :: c in x || c in y ==> NameChar(c);
    IndexFirst(a, " " + b, ' ');
    assert Partition(s, ' ').0 == a && a[1] == '=';
    TwoWords(a, b);
    var v := "\"" + x;
    assert a == "A" + ("=" + v);
    IndexFirst("A", "=" + v, '=');
    assert a[..1] == "A" && a[2..] == v;
    assert Partition(a, '=') == ("A", v);
    IndexAbsent(b, '=');
    assert Partition(b, '=') == (b, "");
    assert [a, b][1..] == [b] && [b][1..] == [];
    assert PairsOf([]) == [] && PairsOf([b]) == [(b, "")];
  }

  lemma {:induction false} ReachOver(s: string, rest: string, at: Where)
    requires forall i :: 0 <= i < |s| ==> !Quoting(s[i]) && (at == Bare ==> !IsSpace(s[i]))
    ensures Reach(s + rest, at) == |s| + Reach(rest, at)
    decreases |s|
  {
    if s == "" {
      assert s + rest == rest;
    } else {
      assert (s + rest)[0] == s[0] && (s + rest)[1..] == s[1..] + rest;
      ReachOver(s[1..], rest, at);
    }
  }

  lemma {:induction false} ExpandOver(s: string, rest: string, at: Where, env: map<string, string>)
    requires forall i :: 0 <= i < |s| ==> !Marked(s[i])
    ensures Expand(s + rest, at, env) == Then(s, Expand(rest, at, env))
    decreases |s|
  {
    if s == "" {
      assert s + rest == rest;
      assert Expand(rest, at, env).Some? ==> "" + Expand(rest, at, env).value == Expand(rest, at, env).value;
    } else {
      assert (s + rest)[0] == s[0] && (s + rest)[1..] == s[1..] + rest;
      ExpandOver(s[1..], rest, at, env);
      var more := Expand(rest, at, env);
      assert more.Some? ==> [s[0]] + (s[1..] + more.value) == s + more.value;
    }
  }

  predicate Mark(q: string) { |q| == 1 && q[0] == '"' }

  lemma {:induction false} Enclosed(q: string, mid: string, env: map<string, string>)
    requires Mark(q) && forall i :: 0 <= i < |mid| ==> !Marked(mid[i])
    ensures Expand(q + mid + q, Bare, env) == Some(mid)
    ensures Reach(q + mid + q, Bare) == |mid| + 2
  {
    hide Expand, Reach;
    ClosingMark(q, env);
    ExpandOver(mid, q, InDouble, env);
    ReachOver(mid, q, InDouble);
    assert mid + "" == mid;
    OpeningMark(q, mid + q, env);
    assert q + mid + q == q + (mid + q);
  }

  lemma {:induction false} OpeningMark(q: string, rest: string, env: map<string, string>)
    requires Mark(q)
    ensures Expand(q + rest, Bare, env) == Expand(rest, InDouble, env)
    ensures Reach(q + rest, Bare) == 1 + Reach(rest, InDouble)
  {
    assert (q + rest)[0] == '"' && (q + rest)[1..] == rest;
  }

  lemma {:induction false} ClosingMark(q: string, env: map<string, string>)
    requires Mark(q)
    ensures Expand(q, InDouble, env) == Some("") && Reach(q, InDouble) == 1
  {
    hide Expand, Reach;
    NothingLeft(q[1..], env);
    MarkExpands(q, env);
    MarkReaches(q);
  }

  lemma {:induction false} MarkExpands(q: string, env: map<string, string>)
    requires Mark(q)
    ensures Expand(q, InDouble, env) == Expand(q[1..], Bare, env)
  {
    hide Reference, Then;
  }

  lemma {:induction false} MarkReaches(q: string)
    requires Mark(q)
    ensures Reach(q, InDouble) == 1 + Reach(q[1..], Bare)
  {
  }

  lemma {:induction false} NothingLeft(s: string, env: map<string, string>)
    requires |s| == 0
    ensures Expand(s, Bare, env) == Some("") && Reach(s, Bare) == 0
  {
  }

  // A Dockerfile takes it for one variable whose value has a space.
  lemma {:induction false} QuotedMeant(x: string, y: string, env: map<string, string>)
    requires Plainly(x) && Plainly(y)
    ensures EnvMeant(Quoted(x, y), env) == Some([("A", x + " " + y)])
  {
    hide Expand, Reach;
    var s, mid := Quoted(x, y), x + " " + y;
    var v := "\"" + mid + "\"";
    assert s == "A=" + v;
    Enclosed("\"", mid, env);
    ReachOver("A=", v, Bare);
    assert s[..|s|] == s && s[|s|..] == "" && TrimLeft(s) == s && QuotedWords("") == [];
    assert QuotedWords(s) == [s];
    assert s[1] == '=';
    IndexFirst("A", "=" + v, '=');
    assert s == "A" + ("=" + v) && s[..1] == "A" && s[2..] == v;
    InertMeans("A", env);
    assert Pair("A", v, env) == Some(("A", mid));
    assert [s][1..] == [] && Pairs([], env) == Some([]);
    assert [("A", mid)] + [] == [("A", mid)];
  }

  // The second export leaves a quotation open.
  lemma {:induction false} OpenExport(y: string)
    requires Plainly(y)
    ensures !Exports1(Assignment((y + "\"", "")))
  {
    var t, rest := Assignment((y + "\"", "")), "\"=''";
    assert Replaced("") == "" && ShQuote("") == "''";
    assert t == y + rest;
    NameReads(y, rest, "");
    assert rest[1..] == "=''" && "=''"[1..] == "''" && "''"[1..] == "'" && "'"[1..] == "";
    assert ReadWord("'", Double, "" + y + "=" + "'") == None;
    assert ReadWord("''", Double, "" + y + "=") == None;
    assert ReadWord("=''", Double, "" + y) == None;
    assert t[0] == y[0];
  }

  // The build binds A to "x y" and runs the command; the script breaks off at the
  // second export, before any command.
  lemma {:induction false} QuotedEnvEnds(x: string, y: string, start: Shell, home: Dir, tree: string -> bool,
                                         after: (string, Shell) -> Shell)
    requires Plainly(x) && Plainly(y)
    ensures var ds := [From("x"), Env(Quoted(x, y)), Run("true")];
            var p := Parse(ds, Anything);
            var did, meant := Script(start, home, p, tree, after), Build(start, ds, tree, after);
            && p.errors == [] && p.envs == [("A", "\"" + x), (y + "\"", "")]
            && meant.ok && meant.trace == [Ran("true", start.cwd, start.env["A" := x + " " + y])]
            && !did.ok && forall e :: e in did.trace ==> !e.Ran?
  {
    hide EnvPairs, EnvMeant, RunScript, Emit, Quoted, Exports1, Scripted, Parse;
    var ds := [From("x"), Env(Quoted(x, y)), Run("true")];
    var p := Parse(ds, Anything);
    assert "true"[0] == 't';
    ThreeLines(Env(Quoted(x, y)), "true");
    BuiltThree(start, Env(Quoted(x, y)), "true", tree, after);
    QuotedParsed(x, y);
    QuotedMeant(x, y, start.env);
    OnePair(start.env, ("A", x + " " + y));
    ScriptIs(start, home, p, tree, after);
    OpenExport(y);
    assert p.envs[1] == (y + "\"", "");
    assert !Exportable(p.envs);
  }

  lemma {:induction false} OnePair(env: map<string, string>, pair: (string, string))
    ensures SetAll(env, [pair]) == env[pair.0 := pair.1]
  {
    assert [pair][..0] == [] && SetAll(env, []) == env;
  }

  // ----- copies that land elsewhere -----

  // A file copied to a place that ends in a slash lands as meant exactly when
  // that directory is there for the script, is the one meant, and the file's
  // name happens to be its number.
  lemma {:induction false} IntoDirectoryIff(script: Shell, build: Shell, i: nat, source: string, dest: string)
    requires EndsInSlash(dest)
    ensures FileAt(script, i, dest) == Some(PlacedAt(build, source, dest, false)) <==>
            && Walk(script.dirs, Base(script.cwd, dest), Names(dest)).Some?
            && DirOf(script.cwd, dest) == DirOf(build.cwd, dest) && NameOf(source) == Dec(i)
  {
    hide Names, Walk, Clean, Dec;
    var w := Walk(script.dirs, Base(script.cwd, dest), Names(dest));
    if w.Some? {
      WalkCleans(script.dirs, Base(script.cwd, dest), Names(dest));
      var a, b := w.value + [Dec(i)], DirOf(build.cwd, dest) + [NameOf(source)];
      if a == b {
        assert a[..|a| - 1] == w.value && b[..|b| - 1] == DirOf(build.cwd, dest);
        assert a[|a| - 1] == Dec(i) && b[|b| - 1] == NameOf(source);
      }
    }
  }

  lemma {:induction false} TwoLines(source: string, dest: string)
    ensures Parse([From("x"), Copy([source, dest], [])], Anything) ==
            Parsed([], [(source, dest)], [], [], None, true)
  {
    var ds := [From("x"), Copy([source, dest], [])];
    assert ds[..1] == [From("x")] && [From("x")][..0] == [];
    assert ParseAll([], Anything) == START;
    assert "x"[0] == 'x' && !("--platform=" <= "x");
    assert ParseAll([From("x")], Anything) == ParseOne(START, From("x"), Anything) == START.(fromSeen := true);
    assert [] + [(source, dest)] == [(source, dest)];
    assert ParseAll(ds, Anything) == ParseOne(START.(fromSeen := true), ds[1], Anything);
  }

  lemma {:induction false} BuiltTwo(start: Shell, d: Directive, tree: string -> bool, after: (string, Shell) -> Shell)
    ensures Build(start, [From("x"), d], tree, after) == Does(Starting(start), d, tree, after)
  {
    hide Expand, EnvMeant;
    var ds := [From("x"), d];
    assert ds[..1] == [From("x")] && [From("x")][..0] == [];
    assert Build(start, [], tree, after) == Starting(start);
    assert Build(start, [From("x")], tree, after) == Starting(start);
  }

  // So a file copied into a directory of the root that the base image has not
  // gets there in the build, and ends the script.
  lemma {:induction false} SlashCopyEnds(source: string, dest: string, name: string, start: Shell, home: Dir,
                                         tree: string -> bool, after: (string, Shell) -> Shell)
    requires Inert(source) && Inert(dest) && !tree(source)
    requires Absolute(dest) && EndsInSlash(dest) && Names(dest) == [name] && name !in {".", ".."}
    requires [name] !in start.dirs
    ensures var ds := [From("x"), Copy([source, dest], [])];
            var p := Parse(ds, Anything);
            var did, meant := Script(start, home, p, tree, after), Build(start, ds, tree, after);
            && p.errors == [] && meant.ok && meant.trace == [Copied(source, [name, NameOf(source)])] && !did.ok
  {
    hide Names, Expand, RunScript, Emit;
    var ds := [From("x"), Copy([source, dest], [])];
    var p := Parse(ds, Anything);
    TwoLines(source, dest);
    BuiltTwo(start, Copy([source, dest], []), tree, after);
    InertMeans(source, start.env);
    InertMeans(dest, start.env);
    assert Enter([], name) == [name] && [name][1..] == [];
    assert Clean([], [name]) == Clean([name], []) == [name];
    assert [name] + [NameOf(source)] == [name, NameOf(source)];
    ScriptIs(start, home, p, tree, after);
    NotThere(start.(cwd := home), source, dest, name, tree);
    assert LandAt(start.(cwd := home), p.copies, 0, tree) == None;
    assert !AllLand(start.(cwd := home), p.copies, 1, tree);
  }

  lemma {:induction false} NotThere(sh: Shell, source: string, dest: string, name: string, tree: string -> bool)
    requires !tree(source) && Absolute(dest) && EndsInSlash(dest) && Names(dest) == [name] && name !in {".", ".."}
    requires [name] !in sh.dirs
    ensures LandAt(sh, [(source, dest)], 0, tree) == None
  {
    hide Names;
    var copies := [(source, dest)];
    assert Parent([name]) == [] && Made(sh.dirs, [], []) == sh.dirs;
    assert DirsAfter(sh, copies, 0, tree) == sh.dirs;
    assert DirsAfter(sh, copies, 1, tree) == sh.dirs;
    assert Enter([], name) == [name];
    assert Walk(sh.dirs, [], [name]) == None;
  }

  // A directory copied to a relative place without `..` lands as meant exactly
  // when the script starts in the WORKDIR then in force.
  lemma {:induction false} RelativeTreeIff(home: Dir, cwd: Dir, dest: string)
    requires !Absolute(dest) && ".." !in Names(dest)
    ensures DirOf(home, dest) == DirOf(cwd, dest) <==> home == cwd
  {
    hide Clean, Names;
    var below := CleanDown(home, Names(dest));
    assert DirOf(home, dest) == home + below && DirOf(cwd, dest) == cwd + below;
    if home + below == cwd + below {
      assert |home| == |cwd| && home == (home + below)[..|home|] == (cwd + below)[..|cwd|];
    }
  }
}
