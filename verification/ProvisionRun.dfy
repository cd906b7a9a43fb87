// The loops of the provisioner: joining continuation lines, parsing directive
// by directive, and writing the script with one remembered directory.
module ProvisionRun {
  import opened Text
  import opened Quote
  import opened Provision

  // ----- logical lines -----

  // The lines yielded so far and the continuation still open.
  datatype Joined = Joined(lines: seq<string>, pending: string)

  predicate Continues(s: string) { TrimRight(s) != "" && TrimRight(s)[|TrimRight(s)| - 1] == '\\' }

  predicate Yields(s: string) { Trim(s) != "" && Trim(s)[0] != '#' }

  function JoinOne(j: Joined, raw: string): (r: Joined) {
    var pending := j.pending + raw;
    if Continues(pending) then Joined(j.lines, TrimRight(pending)[..|TrimRight(pending)| - 1] + " ")
    else Joined(if Yields(pending) then j.lines + [Trim(pending)] else j.lines, "")
  }

  function Join(raws: seq<string>): (r: Joined) {
    if raws == [] then Joined([], "") else JoinOne(Join(raws[..|raws| - 1]), raws[|raws| - 1])
  }

  method LogicalLines(raws: seq<string>) returns (lines: seq<string>)
    ensures lines == Join(raws).lines
  {
    lines := [];
    var pending := "";
    for i := 0 to |raws|
      invariant Joined(lines, pending) == Join(raws[..i])
    {
      assert raws[..i + 1][..i] == raws[..i];
      pending := pending + raws[i];
      if Continues(pending) {
        pending := TrimRight(pending)[..|TrimRight(pending)| - 1] + " ";
        continue;
      }
      var line := Trim(pending);
      pending := "";
      if line != "" && line[0] != '#' { lines := lines + [line]; }
    }
    assert raws[..|raws|] == raws;
  }

  lemma {:induction false} TrimKeepsEnd(s: string)
    ensures Trim(s) == "" <==> TrimRight(s) == ""
    ensures Trim(s) != "" ==> Trim(s)[|Trim(s)| - 1] == TrimRight(s)[|TrimRight(s)| - 1]
    decreases |s|
  {
    if s != "" && IsSpace(s[0]) {
      TrimKeepsEnd(s[1..]);
      DropFirst(s);
    } else if s != "" {
      assert TrimLeft(s) == s;
    }
  }

  lemma {:induction false} DropFirst(s: string)
    requires s != "" && IsSpace(s[0])
    ensures TrimRight(s) == "" <==> TrimRight(s[1..]) == ""
    ensures TrimRight(s[1..]) != "" ==> TrimRight(s) == [s[0]] + TrimRight(s[1..])
    decreases |s|
  {
    if |s| > 1 && IsSpace(s[|s| - 1]) {
      DropFirst(s[..|s| - 1]);
      assert s[..|s| - 1][1..] == s[1..][..|s[1..]| - 1];
    } else if |s| == 1 {
      assert s[1..] == "" && s[..0] == "";
      assert TrimRight(s) == TrimRight(s[..0]);
    } else {
      assert s == [s[0]] + s[1..];
    }
  }

  // A logical line is trimmed, not blank, not a comment, and never ends in the
  // backslash that would have continued it.
  lemma {:induction false} LinesAreClean(raws: seq<string>)
    ensures forall l :: l in Join(raws).lines ==>
              && l != "" && l[0] != '#' && l[|l| - 1] != '\\'
              && !IsSpace(l[0]) && !IsSpace(l[|l| - 1])
    decreases |raws|
  {
    if raws != [] {
      var init := raws[..|raws| - 1];
      LinesAreClean(init);
      TrimKeepsEnd(Join(init).pending + raws[|raws| - 1]);
    }
  }

  lemma {:induction false} JoinShift(before: seq<string>, j: Joined, raw: string)
    ensures JoinOne(Joined(before + j.lines, j.pending), raw) ==
            Joined(before + JoinOne(j, raw).lines, JoinOne(j, raw).pending)
  {
    hide Continues, Yields, Trim, TrimRight;
    assert before + (j.lines + [Trim(j.pending + raw)]) == (before + j.lines) + [Trim(j.pending + raw)];
  }

  // Where no continuation is open, a Dockerfile reads in two independent parts.
  lemma {:induction false} JoinInParts(a: seq<string>, b: seq<string>)
    requires Join(a).pending == ""
    ensures Join(a + b) == Joined(Join(a).lines + Join(b).lines, Join(b).pending)
    decreases |b|
  {
    hide JoinOne;
    if b == [] {
      assert a + b == a;
    } else {
      assert (a + b)[..|a + b| - 1] == a + b[..|b| - 1];
      JoinInParts(a, b[..|b| - 1]);
      JoinShift(Join(a).lines, Join(b[..|b| - 1]), b[|b| - 1]);
    }
  }

  lemma {:induction false} JoinAlike(a: seq<string>, b: seq<string>, more: seq<string>)
    requires Join(a) == Join(b)
    ensures Join(a + more) == Join(b + more)
    decreases |more|
  {
    hide JoinOne;
    if more == [] {
      assert a + more == a && b + more == b;
    } else {
      var k := |more| - 1;
      assert (a + more)[..|a + more| - 1] == a + more[..k] && (b + more)[..|b + more| - 1] == b + more[..k];
      JoinAlike(a, b, more[..k]);
    }
  }

  lemma {:induction false} JoinTwo(before: seq<string>, x: string, y: string)
    ensures Join(before + [x]) == JoinOne(Join(before), x)
    ensures Join(before + [x, y]) == JoinOne(JoinOne(Join(before), x), y)
  {
    hide JoinOne;
    assert (before + [x])[..|before|] == before;
    assert (before + [x, y])[..|before| + 1] == before + [x];
  }

  lemma {:induction false} Blank(gap: string)
    requires forall i :: 0 <= i < |gap| ==> IsSpace(gap[i])
    ensures TrimRight(gap) == ""
    decreases |gap|
  {
    if gap != "" { Blank(gap[..|gap| - 1]); }
  }

  // A line that ends in a backslash, blanks after it or not, leaves what stood
  // before the backslash, and a space.
  lemma {:induction false} Gathered(j: Joined, a: string, gap: string)
    requires forall i :: 0 <= i < |gap| ==> IsSpace(gap[i])
    ensures JoinOne(j, a + "\\" + gap) == Joined(j.lines, j.pending + a + " ")
  {
    var x := j.pending + a + "\\";
    assert j.pending + (a + "\\" + gap) == x + gap;
    Blank(gap);
    RightOfBoth(x, gap);
    assert x[|x| - 1] == '\\' && TrimRight(x) == x;
    assert x[..|x| - 1] == j.pending + a;
    hide TrimRight, Yields;
  }

  // A continuation reads as one line: what stood before the backslash, a space,
  // and the next line, whatever comes before and after the two.
  lemma {:induction false} ContinuedIsOne(before: seq<string>, a: string, gap: string, b: string, more: seq<string>)
    requires forall i :: 0 <= i < |gap| ==> IsSpace(gap[i])
    ensures Join(before + [a + "\\" + gap, b] + more) == Join(before + [a + " " + b] + more)
  {
    hide JoinOne, Join;
    var j := Join(before);
    Gathered(j, a, gap);
    JoinTwo(before, a + "\\" + gap, b);
    JoinTwo(before, a + " " + b, b);
    SamePending(j, a, b);
    JoinAlike(before + [a + "\\" + gap, b], before + [a + " " + b], more);
  }

  lemma {:induction false} SamePending(j: Joined, a: string, b: string)
    ensures JoinOne(Joined(j.lines, j.pending + a + " "), b) == JoinOne(j, a + " " + b)
  {
    assert j.pending + a + " " + b == j.pending + (a + " " + b);
    hide TrimRight, Trim, Continues, Yields;
  }

  // A line of its own is yielded as its trimmed text, unless it is blank or a
  // comment.
  lemma {:induction false} LineStands(before: seq<string>, line: string)
    requires Join(before).pending == "" && (TrimRight(line) == "" || TrimRight(line)[|TrimRight(line)| - 1] != '\\')
    ensures var text := Trim(line);
            Join(before + [line]) ==
            Joined(Join(before).lines + if text == "" || text[0] == '#' then [] else [text], "")
  {
    hide Trim, TrimRight;
    JoinTwo(before, line, "");
    assert "" + line == line;
    assert Join(before).lines + [] == Join(before).lines;
  }

  lemma {:induction false} RightOfBoth(p: string, raw: string)
    ensures TrimRight(p + raw) == if TrimRight(raw) != "" then p + TrimRight(raw) else TrimRight(p)
    decreases |raw|
  {
    if raw == "" {
      assert p + raw == p;
    } else if IsSpace(raw[|raw| - 1]) {
      RightOfBoth(p, raw[..|raw| - 1]);
      assert (p + raw)[..|p + raw| - 1] == p + raw[..|raw| - 1];
    }
  }

  // A line with text continues by its own last character, whatever is pending.
  lemma {:induction false} TextDecides(p: string, raw: string)
    requires TrimRight(raw) != ""
    ensures Continues(p + raw) <==> Continues(raw)
  {
    RightOfBoth(p, raw);
  }

  // The lines from k on are gathered and never yielded: each of them ends in a
  // backslash or is blank.
  predicate Swallowed(raws: seq<string>, k: nat) {
    && k <= |raws|
    && Join(raws[..k]).pending == ""
    && Join(raws).lines == Join(raws[..k]).lines
    && (forall i :: k <= i < |raws| ==> Continues(Join(raws[..i]).pending + raws[i]))
    && (forall i :: k <= i < |raws| ==> Continues(raws[i]) || TrimRight(raws[i]) == "")
  }

  // A continuation left open at the end of the file is dropped in silence, with
  // every line it had gathered: the file reads as though it had ended at k. A
  // file whose last line has text loses something just when that line ends in a
  // backslash.
  lemma {:induction false} OpenEndIsDropped(raws: seq<string>) returns (k: nat)
    ensures Swallowed(raws, k)
    ensures k < |raws| <==> Join(raws).pending != ""
    ensures raws != [] && TrimRight(raws[|raws| - 1]) != "" ==> (k < |raws| <==> Continues(raws[|raws| - 1]))
    decreases |raws|
  {
    hide TrimRight, Trim, Continues;
    k := |raws|;
    assert raws[..|raws|] == raws;
    if raws != [] {
      var init, last := raws[..|raws| - 1], raws[|raws| - 1];
      if TrimRight(last) != "" { TextDecides(Join(init).pending, last); }
      if Continues(Join(init).pending + last) {
        k := OpenEndIsDropped(init);
        OneMoreSwallowed(raws, k);
      }
    }
  }

  lemma {:induction false} OneMoreSwallowed(raws: seq<string>, k: nat)
    requires raws != [] && Swallowed(raws[..|raws| - 1], k)
    requires Continues(Join(raws[..|raws| - 1]).pending + raws[|raws| - 1])
    ensures Swallowed(raws, k)
  {
    hide TrimRight, Trim, Continues, Yields, JoinOne, Join;
    var init, last := raws[..|raws| - 1], raws[|raws| - 1];
    StillOpen(raws);
    assert raws[..k] == init[..k] && raws[..|raws| - 1] == init;
    if TrimRight(last) != "" { TextDecides(Join(init).pending, last); }
    forall i | k <= i < |raws|
      ensures Continues(Join(raws[..i]).pending + raws[i])
      ensures Continues(raws[i]) || TrimRight(raws[i]) == ""
    {
      if i < |init| { assert raws[..i] == init[..i] && raws[i] == init[i]; }
    }
  }

  lemma {:induction false} StillOpen(raws: seq<string>)
    requires raws != [] && Continues(Join(raws[..|raws| - 1]).pending + raws[|raws| - 1])
    ensures Join(raws).lines == Join(raws[..|raws| - 1]).lines
  {
    hide Continues, Trim, TrimRight, Yields;
  }

  // ----- parsing -----

  function Directives(lines: seq<string>): (ds: seq<Directive>) {
    if lines == [] then [] else Directives(lines[..|lines| - 1]) + [Classify(lines[|lines| - 1])]
  }

  lemma {:induction false} ParseNext(lines: seq<string>, i: nat, pinned: string -> bool)
    requires i < |lines|
    ensures ParseAll(Directives(lines[..i + 1]), pinned) ==
            ParseOne(ParseAll(Directives(lines[..i]), pinned), Classify(lines[i]), pinned)
  {
    assert lines[..i + 1][..i] == lines[..i];
    var ds := Directives(lines[..i]);
    assert (ds + [Classify(lines[i])])[..|ds|] == ds;
  }

  lemma {:induction false} NothingParsed(lines: seq<string>, pinned: string -> bool)
    ensures ParseAll(Directives(lines[..0]), pinned) == Parsed([], [], [], [], None, false)
  {
  }

  method ParseDockerfile(raws: seq<string>, pinned: string -> bool) returns (p: Parsed)
    ensures p == Parse(Directives(Join(raws).lines), pinned)
  {
    hide Classify, Directives, Resolve, ParseAll;
    var lines := LogicalLines(raws);
    var runs: seq<Step>, copies: seq<(string, string)>, envs: seq<(string, string)> := [], [], [];
    var errors: seq<Error>, workdir: Option<string>, fromSeen := [], None, false;
    NothingParsed(lines, pinned);
    for i := 0 to |lines|
      invariant Parsed(runs, copies, envs, errors, workdir, fromSeen) == ParseAll(Directives(lines[..i]), pinned)
    {
      ParseNext(lines, i, pinned);
      match Classify(lines[i]) {
        case From(rest) =>
          if fromSeen { errors := errors + [MultiStage]; continue; }
          var ref := rest;
          if "--platform=" <= ref { ref := Trim(Partition(ref, ' ').1); }
          if ref == "" { errors := errors + [NoRef]; continue; }
          if !pinned(ref) { errors := errors + [NoPin]; }
          fromSeen := true;
        case Run(cmd) =>
          if "[" <= cmd { errors := errors + [ExecForm]; continue; }
          runs := runs + [Step(workdir, cmd)];
        case Copy(args, flags) =>
          if exists f :: f in flags && "--from" <= f { errors := errors + [CopyFrom]; continue; }
          if |args| != 2 { errors := errors + [CopyArity]; continue; }
          copies := copies + [(args[0], args[1])];
        case Env(text) =>
          envs := envs + EnvPairs(text);
        case Workdir(path) =>
          workdir := Some(Resolve(workdir, path));
        case User(name) =>
          if name != "root" && name != "0" { errors := errors + [NotRoot]; }
        case Ignored =>
        case Unknown =>
          errors := errors + [Unsupported];
      }
    }
    assert lines[..|lines|] == lines;
    if !fromSeen { errors := errors + [NoFrom]; }
    p := Parsed(runs, copies, envs, errors, workdir, fromSeen);
  }

  // ----- the script -----

  lemma {:induction false} ExportsNext(envs: seq<(string, string)>, i: nat)
    requires i < |envs|
    ensures Exports(envs[..i + 1]) == Exports(envs[..i]) + [Export(Assignment(envs[i]))]
    ensures Assignments(envs[..i + 1]) == Assignments(envs[..i]) + [Assignment(envs[i])]
  {
    hide Assignment;
    assert envs[..i + 1][..i] == envs[..i];
  }

  lemma {:induction false} InstallsNext(copies: seq<(string, string)>, tree: string -> bool, i: nat)
    requires i < |copies|
    ensures Installs(copies[..i + 1], tree) ==
            Installs(copies[..i], tree) + InstallLines(i, copies[i].1, tree(copies[i].0))
  {
    hide InstallLines;
    assert copies[..i + 1][..i] == copies[..i];
  }

  lemma {:induction false} RunsNext(runs: seq<Step>, i: nat)
    requires i < |runs|
    ensures Runs(runs[..i + 1]) == Runs(runs[..i]) + RunLines(runs[..i], runs[i])
    ensures Current(runs[..i + 1]) == runs[i].dir
  {
    hide RunLines;
    assert runs[..i + 1][..i] == runs[..i];
  }

  method EmitProvision(p: Parsed, tree: string -> bool) returns (lines: seq<Line>)
    ensures lines == Emit(p, tree)
  {
    hide ShQuote, Assignment, Exports, Installs;
    lines := [Prologue];
    if p.envs != [] {
      lines := lines + [Persist(Assignments(p.envs))];
    }
    ghost var head := lines;
    assert lines == head + Exports(p.envs[..0]) by { NoExports(p.envs); }
    for i := 0 to |p.envs|
      invariant lines == head + Exports(p.envs[..i])
    {
      ExportsNext(p.envs, i);
      lines := lines + [Export(Assignment(p.envs[i]))];
    }
    assert p.envs[..|p.envs|] == p.envs;
    head := lines;
    assert lines == head + Installs(p.copies[..0], tree) by { NoInstalls(p.copies, tree); }
    for i := 0 to |p.copies|
      invariant lines == head + Installs(p.copies[..i], tree)
    {
      InstallsNext(p.copies, tree, i);
      var word := ShQuote(p.copies[i].1);
      if tree(p.copies[i].0) {
        lines := lines + [MakeDir(word), CopyTree(i, word)];
      } else {
        lines := lines + [MakeParent(word), CopyFile(i, word)];
      }
    }
    assert p.copies[..|p.copies|] == p.copies;
    lines := AppendRuns(lines, p.runs);
  }

  lemma {:induction false} NoExports(envs: seq<(string, string)>)
    ensures Exports(envs[..0]) == []
  {
  }

  lemma {:induction false} NoInstalls(copies: seq<(string, string)>, tree: string -> bool)
    ensures Installs(copies[..0], tree) == []
  {
  }

  // One remembered directory decides where a `cd` goes.
  method AppendRuns(setup: seq<Line>, runs: seq<Step>) returns (lines: seq<Line>)
    ensures lines == setup + Runs(runs)
  {
    hide ShQuote, Runs, Current, CdTo;
    lines := setup;
    var currentDir: Option<string> := None;
    assert Runs(runs[..0]) == [] && Current(runs[..0]) == None by { NoRuns(runs); }
    for i := 0 to |runs|
      invariant lines == setup + Runs(runs[..i])
      invariant currentDir == Current(runs[..i])
    {
      RunsNext(runs, i);
      if runs[i].dir != currentDir {
        lines := lines + [Cd(ShQuote(CdTo(runs[i])))];
        currentDir := runs[i].dir;
      }
      lines := lines + [Command(runs[i].cmd)];
    }
    assert runs[..|runs|] == runs;
  }

  lemma {:induction false} NoRuns(runs: seq<Step>)
    ensures Runs(runs[..0]) == [] && Current(runs[..0]) == None
  {
  }
}
