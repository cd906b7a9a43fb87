// From the Dockerfile subset to a provision script (scripts/vmf_lib.py and
// scripts/generate.py): what is parsed and what is emitted.
module Provision {
  import opened Text
  import opened Quote

  // ----- one logical line -----

  datatype Directive =
    | From(ref: string)
    | Run(cmd: string)
    | Copy(args: seq<string>, flags: seq<string>)
    | Env(text: string)
    | Workdir(path: string)
    | User(name: string)
    | Ignored
    | Unknown

  const IGNORED: set<string> :=
    {"EXPOSE", "VOLUME", "LABEL", "STOPSIGNAL", "HEALTHCHECK", "ENTRYPOINT", "CMD", "ONBUILD", "SHELL", "MAINTAINER"}

  // str.partition: before and after the first occurrence, if there is one.
  function Partition(s: string, c: char): (r: (string, string)) {
    var i := IndexOf(s, c);
    if i < |s| then (s[..i], s[i + 1..]) else (s, "")
  }

  function PairsOf(words: seq<string>): (r: seq<(string, string)>) {
    if words == [] then [] else [Partition(words[0], '=')] + PairsOf(words[1..])
  }

  // "ENV key rest of the line" or "ENV k=v k=v".
  function EnvPairs(rest: string): (r: seq<(string, string)>) {
    if ' ' in rest && '=' !in Partition(rest, ' ').0
    then [(Partition(rest, ' ').0, Trim(Partition(rest, ' ').1))]
    else PairsOf(Words(rest))
  }

  function Flags(words: seq<string>, flags: bool): (r: seq<string>) {
    if words == [] then []
    else (if ("--" <= words[0]) == flags then [words[0]] else []) + Flags(words[1..], flags)
  }

  function Classify(line: string): (d: Directive) {
    var token := Word(line);
    var word, rest := Upper(token), Trim(line[|token|..]);
    if word == "FROM" then From(rest)
    else if word == "RUN" then Run(rest)
    else if word == "COPY" || word == "ADD" then Copy(Flags(Words(rest), false), Flags(Words(rest), true))
    else if word == "ENV" then Env(rest)
    else if word == "WORKDIR" then Workdir(rest)
    else if word == "USER" then User(rest)
    else if word in IGNORED then Ignored
    else Unknown
  }

  // ----- parsing -----

  datatype Error = MultiStage | NoRef | NoPin | ExecForm | CopyFrom | CopyArity | NotRoot | Unsupported | NoFrom

  datatype Step = Step(dir: Option<string>, cmd: string)

  datatype Parsed = Parsed(
    runs: seq<Step>,
    copies: seq<(string, string)>,
    envs: seq<(string, string)>,
    errors: seq<Error>,
    workdir: Option<string>,
    fromSeen: bool)

  const START: Parsed := Parsed([], [], [], [], None, false)

  // One left-to-right pass of replace("//", "/").
  function Collapse(s: string): (r: string)
    ensures s != "" ==> r != "" && r[0] == s[0]
  {
    if |s| < 2 then s
    else if s[0] == '/' && s[1] == '/' then "/" + Collapse(s[2..])
    else [s[0]] + Collapse(s[1..])
  }

  function Resolve(workdir: Option<string>, path: string): (r: string) {
    if path != "" && path[0] == '/' then path
    else Collapse((if workdir.Some? && workdir.value != "" then workdir.value else "/") + "/" + path)
  }

  // `pinned` says whether images.yaml has a pin for a reference.
  function ParseOne(p: Parsed, d: Directive, pinned: string -> bool): (r: Parsed) {
    match d
    case From(ref0) =>
      if p.fromSeen then p.(errors := p.errors + [MultiStage])
      else
        var ref := if "--platform=" <= ref0 then Trim(Partition(ref0, ' ').1) else ref0;
        if ref == "" then p.(errors := p.errors + [NoRef])
        else p.(errors := if pinned(ref) then p.errors else p.errors + [NoPin], fromSeen := true)
    case Run(cmd) =>
      if "[" <= cmd then p.(errors := p.errors + [ExecForm])
      else p.(runs := p.runs + [Step(p.workdir, cmd)])
    case Copy(args, flags) =>
      if exists f :: f in flags && "--from" <= f then p.(errors := p.errors + [CopyFrom])
      else if |args| != 2 then p.(errors := p.errors + [CopyArity])
      else p.(copies := p.copies + [(args[0], args[1])])
    case Env(text) => p.(envs := p.envs + EnvPairs(text))
    case Workdir(path) => p.(workdir := Some(Resolve(p.workdir, path)))
    case User(name) => if name == "root" || name == "0" then p else p.(errors := p.errors + [NotRoot])
    case Ignored => p
    case Unknown => p.(errors := p.errors + [Unsupported])
  }

  function ParseAll(ds: seq<Directive>, pinned: string -> bool): (r: Parsed) {
    if ds == [] then START else ParseOne(ParseAll(ds[..|ds| - 1], pinned), ds[|ds| - 1], pinned)
  }

  lemma {:induction false} ErrorsStay(p: Parsed, d: Directive, pinned: string -> bool)
    ensures p.errors <= ParseOne(p, d, pinned).errors
  {
  }

  function Parse(ds: seq<Directive>, pinned: string -> bool): (r: Parsed) {
    var p := ParseAll(ds, pinned);
    if p.fromSeen then p else p.(errors := p.errors + [NoFrom])
  }

  // ----- the script -----

  // `Prologue` stands for the fixed opening lines; `Persist` writes the lines it
  // holds to the profile that later shells read.
  datatype Line =
    | Prologue
    | Persist(exports: seq<string>)
    | Export(text: string)
    | MakeDir(word: string)
    | MakeParent(word: string)
    | CopyTree(index: nat, word: string)
    | CopyFile(index: nat, word: string)
    | Cd(word: string)
    | Command(text: string)

  function Assignment(pair: (string, string)): (text: string) { pair.0 + "=" + ShQuote(pair.1) }

  function Assignments(envs: seq<(string, string)>): (r: seq<string>)
    ensures |r| == |envs| && forall i :: 0 <= i < |r| ==> r[i] == Assignment(envs[i])
  {
    seq(|envs|, i requires 0 <= i < |envs| => Assignment(envs[i]))
  }

  function Exports(envs: seq<(string, string)>): (r: seq<Line>) {
    if envs == [] then [] else Exports(envs[..|envs| - 1]) + [Export(Assignment(envs[|envs| - 1]))]
  }

  function InstallLines(i: nat, dest: string, tree: bool): (r: seq<Line>) {
    if tree then [MakeDir(ShQuote(dest)), CopyTree(i, ShQuote(dest))]
    else [MakeParent(ShQuote(dest)), CopyFile(i, ShQuote(dest))]
  }

  // `tree` says of a source whether it is a directory.
  function Installs(copies: seq<(string, string)>, tree: string -> bool): (r: seq<Line>) {
    if copies == [] then []
    else
      var k := |copies| - 1;
      Installs(copies[..k], tree) + InstallLines(k, copies[k].1, tree(copies[k].0))
  }

  // The last directory a `cd` was considered for.
  function Current(runs: seq<Step>): (d: Option<string>) {
    if runs == [] then None else runs[|runs| - 1].dir
  }

  function CdTo(run: Step): (dir: string) { if run.dir.Some? && run.dir.value != "" then run.dir.value else "/" }

  function RunLines(init: seq<Step>, run: Step): (r: seq<Line>) {
    (if run.dir != Current(init) then [Cd(ShQuote(CdTo(run)))] else []) + [Command(run.cmd)]
  }

  function Runs(runs: seq<Step>): (r: seq<Line>) {
    if runs == [] then [] else Runs(runs[..|runs| - 1]) + RunLines(runs[..|runs| - 1], runs[|runs| - 1])
  }

  function Emit(p: Parsed, tree: string -> bool): (r: seq<Line>) {
    [Prologue] + (if p.envs == [] then [] else [Persist(Assignments(p.envs))]) +
    Exports(p.envs) + Installs(p.copies, tree) + Runs(p.runs)
  }

  // ----- the working directory -----

  predicate Rooted(dir: Option<string>) { dir.Some? ==> dir.value != "" && dir.value[0] == '/' }

  lemma {:induction false} ResolveAbsolute(workdir: Option<string>, path: string)
    requires Rooted(workdir)
    ensures Rooted(Some(Resolve(workdir, path)))
  {
  }

  // Once set, the working directory stays set and absolute, for every RUN too.
  lemma {:induction false} WorkdirAbsolute(ds: seq<Directive>, pinned: string -> bool)
    ensures var p := ParseAll(ds, pinned);
            && Rooted(p.workdir)
            && (forall i :: 0 <= i < |p.runs| ==> Rooted(p.runs[i].dir))
            && (Current(p.runs).Some? ==> p.workdir.Some?)
            && (forall i, j :: 0 <= i < j < |p.runs| && p.runs[i].dir.Some? ==> p.runs[j].dir.Some?)
            && (p.workdir.None? ==> forall i :: 0 <= i < |p.runs| ==> p.runs[i].dir.None?)
    decreases |ds|
  {
    if ds != [] {
      WorkdirAbsolute(ds[..|ds| - 1], pinned);
      var p := ParseAll(ds[..|ds| - 1], pinned);
      if ds[|ds| - 1].Workdir? { ResolveAbsolute(p.workdir, ds[|ds| - 1].path); }
    }
  }
}
