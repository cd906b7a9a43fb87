// What a provision script does and what a Dockerfile means: the same traces of
// commands and copies, over directories that exist or do not.
module ProvisionMachine {
  import opened Text
  import opened Decimal
  import opened Quote
  import opened Paths
  import opened Provision
  import opened DockerRead

  datatype Shell = Shell(cwd: Dir, env: map<string, string>, dirs: set<Dir>)

  datatype Event =
    | Ran(cmd: string, cwd: Dir, env: map<string, string>)
    | Copied(source: string, at: Dir)

  // Once not `ok`, the script has broken off, or the build has been refused.
  datatype Machine = Machine(sh: Shell, trace: seq<Event>, ok: bool, profile: seq<string>)

  function Starting(sh: Shell): (m: Machine) { Machine(sh, [], true, []) }

  // ----- what a script does -----

  // A key that starts a comment leaves a bare `export`, which sets nothing; any
  // other text that is no assignment ends the script.
  predicate Exports1(text: string) { (text != "" && text[0] == '#') || Assign(text).Some? }

  function Exported(env: map<string, string>, text: string): (r: map<string, string>) {
    if (text != "" && text[0] == '#') || Assign(text).None? then env
    else env[Assign(text).value.0 := Assign(text).value.1]
  }

  predicate EndsInSlash(path: string) { path != "" && path[|path| - 1] == '/' }

  // Where `cp -a` puts the staged upload of a file; nothing if it fails.
  function FileAt(sh: Shell, i: nat, dest: string): (at: Option<Dir>) {
    match Walk(sh.dirs, Base(sh.cwd, dest), Names(dest))
    case Some(d) => Some(d + [Dec(i)])
    case None => if EndsInSlash(dest) then None else Some(DirOf(sh.cwd, dest))
  }

  function WithDir(sh: Shell, path: string, names: seq<string>): (r: Shell) {
    sh.(dirs := Made(sh.dirs, Base(sh.cwd, path), names))
  }

  function RunLine(m: Machine, l: Line, copies: seq<(string, string)>, after: (string, Shell) -> Shell): (r: Machine) {
    if !m.ok then m
    else
      match l
      case Prologue => m
      case Persist(exports) => m.(profile := exports)
      case Export(text) => m.(sh := m.sh.(env := Exported(m.sh.env, text)), ok := Exports1(text))
      case MakeDir(word) =>
        (match ReadWord(word, Plain, "")
         case Some(v) => m.(sh := WithDir(m.sh, v.0, Names(v.0)))
         case None => m.(ok := false))
      case MakeParent(word) =>
        (match ReadWord(word, Plain, "")
         case Some(v) => m.(sh := WithDir(m.sh, v.0, Parent(Names(v.0))))
         case None => m.(ok := false))
      case CopyTree(i, word) =>
        (match ReadWord(word, Plain, "")
         case Some(v) =>
           if i < |copies| then m.(trace := m.trace + [Copied(copies[i].0, DirOf(m.sh.cwd, v.0))]) else m.(ok := false)
         case None => m.(ok := false))
      case CopyFile(i, word) =>
        (match ReadWord(word, Plain, "")
         case Some(v) =>
           if i < |copies| && FileAt(m.sh, i, v.0).Some?
           then m.(trace := m.trace + [Copied(copies[i].0, FileAt(m.sh, i, v.0).value)]) else m.(ok := false)
         case None => m.(ok := false))
      case Cd(word) =>
        (match ReadWord(word, Plain, "")
         case Some(v) =>
           (match Walk(m.sh.dirs, Base(m.sh.cwd, v.0), Names(v.0))
            case Some(d) => m.(sh := m.sh.(cwd := d))
            case None => m.(ok := false))
         case None => m.(ok := false))
      case Command(text) =>
        m.(sh := after(text, m.sh), trace := m.trace + [Ran(text, m.sh.cwd, m.sh.env)])
  }

  // `after` is what a command does to the shell that runs it.
  function RunScript(m: Machine, ls: seq<Line>, copies: seq<(string, string)>, after: (string, Shell) -> Shell)
    : (r: Machine)
  {
    if ls == [] then m else RunLine(RunScript(m, ls[..|ls| - 1], copies, after), ls[|ls| - 1], copies, after)
  }

  // ----- what a Dockerfile means -----

  function SetAll(env: map<string, string>, pairs: seq<(string, string)>): (r: map<string, string>) {
    if pairs == [] then env else SetAll(env, pairs[..|pairs| - 1])[pairs[|pairs| - 1].0 := pairs[|pairs| - 1].1]
  }

  function NameOf(source: string): (n: string) {
    if Names(source) == [] then "" else Names(source)[|Names(source)| - 1]
  }

  // A file goes into a destination that ends in a slash or is a directory.
  predicate Into(sh: Shell, dest: string) {
    dest == "" || dest == "." || EndsInSlash(dest) || DirOf(sh.cwd, dest) == [] || DirOf(sh.cwd, dest) in sh.dirs
  }

  function PlacedAt(sh: Shell, source: string, dest: string, tree: bool): (at: Dir) {
    if !tree && Into(sh, dest) then DirOf(sh.cwd, dest) + [NameOf(source)] else DirOf(sh.cwd, dest)
  }

  function Refused(m: Machine): (r: Machine) { m.(ok := false) }

  // Every RUN starts in the working directory and environment then in force; of
  // what the commands before it did to their shells only the directories stay.
  function Does(m: Machine, d: Directive, tree: string -> bool, after: (string, Shell) -> Shell): (r: Machine) {
    if !m.ok then m
    else
      match d
      case Run(cmd) =>
        if cmd == "" then Refused(m)
        else m.(sh := m.sh.(dirs := after(cmd, m.sh).dirs), trace := m.trace + [Ran(cmd, m.sh.cwd, m.sh.env)])
      case Copy(args, flags) =>
        if |args| != 2 then Refused(m)
        else
          var source, dest := Expand(args[0], Bare, m.sh.env), Expand(args[1], Bare, m.sh.env);
          if source.None? || dest.None? then Refused(m)
          else
            var t := tree(source.value);
            var at := PlacedAt(m.sh, source.value, dest.value, t);
            var names := Names(dest.value);
            m.(sh := WithDir(m.sh, dest.value, if t || Into(m.sh, dest.value) then names else Parent(names)),
               trace := m.trace + [Copied(source.value, at)])
      case Env(text) =>
        (match EnvMeant(text, m.sh.env)
         case Some(pairs) => m.(sh := m.sh.(env := SetAll(m.sh.env, pairs)))
         case None => Refused(m))
      case Workdir(text) =>
        (match Expand(text, Bare, m.sh.env)
         case Some(path) =>
           if text == "" then Refused(m)
           else m.(sh := WithDir(m.sh, path, Names(path)).(cwd := DirOf(m.sh.cwd, path)))
         case None => Refused(m))
      case _ => m
  }

  function Build(start: Shell, ds: seq<Directive>, tree: string -> bool, after: (string, Shell) -> Shell)
    : (r: Machine)
  {
    if ds == [] then Starting(start) else Does(Build(start, ds[..|ds| - 1], tree, after), ds[|ds| - 1], tree, after)
  }

  // ----- the comparison -----

  // The script of a parsed Dockerfile, started in `home`.
  function Script(start: Shell, home: Dir, p: Parsed, tree: string -> bool, after: (string, Shell) -> Shell)
    : (r: Machine)
  {
    RunScript(Starting(start.(cwd := home)), Emit(p, tree), p.copies, after)
  }

  // Both come to their end, having done the same.
  predicate Faithful(did: Machine, meant: Machine) { did.ok && meant.ok && did.trace == meant.trace }
}
