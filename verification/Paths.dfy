// Directories by name: what a path comes to by its text alone, where a walk
// along it leads, and what `mkdir -p` makes of it.
module Paths {
  import opened Text

  // The names from the root down.
  type Dir = seq<string>

  function NamesFrom(s: string, cur: string): (r: seq<string>) {
    if s == "" then (if cur == "" then [] else [cur])
    else if s[0] == '/' then (if cur == "" then [] else [cur]) + NamesFrom(s[1..], "")
    else NamesFrom(s[1..], cur + [s[0]])
  }

  // What stands between the slashes.
  function Names(path: string): (r: seq<string>) { NamesFrom(path, "") }

  function Parent(names: seq<string>): (r: seq<string>) { if names == [] then [] else names[..|names| - 1] }

  predicate Absolute(path: string) { path != "" && path[0] == '/' }

  function Base(cwd: Dir, path: string): (d: Dir) { if Absolute(path) then [] else cwd }

  function Enter(at: Dir, name: string): (d: Dir) {
    if name == "." then at else if name == ".." then Parent(at) else at + [name]
  }

  // By its text alone.
  function Clean(at: Dir, names: seq<string>): (d: Dir)
    decreases |names|
  {
    if names == [] then at else Clean(Enter(at, names[0]), names[1..])
  }

  function DirOf(cwd: Dir, path: string): (d: Dir) { Clean(Base(cwd, path), Names(path)) }

  // Through directories that are there.
  function Walk(dirs: set<Dir>, at: Dir, names: seq<string>): (d: Option<Dir>)
    decreases |names|
  {
    if names == [] then Some(at)
    else
      var next := Enter(at, names[0]);
      if names[0] in {".", ".."} || next in dirs then Walk(dirs, next, names[1..]) else None
  }

  // What `mkdir -p` leaves.
  function Made(dirs: set<Dir>, at: Dir, names: seq<string>): (r: set<Dir>)
    ensures dirs <= r
    decreases |names|
  {
    if names == [] then dirs else Made(dirs + {Enter(at, names[0])}, Enter(at, names[0]), names[1..])
  }

  lemma {:induction false} WalkCleans(dirs: set<Dir>, at: Dir, names: seq<string>)
    requires Walk(dirs, at, names).Some?
    ensures Walk(dirs, at, names) == Some(Clean(at, names))
    decreases |names|
  {
    if names != [] { WalkCleans(dirs, Enter(at, names[0]), names[1..]); }
  }

  lemma {:induction false} WalkMore(dirs: set<Dir>, more: set<Dir>, at: Dir, names: seq<string>)
    requires dirs <= more && Walk(dirs, at, names).Some?
    ensures Walk(more, at, names) == Walk(dirs, at, names)
    decreases |names|
  {
    if names != [] { WalkMore(dirs, more, Enter(at, names[0]), names[1..]); }
  }

  lemma {:induction false} MadeWalks(dirs: set<Dir>, at: Dir, names: seq<string>)
    ensures Walk(Made(dirs, at, names), at, names) == Some(Clean(at, names))
    decreases |names|
  {
    if names != [] { MadeWalks(dirs + {Enter(at, names[0])}, Enter(at, names[0]), names[1..]); }
  }

  lemma {:induction false} CleanAppend(at: Dir, a: seq<string>, b: seq<string>)
    ensures Clean(at, a + b) == Clean(Clean(at, a), b)
    decreases |a|
  {
    if a == [] {
      assert a + b == b;
    } else {
      assert (a + b)[0] == a[0] && (a + b)[1..] == a[1..] + b;
      CleanAppend(Enter(at, a[0]), a[1..], b);
    }
  }

  lemma {:induction false} NamesSplit(a: string, b: string, cur: string)
    ensures NamesFrom(a + "/" + b, cur) == NamesFrom(a, cur) + Names(b)
    decreases |a|
  {
    var s := a + "/" + b;
    if a == "" {
      assert s[0] == '/' && s[1..] == b;
    } else {
      assert s[0] == a[0] && s[1..] == a[1..] + "/" + b;
      if a[0] == '/' {
        NamesSplit(a[1..], b, "");
        var head := if cur == "" then [] else [cur];
        assert head + (NamesFrom(a[1..], "") + Names(b)) == (head + NamesFrom(a[1..], "")) + Names(b);
      } else {
        NamesSplit(a[1..], b, cur + [a[0]]);
      }
    }
  }

  // A path without `..` only ever goes down, and from different directories to
  // different ones.
  lemma {:induction false} CleanDown(at: Dir, names: seq<string>) returns (below: Dir)
    requires ".." !in names
    ensures forall d: Dir :: Clean(d, names) == d + below
    decreases |names|
  {
    if names == [] {
      below := [];
      assert forall d: Dir :: d + below == d;
    } else {
      var rest := CleanDown(at, names[1..]);
      below := if names[0] == "." then rest else [names[0]] + rest;
      forall d: Dir ensures Clean(d, names) == d + below {
        assert names[0] != "..";
        assert d + [names[0]] + rest == d + ([names[0]] + rest);
      }
    }
  }
}
