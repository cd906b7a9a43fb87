// What the Dockerfile parser makes of a line, and which Dockerfiles it accepts.
module ProvisionParse {
  import opened Text
  import opened Provision

  // ----- one line -----

  lemma {:induction false} TrimGap(gap: string, rest: string)
    requires forall i :: 0 <= i < |gap| ==> IsSpace(gap[i])
    ensures Trim(gap + rest) == Trim(rest)
    decreases |gap|
  {
    if gap == "" {
      assert gap + rest == rest;
    } else {
      assert (gap + rest)[0] == gap[0] && (gap + rest)[1..] == gap[1..] + rest;
      TrimGap(gap[1..], rest);
    }
  }

  const KNOWN: seq<string> := ["FROM", "RUN", "COPY", "ADD", "ENV", "WORKDIR", "USER"]

  lemma {:induction false} KnownApart(w: string)
    requires w in KNOWN
    ensures w in {"FROM", "RUN", "COPY", "ADD", "ENV", "WORKDIR", "USER"} && w !in IGNORED
  {
    assert w == KNOWN[0] || w == KNOWN[1] || w == KNOWN[2] || w == KNOWN[3] || w == KNOWN[4] || w == KNOWN[5] ||
           w == KNOWN[6];
  }

  // A keyword in either case and what follows it is read as that directive, and
  // any other keyword as one to be ignored or refused.
  lemma {:induction false} LineReads(keyword: string, gap: string, rest: string)
    requires keyword != "" && forall i :: 0 <= i < |keyword| ==> !IsSpace(keyword[i])
    requires forall i :: 0 <= i < |gap| ==> IsSpace(gap[i])
    requires Trim(rest) == rest && (gap == "" ==> rest == "")
    ensures var d, word := Classify(keyword + gap + rest), Upper(keyword);
            && (word == "FROM" ==> d == From(rest))
            && (word == "RUN" ==> d == Run(rest))
            && (word == "ENV" ==> d == Env(rest))
            && (word == "WORKDIR" ==> d == Workdir(rest))
            && (word == "USER" ==> d == User(rest))
            && (word in {"COPY", "ADD"} ==>
                  d.Copy? && (forall x :: x in d.args <==> x in Words(rest) && !("--" <= x))
                  && (forall x :: x in d.flags <==> x in Words(rest) && "--" <= x))
            && (word !in KNOWN ==> d == if word in IGNORED then Ignored else Unknown)
  {
    hide Upper, Words, Word, IGNORED;
    var line := keyword + gap + rest;
    assert line == keyword + (gap + rest);
    WordThen(keyword, gap + rest);
    assert line[|keyword|..] == gap + rest;
    TrimGap(gap, rest);
    forall x
      ensures x in Flags(Words(rest), false) <==> x in Words(rest) && !("--" <= x)
      ensures x in Flags(Words(rest), true) <==> x in Words(rest) && "--" <= x
    {
      FlagsAre(Words(rest), false, x);
      FlagsAre(Words(rest), true, x);
    }
    assert "FROM" == KNOWN[0] && "RUN" == KNOWN[1] && "COPY" == KNOWN[2] && "ADD" == KNOWN[3] && "ENV" == KNOWN[4] &&
           "WORKDIR" == KNOWN[5] && "USER" == KNOWN[6];
    assert forall w :: w in ["FROM", "RUN", "ENV", "WORKDIR", "USER", "COPY", "ADD"] ==> |w| >= 3;
  }

  lemma {:induction false} FlagsAre(words: seq<string>, flags: bool, x: string)
    ensures x in Flags(words, flags) <==> x in words && ("--" <= x) == flags
    decreases |words|
  {
    if words != [] {
      FlagsAre(words[1..], flags, x);
      assert words == [words[0]] + words[1..];
    }
  }

  // The words of a COPY line keep their order.
  lemma {:induction false} FlagsApart(a: seq<string>, b: seq<string>, flags: bool)
    ensures Flags(a + b, flags) == Flags(a, flags) + Flags(b, flags)
    decreases |a|
  {
    if a == [] {
      assert a + b == b;
    } else {
      assert (a + b)[0] == a[0] && (a + b)[1..] == a[1..] + b;
      FlagsApart(a[1..], b, flags);
    }
  }

  // ----- the working directory's text -----

  predicate NoDouble(s: string) { forall i :: 0 <= i && i + 1 < |s| ==> !(s[i] == '/' && s[i + 1] == '/') }

  lemma {:induction false} CollapseKeeps(s: string)
    requires NoDouble(s)
    ensures Collapse(s) == s
    decreases |s|
  {
    if |s| >= 2 {
      assert !(s[0] == '/' && s[0 + 1] == '/');
      forall i | 0 <= i && i + 1 < |s[1..]| ensures !(s[1..][i] == '/' && s[1..][i + 1] == '/') {
        assert !(s[i + 1] == '/' && s[i + 1 + 1] == '/');
      }
      CollapseKeeps(s[1..]);
    }
  }

  lemma {:induction false} CollapseOnce(a: string, b: string)
    requires NoDouble(a) && (a == "" || a[|a| - 1] != '/') && NoDouble(b) && (b == "" || b[0] != '/')
    ensures Collapse(a + "//" + b) == a + "/" + b
    decreases |a|
  {
    var s := a + "//" + b;
    if a == "" {
      assert s[0] == '/' && s[1] == '/' && s[2..] == b;
      CollapseKeeps(b);
    } else {
      assert s[0] == a[0] && s[1..] == a[1..] + "//" + b;
      if |a| > 1 {
        assert !(a[0] == '/' && a[0 + 1] == '/') && s[1] == a[1];
        forall i | 0 <= i && i + 1 < |a[1..]| ensures !(a[1..][i] == '/' && a[1..][i + 1] == '/') {
          assert !(a[i + 1] == '/' && a[i + 1 + 1] == '/');
        }
      }
      CollapseOnce(a[1..], b);
      assert [a[0]] + (a[1..] + "/" + b) == a + "/" + b;
    }
  }

  // A relative path is put behind the directory with one slash between the two,
  // and behind the root at first; an absolute one stands for itself.
  lemma {:induction false} PathJoined(dir: Option<string>, path: string)
    requires path != "" && NoDouble(path) && Rooted(dir) && (dir.Some? ==> NoDouble(dir.value))
    ensures Resolve(dir, path) ==
            if path[0] == '/' then path
            else if dir == None then "/" + path
            else if dir.value[|dir.value| - 1] == '/' then dir.value + path
            else dir.value + "/" + path
  {
    if path[0] != '/' {
      hide Collapse;
      if dir == None || dir.value[|dir.value| - 1] == '/' {
        var w := if dir == None then "/" else dir.value;
        var a := w[..|w| - 1];
        assert NoDouble(a) && (a == "" || a[|a| - 1] != '/') by { Shorter(w); }
        assert w + "/" + path == a + "//" + path && a + "/" + path == w + path;
        CollapseOnce(a, path);
      } else {
        var s := dir.value + "/" + path;
        forall i | 0 <= i && i + 1 < |s| ensures !(s[i] == '/' && s[i + 1] == '/') {
          var n := |dir.value|;
          if i + 1 < n {
            assert !(dir.value[i] == '/' && dir.value[i + 1] == '/');
          } else if i > n {
            assert !(path[i - n - 1] == '/' && path[i - n - 1 + 1] == '/');
          }
        }
        CollapseKeeps(s);
      }
    }
  }

  lemma {:induction false} Shorter(w: string)
    requires NoDouble(w) && w != "" && w[|w| - 1] == '/'
    ensures NoDouble(w[..|w| - 1]) && (|w| > 1 ==> w[|w| - 2] != '/')
  {
    var a := w[..|w| - 1];
    forall i | 0 <= i && i + 1 < |a| ensures !(a[i] == '/' && a[i + 1] == '/') {
      assert !(w[i] == '/' && w[i + 1] == '/');
    }
    if |w| > 1 {
      var k := |w| - 2;
      assert w[k + 1] == '/';
    }
  }

  // ----- which Dockerfiles are accepted -----

  function RefOf(ref: string): (r: string) {
    if "--platform=" <= ref then Trim(Partition(ref, ' ').1) else ref
  }

  // One pinned base; no RUN in exec form; one source and one destination a COPY,
  // from this build; root alone; and nothing unknown.
  predicate LineAccepted(d: Directive, pinned: string -> bool) {
    match d
    case From(ref) => RefOf(ref) != "" && pinned(RefOf(ref))
    case Run(cmd) => cmd == "" || cmd[0] != '['
    case Copy(args, flags) => |args| == 2 && forall f :: f in flags ==> !("--from" <= f)
    case User(name) => name in {"root", "0"}
    case Unknown => false
    case _ => true
  }

  ghost predicate Accepted(ds: seq<Directive>, pinned: string -> bool) {
    && (forall i :: 0 <= i < |ds| ==> LineAccepted(ds[i], pinned))
    && (exists i :: 0 <= i < |ds| && ds[i].From?)
    && (forall i, j :: 0 <= i < j < |ds| ==> !(ds[i].From? && ds[j].From?))
  }

  lemma {:induction false} OneAccepted(p: Parsed, d: Directive, pinned: string -> bool)
    requires p.errors == []
    ensures var p' := ParseOne(p, d, pinned);
            && (p'.errors == [] <==> LineAccepted(d, pinned) && !(d.From? && p.fromSeen))
            && (p'.errors == [] ==> (p'.fromSeen <==> p.fromSeen || d.From?))
  {
    hide Resolve, EnvPairs, Partition;
    match d {
      case Run(cmd) => assert "[" <= cmd <==> cmd != "" && cmd[0] == '[';
      case _ =>
    }
  }

  lemma {:induction false} SoFarAccepted(ds: seq<Directive>, pinned: string -> bool)
    ensures var p := ParseAll(ds, pinned);
            && (p.errors == [] <==>
                  && (forall i :: 0 <= i < |ds| ==> LineAccepted(ds[i], pinned))
                  && (forall i, j :: 0 <= i < j < |ds| ==> !(ds[i].From? && ds[j].From?)))
            && (p.errors == [] ==> (p.fromSeen <==> exists i :: 0 <= i < |ds| && ds[i].From?))
    decreases |ds|
  {
    hide ParseOne, LineAccepted;
    if ds != [] {
      var init, d := ds[..|ds| - 1], ds[|ds| - 1];
      SoFarAccepted(init, pinned);
      assert forall i :: 0 <= i < |init| ==> init[i] == ds[i];
      var p := ParseAll(init, pinned);
      ErrorsStay(p, d, pinned);
      if p.errors == [] { OneAccepted(p, d, pinned); }
    }
  }

  // A Dockerfile is accepted exactly when each of its lines is, and one and only
  // one of them is a FROM.
  lemma {:induction false} AcceptedIff(ds: seq<Directive>, pinned: string -> bool)
    ensures Parse(ds, pinned).errors == [] <==> Accepted(ds, pinned)
  {
    hide ParseAll, LineAccepted;
    SoFarAccepted(ds, pinned);
  }
}
