// How a Dockerfile is to be read, by the Dockerfile reference ("ENV" and
// "Environment replacement"): quotation marks and backslashes are taken away,
// variables replaced, and words cut at the white space that is not quoted.
module DockerRead {
  import opened Text

  // ----- one word -----

  datatype Where = Bare | InSingle | InDouble

  predicate Quoting(c: char) { c in {'\'', '"', '\\'} }

  predicate Digit(c: char) { '0' <= c <= '9' }

  // What makes a dollar sign in front of it a reference.
  predicate Refers(c: char) { NameStart(c) || Digit(c) || c in {'{', '@', '*', '#', '?', '-', '$', '!'} }

  function RunOf(s: string, digits: bool): (k: nat)
    ensures k <= |s|
  {
    if s != "" && (if digits then Digit(s[0]) else NameChar(s[0])) then 1 + RunOf(s[1..], digits) else 0
  }

  function Value(env: map<string, string>, name: string): (v: string) { if name in env then env[name] else "" }

  // A reference, given what follows its dollar sign: its value and how much of
  // the text it takes; nothing for the forms with a modifier.
  function Reference(s: string, env: map<string, string>): (r: Option<(string, nat)>)
    ensures r.Some? ==> r.value.1 <= |s|
    ensures s == "" || !Refers(s[0]) ==> r == Some(("$", 0))
  {
    if s == "" || !Refers(s[0]) then Some(("$", 0))
    else if s[0] == '{' then
      var k := RunOf(s[1..], false);
      if k > 0 && NameStart(s[1]) && 1 + k < |s| && s[1 + k] == '}' then Some((Value(env, s[1..1 + k]), k + 2))
      else None
    else
      var k := if NameStart(s[0]) then RunOf(s, false) else if Digit(s[0]) then RunOf(s, true) else 1;
      Some((Value(env, s[..k]), k))
  }

  function Then(head: string, tail: Option<string>): (r: Option<string>) {
    if tail.Some? then Some(head + tail.value) else None
  }

  // The text as it is meant; nothing if a quotation stays open.
  function Expand(s: string, at: Where, env: map<string, string>): (r: Option<string>)
    decreases |s|
  {
    if s == "" then (if at == Bare then Some("") else None)
    else
      var c, rest := s[0], s[1..];
      if at == InSingle then
        if c == '\'' then Expand(rest, Bare, env) else Then([c], Expand(rest, InSingle, env))
      else if c == '"' then Expand(rest, if at == Bare then InDouble else Bare, env)
      else if c == '\'' && at == Bare then Expand(rest, InSingle, env)
      else if c == '\\' && rest == "" then (if at == Bare then Some("") else None)
      else if c == '\\' && (at == Bare || rest[0] in {'"', '$', '\\'}) then Then([rest[0]], Expand(rest[1..], at, env))
      else if c == '$' then
        var ref := Reference(rest, env);
        if ref.Some? then Then(ref.value.0, Expand(rest[ref.value.1..], at, env)) else None
      else Then([c], Expand(rest, at, env))
  }

  // ----- the ENV line -----

  // How far the word at the start reaches, quoted white space included.
  function Reach(s: string, at: Where): (k: nat)
    ensures k <= |s|
    ensures k < |s| ==> IsSpace(s[k])
    ensures at == Bare && s != "" && !IsSpace(s[0]) ==> k > 0
    decreases |s|
  {
    if s == "" || (at == Bare && IsSpace(s[0])) then 0
    else if s[0] == '\\' && at != InSingle then (if |s| == 1 then 1 else 2 + Reach(s[2..], at))
    else if s[0] == '\'' && at != InDouble then 1 + Reach(s[1..], if at == Bare then InSingle else Bare)
    else if s[0] == '"' && at != InSingle then 1 + Reach(s[1..], if at == Bare then InDouble else Bare)
    else 1 + Reach(s[1..], at)
  }

  function QuotedWords(s: string): (r: seq<string>)
    decreases |s|
  {
    var t := TrimLeft(s);
    if t == "" then []
    else
      var k := Reach(t, Bare);
      if k == 0 then [] else [t[..k]] + QuotedWords(t[k..])
  }

  function Pair(key: string, value: string, env: map<string, string>): (r: Option<(string, string)>) {
    var k, v := Expand(key, Bare, env), Expand(value, Bare, env);
    if k.Some? && v.Some? then Some((k.value, v.value)) else None
  }

  function Pairs(words: seq<string>, env: map<string, string>): (r: Option<seq<(string, string)>>)
    decreases |words|
  {
    if words == [] then Some([])
    else
      var i := IndexOf(words[0], '=');
      if i == 0 || i == |words[0]| then None
      else
        var first, more := Pair(words[0][..i], words[0][i + 1..], env), Pairs(words[1..], env);
        if first.Some? && more.Some? then Some([first.value] + more.value) else None
  }

  // "ENV key=value ..." or "ENV key the rest"; nothing if the line is refused.
  function EnvMeant(text: string, env: map<string, string>): (r: Option<seq<(string, string)>>) {
    var words := QuotedWords(text);
    if words == [] then None
    else if '=' in words[0] then Pairs(words, env)
    else
      var key := Word(text);
      if key == "" || |key| == |text| then None
      else
        var one := Pair(key, TrimLeft(text[|key|..]), env);
        if one.Some? then Some([one.value]) else None
  }

  // ----- texts that stand for themselves -----

  predicate Marked(c: char) { Quoting(c) || c == '$' }

  function Marks(s: string): (n: nat) {
    if s == "" then 0 else (if Marked(s[0]) then 1 else 0) + Marks(s[1..])
  }

  // The characters that do not stand for themselves: quotation marks,
  // backslashes, and the dollar signs of references.
  function Active(s: string): (n: nat) {
    if s == "" then 0
    else (if Quoting(s[0]) || (s[0] == '$' && |s| > 1 && Refers(s[1])) then 1 else 0) + Active(s[1..])
  }

  predicate Inert(s: string) { Active(s) == 0 }

  // No variable's value has a quotation mark, backslash or dollar sign in it.
  ghost predicate PlainValues(env: map<string, string>) { forall k :: k in env ==> Marks(env[k]) == 0 }

  lemma {:induction false} InertMeans(s: string, env: map<string, string>)
    requires Inert(s)
    ensures Expand(s, Bare, env) == Some(s)
    decreases |s|
  {
    if s != "" {
      InertMeans(s[1..], env);
      assert [s[0]] + s[1..] == s;
      if s[0] == '$' { assert s[1..][0..] == s[1..]; }
    }
  }

  lemma {:induction false} MarksAppend(a: string, b: string)
    ensures Marks(a + b) == Marks(a) + Marks(b)
    decreases |a|
  {
    if a == "" {
      assert a + b == b;
    } else {
      assert (a + b)[0] == a[0] && (a + b)[1..] == a[1..] + b;
      MarksAppend(a[1..], b);
    }
  }

  lemma {:induction false} ActiveAppend(a: string, b: string)
    requires b == "" || !Refers(b[0])
    ensures Active(a + b) == Active(a) + Active(b)
    decreases |a|
  {
    var s := a + b;
    if a == "" {
      assert s == b;
    } else {
      assert s[0] == a[0] && s[1..] == a[1..] + b;
      if |a| == 1 && |s| > 1 { assert s[1] == b[0]; }
      if |a| > 1 { assert s[1] == a[1]; }
      ActiveAppend(a[1..], b);
    }
  }

  // A reference takes a mark away, an idle dollar sign does not.
  lemma {:induction false} DollarMarks(rest: string, env: map<string, string>, more: string, less: bool)
    requires Reference(rest, env).Some? && PlainValues(env)
    requires var r := Reference(rest, env).value;
             Marks(more) <= Marks(rest[r.1..]) && (less || !Inert(rest[r.1..]) ==> Marks(more) < Marks(rest[r.1..]))
    ensures var o := Reference(rest, env).value.0 + more;
            Marks(o) <= 1 + Marks(rest) && (less || !Inert("$" + rest) ==> Marks(o) < 1 + Marks(rest))
  {
    var r := Reference(rest, env).value;
    MarksAppend(r.0, more);
    MarksAppend(rest[..r.1], rest[r.1..]);
    assert rest[..r.1] + rest[r.1..] == rest;
    if rest == "" || !Refers(rest[0]) {
      assert rest[0..] == rest && ("$" + rest)[1..] == rest;
    } else {
      ReferredMarks(rest, env);
    }
    hide Reference;
  }

  lemma {:induction false} ReferredMarks(s: string, env: map<string, string>)
    requires Reference(s, env).Some? && PlainValues(env) && s != "" && Refers(s[0])
    ensures Marks(Reference(s, env).value.0) == 0
  {
    hide RunOf, Marks;
    assert Marks("") == 0 by { NoMarks(); }
  }

  lemma {:induction false} NoMarks()
    ensures Marks("") == 0
  {
  }

  lemma {:induction false} OneMark(c: char, s: string)
    ensures Marks([c] + s) == (if Marked(c) then 1 else 0) + Marks(s)
  {
    assert ([c] + s)[1..] == s;
  }

  // Reading a text never adds marks, and takes one away if anything in it does
  // not stand for itself.
  lemma {:induction false} FewerMarks(s: string, at: Where, env: map<string, string>)
    requires PlainValues(env) || '$' !in s
    requires Expand(s, at, env).Some?
    ensures var o := Expand(s, at, env).value;
            Marks(o) <= Marks(s) && (at != Bare || !Inert(s) ==> Marks(o) < Marks(s))
    decreases |s|
  {
    hide Reference;
    if s != "" {
      var c, rest := s[0], s[1..];
      assert s == [c] + rest;
      OneMark(c, rest);
      if at == InSingle {
        FewerMarks(rest, if c == '\'' then Bare else InSingle, env);
        if c != '\'' { OneMark(c, Expand(rest, InSingle, env).value); }
      } else if c == '"' || (c == '\'' && at == Bare) || (c == '\\' && rest == "") {
        if rest != "" {
          FewerMarks(rest, if at == InDouble then Bare else if c == '"' then InDouble else InSingle, env);
        }
      } else if c == '\\' && (at == Bare || rest[0] in {'"', '$', '\\'}) {
        FewerMarks(rest[1..], at, env);
        OneMark(rest[0], Expand(rest[1..], at, env).value);
        assert rest == [rest[0]] + rest[1..];
        OneMark(rest[0], rest[1..]);
      } else if c == '$' {
        assert c in s;
        var k := Reference(rest, env).value.1;
        FewerMarks(rest[k..], at, env);
        DollarMarks(rest, env, Expand(rest[k..], at, env).value, at != Bare);
      } else {
        FewerMarks(rest, at, env);
        OneMark(c, Expand(rest, at, env).value);
      }
    }
  }
}
