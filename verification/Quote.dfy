// The shell quoter (scripts/vmf_lib.py), read back by the quoting rules of the
// POSIX.1-2017 Shell Command Language, sections 2.2.1 to 2.2.3.
module Quote {
  import opened Text

  // Every single quote becomes: close, a double-quoted quote, open.
  const ESCAPED: string := "'\"'\"'"

  function Replaced(s: string): (r: string) {
    if s == "" then "" else (if s[0] == '\'' then ESCAPED else [s[0]]) + Replaced(s[1..])
  }

  function ShQuote(s: string): (r: string) { "'" + Replaced(s) + "'" }

  // ----- the reader -----

  datatype Mode = Plain | Single | Double

  // A token ends at an unquoted blank, newline or operator character.
  predicate Ends(c: char) {
    IsSpace(c) || c == ';' || c == '&' || c == '|' || c == '<' || c == '>' || c == '(' || c == ')'
  }

  // Unquoted, these start expansions, patterns or comments.
  predicate Special(c: char) {
    c in {'$', '`', '*', '?', '[', '{', '}', '#', '~'}
  }

  // Reads one word from the start: the word and what follows it, or nothing if
  // the text needs an expansion or leaves a quotation open.  Within double
  // quotes a backslash escapes only $, `, ", \ and newline.
  function ReadWord(s: string, mode: Mode, word: string): (r: Option<(string, string)>)
    decreases |s|
  {
    if s == "" then (if mode == Plain then Some((word, "")) else None)
    else
      var c, rest := s[0], s[1..];
      match mode
      case Single =>
        if c == '\'' then ReadWord(rest, Plain, word) else ReadWord(rest, Single, word + [c])
      case Double =>
        if c == '"' then ReadWord(rest, Plain, word)
        else if c == '$' || c == '`' then None
        else if c == '\\' && rest != "" && rest[0] in {'$', '`', '"', '\\'} then
          ReadWord(rest[1..], Double, word + [rest[0]])
        else if c == '\\' && rest != "" && rest[0] == '\n' then ReadWord(rest[1..], Double, word)
        else ReadWord(rest, Double, word + [c])
      case Plain =>
        if Ends(c) then Some((word, s))
        else if c == '\'' then ReadWord(rest, Single, word)
        else if c == '"' then ReadWord(rest, Double, word)
        else if c == '\\' && rest != "" then
          ReadWord(rest[1..], Plain, if rest[0] == '\n' then word else word + [rest[0]])
        else if c == '\\' || Special(c) then None
        else ReadWord(rest, Plain, word + [c])
  }

  // ----- what the quoter promises -----

  lemma {:induction false} EscapedReads(rest: string, word: string)
    ensures ReadWord(ESCAPED + rest, Single, word) == ReadWord(rest, Single, word + "'")
  {
    var s := ESCAPED + rest;
    assert s[0] == '\'' && s[1] == '"' && s[2] == '\'' && s[3] == '"' && s[4] == '\'';
    assert s[1..][1..] == s[2..] && s[2..][1..] == s[3..] && s[3..][1..] == s[4..] && s[4..][1..] == s[5..];
    assert s[5..] == rest;
    assert ReadWord(s, Single, word) == ReadWord(s[1..], Plain, word);
    assert ReadWord(s[1..], Plain, word) == ReadWord(s[2..], Double, word);
    assert ReadWord(s[2..], Double, word) == ReadWord(s[3..], Double, word + "'");
    assert ReadWord(s[3..], Double, word + "'") == ReadWord(s[4..], Plain, word + "'");
    assert ReadWord(s[4..], Plain, word + "'") == ReadWord(s[5..], Single, word + "'");
  }

  lemma {:induction false} ReplacedReads(s: string, rest: string, word: string)
    ensures ReadWord(Replaced(s) + rest, Single, word) == ReadWord(rest, Single, word + s)
    decreases |s|
  {
    if s == "" {
      assert Replaced(s) + rest == rest && word + s == word;
    } else {
      var more := Replaced(s[1..]) + rest;
      assert word + [s[0]] + s[1..] == word + s;
      ReplacedReads(s[1..], rest, word + [s[0]]);
      if s[0] == '\'' {
        assert Replaced(s) + rest == ESCAPED + more;
        EscapedReads(more, word);
      } else {
        assert Replaced(s) + rest == [s[0]] + more;
        assert ([s[0]] + more)[1..] == more;
      }
    }
  }

  // Whatever the value, the shell reads its quotation as one word, that value,
  // and goes on reading right after it.
  lemma {:induction false} QuoteReadsBack(value: string, rest: string)
    requires rest == "" || Ends(rest[0])
    ensures ReadWord(ShQuote(value) + rest, Plain, "") == Some((value, rest))
  {
    var s := ShQuote(value) + rest;
    var tail := "'" + rest;
    assert s[0] == '\'' && s[1..] == Replaced(value) + tail;
    ReplacedReads(value, tail, "");
    assert "" + value == value;
    assert tail[0] == '\'' && tail[1..] == rest;
    assert ReadWord(s, Plain, "") == ReadWord(tail, Single, value) == ReadWord(rest, Plain, value);
  }

  // So different values never quote alike.
  lemma {:induction false} QuoteInjective(a: string, b: string)
    requires ShQuote(a) == ShQuote(b)
    ensures a == b
  {
    QuoteReadsBack(a, "");
    QuoteReadsBack(b, "");
  }

  // ----- what `export` makes of a word -----

  // Variables that bash does not let a script set.
  const READONLY: set<string> := {"BASHOPTS", "BASH_VERSINFO", "EUID", "PPID", "SHELLOPTS", "UID"}

  predicate Settable(name: string) { IsName(name) && name !in READONLY }

  // The variable that `export text` sets, and its value; nothing if the text is
  // no single word of the form name=value.
  function Assign(text: string): (r: Option<(string, string)>) {
    var w := ReadWord(text, Plain, "");
    if w.Some? && w.value.1 == "" && IndexOf(w.value.0, '=') < |w.value.0| then
      var i := IndexOf(w.value.0, '=');
      if Settable(w.value.0[..i]) then Some((w.value.0[..i], w.value.0[i + 1..])) else None
    else None
  }

  lemma {:induction false} NameReads(name: string, rest: string, word: string)
    requires forall i :: 0 <= i < |name| ==> NameChar(name[i])
    ensures ReadWord(name + rest, Plain, word) == ReadWord(rest, Plain, word + name)
    decreases |name|
  {
    if name == "" {
      assert name + rest == rest && word + name == word;
    } else {
      assert (name + rest)[0] == name[0] && (name + rest)[1..] == name[1..] + rest;
      NameReads(name[1..], rest, word + [name[0]]);
      assert word + [name[0]] + name[1..] == word + name;
    }
  }

  lemma {:induction false} QuoteReadsOn(value: string, word: string)
    ensures ReadWord(ShQuote(value), Plain, word) == Some((word + value, ""))
  {
    var s, tail := ShQuote(value), "'" + "";
    assert s[0] == '\'' && s[1..] == Replaced(value) + tail;
    ReplacedReads(value, tail, word);
    assert tail[0] == '\'' && tail[1..] == "";
  }

  // An assignment with a quoted value sets that name to that value exactly when
  // the name is one that can be set.
  lemma {:induction false} AssignIff(name: string, value: string)
    ensures Assign(name + "=" + ShQuote(value)) == Some((name, value)) <==> Settable(name)
  {
    hide ReadWord, ShQuote;
    var text := name + "=" + ShQuote(value);
    if Settable(name) {
      var tail := "=" + ShQuote(value);
      assert text == name + tail;
      NameReads(name, tail, "");
      EqualsReads(ShQuote(value), "" + name);
      QuoteReadsOn(value, name + "=");
      assert ("" + name) + "=" == name + "=";
      var w := name + "=" + value;
      assert w == name + ("=" + value);
      IndexFirst(name, "=" + value, '=');
      assert w[..|name|] == name && w[|name| + 1..] == value;
    }
  }

  lemma {:induction false} EqualsReads(rest: string, word: string)
    ensures ReadWord("=" + rest, Plain, word) == ReadWord(rest, Plain, word + "=")
  {
    assert ("=" + rest)[0] == '=' && ("=" + rest)[1..] == rest;
  }
}
