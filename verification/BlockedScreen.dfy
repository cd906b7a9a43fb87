// The blocked line on the screen: the plain text is split into lines before any
// line is taken apart, so a reason has to stay on its line as well.
module BlockedScreen {
  import opened Text
  import opened BlockedLine
  import opened BlockedRun
  import opened Utf8

  // ----- the lines of a text -----

  function SplitLines(s: string): (lines: seq<string>) {
    var i := IndexOf(s, '\n');
    if i < |s| then [s[..i]] + SplitLines(s[i + 1..]) else [s]
  }

  function TrimNewlines(s: string): (r: string) {
    if s != "" && s[|s| - 1] == '\n' then TrimNewlines(s[..|s| - 1]) else s
  }

  function RowsOfLine(line: string): (rows: seq<Entry>) {
    if PREFIX <= line then ParseLine(line[|PREFIX|..]) else []
  }

  function RowsOfLines(lines: seq<string>): (rows: seq<Entry>) {
    if lines == [] then [] else RowsOfLine(lines[0]) + RowsOfLines(lines[1..])
  }

  // The rows that every blocked line of a text is lifted into.
  function Lifted(text: string): (rows: seq<Entry>) { RowsOfLines(SplitLines(text)) }

  lemma {:induction false} NoBreak(s: string)
    requires '\n' !in s
    ensures SplitLines(s) == [s] && Lifted(s) == RowsOfLine(s)
  {
    hide RowsOfLine;
    IndexAbsent(s, '\n');
    assert SplitLines(s) == [s];
    assert [s][1..] == [];
    assert RowsOfLines([s]) == RowsOfLine(s) + RowsOfLines([]) == RowsOfLine(s);
  }

  lemma {:induction false} IndexNone(a: string, b: string, c: char)
    ensures IndexOf(a + [c] + b, c) == IndexOf(a, c)
    decreases |a|
  {
    var s := a + [c] + b;
    if a != "" {
      assert s[0] == a[0] && s[1..] == a[1..] + [c] + b;
      IndexNone(a[1..], b, c);
    }
  }

  lemma {:induction false} SplitAtBreak(a: string, b: string)
    ensures SplitLines(a + "\n" + b) == SplitLines(a) + SplitLines(b)
    decreases |a|
  {
    var s, i := a + "\n" + b, IndexOf(a, '\n');
    IndexNone(a, b, '\n');
    assert s[..i] == a[..i];
    if i < |a| {
      assert s[i + 1..] == a[i + 1..] + "\n" + b;
      SplitAtBreak(a[i + 1..], b);
      assert [a[..i]] + (SplitLines(a[i + 1..]) + SplitLines(b)) == SplitLines(a) + SplitLines(b);
    } else {
      assert s[i + 1..] == b && a[..i] == a;
    }
  }

  lemma {:induction false} RowsAppend(a: seq<string>, b: seq<string>)
    ensures RowsOfLines(a + b) == RowsOfLines(a) + RowsOfLines(b)
    decreases |a|
  {
    hide RowsOfLine;
    if a == [] {
      assert a + b == b;
    } else {
      assert (a + b)[0] == a[0] && (a + b)[1..] == a[1..] + b;
      RowsAppend(a[1..], b);
    }
  }

  lemma {:induction false} LiftedAtBreak(a: string, b: string)
    ensures Lifted(a + "\n" + b) == Lifted(a) + Lifted(b)
  {
    hide SplitLines, RowsOfLines;
    SplitAtBreak(a, b);
    RowsAppend(SplitLines(a), SplitLines(b));
  }

  lemma {:induction false} TrimmedLifts(s: string)
    ensures Lifted(TrimNewlines(s)) == Lifted(s)
    decreases |s|
  {
    if s != "" && s[|s| - 1] == '\n' {
      var init := s[..|s| - 1];
      assert s == init + "\n" + "";
      LiftedAtBreak(init, "");
      NoBreak("");
      TrimmedLifts(init);
    }
  }

  // ----- nothing read from a line holds a line break -----

  lemma {:induction false} TrimChars(s: string, c: char)
    requires c !in s
    ensures c !in Trim(s)
    decreases |s|
  {
    if s != "" && IsSpace(s[0]) {
      TrimChars(s[1..], c);
    } else {
      assert TrimLeft(s) == s && Trim(s) == TrimRight(s) <= s;
    }
  }

  lemma {:induction false} SplitChars(s: string, cur: string, depth: int, c: char)
    requires c !in s && c !in cur
    ensures forall p :: p in SplitFrom(s, cur, depth) ==> c !in p
    decreases |s|
  {
    hide Trim;
    TrimChars(cur, c);
    if s != "" {
      SplitChars(s[1..], "", 0, c);
      SplitChars(s[1..], cur + [s[0]], depth + Delta(s[0]), c);
    }
  }

  predicate Flat(es: seq<Entry>) { forall i :: 0 <= i < |es| ==> '\n' !in es[i].why }

  lemma {:induction false} PartFlat(part: string)
    requires '\n' !in part
    ensures '\n' !in ParsePart(part).why
  {
  }

  lemma {:induction false} ParseFlat(parts: seq<string>)
    requires forall p :: p in parts ==> '\n' !in p
    ensures Flat(ParseAll(parts))
    decreases |parts|
  {
    hide ParsePart;
    if parts != [] {
      assert parts[0] in parts;
      PartFlat(parts[0]);
      ParseFlat(parts[1..]);
    }
  }

  lemma {:induction false} RowsFlat(lines: seq<string>)
    requires forall l :: l in lines ==> '\n' !in l
    ensures Flat(RowsOfLines(lines))
    decreases |lines|
  {
    hide PREFIX, SplitFrom, ParseAll, Coerce;
    if lines != [] {
      RowsFlat(lines[1..]);
      if PREFIX <= lines[0] {
        var body := lines[0][|PREFIX|..];
        assert lines[0] in lines && forall c :: c in body ==> c in lines[0];
        CoerceLacks(body, '\n');
        SplitChars(Coerce(body), "", 0, '\n');
        ParseFlat(SplitFrom(Coerce(body), "", 0));
      }
      assert RowsOfLines(lines) == RowsOfLine(lines[0]) + RowsOfLines(lines[1..]);
    }
  }

  lemma {:induction false} LinesUnbroken(s: string)
    ensures forall l :: l in SplitLines(s) ==> '\n' !in l
    decreases |s|
  {
    var i := IndexOf(s, '\n');
    if i < |s| {
      LinesUnbroken(s[i + 1..]);
      assert '\n' !in s[..i];
      assert forall l :: l in SplitLines(s) ==> l == s[..i] || l in SplitLines(s[i + 1..]);
    } else {
      assert '\n' !in s;
    }
  }

  lemma {:induction false} NameFlat(e: Entry)
    requires LaneName(e.name) && '\n' !in e.why
    ensures '\n' !in EntryText(e)
  {
    assert forall c :: c in e.name ==> 'a' <= c <= 'z';
    assert '\n' !in e.name + " (" + e.why;
  }

  lemma {:induction false} LineFlat(es: seq<Entry>)
    requires LaneNames(es) && Flat(es)
    ensures '\n' !in JoinLine(es)
    decreases |es|
  {
    if es != [] {
      LineFlat(es[1..]);
      NameFlat(es[0]);
    }
  }

  // ----- print, then read -----

  lemma {:induction false} LineReadsBack(es: seq<Entry>)
    requires LaneNames(es)
    ensures Lifted(PREFIX + JoinLine(es)) == es <==> Clean(es) && Flat(es) && Valids(es)
  {
    hide Valids, Coerce, JoinLine, SplitFrom, ParseAll, Clean, SplitLines, PREFIX, LaneName;
    var text := PREFIX + JoinLine(es);
    if Flat(es) {
      LineFlat(es);
      assert '\n' !in PREFIX by { PrefixFlat(); }
      NoBreak(text);
      assert text[|PREFIX|..] == JoinLine(es);
      RoundTrip(es);
    } else {
      LinesUnbroken(text);
      RowsFlat(SplitLines(text));
    }
  }

  lemma {:induction false} PrefixFlat()
    ensures '\n' !in PREFIX
  {
  }

  // The screen as a whole: above and below the blocked line stands any text.
  function Screen(above: string, line: string, below: string): (s: string) {
    above + "\n" + (PREFIX + line + "\n" + below)
  }

  lemma {:induction false} ScreenLifts(above: string, line: string, below: string)
    ensures Lifted(Screen(above, line, below)) == Lifted(above) + Lifted(PREFIX + line) + Lifted(below)
  {
    hide Lifted, PREFIX;
    LiftedAtBreak(above, PREFIX + line + "\n" + below);
    LiftedAtBreak(PREFIX + line, below);
  }

  lemma {:induction false} RowsFrom(lines: seq<string>, i: nat)
    requires i <= |lines|
    ensures RowsOfLines(lines[i..]) == if i == |lines| then [] else RowsOfLine(lines[i]) + RowsOfLines(lines[i + 1..])
  {
    hide RowsOfLine;
    if i < |lines| { assert lines[i..][0] == lines[i] && lines[i..][1..] == lines[i + 1..]; }
  }

  // The loop over the lines, as far as the blocked rows go.
  method Styled(plain: string) returns (rows: seq<Entry>)
    ensures rows == Lifted(plain)
  {
    hide SplitLines, RowsOfLines, ParseLine, PREFIX, TrimNewlines;
    TrimmedLifts(plain);
    var lines := SplitLines(TrimNewlines(plain));
    rows := [];
    assert lines[0..] == lines;
    for i := 0 to |lines|
      invariant rows + RowsOfLines(lines[i..]) == Lifted(plain)
    {
      RowsFrom(lines, i);
      if PREFIX <= lines[i] {
        var more := BlockedRows(lines[i]);
        rows := rows + more;
      }
    }
    RowsFrom(lines, |lines|);
  }

  // Print, then read: one row per blocked lane, in sorted order and with its
  // reason intact, if and only if no reason upsets the scan, breaks the line or
  // ends inside a character.
  method Reprint(above: string, blocked: map<string, string>, below: string) returns (rows: seq<Entry>)
    requires forall k :: k in blocked ==> LaneName(k)
    ensures rows == Lifted(above) + Rows(blocked) + Lifted(below)
            <==> Clean(Rows(blocked)) && Unbroken(blocked)
    ensures (forall k :: k in blocked ==> Balanced(blocked[k], 0)) && Unbroken(blocked)
            ==> rows == Lifted(above) + Rows(blocked) + Lifted(below)
  {
    hide *;
    var line := JoinBlocked(blocked);
    rows := Styled(Screen(above, line, below));
    ScreenLifts(above, line, below);
    ReadsBack(blocked);
    Middle(Lifted(above), Lifted(PREFIX + line), Rows(blocked), Lifted(below));
  }

  lemma {:induction false} Middle(a: seq<Entry>, m: seq<Entry>, n: seq<Entry>, b: seq<Entry>)
    ensures a + m + b == a + n + b <==> m == n
  {
    if a + m + b == a + n + b {
      assert |m| == |n|;
      assert m == (a + m + b)[|a|..|a| + |m|];
      assert n == (a + n + b)[|a|..|a| + |n|];
    }
  }

  // No reason holds a line break or half a character.
  predicate Unbroken(blocked: map<string, string>) {
    forall k :: k in blocked ==> '\n' !in blocked[k] && Valid(blocked[k])
  }

  lemma {:induction false} ReadsBack(blocked: map<string, string>)
    requires forall k :: k in blocked ==> LaneName(k)
    ensures Lifted(PREFIX + JoinLine(Rows(blocked))) == Rows(blocked) <==> Clean(Rows(blocked)) && Unbroken(blocked)
    ensures (forall k :: k in blocked ==> Balanced(blocked[k], 0)) ==> Clean(Rows(blocked))
  {
    hide Lifted, Clean, Balanced, JoinLine, PREFIX, LaneName;
    var es := Rows(blocked);
    LineReadsBack(es);
    assert Flat(es) && Valids(es) <==> Unbroken(blocked) by { FlatIff(blocked); }
    if forall k :: k in blocked ==> Balanced(blocked[k], 0) { BalancedIsClean(es); }
  }

  lemma {:induction false} FlatIff(blocked: map<string, string>)
    ensures Flat(Rows(blocked)) && Valids(Rows(blocked)) <==> Unbroken(blocked)
  {
    hide Rows, Valid;
    var es := Rows(blocked);
    if Flat(es) && Valids(es) {
      forall k | k in blocked ensures '\n' !in blocked[k] && Valid(blocked[k]) {
        var i := RowOf(blocked, k);
      }
    }
    if Unbroken(blocked) {
      forall i | 0 <= i < |es| ensures '\n' !in es[i].why && Valid(es[i].why) { }
    }
  }

  lemma {:induction false} RowOf(blocked: map<string, string>, k: string) returns (i: nat)
    requires k in blocked
    ensures i < |Rows(blocked)| && Rows(blocked)[i].why == blocked[k]
  {
    var ks := Listing(blocked.Keys);
    assert k in multiset(blocked.Keys) && k in multiset(ks);
    i :| 0 <= i < |ks| && ks[i] == k;
  }
}
