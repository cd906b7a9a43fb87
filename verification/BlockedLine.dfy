// The blocked line of a plan: printed by internal/plan, taken apart again by
// internal/render on the commas that no parenthesis encloses.
module BlockedLine {
  import opened Text
  import opened Utf8

  datatype Entry = Entry(name: string, why: string)

  // ----- printing -----

  function EntryText(e: Entry): (s: string) { e.name + " (" + e.why + ")" }

  function JoinLine(es: seq<Entry>): (s: string) {
    if es == [] then ""
    else if |es| == 1 then EntryText(es[0])
    else EntryText(es[0]) + ", " + JoinLine(es[1..])
  }

  // ----- parsing -----

  function Delta(c: char): (d: int) { if c == '(' then 1 else if c == ')' then -1 else 0 }

  // The scan: what is left to read, the part being built, the paren depth.
  function SplitFrom(s: string, cur: string, depth: int): (parts: seq<string>) {
    if s == "" then
      if Trim(cur) != "" then [Trim(cur)] else []
    else if s[0] == ',' && depth == 0 then
      [Trim(cur)] + SplitFrom(s[1..], "", 0)
    else
      SplitFrom(s[1..], cur + [s[0]], depth + Delta(s[0]))
  }

  function ParsePart(part: string): (e: Entry) {
    var i := IndexOf(part, '(');
    if i < |part| && part[|part| - 1] == ')'
    then Entry(Trim(part[..i]), if i + 1 <= |part| - 1 then part[i + 1..|part| - 1] else "")
    else Entry(Trim(part), "")
  }

  function ParseAll(parts: seq<string>): (es: seq<Entry>)
    ensures |es| == |parts|
  {
    if parts == [] then [] else [ParsePart(parts[0])] + ParseAll(parts[1..])
  }

  // The scan goes rune by rune, so it coerces what it reads.
  function ParseLine(body: string): (es: seq<Entry>) { ParseAll(SplitFrom(Coerce(body), "", 0)) }

  // ----- when the parts come apart where they were joined -----

  function Net(s: string): (d: int) {
    if s == "" then 0 else Delta(s[0]) + Net(s[1..])
  }

  // Scanned from a depth, the text shows no comma at depth zero.
  predicate Holds(s: string, depth: int) {
    s == "" || (!(s[0] == ',' && depth == 0) && Holds(s[1..], depth + Delta(s[0])))
  }

  // A reason that cannot upset the scan: no comma of it at depth zero, and,
  // unless it is the last, no parenthesis left open or closed too often.
  predicate Clean(es: seq<Entry>) {
    es == [] || (Holds(es[0].why, 1) && (|es| > 1 ==> Net(es[0].why) == 0) && Clean(es[1..]))
  }

  // Never more closed than opened, and as many closed as opened.
  predicate Balanced(s: string, depth: nat) {
    if s == "" then depth == 0
    else depth + Delta(s[0]) >= 0 && Balanced(s[1..], depth + Delta(s[0]))
  }

  predicate LaneName(s: string) {
    s != "" && forall i :: 0 <= i < |s| ==> 'a' <= s[i] <= 'z'
  }

  predicate LaneNames(es: seq<Entry>) {
    forall i :: 0 <= i < |es| ==> LaneName(es[i].name)
  }

  lemma {:induction false} BalancedHolds(s: string, depth: nat)
    requires Balanced(s, depth)
    ensures Holds(s, depth + 1) && Net(s) + depth == 0
    decreases |s|
  {
    if s != "" { BalancedHolds(s[1..], depth + Delta(s[0])); }
  }

  // Balanced reasons are clean, commas and all.
  lemma {:induction false} BalancedIsClean(es: seq<Entry>)
    requires forall i :: 0 <= i < |es| ==> Balanced(es[i].why, 0)
    ensures Clean(es)
    decreases |es|
  {
    if es != [] {
      BalancedHolds(es[0].why, 0);
      BalancedIsClean(es[1..]);
    }
  }

  // ----- carrying the scan over a stretch of text -----

  lemma {:induction false} Carry(u: string, rest: string, cur: string, depth: int)
    requires Holds(u, depth)
    ensures SplitFrom(u + rest, cur, depth) == SplitFrom(rest, cur + u, depth + Net(u))
    decreases |u|
  {
    if u == "" {
      assert u + rest == rest && cur + u == cur;
    } else {
      assert (u + rest)[0] == u[0] && (u + rest)[1..] == u[1..] + rest;
      Carry(u[1..], rest, cur + [u[0]], depth + Delta(u[0]));
      assert cur + [u[0]] + u[1..] == cur + u;
    }
  }

  // Where the first comma at depth zero stands, if there is one.
  lemma {:induction false} Breaks(u: string, rest: string, cur: string, depth: int) returns (k: nat)
    requires !Holds(u, depth)
    ensures k < |u| && u[k] == ',' && depth + Net(u[..k]) == 0
    ensures SplitFrom(u + rest, cur, depth) == [Trim(cur + u[..k])] + SplitFrom((u + rest)[k + 1..], "", 0)
    decreases |u|
  {
    assert (u + rest)[0] == u[0] && (u + rest)[1..] == u[1..] + rest;
    if u[0] == ',' && depth == 0 {
      k := 0;
      assert cur + u[..0] == cur;
    } else {
      var j := Breaks(u[1..], rest, cur + [u[0]], depth + Delta(u[0]));
      k := j + 1;
      assert u[..k][0] == u[0] && u[..k][1..] == u[1..][..j];
      assert cur + [u[0]] + u[1..][..j] == cur + u[..k];
      assert (u[1..] + rest)[j + 1..] == (u + rest)[k + 1..];
    }
  }

  lemma {:induction false} HoldsAppend(a: string, b: string, depth: int)
    ensures Holds(a + b, depth) <==> Holds(a, depth) && Holds(b, depth + Net(a))
    ensures Net(a + b) == Net(a) + Net(b)
    decreases |a|
  {
    if a == "" {
      assert a + b == b;
    } else {
      assert (a + b)[0] == a[0] && (a + b)[1..] == a[1..] + b;
      HoldsAppend(a[1..], b, depth + Delta(a[0]));
    }
  }

  lemma {:induction false} NamePlain(s: string)
    requires forall i :: 0 <= i < |s| ==> 'a' <= s[i] <= 'z'
    ensures Net(s) == 0 && Holds(s, 0)
    decreases |s|
  {
    if s != "" { NamePlain(s[1..]); }
  }

  // An entry scans clean exactly when its reason does, and ends at its net.
  lemma {:induction false} EntryScan(e: Entry)
    requires LaneName(e.name)
    ensures Holds(EntryText(e), 0) <==> Holds(e.why, 1)
    ensures Net(EntryText(e)) == Net(e.why)
  {
    NamePlain(e.name);
    var open := " (";
    assert open[1..] == "(" && "("[1..] == "" && ")"[1..] == "";
    assert Net(open) == 1 && Holds(open, 0) && Net(")") == -1 && Holds(")", 1 + Net(e.why));
    HoldsAppend(e.name, open, 0);
    HoldsAppend(e.name + open, e.why, 0);
    HoldsAppend(e.name + open + e.why, ")", 0);
    assert EntryText(e) == e.name + open + e.why + ")";
  }

  // ----- one entry -----

  lemma {:induction false} TrimName(name: string)
    requires LaneName(name)
    ensures Trim(name + " ") == name
  {
    var s := name + " ";
    assert TrimLeft(s) == s;
    assert s[..|s| - 1] == name;
    assert TrimRight(s) == TrimRight(name) == name;
  }

  lemma {:induction false} EntryParses(e: Entry)
    requires LaneName(e.name)
    ensures ParsePart(EntryText(e)) == e
  {
    var s := EntryText(e);
    var tail := "(" + e.why + ")";
    assert s == (e.name + " ") + tail;
    IndexFirst(e.name + " ", tail, '(');
    assert s[..|e.name| + 1] == e.name + " ";
    TrimName(e.name);
    assert s[|e.name| + 2..|s| - 1] == e.why;
  }

  lemma {:induction false} TrimEntry(e: Entry, lead: string)
    requires LaneName(e.name) && (lead == "" || lead == " ")
    ensures Trim(lead + EntryText(e)) == EntryText(e)
  {
    var t := EntryText(e);
    TrimFixed(t);
    if lead == " " {
      assert (lead + t)[1..] == t;
    } else {
      assert lead + t == t;
    }
  }

  // ----- the line -----

  lemma {:induction false} LastSplit(e: Entry, lead: string)
    requires LaneName(e.name) && Holds(e.why, 1) && (lead == "" || lead == " ")
    ensures SplitFrom(EntryText(e), lead, 0) == [EntryText(e)]
  {
    var t := EntryText(e);
    EntryScan(e);
    TrimEntry(e, lead);
    Carry(t, "", lead, 0);
    assert t + "" == t;
  }

  lemma {:induction false} AfterComma(line: string, cur: string)
    ensures SplitFrom(", " + line, cur, 0) == [Trim(cur)] + SplitFrom(line, " ", 0)
  {
    var rest := ", " + line;
    assert rest[0] == ',' && rest[1..] == " " + line;
    var tail := " " + line;
    assert tail[0] == ' ' && tail[1..] == line && "" + [' '] == " ";
    assert SplitFrom(tail, "", 0) == SplitFrom(line, " ", 0);
    hide Trim;
  }

  lemma {:induction false} StepSplit(e: Entry, line: string, lead: string)
    requires LaneName(e.name) && Holds(e.why, 1) && Net(e.why) == 0 && (lead == "" || lead == " ")
    ensures SplitFrom(EntryText(e) + ", " + line, lead, 0) == [EntryText(e)] + SplitFrom(line, " ", 0)
  {
    var t := EntryText(e);
    EntryScan(e);
    TrimEntry(e, lead);
    hide *;
    Carry(t, ", " + line, lead, 0);
    AfterComma(line, lead + t);
    assert t + (", " + line) == t + ", " + line;
  }

  // A clean line comes apart into the entries it was made of.
  lemma {:induction false} CleanSplits(es: seq<Entry>, lead: string)
    requires es != [] && LaneNames(es) && Clean(es) && (lead == "" || lead == " ")
    ensures ParseAll(SplitFrom(JoinLine(es), lead, 0)) == es
    decreases |es|
  {
    hide EntryText, SplitFrom, ParsePart, Holds, LaneName, Net;
    EntryParses(es[0]);
    if |es| == 1 {
      LastSplit(es[0], lead);
      assert [EntryText(es[0])][1..] == [];
    } else {
      StepSplit(es[0], JoinLine(es[1..]), lead);
      CleanSplits(es[1..], " ");
      var more := SplitFrom(JoinLine(es[1..]), " ", 0);
      assert ([EntryText(es[0])] + more)[1..] == more;
    }
  }

  // ----- and only a clean line does -----

  lemma {:induction false} TrimRightKeeps(s: string, j: nat)
    requires j < |s| && !IsSpace(s[j])
    ensures j < |TrimRight(s)|
    decreases |s|
  {
    if IsSpace(s[|s| - 1]) { TrimRightKeeps(s[..|s| - 1], j); }
  }

  predicate Opens(s: string, e: Entry) {
    |s| >= |e.name| + 2 && s[..|e.name| + 2] == e.name + " ("
  }

  // A part that opens like an entry but is shorter or longer parses to another.
  lemma {:induction false} WrongPart(e: Entry, part: string)
    requires LaneName(e.name) && Opens(part, e) && |part| != |EntryText(e)|
    requires !IsSpace(part[0]) && !IsSpace(part[|part| - 1])
    ensures ParsePart(part) != e
  {
    var tail := part[|e.name| + 1..];
    assert part == (e.name + " ") + tail;
    assert part[|e.name| + 1] == '(';
    IndexFirst(e.name + " ", tail, '(');
    TrimFixed(part);
    if part[|part| - 1] != ')' {
      assert Trim(part)[|e.name| + 1] == '(';
    }
  }

  lemma {:induction false} TrimLead(v: string, lead: string)
    requires v != "" && !IsSpace(v[0]) && (lead == "" || lead == " ")
    ensures Trim(lead + v) == TrimRight(v)
  {
    assert TrimLeft(v) == v;
    if lead == " " {
    } else {
      assert lead + v == v;
    }
    hide TrimLeft, TrimRight, IsSpace;
  }

  lemma {:induction false} TrimOpens(e: Entry, lead: string, v: string, j: nat)
    requires LaneName(e.name) && Opens(v, e) && (lead == "" || lead == " ")
    requires |e.name| + 1 <= j < |v| && !IsSpace(v[j])
    ensures var p := Trim(lead + v);
            Opens(p, e) && j < |p| <= |v| && !IsSpace(p[0]) && !IsSpace(p[|p| - 1])
  {
    assert v[0] == v[..|e.name| + 2][0] == e.name[0];
    TrimLead(v, lead);
    TrimRightKeeps(v, j);
    hide TrimRight, TrimLeft, Trim, IsSpace;
    var p := TrimRight(v);
    assert p[..|e.name| + 2] == v[..|e.name| + 2];
  }

  // A reason with a comma at depth zero is cut there.
  lemma {:induction false} CutReason(e: Entry, rest: string, lead: string)
    requires LaneName(e.name) && !Holds(e.why, 1) && (lead == "" || lead == " ")
    ensures var parts := SplitFrom(EntryText(e) + rest, lead, 0); parts != [] && ParsePart(parts[0]) != e
  {
    hide SplitFrom, Holds, Net, ParsePart, Trim;
    var t := EntryText(e);
    EntryScan(e);
    var k := Breaks(t, rest, lead, 0);
    assert forall j :: 0 <= j < |e.name| + 2 ==> t[j] != ',';
    var v := t[..k];
    assert v[..|e.name| + 2] == e.name + " (";
    assert v[|e.name| + 1] == '(';
    TrimOpens(e, lead, v, |e.name| + 1);
    WrongPart(e, Trim(lead + v));
  }

  // A part that runs past its entry parses to another.
  lemma {:induction false} LongPart(e: Entry, v: string, lead: string)
    requires LaneName(e.name) && |v| > |EntryText(e)| && v[..|EntryText(e)|] == EntryText(e) && v[|EntryText(e)|] == ','
    requires lead == "" || lead == " "
    ensures ParsePart(Trim(lead + v)) != e
  {
    var t := EntryText(e);
    hide ParsePart, Trim;
    assert v[..|e.name| + 2] == t[..|e.name| + 2] == e.name + " (";
    TrimOpens(e, lead, v, |t|);
    WrongPart(e, Trim(lead + v));
  }

  // A reason that leaves parentheses open or closed too often swallows the
  // comma after its entry.
  lemma {:induction false} LostComma(e: Entry, line: string, lead: string)
    requires LaneName(e.name) && Holds(e.why, 1) && Net(e.why) != 0 && (lead == "" || lead == " ")
    ensures var parts := SplitFrom(EntryText(e) + ", " + line, lead, 0);
            |parts| <= 1 || ParsePart(parts[0]) != e
  {
    var t, rest := EntryText(e), ", " + line;
    var u := t + rest;
    EntryScan(e);
    assert u == t + ", " + line && u + "" == u;
    hide EntryText, ParsePart, Trim;
    if Holds(u, 0) {
      Carry(u, "", lead, 0);
    } else {
      var k := Breaks(u, "", lead, 0);
      AfterEntry(t, rest, k);
      assert u[..k][..|t|] == t && u[..k][|t|] == ',';
      LongPart(e, u[..k], lead);
    }
  }

  // Within a stretch that holds, and at its unbalanced end, depth is not zero at a comma.
  lemma {:induction false} AfterEntry(t: string, rest: string, k: nat)
    requires Holds(t, 0) && Net(t) != 0 && k < |t + rest| && (t + rest)[k] == ',' && Net((t + rest)[..k]) == 0
    ensures k > |t|
  {
    if k < |t| {
      assert (t + rest)[..k] == t[..k];
      assert t == t[..k] + t[k..];
      HoldsAppend(t[..k], t[k..], 0);
    }
  }

  lemma {:induction false} DirtyFails(es: seq<Entry>, lead: string)
    requires es != [] && LaneNames(es) && !Clean(es) && (lead == "" || lead == " ")
    ensures ParseAll(SplitFrom(JoinLine(es), lead, 0)) != es
    decreases |es|
  {
    var parts := SplitFrom(JoinLine(es), lead, 0);
    var rest := if |es| == 1 then "" else ", " + JoinLine(es[1..]);
    assert JoinLine(es) == EntryText(es[0]) + rest;
    if !Holds(es[0].why, 1) {
      CutReason(es[0], rest, lead);
    } else {
      assert |es| > 1;
      assert EntryText(es[0]) + rest == EntryText(es[0]) + ", " + JoinLine(es[1..]);
      if Net(es[0].why) != 0 {
        LostComma(es[0], JoinLine(es[1..]), lead);
      } else {
        StepSplit(es[0], JoinLine(es[1..]), lead);
        DirtyFails(es[1..], " ");
        assert parts[1..] == SplitFrom(JoinLine(es[1..]), " ", 0);
      }
    }
  }

  lemma {:induction false} Splits(es: seq<Entry>)
    requires LaneNames(es)
    ensures ParseAll(SplitFrom(JoinLine(es), "", 0)) == es <==> Clean(es)
  {
    hide SplitFrom, JoinLine, Clean, ParseAll;
    if es == [] {
      NothingSplits();
    } else if Clean(es) {
      CleanSplits(es, "");
    } else {
      DirtyFails(es, "");
    }
  }

  lemma {:induction false} NothingSplits()
    ensures ParseAll(SplitFrom(JoinLine([]), "", 0)) == [] && Clean([])
  {
  }

  // ----- a reason cut inside a character -----

  function Coerced(es: seq<Entry>): (r: seq<Entry>)
    ensures |r| == |es| && forall i :: 0 <= i < |r| ==> r[i] == Entry(es[i].name, Coerce(es[i].why))
  {
    seq(|es|, i requires 0 <= i < |es| => Entry(es[i].name, Coerce(es[i].why)))
  }

  predicate Valids(es: seq<Entry>) { forall i :: 0 <= i < |es| ==> Valid(es[i].why) }

  lemma {:induction false} EntryCoerced(e: Entry, rest: string)
    requires LaneName(e.name)
    ensures Coerce(EntryText(e) + rest) == EntryText(Entry(e.name, Coerce(e.why))) + Coerce(rest)
  {
    hide Coerce;
    var open, close := e.name + " (", ")" + rest;
    assert forall c :: c in e.name ==> 'a' <= c <= 'z';
    assert EntryText(e) + rest == open + (e.why + close);
    PlainFirst(open, e.why + close);
    CoerceBefore(e.why, close);
    PlainFirst(")", rest);
    assert open + (Coerce(e.why) + (")" + Coerce(rest))) == EntryText(Entry(e.name, Coerce(e.why))) + Coerce(rest);
  }

  lemma {:induction false} LineCoerced(es: seq<Entry>)
    requires LaneNames(es)
    ensures Coerce(JoinLine(es)) == JoinLine(Coerced(es))
    decreases |es|
  {
    hide Coerce, EntryText, LaneName;
    if es == [] {
      CoerceEmpty("");
    } else if |es| == 1 {
      EntryCoerced(es[0], "");
      CoerceEmpty("");
      assert EntryText(es[0]) + "" == EntryText(es[0]);
    } else {
      var rest := ", " + JoinLine(es[1..]);
      assert EntryText(es[0]) + rest == EntryText(es[0]) + ", " + JoinLine(es[1..]);
      EntryCoerced(es[0], rest);
      PlainFirst(", ", JoinLine(es[1..]));
      LineCoerced(es[1..]);
      assert Coerced(es)[1..] == Coerced(es[1..]);
      var text := EntryText(Coerced(es)[0]);
      assert text + (", " + JoinLine(Coerced(es[1..]))) == text + ", " + JoinLine(Coerced(es[1..]));
    }
  }

  lemma {:induction false} TrimValid(s: string)
    requires Valid(s)
    ensures Valid(Trim(s))
    decreases |s|
  {
    if s != "" && IsSpace(s[0]) {
      TrimValid(s[1..]);
    } else {
      assert TrimLeft(s) == s;
      TrimRightValid(s);
    }
  }

  lemma {:induction false} TrimRightValid(s: string)
    requires Valid(s)
    ensures Valid(TrimRight(s))
    decreases |s|
  {
    if s != "" && IsSpace(s[|s| - 1]) {
      CutIff(s, |s| - 1);
      TrimRightValid(s[..|s| - 1]);
    }
  }

  lemma {:induction false} PartValid(part: string)
    requires Valid(part)
    ensures Valid(ParsePart(part).why)
  {
    hide Trim;
    var i := IndexOf(part, '(');
    if i < |part| && part[|part| - 1] == ')' {
      var p := part[..|part| - 1];
      CutIff(part, |part| - 1);
      CutIff(p, i);
      assert p[i..][0] == '(' && p[i..][1..] == part[i + 1..|part| - 1];
    }
  }

  lemma {:induction false} Undelimited(u: string, depth: int)
    requires forall i :: 0 <= i < |u| ==> u[i] >= '\U{80}'
    ensures Holds(u, depth) && Net(u) == 0
    decreases |u|
  {
    if u != "" { Undelimited(u[1..], depth); }
  }

  // Parts of a valid line are valid: the scan never parts a character.
  lemma {:induction false} PartsValid(s: string, cur: string, depth: int)
    requires Valid(s) && Valid(cur)
    ensures forall p :: p in SplitFrom(s, cur, depth) ==> Valid(p)
    decreases |s|
  {
    hide Trim, Holds, Net, Coerce;
    TrimValid(cur);
    if s != "" {
      var k := RuneLen(s);
      RuneCut(s, k);
      OneRune(s[..k]);
      CoerceBefore(cur, s[..k]);
      if k == 1 {
        assert s[..1] == [s[0]];
        PartsValid(s[1..], "", 0);
        PartsValid(s[1..], cur + [s[0]], depth + Delta(s[0]));
      } else {
        forall i | 0 <= i < k ensures s[..k][i] >= '\U{80}' { RuneBytes(s, i); }
        Undelimited(s[..k], depth);
        Carry(s[..k], s[k..], cur, depth);
        assert s[..k] + s[k..] == s;
        PartsValid(s[k..], cur + s[..k], depth);
      }
    }
  }

  lemma {:induction false} RowsValid(parts: seq<string>)
    requires forall p :: p in parts ==> Valid(p)
    ensures Valids(ParseAll(parts))
    decreases |parts|
  {
    hide ParsePart, Valid;
    if parts != [] {
      assert parts[0] in parts;
      PartValid(parts[0]);
      RowsValid(parts[1..]);
    }
  }

  // The line gives back exactly the entries it was printed from if and only if
  // no reason upsets the scan or ends inside a character; balanced reasons never
  // upset it.
  lemma {:induction false} RoundTrip(es: seq<Entry>)
    requires LaneNames(es)
    ensures ParseLine(JoinLine(es)) == es <==> Clean(es) && Valids(es)
    ensures (forall i :: 0 <= i < |es| ==> Balanced(es[i].why, 0)) ==> Clean(es)
  {
    hide SplitFrom, JoinLine, Clean, ParseAll, Coerce, Valid, Balanced, LaneName;
    var line := Coerce(JoinLine(es));
    LineCoerced(es);
    Splits(Coerced(es));
    CoerceValid(JoinLine(es));
    PartsValid(line, "", 0) by { NothingValid(); }
    RowsValid(SplitFrom(line, "", 0));
    forall i | 0 <= i < |es| ensures Coerce(es[i].why) == es[i].why <==> Valid(es[i].why) { CoerceIff(es[i].why); }
    if Valids(es) {
      assert Coerced(es) == es;
    }
    if forall i :: 0 <= i < |es| ==> Balanced(es[i].why, 0) { BalancedIsClean(es); }
  }

  lemma {:induction false} NothingValid()
    ensures Valid("")
  {
  }
}
