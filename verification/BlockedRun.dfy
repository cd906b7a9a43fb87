// The blocked line as it is printed and read: an in-place insertion sort of the
// lane names, the join, and the scanning loop.
module BlockedRun {
  import opened Text
  import opened BlockedLine
  import opened Utf8

  // ----- the order of strings -----

  predicate Less(a: string, b: string) {
    if b == "" then false
    else if a == "" then true
    else a[0] < b[0] || (a[0] == b[0] && Less(a[1..], b[1..]))
  }

  predicate Leq(a: string, b: string) { !Less(b, a) }

  lemma {:induction false} LessTrans(a: string, b: string, c: string)
    requires Leq(a, b) && Leq(b, c)
    ensures Leq(a, c)
    decreases |a|
  {
    if a != "" && b != "" && c != "" && a[0] == b[0] == c[0] { LessTrans(a[1..], b[1..], c[1..]); }
  }

  lemma {:induction false} LessTotal(a: string, b: string)
    ensures Leq(a, b) || Less(b, a)
    ensures Less(a, b) ==> Leq(a, b)
    ensures a != b ==> Less(a, b) || Less(b, a)
    decreases |a|
  {
    if a != "" && b != "" {
      assert a == [a[0]] + a[1..] && b == [b[0]] + b[1..];
      LessTotal(a[1..], b[1..]);
    }
  }

  predicate Sorted(s: seq<string>) {
    forall i, j :: 0 <= i < j < |s| ==> Leq(s[i], s[j])
  }

  // Strictly sorted from k on, as the inner loop leaves all but the moving one.
  predicate SortedBut(s: seq<string>, k: nat) {
    && (forall i, j :: 0 <= i < j < |s| && i != k && j != k ==> Leq(s[i], s[j]))
    && (forall j :: k < j < |s| ==> Leq(s[k], s[j])) && k <= |s|
  }

  function Swapped(s: seq<string>, k: nat): (t: seq<string>)
    requires 0 < k < |s|
    ensures |t| == |s| && t[k] == s[k - 1] && t[k - 1] == s[k]
    ensures forall i :: 0 <= i < |s| && i != k && i != k - 1 ==> t[i] == s[i]
  {
    s[k := s[k - 1]][k - 1 := s[k]]
  }

  lemma {:induction false} SwapOrder(s: seq<string>, k: nat)
    requires 0 < k < |s| && SortedBut(s, k) && Less(s[k], s[k - 1])
    ensures SortedBut(Swapped(s, k), k - 1)
  {
    LessTotal(s[k], s[k - 1]);
    hide Less, Leq;
    var t := Swapped(s, k);
    forall i, j | 0 <= i < j < |t| && i != k - 1 && j != k - 1 ensures Leq(t[i], t[j]) {
      var i' := if i == k then k - 1 else i;
      var j' := if j == k then k - 1 else j;
      assert t[i] == s[i'] && t[j] == s[j'];
    }
    forall j | k - 1 < j < |t| ensures Leq(t[k - 1], t[j]) {
      assert j != k ==> t[j] == s[j];
    }
  }

  lemma {:induction false} DoneSorted(s: seq<string>, k: nat)
    requires SortedBut(s, k) && (0 < k < |s| ==> Leq(s[k - 1], s[k]))
    ensures Sorted(s)
  {
    forall i, j | 0 <= i < j < |s| ensures Leq(s[i], s[j]) {
      if j == k && i < k - 1 { LessTrans(s[i], s[k - 1], s[k]); }
    }
  }

  method SortStrings(a: array<string>)
    modifies a
    ensures Sorted(a[..]) && multiset(a[..]) == multiset(old(a[..]))
  {
    var i := 1;
    while i < a.Length
      invariant 1 <= i && (i <= a.Length || a.Length == 0)
      invariant i <= a.Length ==> Sorted(a[..i])
      invariant multiset(a[..]) == multiset(old(a[..]))
    {
      Insert(a, i);
      i := i + 1;
    }
    assert a[..] == a[..a.Length];
  }

  method SwapDown(a: array<string>, i: nat, j: nat)
    requires 0 < j <= i < a.Length && SortedBut(a[..i + 1], j) && Less(a[j], a[j - 1])
    modifies a
    ensures SortedBut(a[..i + 1], j - 1)
    ensures a[i + 1..] == old(a[i + 1..]) && multiset(a[..i + 1]) == multiset(old(a[..i + 1]))
  {
    hide Less, Leq, SortedBut;
    ghost var s := a[..i + 1];
    SwapOrder(s, j);
    a[j], a[j - 1] := a[j - 1], a[j];
    assert a[..i + 1] == Swapped(s, j);
  }

  // The inner loop: the i-th string moves down past every larger one.
  method Insert(a: array<string>, i: nat)
    requires 0 < i < a.Length && Sorted(a[..i])
    modifies a
    ensures Sorted(a[..i + 1]) && multiset(a[..]) == multiset(old(a[..]))
  {
    ghost var tail := a[i + 1..];
    ghost var head := a[..i + 1];
    var j := i;
    assert SortedBut(head, j) by { assert head[..i] == a[..i]; }
    assert a[..] == head + tail;
    hide Less, SortedBut, Sorted;
    while j > 0 && Less(a[j], a[j - 1])
      invariant 0 <= j <= i
      invariant SortedBut(a[..i + 1], j)
      invariant a[i + 1..] == tail
      invariant multiset(a[..i + 1]) == multiset(head)
    {
      SwapDown(a, i, j);
      j := j - 1;
    }
    DoneSorted(a[..i + 1], j);
    assert a[..] == a[..i + 1] + tail;
  }

  // ----- printing -----

  function Entries(ks: seq<string>, blocked: map<string, string>): (es: seq<Entry>)
    requires forall k :: k in ks ==> k in blocked
    ensures |es| == |ks| && forall i :: 0 <= i < |ks| ==> es[i] == Entry(ks[i], blocked[ks[i]])
  {
    seq(|ks|, i requires 0 <= i < |ks| => Entry(ks[i], blocked[ks[i]]))
  }

  function Placed(k: string, ks: seq<string>): (r: seq<string>) {
    if ks == [] || Leq(k, ks[0]) then [k] + ks else [ks[0]] + Placed(k, ks[1..])
  }

  lemma {:induction false} PlacedPermutes(k: string, ks: seq<string>)
    ensures multiset(Placed(k, ks)) == multiset(ks) + multiset{k}
    decreases |ks|
  {
    hide Leq;
    if ks != [] {
      assert ks == [ks[0]] + ks[1..];
      if !Leq(k, ks[0]) { PlacedPermutes(k, ks[1..]); }
    }
  }

  lemma {:induction false} PlacedSorted(k: string, ks: seq<string>)
    requires Sorted(ks)
    ensures Sorted(Placed(k, ks))
    decreases |ks|
  {
    hide Leq, Less;
    if ks != [] {
      LessTotal(k, ks[0]);
      forall y | y in ks && Leq(k, ks[0]) ensures Leq(k, y) {
        if y != ks[0] { LessTrans(k, ks[0], y); }
      }
      if !Leq(k, ks[0]) { PlacedLater(k, ks); }
    }
  }

  lemma {:induction false} PlacedLater(k: string, ks: seq<string>)
    requires ks != [] && Sorted(ks) && !Leq(k, ks[0])
    ensures Sorted([ks[0]] + Placed(k, ks[1..]))
    decreases |ks|, 0
  {
    hide Leq, Less, Placed;
    var tail := Placed(k, ks[1..]);
    PlacedSorted(k, ks[1..]);
    PlacedPermutes(k, ks[1..]);
    LessTotal(ks[0], k);
    LessTotal(k, ks[0]);
    forall y | y in tail ensures Leq(ks[0], y) {
      assert y in multiset(tail);
    }
  }

  // The names in a set, each once, in order.
  ghost function Listing(keys: set<string>): (ks: seq<string>)
    ensures Sorted(ks) && multiset(ks) == multiset(keys)
    decreases keys
  {
    if keys == {} then []
    else
      var k :| k in keys;
      PlacedSorted(k, Listing(keys - {k}));
      PlacedPermutes(k, Listing(keys - {k}));
      assert multiset(keys) == multiset(keys - {k}) + multiset{k};
      Placed(k, Listing(keys - {k}))
  }

  ghost function Rows(blocked: map<string, string>): (es: seq<Entry>)
    ensures |es| == |blocked.Keys|
    ensures forall i :: 0 <= i < |es| ==> es[i].name in blocked && es[i].why == blocked[es[i].name]
  {
    assert |Listing(blocked.Keys)| == |multiset(Listing(blocked.Keys))|;
    assert forall k :: k in Listing(blocked.Keys) ==> k in multiset(Listing(blocked.Keys));
    Entries(Listing(blocked.Keys), blocked)
  }

  // There is only one such listing, so the line does not depend on map order.
  lemma {:induction false} SameFirst(a: seq<string>, b: seq<string>)
    requires Sorted(a) && Sorted(b) && multiset(a) == multiset(b) && a != []
    ensures b != [] && a[0] == b[0]
  {
    assert |multiset(a)| == |multiset(b)|;
    assert a[0] in multiset(b) && b[0] in multiset(a);
    var i :| 0 <= i < |b| && b[i] == a[0];
    var j :| 0 <= j < |a| && a[j] == b[0];
    LessTotal(a[0], b[0]);
  }

  lemma {:induction false} OneOrder(a: seq<string>, b: seq<string>)
    requires Sorted(a) && Sorted(b) && multiset(a) == multiset(b)
    ensures a == b
    decreases |a|
  {
    if a == [] {
      assert |multiset(a)| == |multiset(b)|;
    } else {
      SameFirst(a, b);
      assert a == [a[0]] + a[1..] && b == [b[0]] + b[1..];
      assert multiset(a[1..]) == multiset(a) - multiset{a[0]} == multiset(b[1..]);
      OneOrder(a[1..], b[1..]);
    }
  }

  method KeysOf(blocked: map<string, string>) returns (a: array<string>)
    ensures fresh(a) && multiset(a[..]) == multiset(blocked.Keys)
  {
    var keys: seq<string> := [];
    var left := blocked.Keys;
    while left != {}
      invariant left <= blocked.Keys
      invariant multiset(keys) + multiset(left) == multiset(blocked.Keys)
      decreases left
    {
      var k :| k in left;
      keys := keys + [k];
      left := left - {k};
    }
    a := new string[|keys|](i requires 0 <= i < |keys| => keys[i]);
    assert a[..] == keys;
  }

  method JoinEntries(es: seq<Entry>) returns (line: string)
    ensures line == JoinLine(es)
  {
    line := "";
    assert es[0..] == es;
    for i := 0 to |es|
      invariant i == 0 ==> line == ""
      invariant JoinLine(es) == if i == 0 then JoinLine(es[i..])
                                else if i == |es| then line
                                else line + ", " + JoinLine(es[i..])
    {
      assert es[i..][1..] == es[i + 1..];
      ghost var was := line;
      line := if i == 0 then EntryText(es[i]) else line + ", " + EntryText(es[i]);
      assert i > 0 && i + 1 < |es| ==>
        was + ", " + (EntryText(es[i]) + ", " + JoinLine(es[i + 1..])) == line + ", " + JoinLine(es[i + 1..]);
    }
  }

  // One entry per blocked lane, in the order of their names.
  method JoinBlocked(blocked: map<string, string>) returns (line: string)
    ensures line == JoinLine(Rows(blocked))
  {
    hide Placed, Leq, Listing;
    var keys := KeysOf(blocked);
    SortStrings(keys);
    assert forall k :: k in keys[..] ==> k in multiset(keys[..]);
    OneOrder(keys[..], Listing(blocked.Keys));
    line := JoinEntries(Entries(keys[..], blocked));
  }

  // ----- reading -----

  // What one turn of the range loop appends.
  function Head(s: string): (r: string)
    requires s != ""
  {
    if RuneLen(s) == 0 then REPLACEMENT else s[..RuneLen(s)]
  }

  function Width(s: string): (k: nat)
    requires s != ""
    ensures 0 < k <= |s|
  {
    if RuneLen(s) == 0 then 1 else RuneLen(s)
  }

  lemma {:induction false} ScanTurn(s: string, cur: string, depth: int)
    requires s != ""
    ensures SplitFrom(Coerce(s), cur, depth) ==
            if s[0] == ',' && depth == 0 then [Trim(cur)] + SplitFrom(Coerce(s[Width(s)..]), "", 0)
            else SplitFrom(Coerce(s[Width(s)..]), cur + Head(s), depth + Delta(s[0]))
  {
    var head, rest := Head(s), Coerce(s[Width(s)..]);
    assert Coerce(s) == head + rest;
    hide Trim, Coerce, Holds, Net;
    if RuneLen(s) == 1 {
      assert head == [s[0]] && Coerce(s)[0] == s[0] && Coerce(s)[1..] == rest;
    } else {
      forall i | 0 <= i < |head| ensures head[i] >= '\U{80}' {
        if RuneLen(s) > 1 { RuneBytes(s, i); }
      }
      assert s[0] >= '\U{80}' by { if RuneLen(s) > 1 { RuneBytes(s, 0); } }
      Undelimited(head, depth);
      Carry(head, rest, cur, depth);
    }
  }

  method SplitBlocked(s: string) returns (parts: seq<string>)
    ensures parts == SplitFrom(Coerce(s), "", 0)
  {
    hide Coerce, Width, Head, SplitFrom;
    parts := [];
    var cur, depth, i := "", 0, 0;
    assert s[0..] == s;
    while i < |s|
      invariant 0 <= i <= |s|
      invariant parts + SplitFrom(Coerce(s[i..]), cur, depth) == SplitFrom(Coerce(s), "", 0)
    {
      var k := Width(s[i..]);
      ScanTurn(s[i..], cur, depth);
      assert s[i..][k..] == s[i + k..] && s[i..][0] == s[i];
      if s[i] == ',' && depth == 0 {
        parts := parts + [Trim(cur)];
        cur := "";
      } else {
        depth := depth + Delta(s[i]);
        cur := cur + Head(s[i..]);
      }
      i := i + k;
    }
    assert s[i..] == "";
    ScanEnds(cur, depth);
    if Trim(cur) != "" {
      parts := parts + [Trim(cur)];
    }
  }

  lemma {:induction false} ScanEnds(cur: string, depth: int)
    ensures SplitFrom(Coerce(""), cur, depth) == if Trim(cur) != "" then [Trim(cur)] else []
  {
  }

  const PREFIX: string := "        blocked: "

  method ParseParts(parts: seq<string>) returns (rows: seq<Entry>)
    ensures rows == ParseAll(parts)
  {
    hide ParsePart;
    rows := [];
    var i := 0;
    assert parts[0..] == parts;
    while i < |parts|
      invariant 0 <= i <= |parts|
      invariant rows + ParseAll(parts[i..]) == ParseAll(parts)
    {
      assert parts[i..][1..] == parts[i + 1..];
      rows := rows + [ParsePart(parts[i])];
      i := i + 1;
    }
    assert parts[i..] == [];
  }

  method BlockedRows(line: string) returns (rows: seq<Entry>)
    ensures rows == ParseLine(if PREFIX <= line then line[|PREFIX|..] else line)
  {
    hide SplitFrom, ParseAll, PREFIX;
    var body := if PREFIX <= line then line[|PREFIX|..] else line;
    var parts := SplitBlocked(body);
    rows := ParseParts(parts);
  }
}
