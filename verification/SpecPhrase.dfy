// Which port a phrase names, by the pattern's own words.
module SpecPhrase {
  import opened Text
  import opened Decimal
  import opened SpecClamp
  import opened SpecHandOff

  // The word "port" in either case, white space up to a, and one to five digits
  // up to b, with no letter, digit or underscore on either side.
  ghost predicate Says(s: string, i: nat, a: nat, b: nat) {
    && i + 4 < a < b <= |s| && b - a <= 5
    && Lower(s[i..i + 4]) == "port" && (i == 0 || !WordChar(s[i - 1]))
    && (forall k :: i + 4 <= k < a ==> IsSpace(s[k]))
    && (forall k :: a <= k < b ==> IsDigit(s[k]))
    && (b == |s| || !WordChar(s[b]))
  }

  lemma {:induction false} SaysMatches(s: string, i: nat, a: nat, b: nat)
    requires Says(s, i, a, b)
    ensures MatchAt(s, i) == Some((b, Val(s[a..b])))
  {
    hide RunOfSpace, RunOfDigit, Val, Lower;
    assert IsDigit(s[a]);
    SpaceRunIs(s, i + 4, a - (i + 4));
    DigitRunIs(s, a, b - a);
  }

  lemma {:induction false} MatchSays(s: string, i: nat) returns (a: nat)
    requires i <= |s| && MatchAt(s, i).Some?
    ensures var b := MatchAt(s, i).value.0;
            Says(s, i, a, b) && MatchAt(s, i).value.1 == Val(s[a..b])
  {
    hide RunOfSpace, RunOfDigit, Val, Lower;
    a := i + 4 + RunOfSpace(s, i + 4);
  }

  // The first place that says so decides: its number, if it is one of a port; and
  // a phrase that says it nowhere names none.
  lemma {:induction false} PhraseNames(s: string, i: nat, a: nat, b: nat)
    ensures Says(s, i, a, b) && (forall j: nat, c: nat, d: nat :: j < i ==> !Says(s, j, c, d)) ==>
              IntentPort(s) == if 1 <= Val(s[a..b]) <= 65535 then Val(s[a..b]) else 0
    ensures (forall j: nat, c: nat, d: nat :: !Says(s, j, c, d)) ==> IntentPort(s) == 0
  {
    hide MatchAt, SearchFrom, Says, Val;
    var k := SearchFinds(s, 0);
    if MatchAt(s, k).Some? {
      var c := MatchSays(s, k);
      assert Says(s, k, c, MatchAt(s, k).value.0);
    }
    if Says(s, i, a, b) && forall j: nat, c: nat, d: nat :: j < i ==> !Says(s, j, c, d) {
      SaysMatches(s, i, a, b);
      SaysWithin(s, i, a, b);
      forall j | 0 <= j < i ensures MatchAt(s, j) == None {
        if MatchAt(s, j).Some? { var c := MatchSays(s, j); }
      }
      SearchIs(s, 0, i);
    }
  }

  lemma {:induction false} SaysWithin(s: string, i: nat, a: nat, b: nat)
    requires Says(s, i, a, b)
    ensures i + 4 < a < b <= |s|
  {
  }
}
