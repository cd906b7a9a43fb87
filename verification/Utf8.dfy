// Go strings are bytes, and here each byte is a character below 256.  What
// encoding/json and a range loop make of them: a byte that belongs to no rune
// becomes the replacement character.
module Utf8 {

  predicate Cont(c: char) { '\U{80}' <= c <= '\U{BF}' }

  predicate Lead3(a: char, b: char) {
    || (a == '\U{E0}' && '\U{A0}' <= b <= '\U{BF}')
    || (a == '\U{ED}' && '\U{80}' <= b <= '\U{9F}')
    || ('\U{E1}' <= a <= '\U{EF}' && a != '\U{ED}' && Cont(b))
  }

  predicate Lead4(a: char, b: char) {
    || (a == '\U{F0}' && '\U{90}' <= b <= '\U{BF}')
    || (a == '\U{F4}' && '\U{80}' <= b <= '\U{8F}')
    || ('\U{F1}' <= a <= '\U{F3}' && Cont(b))
  }

  // How many bytes the rune at the start takes; none if no rune starts there.
  function RuneLen(s: string): (k: nat)
    ensures k <= |s| && k <= 4
  {
    if s == "" then 0
    else if s[0] < '\U{80}' then 1
    else if |s| >= 2 && '\U{C2}' <= s[0] <= '\U{DF}' && Cont(s[1]) then 2
    else if |s| >= 3 && Lead3(s[0], s[1]) && Cont(s[2]) then 3
    else if |s| >= 4 && Lead4(s[0], s[1]) && Cont(s[2]) && Cont(s[3]) then 4
    else 0
  }

  // U+FFFD as its three bytes.
  const REPLACEMENT: string := "\U{EF}\U{BF}\U{BD}"

  predicate Valid(s: string)
    decreases |s|
  {
    s == "" || (RuneLen(s) > 0 && Valid(s[RuneLen(s)..]))
  }

  function Coerce(s: string): (r: string)
    decreases |s|
  {
    if s == "" then ""
    else if RuneLen(s) == 0 then REPLACEMENT + Coerce(s[1..])
    else s[..RuneLen(s)] + Coerce(s[RuneLen(s)..])
  }

  function CoerceAll(ss: seq<string>): (r: seq<string>)
    ensures |r| == |ss| && forall i :: 0 <= i < |r| ==> r[i] == Coerce(ss[i])
  {
    seq(|ss|, i requires 0 <= i < |ss| => Coerce(ss[i]))
  }

  // ----- a rune and its bytes -----

  // Only its own bytes decide a rune, and cut short it is none.
  lemma {:induction false} RuneCut(s: string, n: nat)
    requires RuneLen(s) > 0 && n <= |s|
    ensures n >= RuneLen(s) ==> RuneLen(s[..n]) == RuneLen(s)
    ensures 0 < n < RuneLen(s) ==> RuneLen(s[..n]) == 0 && Cont(s[n])
    ensures !Cont(s[0])
  {
  }

  // What follows a text makes no difference to its runes, unless it goes on
  // where a rune was cut.
  lemma {:induction false} RuneBefore(a: string, b: string)
    requires a != "" && (b == "" || !Cont(b[0]))
    ensures RuneLen(a + b) == RuneLen(a)
  {
    var s := a + b;
    assert b == "" ==> s == a;
    assert s[0] == a[0];
    if |s| > 1 { assert s[1] == if |a| > 1 then a[1] else b[0]; }
    if |s| > 2 && |a| >= 2 { assert s[2] == if |a| > 2 then a[2] else b[0]; }
    if |s| > 3 && |a| >= 3 { assert s[3] == if |a| > 3 then a[3] else b[0]; }
  }

  // ----- valid texts -----

  // Coercion never shortens, and leaves exactly the valid texts alone.
  lemma {:induction false} CoerceIff(s: string)
    ensures |Coerce(s)| >= |s|
    ensures Coerce(s) == s <==> Valid(s)
    decreases |s|
  {
    if s != "" {
      var k := RuneLen(s);
      if k == 0 {
        CoerceIff(s[1..]);
      } else {
        CoerceIff(s[k..]);
        assert s == s[..k] + s[k..];
        if Coerce(s) == s { assert Coerce(s[k..]) == Coerce(s)[k..] == s[k..]; }
      }
    }
  }

  lemma {:induction false} CoerceBefore(a: string, b: string)
    requires b == "" || !Cont(b[0])
    ensures Coerce(a + b) == Coerce(a) + Coerce(b)
    ensures Valid(a + b) <==> Valid(a) && Valid(b)
    decreases |a|
  {
    hide RuneLen, REPLACEMENT, Cont;
    var s := a + b;
    if a == "" {
      assert s == b;
    } else {
      RuneBefore(a, b);
      var k := RuneLen(a);
      if k == 0 {
        assert s[1..] == a[1..] + b;
        CoerceBefore(a[1..], b);
        assert Coerce(s) == REPLACEMENT + (Coerce(a[1..]) + Coerce(b));
      } else {
        assert s[k..] == a[k..] + b && s[..k] == a[..k];
        CoerceBefore(a[k..], b);
        assert Coerce(s) == a[..k] + (Coerce(a[k..]) + Coerce(b));
      }
    }
  }

  // A valid text cut at n is valid exactly when the byte at n starts a rune.
  lemma {:induction false} CutIff(s: string, n: nat)
    requires Valid(s) && n <= |s|
    ensures Valid(s[..n]) <==> n == |s| || !Cont(s[n])
    ensures n == |s| || !Cont(s[n]) ==> Valid(s[n..])
    decreases |s|
  {
    if s == "" {
    } else if n == 0 {
      RuneCut(s, 0);
      assert s[..0] == "" && s[0..] == s;
    } else {
      var k := RuneLen(s);
      RuneCut(s, n);
      if n >= k {
        assert s[..n][k..] == s[k..][..n - k];
        CutIff(s[k..], n - k);
        assert s[k..][n - k..] == s[n..];
        if n < |s| { assert s[k..][n - k] == s[n]; }
      } else {
        assert s[..n] != "";
      }
    }
  }

  lemma {:induction false} OneRune(r: string)
    requires r != "" && RuneLen(r) == |r|
    ensures Valid(r) && Coerce(r) == r
  {
    assert r[|r|..] == "" && r[..|r|] == r;
  }

  lemma {:induction false} CoerceValid(s: string)
    ensures Valid(Coerce(s)) && Coerce(Coerce(s)) == Coerce(s)
    decreases |s|
  {
    if s != "" {
      var k := RuneLen(s);
      var head := if k == 0 then REPLACEMENT else s[..k];
      var rest := Coerce(if k == 0 then s[1..] else s[k..]);
      CoerceValid(if k == 0 then s[1..] else s[k..]);
      if k > 0 { RuneCut(s, k); }
      OneRune(head);
      if rest != "" { RuneCut(rest, 0); }
      CoerceBefore(head, rest);
    }
    CoerceIff(Coerce(s));
  }

  // Seven-bit text is valid, and coercion brings no seven-bit character in.
  lemma {:induction false} PlainValid(s: string)
    requires forall c :: c in s ==> c < '\U{80}'
    ensures Valid(s) && Coerce(s) == s
    decreases |s|
  {
    if s != "" {
      assert s[0] in s && RuneLen(s) == 1;
      assert forall c :: c in s[1..] ==> c in s;
      PlainValid(s[1..]);
    }
    CoerceIff(s);
  }

  lemma {:induction false} CoerceLacks(s: string, c: char)
    requires c !in s && c < '\U{80}'
    ensures c !in Coerce(s)
    decreases |s|
  {
    if s != "" {
      CoerceLacks(if RuneLen(s) == 0 then s[1..] else s[RuneLen(s)..], c);
      assert c !in REPLACEMENT;
    }
  }

  // A text that starts with seven-bit characters keeps them, whatever follows.
  lemma {:induction false} PlainFirst(a: string, b: string)
    requires forall c :: c in a ==> c < '\U{80}'
    ensures Coerce(a + b) == a + Coerce(b)
    ensures Valid(a + b) <==> Valid(b)
    decreases |a|
  {
    var s := a + b;
    if a == "" {
      assert s == b;
    } else {
      assert a[0] in a && s[0] == a[0] && RuneLen(s) == 1;
      assert s[1..] == a[1..] + b && s[..1] == a[..1];
      assert forall c :: c in a[1..] ==> c in a;
      PlainFirst(a[1..], b);
      assert Coerce(s) == a[..1] + (a[1..] + Coerce(b));
    }
  }

  // A rune of several bytes has no seven-bit one.
  lemma {:induction false} RuneBytes(s: string, i: nat)
    requires 1 < RuneLen(s) && i < RuneLen(s)
    ensures s[i] >= '\U{80}'
  {
  }

  lemma {:induction false} CoerceEmpty(s: string)
    ensures Coerce(s) == "" <==> s == ""
  {
    CoerceIff(s);
  }

  // ----- the encoding itself -----

  // A Unicode scalar value, and its bytes by section 3 of RFC 3629.
  predicate Scalar(v: nat) { v < 0xD800 || 0xE000 <= v < 0x11_0000 }

  function Byte(n: nat): (c: char)
    requires n < 256
  {
    n as char
  }

  function Encode(v: nat): (s: string)
    requires Scalar(v)
  {
    if v < 0x80 then [Byte(v)]
    else if v < 0x800 then [Byte(0xC0 + v / 64), Byte(0x80 + v % 64)]
    else if v < 0x1_0000 then [Byte(0xE0 + v / 4096), Byte(0x80 + v / 64 % 64), Byte(0x80 + v % 64)]
    else [Byte(0xF0 + v / 262144), Byte(0x80 + v / 4096 % 64), Byte(0x80 + v / 64 % 64), Byte(0x80 + v % 64)]
  }

  // Every encoded scalar value is a rune of that length.
  lemma {:induction false} EncodedIsRune(v: nat)
    requires Scalar(v)
    ensures RuneLen(Encode(v)) == |Encode(v)|
  {
  }

  function Low(c: char): (n: int) { c as int - 0x80 }

  lemma {:induction false} SixBits(x: nat, y: nat, z: nat)
    requires y < 64 && z < 64
    ensures (x * 64 + z) / 64 == x && (x * 64 + z) % 64 == z
    ensures (x * 4096 + y * 64 + z) / 4096 == x && (x * 4096 + y * 64 + z) / 64 % 64 == y
    ensures (x * 4096 + y * 64 + z) % 64 == z
  {
    assert x * 4096 + y * 64 + z == (x * 64 + y) * 64 + z;
    assert (x * 64 + y) / 64 == x && (x * 64 + y) % 64 == y;
  }

  lemma {:induction false} SixBitsMore(w: nat, x: nat, y: nat, z: nat)
    requires x < 64 && y < 64 && z < 64
    ensures var v := w * 262144 + x * 4096 + y * 64 + z;
            v / 262144 == w && v / 4096 % 64 == x && v / 64 % 64 == y && v % 64 == z
  {
    var v := w * 262144 + x * 4096 + y * 64 + z;
    assert v == (w * 64 + x) * 4096 + y * 64 + z;
    SixBits(w * 64 + x, y, z);
    SixBits(w, 0, x);
    assert v / 262144 == w;
  }

  lemma {:induction false} TwoBytes(a: char, b: char) returns (v: nat)
    requires '\U{C2}' <= a <= '\U{DF}' && Cont(b)
    ensures Scalar(v) && Encode(v) == [a, b]
  {
    var x, z := a as int - 0xC0, Low(b);
    v := x * 64 + z;
    SixBits(x, 0, z);
  }

  lemma {:induction false} ThreeBytes(a: char, b: char, c: char) returns (v: nat)
    requires Lead3(a, b) && Cont(c)
    ensures Scalar(v) && Encode(v) == [a, b, c]
  {
    var x, y, z := a as int - 0xE0, Low(b), Low(c);
    v := x * 4096 + y * 64 + z;
    SixBits(x, y, z);
  }

  lemma {:induction false} FourBytes(a: char, b: char, c: char, d: char) returns (v: nat)
    requires Lead4(a, b) && Cont(c) && Cont(d)
    ensures Scalar(v) && Encode(v) == [a, b, c, d]
  {
    var w, x, y, z := a as int - 0xF0, Low(b), Low(c), Low(d);
    v := w * 262144 + x * 4096 + y * 64 + z;
    SixBitsMore(w, x, y, z);
  }

  // And every rune is one.
  lemma {:induction false} RuneIsEncoded(s: string) returns (v: nat)
    requires RuneLen(s) > 0
    ensures Scalar(v) && Encode(v) == s[..RuneLen(s)]
  {
    var k := RuneLen(s);
    if k == 1 {
      v := s[0] as int;
    } else {
      hide Encode, Scalar;
      if k == 2 {
        v := TwoBytes(s[0], s[1]);
      } else if k == 3 {
        v := ThreeBytes(s[0], s[1], s[2]);
      } else {
        v := FourBytes(s[0], s[1], s[2], s[3]);
      }
    }
  }
}
