// When the parser's reading of an ENV or WORKDIR line is the one the Dockerfile
// reference gives it.
module EnvLines {
  import opened Text
  import opened Provision
  import opened DockerRead

  // ----- counting over words and pairs -----

  function MarksIn(words: seq<string>): (n: nat) {
    if words == [] then 0 else Marks(words[0]) + MarksIn(words[1..])
  }

  function ActiveIn(words: seq<string>): (n: nat) {
    if words == [] then 0 else Active(words[0]) + ActiveIn(words[1..])
  }

  function MarksOf(pairs: seq<(string, string)>): (n: nat) {
    if pairs == [] then 0 else Marks(pairs[0].0) + Marks(pairs[0].1) + MarksOf(pairs[1..])
  }

  lemma {:induction false} TrimLeftCounts(s: string)
    ensures Marks(TrimLeft(s)) == Marks(s) && Active(TrimLeft(s)) == Active(s)
    ensures TrimLeft(s) != "" ==> !IsSpace(TrimLeft(s)[0])
    decreases |s|
  {
    if s != "" && IsSpace(s[0]) { TrimLeftCounts(s[1..]); }
  }

  lemma {:induction false} TrimRightCounts(s: string)
    ensures Marks(TrimRight(s)) == Marks(s)
    decreases |s|
  {
    if s != "" && IsSpace(s[|s| - 1]) {
      var init := s[..|s| - 1];
      TrimRightCounts(init);
      MarksAppend(init, [s[|s| - 1]]);
      assert s == init + [s[|s| - 1]];
      assert [s[|s| - 1]][1..] == "";
    }
  }

  // Cut in two before a space, a text loses nothing.
  lemma {:induction false} CutCounts(t: string, k: nat)
    requires k <= |t| && (k < |t| ==> !Refers(t[k]))
    ensures Marks(t) == Marks(t[..k]) + Marks(t[k..]) && Active(t) == Active(t[..k]) + Active(t[k..])
  {
    assert t == t[..k] + t[k..];
    MarksAppend(t[..k], t[k..]);
    ActiveAppend(t[..k], t[k..]);
  }

  lemma {:induction false} WordsCount(s: string)
    ensures MarksIn(Words(s)) == Marks(s)
    decreases |s|
  {
    hide Marks, Active;
    var t := TrimLeft(s);
    TrimLeftCounts(s);
    NothingCounts();
    if t != "" {
      var w := Word(t);
      assert t[..|w|] == w;
      WordsCount(t[|w|..]);
      CutCounts(t, |w|);
      assert ([w] + Words(t[|w|..]))[1..] == Words(t[|w|..]);
    }
  }

  lemma {:induction false} NothingCounts()
    ensures Marks("") == 0 && Active("") == 0
  {
  }

  lemma {:induction false} QuotedCount(s: string)
    ensures MarksIn(QuotedWords(s)) == Marks(s) && ActiveIn(QuotedWords(s)) == Active(s)
    decreases |s|
  {
    hide Marks, Active, Reach;
    var t := TrimLeft(s);
    TrimLeftCounts(s);
    NothingCounts();
    if t != "" {
      var k := Reach(t, Bare);
      QuotedCount(t[k..]);
      CutCounts(t, k);
      assert ([t[..k]] + QuotedWords(t[k..]))[1..] == QuotedWords(t[k..]);
    }
  }

  // A word cut at its first equals sign.
  lemma {:induction false} PartitionCounts(word: string, c: char)
    requires c in {'=', ' '}
    ensures var p := Partition(word, c);
            Marks(word) == Marks(p.0) + Marks(p.1) && Active(word) == Active(p.0) + Active(p.1)
  {
    hide Marks, Active;
    NothingCounts();
    var i := IndexOf(word, c);
    if i < |word| {
      CutCounts(word, i);
      var rest := word[i..];
      assert rest[0] == c && rest[1..] == word[i + 1..];
      SkipCounts(c, rest[1..]);
      assert rest == [c] + rest[1..];
    }
  }

  lemma {:induction false} SkipCounts(c: char, s: string)
    requires c in {'=', ' '}
    ensures Marks([c] + s) == Marks(s) && Active([c] + s) == Active(s)
  {
    assert ([c] + s)[1..] == s;
  }

  // ----- the parser keeps every mark -----

  lemma {:induction false} PairsOfCount(words: seq<string>)
    ensures MarksOf(PairsOf(words)) == MarksIn(words)
    decreases |words|
  {
    hide Marks, Active, Partition;
    if words != [] {
      PartitionCounts(words[0], '=');
      PairsOfCount(words[1..]);
      assert ([Partition(words[0], '=')] + PairsOf(words[1..]))[1..] == PairsOf(words[1..]);
    }
  }

  lemma {:induction false} EnvPairsCount(text: string)
    ensures MarksOf(EnvPairs(text)) == Marks(text)
  {
    hide Marks, Active, Partition, Words;
    if ' ' in text && '=' !in Partition(text, ' ').0 {
      var p := Partition(text, ' ');
      PartitionCounts(text, ' ');
      TrimLeftCounts(p.1);
      TrimRightCounts(TrimLeft(p.1));
      assert [(p.0, Trim(p.1))][1..] == [];
    } else {
      WordsCount(text);
      PairsOfCount(Words(text));
    }
  }

  // ----- the Dockerfile's reading does not, unless the text is inert -----

  lemma {:induction false} PairCount(key: string, value: string, env: map<string, string>)
    requires PlainValues(env) || ('$' !in key && '$' !in value)
    requires Pair(key, value, env).Some?
    ensures var p := Pair(key, value, env).value;
            && Marks(p.0) + Marks(p.1) <= Marks(key) + Marks(value)
            && (Active(key) + Active(value) > 0 ==> Marks(p.0) + Marks(p.1) < Marks(key) + Marks(value))
  {
    FewerMarks(key, Bare, env);
    FewerMarks(value, Bare, env);
    hide Expand, Marks, Active;
  }

  ghost predicate Replaceable(words: seq<string>, env: map<string, string>) {
    PlainValues(env) || forall w :: w in words ==> '$' !in w
  }

  lemma {:induction false} PairsCount(words: seq<string>, env: map<string, string>)
    requires Replaceable(words, env) && Pairs(words, env).Some?
    ensures var ps := Pairs(words, env).value;
            MarksOf(ps) <= MarksIn(words) && (ActiveIn(words) > 0 ==> MarksOf(ps) < MarksIn(words))
    decreases |words|
  {
    hide Marks, Active, Pair, PlainValues;
    if words != [] {
      var i := IndexOf(words[0], '=');
      var first, more := Pair(words[0][..i], words[0][i + 1..], env).value, Pairs(words[1..], env).value;
      assert words[0] in words;
      PartitionCounts(words[0], '=');
      PairCount(words[0][..i], words[0][i + 1..], env);
      PairsCount(words[1..], env);
      assert ([first] + more)[1..] == more;
    }
  }

  lemma {:induction false} QuotedParts(s: string)
    ensures forall w, c :: w in QuotedWords(s) && c in w ==> c in s
    decreases |s|
  {
    hide Reach;
    var t := TrimLeft(s);
    TrimParts(s);
    if t != "" {
      var k := Reach(t, Bare);
      if k > 0 {
        QuotedParts(t[k..]);
        forall w, c | w in QuotedWords(s) && c in w ensures c in s {
          if w != t[..k] { assert w in QuotedWords(t[k..]) && c in t[k..]; }
        }
      }
    }
  }

  lemma {:induction false} TrimParts(s: string)
    ensures forall c :: c in TrimLeft(s) ==> c in s
    decreases |s|
  {
    if s != "" && IsSpace(s[0]) { TrimParts(s[1..]); }
  }

  lemma {:induction false} MeantCount(text: string, env: map<string, string>)
    requires PlainValues(env) || '$' !in text
    requires Trim(text) == text && EnvMeant(text, env).Some?
    ensures var ps := EnvMeant(text, env).value;
            MarksOf(ps) <= Marks(text) && (!Inert(text) ==> MarksOf(ps) < Marks(text))
  {
    hide Marks, Active, Pair, PlainValues, QuotedWords, Pairs;
    var words := QuotedWords(text);
    QuotedCount(text);
    QuotedParts(text);
    if '=' in words[0] {
      PairsCount(words, env);
    } else {
      var key := Word(text);
      var value := TrimLeft(text[|key|..]);
      assert text[..|key|] == key;
      CutCounts(text, |key|);
      TrimLeftCounts(text[|key|..]);
      TrimParts(text[|key|..]);
      PairCount(key, value, env);
      assert EnvMeant(text, env).value[1..] == [];
    }
  }

  // ----- inert lines -----

  lemma {:induction false} NoQuoting(s: string)
    requires Inert(s)
    ensures forall i :: 0 <= i < |s| ==> !Quoting(s[i])
    decreases |s|
  {
    if s != "" {
      NoQuoting(s[1..]);
      forall i | 0 <= i < |s| ensures !Quoting(s[i]) { if i > 0 { assert s[i] == s[1..][i - 1]; } }
    }
  }

  lemma {:induction false} ReachPlain(s: string)
    requires forall i :: 0 <= i < |s| ==> !Quoting(s[i])
    ensures Reach(s, Bare) == |Word(s)| && s[..Reach(s, Bare)] == Word(s)
    decreases |s|
  {
    if s != "" && !IsSpace(s[0]) {
      assert !Quoting(s[0]);
      ReachPlain(s[1..]);
    }
  }

  lemma {:induction false} SameWords(s: string)
    requires forall i :: 0 <= i < |s| ==> !Quoting(s[i])
    ensures QuotedWords(s) == Words(s)
    decreases |s|
  {
    hide Reach;
    var t := TrimLeft(s);
    TrimSuffix(s);
    if t != "" {
      ReachPlain(t);
      SameWords(t[|Word(t)|..]);
    }
  }

  lemma {:induction false} TrimSuffix(s: string)
    ensures |TrimLeft(s)| <= |s| && TrimLeft(s) == s[|s| - |TrimLeft(s)|..]
    decreases |s|
  {
    if s != "" && IsSpace(s[0]) { TrimSuffix(s[1..]); }
  }

  predicate Keyed(words: seq<string>) { forall w :: w in words ==> '=' in w && w[0] != '=' }

  lemma {:induction false} IndexIn(s: string, c: char)
    ensures IndexOf(s, c) < |s| <==> c in s
  {
  }

  lemma {:induction false} InertPairs(words: seq<string>, env: map<string, string>)
    requires ActiveIn(words) == 0
    ensures Pairs(words, env) == if Keyed(words) then Some(PairsOf(words)) else None
    decreases |words|
  {
    hide Marks, Active, Expand;
    if words != [] {
      var w := words[0];
      var i := IndexOf(w, '=');
      IndexIn(w, '=');
      PartitionCounts(w, '=');
      InertPairs(words[1..], env);
      assert Keyed(words) <==> ('=' in w && w[0] != '=') && Keyed(words[1..]) by { KeyedStep(words); }
      if 0 < i < |w| {
        InertMeans(w[..i], env);
        InertMeans(w[i + 1..], env);
      }
    }
  }

  lemma {:induction false} KeyedStep(words: seq<string>)
    requires words != []
    ensures Keyed(words) <==> ('=' in words[0] && words[0][0] != '=') && Keyed(words[1..])
  {
    assert words == [words[0]] + words[1..];
    if Keyed(words) { assert words[0] in words; }
  }

  // The line stands for itself, every word of it has a key, or its first word
  // alone is one, with a plain space after it.
  predicate PlainEnv(text: string) {
    && text != "" && Inert(text)
    && if '=' in Word(text) then Keyed(Words(text)) else |Word(text)| < |text| && text[|Word(text)|] == ' '
  }

  // ----- the two readings -----

  lemma {:induction false} WordLeads(text: string)
    requires text != "" && Trim(text) == text
    ensures TrimLeft(text) == text && !IsSpace(text[0]) && !IsSpace(text[|text| - 1])
    ensures Words(text) != [] && Words(text)[0] == Word(text) != ""
    ensures |Word(text)| < |text| ==> |Words(text)| >= 2
  {
    assert !IsSpace(text[0]);
    var w := Word(text);
    if |w| < |text| {
      var rest := text[|w|..];
      assert rest[|rest| - 1] == text[|text| - 1];
      NotBlank(rest);
    }
  }

  lemma {:induction false} NotBlank(s: string)
    requires s != "" && !IsSpace(s[|s| - 1])
    ensures TrimLeft(s) != "" && Words(s) != [] && Trim(s) == TrimLeft(s)
    decreases |s|
  {
    if IsSpace(s[0]) {
      assert s[1..] != "" && s[1..][|s| - 2] == s[|s| - 1];
      NotBlank(s[1..]);
    } else {
      assert TrimLeft(s) == s;
    }
  }

  lemma {:induction false} WordHasNoSpace(s: string)
    ensures ' ' !in Word(s)
  {
  }

  // Where the parser takes the old form, and what it makes of the line then.
  lemma {:induction false} OldForm(text: string)
    requires text != "" && Trim(text) == text
    ensures '=' in Word(text) ==> EnvPairs(text) == PairsOf(Words(text))
    ensures '=' !in Word(text) && |Word(text)| < |text| && text[|Word(text)|] == ' ' ==>
              EnvPairs(text) == [(Word(text), TrimLeft(text[|Word(text)|..]))]
    ensures '=' !in Word(text) && |Word(text)| < |text| && text[|Word(text)|] != ' ' ==>
              |EnvPairs(text)| != 1 || EnvPairs(text)[0].0 != Word(text)
  {
    hide Words;
    var w := Word(text);
    WordLeads(text);
    WordHasNoSpace(text);
    IndexIn(text, ' ');
    var j := IndexOf(text, ' ');
    assert forall i :: 0 <= i < |w| ==> w[i] in w && text[i] == w[i];
    assert text[..|w|] == w;
    if '=' in w {
      if ' ' in text {
        var i :| 0 <= i < |w| && w[i] == '=';
        assert Partition(text, ' ').0[i] == '=';
      }
    } else if |w| < |text| && text[|w|] == ' ' {
      assert j == |w|;
      var rest := text[j + 1..];
      assert text[j..][0] == ' ' && text[j..][1..] == rest;
      assert rest[|rest| - 1] == text[|text| - 1];
      NotBlank(rest);
    } else if |w| < |text| {
      PairsOfLength(Words(text));
    }
  }

  lemma {:induction false} PairsOfLength(words: seq<string>)
    ensures |PairsOf(words)| == |words|
    decreases |words|
  {
    if words != [] { PairsOfLength(words[1..]); }
  }

  lemma {:induction false} InertMeant(text: string, env: map<string, string>)
    requires text != "" && Trim(text) == text && Inert(text)
    ensures EnvMeant(text, env) ==
            if '=' in Word(text) then (if Keyed(Words(text)) then Some(PairsOf(Words(text))) else None)
            else if |Word(text)| < |text| then Some([(Word(text), TrimLeft(text[|Word(text)|..]))])
            else None
  {
    hide Marks, Active, Words, QuotedWords, Pairs, Keyed, Expand;
    NoQuoting(text);
    SameWords(text);
    QuotedCount(text);
    WordLeads(text);
    InertPairs(Words(text), env);
    var w := Word(text);
    if |w| < |text| {
      CutCounts(text, |w|);
      TrimLeftCounts(text[|w|..]);
      InertMeans(w, env);
      InertMeans(TrimLeft(text[|w|..]), env);
      assert text[..|w|] == w;
    }
  }

  // A plain line means in a Dockerfile what the parser takes it for.
  lemma {:induction false} PlainMeant(text: string, env: map<string, string>)
    requires Trim(text) == text && PlainEnv(text)
    ensures EnvMeant(text, env) == Some(EnvPairs(text))
  {
    hide Words, EnvMeant, EnvPairs, Inert, Keyed;
    InertMeant(text, env);
    OldForm(text);
  }

  // And no other line does, unless a variable's value makes up for what was
  // taken away.
  lemma {:induction false} EnvLineIff(text: string, env: map<string, string>)
    requires Trim(text) == text
    requires PlainValues(env) || '$' !in text
    ensures EnvMeant(text, env) == Some(EnvPairs(text)) <==> PlainEnv(text)
  {
    hide EnvMeant, EnvPairs, Inert, PlainValues, Words;
    if PlainEnv(text) {
      PlainMeant(text, env);
    } else if text == "" {
      NoLine(env);
    } else if !Inert(text) {
      if EnvMeant(text, env).Some? {
        MeantCount(text, env);
        EnvPairsCount(text);
      }
    } else {
      InertMeant(text, env);
      OldForm(text);
    }
  }

  lemma {:induction false} NoLine(env: map<string, string>)
    ensures EnvMeant("", env) == None
  {
  }

  // A word of a WORKDIR or COPY line is taken as it is meant exactly when it is
  // inert.
  lemma {:induction false} WordIff(text: string, env: map<string, string>)
    requires PlainValues(env) || '$' !in text
    ensures Expand(text, Bare, env) == Some(text) <==> Inert(text)
  {
    if Inert(text) {
      InertMeans(text, env);
    } else if Expand(text, Bare, env).Some? {
      FewerMarks(text, Bare, env);
    }
  }

  // A variable that stands for its own reference makes up for it.
  lemma {:induction false} SelfReference()
    ensures Expand("$Q", Bare, map["Q" := "$Q"]) == Some("$Q") && !Inert("$Q")
  {
    var env, s := map["Q" := "$Q"], "$Q";
    assert s[0] == '$' && s[1] == 'Q' && s[1..] == "Q" && "Q"[1..] == "";
    assert RunOf("", false) == 0 && RunOf("Q", false) == 1 && "Q"[..1] == "Q";
    assert Reference("Q", env) == Some(("$Q", 1));
    assert Expand("", Bare, env) == Some("");
    assert Expand(s, Bare, env) == Then("$Q", Expand("", Bare, env));
    assert "$Q" + "" == "$Q";
    assert Active(s) == 1 + Active(s[1..]);
  }
}
