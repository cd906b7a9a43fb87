// When clamping twice is clamping once, and so when the fingerprint that the
// preview compares with is the one its fan-out stamped.
module SpecProofs {
  import opened Text
  import opened Dict
  import opened SpecClamp

  // ----- the bounded vocabulary -----

  ghost predicate EnvBounded(env: seq<string>) {
    && |env| <= 10
    && (forall i :: 0 <= i < |env| ==> Required(env[i]) && Trim(env[i]) == env[i])
    && (forall i, j :: 0 <= i < j < |env| ==> env[i] != env[j])
  }

  ghost predicate Bounded(s: Spec) {
    && |s.intent| <= 200
    && s.deliverable in ["web", "cli", ""]
    && s.proto in ["http", "https", "tcp"]
    && s.port <= 65535
    && "/" <= s.path
    && |s.note| <= 120
    && EnvBounded(s.env)
    && (s.user == "" || s.user == "non-root" || (Account(s.user) && s.user != "nonroot"))
    && 1 <= s.hold <= 120
    && |s.why| <= 60
  }

  lemma {:induction false} TrimAgain(s: string)
    ensures Trim(Trim(s)) == Trim(s)
  {
    TrimFixed(Trim(s));
  }

  lemma {:induction false} EnvIsBounded(py: Python, items: seq<Json>)
    ensures var env := EnvOf(py, items);
            && |env| <= |items|
            && (forall i :: 0 <= i < |env| ==> Required(env[i]) && Trim(env[i]) == env[i])
            && (forall i, j :: 0 <= i < j < |env| ==> env[i] != env[j])
    decreases |items|
  {
    hide Trim, TextOf, Required;
    if items != [] {
      EnvIsBounded(py, items[..|items| - 1]);
      TrimAgain(TextOf(py, items[|items| - 1]));
    }
  }

  lemma {:induction false} ClampBounds(py: Python, raw: Json, intent: string)
    requires Clamp(py, raw, intent).Clamped?
    ensures Bounded(Clamp(py, raw, intent).spec)
  {
    hide Trim, Lower, Or, Field, IntOf, Truthy, Required, EnvOf;
    EnvIsBounded(py, EnvItems(Field(raw, "env_required")).value);
    assert |EnvItems(Field(raw, "env_required")).value| <= 10;
  }

  // ----- clamping a bounded spec again -----

  lemma {:induction false} EnvAgain(py: Python, env: seq<string>)
    requires forall i :: 0 <= i < |env| ==> Required(env[i]) && Trim(env[i]) == env[i]
    requires forall i, j :: 0 <= i < j < |env| ==> env[i] != env[j]
    ensures EnvOf(py, Strs(env)) == env
    decreases |env|
  {
    hide Trim, Required;
    if env != [] {
      var init := env[..|env| - 1];
      EnvAgain(py, init);
      assert Strs(env)[..|env| - 1] == Strs(init);
    }
  }

  lemma {:induction false} PlainWord(w: string)
    requires w != "" && !IsSpace(w[0]) && !IsSpace(w[|w| - 1])
    requires forall i :: 0 <= i < |w| ==> !('A' <= w[i] <= 'Z')
    ensures Lower(Trim(w)) == w
  {
    TrimFixed(w);
  }

  lemma {:induction false} WordsAgain(s: Spec)
    requires Bounded(s)
    ensures Lower(Trim(s.deliverable)) == s.deliverable
    ensures Lower(Trim(s.proto)) == s.proto
    ensures Lower(Trim(s.user)) == s.user && UserOf(s.user) == s.user
  {
    if s.deliverable != "" { PlainWord(s.deliverable); }
    PlainWord(s.proto);
    if s.user != "" { PlainWord(s.user); }
  }

  lemma {:induction false} Reclamp(py: Python, s: Spec, intent: string)
    requires Bounded(s)
    ensures var phrase := Trim(if intent != "" then intent else s.intent);
            Clamp(py, ToJson(s), intent) ==
            Clamped(s.(intent := Truncate(phrase, 200), port := PortOf(py, phrase, Num(s.port))))
  {
    hide Trim, Lower, ToJson, Field, IntentPort, Required, Account, EnvOf, Strs;
    FieldsBack(s);
    NestedBack(s);
    WordsAgain(s);
    EnvAgain(py, s.env);
    assert ToJson(s).Obj? by { IsObj(s); }
  }

  lemma {:induction false} IsObj(s: Spec)
    ensures ToJson(s).Obj?
  {
  }

  lemma {:induction false} PortAgain(py: Python, phrase: string, port: nat)
    requires port <= 65535
    ensures PortOf(py, phrase, Num(port)) == if IntentPort(phrase) != 0 then IntentPort(phrase) else port
  {
  }

  // With the intent fixed and not empty, the clamp is a projection.
  lemma {:induction false} ClampOnce(py: Python, raw: Json, intent: string)
    requires intent != "" && Clamp(py, raw, intent).Clamped?
    ensures Clamp(py, ToJson(Clamp(py, raw, intent).spec), intent) == Clamp(py, raw, intent)
  {
    hide ToJson, IntentPort, Trim, Bounded;
    var s := Clamp(py, raw, intent).spec;
    ClampBounds(py, raw, intent);
    Reclamp(py, s, intent);
    PortKept(py, raw, intent);
  }

  lemma {:induction false} PortKept(py: Python, raw: Json, intent: string)
    requires Clamp(py, raw, intent).Clamped?
    ensures var s := Clamp(py, raw, intent).spec;
            && PortOf(py, IntentOf(py, raw, intent), Num(s.port)) == s.port
            && s.intent == Truncate(IntentOf(py, raw, intent), 200)
  {
    hide IntentPort, IntentOf;
  }

  // ----- the embedded intent -----

  // A phrase of more than 200 characters is cut when it is stored.  The cut
  // phrase must not end in white space, and must not name another port.
  predicate CutsClean(phrase: string, port: nat) {
    |phrase| <= 200 || (!IsSpace(phrase[199]) && IntentPort(phrase[..200]) in {0, port})
  }

  lemma {:induction false} CutTrim(phrase: string)
    requires Trim(phrase) == phrase && |phrase| > 200
    ensures Trim(phrase[..200]) == phrase[..200] <==> !IsSpace(phrase[199])
  {
    var cut := phrase[..200];
    assert cut[199] == phrase[199] && cut[0] == phrase[0];
    assert !IsSpace(phrase[0]) by { assert phrase == Trim(phrase); }
    if !IsSpace(phrase[199]) { TrimFixed(cut); }
  }

  // Clamped again without an intent, a spec stays as it is exactly when the
  // phrase it was first clamped under, its own or a given one, survives the cut.
  lemma {:induction false} EmbeddedIff(py: Python, raw: Json, given: string)
    requires Clamp(py, raw, given).Clamped?
    ensures var s := Clamp(py, raw, given).spec;
            Clamp(py, ToJson(s), "") == Clamped(s) <==> CutsClean(IntentOf(py, raw, given), s.port)
  {
    hide ToJson, IntentPort, Bounded, TrimLeft, TrimRight, Clamp, PortOf;
    var s := Clamp(py, raw, given).spec;
    var phrase := IntentOf(py, raw, given);
    ClampBounds(py, raw, given);
    Reclamp(py, s, "");
    PortKept(py, raw, given);
    assert Trim(phrase) == phrase by { IntentTrimmed(py, raw, given); }
    assert s.port <= 65535 by { BoundedPort(s); }
    if |phrase| <= 200 {
      assert Truncate(phrase, 200) == phrase;
    } else {
      CutTrim(phrase);
      var again := Trim(phrase[..200]);
      assert |again| <= 200 by { TrimShort(phrase[..200]); }
      PortAgain(py, again, s.port);
    }
  }

  // An intent that is the stored phrase without its outer white space is taken
  // as that phrase is.
  lemma {:induction false} SameAsEmbedded(py: Python, s: Spec, intent: string)
    requires Bounded(s) && intent != "" && Trim(s.intent) == intent
    ensures Clamp(py, ToJson(s), intent) == Clamp(py, ToJson(s), "")
  {
    hide Clamp, ToJson, PortOf, Bounded, TrimLeft, TrimRight;
    Reclamp(py, s, intent);
    Reclamp(py, s, "");
    TrimAgain(s.intent);
  }

  lemma {:induction false} IntentTrimmed(py: Python, raw: Json, intent: string)
    ensures Trim(IntentOf(py, raw, intent)) == IntentOf(py, raw, intent)
  {
    TrimAgain(if intent != "" then intent else Or(py, Field(raw, "intent"), ""));
  }

  lemma {:induction false} BoundedPort(s: Spec)
    requires Bounded(s)
    ensures s.port <= 65535
  {
  }

  lemma {:induction false} TrimShort(s: string)
    ensures |Trim(s)| <= |s|
  {
  }
}
