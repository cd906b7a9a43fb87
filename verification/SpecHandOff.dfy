// How a spec reaches the planners (scripts/vmf_plan.py): the preview loads or
// derives it, hands it to its fan-out through the environment, and the fan-out
// clamps it again before stamping its fingerprint on the cache.
module SpecHandOff {
  import opened Text
  import opened Decimal
  import opened Dict
  import opened SpecClamp
  import opened SpecProofs

  // ----- a cut phrase and its port -----

  lemma {:induction false} SearchIs(s: string, i: nat, k: nat)
    requires i <= k <= |s| && (MatchAt(s, k).Some? || k == |s|)
    requires forall j :: i <= j < k ==> MatchAt(s, j) == None
    ensures SearchFrom(s, i) == MatchAt(s, k)
    decreases k - i
  {
    hide MatchAt;
    if i < k { SearchIs(s, i + 1, k); }
  }

  lemma {:induction false} SearchFinds(s: string, i: nat) returns (k: nat)
    requires i <= |s|
    ensures i <= k <= |s| && SearchFrom(s, i) == MatchAt(s, k)
    ensures MatchAt(s, k).Some? || k == |s|
    ensures forall j :: i <= j < k ==> MatchAt(s, j) == None
    decreases |s| - i
  {
    hide MatchAt;
    if MatchAt(s, i).Some? || i == |s| { k := i; } else { k := SearchFinds(s, i + 1); }
  }

  lemma {:induction false} SpaceRunIs(s: string, i: nat, n: nat)
    requires i + n <= |s| && forall k :: i <= k < i + n ==> IsSpace(s[k])
    requires i + n < |s| ==> !IsSpace(s[i + n])
    ensures RunOfSpace(s, i) == n
    decreases n
  {
    if n > 0 { SpaceRunIs(s, i + 1, n - 1); }
  }

  lemma {:induction false} DigitRunIs(s: string, i: nat, n: nat)
    requires i + n <= |s| && forall k :: i <= k < i + n ==> IsDigit(s[k])
    requires i + n < |s| ==> !IsDigit(s[i + n])
    ensures RunOfDigit(s, i) == n
    decreases n
  {
    if n > 0 { DigitRunIs(s, i + 1, n - 1); }
  }

  predicate SplitsWord(s: string, n: nat)
    requires 0 < n < |s|
  {
    WordChar(s[n - 1]) && WordChar(s[n])
  }

  // Where the pattern matches in a prefix that does not end inside a word, it
  // matches in the whole.
  lemma {:induction false} MatchGrows(s: string, n: nat, i: nat)
    requires 0 < n < |s| && !SplitsWord(s, n) && i <= n && MatchAt(s[..n], i).Some?
    ensures MatchAt(s, i) == MatchAt(s[..n], i)
  {
    hide RunOfSpace, RunOfDigit, Lower, Val, IsSpace, IsDigit;
    var p := s[..n];
    assert s[i..i + 4] == p[i..i + 4];
    var a := RunOfSpace(p, i + 4);
    var b := RunOfDigit(p, i + 4 + a);
    SpaceRunIs(s, i + 4, a);
    DigitRunIs(s, i + 4 + a, b);
    assert s[i + 4 + a..i + 4 + a + b] == p[i + 4 + a..i + 4 + a + b];
  }

  // And where it matches in the whole and ends in time, in the prefix.
  lemma {:induction false} MatchShrinks(s: string, n: nat, i: nat)
    requires n <= |s| && i <= n && MatchAt(s, i).Some? && MatchAt(s, i).value.0 <= n
    ensures MatchAt(s[..n], i) == MatchAt(s, i)
  {
    hide RunOfSpace, RunOfDigit, Lower, Val, IsSpace, IsDigit;
    var p := s[..n];
    assert s[i..i + 4] == p[i..i + 4];
    var a := RunOfSpace(s, i + 4);
    var b := RunOfDigit(s, i + 4 + a);
    SpaceRunIs(p, i + 4, a);
    DigitRunIs(p, i + 4 + a, b);
    assert s[i + 4 + a..i + 4 + a + b] == p[i + 4 + a..i + 4 + a + b];
  }

  // No match starts inside another.
  lemma {:induction false} MatchesApart(s: string, i: nat, j: nat)
    requires i < j <= |s| && MatchAt(s, i).Some? && MatchAt(s, j).Some?
    ensures MatchAt(s, i).value.0 <= j
  {
    var word, other := s[i..i + 4], s[j..j + 4];
    assert Lower(word) == "port" && Lower(other) == "port";
    assert LowerChar(s[j]) == 'p' by { assert Lower(other)[0] == 'p' && other[0] == s[j]; }
    var a := i + 4 + RunOfSpace(s, i + 4);
    var end := a + RunOfDigit(s, a);
    assert MatchAt(s, i).value.0 == end;
    forall k | i < k < end ensures LowerChar(s[k]) != 'p' {
      if k < i + 4 { assert Lower(word)[k - i] == "port"[k - i] && word[k - i] == s[k]; }
    }
  }

  // A cut between words never changes which port a phrase names, unless it
  // drops it.
  lemma {:induction false} CutBetweenWords(s: string, n: nat)
    requires 0 < n < |s| && !SplitsWord(s, n)
    ensures IntentPort(s[..n]) in {0, IntentPort(s)}
  {
    hide MatchAt;
    var k := SearchFinds(s[..n], 0);
    if MatchAt(s[..n], k).Some? {
      MatchGrows(s, n, k);
      forall j | 0 <= j < k ensures MatchAt(s, j) == None {
        if MatchAt(s, j).Some? {
          MatchesApart(s, j, k);
          MatchShrinks(s, n, j);
          assert false;
        }
      }
      SearchIs(s, 0, k);
    }
  }

  // So a long embedded intent cut between words, right after a word, is safe.
  lemma {:induction false} CleanCutClampsOnce(py: Python, raw: Json)
    requires Clamp(py, raw, "").Clamped?
    requires var phrase := IntentOf(py, raw, "");
             |phrase| > 200 ==> !IsSpace(phrase[199]) && !SplitsWord(phrase, 200)
    ensures Clamp(py, ToJson(Clamp(py, raw, "").spec), "") == Clamp(py, raw, "")
  {
    hide Clamp, IntentOf, IntentPort, ToJson;
    var phrase := IntentOf(py, raw, "");
    EmbeddedIff(py, raw, "");
    if |phrase| > 200 {
      CutBetweenWords(phrase, 200);
      NamedPort(py, raw);
    }
  }

  lemma {:induction false} NamedPort(py: Python, raw: Json)
    requires Clamp(py, raw, "").Clamped?
    ensures IntentPort(IntentOf(py, raw, "")) in {0, Clamp(py, raw, "").spec.port}
  {
    hide IntentPort, IntentOf;
  }

  // ----- a cut that does change the port -----

  lemma {:induction false} NamesPort(filler: string, digits: string)
    requires forall i :: 0 <= i < |filler| ==> LowerChar(filler[i]) != 'p'
    requires Numeral(digits) && 1 <= |digits| <= 5
    ensures SearchFrom(filler + " port " + digits, 0) == Some((|filler| + 6 + |digits|, Val(digits)))
  {
    hide RunOfSpace, RunOfDigit, SearchFrom, Val;
    var s, k := filler + " port " + digits, |filler| + 1;
    assert s[k..k + 4] == "port" && Lower("port") == "port";
    assert s[k - 1] == ' ' && s[k + 4] == ' ';
    SpaceRunIs(s, k + 4, 1);
    assert forall i :: k + 5 <= i < |s| ==> s[i] == digits[i - k - 5];
    DigitRunIs(s, k + 5, |digits|);
    assert s[k + 5..|s|] == digits;
    forall j | 0 <= j < k ensures MatchAt(s, j) == None {
      if j + 4 <= |s| {
        assert Lower(s[j..j + 4])[0] == LowerChar(s[j]);
        assert s[j] == ' ' || s[j] == filler[j];
      }
    }
    SearchIs(s, 0, k);
  }

  lemma {:induction false} Numbers()
    ensures Val("80") == 80 && Val("8080") == 8080
  {
    assert "80"[..1] == "8" && "8"[..0] == "";
    assert Val("8") == 8;
    assert "8080"[..3] == "808" && "808"[..2] == "80";
    assert Val("808") == 808;
  }

  // A phrase whose "port 8080" straddles the cut is stored as naming port 80:
  // clamped again, the spec changes, and with it the fingerprint.
  lemma {:induction false} StraddledPortChanges(py: Python, filler: string)
    requires |filler| == 192 && forall i :: 0 <= i < 192 ==> filler[i] == 'a'
    ensures var raw := Obj([("intent", Str(filler + " port 8080"))]);
            && Clamp(py, raw, "").Clamped?
            && Clamp(py, raw, "").spec.port == 8080
            && Clamp(py, ToJson(Clamp(py, raw, "").spec), "") != Clamp(py, raw, "")
  {
    hide Clamp, ToJson, SearchFrom, IntentOf, MatchAt, IntentPort, Val, Dec;
    var phrase := filler + " port 8080";
    var raw := Obj([("intent", Str(phrase))]);
    StraddleRaw(py, phrase);
    StraddlePorts(filler);
    NamedPort(py, raw);
    EmbeddedIff(py, raw, "");
  }

  lemma {:induction false} StraddlePorts(filler: string)
    requires |filler| == 192 && forall i :: 0 <= i < 192 ==> filler[i] == 'a'
    ensures IntentPort(filler + " port 8080") == 8080
    ensures IntentPort((filler + " port 8080")[..200]) == 80
  {
    hide SearchFrom, MatchAt, Val;
    var phrase := filler + " port 8080";
    NamesPort(filler, "8080");
    NamesPort(filler, "80");
    Numbers();
    assert phrase == filler + " port " + "8080";
    assert phrase[..200] == filler + " port " + "80";
  }

  lemma {:induction false} StraddleRaw(py: Python, phrase: string)
    requires phrase != "" && !IsSpace(phrase[0]) && !IsSpace(phrase[|phrase| - 1])
    ensures var raw := Obj([("intent", Str(phrase))]);
            Clamp(py, raw, "").Clamped? && IntentOf(py, raw, "") == phrase
  {
    var raw := Obj([("intent", Str(phrase))]);
    ObjAt(raw, 0, "intent");
    ObjLacks(raw, "env_required");
    TrimFixed(phrase);
    hide Trim, Field;
  }

  // ----- loading, deriving, handing over -----

  const FALLBACK_WHY := "deterministic fallback"

  function FallbackRaw(web: bool, port: nat): (raw: Json) {
    Obj([("deliverable", Str(if web then "web" else "cli")),
         ("serve", Obj([("port", Num(port))])),
         ("why", Str(FALLBACK_WHY))])
  }

  // The model's reply, parsed if it could be, and what the fallback would say.
  datatype Answers = Answers(reply: Option<Json>, web: bool, port: nat)

  function Derive(py: Python, intent: string, a: Answers): (r: Clamped) {
    var c := if a.reply.Some? then Clamp(py, a.reply.value, intent) else NotAnObject;
    if c.Clamped? && c.spec.deliverable != "" then c else Clamp(py, FallbackRaw(a.web, a.port), intent)
  }

  datatype Loaded = NoSpec | Crash | Got(spec: Json)

  // A saved spec that is no object, or whose intent is no text, ends the run.
  predicate Readable(was: Json) {
    was.Obj? && (Truthy(Field(was, "intent")) ==> Field(was, "intent").Str?)
  }

  predicate Reusable(was: Json, intent: string) {
    && Readable(was)
    && Trim(if Field(was, "intent").Str? then Field(was, "intent").s else "") == intent
    && Truthy(Field(was, "deliverable"))
    && Field(was, "why") != Str(FALLBACK_WHY)
  }

  // `override` is the parsed override variable and `saved` the parsed spec.json.
  function LoadOrDerive(py: Python, intent: string, override: Option<Json>, saved: Option<Json>, a: Answers)
    : (r: Loaded)
  {
    var c := if override.Some? then Clamp(py, override.value, intent) else NotAnObject;
    if c.Clamped? && c.spec.deliverable != "" then Got(ToJson(c.spec))
    else if intent == "" then NoSpec
    else if saved.Some? && !Readable(saved.value) then Crash
    else if saved.Some? && Reusable(saved.value, intent) then Got(saved.value)
    else
      var d := Derive(py, intent, a);
      if d.Clamped? then Got(ToJson(d.spec)) else Crash
  }

  lemma {:induction false} FallbackDelivers(py: Python, web: bool, port: nat, intent: string)
    ensures var c := Clamp(py, FallbackRaw(web, port), intent); c.Clamped? && c.spec.deliverable != ""
  {
    hide PortOf, IntentOf, EnvOf, HoldOf, UserOf, PathOf, Trim, Lower, Field, Truncate;
    var raw := FallbackRaw(web, port);
    ObjAt(raw, 0, "deliverable");
    ObjLacks(raw, "env_required");
    PlainWord("web");
    PlainWord("cli");
  }

  // Deriving never comes back without a deliverable, whatever the model says.
  lemma {:induction false} DerivedDelivers(py: Python, intent: string, a: Answers)
    ensures Derive(py, intent, a).Clamped? && Derive(py, intent, a).spec.deliverable != ""
    ensures exists raw :: Derive(py, intent, a) == Clamp(py, raw, intent)
  {
    FallbackDelivers(py, a.web, a.port, intent);
    hide Clamp, FallbackRaw;
    var c := if a.reply.Some? then Clamp(py, a.reply.value, intent) else NotAnObject;
    if c.Clamped? && c.spec.deliverable != "" {
      assert Derive(py, intent, a) == Clamp(py, a.reply.value, intent);
    } else {
      assert Derive(py, intent, a) == Clamp(py, FallbackRaw(a.web, a.port), intent);
    }
  }

  // A reply that names a deliverable is taken; without one the fallback's words
  // are, and its reason is recorded.
  lemma {:induction false} DerivedTells(py: Python, intent: string, a: Answers)
    ensures a.reply.Some? && Clamp(py, a.reply.value, intent).Clamped? &&
            Clamp(py, a.reply.value, intent).spec.deliverable != "" ==>
              Derive(py, intent, a) == Clamp(py, a.reply.value, intent)
    ensures a.reply == None ==>
              var d := Derive(py, intent, a);
              && d.Clamped? && d.spec.deliverable == (if a.web then "web" else "cli") && d.spec.why == FALLBACK_WHY
              && (IntentPort(IntentOf(py, FallbackRaw(a.web, a.port), intent)) == 0 && a.port <= 65535 ==>
                    d.spec.port == a.port)
  {
    if a.reply == None { FallbackFields(py, a.web, a.port, intent); }
    hide Clamp, FallbackRaw, IntentOf;
  }

  lemma {:induction false} FallbackFields(py: Python, web: bool, port: nat, intent: string)
    ensures var c := Clamp(py, FallbackRaw(web, port), intent);
            && c.Clamped? && c.spec.deliverable == (if web then "web" else "cli") && c.spec.why == FALLBACK_WHY
            && (IntentPort(IntentOf(py, FallbackRaw(web, port), intent)) == 0 && port <= 65535 ==> c.spec.port == port)
  {
    hide IntentPort, IntentOf, EnvOf, HoldOf, UserOf, PathOf, Trim, Lower, Field;
    var raw := FallbackRaw(web, port);
    ObjAt(raw, 0, "deliverable");
    ObjAt(raw, 1, "serve");
    ObjAt(raw, 2, "why");
    ObjAt(Obj([("port", Num(port))]), 0, "port");
    ObjLacks(raw, "env_required");
    PlainWord("web");
    PlainWord("cli");
  }

  lemma {:induction false} Overridden(py: Python, intent: string, raw: Json, spec: Spec, saved: Option<Json>,
                                      a: Answers)
    requires Clamp(py, raw, intent) == Clamped(spec) && spec.deliverable != ""
    ensures LoadOrDerive(py, intent, Some(raw), saved, a) == Got(ToJson(spec))
  {
    hide Clamp, ToJson;
  }

  // What was saved is what some earlier run derived under the intent i0.
  ghost predicate SavedUnder(py: Python, i0: string, a0: Answers, saved: Option<Json>) {
    saved.Some? ==> i0 != "" && Derive(py, i0, a0).Clamped? && saved.value == ToJson(Derive(py, i0, a0).spec)
  }

  // No override speaks, and the saved spec is taken for this intent's.
  predicate Reuses(py: Python, intent: string, override: Option<Json>, saved: Option<Json>) {
    var c := if override.Some? then Clamp(py, override.value, intent) else NotAnObject;
    !(c.Clamped? && c.spec.deliverable != "") && saved.Some? && Reusable(saved.value, intent)
  }

  lemma {:induction false} StoredFields(spec: Spec, intent: string)
    ensures Readable(ToJson(spec))
    ensures Reusable(ToJson(spec), intent) <==>
            Trim(spec.intent) == intent && spec.deliverable != "" && spec.why != FALLBACK_WHY
  {
    hide Trim;
    FieldsBack(spec);
    assert ToJson(spec).Obj?;
  }

  // Handing a reused spec over: the fan-out clamps it under the present intent.
  lemma {:induction false} ReusedIff(py: Python, intent: string, i0: string, raw: Json, saved': Option<Json>,
                                     a': Answers)
    requires intent != "" && Clamp(py, raw, i0).Clamped? && i0 != ""
    requires Reusable(ToJson(Clamp(py, raw, i0).spec), intent)
    ensures var s := Clamp(py, raw, i0).spec;
            LoadOrDerive(py, intent, Some(ToJson(s)), saved', a') == Got(ToJson(s)) <==> CutsClean(Trim(i0), s.port)
  {
    hide Clamp, ToJson, Reusable, Readable, Derive, CutsClean, Trim, Bounded;
    var s := Clamp(py, raw, i0).spec;
    StoredFields(s, intent);
    ClampBounds(py, raw, i0);
    SameAsEmbedded(py, s, intent);
    EmbeddedIff(py, raw, i0);
    ReclampDelivers(py, s, intent);
    var c := Clamp(py, ToJson(s), intent);
    if ToJson(c.spec) == ToJson(s) { ToJsonInjective(c.spec, s); }
  }

  lemma {:induction false} ReclampDelivers(py: Python, s: Spec, intent: string)
    requires Bounded(s)
    ensures Clamp(py, ToJson(s), intent).Clamped? && Clamp(py, ToJson(s), intent).spec.deliverable == s.deliverable
  {
    hide Clamp, ToJson, Bounded;
    Reclamp(py, s, intent);
  }

  // An override, or a fresh derivation, comes back as it is.
  lemma {:induction false} ClampedReturns(py: Python, intent: string, raw: Json, saved': Option<Json>, a': Answers)
    requires intent != "" && Clamp(py, raw, intent).Clamped? && Clamp(py, raw, intent).spec.deliverable != ""
    ensures var j := ToJson(Clamp(py, raw, intent).spec);
            LoadOrDerive(py, intent, Some(j), saved', a') == Got(j)
  {
    hide Clamp, ToJson;
    var spec := Clamp(py, raw, intent).spec;
    ClampOnce(py, raw, intent);
    Overridden(py, intent, ToJson(spec), spec, saved', a');
  }

  // With an intent, the spec handed to the fan-out comes back unchanged, so the
  // stamped fingerprint is the one the preview compares with, whatever has
  // happened meanwhile to the saved file and the model; with one exception.  A
  // saved spec is reused by its cut intent, and comes back unchanged exactly
  // when the phrase it was saved under survives that cut.
  lemma {:induction false} HandOff(py: Python, intent: string, override: Option<Json>, i0: string, a0: Answers,
                                   saved: Option<Json>, a: Answers, saved': Option<Json>, a': Answers)
    requires intent != "" && SavedUnder(py, i0, a0, saved)
    ensures LoadOrDerive(py, intent, override, saved, a).Got?
    ensures var j := LoadOrDerive(py, intent, override, saved, a).spec;
            LoadOrDerive(py, intent, Some(j), saved', a') == Got(j) <==>
            (Reuses(py, intent, override, saved) ==> CutsClean(Trim(i0), Derive(py, i0, a0).spec.port))
  {
    hide Clamp, ToJson, Reusable, Readable, Derive, CutsClean, Trim;
    var c := if override.Some? then Clamp(py, override.value, intent) else NotAnObject;
    DerivedDelivers(py, intent, a);
    if saved.Some? { StoredFields(Derive(py, i0, a0).spec, intent); }
    if c.Clamped? && c.spec.deliverable != "" {
      ClampedReturns(py, intent, override.value, saved', a');
    } else if saved.Some? && Reusable(saved.value, intent) {
      DerivedDelivers(py, i0, a0);
      var raw :| Derive(py, i0, a0) == Clamp(py, raw, i0);
      ReusedIff(py, intent, i0, raw, saved', a');
    } else {
      var raw :| Derive(py, intent, a) == Clamp(py, raw, intent);
      ClampedReturns(py, intent, raw, saved', a');
    }
  }

  // The exception is real.  Saved under a phrase whose "port 8080" straddles the
  // cut, then previewed under the phrase that the cut leaves: the spec is
  // reused with port 8080, and the fan-out makes it port 80.
  lemma {:induction false} SavedCutChangesSpec(py: Python, filler: string, a: Answers, saved': Option<Json>,
                                               a': Answers)
    requires |filler| == 192 && forall i :: 0 <= i < 192 ==> filler[i] == 'a'
    ensures var i0, intent := filler + " port 8080", filler + " port 80";
            var a0 := Answers(Some(Obj([("deliverable", Str("web")), ("why", Str("serves"))])), false, 0);
            var d := Derive(py, i0, a0);
            && d.Clamped? && d.spec.port == 8080 && d.spec.deliverable == "web"
            && LoadOrDerive(py, intent, None, Some(ToJson(d.spec)), a) == Got(ToJson(d.spec))
            && LoadOrDerive(py, intent, Some(ToJson(d.spec)), saved', a') != Got(ToJson(d.spec))
  {
    hide Clamp, ToJson, IntentPort, CutsClean, Reusable, Readable, Trim;
    var i0, intent := filler + " port 8080", filler + " port 80";
    var reply := Obj([("deliverable", Str("web")), ("why", Str("serves"))]);
    var a0 := Answers(Some(reply), false, 0);
    WebReply(py, i0);
    StraddlePorts(filler);
    PhrasesTrimmed(filler);
    var s := Clamp(py, reply, i0).spec;
    assert s.port == 8080;
    assert s.intent == i0[..200] == intent;
    StoredFields(s, intent);
    assert "serves" != FALLBACK_WHY;
    NotClean(i0, s.port);
    HandOff(py, intent, None, i0, a0, Some(ToJson(s)), a, saved', a');
  }

  lemma {:induction false} NotClean(phrase: string, port: nat)
    requires |phrase| > 200 && IntentPort(phrase[..200]) !in {0, port}
    ensures !CutsClean(phrase, port)
  {
  }

  lemma {:induction false} PhrasesTrimmed(filler: string)
    requires |filler| == 192 && forall i :: 0 <= i < 192 ==> filler[i] == 'a'
    ensures Trim(filler + " port 8080") == filler + " port 8080" && Trim(filler + " port 80") == filler + " port 80"
    ensures (filler + " port 8080")[..200] == filler + " port 80"
  {
    TrimFixed(filler + " port 8080");
    TrimFixed(filler + " port 80");
  }

  lemma {:induction false} WebReply(py: Python, intent: string)
    requires intent != ""
    ensures var c := Clamp(py, Obj([("deliverable", Str("web")), ("why", Str("serves"))]), intent);
            && c.Clamped? && c.spec.deliverable == "web" && c.spec.why == "serves"
            && c.spec.intent == Truncate(Trim(intent), 200)
            && (IntentPort(Trim(intent)) != 0 ==> c.spec.port == IntentPort(Trim(intent)))
  {
    hide EnvOf, HoldOf, UserOf, PathOf, Trim, Lower, Field, IntentPort;
    var raw := Obj([("deliverable", Str("web")), ("why", Str("serves"))]);
    ObjAt(raw, 0, "deliverable");
    ObjAt(raw, 1, "why");
    ObjLacks(raw, "env_required");
    PlainWord("web");
  }

  // Without one only an override makes a spec, and it comes back unchanged
  // exactly when its own phrase survives the cut.
  lemma {:induction false} HandOffWithout(py: Python, raw: Json, saved: Option<Json>, a: Answers, saved': Option<Json>,
                                          a': Answers)
    requires LoadOrDerive(py, "", Some(raw), saved, a).Got?
    ensures Clamp(py, raw, "").Clamped?
    ensures var j := LoadOrDerive(py, "", Some(raw), saved, a).spec;
            LoadOrDerive(py, "", Some(j), saved', a') == Got(j) <==>
            CutsClean(IntentOf(py, raw, ""), Clamp(py, raw, "").spec.port)
  {
    hide Clamp, ToJson, CutsClean, IntentOf, Derive, Readable, Reusable, Bounded;
    var spec := Clamp(py, raw, "").spec;
    EmbeddedIff(py, raw, "");
    var c := Clamp(py, ToJson(spec), "");
    ClampBounds(py, raw, "");
    ReclampDelivers(py, spec, "");
    if ToJson(c.spec) == ToJson(spec) { ToJsonInjective(c.spec, spec); }
  }

  lemma {:induction false} ToJsonInjective(a: Spec, b: Spec)
    requires ToJson(a) == ToJson(b)
    ensures a == b
  {
    hide ToJson;
    FieldsBack(a);
    FieldsBack(b);
    NestedBack(a);
    NestedBack(b);
    StrsInjective(a.env, b.env);
  }

  lemma {:induction false} StrsInjective(a: seq<string>, b: seq<string>)
    requires Strs(a) == Strs(b)
    ensures a == b
  {
    assert |a| == |Strs(a)| == |Strs(b)| == |b|;
    forall i | 0 <= i < |a| ensures a[i] == b[i] {
      assert Strs(a)[i] == Strs(b)[i];
    }
  }
}
