// What the clamp makes of each field of a reply: what is in its vocabulary
// stays, and what is not degrades to the stated default.
module SpecFields {
  import opened Text
  import opened SpecClamp

  lemma {:induction false} RaisesIff(py: Python, raw: Json, intent: string)
    ensures Clamp(py, raw, intent) == NotAnObject <==> !raw.Obj?
    ensures Clamp(py, raw, intent) == Raises <==>
            raw.Obj? && Truthy(Field(raw, "env_required")) &&
            !Field(raw, "env_required").List? && !Field(raw, "env_required").Str?
  {
    hide Trim, Lower, Or, Field, IntOf, Required, EnvOf, IntentPort, UserOf, Truncate;
  }

  // The words: one of those allowed, in either case and with blanks around it,
  // or the default.
  lemma {:induction false} WordsDegrade(py: Python, raw: Json, intent: string, t: string)
    requires Clamp(py, raw, intent).Clamped?
    ensures var s, w := Clamp(py, raw, intent).spec, Lower(Trim(t));
            && (Field(raw, "deliverable") == Str(t) ==> s.deliverable == if w == "web" || w == "cli" then w else "")
            && (Field(Field(raw, "serve"), "proto") == Str(t) && t != "" ==>
                  s.proto == if w == "http" || w == "https" || w == "tcp" then w else "http")
  {
    assert Lower(Trim("")) == "" by { NoWord(); }
    Choice(Lower(Trim(t)));
    Choice("");
    WordFields(py, raw, intent);
    OrText(py, t, "");
    OrText(py, t, "http");
    hide *;
  }

  // An account of the app's own, any of the words for one that is not root, or
  // nothing.
  lemma {:induction false} UserDegrades(py: Python, raw: Json, intent: string, t: string)
    requires Clamp(py, raw, intent).Clamped? && Field(raw, "user") == Str(t)
    ensures var w := Lower(Trim(t));
            Clamp(py, raw, intent).spec.user ==
            if w == "non-root" || w == "nonroot" || w == "!root" then "non-root"
            else if 1 <= |w| <= 32 && ('a' <= w[0] <= 'z' || w[0] == '_') &&
                    forall i :: 1 <= i < |w| ==> 'a' <= w[i] <= 'z' || '0' <= w[i] <= '9' || w[i] in {'_', '-'}
            then w else ""
  {
    AccountIs(Lower(Trim(t)));
    assert Lower(Trim("")) == "" && !Account("") by { NoWord(); }
    hide Trim, Lower, Field, IntOf, Required, EnvOf, IntentPort, Truncate, Account, OneOf;
  }

  lemma {:induction false} OrText(py: Python, t: string, default: string)
    ensures Or(py, Str(t), default) == if t == "" then default else t
  {
  }

  lemma {:induction false} PathIs(t: string)
    ensures PathOf(Str(t)) == if t != "" && t[0] == '/' then t else "/"
  {
  }

  lemma {:induction false} NoText()
    ensures Truncate("", 120) == "" && Truncate("", 60) == ""
  {
  }

  lemma {:induction false} TextFields(py: Python, raw: Json, intent: string)
    requires Clamp(py, raw, intent).Clamped?
    ensures var s, auth := Clamp(py, raw, intent).spec, Field(raw, "auth");
            && s.intent == Truncate(Trim(if intent != "" then intent else Or(py, Field(raw, "intent"), "")), 200)
            && s.path == PathOf(Field(Field(raw, "serve"), "path"))
            && s.note == Truncate(Or(py, Field(auth, "note"), ""), 120)
            && s.why == Truncate(Or(py, Field(raw, "why"), ""), 60)
            && s.required == Truthy(Field(auth, "required"))
  {
    hide Trim, Lower, Field, IntOf, Required, EnvOf, IntentPort, Truncate, UserOf, OneOf, PortOf, PathOf, HoldOf,
         EnvItems, Or, Truthy;
  }

  lemma {:induction false} WordFields(py: Python, raw: Json, intent: string)
    requires Clamp(py, raw, intent).Clamped?
    ensures var s := Clamp(py, raw, intent).spec;
            && s.deliverable == OneOf(Lower(Trim(Or(py, Field(raw, "deliverable"), ""))), ["web", "cli"], "")
            && s.proto == OneOf(Lower(Trim(Or(py, Field(Field(raw, "serve"), "proto"), "http"))),
                                ["http", "https", "tcp"], "http")
  {
    hide Trim, Lower, Field, IntOf, Required, EnvOf, IntentPort, Truncate, UserOf, OneOf, IntentOf, PortOf, PathOf,
         HoldOf, EnvItems, Or;
  }

  lemma {:induction false} AccountIs(w: string)
    ensures Account(w) <==>
            1 <= |w| <= 32 && ('a' <= w[0] <= 'z' || w[0] == '_') &&
            forall i :: 1 <= i < |w| ==> 'a' <= w[i] <= 'z' || '0' <= w[i] <= '9' || w[i] in {'_', '-'}
  {
  }

  lemma {:induction false} Choice(w: string)
    ensures OneOf(w, ["web", "cli"], "") == if w == "web" || w == "cli" then w else ""
    ensures OneOf(w, ["http", "https", "tcp"], "http") ==
            if w == "http" || w == "https" || w == "tcp" then w else "http"
  {
    var a, b := ["web", "cli"], ["http", "https", "tcp"];
    assert w in a <==> w == a[0] || w == a[1];
    assert w in b <==> w == b[0] || w == b[1] || w == b[2];
  }

  lemma {:induction false} NoWord()
    ensures Lower(Trim("")) == "" && !Account("")
  {
  }

  // The phrase is authoritative for the port; a number is taken if it is one of a
  // port, and a hold is brought into its range.
  lemma {:induction false} NumbersDegrade(py: Python, raw: Json, intent: string, n: int)
    requires Clamp(py, raw, intent).Clamped?
    ensures var s, named := Clamp(py, raw, intent).spec, IntentPort(IntentOf(py, raw, intent));
            && (named != 0 ==> s.port == named)
            && (named == 0 && Field(Field(raw, "serve"), "port") == Num(n) ==>
                  s.port == if 1 <= n <= 65535 then n else 0)
            && (named == 0 && Field(Field(raw, "serve"), "port") == Null ==> s.port == 0)
            && (Field(raw, "hold") == Num(n) ==> s.hold == if n < 1 then 1 else if n > 120 then 120 else n)
            && (Field(raw, "hold") == Null ==> s.hold == 25)
  {
    hide Trim, Lower, Field, Or, Required, EnvOf, IntentPort, UserOf, Truncate, Account, IntentOf;
  }

  // Texts are cut, a path has to start at the root, and a given phrase is kept.
  lemma {:induction false} TextsDegrade(py: Python, raw: Json, intent: string, t: string)
    requires Clamp(py, raw, intent).Clamped?
    ensures var s := Clamp(py, raw, intent).spec;
            && (intent != "" ==> s.intent == Truncate(Trim(intent), 200))
            && (intent == "" && Field(raw, "intent") == Str(t) ==> s.intent == Truncate(Trim(t), 200))
            && (Field(Field(raw, "serve"), "path") == Str(t) ==> s.path == if t != "" && t[0] == '/' then t else "/")
            && (!Field(Field(raw, "serve"), "path").Str? ==> s.path == "/")
            && (Field(Field(raw, "auth"), "note") == Str(t) ==> s.note == Truncate(t, 120))
            && (Field(raw, "why") == Str(t) ==> s.why == Truncate(t, 60))
            && s.required == Truthy(Field(Field(raw, "auth"), "required"))
  {
    TextFields(py, raw, intent);
    OrText(py, t, "");
    PathIs(t);
    NoText();
    hide Clamp, Field, Or, Truncate, Trim;
  }

  lemma {:induction false} EnvIs(py: Python, items: seq<Json>, x: string)
    ensures x in EnvOf(py, items) <==>
            Required(x) && exists i :: 0 <= i < |items| && Trim(TextOf(py, items[i])) == x
    decreases |items|
  {
    hide Trim, TextOf, Required;
    if items != [] {
      var init := items[..|items| - 1];
      EnvIs(py, init, x);
      assert forall i :: 0 <= i < |init| ==> init[i] == items[i];
    }
  }

  lemma {:induction false} RequiredIs(x: string)
    ensures Required(x) <==>
            && |x| <= 60 && (exists k :: 0 <= k < |x| && 'A' <= x[k] <= 'Z')
            && (forall k :: 0 <= k < |x| ==> !('a' <= x[k] <= 'z'))
  {
  }

  // Of the first ten names those are required that have an upper-case letter, no
  // lower-case one and at most sixty characters.
  lemma {:induction false} NamesDegrade(py: Python, raw: Json, intent: string, items: seq<Json>, x: string)
    requires Clamp(py, raw, intent).Clamped? && Field(raw, "env_required") == List(items)
    ensures x in Clamp(py, raw, intent).spec.env <==>
            && |x| <= 60 && (exists k :: 0 <= k < |x| && 'A' <= x[k] <= 'Z')
            && (forall k :: 0 <= k < |x| ==> !('a' <= x[k] <= 'z'))
            && exists i :: 0 <= i < |items| && i < 10 && Trim(TextOf(py, items[i])) == x
  {
    hide Trim, Lower, Or, Field, IntOf, Required, IntentPort, UserOf, Truncate, EnvOf, TextOf;
    RequiredIs(x);
    EnvIs(py, FirstTen(items), x);
    if items == [] { EnvIs(py, [], x); }
    assert forall i :: 0 <= i < |items| && i < 10 ==> FirstTen(items)[i] == items[i];
  }
}
