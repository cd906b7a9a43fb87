// The target state (scripts/vmf_plan.py): whatever the model or the user
// supplied is clamped to a bounded vocabulary, and the clamped spec's
// fingerprint keys the plan cache.
module SpecClamp {
  import opened Text
  import opened Decimal
  import opened Dict

  datatype Json =
    | Null
    | Bool(b: bool)
    | Num(n: int)
    | Str(s: string)
    | List(items: seq<Json>)
    | Obj(fields: Dict<string, Json>)

  // int() on text and str() on anything but text.
  datatype Python = Python(toInt: string -> Option<int>, repr: Json -> string)

  predicate Truthy(j: Json) {
    match j
    case Null => false
    case Bool(b) => b
    case Num(n) => n != 0
    case Str(s) => s != ""
    case List(items) => items != []
    case Obj(fields) => fields != []
  }

  function Field(j: Json, key: string): (r: Json) {
    if j.Obj? && Get(j.fields, key).Some? then Get(j.fields, key).value else Null
  }

  function TextOf(py: Python, j: Json): (r: string) { if j.Str? then j.s else py.repr(j) }

  // str(j or default)
  function Or(py: Python, j: Json, default: string): (r: string) { if Truthy(j) then TextOf(py, j) else default }

  function IntOf(py: Python, j: Json): (r: Option<int>) {
    match j
    case Num(n) => Some(n)
    case Bool(b) => Some(if b then 1 else 0)
    case Str(s) => py.toInt(s)
    case _ => None
  }

  // ----- the port a phrase names -----

  predicate WordChar(c: char) { IsDigit(c) || 'a' <= c <= 'z' || 'A' <= c <= 'Z' || c == '_' }

  function RunOfSpace(s: string, i: nat): (n: nat)
    requires i <= |s|
    ensures i + n <= |s|
    ensures forall k :: i <= k < i + n ==> IsSpace(s[k])
    ensures i + n < |s| ==> !IsSpace(s[i + n])
    decreases |s| - i
  {
    if i == |s| || !IsSpace(s[i]) then 0 else 1 + RunOfSpace(s, i + 1)
  }

  function RunOfDigit(s: string, i: nat): (n: nat)
    requires i <= |s|
    ensures i + n <= |s|
    ensures forall k :: i <= k < i + n ==> IsDigit(s[k])
    ensures i + n < |s| ==> !IsDigit(s[i + n])
    decreases |s| - i
  {
    if i == |s| || !IsDigit(s[i]) then 0 else 1 + RunOfDigit(s, i + 1)
  }

  // \bport\s+(\d{1,5})\b at position i, in either case: where it ends and the
  // number it names.
  function MatchAt(s: string, i: nat): (r: Option<(nat, nat)>)
    requires i <= |s|
  {
    if i + 4 > |s| || Lower(s[i..i + 4]) != "port" || (i > 0 && WordChar(s[i - 1])) then None
    else
      var a := i + 4 + RunOfSpace(s, i + 4);
      var b := a + RunOfDigit(s, a);
      if a > i + 4 && a < b <= a + 5 && (b == |s| || !WordChar(s[b])) then Some((b, Val(s[a..b]))) else None
  }

  function SearchFrom(s: string, i: nat): (r: Option<(nat, nat)>)
    requires i <= |s|
    decreases |s| - i
  {
    if MatchAt(s, i).Some? || i == |s| then MatchAt(s, i) else SearchFrom(s, i + 1)
  }

  function IntentPort(s: string): (port: nat)
    ensures port <= 65535
  {
    match SearchFrom(s, 0)
    case Some(m) => if 1 <= m.1 <= 65535 then m.1 else 0
    case None => 0
  }

  // ----- the clamp -----

  datatype Spec = Spec(
    intent: string,
    deliverable: string,
    proto: string,
    port: nat,
    path: string,
    required: bool,
    note: string,
    env: seq<string>,
    user: string,
    hold: int,
    why: string)

  function OneOf(s: string, allowed: seq<string>, default: string): (r: string) {
    if s in allowed then s else default
  }

  function PortOf(py: Python, intent: string, raw: Json): (port: nat)
    ensures port <= 65535
  {
    if IntentPort(intent) != 0 then IntentPort(intent)
    else
      match IntOf(py, raw)
      case Some(n) => if 1 <= n <= 65535 then n else 0
      case None => 0
  }

  function PathOf(raw: Json): (r: string) { if raw.Str? && "/" <= raw.s then raw.s else "/" }

  predicate IsUpper(s: string) {
    (exists i :: 0 <= i < |s| && 'A' <= s[i] <= 'Z') && (forall i :: 0 <= i < |s| ==> !('a' <= s[i] <= 'z'))
  }

  predicate Required(s: string) { IsUpper(s) && |s| <= 60 }

  function EnvOf(py: Python, items: seq<Json>): (env: seq<string>) {
    if items == [] then []
    else
      var init, s := EnvOf(py, items[..|items| - 1]), Trim(TextOf(py, items[|items| - 1]));
      if Required(s) && s !in init then init + [s] else init
  }

  function Chars(s: string): (r: seq<Json>) { seq(|s|, i requires 0 <= i < |s| => Str([s[i]])) }

  function FirstTen(items: seq<Json>): (r: seq<Json>) { if |items| <= 10 then items else items[..10] }

  // What the loop walks: a slice of a list or of a text; anything else that is
  // not falsy cannot be sliced.
  function EnvItems(raw: Json): (r: Option<seq<Json>>) {
    if !Truthy(raw) then Some([])
    else if raw.List? then Some(FirstTen(raw.items))
    else if raw.Str? then Some(FirstTen(Chars(raw.s)))
    else None
  }

  predicate Account(s: string) {
    && 1 <= |s| <= 32
    && ('a' <= s[0] <= 'z' || s[0] == '_')
    && forall i :: 1 <= i < |s| ==> 'a' <= s[i] <= 'z' || IsDigit(s[i]) || s[i] == '_' || s[i] == '-'
  }

  function UserOf(u: string): (r: string) {
    if u == "non-root" || u == "nonroot" || u == "!root" then "non-root" else if Account(u) then u else ""
  }

  function HoldOf(py: Python, raw: Json): (h: int)
    ensures 1 <= h <= 120
  {
    var n := match IntOf(py, raw) case Some(n) => n case None => 25;
    if n < 1 then 1 else if n > 120 then 120 else n
  }

  function IntentOf(py: Python, raw: Json, intent: string): (r: string) {
    Trim(if intent != "" then intent else Or(py, Field(raw, "intent"), ""))
  }

  datatype Clamped = NotAnObject | Raises | Clamped(spec: Spec)

  function Clamp(py: Python, raw: Json, intent: string): (r: Clamped) {
    if !raw.Obj? then NotAnObject
    else if EnvItems(Field(raw, "env_required")) == None then Raises
    else
      var phrase := IntentOf(py, raw, intent);
      var serve, auth := Field(raw, "serve"), Field(raw, "auth");
      Clamped(Spec(
        Truncate(phrase, 200),
        OneOf(Lower(Trim(Or(py, Field(raw, "deliverable"), ""))), ["web", "cli"], ""),
        OneOf(Lower(Trim(Or(py, Field(serve, "proto"), "http"))), ["http", "https", "tcp"], "http"),
        PortOf(py, phrase, Field(serve, "port")),
        PathOf(Field(serve, "path")),
        Truthy(Field(auth, "required")),
        Truncate(Or(py, Field(auth, "note"), ""), 120),
        EnvOf(py, EnvItems(Field(raw, "env_required")).value),
        UserOf(Lower(Trim(Or(py, Field(raw, "user"), "")))),
        HoldOf(py, Field(raw, "hold")),
        Truncate(Or(py, Field(raw, "why"), ""), 60)))
  }

  function Strs(ss: seq<string>): (r: seq<Json>)
    ensures |r| == |ss|
    ensures forall i :: 0 <= i < |ss| ==> r[i] == Str(ss[i])
  {
    seq(|ss|, i requires 0 <= i < |ss| => Str(ss[i]))
  }

  function ToJson(s: Spec): (j: Json) {
    Obj([
      ("version", Num(1)),
      ("intent", Str(s.intent)),
      ("deliverable", Str(s.deliverable)),
      ("serve", Obj([("proto", Str(s.proto)), ("port", Num(s.port)), ("path", Str(s.path))])),
      ("auth", Obj([("required", Bool(s.required)), ("note", Str(s.note))])),
      ("env_required", List(Strs(s.env))),
      ("user", Str(s.user)),
      ("hold", Num(s.hold)),
      ("why", Str(s.why))])
  }

  method ClampEnv(py: Python, items: seq<Json>) returns (env: seq<string>)
    ensures env == EnvOf(py, items)
  {
    hide Trim, TextOf, Required;
    env := [];
    for i := 0 to |items|
      invariant env == EnvOf(py, items[..i])
    {
      assert items[..i + 1][..i] == items[..i];
      var s := Trim(TextOf(py, items[i]));
      if Required(s) && s !in env { env := env + [s]; }
    }
    assert items[..|items|] == items;
  }

  // ----- fields of a stored spec -----

  lemma {:induction false} FieldsBack(s: Spec)
    ensures var j := ToJson(s);
            && Field(j, "intent") == Str(s.intent)
            && Field(j, "deliverable") == Str(s.deliverable)
            && Field(j, "env_required") == List(Strs(s.env))
            && Field(j, "user") == Str(s.user)
            && Field(j, "hold") == Num(s.hold)
            && Field(j, "why") == Str(s.why)
  {
    var j := ToJson(s);
    ObjAt(j, 1, "intent");
    ObjAt(j, 2, "deliverable");
    ObjAt(j, 5, "env_required");
    ObjAt(j, 6, "user");
    ObjAt(j, 7, "hold");
    ObjAt(j, 8, "why");
  }

  lemma {:induction false} NestedBack(s: Spec)
    ensures var serve, auth := Field(ToJson(s), "serve"), Field(ToJson(s), "auth");
            && Field(serve, "proto") == Str(s.proto)
            && Field(serve, "port") == Num(s.port)
            && Field(serve, "path") == Str(s.path)
            && Field(auth, "required") == Bool(s.required)
            && Field(auth, "note") == Str(s.note)
  {
    var j := ToJson(s);
    ObjAt(j, 3, "serve");
    ObjAt(j, 4, "auth");
    ObjAt(Field(j, "serve"), 0, "proto");
    ObjAt(Field(j, "serve"), 1, "port");
    ObjAt(Field(j, "serve"), 2, "path");
    ObjAt(Field(j, "auth"), 0, "required");
    ObjAt(Field(j, "auth"), 1, "note");
  }

  lemma {:induction false} ObjAt(j: Json, i: nat, key: string)
    requires j.Obj? && i < |j.fields| && j.fields[i].0 == key
    requires forall k :: 0 <= k < i ==> j.fields[k].0 != key
    ensures Field(j, key) == j.fields[i].1
  {
    GetAt(j.fields, i);
  }

  lemma {:induction false} ObjLacks(j: Json, key: string)
    requires j.Obj? && forall k :: 0 <= k < |j.fields| ==> j.fields[k].0 != key
    ensures Field(j, key) == Null
  {
    GetIn(j.fields, key);
  }

  lemma {:induction false} GetAt<V>(d: Dict<string, V>, i: nat)
    requires i < |d| && forall k :: 0 <= k < i ==> d[k].0 != d[i].0
    ensures Get(d, d[i].0) == Some(d[i].1)
    decreases i
  {
    if i > 0 {
      assert d[1..][i - 1] == d[i];
      forall k | 0 <= k < i - 1 ensures d[1..][k].0 != d[i].0 { assert d[1..][k] == d[k + 1]; }
      GetAt(d[1..], i - 1);
    }
  }
}
