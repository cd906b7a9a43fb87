// What comes back from a lane that asked, in terms of its reply; which lanes ask;
// and what counts as a command that serves nothing.
module FanoutPlans {
  import opened Text
  import opened Utf8
  import opened Fanout

  // ----- which lanes ask -----

  predicate Prefiltered(m: Method, f: Facts) {
    (m == Compose && !f.compose) || (m == Build && !f.dockerfile) || (m == Source && !f.make)
  }

  // A lane asks the model exactly when it is not prefiltered and neither of its
  // files carries this spec's fingerprint; a prefiltered one is skipped.
  lemma {:induction false} AskedIff(c: Cache, q: Request, m: Method)
    ensures var sh := q.hash(q.spec);
            m in Todo(c, q) <==>
            && !Prefiltered(m, q.facts)
            && !(m in c.plans && c.plans[m].specH == sh) && !(m in c.blocked && c.blocked[m].specH == sh)
    ensures m in Fan(c, q).0.skipped <==> Prefiltered(m, q.facts)
  {
    EveryMethod(m);
    FanLane(c, q, m);
    hide Fan, VerdictOf;
  }

  // ----- what comes back -----

  // What a lane that was asked leaves behind, in the result and in its files.
  ghost predicate Returned(c: Cache, q: Request, m: Method, a: Approach) {
    var r := Fan(c, q);
    && m in r.0.plans && r.0.plans[m] == a && m !in r.0.blocked && m !in r.0.transients
    && m in r.1.plans && r.1.plans[m] == PlanFile(Filed(a), q.hash(q.spec))
  }

  ghost predicate Denied(c: Cache, q: Request, m: Method, why: string) {
    var r := Fan(c, q);
    && m in r.0.blocked && r.0.blocked[m] == why && m !in r.0.plans && m !in r.0.transients
    && m in r.1.blocked && r.1.blocked[m] == BlockedFile(Coerce(why), q.hash(q.spec))
  }

  ghost predicate Failed(c: Cache, q: Request, m: Method, why: string) {
    var r := Fan(c, q);
    && m in r.0.transients && r.0.transients[m] == why && m !in r.0.plans && m !in r.0.blocked
    && Get(r.1.plans, m) == Get(c.plans, m) && Get(r.1.blocked, m) == Get(c.blocked, m)
  }

  lemma {:induction false} Lands(c: Cache, q: Request, m: Method)
    requires m in Todo(c, q)
    ensures match VerdictOf(q, m)
            case Plan(a) => Returned(c, q, m, a)
            case Blocked(why) => Denied(c, q, m, why)
            case Transient(why) => Failed(c, q, m, why)
  {
    EveryMethod(m);
    FanLane(c, q, m);
    hide Fan, VerdictOf, Filed, Coerce;
  }

  // The first sixteen words of the command, as decoded.
  function CommandOf(j: Json): (cmd: seq<string>) {
    CoerceAll(if |j.command| <= 16 then j.command else j.command[..16])
  }

  lemma {:induction false} Short(why: string)
    requires |why| <= 40
    ensures Truncate(why, 40) == why
  {
  }

  // A good command comes back as a plan, and only an empty one, or under a web
  // target a keep-alive, is refused.
  lemma {:induction false} CommandComesBack(c: Cache, q: Request, m: Method)
    requires m in Todo(c, q) && m in {Pkg, Source}
    requires q.reply(m).Parsed? && Lower(q.reply(m).json.status) != "blocked"
    ensures var j := q.reply(m).json;
            var cmd := CommandOf(j);
            if cmd == [] then Denied(c, q, m, "no command")
            else if IsWeb(q.spec) && IsKeepalive(cmd) then Denied(c, q, m, "plan ignores the web target")
            else Returned(c, q, m, Approach(m, cmd, Truncate(Coerce(j.notes), 120), j.payload))
  {
    Lands(c, q, m);
    Short("no command");
    Short("plan ignores the web target");
    hide Returned, Denied, Failed, IsKeepalive, IsWeb, Coerce, Lower, Truncate, CoerceAll;
    assert "no command" != "" && "plan ignores the web target" != "";
  }

  // An image, a compose file, a Dockerfile: with it a plan, without it none.
  lemma {:induction false} DeclaredComesBack(c: Cache, q: Request, m: Method)
    requires m in Todo(c, q) && m in {Prebuilt, Compose, Build}
    requires q.reply(m).Parsed? && Lower(q.reply(m).json.status) != "blocked"
    ensures var j := q.reply(m).json;
            var there := if m == Prebuilt then j.images != []
                         else if m == Compose then j.composeFile != "" else j.dockerfile;
            var why := if m == Prebuilt then "no exact image ref"
                       else if m == Compose then "no standalone compose file" else "no root Dockerfile";
            if there then Returned(c, q, m, Approach(m, [], Truncate(Coerce(j.notes), 120), j.payload))
            else Denied(c, q, m, why)
  {
    Lands(c, q, m);
    Short("no exact image ref");
    Short("no standalone compose file");
    Short("no root Dockerfile");
    hide Returned, Denied, Failed, Coerce, Lower, Truncate;
    assert "no exact image ref" != "" && "no standalone compose file" != "" && "no root Dockerfile" != "";
  }

  // A refusal comes back with its reason cut after forty bytes, and no answer as
  // a failure that leaves the files alone.
  lemma {:induction false} RefusalComesBack(c: Cache, q: Request, m: Method)
    requires m in Todo(c, q)
    requires q.reply(m).Parsed? ==> Lower(q.reply(m).json.status) == "blocked"
    ensures match q.reply(m)
            case CallFailed(e) => Failed(c, q, m, e)
            case Unparseable => Failed(c, q, m, "unparseable output")
            case Parsed(j) =>
              if j.why == "" then Failed(c, q, m, "") else Denied(c, q, m, Truncate(Coerce(j.why), 40))
  {
    Lands(c, q, m);
    if q.reply(m).Parsed? {
      var why := q.reply(m).json.why;
      TruncateTwice(Coerce(why), 40);
      CoerceEmpty(why);
      NothingCut(Coerce(why));
    }
    hide Returned, Denied, Failed, Coerce, Lower, Truncate;
  }

  lemma {:induction false} NothingCut(s: string)
    ensures Truncate(s, 40) == "" <==> s == ""
  {
  }

  // ----- web targets -----

  // A web target is one in either case.
  lemma {:induction false} WebIff(spec: Option<Spec>)
    ensures IsWeb(spec) <==>
            && spec.Some? && |spec.value.deliverable| == 3
            && spec.value.deliverable[0] in {'w', 'W'} && spec.value.deliverable[1] in {'e', 'E'}
            && spec.value.deliverable[2] in {'b', 'B'}
  {
    if spec.Some? && |spec.value.deliverable| == 3 {
      var d := spec.value.deliverable;
      var l := Lower(d);
      assert l == [l[0], l[1], l[2]] && l[0] == LowerChar(d[0]) && l[1] == LowerChar(d[1]) && l[2] == LowerChar(d[2]);
      assert "web" == ['w', 'e', 'b'];
    }
  }

  // ----- keep-alives -----

  const SHELL_WORDS: seq<string> := ["sh", "bash", "ash", "dash"]
  const IDLE_WORDS: seq<string> := ["sleep", "true", "false", "tail", "top", "yes", "watch", "cat", "read"]

  lemma {:induction false} TheWords(w: string)
    ensures w in SHELLS <==> w in SHELL_WORDS
    ensures w in KEEPALIVE <==> w in SHELL_WORDS || w in IDLE_WORDS
  {
    var s, d := SHELL_WORDS, IDLE_WORDS;
    assert w in s <==> w == s[0] || w == s[1] || w == s[2] || w == s[3];
    assert w in d <==> w == d[0] || w == d[1] || w == d[2] || w == d[3] || w == d[4] || w == d[5] || w == d[6] ||
                       w == d[7] || w == d[8];
  }

  // Nothing, and a word of no idle kind, serve; an idle word idles whatever
  // follows it; a shell idles unless it carries a payload, and then as the first
  // word of the payload does.
  lemma {:induction false} KeepaliveIff(cmd: seq<string>)
    ensures cmd == [] ==> !IsKeepalive(cmd)
    ensures cmd != [] && Trim(cmd[0]) in IDLE_WORDS ==> IsKeepalive(cmd)
    ensures cmd != [] && Trim(cmd[0]) !in SHELL_WORDS && Trim(cmd[0]) !in IDLE_WORDS ==> !IsKeepalive(cmd)
    ensures cmd != [] && Trim(cmd[0]) in SHELL_WORDS && (|cmd| < 3 || Trim(cmd[1]) != "-c") ==> IsKeepalive(cmd)
    ensures |cmd| >= 3 && Trim(cmd[0]) in SHELL_WORDS && Trim(cmd[1]) == "-c" ==>
              var first := FirstWord(cmd[2]);
              (IsKeepalive(cmd) <==> first == "" || first in SHELL_WORDS || first in IDLE_WORDS)
  {
    if cmd != [] { TheWords(Trim(cmd[0])); }
    if |cmd| >= 3 { TheWords(FirstWord(cmd[2])); }
    hide KEEPALIVE, SHELLS, SHELL_WORDS, Trim, FirstWord;
    if cmd != [] && Trim(cmd[0]) in IDLE_WORDS { NoShell(Trim(cmd[0])); }
  }

  lemma {:induction false} NoShell(w: string)
    requires w in IDLE_WORDS
    ensures w !in SHELLS
  {
    TheWords(w);
  }
}
