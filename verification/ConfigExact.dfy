/**
 The exact condition for the init container's script to put every secret in its place: no secret
 that is used holds the placeholder of a variable the script comes to later.
 */
module ConfigExact {
  import opened Wrappers
  import opened Text
  import opened Template
  import opened TemplateExact
  import opened ObjectStorage
  import opened Config
  import opened ConfigSecrets
  import opened ConfigScript

  // ----- Quoting leaves placeholders as they are -----

  /** The characters of the script's placeholders. */
  predicate WordChar(c: char) {
    'A' <= c <= 'Z' || c == '_' || c == DOLLAR || c == OPEN || c == CLOSE
  }

  predicate Word(w: string) {
    w != "" && forall i | 0 <= i < |w| :: WordChar(w[i])
  }

  predicate NoWord(x: string) {
    forall i | 0 <= i < |x| :: !WordChar(x[i])
  }

  lemma EscapedWord(c: char, html: bool)
    ensures Escaped(c, html) == [c] || (!WordChar(c) && NoWord(Escaped(c, html)) && Escaped(c, html) != "")
  {
  }

  lemma OccursNext(w: string, t: string)
    requires w != ""
    ensures Occurs(w, t) <==> w <= t || (t != "" && Occurs(w, t[1..]))
  {
    if i :| At(w, t, i) {
      if i == 0 {
        assert t[0..] == t;
      } else {
        assert t[1..][i - 1..] == t[i..];
        assert At(w, t[1..], i - 1);
      }
    }
    if w <= t {
      assert t[0..] == t;
      assert At(w, t, 0);
    } else if t != "" && Occurs(w, t[1..]) {
      var i :| At(w, t[1..], i);
      assert t[1..][i..] == t[i + 1..];
      assert At(w, t, i + 1);
    }
  }

  lemma {:induction false} SkipNoWord(w: string, x: string, t: string)
    requires Word(w) && NoWord(x)
    ensures Occurs(w, x + t) <==> Occurs(w, t)
  {
    if x == "" {
      assert x + t == t;
    } else {
      hide Occurs;
      OccursNext(w, x + t);
      assert (x + t)[0] == x[0] && (x + t)[1..] == x[1..] + t;
      SkipNoWord(w, x[1..], t);
    }
  }

  lemma {:induction false} StartEscaped(w: string, s: string, html: bool)
    requires w == "" || Word(w)
    ensures w <= Escape(s, html) + [MARK] <==> w <= s
    decreases |s|
  {
    if w != "" && s == "" {
      assert Escape(s, html) + [MARK] == [MARK] && WordChar(w[0]);
    } else if w != "" {
      hide Escaped;
      EscapedWord(s[0], html);
      var e := Escape(s, html) + [MARK];
      assert e == Escaped(s[0], html) + (Escape(s[1..], html) + [MARK]);
      if Escaped(s[0], html) == [s[0]] {
        StartEscaped(w[1..], s[1..], html);
        assert e[1..] == Escape(s[1..], html) + [MARK];
        SplitStart(w, e);
        SplitStart(w, s);
      } else {
        assert e[0] == Escaped(s[0], html)[0] && WordChar(w[0]);
      }
    }
  }

  lemma SplitStart(w: string, t: string)
    requires w != "" && t != ""
    ensures w <= t <==> w[0] == t[0] && w[1..] <= t[1..]
  {
    assert w == [w[0]] + w[1..] && t == [t[0]] + t[1..];
  }

  lemma {:induction false} OccursEscaped(w: string, s: string, html: bool)
    requires Word(w)
    ensures Occurs(w, Escape(s, html) + [MARK]) <==> Occurs(w, s)
  {
    hide Occurs, Escaped;
    var e := Escape(s, html) + [MARK];
    OccursNext(w, e);
    OccursNext(w, s);
    StartEscaped(w, s, html);
    if s == "" {
      assert e[1..] == "";
      OccursNext(w, "");
    } else {
      OccursEscaped(w, s[1..], html);
      EscapedWord(s[0], html);
      var rest := Escape(s[1..], html) + [MARK];
      assert e == Escaped(s[0], html) + rest;
      if Escaped(s[0], html) == [s[0]] {
        assert e[1..] == rest;
      } else {
        SkipNoWord(w, Escaped(s[0], html), rest);
        StartsNoWord(w, s);
      }
    }
  }

  lemma StartsNoWord(w: string, s: string)
    requires Word(w) && s != "" && !WordChar(s[0])
    ensures !(w <= s)
  {
  }

  /** A quoted text holds a placeholder exactly when the text does. */
  lemma OccursQuoted(w: string, s: string, html: bool)
    requires Word(w)
    ensures Occurs(w, Quote(s, html)) <==> Occurs(w, s)
  {
    hide Occurs, Escape;
    assert Quote(s, html) == "\"" + (Escape(s, html) + [MARK]);
    SkipNoWord(w, "\"", Escape(s, html) + [MARK]);
    OccursEscaped(w, s, html);
  }

  lemma QuoteSealed(s: string, html: bool)
    ensures Sealed(Quote(s, html))
  {
  }

  // ----- The script's names -----

  predicate Upper(name: string) {
    forall i | 0 <= i < |name| :: 'A' <= name[i] <= 'Z' || name[i] == '_'
  }

  lemma RoleUpper(r: Role)
    ensures Upper(PassEnv(r))
  {
  }

  lemma FixedUpper()
    ensures Upper(DB_PASSWORD) && Upper(MEILI_KEY) && Upper(REDIS_PASSWORD) && Upper(SETUP_PASSWORD)
  {
  }

  lemma NamesUpper(i: nat)
    requires i < |NAMES|
    ensures Upper(NAMES[i])
  {
    FixedUpper();
    RoleUpper(JobQueue);
    RoleUpper(Pubsub);
    RoleUpper(Timelines);
    RoleUpper(Reactions);
    hide Upper, PassEnv;
  }

  lemma UpperPlain(name: string)
    requires Upper(name)
    ensures TemplateExact.Plain(name) && Word(Placeholder(name))
  {
    var w := Placeholder(name);
    assert forall i | 2 <= i < |w| - 1 :: w[i] == name[i - 2];
  }

  lemma NamesFit()
    ensures AllPlain(NAMES) && TemplateExact.Apart(NAMES)
  {
    hide TemplateExact.Plain, Upper;
    forall i | 0 <= i < |NAMES| ensures TemplateExact.Plain(NAMES[i]) {
      NamesUpper(i);
      UpperPlain(NAMES[i]);
    }
    forall i, j | 0 <= i < j < |NAMES| ensures NAMES[i] != NAMES[j] {
      NamesDistinct(i, j);
    }
  }

  // ----- The exact condition -----

  function Quoted(env: map<string, string>): map<string, string> {
    map k | k in env :: Quote(env[k], false)
  }

  /** The secret of a variable of the plan holds ${N} for a name N that is set and comes later. */
  ghost predicate Rewritten(p: Config.Plan, env: map<string, string>, i: nat, j: nat) {
    && i < j < |NAMES| && NAMES[i] in NamesIn(Variables(p)) && NAMES[i] in env && NAMES[j] in env
    && Occurs(Placeholder(NAMES[j]), env[NAMES[i]])
  }

  lemma LaterInEnv(env: map<string, string>, i: nat)
    requires i < |NAMES| && NAMES[i] in env
    ensures HoldsLater(NAMES, Quoted(env), i) <==>
      exists j :: i < j < |NAMES| && NAMES[j] in env && Occurs(Placeholder(NAMES[j]), env[NAMES[i]])
  {
    hide Occurs, Quote, Placeholder, Upper;
    forall j | i < j < |NAMES| && NAMES[j] in env
      ensures Occurs(Placeholder(NAMES[j]), Quote(env[NAMES[i]], false)) <==> Occurs(Placeholder(NAMES[j]), env[NAMES[i]])
    {
      NamesUpper(j);
      UpperPlain(NAMES[j]);
      OccursQuoted(Placeholder(NAMES[j]), env[NAMES[i]], false);
    }
  }

  lemma UnharmedIff(p: Config.Plan, env: map<string, string>)
    requires forall x | x in NamesIn(Variables(p)) :: x in env
    ensures Unharmed(Chunks(p), NAMES, Quoted(env)) <==> forall i: nat, j: nat :: !Rewritten(p, env, i, j)
  {
    hide Occurs, Quote, Placeholder, Chunks, Variables, NamesIn, Holes, HoldsLater;
    PlaceholdersAreVariables(p);
    forall i: nat | i < |NAMES| && NAMES[i] in env
      ensures HoldsLater(NAMES, Quoted(env), i) <==>
        exists j :: i < j < |NAMES| && NAMES[j] in env && Occurs(Placeholder(NAMES[j]), env[NAMES[i]])
    {
      LaterInEnv(env, i);
    }
    if Unharmed(Chunks(p), NAMES, Quoted(env)) {
      forall i: nat, j: nat ensures !Rewritten(p, env, i, j) {
      }
    }
    if forall i: nat, j: nat :: !Rewritten(p, env, i, j) {
      forall i | 0 <= i < |NAMES| && NAMES[i] in Quoted(env) && NAMES[i] in Holes(Chunks(p))
        ensures !HoldsLater(NAMES, Quoted(env), i)
      {
        forall j | i < j < |NAMES| && NAMES[j] in env ensures !Occurs(Placeholder(NAMES[j]), env[NAMES[i]]) {
          assert !Rewritten(p, env, i, j);
        }
      }
    }
  }

  /**
   With clean user strings, the script puts every secret in its place at once exactly when no secret
   of a variable holds the placeholder of a later name that is set.
   */
  lemma ScriptIff(p: Config.Plan, env: map<string, string>, secrets: map<Selector, string>)
    requires CleanPlan(p) && Provides(env, Variables(p), secrets)
    ensures Sequential(Flatten(Chunks(p)), NAMES, Quoted(env)) == Flatten(Substitute(Chunks(p), Quoted(env)))
        <==> forall i: nat, j: nat :: !Rewritten(p, env, i, j)
  {
    hide Chunks, Variables, Quote, Sequential, Substitute, Flatten, AllGood, CleanPlan, Holes, Unharmed, Rewritten, Restrict;
    forall k | k in Quoted(env) ensures Sealed(Quoted(env)[k]) {
      QuoteSealed(env[k], false);
    }
    GoodTemplate(p);
    NamesFit();
    SequentialIff(Chunks(p), NAMES, Quoted(env));
    assert forall x | x in NamesIn(Variables(p)) :: x in env;
    UnharmedIff(p, env);
    RestrictIsAll(p, env);
  }

  /** Every placeholder is listed, so leaving out the names the script does not list changes nothing. */
  lemma RestrictIsAll(p: Config.Plan, env: map<string, string>)
    ensures Substitute(Chunks(p), Restrict(Quoted(env), NAMES)) == Substitute(Chunks(p), Quoted(env))
  {
    hide Chunks, Holes, Quote;
    ScriptListsAll(p);
    var cs := Chunks(p);
    forall i | 0 <= i < |cs| && cs[i].Hole? ensures cs[i].name in NAMES {
      HoleListed(cs, i);
    }
  }

  lemma HoldsItself(s: string)
    ensures Occurs(s, s)
  {
    assert s[0..] == s;
    assert At(s, s, 0);
  }

  lemma SetupPlaceholder()
    ensures Placeholder(SETUP_PASSWORD) == "${SETUP_PASSWORD}"
  {
  }

  lemma BothSet(p: Config.Plan)
    requires p.setup.Some?
    ensures DB_PASSWORD in NamesIn(Variables(p)) && SETUP_PASSWORD in NamesIn(Variables(p))
  {
    hide Variables, NamesIn, RoleNames, MeiliKey;
    VariablesNames(p);
  }

  /** An input: a database password that is the placeholder of the setup password does not arrive. */
  lemma PasswordIsRewritten(p: Config.Plan, env: map<string, string>, secrets: map<Selector, string>)
    requires CleanPlan(p) && Provides(env, Variables(p), secrets)
    requires p.setup.Some? && DB_PASSWORD in env && env[DB_PASSWORD] == "${SETUP_PASSWORD}"
    ensures Sequential(Flatten(Chunks(p)), NAMES, Quoted(env)) != Flatten(Substitute(Chunks(p), Quoted(env)))
  {
    hide Chunks, Quote, Sequential, Substitute, Flatten, CleanPlan, Variables, NamesIn, Placeholder, Occurs, PassEnv, Provides;
    ScriptIff(p, env, secrets);
    BothSet(p);
    SetInEnv(p, env, secrets, SETUP_PASSWORD);
    SetupPlaceholder();
    HoldsItself(env[DB_PASSWORD]);
    assert NAMES[0] == DB_PASSWORD && NAMES[7] == SETUP_PASSWORD;
    assert Rewritten(p, env, 0, 7);
  }

  lemma SetInEnv(p: Config.Plan, env: map<string, string>, secrets: map<Selector, string>, x: string)
    requires Provides(env, Variables(p), secrets) && x in NamesIn(Variables(p))
    ensures x in env
  {
    hide Variables;
  }
}
