/**
 Templates: text with ${NAME} placeholders, and their substitution one name after the other by
 splitting at the placeholder and joining with the value.
 */
module Template {
  import opened Wrappers
  import opened Text

  const DOLLAR := '$'
  const OPEN := '{'
  const CLOSE := '}'

  datatype Chunk = Lit(text: string) | Hole(name: string)

  function Placeholder(name: string): string {
    [DOLLAR, OPEN] + name + [CLOSE]
  }

  function TextOf(c: Chunk): string {
    if c.Lit? then c.text else Placeholder(c.name)
  }

  function Flatten(cs: seq<Chunk>): string {
    if cs == [] then "" else TextOf(cs[0]) + Flatten(cs[1..])
  }

  function Holes(cs: seq<Chunk>): set<string> {
    if cs == [] then {} else (if cs[0].Hole? then {cs[0].name} else {}) + Holes(cs[1..])
  }

  lemma {:induction false} FlattenConcat(a: seq<Chunk>, b: seq<Chunk>)
    ensures Flatten(a + b) == Flatten(a) + Flatten(b)
  {
    if a == [] {
      assert a + b == b;
    } else {
      assert (a + b)[1..] == a[1..] + b;
      FlattenConcat(a[1..], b);
    }
  }

  lemma FlattenNext(cs: seq<Chunk>, c: Chunk)
    ensures Flatten(cs + [c]) == Flatten(cs) + TextOf(c)
  {
    FlattenConcat(cs, [c]);
    assert [c][1..] == [];
    assert Flatten([c]) == TextOf(c) + "" == TextOf(c);
  }

  lemma {:induction false} HolesConcat(a: seq<Chunk>, b: seq<Chunk>)
    ensures Holes(a + b) == Holes(a) + Holes(b)
  {
    if a == [] {
      assert a + b == b;
    } else {
      assert (a + b)[1..] == a[1..] + b;
      HolesConcat(a[1..], b);
    }
  }

  // ----- Text without placeholders -----

  /** No "${" anywhere. */
  predicate Clean(s: string) {
    forall i | 0 <= i < |s| - 1 :: s[i] == DOLLAR ==> s[i + 1] != OPEN
  }

  /** A text after which nothing can complete a "${". */
  predicate Closed(s: string) {
    Clean(s) && s != "" && s[|s| - 1] != DOLLAR
  }

  /** A name that can stand in a placeholder. */
  predicate Proper(name: string) {
    Free(name, DOLLAR) && Free(name, CLOSE)
  }

  predicate Good(c: Chunk) {
    if c.Lit? then Closed(c.text) else Proper(c.name)
  }

  predicate AllGood(cs: seq<Chunk>) {
    forall i | 0 <= i < |cs| :: Good(cs[i])
  }

  lemma CleanConcat(a: string, b: string)
    requires Clean(a) && Clean(b)
    requires a == "" || a[|a| - 1] != DOLLAR || b == "" || b[0] != OPEN
    ensures Clean(a + b)
  {
  }

  // ----- Substitution -----

  /** String.split with a literal separator. */
  function Split(s: string, pat: string): (parts: seq<string>)
    requires pat != ""
    ensures parts != []
    decreases |s|
  {
    if s == "" then [""]
    else if pat <= s then [""] + Split(s[|pat|..], pat)
    else var rest := Split(s[1..], pat); [[s[0]] + rest[0]] + rest[1..]
  }

  function Join(parts: seq<string>, sep: string): string
    requires parts != []
  {
    if |parts| == 1 then parts[0] else parts[0] + sep + Join(parts[1..], sep)
  }

  /** Every occurrence from left to right. */
  function Replace(s: string, pat: string, rep: string): string
    requires pat != ""
    decreases |s|
  {
    if s == "" then ""
    else if pat <= s then rep + Replace(s[|pat|..], pat, rep)
    else [s[0]] + Replace(s[1..], pat, rep)
  }

  lemma {:induction false} JoinSplit(s: string, pat: string, rep: string)
    requires pat != ""
    ensures Join(Split(s, pat), rep) == Replace(s, pat, rep)
    decreases |s|
  {
    if s == "" {
    } else if pat <= s {
      var rest := Split(s[|pat|..], pat);
      JoinSplit(s[|pat|..], pat, rep);
      assert ([""] + rest)[1..] == rest;
      assert "" + rep + Join(rest, rep) == rep + Join(rest, rep);
    } else {
      var rest := Split(s[1..], pat);
      JoinSplit(s[1..], pat, rep);
      var parts := [[s[0]] + rest[0]] + rest[1..];
      assert parts[1..] == rest[1..];
      if |rest| > 1 {
        assert [s[0]] + rest[0] + rep + Join(rest[1..], rep) == [s[0]] + (rest[0] + rep + Join(rest[1..], rep));
      }
    }
  }

  /** One placeholder filled in. */
  function Fill(cs: seq<Chunk>, name: string, value: string): seq<Chunk> {
    seq(|cs|, i requires 0 <= i < |cs| => if cs[i] == Hole(name) then Lit(value) else cs[i])
  }

  lemma StartsWithDollar(s: string, name: string)
    requires Placeholder(name) <= s
    ensures |s| >= 2 && s[0] == DOLLAR && s[1] == OPEN
  {
    assert s[0] == Placeholder(name)[0] && s[1] == Placeholder(name)[1];
  }

  /** A literal is passed over, whatever follows. */
  lemma {:induction false} ReplaceSkips(a: string, rest: string, name: string, rep: string)
    requires Clean(a) && (a == "" || a[|a| - 1] != DOLLAR)
    ensures Replace(a + rest, Placeholder(name), rep) == a + Replace(rest, Placeholder(name), rep)
    decreases |a|
  {
    var s, pat := a + rest, Placeholder(name);
    if a == "" {
      assert s == rest;
    } else {
      if pat <= s {
        StartsWithDollar(s, name);
      }
      assert s[0] == a[0] && s[1..] == a[1..] + rest;
      ReplaceSkips(a[1..], rest, name, rep);
      assert [a[0]] + (a[1..] + Replace(rest, pat, rep)) == a + Replace(rest, pat, rep);
    }
  }

  lemma PlaceholderMatches(name: string, other: string, rest: string)
    requires Free(name, CLOSE) && Free(other, CLOSE)
    ensures Placeholder(name) <= Placeholder(other) + rest <==> name == other
  {
    var s := Placeholder(other) + rest;
    if Placeholder(name) <= s {
      var tail := s[|Placeholder(name)|..];
      assert s == Placeholder(name) + tail;
      assert s[2..] == name + [CLOSE] + tail;
      assert s[2..] == other + [CLOSE] + rest;
      FirstSeparator(name, other, tail, rest, CLOSE);
    }
  }

  lemma ReplaceHole(n: string, rest: string, name: string, rep: string)
    requires Proper(n) && Proper(name)
    ensures Replace(Placeholder(n) + rest, Placeholder(name), rep) ==
      (if n == name then rep else Placeholder(n)) + Replace(rest, Placeholder(name), rep)
  {
    var p, pat := Placeholder(n), Placeholder(name);
    var s := p + rest;
    PlaceholderMatches(name, n, rest);
    if n == name {
      assert s[|pat|..] == rest;
    } else {
      var tail := [OPEN] + n + [CLOSE];
      assert p == [DOLLAR] + tail;
      assert s[0] == DOLLAR && s[1..] == tail + rest;
      ReplaceSkips(tail, rest, name, rep);
      assert [DOLLAR] + (tail + Replace(rest, pat, rep)) == p + Replace(rest, pat, rep);
    }
  }

  /** Replacing in the text is filling in the template. */
  lemma {:induction false} ReplaceFills(cs: seq<Chunk>, name: string, rep: string)
    requires AllGood(cs) && Proper(name)
    ensures Replace(Flatten(cs), Placeholder(name), rep) == Flatten(Fill(cs, name, rep))
  {
    if cs != [] {
      ReplaceFills(cs[1..], name, rep);
      assert Fill(cs, name, rep)[1..] == Fill(cs[1..], name, rep);
      assert Good(cs[0]);
      if cs[0].Lit? {
        ReplaceSkips(cs[0].text, Flatten(cs[1..]), name, rep);
      } else {
        ReplaceHole(cs[0].name, Flatten(cs[1..]), name, rep);
      }
    }
  }

  /** All placeholders filled in at once; a name without a value keeps its placeholder. */
  function Substitute(cs: seq<Chunk>, values: map<string, string>): seq<Chunk> {
    seq(|cs|, i requires 0 <= i < |cs| =>
      if cs[i].Hole? && cs[i].name in values then Lit(values[cs[i].name]) else cs[i])
  }

  /** One name after the other. */
  function Sequential(s: string, names: seq<string>, values: map<string, string>): string {
    if names == [] then s
    else
      var n := |names| - 1;
      var before := Sequential(s, names[..n], values);
      if names[n] in values then Replace(before, Placeholder(names[n]), values[names[n]]) else before
  }

  function Restrict(values: map<string, string>, names: seq<string>): map<string, string> {
    map k | k in values && k in names :: values[k]
  }

  predicate ValuesClosed(cs: seq<Chunk>, values: map<string, string>) {
    forall k | k in values && k in Holes(cs) :: Closed(values[k])
  }

  lemma {:induction false} HoleListed(cs: seq<Chunk>, i: nat)
    requires i < |cs| && cs[i].Hole?
    ensures cs[i].name in Holes(cs)
  {
    if i > 0 {
      HoleListed(cs[1..], i - 1);
    }
  }

  lemma {:induction false} HolesAre(cs: seq<Chunk>, name: string)
    requires name in Holes(cs)
    ensures Hole(name) in cs
  {
    if cs[0] != Hole(name) {
      HolesAre(cs[1..], name);
      assert cs == [cs[0]] + cs[1..];
    }
  }

  lemma SubstituteGood(cs: seq<Chunk>, values: map<string, string>)
    requires AllGood(cs) && ValuesClosed(cs, values)
    ensures AllGood(Substitute(cs, values))
  {
    var r := Substitute(cs, values);
    forall i | 0 <= i < |r| ensures Good(r[i]) {
      assert Good(cs[i]);
      if cs[i].Hole? {
        HoleListed(cs, i);
      }
    }
  }

  lemma FillNext(cs: seq<Chunk>, names: seq<string>, values: map<string, string>)
    requires names != []
    ensures
      var n := |names| - 1;
      var before := Substitute(cs, Restrict(values, names[..n]));
      Substitute(cs, Restrict(values, names)) ==
      if names[n] in values then Fill(before, names[n], values[names[n]]) else before
  {
    var n := |names| - 1;
    assert forall k :: k in names <==> k in names[..n] || k == names[n];
  }

  /** Sequential replacement is simultaneous substitution when no value brings in a new "${". */
  lemma {:induction false} SequentialIsSimultaneous(cs: seq<Chunk>, names: seq<string>, values: map<string, string>)
    requires AllGood(cs) && ValuesClosed(cs, values) && forall i | 0 <= i < |names| :: Proper(names[i])
    ensures Sequential(Flatten(cs), names, values) == Flatten(Substitute(cs, Restrict(values, names)))
  {
    if names == [] {
      assert Substitute(cs, Restrict(values, names)) == cs;
    } else {
      var n := |names| - 1;
      var k := names[n];
      var before, after := Restrict(values, names[..n]), Restrict(values, names);
      SequentialIsSimultaneous(cs, names[..n], values);
      hide AllGood, Fill, Substitute, Flatten, Replace;
      SubstituteGood(cs, before);
      FillNext(cs, names, values);
      if k in values {
        ReplaceFills(Substitute(cs, before), k, values[k]);
      }
    }
  }

  lemma {:induction false} NoHolesClean(cs: seq<Chunk>)
    requires AllGood(cs) && Holes(cs) == {}
    ensures Clean(Flatten(cs)) && (cs == [] || Flatten(cs) != "") && (Flatten(cs) == "" || Flatten(cs)[|Flatten(cs)| - 1] != DOLLAR)
  {
    if cs != [] {
      assert Good(cs[0]) && cs[0].Lit?;
      NoHolesClean(cs[1..]);
      CleanConcat(cs[0].text, Flatten(cs[1..]));
    }
  }

  /** With a value for every placeholder, each name listed, none is left. */
  lemma AllFilled(cs: seq<Chunk>, names: seq<string>, values: map<string, string>)
    requires AllGood(cs) && ValuesClosed(cs, values) && forall i | 0 <= i < |names| :: Proper(names[i])
    requires forall k | k in Holes(cs) :: k in names && k in values
    ensures Sequential(Flatten(cs), names, values) == Flatten(Substitute(cs, values))
    ensures Clean(Sequential(Flatten(cs), names, values))
  {
    SequentialIsSimultaneous(cs, names, values);
    var r := Substitute(cs, values);
    forall i | 0 <= i < |cs| && cs[i].Hole? ensures cs[i].name in names && cs[i].name in values {
      HoleListed(cs, i);
    }
    assert r == Substitute(cs, Restrict(values, names));
    SubstituteGood(cs, values);
    if k :| k in Holes(r) {
      HolesAre(r, k);
    }
    NoHolesClean(r);
  }

  /** A value that holds a placeholder listed later is rewritten. */
  lemma ValuesAreRewritten()
    ensures
      var cs := [Hole("A")];
      var values := map["A" := "${B}", "B" := "x"];
      Sequential(Flatten(cs), ["A", "B"], values) == "x" && Flatten(Substitute(cs, values)) == "${B}"
  {
    var cs, values := [Hole("A")], map["A" := "${B}", "B" := "x"];
    var a, b := Placeholder("A"), Placeholder("B");
    assert a == "${A}" && b == "${B}";
    assert cs[1..] == [];
    assert Flatten(cs) == a + "" == a;
    assert a[|a|..] == "";
    assert Replace(a, a, "${B}") == "${B}" + Replace("", a, "${B}") == "${B}";
    assert b[|b|..] == "";
    assert Replace(b, b, "x") == "x" + Replace("", b, "x") == "x";
    var names := ["A", "B"];
    assert names[..1] == ["A"] && names[..1][..0] == [];
    var r := Substitute(cs, values);
    assert r == [Lit("${B}")] && r[1..] == [];
  }
}
