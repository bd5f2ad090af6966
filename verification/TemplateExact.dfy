/**
 When filling in placeholders one name after the other is the same as filling them in at once, for
 values in quotation marks: exactly when no value that is used holds the placeholder of a later name.
 */
module TemplateExact {
  import opened Wrappers
  import opened Text
  import opened Template

  const MARK := '"'

  predicate At(pat: string, s: string, i: int) {
    0 <= i <= |s| && pat <= s[i..]
  }

  ghost predicate Occurs(pat: string, s: string) {
    exists i :: At(pat, s, i)
  }

  /** A text in quotation marks. */
  predicate Sealed(v: string) {
    |v| >= 2 && v[0] == MARK && v[|v| - 1] == MARK
  }

  /** A name that can stand in a placeholder and holds no quotation mark. */
  predicate Plain(name: string) {
    Proper(name) && Free(name, MARK)
  }

  predicate AllPlain(names: seq<string>) {
    forall i | 0 <= i < |names| :: Plain(names[i])
  }

  predicate AllSealed(values: map<string, string>) {
    forall k | k in values :: Sealed(values[k])
  }

  predicate Apart(names: seq<string>) {
    forall i, j | 0 <= i < j < |names| :: names[i] != names[j]
  }

  // ----- Replacing in parts -----

  /** What lies before the first occurrence stays. */
  lemma {:induction false} ReplaceAfter(s: string, pat: string, rep: string, n: nat)
    requires pat != "" && n <= |s| && forall i | 0 <= i < n :: !At(pat, s, i)
    ensures Replace(s, pat, rep) == s[..n] + Replace(s[n..], pat, rep)
  {
    if n == 0 {
      assert s[0..] == s;
    } else {
      assert !At(pat, s, 0) && s[0..] == s;
      var t := s[1..];
      forall i | 0 <= i < n - 1 ensures !At(pat, t, i) {
        assert t[i..] == s[i + 1..];
        assert !At(pat, s, i + 1);
      }
      ReplaceAfter(t, pat, rep, n - 1);
      assert t[n - 1..] == s[n..] && s[..n] == [s[0]] + t[..n - 1];
    }
  }

  /** An occurrence does not reach over a character that the pattern lacks. */
  lemma {:induction false} ReplaceAround(a: string, b: string, pat: string, rep: string)
    requires pat != ""
    requires (a == "" || Free(pat, a[|a| - 1])) || (b == "" || Free(pat, b[0]))
    ensures Replace(a + b, pat, rep) == Replace(a, pat, rep) + Replace(b, pat, rep)
    decreases |a|
  {
    var s := a + b;
    if a == "" {
      assert s == b;
    } else {
      Inside(a, b, pat);
      if pat <= s {
        assert s[|pat|..] == a[|pat|..] + b;
        ReplaceAround(a[|pat|..], b, pat, rep);
      } else {
        assert s[0] == a[0] && s[1..] == a[1..] + b;
        ReplaceAround(a[1..], b, pat, rep);
      }
    }
  }

  lemma Inside(a: string, b: string, pat: string)
    requires pat != "" && a != ""
    requires Free(pat, a[|a| - 1]) || b == "" || Free(pat, b[0])
    ensures pat <= a + b <==> pat <= a
  {
    var s := a + b;
    assert s[|a| - 1] == a[|a| - 1] && (b != "" ==> s[|a|] == b[0]);
    if pat <= s && |pat| <= |a| {
      assert pat == s[..|pat|] == a[..|pat|];
    }
  }

  lemma PlaceholderFree(name: string)
    requires Plain(name)
    ensures Free(Placeholder(name), MARK) && Placeholder(name) != ""
  {
  }

  /** Quotation marks at both ends stay. */
  lemma ReplaceSealed(v: string, name: string, rep: string)
    requires Sealed(v) && Plain(name)
    ensures Sealed(Replace(v, Placeholder(name), rep))
  {
    PlaceholderFree(name);
    var pat := Placeholder(name);
    hide Placeholder;
    var n := |v| - 1;
    assert v == [MARK] + (v[1..n] + [MARK]);
    ReplaceAround([MARK], v[1..n] + [MARK], pat, rep);
    ReplaceAround(v[1..n], [MARK], pat, rep);
    ReplaceMark(pat, rep);
  }

  lemma ReplaceMark(pat: string, rep: string)
    requires pat != "" && Free(pat, MARK)
    ensures Replace([MARK], pat, rep) == [MARK]
  {
    assert [MARK][1..] == "" && pat[0] != MARK;
  }

  // ----- Chunk by chunk -----

  /** What a chunk of the template has become: a value once filled in is rewritten like the rest. */
  function Step(c: Chunk, e: Chunk, name: string, value: string): Chunk {
    if c.Lit? then e
    else if e.Hole? then (if e.name == name then Lit(value) else e)
    else Lit(Replace(e.text, Placeholder(name), value))
  }

  function Evolved(c: Chunk, names: seq<string>, values: map<string, string>): Chunk {
    if names == [] then c
    else
      var n := |names| - 1;
      var e := Evolved(c, names[..n], values);
      if names[n] in values then Step(c, e, names[n], values[names[n]]) else e
  }

  function EvolvedAll(cs: seq<Chunk>, names: seq<string>, values: map<string, string>): seq<Chunk> {
    seq(|cs|, i requires 0 <= i < |cs| => Evolved(cs[i], names, values))
  }

  predicate Ready(c: Chunk, e: Chunk) {
    if c.Lit? then e == c else e == c || (e.Lit? && Sealed(e.text))
  }

  lemma {:induction false} EvolvedReady(c: Chunk, names: seq<string>, values: map<string, string>)
    requires AllPlain(names) && AllSealed(values)
    ensures Ready(c, Evolved(c, names, values))
  {
    if names != [] {
      hide Replace;
      var n := |names| - 1;
      EvolvedReady(c, names[..n], values);
      var e := Evolved(c, names[..n], values);
      if names[n] in values && c.Hole? && e.Lit? {
        ReplaceSealed(e.text, names[n], values[names[n]]);
      }
    }
  }

  lemma ChunkStep(c: Chunk, e: Chunk, rest: string, name: string, value: string)
    requires Good(c) && Ready(c, e) && Plain(name)
    ensures Replace(TextOf(e) + rest, Placeholder(name), value) ==
      TextOf(Step(c, e, name, value)) + Replace(rest, Placeholder(name), value)
  {
    hide Replace;
    if c.Lit? {
      ReplaceSkips(c.text, rest, name, value);
    } else if e.Hole? {
      hide Placeholder;
      ReplaceHole(e.name, rest, name, value);
    } else {
      PlaceholderFree(name);
      hide Placeholder;
      ReplaceAround(e.text, rest, Placeholder(name), value);
    }
  }

  lemma {:induction false} ReplaceSteps(cs: seq<Chunk>, es: seq<Chunk>, fs: seq<Chunk>, name: string, value: string)
    requires AllGood(cs) && |es| == |cs| == |fs| && Plain(name)
    requires forall i | 0 <= i < |cs| :: Ready(cs[i], es[i])
    requires forall i | 0 <= i < |cs| :: fs[i] == Step(cs[i], es[i], name, value)
    ensures Replace(Flatten(es), Placeholder(name), value) == Flatten(fs)
  {
    if cs != [] {
      hide Replace, Placeholder, TextOf, Ready, Step, Good, Plain;
      ReplaceSteps(cs[1..], es[1..], fs[1..], name, value);
      ChunkStep(cs[0], es[0], Flatten(es[1..]), name, value);
    } else {
      assert Placeholder(name) != "";
    }
  }

  /** Replacing in the whole text is replacing in every chunk by itself. */
  lemma {:induction false} SequentialByChunk(cs: seq<Chunk>, names: seq<string>, values: map<string, string>)
    requires AllGood(cs) && AllPlain(names) && AllSealed(values)
    ensures Sequential(Flatten(cs), names, values) == Flatten(EvolvedAll(cs, names, values))
  {
    if names == [] {
      assert EvolvedAll(cs, names, values) == cs;
    } else {
      hide Replace, Placeholder, Flatten, Ready, Step, AllGood, Plain;
      var n := |names| - 1;
      var es, fs := EvolvedAll(cs, names[..n], values), EvolvedAll(cs, names, values);
      SequentialByChunk(cs, names[..n], values);
      if names[n] in values {
        forall i | 0 <= i < |cs| ensures Ready(cs[i], es[i]) {
          EvolvedReady(cs[i], names[..n], values);
        }
        ReplaceSteps(cs, es, fs, names[n], values[names[n]]);
      } else {
        assert es == fs;
      }
    }
  }

  // ----- One value -----

  /** A placeholder of a listed name with a value begins at `i`. */
  ghost predicate Hit(q: string, names: seq<string>, values: map<string, string>, i: int) {
    exists n :: n in names && n in values && At(Placeholder(n), q, i)
  }

  ghost predicate AnyHit(q: string, names: seq<string>, values: map<string, string>) {
    exists i :: Hit(q, names, values, i)
  }

  lemma {:induction false} Untouched(q: string, names: seq<string>, values: map<string, string>)
    requires !AnyHit(q, names, values)
    ensures Sequential(q, names, values) == q
  {
    if names != [] {
      var n := |names| - 1;
      var k := names[n];
      forall i ensures !Hit(q, names[..n], values, i) {
        assert !Hit(q, names, values, i);
      }
      Untouched(q, names[..n], values);
      if k in values {
        forall i | 0 <= i < |q| ensures !At(Placeholder(k), q, i) {
          assert !Hit(q, names, values, i);
        }
        ReplaceAfter(q, Placeholder(k), values[k], |q|);
        assert q[|q|..] == "" && q[..|q|] == q;
      }
    }
  }

  lemma {:induction false} LeastHit(q: string, names: seq<string>, values: map<string, string>, i: int) returns (p: nat)
    requires Hit(q, names, values, i)
    ensures Hit(q, names, values, p) && forall x | 0 <= x < p :: !Hit(q, names, values, x)
    decreases i
  {
    p := i;
    if x :| 0 <= x < i && Hit(q, names, values, x) {
      p := LeastHit(q, names, values, x);
    }
  }

  lemma SamePart(q: string, t: string, p: nat, x: nat, pat: string)
    requires p <= |q| && p <= |t| && t[..p] == q[..p] && x + |pat| <= p
    ensures At(pat, t, x) <==> At(pat, q, x)
  {
    assert t[x..][..|pat|] == t[..p][x..x + |pat|];
    assert q[x..][..|pat|] == q[..p][x..x + |pat|];
  }

  /** No placeholder begins before `p`, where the text has a dollar sign or a quotation mark. */
  lemma NoneBefore(q: string, t: string, p: nat, name: string)
    requires Plain(name) && p < |q| && p < |t| && t[..p] == q[..p] && (t[p] == DOLLAR || t[p] == MARK)
    requires forall x | 0 <= x < p :: !At(Placeholder(name), q, x)
    ensures forall x | 0 <= x < p :: !At(Placeholder(name), t, x)
  {
    var pat := Placeholder(name);
    assert forall i | 0 < i < |pat| :: pat[i] != DOLLAR && pat[i] != MARK;
    forall x | 0 <= x < p ensures !At(pat, t, x) {
      assert t[x..][p - x] == t[p];
      if x + |pat| <= p {
        SamePart(q, t, p, x, pat);
      }
    }
  }

  /** How the text stands at the first hit, before and after its name has had its turn. */
  ghost predicate Marked(q: string, t: string, p: nat, name: string, done: bool) {
    && p < |q| && p < |t| && t[..p] == q[..p]
    && (if done then t[p] == MARK else At(Placeholder(name), t, p))
  }

  lemma DoneStep(q: string, t: string, p: nat, name: string, k: string, value: string)
    requires Marked(q, t, p, name, true) && Plain(k)
    requires forall x | 0 <= x < p :: !At(Placeholder(k), q, x)
    ensures Marked(q, Replace(t, Placeholder(k), value), p, name, true)
  {
    hide At, Replace;
    var pat := Placeholder(k);
    NoneBefore(q, t, p, k);
    ReplaceAfter(t, pat, value, p);
    MarkStays(t[p..], pat, value);
  }

  lemma OpenStep(q: string, t: string, p: nat, name: string, k: string, value: string)
    requires Marked(q, t, p, name, false) && Plain(name) && Plain(k) && Sealed(value)
    requires forall x | 0 <= x < p :: !At(Placeholder(k), q, x)
    ensures Marked(q, Replace(t, Placeholder(k), value), p, name, k == name)
  {
    hide Replace;
    var pat := Placeholder(k);
    assert t[p] == DOLLAR by { assert t[p..][0] == Placeholder(name)[0]; }
    var rest := t[p..][|Placeholder(name)|..];
    assert t[p..] == Placeholder(name) + rest;
    NoneBefore(q, t, p, k);
    ReplaceAfter(t, pat, value, p);
    ReplaceHole(name, rest, k, value);
    hide At;
    StartOf(t[..p], if name == k then value else Placeholder(name), Replace(rest, pat, value), p);
  }

  lemma MarkedStep(q: string, t: string, p: nat, name: string, done: bool, k: string, value: string)
    requires Marked(q, t, p, name, done) && Plain(name) && Plain(k) && Sealed(value)
    requires forall x | 0 <= x < p :: !At(Placeholder(k), q, x)
    ensures Marked(q, Replace(t, Placeholder(k), value), p, name, done || k == name)
  {
    hide Marked, Replace, At;
    if done {
      DoneStep(q, t, p, name, k, value);
    } else {
      OpenStep(q, t, p, name, k, value);
    }
  }

  lemma MarkStays(s: string, pat: string, value: string)
    requires s != "" && s[0] == MARK && pat != "" && pat[0] != MARK
    ensures Replace(s, pat, value) != "" && Replace(s, pat, value)[0] == MARK
  {
  }

  lemma StartOf(a: string, b: string, c: string, p: nat)
    requires |a| == p && b != ""
    ensures var s := a + (b + c); |s| > p && s[..p] == a && s[p] == b[0] && At(b, s, p)
  {
    var s := a + (b + c);
    assert s[p..] == b + c;
  }

  /** A text that holds a listed placeholder comes out different, at a place both texts have. */
  lemma {:induction false} FirstHitIsLost(q: string, names: seq<string>, values: map<string, string>, p: nat, name: string, j: nat)
    requires AllPlain(names) && AllSealed(values) && j <= |names|
    requires name in names && name in values && At(Placeholder(name), q, p)
    requires forall x | 0 <= x < p :: !Hit(q, names, values, x)
    ensures Marked(q, Sequential(q, names[..j], values), p, name, name in names[..j])
  {
    var t := Sequential(q, names[..j], values);
    if j == 0 {
      assert |Placeholder(name)| > 0;
    } else {
      FirstHitIsLost(q, names, values, p, name, j - 1);
      var k := names[j - 1];
      assert names[..j][..j - 1] == names[..j - 1] && names[..j] == names[..j - 1] + [k];
      hide Marked, Replace, Plain;
      if k in values {
        assert Plain(k) && Plain(name);
        forall x | 0 <= x < p ensures !At(Placeholder(k), q, x) {
          assert !Hit(q, names, values, x);
        }
        MarkedStep(q, Sequential(q, names[..j - 1], values), p, name, name in names[..j - 1], k, values[k]);
      }
    }
  }

  ghost predicate Diverge(s: string, t: string) {
    exists p :: Parts(s, t, p)
  }

  ghost predicate Parts(s: string, t: string, p: int) {
    0 <= p < |s| && p < |t| && s[..p] == t[..p] && s[p] != t[p]
  }

  /** One value by itself: it stays exactly when it holds no listed placeholder, and else is told apart. */
  lemma ValueStaysIff(q: string, names: seq<string>, values: map<string, string>)
    requires AllPlain(names) && AllSealed(values)
    ensures !AnyHit(q, names, values) ==> Sequential(q, names, values) == q
    ensures AnyHit(q, names, values) ==> Diverge(Sequential(q, names, values), q)
  {
    if i :| Hit(q, names, values, i) {
      var p := LeastHit(q, names, values, i);
      var name :| name in names && name in values && At(Placeholder(name), q, p);
      FirstHitIsLost(q, names, values, p, name, |names|);
      assert names[..|names|] == names;
      assert q[p..][0] == Placeholder(name)[0];
      assert Parts(Sequential(q, names, values), q, p);
    } else {
      Untouched(q, names, values);
    }
  }

  // ----- The whole template -----

  /** A hole filled in at its name's turn is rewritten by the names that follow. */
  lemma {:induction false} HoleEvolves(k: string, names: seq<string>, values: map<string, string>, at: nat, j: nat)
    requires Apart(names) && at < |names| && names[at] == k && k in values && j <= |names|
    ensures Evolved(Hole(k), names[..j], values) ==
      if j <= at then Hole(k) else Lit(Sequential(values[k], names[at + 1..j], values))
  {
    if j > 0 {
      hide Replace, Placeholder;
      HoleEvolves(k, names, values, at, j - 1);
      assert names[..j][..j - 1] == names[..j - 1];
      if j - 1 > at {
        assert names[at + 1..j][..j - at - 2] == names[at + 1..j - 1];
      }
    }
  }

  lemma {:induction false} HoleStays(k: string, names: seq<string>, values: map<string, string>)
    requires k !in names || k !in values
    ensures Evolved(Hole(k), names, values) == Hole(k)
  {
    if names != [] {
      HoleStays(k, names[..|names| - 1], values);
    }
  }

  lemma {:induction false} LitStays(c: Chunk, names: seq<string>, values: map<string, string>)
    requires c.Lit?
    ensures Evolved(c, names, values) == c
  {
    if names != [] {
      LitStays(c, names[..|names| - 1], values);
    }
  }

  /** The i-th name's value holds the placeholder of a later name that has a value. */
  ghost predicate HoldsLater(names: seq<string>, values: map<string, string>, i: nat)
    requires i < |names| && names[i] in values
  {
    exists j :: i < j < |names| && names[j] in values && Occurs(Placeholder(names[j]), values[names[i]])
  }

  lemma LaterIsHit(names: seq<string>, values: map<string, string>, i: nat)
    requires i < |names| && names[i] in values
    ensures HoldsLater(names, values, i) <==> AnyHit(values[names[i]], names[i + 1..], values)
  {
    var q, later := values[names[i]], names[i + 1..];
    hide At, Placeholder;
    if HoldsLater(names, values, i) {
      var j :| i < j < |names| && names[j] in values && Occurs(Placeholder(names[j]), q);
      var x :| At(Placeholder(names[j]), q, x);
      assert later[j - i - 1] == names[j];
      assert Hit(q, later, values, x);
    }
    if x :| Hit(q, later, values, x) {
      var n :| n in later && n in values && At(Placeholder(n), q, x);
      var j :| 0 <= j < |later| && later[j] == n;
      assert names[i + 1 + j] == n && Occurs(Placeholder(n), q);
    }
  }

  /** What becomes of one chunk, compared with filling in at once. */
  lemma ChunkIff(c: Chunk, names: seq<string>, values: map<string, string>)
    requires Apart(names) && AllPlain(names) && AllSealed(values)
    ensures var e, f := Evolved(c, names, values), AtOnce(c, names, values);
      e == f || (Diverge(TextOf(e), TextOf(f)) && c.Hole? && c.name in names && c.name in values)
    ensures forall i | 0 <= i < |names| && c == Hole(names[i]) && names[i] in values ::
      Evolved(c, names, values) == AtOnce(c, names, values) <==> !HoldsLater(names, values, i)
  {
    hide HoldsLater, Hit, Sequential, Plain, Sealed;
    if c.Lit? {
      LitStays(c, names, values);
    } else if c.name !in names || c.name !in values {
      HoleStays(c.name, names, values);
    } else {
      var at :| 0 <= at < |names| && names[at] == c.name;
      assert names[..|names|] == names && names[at + 1..|names|] == names[at + 1..];
      HoleEvolves(c.name, names, values, at, |names|);
      LaterIsHit(names, values, at);
      ValueStaysIff(values[c.name], names[at + 1..], values);
      assert HoldsLater(names, values, at) ==> Sequential(values[c.name], names[at + 1..], values) != values[c.name];
    }
  }

  function AtOnce(c: Chunk, names: seq<string>, values: map<string, string>): Chunk {
    if c.Hole? && c.name in values && c.name in names then Lit(values[c.name]) else c
  }

  lemma AtOnceIs(cs: seq<Chunk>, names: seq<string>, values: map<string, string>)
    ensures Substitute(cs, Restrict(values, names)) == seq(|cs|, i requires 0 <= i < |cs| => AtOnce(cs[i], names, values))
  {
  }

  lemma {:induction false} FlattenDiffers(es: seq<Chunk>, fs: seq<Chunk>, x: nat)
    requires x < |es| && x < |fs| && es[..x] == fs[..x] && Diverge(TextOf(es[x]), TextOf(fs[x]))
    ensures Flatten(es) != Flatten(fs)
  {
    hide TextOf;
    if x == 0 {
      var a, b := TextOf(es[0]), TextOf(fs[0]);
      var p :| Parts(a, b, p);
      assert Flatten(es)[p] == a[p] && Flatten(fs)[p] == b[p];
    } else {
      assert es[0] == es[..x][0] == fs[..x][0] == fs[0];
      assert es[1..][..x - 1] == es[..x][1..] && fs[1..][..x - 1] == fs[..x][1..];
      FlattenDiffers(es[1..], fs[1..], x - 1);
      var a := TextOf(es[0]);
      assert Flatten(es[1..]) == Flatten(es)[|a|..] && Flatten(fs[1..]) == Flatten(fs)[|a|..];
    }
  }

  /** No value that is used holds the placeholder of a later name. */
  ghost predicate Unharmed(cs: seq<Chunk>, names: seq<string>, values: map<string, string>) {
    forall i | 0 <= i < |names| && names[i] in values && names[i] in Holes(cs) :: !HoldsLater(names, values, i)
  }

  lemma {:induction false} LeastDifference(es: seq<Chunk>, fs: seq<Chunk>, x: nat) returns (y: nat)
    requires |es| == |fs| && x < |es| && es[x] != fs[x]
    ensures y < |es| && es[y] != fs[y] && es[..y] == fs[..y]
  {
    y := x;
    if z :| 0 <= z < x && es[z] != fs[z] {
      y := LeastDifference(es, fs, z);
    }
  }

  /** One name after the other is all at once exactly when no used value holds a later placeholder. */
  lemma SequentialIff(cs: seq<Chunk>, names: seq<string>, values: map<string, string>)
    requires AllGood(cs) && Apart(names) && AllPlain(names) && AllSealed(values)
    ensures Sequential(Flatten(cs), names, values) == Flatten(Substitute(cs, Restrict(values, names)))
        <==> Unharmed(cs, names, values)
  {
    hide HoldsLater, Flatten, Evolved, AtOnce, Substitute, Restrict, Diverge, TextOf, Holes, AllGood, Sequential;
    var es, fs := EvolvedAll(cs, names, values), Substitute(cs, Restrict(values, names));
    SequentialByChunk(cs, names, values);
    AtOnceIs(cs, names, values);
    forall x | 0 <= x < |cs| ensures es[x] == fs[x] || Diverge(TextOf(es[x]), TextOf(fs[x])) {
      ChunkIff(cs[x], names, values);
    }
    if Unharmed(cs, names, values) {
      forall x | 0 <= x < |cs| ensures es[x] == fs[x] {
        ChunkIff(cs[x], names, values);
        if es[x] != fs[x] {
          HoleListed(cs, x);
        }
      }
      assert es == fs;
    } else {
      var i :| 0 <= i < |names| && names[i] in values && names[i] in Holes(cs) && HoldsLater(names, values, i);
      HolesAre(cs, names[i]);
      var x :| 0 <= x < |cs| && cs[x] == Hole(names[i]);
      ChunkIff(cs[x], names, values);
      var y := LeastDifference(es, fs, x);
      FlattenDiffers(es, fs, y);
    }
  }
}
