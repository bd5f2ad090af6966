/** Strings: separators, lines, decimal numbers and Go's string order. */
module Text {
  import opened Wrappers

  predicate Free(s: string, c: char) {
    forall i | 0 <= i < |s| :: s[i] != c
  }

  /** Text before the first separator determines where it ends. */
  lemma FirstSeparator(a: string, b: string, x: string, y: string, c: char)
    requires Free(a, c) && Free(b, c) && a + [c] + x == b + [c] + y
    ensures a == b && x == y
  {
    var s, t := a + [c] + x, b + [c] + y;
    assert s[|a|] == c && forall i | 0 <= i < |a| :: s[i] == a[i] != c;
    assert t[|b|] == c && forall i | 0 <= i < |b| :: t[i] == b[i] != c;
    assert |a| <= |b| && |b| <= |a|;
    assert a == s[..|a|] && b == t[..|b|];
    assert x == s[|a| + 1..] && y == t[|b| + 1..];
  }

  /** What precedes and what follows the first `c`. */
  function Cut(s: string, c: char): Option<(string, string)> {
    if s == "" then None
    else if s[0] == c then Some(("", s[1..]))
    else
      var rest := Cut(s[1..], c);
      if rest.None? then None else Some(([s[0]] + rest.value.0, rest.value.1))
  }

  lemma {:induction false} CutAt(a: string, c: char, b: string)
    requires Free(a, c)
    ensures Cut(a + [c] + b, c) == Some((a, b))
  {
    var s := a + [c] + b;
    if a == "" {
      assert s[1..] == b;
    } else {
      assert s[1..] == a[1..] + [c] + b;
      CutAt(a[1..], c, b);
      assert [a[0]] + a[1..] == a;
    }
  }

  lemma {:induction false} CutShrinks(s: string, c: char)
    requires Cut(s, c).Some?
    ensures |Cut(s, c).value.1| < |s|
  {
    if s[0] != c {
      CutShrinks(s[1..], c);
    }
  }

  // ----- Lines -----

  const NEWLINE := '\n'
  const NUL := '\0'

  function JoinLines(lines: seq<string>): string {
    if lines == [] then "" else lines[0] + [NEWLINE] + JoinLines(lines[1..])
  }

  function SplitLines(text: string): seq<string>
    decreases |text|
  {
    var cut := Cut(text, NEWLINE);
    if cut.None? then (if text == "" then [] else [text])
    else CutShrinks(text, NEWLINE); [cut.value.0] + SplitLines(cut.value.1)
  }

  predicate AllFree(lines: seq<string>, c: char) {
    forall i | 0 <= i < |lines| :: Free(lines[i], c)
  }

  lemma FreeConcat(a: string, b: string, c: char)
    requires Free(a, c) && Free(b, c)
    ensures Free(a + b, c)
  {
  }

  lemma {:induction false} JoinFree(lines: seq<string>, c: char)
    requires AllFree(lines, c) && c != NEWLINE
    ensures Free(JoinLines(lines), c)
  {
    if lines != [] {
      JoinFree(lines[1..], c);
      FreeConcat(lines[0], [NEWLINE], c);
      FreeConcat(lines[0] + [NEWLINE], JoinLines(lines[1..]), c);
    }
  }

  lemma {:induction false} SplitJoined(lines: seq<string>)
    requires AllFree(lines, NEWLINE)
    ensures SplitLines(JoinLines(lines)) == lines
  {
    if lines != [] {
      CutAt(lines[0], NEWLINE, JoinLines(lines[1..]));
      SplitJoined(lines[1..]);
      assert lines == [lines[0]] + lines[1..];
    }
  }

  lemma {:induction false} JoinAppend(a: seq<string>, b: seq<string>)
    ensures JoinLines(a + b) == JoinLines(a) + JoinLines(b)
  {
    if a == [] {
      assert a + b == b;
    } else {
      assert (a + b)[1..] == a[1..] + b;
      JoinAppend(a[1..], b);
    }
  }

  lemma JoinOne(line: string)
    ensures JoinLines([line]) == line + [NEWLINE]
  {
    assert [line][1..] == [];
    assert line + [NEWLINE] + "" == line + [NEWLINE];
  }

  // ----- Prefixes -----

  predicate Starts(s: string, p: string) {
    p <= s
  }

  lemma Strip(p: string, rest: string)
    ensures Starts(p + rest, p) && (p + rest)[|p|..] == rest
  {
  }

  // ----- Decimal numbers -----

  predicate IsDigit(c: char) {
    '0' <= c <= '9'
  }

  function Digit(d: nat): (c: char)
    requires d < 10
    ensures IsDigit(c)
  {
    '0' + d as char
  }

  function NatText(n: nat): (s: string) {
    if n < 10 then [Digit(n)] else NatText(n / 10) + [Digit(n % 10)]
  }

  predicate Digits(s: string) {
    s != "" && forall i | 0 <= i < |s| :: IsDigit(s[i])
  }

  function NatOf(s: string): nat
    requires Digits(s)
  {
    var last := s[|s| - 1] as nat - '0' as nat;
    if |s| == 1 then last else 10 * NatOf(s[..|s| - 1]) + last
  }

  lemma {:induction false} NatRoundTrip(n: nat)
    ensures Digits(NatText(n)) && NatOf(NatText(n)) == n
  {
    if n >= 10 {
      NatRoundTrip(n / 10);
      var s := NatText(n);
      assert s[..|s| - 1] == NatText(n / 10);
      assert s[|s| - 1] == Digit(n % 10);
      assert forall i | 0 <= i < |s| - 1 :: s[i] == NatText(n / 10)[i];
    }
  }

  lemma NatTextInjective(m: nat, n: nat)
    requires NatText(m) == NatText(n)
    ensures m == n
  {
    NatRoundTrip(m);
    NatRoundTrip(n);
  }

  function IntText(n: int): string {
    if n < 0 then "-" + NatText(-n) else NatText(n)
  }

  function IntOf(s: string): Option<int> {
    if Digits(s) then Some(NatOf(s))
    else if s != "" && s[0] == '-' && Digits(s[1..]) then (var n: int := NatOf(s[1..]); Some(-n))
    else None
  }

  lemma IntRoundTrip(n: int)
    ensures IntOf(IntText(n)) == Some(n)
  {
    if n < 0 {
      NatRoundTrip(-n);
      assert IntText(n)[1..] == NatText(-n) && !IsDigit(IntText(n)[0]);
    } else {
      NatRoundTrip(n);
    }
  }

  // ----- Order -----

  /** Go's string order. */
  predicate Leq(a: string, b: string) {
    a == "" || (b != "" && (a[0] < b[0] || (a[0] == b[0] && Leq(a[1..], b[1..]))))
  }

  lemma LeqTotal(a: string, b: string)
    ensures Leq(a, b) || Leq(b, a)
  {
  }

  lemma LeqAntisymmetric(a: string, b: string)
    requires Leq(a, b) && Leq(b, a)
    ensures a == b
  {
    if a != "" {
      LeqAntisymmetric(a[1..], b[1..]);
      assert a == [a[0]] + a[1..] && b == [b[0]] + b[1..];
    }
  }

  lemma LeqTransitive(a: string, b: string, c: string)
    requires Leq(a, b) && Leq(b, c)
    ensures Leq(a, c)
  {
  }

  predicate Sorted(s: seq<string>) {
    forall i, j | 0 <= i <= j < |s| :: i == j || Leq(s[i], s[j])
  }

  function Insert(x: string, s: seq<string>): seq<string> {
    if s == [] || Leq(x, s[0]) then [x] + s else [s[0]] + Insert(x, s[1..])
  }

  function Sort(s: seq<string>): seq<string> {
    if s == [] then [] else Insert(s[0], Sort(s[1..]))
  }

  lemma {:induction false} InsertKeeps(x: string, s: seq<string>)
    requires Sorted(s)
    ensures Sorted(Insert(x, s)) && multiset(Insert(x, s)) == multiset(s) + multiset{x}
  {
    if s == [] {
    } else if Leq(x, s[0]) {
      forall j | 0 < j < |s| ensures Leq(x, s[j]) {
        LeqTransitive(x, s[0], s[j]);
      }
    } else {
      LeqTotal(x, s[0]);
      InsertKeeps(x, s[1..]);
      var r := Insert(x, s[1..]);
      assert s == [s[0]] + s[1..];
      forall j | 0 <= j < |r| ensures Leq(s[0], r[j]) {
        assert r[j] in multiset(r);
        if r[j] != x {
          assert r[j] in multiset(s[1..]);
          var i :| 0 <= i < |s[1..]| && s[1..][i] == r[j];
          assert s[i + 1] == r[j];
        }
      }
    }
  }

  lemma {:induction false} SortSorts(s: seq<string>)
    ensures Sorted(Sort(s)) && multiset(Sort(s)) == multiset(s)
  {
    if s != [] {
      SortSorts(s[1..]);
      InsertKeeps(s[0], Sort(s[1..]));
      assert s == [s[0]] + s[1..];
    }
  }

  lemma HeadIsLeast(s: seq<string>, x: string)
    requires Sorted(s) && x in multiset(s)
    ensures s[0] == x || Leq(s[0], x)
  {
    var i :| 0 <= i < |s| && s[i] == x;
  }

  lemma SameHead(s: seq<string>, t: seq<string>)
    requires Sorted(s) && Sorted(t) && multiset(s) == multiset(t) && s != [] && t != []
    ensures s[0] == t[0]
  {
    assert s[0] in multiset(t) && t[0] in multiset(s);
    HeadIsLeast(t, s[0]);
    HeadIsLeast(s, t[0]);
    if s[0] != t[0] {
      LeqAntisymmetric(s[0], t[0]);
    }
  }

  lemma TailMultiset(s: seq<string>)
    requires s != []
    ensures multiset(s[1..]) == multiset(s) - multiset{s[0]}
  {
    assert s == [s[0]] + s[1..];
  }

  /** Two sorted lists of the same names are the same list. */
  lemma {:induction false} SortedUnique(s: seq<string>, t: seq<string>)
    requires Sorted(s) && Sorted(t) && multiset(s) == multiset(t)
    ensures s == t
  {
    hide Leq;
    assert |s| == |multiset(s)| == |multiset(t)| == |t|;
    if s != [] {
      SameHead(s, t);
      TailMultiset(s);
      TailMultiset(t);
      SortedUnique(s[1..], t[1..]);
      assert s == [s[0]] + s[1..] && t == [t[0]] + t[1..];
    }
  }
}
