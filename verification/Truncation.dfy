/** The length limit on event and status messages, over bytes. */
module Truncation {

  type Byte = b: int | 0 <= b < 256

  const LIMIT := 1024

  /** The UTF-8 encoding of an ellipsis and "(truncated)". */
  const SUFFIX: seq<Byte> :=
    [0xE2, 0x80, 0xA6, 0x28, 0x74, 0x72, 0x75, 0x6E, 0x63, 0x61, 0x74, 0x65, 0x64, 0x29]

  const ROOM := LIMIT - |SUFFIX|

  predicate Tail(b: Byte) {
    0x80 <= b <= 0xBF
  }

  /** utf8.RuneStart: every byte but a continuation byte. */
  predicate RuneStart(b: Byte) {
    !Tail(b)
  }

  /** The bytes that may follow a given first byte (section 4 of RFC 3629). */
  predicate SecondOk(first: Byte, second: Byte) {
    if first == 0xE0 then 0xA0 <= second <= 0xBF
    else if first == 0xED then 0x80 <= second <= 0x9F
    else if first == 0xF0 then 0x90 <= second <= 0xBF
    else if first == 0xF4 then 0x80 <= second <= 0x8F
    else Tail(second)
  }

  /** How many bytes a first byte announces; 0 for one that cannot begin a character. */
  function Announced(first: Byte): nat {
    if first <= 0x7F then 1
    else if 0xC2 <= first <= 0xDF then 2
    else if 0xE0 <= first <= 0xEF then 3
    else if 0xF0 <= first <= 0xF4 then 4
    else 0
  }

  predicate Char(s: seq<Byte>) {
    && 0 < |s| == Announced(s[0])
    && (|s| >= 2 ==> SecondOk(s[0], s[1]))
    && forall i | 2 <= i < |s| :: Tail(s[i])
  }

  /** Valid UTF-8: a sequence of characters, each as the grammar of RFC 3629 allows. */
  predicate Utf8(s: seq<Byte>) {
    s == [] ||
    (var n := Announced(s[0]); 0 < n <= |s| && Char(s[..n]) && Utf8(s[n..]))
  }

  lemma {:induction false} Utf8Concat(a: seq<Byte>, b: seq<Byte>)
    requires Utf8(a) && Utf8(b)
    ensures Utf8(a + b)
  {
    if a == [] {
      assert a + b == b;
    } else {
      var n := Announced(a[0]);
      Utf8Concat(a[n..], b);
      assert (a + b)[..n] == a[..n] && (a + b)[n..] == a[n..] + b;
    }
  }

  /** Cutting before a byte that can begin a character leaves two valid halves. */
  lemma {:induction false} CutAtStart(s: seq<Byte>, i: nat)
    requires Utf8(s) && i < |s| && RuneStart(s[i])
    ensures Utf8(s[..i]) && Utf8(s[i..])
  {
    if i > 0 {
      var n := Announced(s[0]);
      assert i < n ==> Tail(s[..n][i]);
      CutAtStart(s[n..], i - n);
      assert s[..i][..n] == s[..n] && s[..i][n..] == s[n..][..i - n] && s[i..] == s[n..][i - n..];
    }
  }

  /** In valid UTF-8 a character begins at most three bytes before any position. */
  lemma {:induction false} StartNearby(s: seq<Byte>, i: nat)
    requires Utf8(s) && i < |s|
    ensures exists k | i - 3 <= k <= i && 0 <= k :: RuneStart(s[k])
  {
    var n := Announced(s[0]);
    if i < n {
      assert RuneStart(s[0]);
    } else {
      StartNearby(s[n..], i - n);
      var k :| i - n - 3 <= k <= i - n && 0 <= k && RuneStart(s[n..][k]);
      assert RuneStart(s[n + k]);
    }
  }

  lemma SuffixValid()
    ensures Utf8(SUFFIX)
  {
    var ascii := SUFFIX[3..];
    AsciiValid(ascii);
    assert Char(SUFFIX[..3]);
  }

  lemma {:induction false} AsciiValid(s: seq<Byte>)
    requires forall i | 0 <= i < |s| :: s[i] <= 0x7F
    ensures Utf8(s)
  {
    if s != [] { AsciiValid(s[1..]); }
  }

  /**
   truncateMsg. A message over the limit becomes its longest prefix that ends before a
   character start and leaves room for the suffix; valid UTF-8 stays valid and gives up at
   most three bytes of that room.
   */
  method TruncateMsg(s: seq<Byte>) returns (r: seq<Byte>, ghost cut: nat)
    ensures |r| <= LIMIT
    ensures |s| <= LIMIT ==> r == s
    ensures |s| > LIMIT ==> cut <= ROOM && r == s[..cut] + SUFFIX
    ensures |s| > LIMIT ==> cut == 0 || RuneStart(s[cut])
    ensures |s| > LIMIT ==> forall k | cut < k <= ROOM :: !RuneStart(s[k])
    ensures Utf8(s) ==> Utf8(r)
    ensures Utf8(s) && |s| > LIMIT ==> ROOM - 3 <= cut
  {
    if |s| <= LIMIT { return s, 0; }
    var end := ROOM;
    while end > 0 && !RuneStart(s[end])
      invariant 0 <= end <= ROOM
      invariant forall k | end < k <= ROOM :: !RuneStart(s[k])
    {
      end := end - 1;
    }
    r, cut := s[..end] + SUFFIX, end;
    if Utf8(s) {
      StartNearby(s, ROOM);
      if end > 0 { CutAtStart(s, end); }
      SuffixValid();
      Utf8Concat(s[..end], SUFFIX);
    }
  }
}
